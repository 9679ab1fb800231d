/** What the program point of a worker says about its copy, in every reachable state. */
module DeliveryShape {
  import opened Prelude
  import opened Backoff
  import opened JobProtocol

  /** The worker is inside the locked region. */
  predicate Locked(pc: Pc) {
    pc.SetProcessing? || pc.MarkStarted? || pc.RunAgent? || pc.SaveMetadata? || pc.MarkFinished? || pc.SetFinal?
    || pc.Release?
  }

  /** The attempt counted in the worker's own copy of the job. */
  predicate CountsWell(cfg: Config, a: nat, w: Worker) {
    match w.pc
    case PublishRetry(level) =>
      (w.attempt == a && level == 1) || (w.attempt == a + 1 && level == a + 1 && w.attempt < cfg.maxAttempts)
    case SetRetrying => w.attempt == a + 1 && w.attempt < cfg.maxAttempts
    case SetFailed => a <= w.attempt <= a + 1
    case MarkFailed => a <= w.attempt <= a + 1
    case PublishDead(_) => a <= w.attempt <= a + 1
    case Ack => true
    case Requeue => true
    case Discard => true
    case Release(retry) => retry ==> w.attempt == a
    case _ => w.attempt == a
  }

  predicate Shaped(cfg: Config, copy: Copy) {
    match copy.place
    case Main => copy.job.attempt < cfg.Limit()
    case Backoff(level) =>
      copy.job.attempt < cfg.Limit() && 1 <= level <= Levels(cfg.maxAttempts)
      && (level == copy.job.attempt || level == 1)
    case Dead => true
    case Busy(w) =>
      && copy.job.attempt < cfg.Limit()
      && CountsWell(cfg, copy.job.attempt, w)
      && (Locked(w.pc) ==> w.held)
      && (w.pc.ReadStatus? || w.pc.Acquire? ==> !w.held)
      && (w.held || w.pc.Acquire? ==> copy.job.payload.Chat?)
  }

  predicate ShapedEffect(cfg: Config, job: Envelope, e: Effect) {
    && (e.after.Some? ==> Shaped(cfg, Copy(job, e.after.value)))
    && (e.post.Some? ==> Shaped(cfg, e.post.value))
  }

  lemma OpeningKeepsShape(cfg: Config, job: Envelope, w: Worker, status: Option<Status>, lockFree: bool,
                          outcome: Outcome, result: AgentResult)
    requires w.pc.Opening() && Shaped(cfg, Copy(job, Busy(w)))
    ensures ShapedEffect(cfg, job, ActOpening(cfg, job, w, status, lockFree, outcome, result))
  {
  }

  lemma ReportingKeepsShape(cfg: Config, job: Envelope, w: Worker, outcome: Outcome)
    requires w.pc.Reporting() && Shaped(cfg, Copy(job, Busy(w)))
    ensures ShapedEffect(cfg, job, ActReporting(cfg, job, w, outcome))
  {
  }

  lemma ClosingKeepsShape(cfg: Config, job: Envelope, w: Worker, outcome: Outcome)
    requires !w.pc.Opening() && !w.pc.Reporting() && !w.pc.Release? && Shaped(cfg, Copy(job, Busy(w)))
    ensures ShapedEffect(cfg, job, ActClosing(cfg, job, w, outcome))
  {
  }

  lemma ReleaseKeepsShape(cfg: Config, job: Envelope, w: Worker, outcome: Outcome)
    requires w.pc.Release? && Shaped(cfg, Copy(job, Busy(w)))
    ensures ShapedEffect(cfg, job, ActClosing(cfg, job, w, outcome))
  {
  }

  lemma ActKeepsShape(cfg: Config, job: Envelope, w: Worker, status: Option<Status>, lockFree: bool,
                      outcome: Outcome, result: AgentResult)
    requires Shaped(cfg, Copy(job, Busy(w)))
    ensures ShapedEffect(cfg, job, Act(cfg, job, w, status, lockFree, outcome, result))
  {
    if w.pc.Opening() {
      OpeningKeepsShape(cfg, job, w, status, lockFree, outcome, result);
    } else if w.pc.Reporting() {
      ReportingKeepsShape(cfg, job, w, outcome);
    } else if w.pc.Release? {
      ReleaseKeepsShape(cfg, job, w, outcome);
    } else {
      ClosingKeepsShape(cfg, job, w, outcome);
    }
  }

  ghost predicate AllShaped(cfg: Config, s: Sys) {
    forall t | t in s.copies :: Shaped(cfg, s.copies[t])
  }

  lemma ShapedStep(cfg: Config, s: Sys, step: Step)
    requires AllShaped(cfg, s)
    ensures AllShaped(cfg, Next(cfg, s, step))
  {
    if step.Work? && step.tag in s.copies && s.copies[step.tag].place.Busy? {
      var copy := s.copies[step.tag];
      ActKeepsShape(cfg, copy.job, copy.place.worker, StatusOf(s, copy.job.id), LockFree(s, copy.job),
                    step.outcome, step.result);
      ShapedApply(cfg, s, step.tag, WorkEffect(cfg, s, step.tag, step.outcome, step.result));
    } else if step.Crash? && step.tag in s.copies && s.copies[step.tag].place.Busy? {
      ShapedApply(cfg, s, step.tag, CrashEffect(s.copies[step.tag].job, s.copies[step.tag].place.worker));
    }
  }

  lemma ShapedApply(cfg: Config, s: Sys, t: Tag, e: Effect)
    requires AllShaped(cfg, s) && t in s.copies && ShapedEffect(cfg, s.copies[t].job, e)
    ensures AllShaped(cfg, Apply(s, t, e))
  {
  }

  lemma {:induction false} ShapedRun(cfg: Config, steps: seq<Step>)
    ensures AllShaped(cfg, Run(cfg, steps))
  {
    if steps != [] {
      ShapedRun(cfg, steps[..|steps| - 1]);
      ShapedStep(cfg, Run(cfg, steps[..|steps| - 1]), steps[|steps| - 1]);
    }
  }

  /** Every level a worker asks for has its own queue, so the clamp never changes
      it, and the message after the n-th failed attempt asks for level n. */
  lemma LevelsAreNeverClamped(cfg: Config, steps: seq<Step>, t: Tag)
    requires var s := Run(cfg, steps);
             t in s.copies && s.copies[t].place.Busy? && s.copies[t].place.worker.pc.PublishRetry?
    ensures var copy := Run(cfg, steps).copies[t];
            var level := copy.place.worker.pc.level;
            && Clamp(cfg.maxAttempts, level) == level
            && (level == copy.place.worker.attempt || (level == 1 && copy.place.worker.attempt == copy.job.attempt))
  {
    ShapedRun(cfg, steps);
    assert Shaped(cfg, Run(cfg, steps).copies[t]);
  }
}
