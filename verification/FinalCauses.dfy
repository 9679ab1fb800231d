/** Under every schedule a job is reported waiting or completed only after an agent run of that very
    delivery that paused or finished, and waiting only after its metadata was stored. */
module FinalCauses {
  import opened Prelude
  import opened JobProtocol
  import opened NoLoss
  import opened StatusCauses

  /** How far a delivery has come after its agent run. */
  datatype Stage = Saving | Pausing | Finishing

  predicate InStage(pc: Pc, stage: Stage) {
    match stage
    case Saving => pc == SaveMetadata
    case Pausing => pc == MarkFinished(true) || pc == SetFinal(true)
    case Finishing => pc == MarkFinished(false) || pc == SetFinal(false)
  }

  /** The call by which a worker enters the stage. */
  predicate Enters(pc: Pc, outcome: Outcome, result: AgentResult, stage: Stage) {
    match stage
    case Saving => pc == RunAgent && result == Paused
    case Pausing => pc == SaveMetadata && outcome == Done
    case Finishing => pc == RunAgent && result == Finished
  }

  /** An effect that leaves the worker in the stage came from the stage or entered it. */
  predicate StaysOrEnters(w: Worker, e: Effect, outcome: Outcome, result: AgentResult, stage: Stage) {
    e.after.Some? && e.after.value.Busy? && InStage(e.after.value.worker.pc, stage) ==>
      InStage(w.pc, stage) || Enters(w.pc, outcome, result, stage)
  }

  lemma OpeningEnters(cfg: Config, job: Envelope, w: Worker, status: Option<Status>, lockFree: bool,
                      outcome: Outcome, result: AgentResult, stage: Stage)
    requires w.pc.Opening()
    ensures StaysOrEnters(w, ActOpening(cfg, job, w, status, lockFree, outcome, result), outcome, result, stage)
  {
  }

  lemma ReportingEnters(cfg: Config, job: Envelope, w: Worker, outcome: Outcome, result: AgentResult, stage: Stage)
    requires w.pc.Reporting()
    ensures StaysOrEnters(w, ActReporting(cfg, job, w, outcome), outcome, result, stage)
  {
  }

  lemma ClosingEnters(cfg: Config, job: Envelope, w: Worker, outcome: Outcome, result: AgentResult, stage: Stage)
    requires !w.pc.Opening() && !w.pc.Reporting()
    ensures StaysOrEnters(w, ActClosing(cfg, job, w, outcome), outcome, result, stage)
  {
  }

  lemma OnlyTheseEnter(cfg: Config, job: Envelope, w: Worker, status: Option<Status>, lockFree: bool,
                       outcome: Outcome, result: AgentResult, stage: Stage)
    ensures StaysOrEnters(w, Act(cfg, job, w, status, lockFree, outcome, result), outcome, result, stage)
  {
    if w.pc.Opening() {
      OpeningEnters(cfg, job, w, status, lockFree, outcome, result, stage);
    } else if w.pc.Reporting() {
      ReportingEnters(cfg, job, w, outcome, result, stage);
    } else {
      ClosingEnters(cfg, job, w, outcome, result, stage);
    }
  }

  predicate IsAt(s: Sys, t: Tag, j: JobId, stage: Stage) {
    IsBusy(s, t) && s.copies[t].job.id == j && InStage(s.copies[t].place.worker.pc, stage)
  }

  predicate StepEnters(s: Sys, step: Step, t: Tag, j: JobId, stage: Stage) {
    && step.Work? && step.tag == t && IsBusy(s, t) && s.copies[t].job.id == j
    && Enters(s.copies[t].place.worker.pc, step.outcome, step.result, stage)
  }

  lemma EnteredBy(cfg: Config, s: Sys, step: Step, t: Tag, j: JobId, stage: Stage)
    requires Fresh(s) && IsAt(Next(cfg, s, step), t, j, stage) && !IsAt(s, t, j, stage)
    ensures StepEnters(s, step, t, j, stage)
  {
    if !Handles(step, t) {
      OthersLeaveCopy(cfg, s, step, t);
    } else if step.Work? && IsBusy(s, t) {
      var copy := s.copies[t];
      OnlyTheseEnter(cfg, copy.job, copy.place.worker, StatusOf(s, copy.job.id), LockFree(s, copy.job),
                     step.outcome, step.result, stage);
    }
  }

  /** Step i of the schedule is the call of this delivery by which it entered the stage, and the
      delivery has gone on since. */
  ghost predicate Entered(cfg: Config, steps: seq<Step>, i: nat, t: Tag, j: JobId, stage: Stage) {
    i < |steps| && StepEnters(Run(cfg, steps[..i]), steps[i], t, j, stage) && BusySince(cfg, steps, i, t)
  }

  lemma EnteredStays(cfg: Config, before: seq<Step>, steps: seq<Step>, i: nat, t: Tag, j: JobId, stage: Stage)
    requires steps != [] && before == steps[..|steps| - 1] && Entered(cfg, before, i, t, j, stage)
    requires IsBusy(Run(cfg, steps), t)
    ensures Entered(cfg, steps, i, t, j, stage)
  {
    assert before[..i] == steps[..i];
    assert steps[..|steps|] == steps;
    forall m: nat | i < m <= |steps| ensures IsBusy(Run(cfg, steps[..m]), t) {
      if m < |steps| {
        assert before[..m] == steps[..m];
        assert IsBusy(Run(cfg, before[..m]), t);
      }
    }
  }

  lemma {:induction false} StagesHaveAnEntry(cfg: Config, steps: seq<Step>, t: Tag, j: JobId, stage: Stage)
    returns (i: nat)
    requires IsAt(Run(cfg, steps), t, j, stage)
    ensures Entered(cfg, steps, i, t, j, stage)
  {
    i := |steps| - 1;
    var before := steps[..i];
    if IsAt(Run(cfg, before), t, j, stage) {
      i := StagesHaveAnEntry(cfg, before, t, j, stage);
      EnteredStays(cfg, before, steps, i, t, j, stage);
    } else {
      FreshRun(cfg, before);
      EnteredBy(cfg, Run(cfg, before), steps[i], t, j, stage);
      assert steps[..|steps|] == steps;
    }
  }

  /** A delivery that is about to report its job completed has run its agent, and the run finished. */
  lemma CompletedJobsFinished(cfg: Config, steps: seq<Step>, t: Tag, j: JobId) returns (i: nat)
    requires WorksAt(Run(cfg, steps), t, j, SetFinal(false))
    ensures i < |steps| && steps[i].Work? && steps[i].tag == t && steps[i].result == Finished
    ensures WorksAt(Run(cfg, steps[..i]), t, j, RunAgent) && BusySince(cfg, steps, i, t)
  {
    i := StagesHaveAnEntry(cfg, steps, t, j, Finishing);
  }

  /** A delivery that is about to report its job waiting has run its agent, the run paused, and the
      metadata for the answer were stored since. */
  lemma WaitingJobsPaused(cfg: Config, steps: seq<Step>, t: Tag, j: JobId) returns (i: nat, k: nat)
    requires WorksAt(Run(cfg, steps), t, j, SetFinal(true))
    ensures i < k < |steps| && steps[i].Work? && steps[i].tag == t && steps[i].result == Paused
    ensures WorksAt(Run(cfg, steps[..i]), t, j, RunAgent)
    ensures steps[k].Work? && steps[k].tag == t && steps[k].outcome == Done
    ensures WorksAt(Run(cfg, steps[..k]), t, j, SaveMetadata) && BusySince(cfg, steps, k, t)
  {
    k := StagesHaveAnEntry(cfg, steps, t, j, Pausing);
    i := StagesHaveAnEntry(cfg, steps[..k], t, j, Saving);
    assert steps[..k][..i] == steps[..i];
  }
}
