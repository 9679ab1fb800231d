/** No accepted job is lost: as long as its status is not final, some queue or
    some unacknowledged delivery still holds a copy of it. */
module NoLoss {
  import opened Prelude
  import opened JobProtocol
  import opened Scenarios

  /** The message of the copy is still in the broker: queued, dead-lettered or unacknowledged. */
  predicate InBroker(copy: Copy) {
    copy.place.Busy? ==> copy.place.worker.pc != Release(false)
  }

  /** The copy still carries the job: its worker has neither handed the job on nor recorded its end. */
  predicate Carries(place: Place) {
    place.Busy? ==>
      var pc := place.worker.pc;
      !(pc.Ack? || pc.Discard? || pc.MarkFailed? || pc == PublishDead(true) || pc == Release(false))
  }

  predicate Ended(s: Sys, j: JobId) {
    j in s.status && s.status[j].Terminal()
  }

  ghost predicate Carried(s: Sys, j: JobId) {
    exists t :: t in s.copies && s.copies[t].job.id == j && Carries(s.copies[t].place)
  }

  predicate PastPost(pc: ApiPc) {
    pc.SetPostFailed? || pc.DropKey? || pc.Returned? || pc.Raised?
  }

  ghost predicate Kept(s: Sys, j: JobId) {
    Posted(j) in s.log ==>
      && j in s.calls && PastPost(s.calls[j].pc)
      && (Ended(s, j) || Carried(s, j) || Dropped(j) in s.log)
  }

  /** What every call of a worker respects: it hands the job on, or records its
      end, before it lets go of it, and it only writes a status that is not final
      while it carries the job. */
  ghost predicate Careful(job: Envelope, place: Place, ended: bool, e: Effect) {
    && (Carries(place) && !(e.after.Some? && Carries(e.after.value)) ==>
          e.post.Some? || (e.write.Some? && e.write.value.Terminal()) || (e.write.None? && ended)
          || e.event == Dropped(job.id))
    && (e.write.Some? && !e.write.value.Terminal() ==> e.after.Some? && Carries(e.after.value))
    && (e.post.Some? ==> e.post.value.job.id == job.id && Carries(e.post.value.place))
    && !e.event.Posted?
  }

  lemma OpeningIsCareful(cfg: Config, job: Envelope, w: Worker, status: Option<Status>, lockFree: bool,
                         outcome: Outcome, result: AgentResult)
    requires w.pc.Opening()
    ensures Careful(job, Busy(w), status.Some? && status.value.Terminal(),
                    ActOpening(cfg, job, w, status, lockFree, outcome, result))
  {
  }

  lemma ReportingIsCareful(cfg: Config, job: Envelope, w: Worker, ended: bool, outcome: Outcome)
    requires w.pc.Reporting()
    ensures Careful(job, Busy(w), ended, ActReporting(cfg, job, w, outcome))
  {
  }

  lemma ClosingIsCareful(cfg: Config, job: Envelope, w: Worker, ended: bool, outcome: Outcome)
    requires !w.pc.Opening() && !w.pc.Reporting()
    ensures Careful(job, Busy(w), ended, ActClosing(cfg, job, w, outcome))
  {
  }

  lemma ActIsCareful(cfg: Config, job: Envelope, w: Worker, status: Option<Status>, lockFree: bool,
                     outcome: Outcome, result: AgentResult)
    ensures Careful(job, Busy(w), status.Some? && status.value.Terminal(),
                    Act(cfg, job, w, status, lockFree, outcome, result))
  {
    if w.pc.Opening() {
      OpeningIsCareful(cfg, job, w, status, lockFree, outcome, result);
    } else if w.pc.Reporting() {
      ReportingIsCareful(cfg, job, w, status.Some? && status.value.Terminal(), outcome);
    } else {
      ClosingIsCareful(cfg, job, w, status.Some? && status.value.Terminal(), outcome);
    }
  }

  lemma KeptApply(s: Sys, t: Tag, e: Effect, j: JobId)
    requires Fresh(s) && Kept(s, j) && t in s.copies
    requires Careful(s.copies[t].job, s.copies[t].place, Ended(s, s.copies[t].job.id), e)
    ensures Kept(Apply(s, t, e), j)
  {
    var n := Apply(s, t, e);
    if Posted(j) in n.log && !Ended(n, j) && Dropped(j) !in n.log {
      assert s.log <= n.log && n.log[|s.log|] == e.event;
      if e.post.Some? && s.copies[t].job.id == j {
        assert n.copies[s.next] == e.post.value;
      } else if Ended(s, j) {
        assert n.copies[t] == Copy(s.copies[t].job, e.after.value);
      } else {
        var u :| u in s.copies && s.copies[u].job.id == j && Carries(s.copies[u].place);
        if u == t {
          assert e.event in n.log;
          assert n.copies[t] == Copy(s.copies[t].job, e.after.value);
        } else {
          assert n.copies[u] == s.copies[u];
        }
      }
    }
  }

  lemma KeptApi(s: Sys, c: CallId, outcome: Outcome, j: JobId)
    requires Fresh(s) && Kept(s, j) && c in s.calls
    ensures Kept(ApplyApi(s, c, ApiAct(s.calls[c], OwnerOf(s, s.calls[c].key), outcome)), j)
  {
    var e := ApiAct(s.calls[c], OwnerOf(s, s.calls[c].key), outcome);
    var n := ApplyApi(s, c, e);
    if e.post && c == j {
      assert n.copies[s.next].job.id == j && Carries(n.copies[s.next].place);
    } else {
      assert forall x | x in n.log :: x in s.log || x == n.log[|s.log|];
      assert forall x | x in s.log :: x in n.log;
      if Posted(j) in s.log && Carried(s, j) {
        var u :| u in s.copies && s.copies[u].job.id == j && Carries(s.copies[u].place);
        assert n.copies[u] == s.copies[u];
      }
    }
  }

  lemma KeptPlaced(s: Sys, t: Tag, place: Place, event: Event, j: JobId)
    requires Kept(s, j) && t in s.copies && Carries(place) && !event.Posted?
    ensures Kept(Placed(s, t, place, event), j)
  {
    var n := Placed(s, t, place, event);
    assert forall x | x in n.log :: x in s.log || x == event;
    assert forall x | x in s.log :: x in n.log;
    if Posted(j) in s.log && Carried(s, j) {
      var u :| u in s.copies && s.copies[u].job.id == j && Carries(s.copies[u].place);
      assert n.copies[u].job.id == j && Carries(n.copies[u].place);
    }
  }

  lemma KeptStep(cfg: Config, s: Sys, step: Step, j: JobId)
    requires Fresh(s) && Kept(s, j)
    ensures Kept(Next(cfg, s, step), j)
  {
    match step
    case Begin(_, _) =>
    case Api(c, outcome) => if c in s.calls { KeptApi(s, c, outcome, j); }
    case Deliver(t) =>
      if t in s.copies && s.copies[t].place.Main? {
        var job := s.copies[t].job;
        KeptPlaced(s, t, Busy(Worker(ReadStatus, false, job.attempt, false)), Delivered(job.id), j);
      }
    case Work(t, outcome, result) =>
      if t in s.copies && s.copies[t].place.Busy? {
        var copy := s.copies[t];
        ActIsCareful(cfg, copy.job, copy.place.worker, StatusOf(s, copy.job.id), LockFree(s, copy.job), outcome,
            result);
        KeptApply(s, t, WorkEffect(cfg, s, t, outcome, result), j);
      }
    case Crash(t) =>
      if t in s.copies && s.copies[t].place.Busy? {
        KeptApply(s, t, CrashEffect(s.copies[t].job, s.copies[t].place.worker), j);
      }
    case BackoffOver(t) =>
      if t in s.copies && s.copies[t].place.Backoff? { KeptPlaced(s, t, Main, Silent, j); }
    case LockExpires(_) =>
  }

  lemma {:induction false} KeptRun(cfg: Config, steps: seq<Step>, j: JobId)
    ensures Kept(Run(cfg, steps), j)
  {
    if steps != [] {
      var before := steps[..|steps| - 1];
      KeptRun(cfg, before, j);
      FreshRun(cfg, before);
      KeptStep(cfg, Run(cfg, before), steps[|steps| - 1], j);
    }
  }

  /** A call that returned a new job has put it on the main queue. */
  ghost predicate ReturnsArePosted(s: Sys) {
    forall c | c in s.calls && s.calls[c].pc.Returned? && !s.calls[c].pc.duplicate ::
      s.calls[c].pc.job == Some(c) && Posted(c) in s.log
  }

  lemma PostedApi(s: Sys, c: CallId, outcome: Outcome)
    requires Fresh(s) && ReturnsArePosted(s) && c in s.calls
    ensures ReturnsArePosted(ApplyApi(s, c, ApiAct(s.calls[c], OwnerOf(s, s.calls[c].key), outcome)))
  {
    var e := ApiAct(s.calls[c], OwnerOf(s, s.calls[c].key), outcome);
    var n := ApplyApi(s, c, e);
    assert s.log <= n.log && n.log[|s.log|] == if e.post then Posted(c) else Silent;
  }

  lemma PostedStep(cfg: Config, s: Sys, step: Step)
    requires Fresh(s) && ReturnsArePosted(s)
    ensures ReturnsArePosted(Next(cfg, s, step))
  {
    if step.Api? && step.call in s.calls {
      PostedApi(s, step.call, step.outcome);
    } else {
      LogGrows(cfg, s, step);
    }
  }

  lemma LogGrows(cfg: Config, s: Sys, step: Step)
    ensures s.log <= Next(cfg, s, step).log
    ensures |Next(cfg, s, step).log| <= |s.log| + 1
  {
  }

  lemma {:induction false} PostedRun(cfg: Config, steps: seq<Step>)
    ensures ReturnsArePosted(Run(cfg, steps))
  {
    if steps != [] {
      var before := steps[..|steps| - 1];
      PostedRun(cfg, before);
      FreshRun(cfg, before);
      PostedStep(cfg, Run(cfg, before), steps[|steps| - 1]);
    }
  }

  /** Under every schedule of crashes, redeliveries, agent failures and store or
      broker failures, a job whose `publish` returned has a final status, or a copy
      in a queue, in the dead queue or in an unacknowledged delivery, or it was
      dropped by a delivery as described by `DropsAreDoubleFailures`. */
  lemma AcceptedJobsAreKept(cfg: Config, steps: seq<Step>, c: CallId, j: JobId)
    requires c in Run(cfg, steps).calls && Run(cfg, steps).calls[c].pc == Returned(Some(j), false)
    ensures var s := Run(cfg, steps);
            || Ended(s, j)
            || (exists t :: t in s.copies && s.copies[t].job.id == j && InBroker(s.copies[t]))
            || Dropped(j) in s.log
  {
    PostedRun(cfg, steps);
    KeptRun(cfg, steps, j);
  }

  predicate Handles(step: Step, t: Tag) {
    (step.Work? || step.Crash?) && step.tag == t
  }

  predicate WorksAt(s: Sys, t: Tag, j: JobId, pc: Pc) {
    t in s.copies && s.copies[t].job.id == j && s.copies[t].place.Busy? && s.copies[t].place.worker.pc == pc
  }

  /** Step i is the failed write of the failed status by the delivery of copy t,
      and nothing has happened to that delivery since. */
  ghost predicate FailureUnrecorded(cfg: Config, steps: seq<Step>, i: nat, t: Tag, j: JobId) {
    && i < |steps| && steps[i].Work? && steps[i].tag == t && steps[i].outcome != Done
    && WorksAt(Run(cfg, steps[..i]), t, j, SetFailed)
    && forall m | i < m < |steps| :: !Handles(steps[m], t)
  }

  predicate Leaves(e: Effect, pc: Pc) {
    e.after.Some? && e.after.value.Busy? && e.after.value.worker.pc == pc
  }

  lemma OpeningDropsNothing(cfg: Config, job: Envelope, w: Worker, status: Option<Status>, lockFree: bool,
                            outcome: Outcome, result: AgentResult)
    requires w.pc.Opening()
    ensures var e := ActOpening(cfg, job, w, status, lockFree, outcome, result);
            !Leaves(e, PublishDead(false)) && !e.event.Dropped?
  {
  }

  lemma OnlyFromFailedWrite(cfg: Config, job: Envelope, w: Worker, status: Option<Status>, lockFree: bool,
                            outcome: Outcome, result: AgentResult)
    ensures var e := Act(cfg, job, w, status, lockFree, outcome, result);
            && (Leaves(e, PublishDead(false)) ==> w.pc == SetFailed && outcome != Done)
            && (e.event.Dropped? ==> w.pc == PublishDead(false) && outcome == Refused && e.event.job == job.id)
  {
    if w.pc.Opening() {
      OpeningDropsNothing(cfg, job, w, status, lockFree, outcome, result);
    }
  }

  lemma HandledBy(cfg: Config, s: Sys, step: Step, t: Tag, j: JobId)
    requires Handles(step, t) && WorksAt(Next(cfg, s, step), t, j, PublishDead(false)) && Fresh(s)
    ensures step.Work? && step.outcome != Done && WorksAt(s, t, j, SetFailed)
  {
    if step.Work? && t in s.copies && s.copies[t].place.Busy? {
      var copy := s.copies[t];
      OnlyFromFailedWrite(cfg, copy.job, copy.place.worker, StatusOf(s, copy.job.id), LockFree(s, copy.job),
                          step.outcome, step.result);
    }
  }

  /** Once it has begun, only the steps of its own worker move a delivery on. */
  lemma OthersLeaveCopy(cfg: Config, s: Sys, step: Step, t: Tag)
    requires Fresh(s) && !Handles(step, t)
    requires t in Next(cfg, s, step).copies && Next(cfg, s, step).copies[t].place.Busy?
    ensures step == Deliver(t) || (t in s.copies && s.copies[t] == Next(cfg, s, step).copies[t])
  {
    if step.Work? && step.tag in s.copies && s.copies[step.tag].place.Busy? {
      var copy := s.copies[step.tag];
      ActPostsItsJob(cfg, copy.job, copy.place.worker, StatusOf(s, copy.job.id), LockFree(s, copy.job),
                     step.outcome, step.result);
    }
  }

  lemma StaysUnrecorded(cfg: Config, before: seq<Step>, steps: seq<Step>, i: nat, t: Tag, j: JobId)
    requires steps != [] && before == steps[..|steps| - 1] && !Handles(steps[|steps| - 1], t)
    requires FailureUnrecorded(cfg, before, i, t, j)
    ensures FailureUnrecorded(cfg, steps, i, t, j)
  {
    assert before[..i] == steps[..i];
    assert forall m | 0 <= m < |before| :: steps[m] == before[m];
  }

  lemma {:induction false} UnrecordedFailureExists(cfg: Config, steps: seq<Step>, t: Tag, j: JobId)
    requires WorksAt(Run(cfg, steps), t, j, PublishDead(false))
    ensures exists i: nat :: FailureUnrecorded(cfg, steps, i, t, j)
  {
    var n := |steps| - 1;
    var before, step := steps[..n], steps[n];
    FreshRun(cfg, before);
    if Handles(step, t) {
      HandledBy(cfg, Run(cfg, before), step, t, j);
      assert FailureUnrecorded(cfg, steps, n, t, j);
    } else {
      OthersLeaveCopy(cfg, Run(cfg, before), step, t);
      UnrecordedFailureExists(cfg, before, t, j);
      var i: nat :| FailureUnrecorded(cfg, before, i, t, j);
      StaysUnrecorded(cfg, before, steps, i, t, j);
    }
  }

  /** Step k is a refused dead-letter publish for job j by a delivery whose write of the
      failed status, its call before, raised. */
  ghost predicate DoubleFailure(cfg: Config, steps: seq<Step>, k: nat, j: JobId) {
    && k < |steps| && steps[k].Work? && steps[k].outcome == Refused
    && WorksAt(Run(cfg, steps[..k]), steps[k].tag, j, PublishDead(false))
    && exists i: nat :: FailureUnrecorded(cfg, steps[..k], i, steps[k].tag, j)
  }

  lemma DroppedNow(cfg: Config, s: Sys, step: Step, j: JobId)
    requires Dropped(j) !in s.log && Dropped(j) in Next(cfg, s, step).log
    ensures step.Work? && step.outcome == Refused && WorksAt(s, step.tag, j, PublishDead(false))
  {
    LogGrows(cfg, s, step);
    if step.Work? {
      var copy := s.copies[step.tag];
      OnlyFromFailedWrite(cfg, copy.job, copy.place.worker, StatusOf(s, copy.job.id), LockFree(s, copy.job),
                          step.outcome, step.result);
    }
  }

  lemma {:induction false} DropsComeFrom(cfg: Config, steps: seq<Step>, j: JobId) returns (k: nat)
    requires Dropped(j) in Run(cfg, steps).log
    ensures DoubleFailure(cfg, steps, k, j)
  {
    k := |steps| - 1;
    var before := steps[..k];
    if Dropped(j) in Run(cfg, before).log {
      k := DropsComeFrom(cfg, before, j);
      assert before[..k] == steps[..k];
    } else {
      DroppedNow(cfg, Run(cfg, before), steps[k], j);
      UnrecordedFailureExists(cfg, before, steps[k].tag, j);
    }
  }

  lemma {:induction false} DropsAreLogged(cfg: Config, steps: seq<Step>, k: nat, j: JobId)
    requires DoubleFailure(cfg, steps, k, j)
    ensures Dropped(j) in Run(cfg, steps).log
  {
    var n := |steps| - 1;
    var before := steps[..n];
    LogGrows(cfg, Run(cfg, before), steps[n]);
    if k < n {
      assert before[..k] == steps[..k];
      DropsAreLogged(cfg, before, k, j);
    } else {
      var s := Run(cfg, before);
      assert Next(cfg, s, steps[n]).log[|s.log|] == Dropped(j);
    }
  }

  /** A job is dropped if and only if one of its deliveries fails twice in a row: its write
      of the failed status raises and its dead-letter publish, its very next call, is refused. */
  lemma DropsAreDoubleFailures(cfg: Config, steps: seq<Step>, j: JobId)
    ensures Dropped(j) in Run(cfg, steps).log <==> exists k: nat :: DoubleFailure(cfg, steps, k, j)
  {
    if Dropped(j) in Run(cfg, steps).log {
      var k := DropsComeFrom(cfg, steps, j);
    }
    forall k: nat | DoubleFailure(cfg, steps, k, j) ensures Dropped(j) in Run(cfg, steps).log {
      DropsAreLogged(cfg, steps, k, j);
    }
  }

  /** The exception is real: the agent run of an accepted chat job ends for good, its worker
      fails twice, and the job is nowhere and not ended. */
  lemma AJobCanBeDropped(cfg: Config) returns (steps: seq<Step>)
    ensures var s := Run(cfg, steps);
            && 0 in s.calls && s.calls[0] == Call(0, Chat("c"), "", Returned(Some(0), false))
            && !Ended(s, 0) && s.copies == map[]
  {
    var pc := Returned(Some(0), false);
    var a := Queued(cfg, Done);
    LoneDeliver(cfg, a, pc, Published, false);
    var b := RunsTheAgent(cfg, a + [Deliver(3)], pc, NoPendingInput, SetFailed);
    var w := Worker(SetFailed, true, 0, false);
    LoneWork(cfg, b, pc, w, Processing, true, Quiet(Goto(w, PublishDead(false))), Refused, Paused);
    steps := DropsTheJob(cfg, b + [Work(3, Refused, Paused)], pc);
  }

  lemma DropsTheJob(cfg: Config, a: seq<Step>, pc: ApiPc) returns (steps: seq<Step>)
    requires Lone(Run(cfg, a), pc, Some(Busy(Worker(PublishDead(false), true, 0, false))), Processing, true)
    ensures Lone(Run(cfg, steps), pc, None, Processing, false)
  {
    var w := Worker(PublishDead(false), true, 0, false);
    LoneWork(cfg, a, pc, w, Processing, true, Quiet(Goto(w, Discard)).(event := Dropped(0)), Refused, Paused);
    steps := LeavesTheMessage(cfg, a + [Work(3, Refused, Paused)], pc);
  }

  lemma LeavesTheMessage(cfg: Config, a: seq<Step>, pc: ApiPc) returns (steps: seq<Step>)
    requires Lone(Run(cfg, a), pc, Some(Busy(Worker(Discard, true, 0, false))), Processing, true)
    ensures Lone(Run(cfg, steps), pc, None, Processing, false)
  {
    var w := Worker(Discard, true, 0, false);
    LoneWork(cfg, a, pc, w, Processing, true, Quiet(Goto(w, Release(false))), Done, Paused);
    var b := a + [Work(3, Done, Paused)];
    LoneWork(cfg, b, pc, w.(pc := Release(false)), Processing, true, Quiet(None).(lock := Free), Done, Paused);
    steps := b + [Work(3, Done, Paused)];
  }
}
