/** Why a final status can be overwritten: every such write goes back to one of three kinds of
    failed calls, and without them the status of a job always follows its automaton. */
module StatusCauses {
  import opened Prelude
  import opened JobProtocol
  import opened NoLoss
  import opened Posting
  import opened Scenarios
  import opened StatusContract

  /** Step i is the failed status read of a delivery of job j on tag t. */
  ghost predicate FailedRead(cfg: Config, steps: seq<Step>, i: nat, t: Tag, j: JobId) {
    && i < |steps| && steps[i].Work? && steps[i].tag == t && steps[i].outcome != Done
    && WorksAt(Run(cfg, steps[..i]), t, j, ReadStatus)
  }

  /** Step i is the final status write of such a delivery, and it raises after taking effect. */
  ghost predicate AmbiguousFinal(cfg: Config, steps: seq<Step>, i: nat, t: Tag, j: JobId) {
    && i < |steps| && steps[i].Work? && steps[i].tag == t && steps[i].outcome == Ambiguous
    && (WorksAt(Run(cfg, steps[..i]), t, j, SetFinal(true)) || WorksAt(Run(cfg, steps[..i]), t, j, SetFinal(false)))
  }

  predicate IsBusy(s: Sys, t: Tag) {
    t in s.copies && s.copies[t].place.Busy?
  }

  /** One and the same delivery on tag t goes on from step i to the end. */
  ghost predicate BusySince(cfg: Config, steps: seq<Step>, i: nat, t: Tag) {
    forall m: nat | i < m <= |steps| :: IsBusy(Run(cfg, steps[..m]), t)
  }

  predicate IsBlind(s: Sys, t: Tag, j: JobId) {
    IsBusy(s, t) && s.copies[t].job.id == j && s.copies[t].place.worker.blind
  }

  /** The call makes its worker blind. */
  predicate Blinds(w: Worker, outcome: Outcome) {
    (w.pc == ReadStatus && outcome != Done) || (w.pc.SetFinal? && outcome == Ambiguous)
  }

  lemma OnlyTheseBlind(cfg: Config, job: Envelope, w: Worker, status: Option<Status>, lockFree: bool,
                       outcome: Outcome, result: AgentResult)
    ensures var e := Act(cfg, job, w, status, lockFree, outcome, result);
            e.after.Some? && e.after.value.Busy? && e.after.value.worker.blind ==> w.blind || Blinds(w, outcome)
  {
  }

  lemma BlindedBy(cfg: Config, s: Sys, step: Step, t: Tag, j: JobId)
    requires Fresh(s) && IsBlind(Next(cfg, s, step), t, j) && !IsBlind(s, t, j)
    ensures step.Work? && step.tag == t && IsBusy(s, t) && s.copies[t].job.id == j
    ensures Blinds(s.copies[t].place.worker, step.outcome)
  {
    if !Handles(step, t) {
      OthersLeaveCopy(cfg, s, step, t);
    } else if step.Work? && IsBusy(s, t) {
      var copy := s.copies[t];
      OnlyTheseBlind(cfg, copy.job, copy.place.worker, StatusOf(s, copy.job.id), LockFree(s, copy.job),
                     step.outcome, step.result);
    }
  }

  /** A blind worker is one whose own delivery contains a failed status read, or a final status
      write that raised after taking effect. */
  lemma {:induction false} BlindnessHasACause(cfg: Config, steps: seq<Step>, t: Tag, j: JobId) returns (i: nat)
    requires IsBlind(Run(cfg, steps), t, j)
    ensures FailedRead(cfg, steps, i, t, j) || AmbiguousFinal(cfg, steps, i, t, j)
    ensures BusySince(cfg, steps, i, t)
  {
    i := |steps| - 1;
    var before := steps[..i];
    assert steps[..|steps|] == steps;
    if IsBlind(Run(cfg, before), t, j) {
      i := BlindnessHasACause(cfg, before, t, j);
      CauseStays(cfg, before, steps, i, t, j);
    } else {
      FreshRun(cfg, before);
      BlindedBy(cfg, Run(cfg, before), steps[i], t, j);
    }
  }

  lemma CauseStays(cfg: Config, before: seq<Step>, steps: seq<Step>, i: nat, t: Tag, j: JobId)
    requires steps != [] && before == steps[..|steps| - 1] && i < |before|
    requires FailedRead(cfg, before, i, t, j) || AmbiguousFinal(cfg, before, i, t, j)
    requires BusySince(cfg, before, i, t) && IsBusy(Run(cfg, steps), t)
    ensures FailedRead(cfg, steps, i, t, j) || AmbiguousFinal(cfg, steps, i, t, j)
    ensures BusySince(cfg, steps, i, t)
  {
    assert before[..i] == steps[..i];
    assert steps[..|steps|] == steps;
    forall m: nat | i < m <= |steps| ensures IsBusy(Run(cfg, steps[..m]), t) {
      if m < |steps| {
        assert before[..m] == steps[..m];
        assert IsBusy(Run(cfg, before[..m]), t);
      }
    }
  }

  /** Step i is one of the three calls for job j after which its status can go wrong. */
  ghost predicate Trouble(cfg: Config, steps: seq<Step>, i: nat, j: JobId) {
    || AmbiguousPost(cfg, steps, i, j)
    || (i < |steps| && steps[i].Work?
        && (FailedRead(cfg, steps, i, steps[i].tag, j) || AmbiguousFinal(cfg, steps, i, steps[i].tag, j)))
  }

  ghost predicate Clean(cfg: Config, steps: seq<Step>, j: JobId) {
    forall i: nat | i < |steps| :: !Trouble(cfg, steps, i, j)
  }

  /** Every overwriting of a final status goes back to one of them. */
  lemma OverwritesHaveACause(cfg: Config, steps: seq<Step>, step: Step, j: JobId) returns (i: nat)
    requires Overwrites(Run(cfg, steps), step, j)
    ensures Trouble(cfg, steps, i, j)
  {
    var s := Run(cfg, steps);
    SoundRun(cfg, steps);
    if step.Work? && s.copies[step.tag].place.worker.blind {
      i := BlindnessHasACause(cfg, steps, step.tag, j);
    } else {
      i := UnansweredIsAmbiguous(cfg, steps, j);
    }
  }

  lemma TroubleStays(cfg: Config, steps: seq<Step>, n: nat, i: nat, j: JobId)
    requires n <= |steps| && Trouble(cfg, steps[..n], i, j)
    ensures Trouble(cfg, steps, i, j)
  {
    assert steps[..n][..i] == steps[..i];
  }

  /** Without overlapping deliveries and without such a call, every step moves the status of the
      job along the automaton. */
  lemma CleanSchedulesFollow(cfg: Config, steps: seq<Step>, i: nat, j: JobId)
    requires NoOverlap(cfg, steps, j) && Clean(cfg, steps, j) && i < |steps|
    ensures Follows(StatusAt(cfg, steps, i, j), StatusAt(cfg, steps, i + 1, j)) && !OverwritesAt(cfg, steps, i, j)
  {
    if OverwritesAt(cfg, steps, i, j) {
      var k := OverwritesHaveACause(cfg, steps[..i], steps[i], j);
      TroubleStays(cfg, steps, i, k, j);
    }
    StatusFollowsTheAutomaton(cfg, steps, i, j);
  }

  /** And a final status is never left. */
  lemma CleanFinalsAreKept(cfg: Config, steps: seq<Step>, i: nat, k: nat, j: JobId)
    requires NoOverlap(cfg, steps, j) && Clean(cfg, steps, j) && i <= k <= |steps|
    requires StatusAt(cfg, steps, i, j).Some? && StatusAt(cfg, steps, i, j).value.Terminal()
    ensures StatusAt(cfg, steps, k, j) == StatusAt(cfg, steps, i, j)
  {
    forall m: nat | i <= m < k ensures !OverwritesAt(cfg, steps, m, j) {
      CleanSchedulesFollow(cfg, steps, m, j);
    }
    FinalStatusIsKept(cfg, steps, i, k, j);
  }

  // Each of the three calls can really lead to an overwritten status.

  lemma {:induction false} NoOverlapAppend(cfg: Config, steps: seq<Step>, more: seq<Step>, j: JobId)
    requires NoOverlap(cfg, steps, j) && steps <= more
    requires forall i | |steps| <= i < |more| :: !more[i].Deliver?
    ensures NoOverlap(cfg, more, j)
    decreases |more|
  {
    if |more| > |steps| {
      NoOverlapAppend(cfg, steps, more[..|more| - 1], j);
    } else {
      assert more == steps;
    }
  }

  lemma FirstDeliveryIsAlone(cfg: Config, steps: seq<Step>, pc: ApiPc, status: Status, locked: bool)
    requires Lone(Run(cfg, steps), pc, Some(Main), status, locked) && NoOverlap(cfg, steps, 0)
    ensures NoOverlap(cfg, steps + [Deliver(3)], 0)
    ensures Lone(Run(cfg, steps + [Deliver(3)]), pc, Some(Busy(FirstDelivery)), status, locked)
  {
    NoOverlapSnoc(cfg, steps, Deliver(3), 0);
    LoneDeliver(cfg, steps, pc, status, locked);
  }

  /** The job is published, delivered and run, and its worker is about to write the final status. */
  lemma AboutToComplete(cfg: Config, post: Outcome) returns (pc: ApiPc, steps: seq<Step>)
    requires post != Refused
    ensures pc == if post == Done then Returned(Some(0), false) else SetPostFailed
    ensures NoOverlap(cfg, steps, 0)
    ensures Lone(Run(cfg, steps), pc, Some(Busy(Worker(SetFinal(false), true, 0, false))), Processing, true)
  {
    pc := if post == Done then Returned(Some(0), false) else SetPostFailed;
    var a := Queued(cfg, post);
    NoOverlapAppend(cfg, [], a, 0);
    FirstDeliveryIsAlone(cfg, a, pc, Published, false);
    var b := RunsTheAgent(cfg, a + [Deliver(3)], pc, Finished, MarkFinished(false));
    var w := Worker(MarkFinished(false), true, 0, false);
    LoneWork(cfg, b, pc, w, Processing, true, Quiet(Goto(w, SetFinal(false))), Done, Paused);
    steps := b + [Work(3, Done, Paused)];
    NoOverlapAppend(cfg, a + [Deliver(3)], steps, 0);
  }

  lemma Completes(cfg: Config, steps: seq<Step>, pc: ApiPc)
    requires NoOverlap(cfg, steps, 0)
    requires Lone(Run(cfg, steps), pc, Some(Busy(Worker(SetFinal(false), true, 0, false))), Processing, true)
    ensures NoOverlap(cfg, steps + [Work(3, Done, Paused)], 0)
    ensures Lone(Run(cfg, steps + [Work(3, Done, Paused)]), pc, Some(Busy(Worker(Ack, true, 0, false))), Completed,
            true)
  {
    var w := Worker(SetFinal(false), true, 0, false);
    NoOverlapAppend(cfg, steps, steps + [Work(3, Done, Paused)], 0);
    LoneWork(cfg, steps, pc, w, Processing, true, Quiet(Goto(w, Ack)).(write := Some(Completed)), Done, Paused);
  }

  /** The broker call of `publish` raises after queueing the message. The job is delivered once and
      completes, all calls of its worker succeed, and then `publish` records it as failed. */
  lemma APublishOverwritesASuccess(cfg: Config) returns (steps: seq<Step>)
    ensures NoOverlap(cfg, steps + [Api(0, Done)], 0)
    ensures StatusOf(Run(cfg, steps), 0) == Some(Completed)
    ensures StatusOf(Run(cfg, steps + [Api(0, Done)]), 0) == Some(Failed)
  {
    var pc, a := AboutToComplete(cfg, Ambiguous);
    Completes(cfg, a, pc);
    steps := a + [Work(3, Done, Paused)];
    LoneApi(cfg, steps, pc, Some(Busy(Worker(Ack, true, 0, false))), Completed, true,
            Move(DropKey).(write := Some(Failed)), Done);
    NoOverlapAppend(cfg, steps, steps + [Api(0, Done)], 0);
  }

  /** The same race the other way round: the worker completes the job that `publish` has failed. */
  lemma ASuccessOverwritesAPublish(cfg: Config) returns (steps: seq<Step>)
    ensures NoOverlap(cfg, steps + [Work(3, Done, Paused)], 0)
    ensures StatusOf(Run(cfg, steps), 0) == Some(Failed)
    ensures StatusOf(Run(cfg, steps + [Work(3, Done, Paused)]), 0) == Some(Completed)
  {
    var pc, a := AboutToComplete(cfg, Ambiguous);
    var w := Worker(SetFinal(false), true, 0, false);
    LoneApi(cfg, a, pc, Some(Busy(w)), Processing, true, Move(DropKey).(write := Some(Failed)), Done);
    steps := a + [Api(0, Done)];
    LoneWork(cfg, steps, DropKey, w, Failed, true, Quiet(Goto(w, Ack)).(write := Some(Completed)), Done, Paused);
    NoOverlapAppend(cfg, a, steps + [Work(3, Done, Paused)], 0);
  }

  /** A blind worker at the start of its retry writes over a completed job. */
  lemma ABlindRetryOverwrites(cfg: Config, steps: seq<Step>, pc: ApiPc, held: bool, locked: bool)
    requires NoOverlap(cfg, steps, 0)
    requires var w := Counted(cfg, Worker(ReadStatus, held, 0, true));
             Lone(Run(cfg, steps), pc, Some(Busy(w)), Completed, locked)
    ensures NoOverlap(cfg, steps + [Work(3, Done, Paused)], 0)
    ensures StatusOf(Run(cfg, steps + [Work(3, Done, Paused)]), 0) ==
            Some(if cfg.maxAttempts > 1 then Retrying else Failed)
  {
    var w := Counted(cfg, Worker(ReadStatus, held, 0, true));
    var e := if cfg.maxAttempts > 1 then Quiet(Goto(w, PublishRetry(1))).(write := Some(Retrying))
             else Quiet(Goto(w, MarkFailed)).(write := Some(Failed));
    LoneWork(cfg, steps, pc, w, Completed, locked, e, Done, Paused);
    NoOverlapAppend(cfg, steps, steps + [Work(3, Done, Paused)], 0);
  }

  /** The worker crashes between the final status and the acknowledgement, and the status read of
      the redelivery fails: a completed job becomes retrying, or failed. */
  lemma AFailedReadOverwrites(cfg: Config) returns (steps: seq<Step>)
    ensures NoOverlap(cfg, steps + [Work(3, Done, Paused)], 0)
    ensures StatusOf(Run(cfg, steps), 0) == Some(Completed)
    ensures StatusOf(Run(cfg, steps + [Work(3, Done, Paused)]), 0) ==
            Some(if cfg.maxAttempts > 1 then Retrying else Failed)
  {
    var pc, a := AboutToComplete(cfg, Done);
    Completes(cfg, a, pc);
    var b := a + [Work(3, Done, Paused)];
    LoneCrash(cfg, b, pc, Worker(Ack, true, 0, false), Completed, true);
    var c := b + [Crash(3)];
    NoOverlapAppend(cfg, b, c, 0);
    FirstDeliveryIsAlone(cfg, c, pc, Completed, true);
    var d := c + [Deliver(3)];
    LoneWork(cfg, d, pc, FirstDelivery, Completed, true,
             Quiet(Some(Busy(Counted(cfg, FirstDelivery.(blind := true))))), Refused, Paused);
    steps := d + [Work(3, Refused, Paused)];
    NoOverlapAppend(cfg, d, steps, 0);
    ABlindRetryOverwrites(cfg, steps, pc, false, true);
  }

  /** The final status write raises after taking effect: the delivery itself makes its completed
      job retrying, or failed. */
  lemma AnAmbiguousFinalOverwrites(cfg: Config) returns (steps: seq<Step>)
    ensures NoOverlap(cfg, steps + [Work(3, Done, Paused)], 0)
    ensures StatusOf(Run(cfg, steps), 0) == Some(Completed)
    ensures StatusOf(Run(cfg, steps + [Work(3, Done, Paused)]), 0) ==
            Some(if cfg.maxAttempts > 1 then Retrying else Failed)
  {
    var pc, a := AboutToComplete(cfg, Done);
    var w, v := Worker(SetFinal(false), true, 0, false), Worker(Release(true), true, 0, true);
    LoneWork(cfg, a, pc, w, Processing, true, Quiet(Some(Busy(v))).(write := Some(Completed)), Ambiguous, Paused);
    var b := a + [Work(3, Ambiguous, Paused)];
    NoOverlapAppend(cfg, a, b, 0);
    steps := b + [Work(3, Done, Paused)];
    GivesUpTheLock(cfg, b, pc);
    ABlindRetryOverwrites(cfg, steps, pc, false, false);
  }

  lemma GivesUpTheLock(cfg: Config, steps: seq<Step>, pc: ApiPc)
    requires NoOverlap(cfg, steps, 0)
    requires Lone(Run(cfg, steps), pc, Some(Busy(Worker(Release(true), true, 0, true))), Completed, true)
    ensures NoOverlap(cfg, steps + [Work(3, Done, Paused)], 0)
    ensures var w := Counted(cfg, Worker(ReadStatus, false, 0, true));
            Lone(Run(cfg, steps + [Work(3, Done, Paused)]), pc, Some(Busy(w)), Completed, false)
  {
    var v := Worker(Release(true), true, 0, true);
    LoneWork(cfg, steps, pc, v, Completed, true,
             Quiet(Some(Busy(Counted(cfg, v.(held := false))))).(lock := Free), Done, Paused);
    NoOverlapAppend(cfg, steps, steps + [Work(3, Done, Paused)], 0);
  }
}
