/** Which steps of a schedule break or block a conversation: the expiry of a lock under a living
    holder, and the calls that leave a lock behind. */
module LockCauses {
  import opened Prelude
  import opened JobProtocol
  import opened DeliveryShape
  import opened MutualExclusion

  /** Step i is the expiry of the lock of conversation c while a delivery holds it. */
  ghost predicate ExpiresHeld(cfg: Config, steps: seq<Step>, i: nat, c: string) {
    i < |steps| && steps[i] == LockExpires(c) && c in Run(cfg, steps[..i]).locks && Held(Run(cfg, steps[..i]), c)
  }

  /** The step leaves the lock of conversation c behind: a lock attempt that raised after taking it,
      a refused release, or the death of a worker that holds it. */
  predicate LeavesLock(s: Sys, step: Step, c: string) {
    && (step.Work? || step.Crash?) && step.tag in s.copies && s.copies[step.tag].place.Busy?
    && s.copies[step.tag].job.payload == Chat(c)
    && var w := s.copies[step.tag].place.worker;
       if step.Crash? then w.held
       else || (w.pc == Acquire && step.outcome == Ambiguous && c !in s.locks)
            || (w.pc.Release? && step.outcome == Refused)
  }

  /** Step i leaves the lock behind, and it has not expired since. */
  ghost predicate LeftBehind(cfg: Config, steps: seq<Step>, i: nat, c: string) {
    && i < |steps| && LeavesLock(Run(cfg, steps[..i]), steps[i], c)
    && forall m: nat | i < m < |steps| :: !ExpiresAt(cfg, steps, m, c)
  }

  ghost predicate ExpiresAt(cfg: Config, steps: seq<Step>, m: nat, c: string)
    requires m < |steps|
  {
    steps[m] == LockExpires(c) && c in Run(cfg, steps[..m]).locks
  }

  lemma OnlyTheseOrphan(cfg: Config, job: Envelope, w: Worker, status: Option<Status>, lockFree: bool,
                        outcome: Outcome, result: AgentResult)
    ensures Act(cfg, job, w, status, lockFree, outcome, result).orphaned <==>
            (w.pc == Acquire && outcome == Ambiguous && lockFree) || (w.pc.Release? && outcome == Refused)
  {
  }

  /** What one step does to the two records of the machine. */
  lemma RecordsStep(cfg: Config, s: Sys, step: Step, c: string)
    ensures var n := Next(cfg, s, step);
            && (c in n.early <==> c in s.early || (step == LockExpires(c) && c in s.locks && c !in s.orphans))
            && (c in n.orphans <==>
                  LeavesLock(s, step, c) || (c in s.orphans && !(step == LockExpires(c) && c in s.locks)))
  {
    if step.Work? && step.tag in s.copies && s.copies[step.tag].place.Busy? {
      var copy := s.copies[step.tag];
      OnlyTheseOrphan(cfg, copy.job, copy.place.worker, StatusOf(s, copy.job.id), LockFree(s, copy.job),
                      step.outcome, step.result);
    }
  }

  lemma {:induction false} EarlyHasACause(cfg: Config, steps: seq<Step>, c: string) returns (i: nat)
    requires c in Run(cfg, steps).early
    ensures ExpiresHeld(cfg, steps, i, c)
  {
    i := |steps| - 1;
    var before := steps[..i];
    RecordsStep(cfg, Run(cfg, before), steps[i], c);
    if c in Run(cfg, before).early {
      i := EarlyHasACause(cfg, before, c);
      assert before[..i] == steps[..i];
    } else {
      ExclusiveRun(cfg, before, c);
    }
  }

  lemma {:induction false} ExpiryIsRecorded(cfg: Config, steps: seq<Step>, i: nat, c: string)
    requires ExpiresHeld(cfg, steps, i, c)
    ensures c in Run(cfg, steps).early
  {
    var n := |steps| - 1;
    var before := steps[..n];
    RecordsStep(cfg, Run(cfg, before), steps[n], c);
    if i < n {
      assert before[..i] == steps[..i];
      ExpiryIsRecorded(cfg, before, i, c);
    } else {
      ExclusiveRun(cfg, before, c);
    }
  }

  lemma {:induction false} OrphansHaveACause(cfg: Config, steps: seq<Step>, c: string) returns (i: nat)
    requires c in Run(cfg, steps).orphans
    ensures LeftBehind(cfg, steps, i, c)
  {
    i := |steps| - 1;
    var before := steps[..i];
    RecordsStep(cfg, Run(cfg, before), steps[i], c);
    if !LeavesLock(Run(cfg, before), steps[i], c) {
      i := OrphansHaveACause(cfg, before, c);
      LeftStays(cfg, before, steps, i, c);
    }
  }

  lemma LeftStays(cfg: Config, before: seq<Step>, steps: seq<Step>, i: nat, c: string)
    requires steps != [] && before == steps[..|steps| - 1] && LeftBehind(cfg, before, i, c)
    requires !ExpiresAt(cfg, steps, |steps| - 1, c)
    ensures LeftBehind(cfg, steps, i, c)
  {
    assert before[..i] == steps[..i];
    forall m: nat | i < m < |steps| ensures !ExpiresAt(cfg, steps, m, c) {
      if m < |before| {
        assert before[..m] == steps[..m];
        assert !ExpiresAt(cfg, before, m, c);
      }
    }
  }

  lemma {:induction false} LeftIsRecorded(cfg: Config, steps: seq<Step>, i: nat, c: string)
    requires LeftBehind(cfg, steps, i, c)
    ensures c in Run(cfg, steps).orphans
  {
    var n := |steps| - 1;
    var before := steps[..n];
    RecordsStep(cfg, Run(cfg, before), steps[n], c);
    if i < n {
      LeftBefore(cfg, before, steps, i, c);
      assert !ExpiresAt(cfg, steps, n, c);
      LeftIsRecorded(cfg, before, i, c);
    }
  }

  lemma LeftBefore(cfg: Config, before: seq<Step>, steps: seq<Step>, i: nat, c: string)
    requires steps != [] && before == steps[..|steps| - 1] && LeftBehind(cfg, steps, i, c) && i < |before|
    ensures LeftBehind(cfg, before, i, c)
  {
    assert before[..i] == steps[..i];
    forall m: nat | i < m < |before| ensures !ExpiresAt(cfg, before, m, c) {
      assert before[..m] == steps[..m];
      assert !ExpiresAt(cfg, steps, m, c);
    }
  }

  /** The records of the machine mean what they say: a conversation is marked early if and only if its
      lock expired while a delivery held it, and orphaned if and only if a lock was left behind and has
      not expired since. */
  lemma RecordsMeanSteps(cfg: Config, steps: seq<Step>, c: string)
    ensures c in Run(cfg, steps).early <==> exists i: nat :: ExpiresHeld(cfg, steps, i, c)
    ensures c in Run(cfg, steps).orphans <==> exists i: nat :: LeftBehind(cfg, steps, i, c)
  {
    if c in Run(cfg, steps).early { var i := EarlyHasACause(cfg, steps, c); }
    if c in Run(cfg, steps).orphans { var i := OrphansHaveACause(cfg, steps, c); }
    forall i: nat | ExpiresHeld(cfg, steps, i, c)
        ensures c in Run(cfg, steps).early { ExpiryIsRecorded(cfg, steps, i, c); }
    forall i: nat | LeftBehind(cfg, steps, i, c)
        ensures c in Run(cfg, steps).orphans { LeftIsRecorded(cfg, steps, i, c); }
  }

  /** In plain terms: unless the lock of the conversation expires while a delivery holds it, at most
      one delivery is in the locked region, and the lock is free if and only if nobody holds it and
      no lock that was left behind is still waiting for its expiry. */
  lemma OneHolderUnlessItExpires(cfg: Config, steps: seq<Step>, c: string, t: Tag, u: Tag)
    requires forall i: nat :: !ExpiresHeld(cfg, steps, i, c)
    ensures var s := Run(cfg, steps);
            && (t in s.copies && u in s.copies && Holds(s.copies[t], c) && Holds(s.copies[u], c) ==> t == u)
            && (c !in s.locks <==> !Held(s, c) && !exists i: nat :: LeftBehind(cfg, steps, i, c))
  {
    RecordsMeanSteps(cfg, steps, c);
    OneJobPerConversation(cfg, steps, c, t, u);
  }
}
