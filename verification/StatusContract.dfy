/** The status of a job follows a fixed automaton and a final status is never left,
    as long as the deliveries of the job do not overlap. */
module StatusContract {
  import opened Prelude
  import opened JobProtocol
  import opened DeliveryShape
  import opened NoLoss

  /** The transitions of a job's status. */
  predicate Follows(a: Option<Status>, b: Option<Status>) {
    a == b || (b.Some? &&
      match a
      case None => b.value == Published
      case Some(Published) => b.value == Processing || b.value == Retrying || b.value == Failed
      case Some(Processing) => b.value == Retrying || b.value.Terminal()
      case Some(Retrying) => b.value == Processing || b.value == Failed
      case Some(_) => false)
  }

  /** A delivery that can still write the status. */
  predicate Active(copy: Copy) {
    copy.place.Busy? && copy.place.worker.pc != Release(false)
  }

  /** No delivery of job j is active. */
  ghost predicate Quiescent(s: Sys, j: JobId) {
    forall t | t in s.copies && s.copies[t].job.id == j :: !Active(s.copies[t])
  }

  /** Every delivery of job j starts when no earlier one is active. */
  ghost predicate NoOverlap(cfg: Config, steps: seq<Step>, j: JobId) {
    steps != [] ==>
      var before := steps[..|steps| - 1];
      NoOverlap(cfg, before, j) && StartsAlone(Run(cfg, before), steps[|steps| - 1], j)
  }

  ghost predicate StartsAlone(s: Sys, step: Step, j: JobId) {
    step.Deliver? && step.tag in s.copies && s.copies[step.tag].job.id == j && s.copies[step.tag].place.Main? ==>
      Quiescent(s, j)
  }

  /** The status that a worker is about to write. */
  function WriteOf(pc: Pc): Option<Status> {
    match pc
    case SetProcessing => Some(Processing)
    case SetFinal(paused) => Some(if paused then Waiting else Completed)
    case SetRetrying => Some(Retrying)
    case SetFailed => Some(Failed)
    case _ => None
  }

  /** The write takes effect over a different final status. */
  predicate Replaces(w: Worker, outcome: Outcome, st: Option<Status>) {
    && outcome != Refused && st.Some? && st.value.Terminal()
    && WriteOf(w.pc).Some? && WriteOf(w.pc) != st
  }

  predicate PublishReturned(s: Sys, j: JobId) {
    j in s.calls && s.calls[j].pc.Returned?
  }

  /** The step is such a write by a delivery of job j that is blind (its status read failed, or its
      final status write raised after taking effect) or whose `publish` did not return, or it is
      the write of the failed status by that `publish` over a success. */
  predicate Overwrites(s: Sys, step: Step, j: JobId) {
    || (&& step.Work? && step.tag in s.copies && s.copies[step.tag].job.id == j && s.copies[step.tag].place.Busy?
        && var w := s.copies[step.tag].place.worker;
           Replaces(w, step.outcome, StatusOf(s, j)) && (w.blind || !PublishReturned(s, j)))
    || (&& step.Api? && step.call == j && j in s.calls && s.calls[j].pc == SetPostFailed
        && step.outcome != Refused && (StatusOf(s, j) == Some(Waiting) || StatusOf(s, j) == Some(Completed)))
  }

  /** What a worker knows about the status; a blind one only reschedules, dead-letters or leaves. */
  predicate Fits(w: Worker, st: Option<Status>) {
    if w.blind then !w.pc.Opening() && (w.pc.Reporting() ==> w.pc.SetRetrying? || w.pc.PublishRetry?)
    else if w.pc.MarkStarted? || w.pc.RunAgent? || w.pc.SaveMetadata? || w.pc.MarkFinished? || w.pc.SetFinal? then
      st == Some(Processing)
    else if w.pc.Acquire? || w.pc.SetProcessing? || w.pc.SetRetrying? || w.pc.SetFailed? || w.pc == Release(true) then
      st.Some? && !st.value.Terminal()
    else true
  }

  /** The same when the `publish` call has not returned and may write the failed status at any time. */
  predicate FitsCall(w: Worker, st: Option<Status>, returned: bool) {
    Fits(w, st) || (!returned && !w.blind && st == Some(Failed))
  }

  function StatusAfter(st: Option<Status>, e: Effect): Option<Status> {
    if e.write.Some? then e.write else st
  }

  ghost predicate Lawful(w: Worker, returned: bool, outcome: Outcome, st: Option<Status>, e: Effect) {
    var after := StatusAfter(st, e);
    && (Follows(st, after) <==> !(Replaces(w, outcome, st) && (w.blind || !returned)))
    && (e.after.Some? && e.after.value.Busy? ==> FitsCall(e.after.value.worker, after, returned))
    && (e.post.Some? ==> !e.post.value.place.Busy?)
  }

  lemma OpeningIsLawful(cfg: Config, job: Envelope, w: Worker, returned: bool, st: Option<Status>, lockFree: bool,
                        outcome: Outcome, result: AgentResult)
    requires w.pc.Opening() && FitsCall(w, st, returned) && st.Some?
    ensures Lawful(w, returned, outcome, st, ActOpening(cfg, job, w, st, lockFree, outcome, result))
  {
  }

  lemma ReportingIsLawful(cfg: Config, job: Envelope, w: Worker, returned: bool, st: Option<Status>, outcome: Outcome)
    requires w.pc.Reporting() && FitsCall(w, st, returned) && st.Some?
    ensures Lawful(w, returned, outcome, st, ActReporting(cfg, job, w, outcome))
  {
  }

  lemma ClosingIsLawful(cfg: Config, job: Envelope, w: Worker, returned: bool, st: Option<Status>, outcome: Outcome)
    requires !w.pc.Opening() && !w.pc.Reporting() && FitsCall(w, st, returned) && st.Some?
    ensures Lawful(w, returned, outcome, st, ActClosing(cfg, job, w, outcome))
  {
  }

  lemma ActIsLawful(cfg: Config, job: Envelope, w: Worker, returned: bool, st: Option<Status>, lockFree: bool,
                    outcome: Outcome, result: AgentResult)
    requires FitsCall(w, st, returned) && st.Some?
    ensures Lawful(w, returned, outcome, st, Act(cfg, job, w, st, lockFree, outcome, result))
  {
    if w.pc.Opening() {
      OpeningIsLawful(cfg, job, w, returned, st, lockFree, outcome, result);
    } else if w.pc.Reporting() {
      ReportingIsLawful(cfg, job, w, returned, st, outcome);
    } else {
      ClosingIsLawful(cfg, job, w, returned, st, outcome);
    }
  }

  /** What the progress of the `publish` call says about the status of its job. */
  predicate CallFits(pc: ApiPc, st: Option<Status>) {
    && (pc.ClaimKey? || pc.ReadOwner? || pc.SetPublished? ==> st == None)
    && (pc.MarkPublished? || pc.Post? ==> st == Some(Published))
    && (pc.SetPostFailed? ==> st.Some?)
  }

  ghost predicate Orderly(s: Sys, j: JobId) {
    && (j in s.status ==> j in s.calls)
    && (j in s.calls ==> CallFits(s.calls[j].pc, StatusOf(s, j)))
    && (forall t | t in s.copies && s.copies[t].job.id == j ::
          && j in s.status && PastPost(s.calls[j].pc)
          && (Active(s.copies[t]) ==> FitsCall(s.copies[t].place.worker, StatusOf(s, j), PublishReturned(s, j))))
    && (forall t, u | t in s.copies && u in s.copies && s.copies[t].job.id == j && s.copies[u].job.id == j
                      && Active(s.copies[t]) && Active(s.copies[u]) :: t == u)
  }

  ghost predicate StepFollows(s: Sys, n: Sys, step: Step, j: JobId) {
    Follows(StatusOf(s, j), StatusOf(n, j)) <==> !Overwrites(s, step, j)
  }

  lemma OrderlyOther(s: Sys, t: Tag, e: Effect, j: JobId)
    requires Fresh(s) && Orderly(s, j) && t in s.copies && s.copies[t].job.id != j
    requires e.post.Some? ==> e.post.value.job.id == s.copies[t].job.id
    ensures Orderly(Apply(s, t, e), j) && StatusOf(Apply(s, t, e), j) == StatusOf(s, j)
  {
    var n := Apply(s, t, e);
    assert forall u | u in n.copies && n.copies[u].job.id == j :: u in s.copies && n.copies[u] == s.copies[u];
  }

  lemma OrderlyOwn(s: Sys, t: Tag, outcome: Outcome, e: Effect, j: JobId)
    requires Fresh(s) && Orderly(s, j) && t in s.copies && s.copies[t].job.id == j && Active(s.copies[t])
    requires Lawful(s.copies[t].place.worker, PublishReturned(s, j), outcome, StatusOf(s, j), e)
    ensures Orderly(Apply(s, t, e), j) && StatusOf(Apply(s, t, e), j) == StatusAfter(StatusOf(s, j), e)
  {
    var n := Apply(s, t, e);
    assert forall u | u in n.copies && u != t && u != s.next :: u in s.copies && n.copies[u] == s.copies[u];
    assert forall u | u in n.copies && n.copies[u].job.id == j && Active(n.copies[u]) :: u == t;
  }

  lemma OrderlyWork(cfg: Config, s: Sys, step: Step, j: JobId)
    requires Fresh(s) && Orderly(s, j) && step.Work? && step.tag in s.copies && s.copies[step.tag].place.Busy?
    ensures var n := Next(cfg, s, step); Orderly(n, j) && StepFollows(s, n, step, j)
  {
    var copy := s.copies[step.tag];
    var e := WorkEffect(cfg, s, step.tag, step.outcome, step.result);
    if copy.job.id != j {
      ActPostsItsJob(cfg, copy.job, copy.place.worker, StatusOf(s, copy.job.id), LockFree(s, copy.job),
                     step.outcome, step.result);
      OrderlyOther(s, step.tag, e, j);
    } else if Active(copy) {
      ActIsLawful(cfg, copy.job, copy.place.worker, PublishReturned(s, j), StatusOf(s, j), LockFree(s, copy.job),
                  step.outcome, step.result);
      OrderlyOwn(s, step.tag, step.outcome, e, j);
    } else {
      OrderlyGone(s, step.tag, e, j);
    }
  }

  lemma OrderlyGone(s: Sys, t: Tag, e: Effect, j: JobId)
    requires Fresh(s) && Orderly(s, j) && t in s.copies && e.write.None? && e.post.None?
    requires e.after.None? || e.after == Some(Main)
    ensures var n := Apply(s, t, e); Orderly(n, j) && StatusOf(n, j) == StatusOf(s, j)
  {
    var n := Apply(s, t, e);
    assert forall u | u in n.copies && u != t :: u in s.copies && n.copies[u] == s.copies[u];
  }

  lemma OrderlyPlaced(s: Sys, t: Tag, place: Place, event: Event, j: JobId)
    requires Orderly(s, j) && t in s.copies && !s.copies[t].place.Busy?
    requires place.Busy? ==> place.worker.pc == ReadStatus && !place.worker.blind
    requires s.copies[t].job.id == j && place.Busy? ==> Quiescent(s, j)
    ensures var n := Placed(s, t, place, event); Orderly(n, j) && StatusOf(n, j) == StatusOf(s, j)
  {
    var n := Placed(s, t, place, event);
    assert forall u | u in n.copies && u != t :: u in s.copies && n.copies[u] == s.copies[u];
  }

  /** What one call of `publish` does to the status of its own job. */
  predicate ApiLawful(pc: ApiPc, st: Option<Status>, e: ApiEffect) {
    var after := if e.write.Some? then e.write else st;
    && CallFits(e.pc, after)
    && (Follows(st, after)
        <==> !(e.write.Some? && pc == SetPostFailed && (st == Some(Waiting) || st == Some(Completed))))
    && (PastPost(pc) || e.post ==> PastPost(e.pc))
    && (e.post ==> after.Some? && !PastPost(pc))
    && (e.write.Some? && PastPost(pc) ==> pc == SetPostFailed && e.write == Some(Failed) && !e.pc.Returned?)
    && (PastPost(pc) ==> (e.pc.Returned? <==> pc.Returned?))
  }

  lemma ApiActIsLawful(call: Call, owner: Option<JobId>, st: Option<Status>, outcome: Outcome)
    requires CallFits(call.pc, st)
    ensures var e := ApiAct(call, owner, outcome);
            ApiLawful(call.pc, st, e) && (call.pc == SetPostFailed ==> (e.write.Some? <==> outcome != Refused))
  {
  }

  lemma OrderlyOtherCall(s: Sys, c: CallId, e: ApiEffect, j: JobId)
    requires Fresh(s) && Orderly(s, j) && c in s.calls && c != j
    ensures var n := ApplyApi(s, c, e); Orderly(n, j) && StatusOf(n, j) == StatusOf(s, j)
  {
    var n := ApplyApi(s, c, e);
    assert forall u | u in n.copies && n.copies[u].job.id == j :: u in s.copies && n.copies[u] == s.copies[u];
  }

  lemma OrderlyOwnCall(s: Sys, e: ApiEffect, j: JobId)
    requires Fresh(s) && Orderly(s, j) && j in s.calls && ApiLawful(s.calls[j].pc, StatusOf(s, j), e)
    ensures var n := ApplyApi(s, j, e);
            Orderly(n, j) && StatusOf(n, j) == if e.write.Some? then e.write else StatusOf(s, j)
  {
    var n := ApplyApi(s, j, e);
    assert forall u | u in n.copies && u != s.next :: u in s.copies && n.copies[u] == s.copies[u];
    assert forall u | u in n.copies && Active(n.copies[u]) :: u in s.copies && n.copies[u] == s.copies[u];
  }

  lemma OrderlyStep(cfg: Config, s: Sys, step: Step, j: JobId)
    requires Fresh(s) && Orderly(s, j) && StartsAlone(s, step, j)
    ensures var n := Next(cfg, s, step); Orderly(n, j) && StepFollows(s, n, step, j)
  {
    match step
    case Begin(_, _) =>
    case Api(c, outcome) =>
      if c in s.calls {
        var e := ApiAct(s.calls[c], OwnerOf(s, s.calls[c].key), outcome);
        if c == j {
          ApiActIsLawful(s.calls[j], OwnerOf(s, s.calls[j].key), StatusOf(s, j), outcome);
          OrderlyOwnCall(s, e, j);
        } else {
          OrderlyOtherCall(s, c, e, j);
        }
      }
    case Deliver(t) =>
      if t in s.copies && s.copies[t].place.Main? {
        var job := s.copies[t].job;
        OrderlyPlaced(s, t, Busy(Worker(ReadStatus, false, job.attempt, false)), Delivered(job.id), j);
      }
    case Work(t, outcome, result) =>
      if t in s.copies && s.copies[t].place.Busy? { OrderlyWork(cfg, s, step, j); }
    case Crash(t) =>
      if t in s.copies && s.copies[t].place.Busy? {
        OrderlyGone(s, t, CrashEffect(s.copies[t].job, s.copies[t].place.worker), j);
      }
    case BackoffOver(t) =>
      if t in s.copies && s.copies[t].place.Backoff? { OrderlyPlaced(s, t, Main, Silent, j); }
    case LockExpires(_) =>
  }

  lemma {:induction false} OrderlyRun(cfg: Config, steps: seq<Step>, j: JobId)
    requires NoOverlap(cfg, steps, j)
    ensures Orderly(Run(cfg, steps), j)
  {
    if steps != [] {
      var before := steps[..|steps| - 1];
      OrderlyRun(cfg, before, j);
      FreshRun(cfg, before);
      OrderlyStep(cfg, Run(cfg, before), steps[|steps| - 1], j);
    }
  }

  lemma {:induction false} NoOverlapPrefix(cfg: Config, steps: seq<Step>, n: nat, j: JobId)
    requires NoOverlap(cfg, steps, j) && n <= |steps|
    ensures NoOverlap(cfg, steps[..n], j)
    ensures n < |steps| ==> StartsAlone(Run(cfg, steps[..n]), steps[n], j)
  {
    if n == |steps| {
      assert steps[..n] == steps;
    } else if n < |steps| - 1 {
      var before := steps[..|steps| - 1];
      NoOverlapPrefix(cfg, before, n, j);
      assert before[..n] == steps[..n];
    }
  }

  /** Whatever the agent, the store and the broker do, a step of a schedule without overlapping
      deliveries of job j moves its status along the automaton if and only if it is not one of these
      effective writes: a different status over a final one, by a delivery that is blind or whose
      `publish` did not return, or the failed status over a success, by that `publish`. */
  lemma StatusFollowsTheAutomaton(cfg: Config, steps: seq<Step>, i: nat, j: JobId)
    requires NoOverlap(cfg, steps, j) && i < |steps|
    ensures Follows(StatusOf(Run(cfg, steps[..i]), j), StatusOf(Run(cfg, steps[..i + 1]), j))
            <==> !Overwrites(Run(cfg, steps[..i]), steps[i], j)
  {
    NoOverlapPrefix(cfg, steps, i, j);
    OrderlyRun(cfg, steps[..i], j);
    FreshRun(cfg, steps[..i]);
    OrderlyStep(cfg, Run(cfg, steps[..i]), steps[i], j);
    assert steps[..i + 1] == steps[..i] + [steps[i]];
    RunSnoc(cfg, steps[..i], steps[i]);
  }

  ghost function StatusAt(cfg: Config, steps: seq<Step>, i: nat, j: JobId): Option<Status>
    requires i <= |steps|
  {
    StatusOf(Run(cfg, steps[..i]), j)
  }

  ghost predicate OverwritesAt(cfg: Config, steps: seq<Step>, i: nat, j: JobId)
    requires i < |steps|
  {
    Overwrites(Run(cfg, steps[..i]), steps[i], j)
  }

  /** A final status is final: without overlap and without such a write it never changes again. */
  lemma {:induction false} FinalStatusIsKept(cfg: Config, steps: seq<Step>, i: nat, k: nat, j: JobId)
    requires NoOverlap(cfg, steps, j) && i <= k <= |steps|
    requires forall m: nat | i <= m < k :: !OverwritesAt(cfg, steps, m, j)
    requires StatusAt(cfg, steps, i, j).Some? && StatusAt(cfg, steps, i, j).value.Terminal()
    ensures StatusAt(cfg, steps, k, j) == StatusAt(cfg, steps, i, j)
    decreases k
  {
    if i < k {
      FinalStatusIsKept(cfg, steps, i, k - 1, j);
      StatusFollowsTheAutomaton(cfg, steps, k - 1, j);
      assert !OverwritesAt(cfg, steps, k - 1, j);
    }
  }

  lemma NoOverlapSnoc(cfg: Config, steps: seq<Step>, step: Step, j: JobId)
    requires NoOverlap(cfg, steps, j) && StartsAlone(Run(cfg, steps), step, j)
    ensures NoOverlap(cfg, steps + [step], j)
  {
    assert (steps + [step])[..|steps|] == steps;
  }
}
