/** Bounds on how often a job is run and delivered, by a potential that every
    copy of the job carries. */
module Attempts {
  import opened Prelude
  import opened Sums
  import opened JobProtocol
  import opened DeliveryShape
  import NoLoss

  datatype Kind = Runs | Deliveries

  /** The runs (or deliveries) that a copy can still cause without a failed retry publish. */
  function Left(cfg: Config, kind: Kind, copy: Copy): int {
    var full := cfg.Limit() - copy.job.attempt;
    match copy.place
    case Main => full
    case Backoff(_) => full
    case Dead => 0
    case Busy(w) =>
      if w.pc.Opening() then (if kind == Runs then full else full - 1)
      else if w.pc.SetRetrying? || w.pc.PublishRetry? then cfg.Limit() - w.attempt
      else if w.pc.Requeue? then full
      else if w.pc.Reporting() || w.pc == Release(true) then full - 1
      else 0
  }

  function LeftAfter(cfg: Config, kind: Kind, job: Envelope, e: Effect): int {
    (if e.after.Some? then Left(cfg, kind, Copy(job, e.after.value)) else 0)
    + (if e.post.Some? then Left(cfg, kind, e.post.value) else 0)
  }

  /** The event that uses up one unit of the potential. */
  function Spent(kind: Kind, j: JobId): Event {
    if kind == Runs then Ran(j) else Delivered(j)
  }

  /** What an event adds to the allowance of job j. */
  function Grant(cfg: Config, kind: Kind, j: JobId, event: Event): nat {
    match event
    case Posted(i) => if i == j then cfg.Limit() else 0
    case RetryRefused(i) => if i == j then 1 else 0
    case Doubled(i) => if i == j then cfg.Limit() else 0
    case Delayed(i) => if i == j && kind == Deliveries then 1 else 0
    case _ => 0
  }

  function Spends(kind: Kind, j: JobId, event: Event): nat {
    if event == Spent(kind, j) then 1 else 0
  }

  ghost predicate Frugal(cfg: Config, kind: Kind, copy: Copy, e: Effect) {
    && LeftAfter(cfg, kind, copy.job, e) + Spends(kind, copy.job.id, e.event)
       <= Left(cfg, kind, copy) + Grant(cfg, kind, copy.job.id, e.event)
    && (e.event.Silent? || (!e.event.Posted? && e.event.job == copy.job.id))
    && (e.post.Some? ==> e.post.value.job.id == copy.job.id)
  }

  lemma OpeningIsFrugal(cfg: Config, kind: Kind, job: Envelope, w: Worker, status: Option<Status>, lockFree: bool,
                        outcome: Outcome, result: AgentResult)
    requires w.pc.Opening() && Shaped(cfg, Copy(job, Busy(w)))
    ensures Frugal(cfg, kind, Copy(job, Busy(w)), ActOpening(cfg, job, w, status, lockFree, outcome, result))
  {
  }

  lemma ReportingIsFrugal(cfg: Config, kind: Kind, job: Envelope, w: Worker, outcome: Outcome)
    requires w.pc.Reporting() && Shaped(cfg, Copy(job, Busy(w)))
    ensures Frugal(cfg, kind, Copy(job, Busy(w)), ActReporting(cfg, job, w, outcome))
  {
  }

  lemma ClosingIsFrugal(cfg: Config, kind: Kind, job: Envelope, w: Worker, outcome: Outcome)
    requires !w.pc.Opening() && !w.pc.Reporting() && Shaped(cfg, Copy(job, Busy(w)))
    ensures Frugal(cfg, kind, Copy(job, Busy(w)), ActClosing(cfg, job, w, outcome))
  {
  }

  lemma ActIsFrugal(cfg: Config, kind: Kind, job: Envelope, w: Worker, status: Option<Status>, lockFree: bool,
                    outcome: Outcome, result: AgentResult)
    requires Shaped(cfg, Copy(job, Busy(w)))
    ensures Frugal(cfg, kind, Copy(job, Busy(w)), Act(cfg, job, w, status, lockFree, outcome, result))
  {
    if w.pc.Opening() {
      OpeningIsFrugal(cfg, kind, job, w, status, lockFree, outcome, result);
    } else if w.pc.Reporting() {
      ReportingIsFrugal(cfg, kind, job, w, outcome);
    } else {
      ClosingIsFrugal(cfg, kind, job, w, outcome);
    }
  }

  /** The potential of every copy of job j. */
  ghost function Weights(cfg: Config, kind: Kind, j: JobId, copies: map<Tag, Copy>): map<Tag, int> {
    map t | t in copies :: if copies[t].job.id == j then Left(cfg, kind, copies[t]) else 0
  }

  ghost function Potential(cfg: Config, kind: Kind, j: JobId, copies: map<Tag, Copy>): int {
    Sum(Weights(cfg, kind, j, copies))
  }

  function Share(cfg: Config, kind: Kind, j: JobId, copy: Copy): int {
    if copy.job.id == j then Left(cfg, kind, copy) else 0
  }

  lemma PotentialPut(cfg: Config, kind: Kind, j: JobId, copies: map<Tag, Copy>, t: Tag, copy: Copy)
    ensures Potential(cfg, kind, j, copies[t := copy]) ==
            Potential(cfg, kind, j, copies) + Share(cfg, kind, j, copy)
            - (if t in copies then Share(cfg, kind, j, copies[t]) else 0)
  {
    SumUpdate(Weights(cfg, kind, j, copies), t, Share(cfg, kind, j, copy));
    assert Weights(cfg, kind, j, copies[t := copy]) ==
           Weights(cfg, kind, j, copies)[t := Share(cfg, kind, j, copy)];
  }

  lemma PotentialDrop(cfg: Config, kind: Kind, j: JobId, copies: map<Tag, Copy>, t: Tag)
    requires t in copies
    ensures Potential(cfg, kind, j, copies - {t}) ==
            Potential(cfg, kind, j, copies) - Share(cfg, kind, j, copies[t])
  {
    SumRemove(Weights(cfg, kind, j, copies), t);
    assert Weights(cfg, kind, j, copies - {t}) == Weights(cfg, kind, j, copies) - {t};
  }

  lemma PotentialApply(cfg: Config, kind: Kind, j: JobId, s: Sys, t: Tag, e: Effect)
    requires Fresh(s) && t in s.copies && (e.post.Some? ==> e.post.value.job.id == s.copies[t].job.id)
    ensures Potential(cfg, kind, j, Apply(s, t, e).copies) == Potential(cfg, kind, j, s.copies)
            + (if s.copies[t].job.id == j then LeftAfter(cfg, kind, s.copies[t].job, e) - Left(cfg, kind, s.copies[t])
                else 0)
  {
    var job := s.copies[t].job;
    var kept := if e.after.Some? then s.copies[t := Copy(job, e.after.value)] else s.copies - {t};
    if e.after.Some? {
      PotentialPut(cfg, kind, j, s.copies, t, Copy(job, e.after.value));
    } else {
      PotentialDrop(cfg, kind, j, s.copies, t);
    }
    if e.post.Some? {
      PotentialPut(cfg, kind, j, kept, s.next, e.post.value);
    }
  }

  /** Everything the history grants to job j, minus what it has spent. */
  ghost function Allowance(cfg: Config, kind: Kind, j: JobId, log: seq<Event>): int {
    if log == [] then 0 else
      var last := log[|log| - 1];
      Allowance(cfg, kind, j, log[..|log| - 1]) + Grant(cfg, kind, j, last) - Spends(kind, j, last)
  }

  lemma AllowanceAppend(cfg: Config, kind: Kind, j: JobId, log: seq<Event>, event: Event)
    ensures Allowance(cfg, kind, j, log + [event]) ==
            Allowance(cfg, kind, j, log) + Grant(cfg, kind, j, event) - Spends(kind, j, event)
  {
    assert (log + [event])[..|log|] == log;
  }

  /** The copies of a job never carry more potential than the history allows. */
  ghost predicate Funded(cfg: Config, kind: Kind, j: JobId, s: Sys) {
    Potential(cfg, kind, j, s.copies) <= Allowance(cfg, kind, j, s.log)
  }

  lemma FundedApply(cfg: Config, kind: Kind, j: JobId, s: Sys, t: Tag, e: Effect)
    requires Fresh(s) && Funded(cfg, kind, j, s) && t in s.copies && Frugal(cfg, kind, s.copies[t], e)
    ensures Funded(cfg, kind, j, Apply(s, t, e))
  {
    PotentialApply(cfg, kind, j, s, t, e);
    AllowanceAppend(cfg, kind, j, s.log, e.event);
  }

  lemma FundedPlaced(cfg: Config, kind: Kind, j: JobId, s: Sys, t: Tag, place: Place, event: Event)
    requires Fresh(s) && Funded(cfg, kind, j, s) && t in s.copies
    requires Frugal(cfg, kind, s.copies[t], Quiet(Some(place)).(event := event))
    ensures Funded(cfg, kind, j, Placed(s, t, place, event))
  {
    PotentialPut(cfg, kind, j, s.copies, t, s.copies[t].(place := place));
    AllowanceAppend(cfg, kind, j, s.log, event);
  }

  lemma FundedApi(cfg: Config, kind: Kind, j: JobId, s: Sys, c: CallId, e: ApiEffect)
    requires Fresh(s) && Funded(cfg, kind, j, s) && c in s.calls
    ensures Funded(cfg, kind, j, ApplyApi(s, c, e))
  {
    var call := s.calls[c];
    if e.post {
      PotentialPut(cfg, kind, j, s.copies, s.next, Copy(Envelope(call.job, call.payload, 0), Main));
      AllowanceAppend(cfg, kind, j, s.log, Posted(call.job));
    } else {
      AllowanceAppend(cfg, kind, j, s.log, Silent);
    }
  }

  lemma FundedStep(cfg: Config, kind: Kind, j: JobId, s: Sys, step: Step)
    requires Fresh(s) && AllShaped(cfg, s) && Funded(cfg, kind, j, s)
    ensures Funded(cfg, kind, j, Next(cfg, s, step))
  {
    match step
    case Begin(_, _) =>
    case Api(c, outcome) =>
      if c in s.calls { FundedApi(cfg, kind, j, s, c, ApiAct(s.calls[c], OwnerOf(s, s.calls[c].key), outcome)); }
    case Deliver(t) =>
      if t in s.copies && s.copies[t].place.Main? {
        var job := s.copies[t].job;
        FundedPlaced(cfg, kind, j, s, t, Busy(Worker(ReadStatus, false, job.attempt, false)), Delivered(job.id));
      }
    case Work(t, outcome, result) =>
      if t in s.copies && s.copies[t].place.Busy? {
        var copy := s.copies[t];
        assert Shaped(cfg, copy);
        ActIsFrugal(cfg, kind, copy.job, copy.place.worker, StatusOf(s, copy.job.id), LockFree(s, copy.job), outcome,
            result);
        FundedApply(cfg, kind, j, s, t, WorkEffect(cfg, s, t, outcome, result));
      }
    case Crash(t) =>
      if t in s.copies && s.copies[t].place.Busy? {
        assert Shaped(cfg, s.copies[t]);
        FundedApply(cfg, kind, j, s, t, CrashEffect(s.copies[t].job, s.copies[t].place.worker));
      }
    case BackoffOver(t) =>
      if t in s.copies && s.copies[t].place.Backoff? { FundedPlaced(cfg, kind, j, s, t, Main, Silent); }
    case LockExpires(_) =>
  }

  lemma {:induction false} FundedRun(cfg: Config, kind: Kind, j: JobId, steps: seq<Step>)
    ensures Funded(cfg, kind, j, Run(cfg, steps))
  {
    if steps != [] {
      var before := steps[..|steps| - 1];
      FundedRun(cfg, kind, j, before);
      FreshRun(cfg, before);
      ShapedRun(cfg, before);
      FundedStep(cfg, kind, j, Run(cfg, before), steps[|steps| - 1]);
    } else {
      assert Weights(cfg, kind, j, Init.copies) == map[];
    }
  }

  lemma Distribute(limit: nat, n: nat, extra: nat)
    ensures limit * (n + extra) == limit * n + limit * extra
  {
  }

  /** The allowance, counted event by event. */
  lemma {:induction false} AllowanceCounts(cfg: Config, kind: Kind, j: JobId, log: seq<Event>)
    ensures Allowance(cfg, kind, j, log) ==
            cfg.Limit() * Count(log, Posted(j)) + cfg.Limit() * Count(log, Doubled(j)) + Count(log, RetryRefused(j))
            + (if kind == Deliveries then Count(log, Delayed(j)) else 0) - Count(log, Spent(kind, j))
  {
    if log != [] {
      var before, last := log[..|log| - 1], log[|log| - 1];
      AllowanceCounts(cfg, kind, j, before);
      Distribute(cfg.Limit(), Count(before, Posted(j)), if last == Posted(j) then 1 else 0);
      Distribute(cfg.Limit(), Count(before, Doubled(j)), if last == Doubled(j) then 1 else 0);
    }
  }

  /** A job is posted at most once. */
  ghost predicate PostedOnce(s: Sys, j: JobId) {
    Count(s.log, Posted(j)) <= if j in s.calls && NoLoss.PastPost(s.calls[j].pc) then 1 else 0
  }

  lemma PostedOnceWork(cfg: Config, s: Sys, t: Tag, outcome: Outcome, result: AgentResult, j: JobId)
    requires PostedOnce(s, j) && t in s.copies && s.copies[t].place.Busy?
    ensures PostedOnce(Apply(s, t, WorkEffect(cfg, s, t, outcome, result)), j)
  {
    var copy := s.copies[t];
    NoLoss.ActIsCareful(cfg, copy.job, copy.place.worker, StatusOf(s, copy.job.id), LockFree(s, copy.job), outcome,
        result);
    CountAppend(s.log, Posted(j), WorkEffect(cfg, s, t, outcome, result).event);
  }

  lemma ApiPostsOnce(call: Call, owner: Option<JobId>, outcome: Outcome)
    ensures var e := ApiAct(call, owner, outcome);
            && (e.post ==> !NoLoss.PastPost(call.pc))
            && (e.post || NoLoss.PastPost(call.pc) ==> NoLoss.PastPost(e.pc))
  {
  }

  lemma PostedOnceApi(s: Sys, c: CallId, e: ApiEffect, j: JobId)
    requires c in s.calls && s.calls[c].job == c && PostedOnce(s, j)
    requires e.post ==> !NoLoss.PastPost(s.calls[c].pc)
    requires e.post || NoLoss.PastPost(s.calls[c].pc) ==> NoLoss.PastPost(e.pc)
    ensures PostedOnce(ApplyApi(s, c, e), j)
  {
    CountAppend(s.log, Posted(j), if e.post then Posted(c) else Silent);
  }

  lemma PostedOncePlaced(s: Sys, t: Tag, place: Place, event: Event, j: JobId)
    requires PostedOnce(s, j) && t in s.copies && !event.Posted?
    ensures PostedOnce(Placed(s, t, place, event), j)
  {
    CountAppend(s.log, Posted(j), event);
  }

  lemma PostedOnceStep(cfg: Config, s: Sys, step: Step, j: JobId)
    requires Fresh(s) && PostedOnce(s, j)
    ensures PostedOnce(Next(cfg, s, step), j)
  {
    match step
    case Begin(_, _) =>
    case Api(c, outcome) =>
      if c in s.calls {
        var call, owner := s.calls[c], OwnerOf(s, s.calls[c].key);
        ApiPostsOnce(call, owner, outcome);
        PostedOnceApi(s, c, ApiAct(call, owner, outcome), j);
      }
    case Deliver(t) =>
      if t in s.copies && s.copies[t].place.Main? {
        var job := s.copies[t].job;
        PostedOncePlaced(s, t, Busy(Worker(ReadStatus, false, job.attempt, false)), Delivered(job.id), j);
      }
    case Work(t, outcome, result) =>
      if t in s.copies && s.copies[t].place.Busy? { PostedOnceWork(cfg, s, t, outcome, result, j); }
    case Crash(t) =>
      if t in s.copies && s.copies[t].place.Busy? {
        CountAppend(s.log, Posted(j), CrashEffect(s.copies[t].job, s.copies[t].place.worker).event);
      }
    case BackoffOver(t) =>
      if t in s.copies && s.copies[t].place.Backoff? { PostedOncePlaced(s, t, Main, Silent, j); }
    case LockExpires(_) =>
  }

  lemma {:induction false} PostedOnceRun(cfg: Config, steps: seq<Step>, j: JobId)
    ensures PostedOnce(Run(cfg, steps), j)
  {
    if steps != [] {
      var before := steps[..|steps| - 1];
      PostedOnceRun(cfg, before, j);
      FreshRun(cfg, before);
      PostedOnceStep(cfg, Run(cfg, before), steps[|steps| - 1], j);
    }
  }

  lemma SpendingIsBounded(cfg: Config, kind: Kind, steps: seq<Step>, j: JobId)
    ensures var log := Run(cfg, steps).log;
            Count(log, Spent(kind, j)) <= cfg.Limit() + Count(log, RetryRefused(j))
              + cfg.Limit() * Count(log, Doubled(j)) + (if kind == Deliveries then Count(log, Delayed(j)) else 0)
  {
    var s := Run(cfg, steps);
    PostedOnceRun(cfg, steps, j);
    FundedRun(cfg, kind, j, steps);
    AllowanceCounts(cfg, kind, j, s.log);
    PotentialIsNonNegative(cfg, kind, steps, j);
    assert Count(s.log, Posted(j)) == 0 || Count(s.log, Posted(j)) == 1;
  }

  lemma PotentialIsNonNegative(cfg: Config, kind: Kind, steps: seq<Step>, j: JobId)
    ensures Potential(cfg, kind, j, Run(cfg, steps).copies) >= 0
  {
    var copies := Run(cfg, steps).copies;
    ShapedRun(cfg, steps);
    var w := Weights(cfg, kind, j, copies);
    forall t | t in w ensures w[t] >= 0 { assert Shaped(cfg, copies[t]); }
    SumNonNegative(w);
  }

  /** Under every schedule, the agent runs of a job number at most its attempt
      limit, plus one for every refused retry publish, plus a full limit for every
      redelivery after a crash or doubled retry message; and its deliveries obey
      the same bound plus one for every delay of a busy conversation. */
  lemma AttemptsAreBounded(cfg: Config, steps: seq<Step>, j: JobId)
    ensures var log, limit := Run(cfg, steps).log, Max(cfg.maxAttempts, 1);
            var slack := Count(log, RetryRefused(j)) + limit * Count(log, Doubled(j));
            && Count(log, Ran(j)) <= limit + slack
            && Count(log, Delivered(j)) <= limit + slack + Count(log, Delayed(j))
  {
    SpendingIsBounded(cfg, Runs, steps, j);
    SpendingIsBounded(cfg, Deliveries, steps, j);
  }

  /** Every message that can still be delivered has an attempt left. */
  lemma LiveMessagesHaveAttemptsLeft(cfg: Config, steps: seq<Step>, t: Tag)
    requires t in Run(cfg, steps).copies && !Run(cfg, steps).copies[t].place.Dead?
    ensures Run(cfg, steps).copies[t].job.attempt < Max(cfg.maxAttempts, 1)
  {
    ShapedRun(cfg, steps);
    assert Shaped(cfg, Run(cfg, steps).copies[t]);
  }

  /** A busy conversation puts the message back with the attempt it came with. */
  lemma DelaysConsumeNoAttempt(cfg: Config, job: Envelope, w: Worker, status: Option<Status>, result: AgentResult)
    requires w.pc == Acquire && Shaped(cfg, Copy(job, Busy(w)))
    ensures var busy := Act(cfg, job, w, status, false, Done, result);
            && busy.event == Delayed(job.id) && busy.after.Some? && busy.after.value.Busy?
            && Act(cfg, job, busy.after.value.worker, status, false, Done, result).post == Some(Copy(job, Backoff(1)))
  {
  }
}
