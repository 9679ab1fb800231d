/** What the rest of the system does between two calls of a delivery or of a `publish` call, and
    why it can be carried out without knowing how far that one has come. */
module Interference {
  import opened Prelude
  import opened JobProtocol

  /** Whose steps are left out: those of the delivery on a tag, or of a `publish` call. */
  datatype Self = Delivery(tag: Tag) | Caller(call: CallId)

  predicate Touches(step: Step, self: Self) {
    match self
    case Delivery(t) => (step.Deliver? || step.Work? || step.Crash? || step.BackoffOver?) && step.tag == t
    case Caller(c) => step.Api? && step.call == c
  }

  /** The steps of everybody else. */
  function Others(steps: seq<Step>, self: Self): (rest: seq<Step>)
    ensures forall step | step in rest :: !Touches(step, self)
  {
    if steps == [] then []
    else
      var last := steps[|steps| - 1];
      Others(steps[..|steps| - 1], self) + if Touches(last, self) then [] else [last]
  }

  /** The maps agree on every key but this one. */
  ghost predicate SameBut<K(!new), V>(a: map<K, V>, b: map<K, V>, x: Option<K>) {
    forall k | x != Some(k) :: (k in a <==> k in b) && (k in a ==> a[k] == b[k])
  }

  lemma SamePut<K(!new), V>(a: map<K, V>, b: map<K, V>, x: Option<K>, k: K, v: V)
    requires SameBut(a, b, x)
    ensures SameBut(a[k := v], b[k := v], x)
  {
  }

  lemma SameDrop<K(!new), V>(a: map<K, V>, b: map<K, V>, x: Option<K>, k: K)
    requires SameBut(a, b, x)
    ensures SameBut(a - {k}, b - {k}, x)
  {
  }

  function OwnTag(self: Self): Option<Tag> {
    if self.Delivery? then Some(self.tag) else None
  }

  function OwnCall(self: Self): Option<CallId> {
    if self.Caller? then Some(self.call) else None
  }

  /** The states differ only in how far the one has come, and in what nobody reads. */
  ghost predicate Alike(a: Sys, b: Sys, self: Self) {
    && a.status == b.status && a.locks == b.locks && a.keys == b.keys && a.next == b.next
    && SameBut(a.copies, b.copies, OwnTag(self)) && SameBut(a.calls, b.calls, OwnCall(self))
    && (if self.Delivery? then self.tag < a.next else self.call < a.next)
  }

  /** Nothing happens to the one itself. */
  ghost predicate Untouched(s: Sys, n: Sys, self: Self) {
    match self
    case Delivery(t) => (t in n.copies <==> t in s.copies) && (t in s.copies ==> n.copies[t] == s.copies[t])
    case Caller(c) => (c in n.calls <==> c in s.calls) && (c in s.calls ==> n.calls[c] == s.calls[c])
  }

  lemma AlikeApply(a: Sys, b: Sys, u: Tag, e: Effect, self: Self)
    requires Alike(a, b, self) && self != Delivery(u) && u in a.copies && u in b.copies && a.copies[u] == b.copies[u]
    ensures Alike(Apply(a, u, e), Apply(b, u, e), self) && Untouched(a, Apply(a, u, e), self)
  {
    var job, x := a.copies[u].job, OwnTag(self);
    var kept := if e.after.Some? then a.copies[u := Copy(job, e.after.value)] else a.copies - {u};
    var left := if e.after.Some? then b.copies[u := Copy(job, e.after.value)] else b.copies - {u};
    if e.after.Some? {
      SamePut(a.copies, b.copies, x, u, Copy(job, e.after.value));
    } else {
      SameDrop(a.copies, b.copies, x, u);
    }
    if e.post.Some? {
      SamePut(kept, left, x, a.next, e.post.value);
    }
  }

  lemma AlikeApi(a: Sys, b: Sys, c: CallId, e: ApiEffect, self: Self)
    requires Alike(a, b, self) && self != Caller(c) && c in a.calls && c in b.calls && a.calls[c] == b.calls[c]
    ensures Alike(ApplyApi(a, c, e), ApplyApi(b, c, e), self) && Untouched(a, ApplyApi(a, c, e), self)
  {
    var call := a.calls[c];
    SamePut(a.calls, b.calls, OwnCall(self), c, call.(pc := e.pc));
    SamePut(a.copies, b.copies, OwnTag(self), a.next, Copy(Envelope(call.job, call.payload, 0), Main));
  }

  lemma SameCopy(a: Sys, b: Sys, u: Tag, self: Self)
    requires Alike(a, b, self) && self != Delivery(u)
    ensures (u in a.copies <==> u in b.copies) && (u in a.copies ==> a.copies[u] == b.copies[u])
  {
  }

  lemma SameCall(a: Sys, b: Sys, c: CallId, self: Self)
    requires Alike(a, b, self) && self != Caller(c)
    ensures (c in a.calls <==> c in b.calls) && (c in a.calls ==> a.calls[c] == b.calls[c])
  {
  }

  lemma AlikePlaced(a: Sys, b: Sys, u: Tag, place: Place, event: Event, self: Self)
    requires Alike(a, b, self) && self != Delivery(u) && u in a.copies && u in b.copies && a.copies[u] == b.copies[u]
    ensures Alike(Placed(a, u, place, event), Placed(b, u, place, event), self)
    ensures Untouched(a, Placed(a, u, place, event), self)
  {
    SamePut(a.copies, b.copies, OwnTag(self), u, a.copies[u].(place := place));
  }

  lemma AlikeWork(cfg: Config, a: Sys, b: Sys, step: Step, self: Self)
    requires Alike(a, b, self) && !Touches(step, self) && (step.Work? || step.Crash?)
    ensures Alike(Next(cfg, a, step), Next(cfg, b, step), self) && Untouched(a, Next(cfg, a, step), self)
  {
    var u := step.tag;
    SameCopy(a, b, u, self);
    if u in a.copies && a.copies[u].place.Busy? {
      var e := if step.Work? then WorkEffect(cfg, a, u, step.outcome, step.result)
               else CrashEffect(a.copies[u].job, a.copies[u].place.worker);
      AlikeApply(a, b, u, e, self);
    }
  }

  lemma AlikeMove(cfg: Config, a: Sys, b: Sys, step: Step, self: Self)
    requires Alike(a, b, self) && !Touches(step, self) && (step.Deliver? || step.BackoffOver?)
    ensures Alike(Next(cfg, a, step), Next(cfg, b, step), self) && Untouched(a, Next(cfg, a, step), self)
  {
    var u := step.tag;
    SameCopy(a, b, u, self);
    if u in a.copies && step.Deliver? {
      var job := a.copies[u].job;
      AlikePlaced(a, b, u, Busy(Worker(ReadStatus, false, job.attempt, false)), Delivered(job.id), self);
    } else if u in a.copies {
      AlikePlaced(a, b, u, Main, Silent, self);
    }
  }

  lemma AlikeNext(cfg: Config, a: Sys, b: Sys, step: Step, self: Self)
    requires Alike(a, b, self) && !Touches(step, self)
    ensures Alike(Next(cfg, a, step), Next(cfg, b, step), self) && Untouched(a, Next(cfg, a, step), self)
  {
    match step
    case Begin(payload, key) =>
      var pc := if key == "" then SetPublished else ClaimKey;
      SamePut(a.calls, b.calls, OwnCall(self), a.next, Call(a.next, payload, key, pc));
    case Api(c, outcome) =>
      SameCall(a, b, c, self);
      if c in a.calls { AlikeApi(a, b, c, ApiAct(a.calls[c], OwnerOf(a, a.calls[c].key), outcome), self); }
    case Deliver(_) => AlikeMove(cfg, a, b, step, self);
    case Work(_, _, _) => AlikeWork(cfg, a, b, step, self);
    case Crash(_) => AlikeWork(cfg, a, b, step, self);
    case BackoffOver(_) => AlikeMove(cfg, a, b, step, self);
    case LockExpires(_) =>
  }

  lemma AlikeSwap(a: Sys, b: Sys, self: Self)
    requires Alike(a, b, self)
    ensures Alike(b, a, self)
  {
  }

  /** Both go the same way under the steps of the others. */
  lemma {:induction false} AlikeRun(cfg: Config, a: Sys, b: Sys, steps: seq<Step>, self: Self)
    requires Alike(a, b, self) && forall step | step in steps :: !Touches(step, self)
    ensures Alike(RunFrom(cfg, a, steps), RunFrom(cfg, b, steps), self)
    ensures Untouched(a, RunFrom(cfg, a, steps), self) && Untouched(b, RunFrom(cfg, b, steps), self)
  {
    if steps != [] {
      var before, last := steps[..|steps| - 1], steps[|steps| - 1];
      AlikeRun(cfg, a, b, before, self);
      var m, n := RunFrom(cfg, a, before), RunFrom(cfg, b, before);
      AlikeNext(cfg, m, n, last, self);
      AlikeSwap(m, n, self);
      AlikeNext(cfg, n, m, last, self);
    }
  }

  lemma CounterGrows(cfg: Config, s: Sys, step: Step)
    ensures s.next <= Next(cfg, s, step).next
  {
  }

  lemma {:induction false} NextGrows(cfg: Config, s: Sys, steps: seq<Step>)
    ensures s.next <= RunFrom(cfg, s, steps).next
  {
    if steps != [] {
      var before := steps[..|steps| - 1];
      NextGrows(cfg, s, before);
      CounterGrows(cfg, RunFrom(cfg, s, before), steps[|steps| - 1]);
    }
  }

  /** Steps that are not addressed to the one are all left in, in their order. */
  lemma {:induction false} OthersAreKept(steps: seq<Step>, self: Self)
    requires forall step | step in steps :: !Touches(step, self)
    ensures Others(steps, self) == steps
  {
    if steps != [] {
      assert steps[|steps| - 1] in steps;
      OthersAreKept(steps[..|steps| - 1], self);
      assert steps == steps[..|steps| - 1] + [steps[|steps| - 1]];
    }
  }

  // Runs of one delivery or one call among all others.

  /** What a service cannot choose: its options, how the call numbered n to the store or the broker
      ends, how the agent run ends, and the steps that everybody else takes before the call that
      would have got number n. */
  datatype Env = Env(cfg: Config, faults: nat -> Outcome, agent: AgentResult, others: nat -> seq<Step>)

  /** The state when the others have moved. */
  function Interleaved(env: Env, self: Self, s: Sys): Sys {
    RunFrom(env.cfg, s, Others(env.others(s.next), self))
  }

  /** The call that the environment has in store for the one. */
  function OwnStep(env: Env, self: Self, s: Sys): Step {
    match self
    case Delivery(t) => Work(t, env.faults(s.next), env.agent)
    case Caller(c) => Api(c, env.faults(s.next))
  }

  /** The others move, then the one makes its call. */
  ghost predicate OneStep(env: Env, self: Self, a: Sys, b: Sys) {
    var m := Interleaved(env, self, a);
    b == Next(env.cfg, m, OwnStep(env, self, m))
  }

  /** The machine after n calls of the one. */
  ghost function Drive(env: Env, self: Self, s: Sys, n: nat): Sys {
    if n == 0 then s
    else
      var m := Interleaved(env, self, Drive(env, self, s, n - 1));
      Next(env.cfg, m, OwnStep(env, self, m))
  }

  /** No interleaving is left out: whatever the others do between two calls of a delivery or of a
      `publish` call, and however its next call ends, some environment has just that in store. */
  lemma EveryInterleavingIsCovered(cfg: Config, self: Self, s: Sys, steps: seq<Step>, outcome: Outcome,
                                   result: AgentResult) returns (env: Env)
    requires self.Delivery? ==>
               forall step | step in steps ::
                 (step.Deliver? || step.Work? || step.Crash? || step.BackoffOver?) ==> step.tag != self.tag
    requires self.Caller? ==> forall step | step in steps :: step.Api? ==> step.call != self.call
    ensures env.cfg == cfg && Interleaved(env, self, s) == RunFrom(cfg, s, steps)
    ensures OwnStep(env, self, RunFrom(cfg, s, steps)) ==
            if self.Delivery? then Work(self.tag, outcome, result) else Api(self.call, outcome)
    ensures OneStep(env, self, s, RunFrom(cfg, s, steps + [OwnStep(env, self, RunFrom(cfg, s, steps))]))
  {
    env := Env(cfg, n => outcome, result, n => steps);
    OthersAreKept(steps, self);
    var own := OwnStep(env, self, RunFrom(cfg, s, steps));
    assert (steps + [own])[..|steps|] == steps;
  }

  /** The states of a run after each call of the one. */
  ghost predicate IsRun(env: Env, self: Self, run: seq<Sys>) {
    run != [] && forall i, k {:trigger OneStep(env, self, run[i], run[k])} |
      0 <= i < k < |run| && k == i + 1 :: OneStep(env, self, run[i], run[k])
  }

  lemma RunGoesOn(env: Env, self: Self, run: seq<Sys>, n: Sys)
    requires IsRun(env, self, run) && OneStep(env, self, run[|run| - 1], n)
    ensures IsRun(env, self, run + [n])
  {
    var more := run + [n];
    forall i, k | 0 <= i < k < |more| && k == i + 1 ensures OneStep(env, self, more[i], more[k]) {
      if k < |run| { assert OneStep(env, self, run[i], run[k]); }
    }
  }

  lemma DriveOn(env: Env, self: Self, s: Sys, n: nat, end: Sys)
    requires n > 0 && OneStep(env, self, Drive(env, self, s, n - 1), end)
    ensures Drive(env, self, s, n) == end
  {
  }

  lemma {:induction false} RunsAreDriven(env: Env, self: Self, run: seq<Sys>)
    requires IsRun(env, self, run)
    ensures Drive(env, self, run[0], |run| - 1) == run[|run| - 1]
    decreases |run|
  {
    var n := |run| - 1;
    if n > 0 {
      var before := run[..n];
      forall i, k | 0 <= i < k < |before| && k == i + 1 ensures OneStep(env, self, before[i], before[k]) {
        assert OneStep(env, self, run[i], run[k]);
      }
      RunsAreDriven(env, self, before);
      assert OneStep(env, self, run[n - 1], run[n]);
      DriveOn(env, self, run[0], n, run[n]);
    }
  }

  /** Of the one, the schedule has only calls: it neither crashes nor is delivered again. */
  ghost predicate OnlyCalls(steps: seq<Step>, self: Self) {
    forall i | 0 <= i < |steps| && Touches(steps[i], self) :: steps[i].Work? || steps[i].Api?
  }

  lemma OnlyCallsConcat(a: seq<Step>, b: seq<Step>, self: Self)
    requires OnlyCalls(a, self) && OnlyCalls(b, self)
    ensures OnlyCalls(a + b, self)
  {
  }

  lemma StepIsASchedule(env: Env, self: Self, steps: seq<Step>) returns (more: seq<Step>)
    ensures OnlyCalls(more, self)
    ensures OneStep(env, self, Run(env.cfg, steps), Run(env.cfg, steps + more))
  {
    var others := Others(env.others(Run(env.cfg, steps).next), self);
    RunConcat(env.cfg, Init, steps, others);
    var step := OwnStep(env, self, Run(env.cfg, steps + others));
    RunSnoc(env.cfg, steps + others, step);
    more := others + [step];
    assert steps + more == steps + others + [step];
  }

  lemma GoesOnAsASchedule(env: Env, self: Self, steps: seq<Step>, run: seq<Sys>)
    returns (more: seq<Step>, longer: seq<Sys>)
    requires IsRun(env, self, run) && run[|run| - 1] == Run(env.cfg, steps)
    ensures OnlyCalls(more, self) && IsRun(env, self, longer) && |longer| == |run| + 1 && longer[0] == run[0]
    ensures longer[|run|] == Run(env.cfg, steps + more)
  {
    more := StepIsASchedule(env, self, steps);
    RunGoesOn(env, self, run, Run(env.cfg, steps + more));
    longer := run + [Run(env.cfg, steps + more)];
  }

  lemma {:induction false} SchedulesOfRuns(env: Env, self: Self, steps: seq<Step>, n: nat)
    returns (more: seq<Step>, run: seq<Sys>)
    ensures OnlyCalls(more, self) && IsRun(env, self, run) && |run| == n + 1 && run[0] == Run(env.cfg, steps)
    ensures run[n] == Run(env.cfg, steps + more)
  {
    if n == 0 {
      more, run := [], [Run(env.cfg, steps)];
      assert steps + [] == steps;
    } else {
      var before, shorter := SchedulesOfRuns(env, self, steps, n - 1);
      var last;
      last, run := GoesOnAsASchedule(env, self, steps + before, shorter);
      OnlyCallsConcat(before, last, self);
      more := before + last;
      assert steps + more == steps + before + last;
    }
  }

  /** From a reachable state the driven machine stays reachable, so every theorem about schedules
      holds for a delivery or a `publish` call among all others. */
  lemma DrivesAreSchedules(env: Env, self: Self, steps: seq<Step>, n: nat) returns (more: seq<Step>)
    ensures OnlyCalls(more, self)
    ensures Run(env.cfg, steps + more) == Drive(env, self, Run(env.cfg, steps), n)
  {
    var run;
    more, run := SchedulesOfRuns(env, self, steps, n);
    RunsAreDriven(env, self, run);
  }
}
