/** Schedules of a single chat job, from which concrete runs of the protocol are put together. */
module Scenarios {
  import opened Prelude
  import opened JobProtocol

  const Talk := Chat("c")

  /** The only job there is, as it is first queued. */
  const Job := Envelope(0, Talk, 0)

  const FirstDelivery := Worker(ReadStatus, false, 0, false)

  /** The publish call of the job has come to pc; its message, with tag 3, is at this place if it
      still exists; the job has this status, and its conversation is locked by it or free. */
  ghost predicate Lone(s: Sys, pc: ApiPc, place: Option<Place>, status: Status, locked: bool) {
    && s.calls == map[0 := Call(0, Talk, "", pc)] && s.status == map[0 := status] && s.next > 3
    && s.locks == (if locked then map["c" := 0] else map[])
    && s.copies == (if place.Some? then map[3 := Copy(Job, place.value)] else map[])
  }

  lemma LoneApi(cfg: Config, steps: seq<Step>, pc: ApiPc, place: Option<Place>, status: Status, locked: bool,
                e: ApiEffect, outcome: Outcome)
    requires Lone(Run(cfg, steps), pc, place, status, locked) && !e.post && e.key.KeepKey?
    requires forall owner :: ApiAct(Call(0, Talk, "", pc), owner, outcome) == e
    ensures Lone(Run(cfg, steps + [Api(0, outcome)]), e.pc, place, if e.write.Some? then e.write.value
            else status, locked)
  {
    RunSnoc(cfg, steps, Api(0, outcome));
  }

  /** The first calls of `publish`. */
  lemma Publishing(cfg: Config) returns (steps: seq<Step>)
    ensures steps == [] + [Begin(Talk, "")] + [Api(0, Done)] + [Api(0, Done)]
    ensures var s := Run(cfg, steps);
            && s.calls == map[0 := Call(0, Talk, "", Post)] && s.status == map[0 := Published]
            && s.locks == map[] && s.copies == map[] && s.next == 3
  {
    var a := [] + [Begin(Talk, "")];
    RunSnoc(cfg, [], Begin(Talk, ""));
    assert Run(cfg, a).calls == map[0 := Call(0, Talk, "", SetPublished)];
    var b := a + [Api(0, Done)];
    RunSnoc(cfg, a, Api(0, Done));
    assert Run(cfg, b).calls == map[0 := Call(0, Talk, "", MarkPublished)];
    steps := b + [Api(0, Done)];
    RunSnoc(cfg, b, Api(0, Done));
  }

  /** The message is queued; `publish` knows that only if the call did not raise. */
  lemma Queued(cfg: Config, outcome: Outcome) returns (steps: seq<Step>)
    requires outcome != Refused
    ensures Lone(Run(cfg, steps), if outcome == Done then Returned(Some(0), false) else SetPostFailed,
                 Some(Main), Published, false)
    ensures forall step | step in steps :: !step.Deliver?
  {
    var a := Publishing(cfg);
    RunSnoc(cfg, a, Api(0, outcome));
    steps := a + [Api(0, outcome)];
  }

  lemma LoneDeliver(cfg: Config, steps: seq<Step>, pc: ApiPc, status: Status, locked: bool)
    requires Lone(Run(cfg, steps), pc, Some(Main), status, locked)
    ensures Lone(Run(cfg, steps + [Deliver(3)]), pc, Some(Busy(FirstDelivery)), status, locked)
  {
    RunSnoc(cfg, steps, Deliver(3));
  }

  lemma LoneCrash(cfg: Config, steps: seq<Step>, pc: ApiPc, w: Worker, status: Status, locked: bool)
    requires Lone(Run(cfg, steps), pc, Some(Busy(w)), status, locked) && !w.pc.Release?
    ensures Lone(Run(cfg, steps + [Crash(3)]), pc, Some(Main), status, locked)
  {
    RunSnoc(cfg, steps, Crash(3));
  }

  function LockedAfter(locked: bool, op: LockOp): bool {
    match op
    case Keep => locked
    case Take => true
    case Free => false
  }

  lemma LoneWork(cfg: Config, steps: seq<Step>, pc: ApiPc, w: Worker, status: Status, locked: bool,
                 e: Effect, outcome: Outcome, result: AgentResult)
    requires Lone(Run(cfg, steps), pc, Some(Busy(w)), status, locked)
    requires e == Act(cfg, Job, w, Some(status), !locked, outcome, result) && e.post.None?
    ensures Lone(Run(cfg, steps + [Work(3, outcome, result)]), pc, e.after,
                 if e.write.Some? then e.write.value else status, LockedAfter(locked, e.lock))
  {
    RunSnoc(cfg, steps, Work(3, outcome, result));
    assert WorkEffect(cfg, Run(cfg, steps), 3, outcome, result) == e;
  }

  /** The first delivery takes the lock. */
  lemma TakesTheLock(cfg: Config, steps: seq<Step>, pc: ApiPc) returns (more: seq<Step>)
    requires Lone(Run(cfg, steps), pc, Some(Busy(FirstDelivery)), Published, false)
    ensures Lone(Run(cfg, more), pc, Some(Busy(Worker(SetProcessing, true, 0, false))), Published, true)
    ensures more == steps + [Work(3, Done, Paused)] + [Work(3, Done, Paused)]
  {
    LoneWork(cfg, steps, pc, FirstDelivery, Published, false, Quiet(Goto(FirstDelivery, Acquire)), Done, Paused);
    var a := steps + [Work(3, Done, Paused)];
    var w := FirstDelivery.(pc := Acquire);
    LoneWork(cfg, a, pc, w, Published, false,
             Quiet(Goto(w.(held := true), SetProcessing)).(lock := Take), Done, Paused);
    more := a + [Work(3, Done, Paused)];
  }

  /** It marks the start and comes to the agent run. */
  lemma StartsTheAgent(cfg: Config, steps: seq<Step>, pc: ApiPc) returns (more: seq<Step>)
    requires Lone(Run(cfg, steps), pc, Some(Busy(Worker(SetProcessing, true, 0, false))), Published, true)
    ensures Lone(Run(cfg, more), pc, Some(Busy(Worker(RunAgent, true, 0, false))), Processing, true)
    ensures more == steps + [Work(3, Done, Paused)] + [Work(3, Done, Paused)]
  {
    var w := Worker(SetProcessing, true, 0, false);
    LoneWork(cfg, steps, pc, w, Published, true, Quiet(Goto(w, MarkStarted)).(write := Some(Processing)), Done, Paused);
    var a := steps + [Work(3, Done, Paused)];
    LoneWork(cfg, a, pc, w.(pc := MarkStarted), Processing, true, Quiet(Goto(w, RunAgent)), Done, Paused);
    more := a + [Work(3, Done, Paused)];
  }

  /** The agent has run and the worker stands where the result sends it. */
  lemma RunsTheAgent(cfg: Config, steps: seq<Step>, pc: ApiPc, result: AgentResult, next: Pc) returns (more: seq<Step>)
    requires Lone(Run(cfg, steps), pc, Some(Busy(FirstDelivery)), Published, false)
    requires (result.Finished? && next == MarkFinished(false)) || (result.NoPendingInput? && next == SetFailed)
    ensures Lone(Run(cfg, more), pc, Some(Busy(Worker(next, true, 0, false))), Processing, true)
    ensures steps <= more && forall i | |steps| <= i < |more| :: more[i].Work?
  {
    var a := TakesTheLock(cfg, steps, pc);
    var b := StartsTheAgent(cfg, a, pc);
    var w := Worker(RunAgent, true, 0, false);
    LoneWork(cfg, b, pc, w, Processing, true, Quiet(Goto(w, next)).(event := Ran(0)), Done, result);
    more := b + [Work(3, Done, result)];
  }
}
