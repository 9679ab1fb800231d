/** The token of a conversation lock is the job, not the delivery: once the lock has expired under a
    living holder, two copies of one job can free each other's lock. */
module TwinLocks {
  import opened Prelude
  import opened JobProtocol
  import opened Scenarios
  import opened MutualExclusion

  /** Two copies of the chat job on tags x and y, at these places. */
  ghost predicate Twins(s: Sys, x: Tag, y: Tag, first: Place, second: Place, status: Status, locked: bool) {
    && x != y && x < s.next && y < s.next
    && s.copies == map[x := Copy(Job.(attempt := 1), first), y := Copy(Job, second)]
    && s.status == map[0 := status] && s.locks == (if locked then map["c" := 0] else map[])
  }

  /** A call of a worker that posts and writes nothing. */
  predicate Plain(e: Effect) {
    e.post.None? && e.write.None? && e.after.Some?
  }

  lemma WorkOn(cfg: Config, steps: seq<Step>, t: Tag, job: Envelope, w: Worker, outcome: Outcome, e: Effect)
    requires var s := Run(cfg, steps);
             && t in s.copies && s.copies[t] == Copy(job, Busy(w)) && Plain(e)
             && e == Act(cfg, job, w, StatusOf(s, job.id), LockFree(s, job), outcome, Paused)
    ensures var s, n := Run(cfg, steps), Run(cfg, steps + [Work(t, outcome, Paused)]);
            && n.copies == s.copies[t := Copy(job, e.after.value)] && n.status == s.status
            && n.locks == LocksAfter(s, job, e) && n.next == s.next + 1
  {
    RunSnoc(cfg, steps, Work(t, outcome, Paused));
    assert WorkEffect(cfg, Run(cfg, steps), t, outcome, Paused) == e;
  }

  lemma FirstWorks(cfg: Config, steps: seq<Step>, x: Tag, y: Tag, w: Worker, second: Place, status: Status,
                   locked: bool, e: Effect)
    requires Twins(Run(cfg, steps), x, y, Busy(w), second, status, locked) && Plain(e)
    requires e == Act(cfg, Job.(attempt := 1), w, Some(status), !locked, Done, Paused)
    ensures Twins(Run(cfg, steps + [Work(x, Done, Paused)]), x, y, e.after.value, second, status,
            LockedAfter(locked, e.lock))
  {
    WorkOn(cfg, steps, x, Job.(attempt := 1), w, Done, e);
  }

  lemma SecondWorks(cfg: Config, steps: seq<Step>, x: Tag, y: Tag, first: Place, w: Worker, status: Status,
                    locked: bool, outcome: Outcome, e: Effect)
    requires Twins(Run(cfg, steps), x, y, first, Busy(w), status, locked) && Plain(e)
    requires e == Act(cfg, Job, w, Some(status), !locked, outcome, Paused)
    ensures Twins(Run(cfg, steps + [Work(y, outcome, Paused)]), x, y, first, e.after.value, status,
            LockedAfter(locked, e.lock))
  {
    WorkOn(cfg, steps, y, Job, w, outcome, e);
  }

  lemma RequeuesWithATwin(cfg: Config, a: seq<Step>, pc: ApiPc) returns (steps: seq<Step>, x: Tag)
    requires cfg.maxAttempts > 1
    requires Lone(Run(cfg, a), pc, Some(Busy(Worker(PublishRetry(1), false, 1, true))), Retrying, false)
    ensures var s := Run(cfg, steps);
            && 3 < x < s.next && s.status == map[0 := Retrying] && s.locks == map[]
            && s.copies == map[3 := Copy(Job, Busy(Worker(Requeue, false, 1, true))),
                x := Copy(Job.(attempt := 1), Backoff(1))]
  {
    x := Run(cfg, a).next;
    RunSnoc(cfg, a, Work(3, Ambiguous, Paused));
    steps := a + [Work(3, Ambiguous, Paused)];
  }

  /** The status read of the first delivery fails, and it comes to its retry. */
  lemma ComesToItsRetry(cfg: Config, pc: ApiPc) returns (steps: seq<Step>)
    requires cfg.maxAttempts > 1 && pc == Returned(Some(0), false)
    ensures Lone(Run(cfg, steps), pc, Some(Busy(Worker(PublishRetry(1), false, 1, true))), Retrying, false)
  {
    var a := Queued(cfg, Done);
    LoneDeliver(cfg, a, pc, Published, false);
    var b := a + [Deliver(3)];
    var w := Worker(SetRetrying, false, 1, true);
    LoneWork(cfg, b, pc, FirstDelivery, Published, false, Quiet(Some(Busy(w))), Refused, Paused);
    var c := b + [Work(3, Refused, Paused)];
    LoneWork(cfg, c, pc, w, Published, false, Quiet(Goto(w, PublishRetry(1))).(write := Some(Retrying)), Done, Paused);
    steps := c + [Work(3, Done, Paused)];
  }

  /** A retry message that is queued although its publish raised, and the requeued original. */
  lemma TwinsExist(cfg: Config) returns (steps: seq<Step>, x: Tag, y: Tag)
    requires cfg.maxAttempts > 1
    ensures Twins(Run(cfg, steps), x, y, Backoff(1), Main, Retrying, false)
  {
    var pc := Returned(Some(0), false);
    var a := ComesToItsRetry(cfg, pc);
    var b;
    b, x := RequeuesWithATwin(cfg, a, pc);
    y := Run(cfg, b).next;
    RunSnoc(cfg, b, Work(3, Done, Paused));
    steps := b + [Work(3, Done, Paused)];
  }

  /** The second twin takes the lock, and the lock expires. */
  lemma SecondLosesItsLock(cfg: Config, a: seq<Step>, x: Tag, y: Tag) returns (steps: seq<Step>)
    requires Twins(Run(cfg, a), x, y, Main, Main, Retrying, false)
    ensures Twins(Run(cfg, steps), x, y, Main, Busy(Worker(SetProcessing, true, 0, false)), Retrying, false)
  {
    RunSnoc(cfg, a, Deliver(y));
    var b := a + [Deliver(y)];
    SecondWorks(cfg, b, x, y, Main, FirstDelivery, Retrying, false, Done, Quiet(Goto(FirstDelivery, Acquire)));
    var c, w := b + [Work(y, Done, Paused)], FirstDelivery.(pc := Acquire);
    SecondWorks(cfg, c, x, y, Main, w, Retrying, false, Done,
        Quiet(Goto(w.(held := true), SetProcessing)).(lock := Take));
    var d := c + [Work(y, Done, Paused)];
    RunSnoc(cfg, d, LockExpires("c"));
    steps := d + [LockExpires("c")];
  }

  lemma FirstTakesTheLock(cfg: Config, a: seq<Step>, x: Tag, y: Tag, second: Place) returns (steps: seq<Step>)
    requires Twins(Run(cfg, a), x, y, Main, second, Retrying, false)
    ensures Twins(Run(cfg, steps), x, y, Busy(Worker(SetProcessing, true, 1, false)), second, Retrying, true)
  {
    RunSnoc(cfg, a, Deliver(x));
    var b, w := a + [Deliver(x)], Worker(ReadStatus, false, 1, false);
    FirstWorks(cfg, b, x, y, w, second, Retrying, false, Quiet(Goto(w, Acquire)));
    var c, v := b + [Work(x, Done, Paused)], w.(pc := Acquire);
    FirstWorks(cfg, c, x, y, v, second, Retrying, false, Quiet(Goto(v.(held := true), SetProcessing)).(lock := Take));
    steps := c + [Work(x, Done, Paused)];
  }

  lemma SecondReleases(cfg: Config, a: seq<Step>, x: Tag, y: Tag, v: Worker)
    requires Twins(Run(cfg, a), x, y, Busy(v), Busy(Worker(Release(true), true, 0, false)), Retrying, true) && v.held
    ensures var s, n := Run(cfg, a), Run(cfg, a + [Work(y, Done, Paused)]);
            && x in n.copies && Holds(n.copies[x], "c") && "c" in s.locks && "c" !in n.locks
            && OwnRelease(s, Work(y, Done, Paused), "c")
  {
    var r := Worker(Release(true), true, 0, false);
    SecondWorks(cfg, a, x, y, Busy(v), r, Retrying, true, Done,
                Quiet(Some(Busy(Counted(cfg, r.(held := false))))).(lock := Free));
  }

  /** A delivery whose lock has expired releases the lock of its twin, which is then in the locked
      region without a lock. */
  lemma ATwinFreesTheLock(cfg: Config) returns (steps: seq<Step>, x: Tag, y: Tag)
    requires cfg.maxAttempts > 1
    ensures var s, n := Run(cfg, steps), Run(cfg, steps + [Work(y, Done, Paused)]);
            && x != y && x in n.copies && Holds(n.copies[x], "c") && "c" in s.locks && "c" !in n.locks
            && OwnRelease(s, Work(y, Done, Paused), "c")
  {
    var a;
    a, x, y := TwinsExist(cfg);
    RunSnoc(cfg, a, BackoffOver(x));
    var b := SecondLosesItsLock(cfg, a + [BackoffOver(x)], x, y);
    var v, w := Worker(SetProcessing, true, 1, false), Worker(SetProcessing, true, 0, false);
    var c := FirstTakesTheLock(cfg, b, x, y, Busy(w));
    SecondWorks(cfg, c, x, y, Busy(v), w, Retrying, true, Refused, Quiet(Goto(w, Release(true))));
    steps := c + [Work(y, Refused, Paused)];
    SecondReleases(cfg, steps, x, y, v);
  }
}
