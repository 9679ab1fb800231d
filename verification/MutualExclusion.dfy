/** One job per conversation: the conversation lock excludes overlapping runs as
    long as it does not expire under a living holder. */
module MutualExclusion {
  import opened Prelude
  import opened JobProtocol
  import opened DeliveryShape

  /** The copy's worker is between acquiring and releasing the lock of conversation c. */
  predicate Holds(copy: Copy, c: string) {
    copy.place.Busy? && copy.place.worker.held && copy.job.payload == Chat(c)
  }

  ghost predicate Held(s: Sys, c: string) {
    exists t :: t in s.copies && Holds(s.copies[t], c)
  }

  /** At most one holder; the lock is taken exactly when there is a holder or a
      lock was left behind; a holder's lock carries its own job id. */
  ghost predicate Exclusive(s: Sys, c: string) {
    && (forall t, u | t in s.copies && u in s.copies && Holds(s.copies[t], c) && Holds(s.copies[u], c) :: t == u)
    && (c in s.locks <==> c in s.orphans || Held(s, c))
    && (forall t | t in s.copies && Holds(s.copies[t], c) :: c !in s.orphans && s.locks[c] == s.copies[t].job.id)
  }

  /** How a worker's call treats the lock. */
  ghost predicate Disciplined(job: Envelope, w: Worker, lockFree: bool, e: Effect) {
    var holdsAfter := e.after.Some? && e.after.value.Busy? && e.after.value.worker.held;
    && (e.post.Some? ==> !e.post.value.place.Busy?)
    && (e.lock == Take ==> !w.held && lockFree && (holdsAfter != e.orphaned))
    && (e.lock == Free ==> w.held && !holdsAfter && !e.orphaned)
    && (e.lock == Keep ==> holdsAfter == (w.held && !e.orphaned))
    && (e.lock == Keep && e.orphaned ==> w.held)
  }

  lemma OpeningIsDisciplined(cfg: Config, job: Envelope, w: Worker, status: Option<Status>, lockFree: bool,
                             outcome: Outcome, result: AgentResult)
    requires w.pc.Opening() && Shaped(cfg, Copy(job, Busy(w)))
    ensures Disciplined(job, w, lockFree, ActOpening(cfg, job, w, status, lockFree, outcome, result))
  {
  }

  lemma ActIsDisciplined(cfg: Config, job: Envelope, w: Worker, status: Option<Status>, lockFree: bool,
                         outcome: Outcome, result: AgentResult)
    requires Shaped(cfg, Copy(job, Busy(w)))
    ensures Disciplined(job, w, lockFree, Act(cfg, job, w, status, lockFree, outcome, result))
  {
    if w.pc.Opening() {
      OpeningIsDisciplined(cfg, job, w, status, lockFree, outcome, result);
    }
  }

  lemma ExclusiveApply(cfg: Config, s: Sys, t: Tag, e: Effect, c: string)
    requires Fresh(s) && AllShaped(cfg, s) && Exclusive(s, c) && t in s.copies && s.copies[t].place.Busy?
    requires Disciplined(s.copies[t].job, s.copies[t].place.worker, LockFree(s, s.copies[t].job), e)
    ensures Exclusive(Apply(s, t, e), c)
  {
    var n := Apply(s, t, e);
    assert Shaped(cfg, s.copies[t]);
    OthersStillHold(s, t, e, c);
    if s.copies[t].job.payload == Chat(c) {
      ExclusiveOwn(cfg, s, t, e, c);
    } else {
      assert Held(n, c) <==> Held(s, c);
    }
  }

  lemma OthersStillHold(s: Sys, t: Tag, e: Effect, c: string)
    requires Fresh(s) && t in s.copies && (e.post.Some? ==> !e.post.value.place.Busy?)
    ensures var n := Apply(s, t, e);
            && (forall u | u in n.copies && u != t && Holds(n.copies[u], c) ::
                  u in s.copies && n.copies[u] == s.copies[u])
            && (forall u | u in s.copies && u != t && Holds(s.copies[u], c) ::
                  u in n.copies && n.copies[u] == s.copies[u])
  {
  }

  /** The case of `ExclusiveApply` in which the step concerns conversation c itself. */
  lemma ExclusiveOwn(cfg: Config, s: Sys, t: Tag, e: Effect, c: string)
    requires Fresh(s) && Exclusive(s, c) && t in s.copies && s.copies[t].place.Busy?
             && s.copies[t].job.payload == Chat(c)
    requires Disciplined(s.copies[t].job, s.copies[t].place.worker, LockFree(s, s.copies[t].job), e)
    ensures Exclusive(Apply(s, t, e), c)
  {
    var n := Apply(s, t, e);
    OthersStillHold(s, t, e, c);
    var holdsAfter := e.after.Some? && e.after.value.Busy? && e.after.value.worker.held;
    assert e.after.Some? ==> t in n.copies && n.copies[t] == Copy(s.copies[t].job, e.after.value);
    assert (t in n.copies && Holds(n.copies[t], c)) <==> holdsAfter;
    if s.copies[t].place.worker.held {
      assert Holds(s.copies[t], c);
      assert forall u | u in n.copies && u != t :: !Holds(n.copies[u], c);
      assert Held(n, c) <==> holdsAfter;
    } else if e.lock == Take {
      assert !Held(s, c);
      assert Held(n, c) <==> holdsAfter;
    } else {
      assert !holdsAfter && e.lock == Keep;
      assert Held(n, c) <==> Held(s, c);
    }
  }

  lemma ExclusivePlaced(s: Sys, t: Tag, place: Place, event: Event, c: string)
    requires Exclusive(s, c) && t in s.copies && !s.copies[t].place.Busy?
    requires place.Busy? ==> !place.worker.held
    ensures Exclusive(Placed(s, t, place, event), c)
  {
    var n := Placed(s, t, place, event);
    assert forall u | u in s.copies && Holds(s.copies[u], c) :: u in n.copies && n.copies[u] == s.copies[u];
    assert forall u | u in n.copies && Holds(n.copies[u], c) :: u in s.copies && n.copies[u] == s.copies[u];
  }

  lemma ExclusiveApi(s: Sys, x: CallId, e: ApiEffect, c: string)
    requires Fresh(s) && Exclusive(s, c) && x in s.calls
    ensures Exclusive(ApplyApi(s, x, e), c)
  {
    var n := ApplyApi(s, x, e);
    assert forall u | u in s.copies && Holds(s.copies[u], c) :: u in n.copies && n.copies[u] == s.copies[u];
    assert forall u | u in n.copies && Holds(n.copies[u], c) :: u in s.copies && n.copies[u] == s.copies[u];
  }

  lemma ExclusiveStep(cfg: Config, s: Sys, step: Step, c: string)
    requires Fresh(s) && AllShaped(cfg, s) && (c in s.early || Exclusive(s, c))
    ensures var n := Next(cfg, s, step); c in n.early || Exclusive(n, c)
  {
    if c !in s.early {
      match step
      case Begin(_, _) =>
      case Api(x, outcome) =>
        if x in s.calls { ExclusiveApi(s, x, ApiAct(s.calls[x], OwnerOf(s, s.calls[x].key), outcome), c); }
      case Deliver(t) =>
        if t in s.copies && s.copies[t].place.Main? {
          var job := s.copies[t].job;
          ExclusivePlaced(s, t, Busy(Worker(ReadStatus, false, job.attempt, false)), Delivered(job.id), c);
        }
      case Work(t, outcome, result) =>
        if t in s.copies && s.copies[t].place.Busy? {
          var copy := s.copies[t];
          ActIsDisciplined(cfg, copy.job, copy.place.worker, StatusOf(s, copy.job.id), LockFree(s, copy.job),
                           outcome, result);
          ExclusiveApply(cfg, s, t, WorkEffect(cfg, s, t, outcome, result), c);
        }
      case Crash(t) =>
        if t in s.copies && s.copies[t].place.Busy? {
          assert Shaped(cfg, s.copies[t]);
          ExclusiveApply(cfg, s, t, CrashEffect(s.copies[t].job, s.copies[t].place.worker), c);
        }
      case BackoffOver(t) =>
        if t in s.copies && s.copies[t].place.Backoff? { ExclusivePlaced(s, t, Main, Silent, c); }
      case LockExpires(_) => ExclusiveExpiry(cfg, s, step, c);
    }
  }

  /** The expiry of a lock whose holder is gone leaves the conversation free again. */
  lemma ExclusiveExpiry(cfg: Config, s: Sys, step: Step, c: string)
    requires step.LockExpires? && c !in s.early && Exclusive(s, c)
    ensures var n := Next(cfg, s, step); c in n.early || Exclusive(n, c)
  {
    var n := Next(cfg, s, step);
    assert n.copies == s.copies;
    assert Held(n, c) <==> Held(s, c);
  }

  lemma {:induction false} ExclusiveRun(cfg: Config, steps: seq<Step>, c: string)
    ensures var s := Run(cfg, steps); c in s.early || Exclusive(s, c)
  {
    if steps != [] {
      var before := steps[..|steps| - 1];
      ExclusiveRun(cfg, before, c);
      FreshRun(cfg, before);
      ShapedRun(cfg, before);
      ExclusiveStep(cfg, Run(cfg, before), steps[|steps| - 1], c);
    }
  }

  /** Under every schedule in which the lock of conversation c never expires while
      its holder lives, at most one delivery is between acquiring and releasing
      it, also among copies of one job that share a token; the lock is free
      exactly when no delivery holds it and none left it behind. */
  lemma OneJobPerConversation(cfg: Config, steps: seq<Step>, c: string, t: Tag, u: Tag)
    requires c !in Run(cfg, steps).early
    ensures var s := Run(cfg, steps);
            && (t in s.copies && u in s.copies && Holds(s.copies[t], c) && Holds(s.copies[u], c) ==> t == u)
            && (c !in s.locks <==> !Held(s, c) && c !in s.orphans)
  {
    ExclusiveRun(cfg, steps, c);
  }

  /** No two agents of one conversation run at once. */
  lemma OneAgentPerConversation(cfg: Config, steps: seq<Step>, c: string, t: Tag, u: Tag)
    requires var s := Run(cfg, steps);
             && c !in s.early && t in s.copies && u in s.copies
             && s.copies[t].job.payload == s.copies[u].job.payload == Chat(c)
             && s.copies[t].place.Busy? && s.copies[t].place.worker.pc.RunAgent?
             && s.copies[u].place.Busy? && s.copies[u].place.worker.pc.RunAgent?
    ensures t == u
  {
    ShapedRun(cfg, steps);
    ExclusiveRun(cfg, steps, c);
    var s := Run(cfg, steps);
    assert Shaped(cfg, s.copies[t]) && Shaped(cfg, s.copies[u]);
    assert Holds(s.copies[t], c) && Holds(s.copies[u], c);
  }

  /** The step is the effective release of conversation c by a delivery of the job whose token the
      lock carries. */
  predicate OwnRelease(s: Sys, step: Step, c: string) {
    && step.Work? && step.outcome != Refused && step.tag in s.copies && s.copies[step.tag].place.Busy?
    && s.copies[step.tag].place.worker.pc.Release? && s.copies[step.tag].job.payload == Chat(c)
    && c in s.locks && s.copies[step.tag].job.id == s.locks[c]
  }

  /** With expiry allowed at any time, a lock is removed or replaced if and only if it expires or a
      delivery of the very job whose token it carries releases it. */
  lemma StaleReleaseIsHarmless(cfg: Config, s: Sys, step: Step, c: string)
    requires AllShaped(cfg, s) && c in s.locks
    ensures var n := Next(cfg, s, step);
            (c !in n.locks || n.locks[c] != s.locks[c]) <==> step == LockExpires(c) || OwnRelease(s, step, c)
  {
    if step.Work? && step.tag in s.copies && s.copies[step.tag].place.Busy? {
      var copy := s.copies[step.tag];
      assert Shaped(cfg, copy);
      OnlyReleasesFree(cfg, copy.job, copy.place.worker, StatusOf(s, copy.job.id), LockFree(s, copy.job),
                       step.outcome, step.result);
    }
  }

  lemma OnlyReleasesFree(cfg: Config, job: Envelope, w: Worker, status: Option<Status>, lockFree: bool,
                         outcome: Outcome, result: AgentResult)
    ensures var e := Act(cfg, job, w, status, lockFree, outcome, result);
            && (e.lock.Free? <==> w.pc.Release? && outcome != Refused)
            && (e.lock.Take? ==> lockFree)
  {
  }
}
