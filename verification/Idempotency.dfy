/** Repeated `publish` calls with one idempotency key: at most one is told that it queued a new
    job, and at most one job of the key is queued unless a broker call raises after taking effect. */
module Idempotency {
  import opened Prelude
  import opened JobProtocol
  import opened Posting

  /** The call has claimed its key and has neither given it back nor been answered by another job. */
  predicate Owning(pc: ApiPc) {
    pc.SetPublished? || pc.MarkPublished? || pc.Post? || pc.SetPostFailed? || pc.DropKey?
    || (pc.Returned? && !pc.duplicate)
  }

  /** Every owning call is the one its key points to, so a key has at most one. */
  ghost predicate KeysPointBack(s: Sys) {
    forall c | c in s.calls && s.calls[c].key != "" && Owning(s.calls[c].pc) :: OwnerOf(s, s.calls[c].key) == Some(c)
  }

  lemma ApiKeepsKeys(s: Sys, c: CallId, outcome: Outcome)
    requires Fresh(s) && KeysPointBack(s) && c in s.calls
    ensures KeysPointBack(ApplyApi(s, c, ApiAct(s.calls[c], OwnerOf(s, s.calls[c].key), outcome)))
  {
    var call := s.calls[c];
    var e := ApiAct(call, OwnerOf(s, call.key), outcome);
    var n := ApplyApi(s, c, e);
    forall x | x in n.calls && n.calls[x].key != "" && Owning(n.calls[x].pc)
      ensures OwnerOf(n, n.calls[x].key) == Some(x)
    {
      assert x != c ==> n.calls[x] == s.calls[x] && OwnerOf(s, s.calls[x].key) == Some(x);
      assert Owning(call.pc) && call.key != "" ==> OwnerOf(s, call.key) == Some(c);
    }
  }

  lemma KeysStep(cfg: Config, s: Sys, step: Step)
    requires Fresh(s) && KeysPointBack(s)
    ensures KeysPointBack(Next(cfg, s, step))
  {
    if step.Api? {
      if step.call in s.calls { ApiKeepsKeys(s, step.call, step.outcome); }
    } else if step.Begin? {
      var n := Next(cfg, s, step);
      assert forall x | x in s.calls :: n.calls[x] == s.calls[x];
    } else {
      assert Next(cfg, s, step).calls == s.calls && Next(cfg, s, step).keys == s.keys;
    }
  }

  lemma {:induction false} KeysRun(cfg: Config, steps: seq<Step>)
    ensures KeysPointBack(Run(cfg, steps))
  {
    if steps != [] {
      var before := steps[..|steps| - 1];
      KeysRun(cfg, before);
      FreshRun(cfg, before);
      KeysStep(cfg, Run(cfg, before), steps[|steps| - 1]);
    }
  }

  /** However the calls interleave and fail, at most one call per key returns a newly queued job. */
  lemma OneNewJobPerKey(cfg: Config, steps: seq<Step>, c: CallId, d: CallId)
    requires var s := Run(cfg, steps);
             && c in s.calls && d in s.calls && s.calls[c].key == s.calls[d].key != ""
             && s.calls[c].pc.Returned? && !s.calls[c].pc.duplicate
             && s.calls[d].pc.Returned? && !s.calls[d].pc.duplicate
    ensures c == d
  {
    KeysRun(cfg, steps);
  }

  /** The call c has returned its job for key k, and call x has come too late to get one of its own. */
  ghost predicate Answered(s: Sys, c: CallId, k: string, x: CallId) {
    && c in s.calls && s.calls[c].key == k && s.calls[c].pc == Returned(Some(c), false)
    && (x in s.calls && s.calls[x].key == k ==>
          s.calls[x].pc.ClaimKey? || s.calls[x].pc.ReadOwner? || s.calls[x].pc.Raised?
          || s.calls[x].pc == Returned(Some(c), true))
    && (forall t | t in s.copies && x in s.calls && s.calls[x].key == k :: s.copies[t].job.id != x)
  }

  lemma AnsweredApi(s: Sys, y: CallId, outcome: Outcome, c: CallId, k: string, x: CallId)
    requires Fresh(s) && KeysPointBack(s) && k != "" && x != c && Answered(s, c, k, x) && y in s.calls
    ensures Answered(ApplyApi(s, y, ApiAct(s.calls[y], OwnerOf(s, s.calls[y].key), outcome)), c, k, x)
  {
    var e := ApiAct(s.calls[y], OwnerOf(s, s.calls[y].key), outcome);
    var n := ApplyApi(s, y, e);
    assert OwnerOf(s, k) == Some(c);
    assert forall t | t in n.copies && t != s.next :: t in s.copies && n.copies[t] == s.copies[t];
    assert y == x && s.calls[x].key == k ==> !e.post;
  }

  lemma AnsweredApply(s: Sys, t: Tag, e: Effect, c: CallId, k: string, x: CallId)
    requires Answered(s, c, k, x) && t in s.copies && (e.post.Some? ==> e.post.value.job.id == s.copies[t].job.id)
    ensures Answered(Apply(s, t, e), c, k, x)
  {
    var n := Apply(s, t, e);
    assert forall u | u in n.copies && u != s.next && u != t :: u in s.copies && n.copies[u] == s.copies[u];
  }

  lemma AnsweredStep(cfg: Config, s: Sys, step: Step, c: CallId, k: string, x: CallId)
    requires Fresh(s) && KeysPointBack(s) && k != "" && x != c && Answered(s, c, k, x)
    ensures Answered(Next(cfg, s, step), c, k, x)
  {
    match step
    case Begin(_, _) =>
    case Api(y, outcome) => if y in s.calls { AnsweredApi(s, y, outcome, c, k, x); }
    case Deliver(_) =>
    case Work(t, outcome, result) =>
      if t in s.copies && s.copies[t].place.Busy? {
        var copy := s.copies[t];
        ActPostsItsJob(cfg, copy.job, copy.place.worker, StatusOf(s, copy.job.id), LockFree(s, copy.job), outcome,
            result);
        AnsweredApply(s, t, WorkEffect(cfg, s, t, outcome, result), c, k, x);
      }
    case Crash(t) =>
      if t in s.copies && s.copies[t].place.Busy? {
        AnsweredApply(s, t, CrashEffect(s.copies[t].job, s.copies[t].place.worker), c, k, x);
      }
    case BackoffOver(_) =>
    case LockExpires(_) =>
  }

  lemma {:induction false} LateCallsAreAnswered(cfg: Config, a: seq<Step>, b: seq<Step>, c: CallId, x: CallId)
    requires c in Run(cfg, a).calls && Run(cfg, a).calls[c].key != "" && x != c
    requires Answered(Run(cfg, a), c, Run(cfg, a).calls[c].key, x)
    ensures Answered(Run(cfg, a + b), c, Run(cfg, a).calls[c].key, x)
    decreases |b|
  {
    var k := Run(cfg, a).calls[c].key;
    if b == [] {
      assert a + b == a;
    } else {
      var before := b[..|b| - 1];
      LateCallsAreAnswered(cfg, a, before, c, x);
      FreshRun(cfg, a + before);
      KeysRun(cfg, a + before);
      AnsweredStep(cfg, Run(cfg, a + before), b[|b| - 1], c, k, x);
      RunSnoc(cfg, a + before, b[|b| - 1]);
      assert a + b == (a + before) + [b[|b| - 1]];
    }
  }

  /** The call has come to rest without a job of its own. */
  predicate Over(pc: ApiPc) {
    pc.Raised? || (pc.Returned? && pc.duplicate)
  }

  lemma OverStep(cfg: Config, s: Sys, step: Step, x: CallId)
    requires Fresh(s) && x in s.calls && (s.calls[x].pc.Raised? || s.calls[x].pc.Returned?)
    ensures x in Next(cfg, s, step).calls && Next(cfg, s, step).calls[x] == s.calls[x]
  {
  }

  lemma {:induction false} FinishedCallsStay(cfg: Config, a: seq<Step>, b: seq<Step>, x: CallId)
    requires x in Run(cfg, a).calls && (Run(cfg, a).calls[x].pc.Raised? || Run(cfg, a).calls[x].pc.Returned?)
    ensures x in Run(cfg, a + b).calls && Run(cfg, a + b).calls[x] == Run(cfg, a).calls[x]
    decreases |b|
  {
    if b == [] {
      assert a + b == a;
    } else {
      var before := b[..|b| - 1];
      FinishedCallsStay(cfg, a, before, x);
      FreshRun(cfg, a + before);
      OverStep(cfg, Run(cfg, a + before), b[|b| - 1], x);
      RunSnoc(cfg, a + before, b[|b| - 1]);
      assert a + b == (a + before) + [b[|b| - 1]];
    }
  }

  /** A key whose publish succeeded is never claimed again, and points to its job forever. Every
      other call for it, begun before or after, was already over without a job of its own and
      stays so, or it can only raise or be told the original job, and none of its messages exists. */
  lemma RepeatsGetTheOriginal(cfg: Config, a: seq<Step>, b: seq<Step>, c: CallId, x: CallId)
    requires var s := Run(cfg, a);
             c in s.calls && s.calls[c].key != "" && s.calls[c].pc == Returned(Some(c), false) && x != c
    ensures var s, n := Run(cfg, a), Run(cfg, a + b);
            var k := s.calls[c].key;
            && OwnerOf(n, k) == Some(c)
            && (x in n.calls && n.calls[x].key == k ==>
                  if x in s.calls && Over(s.calls[x].pc) then n.calls[x] == s.calls[x]
                  else Answered(n, c, k, x))
  {
    var s := Run(cfg, a);
    FinishedCallsStay(cfg, a, b, c);
    KeysRun(cfg, a);
    KeysRun(cfg, a + b);
    if x in s.calls && Over(s.calls[x].pc) {
      FinishedCallsStay(cfg, a, b, x);
    } else {
      SoundRun(cfg, a);
      LateCallsAreAnswered(cfg, a, b, c, x);
    }
  }

  /** Unless some call of the key had its broker call raise after queueing the message, all
      messages of the key carry one job. */
  lemma OneQueuedJobPerKey(cfg: Config, steps: seq<Step>, k: string, t: Tag, u: Tag)
    requires k != "" && t in Run(cfg, steps).copies && u in Run(cfg, steps).copies
    requires var s := Run(cfg, steps);
             forall x | x in {s.copies[t].job.id, s.copies[u].job.id} :: x in s.calls && s.calls[x].key == k
    requires forall c: CallId, i: nat | c in Run(cfg, steps).calls && Run(cfg, steps).calls[c].key == k ::
               !AmbiguousPost(cfg, steps, i, c)
    ensures Run(cfg, steps).copies[t].job.id == Run(cfg, steps).copies[u].job.id
  {
    QueuedIsReturned(cfg, steps, k, t);
    QueuedIsReturned(cfg, steps, k, u);
    KeysRun(cfg, steps);
  }

  lemma QueuedIsReturned(cfg: Config, steps: seq<Step>, k: string, t: Tag)
    requires t in Run(cfg, steps).copies
    requires var s := Run(cfg, steps); var j := s.copies[t].job.id; j in s.calls && s.calls[j].key == k
    requires forall c: CallId, i: nat | c in Run(cfg, steps).calls && Run(cfg, steps).calls[c].key == k ::
               !AmbiguousPost(cfg, steps, i, c)
    ensures var s := Run(cfg, steps); var pc := s.calls[s.copies[t].job.id].pc; pc.Returned? && !pc.duplicate
  {
    var j := Run(cfg, steps).copies[t].job.id;
    SoundRun(cfg, steps);
    if !Run(cfg, steps).calls[j].pc.Returned? {
      var i := UnansweredIsAmbiguous(cfg, steps, j);
    }
  }

  /** Two calls for the key "k", at these points. */
  ghost predicate Two(s: Sys, p: Payload, first: ApiPc, second: ApiPc,
                      keys: map<string, JobId>, copies: map<Tag, Copy>)
  {
    && s.calls == map[0 := Call(0, p, "k", first), 1 := Call(1, p, "k", second)]
    && s.keys == keys && s.copies == copies
  }

  lemma FirstMoves(cfg: Config, steps: seq<Step>, p: Payload, first: ApiPc, keys: map<string, JobId>,
                   copies: map<Tag, Copy>, outcome: Outcome, e: ApiEffect)
    requires Two(Run(cfg, steps), p, first, ClaimKey, keys, copies)
    requires e == ApiAct(Call(0, p, "k", first), if "k" in keys then Some(keys["k"]) else None, outcome)
    ensures Two(Run(cfg, steps + [Api(0, outcome)]), p, e.pc, ClaimKey,
                match e.key case KeepKey => keys case Claim => keys["k" := 0] case Drop => keys - {"k"},
                if e.post then copies[Run(cfg, steps).next := Copy(Envelope(0, p, 0), Main)] else copies)
    ensures Run(cfg, steps + [Api(0, outcome)]).next == Run(cfg, steps).next + 1
  {
    RunSnoc(cfg, steps, Api(0, outcome));
  }

  lemma SecondMoves(cfg: Config, steps: seq<Step>, p: Payload, second: ApiPc, keys: map<string, JobId>,
                    copies: map<Tag, Copy>, e: ApiEffect)
    requires Two(Run(cfg, steps), p, Raised, second, keys, copies) && !e.key.Drop?
    requires e == ApiAct(Call(1, p, "k", second), if "k" in keys then Some(keys["k"]) else None, Done)
    ensures Two(Run(cfg, steps + [Api(1, Done)]), p, Raised, e.pc, if e.key.Claim? then keys["k" := 1] else keys,
                if e.post then copies[Run(cfg, steps).next := Copy(Envelope(1, p, 0), Main)] else copies)
    ensures Run(cfg, steps + [Api(1, Done)]).next == Run(cfg, steps).next + 1
  {
    RunSnoc(cfg, steps, Api(1, Done));
  }

  lemma FirstComesToItsPost(cfg: Config, p: Payload, a: seq<Step>) returns (steps: seq<Step>)
    requires Two(Run(cfg, a), p, ClaimKey, ClaimKey, map[], map[]) && Run(cfg, a).next == 2
    ensures Two(Run(cfg, steps), p, Post, ClaimKey, map["k" := 0], map[]) && Run(cfg, steps).next == 5
  {
    FirstMoves(cfg, a, p, ClaimKey, map[], map[], Done, Move(SetPublished).(key := Claim));
    steps := a + [Api(0, Done)];
    FirstMoves(cfg, steps, p, SetPublished, map["k" := 0], map[], Done, Move(MarkPublished).(write := Some(Published)));
    steps := steps + [Api(0, Done)];
    FirstMoves(cfg, steps, p, MarkPublished, map["k" := 0], map[], Done, Move(Post));
    steps := steps + [Api(0, Done)];
  }

  lemma FirstGivesUp(cfg: Config, p: Payload, a: seq<Step>) returns (steps: seq<Step>)
    requires Two(Run(cfg, a), p, Post, ClaimKey, map["k" := 0], map[]) && Run(cfg, a).next == 5
    ensures Two(Run(cfg, steps), p, Raised, ClaimKey, map[], map[5 := Copy(Envelope(0, p, 0), Main)])
    ensures Run(cfg, steps).next == 8
  {
    var copies := map[5 := Copy(Envelope(0, p, 0), Main)];
    FirstMoves(cfg, a, p, Post, map["k" := 0], map[], Ambiguous, Move(SetPostFailed).(post := true));
    steps := a + [Api(0, Ambiguous)];
    FirstMoves(cfg, steps, p, SetPostFailed, map["k" := 0], copies, Done, Move(DropKey).(write := Some(Failed)));
    steps := steps + [Api(0, Done)];
    FirstMoves(cfg, steps, p, DropKey, map["k" := 0], copies, Done, Move(Raised).(key := Drop));
    steps := steps + [Api(0, Done)];
  }

  lemma SecondQueuesItsJob(cfg: Config, p: Payload, a: seq<Step>, copies: map<Tag, Copy>) returns (steps: seq<Step>)
    requires Two(Run(cfg, a), p, Raised, ClaimKey, map[], copies) && Run(cfg, a).next == 8
    ensures Two(Run(cfg, steps), p, Raised, Returned(Some(1), false), map["k" := 1],
                copies[11 := Copy(Envelope(1, p, 0), Main)])
  {
    SecondMoves(cfg, a, p, ClaimKey, map[], copies, Move(SetPublished).(key := Claim));
    steps := a + [Api(1, Done)];
    SecondMoves(cfg, steps, p, SetPublished, map["k" := 1], copies, Move(MarkPublished).(write := Some(Published)));
    steps := steps + [Api(1, Done)];
    SecondMoves(cfg, steps, p, MarkPublished, map["k" := 1], copies, Move(Post));
    steps := steps + [Api(1, Done)];
    SecondMoves(cfg, steps, p, Post, map["k" := 1], copies, Move(Returned(Some(1), false)).(post := true));
    steps := steps + [Api(1, Done)];
  }

  /** The exception is real: a call raises although its message is queued, gives the key back, and
      the repeat queues a second job for the same key. */
  lemma AKeyCanQueueTwoJobs(cfg: Config, p: Payload) returns (steps: seq<Step>)
    ensures var s := Run(cfg, steps);
            && s.calls == map[0 := Call(0, p, "k", Raised), 1 := Call(1, p, "k", Returned(Some(1), false))]
            && s.copies == map[5 := Copy(Envelope(0, p, 0), Main), 11 := Copy(Envelope(1, p, 0), Main)]
  {
    RunSnoc(cfg, [], Begin(p, "k"));
    RunSnoc(cfg, [] + [Begin(p, "k")], Begin(p, "k"));
    var a := [] + [Begin(p, "k")] + [Begin(p, "k")];
    assert Two(Run(cfg, a), p, ClaimKey, ClaimKey, map[], map[]);
    var b := FirstComesToItsPost(cfg, p, a);
    var c := FirstGivesUp(cfg, p, b);
    steps := SecondQueuesItsJob(cfg, p, c, map[5 := Copy(Envelope(0, p, 0), Main)]);
  }

  /** Whoever a key points to is a call that asked for that key. */
  ghost predicate OwnersAsked(s: Sys) {
    forall k | k in s.keys :: s.keys[k] in s.calls && s.calls[s.keys[k]].key == k
  }

  lemma OwnersStep(cfg: Config, s: Sys, step: Step)
    requires Fresh(s) && OwnersAsked(s)
    ensures OwnersAsked(Next(cfg, s, step))
  {
    var n := Next(cfg, s, step);
    if step.Api? || step.Begin? {
      assert forall c | c in s.calls :: c in n.calls && n.calls[c].key == s.calls[c].key;
    } else {
      assert n.calls == s.calls && n.keys == s.keys;
    }
  }

  lemma {:induction false} OwnersRun(cfg: Config, steps: seq<Step>)
    ensures OwnersAsked(Run(cfg, steps))
  {
    if steps != [] {
      var before := steps[..|steps| - 1];
      OwnersRun(cfg, before);
      FreshRun(cfg, before);
      OwnersStep(cfg, Run(cfg, before), steps[|steps| - 1]);
    }
  }

  /** A caller that found its key taken is told "duplicate" with the job of a call for the same
      key, if and only if the key is still taken when it reads the owner. */
  lemma DuplicatesNameTheOwner(cfg: Config, steps: seq<Step>, x: CallId)
    requires x in Run(cfg, steps).calls && Run(cfg, steps).calls[x].pc == ReadOwner
    ensures var s, n := Run(cfg, steps), Run(cfg, steps + [Api(x, Done)]);
            var key := s.calls[x].key;
            && x in n.calls && n.calls[x].pc.Returned? && n.calls[x].pc.duplicate
            && (n.calls[x].pc.job.Some? <==> key in s.keys)
            && (key in s.keys ==>
                  var owner := n.calls[x].pc.job.value; owner in n.calls && n.calls[owner].key == key)
  {
    OwnersRun(cfg, steps);
    RunSnoc(cfg, steps, Api(x, Done));
  }

  /** The claim and the read of the owner are two calls: when the owner gives the key
      back in between, the second caller is told "duplicate" without a job. */
  lemma ADuplicateCanNameNoJob(cfg: Config, p: Payload)
    ensures exists steps :: var s := Run(cfg, steps);
              && 1 in s.calls && s.calls[1].pc == Returned(None, true) && s.copies == map[]
  {
    var a := [] + [Begin(p, "k")] + [Begin(p, "k")];
    RunSnoc(cfg, [], Begin(p, "k"));
    RunSnoc(cfg, [] + [Begin(p, "k")], Begin(p, "k"));
    assert Run(cfg, a).calls == map[0 := Call(0, p, "k", ClaimKey), 1 := Call(1, p, "k", ClaimKey)];
    ClaimRace(cfg, p, a);
    DropRace(cfg, p, a + [Api(0, Done)] + [Api(1, Done)]);
  }

  lemma ClaimRace(cfg: Config, p: Payload, a: seq<Step>)
    requires Run(cfg, a).calls == map[0 := Call(0, p, "k", ClaimKey), 1 := Call(1, p, "k", ClaimKey)]
    requires Run(cfg, a).keys == map[]
    ensures var s := Run(cfg, a + [Api(0, Done)] + [Api(1, Done)]);
            && s.calls == map[0 := Call(0, p, "k", SetPublished), 1 := Call(1, p, "k", ReadOwner)]
            && s.keys == map["k" := 0] && s.copies == Run(cfg, a).copies
  {
    RunSnoc(cfg, a, Api(0, Done));
    assert Run(cfg, a + [Api(0, Done)]).keys == map["k" := 0];
    RunSnoc(cfg, a + [Api(0, Done)], Api(1, Done));
  }

  lemma DropRace(cfg: Config, p: Payload, a: seq<Step>)
    requires Run(cfg, a).calls == map[0 := Call(0, p, "k", SetPublished), 1 := Call(1, p, "k", ReadOwner)]
    requires Run(cfg, a).keys == map["k" := 0]
    ensures var s := Run(cfg, a + [Api(0, Refused)] + [Api(0, Done)] + [Api(1, Done)]);
            1 in s.calls && s.calls[1].pc == Returned(None, true) && s.copies == Run(cfg, a).copies
  {
    var b := a + [Api(0, Refused)];
    RunSnoc(cfg, a, Api(0, Refused));
    RunSnoc(cfg, b, Api(0, Done));
    assert Run(cfg, b + [Api(0, Done)]).keys == map[];
    RunSnoc(cfg, b + [Api(0, Done)], Api(1, Done));
  }
}
