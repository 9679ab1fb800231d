/** When an idempotency key points to a job that is not, and never will be, published by its call:
    exactly after a claim that raised although it took the key, or a release that was refused. */
module LostKeys {
  import opened Prelude
  import opened JobProtocol
  import opened NoLoss
  import opened Idempotency

  /** Step i leaves the key of call c behind: the claim takes it and raises, or the release is refused. */
  ghost predicate KeyLost(cfg: Config, steps: seq<Step>, i: nat, c: CallId, k: string) {
    i < |steps| && Loses(Run(cfg, steps[..i]), steps[i], c, k)
  }

  predicate Loses(s: Sys, step: Step, c: CallId, k: string) {
    && step.Api? && step.call == c && c in s.calls && s.calls[c].key == k != ""
    && (|| (step.outcome == Ambiguous && s.calls[c].pc == ClaimKey && k !in s.keys)
        || (step.outcome == Refused && s.calls[c].pc == DropKey))
  }

  /** The key points to a call that has come to rest without publishing its job. */
  predicate Dead(s: Sys, k: string) {
    k in s.keys && s.keys[k] in s.calls && s.calls[s.keys[k]].pc == Raised
  }

  /** Whoever a key points to is still on its way, has returned, or has raised. */
  ghost predicate Pointed(s: Sys) {
    OwnersAsked(s) && KeysPointBack(s)
    && forall k | k in s.keys && k != "" :: Owning(s.calls[s.keys[k]].pc) || s.calls[s.keys[k]].pc == Raised
  }

  lemma PointedApi(s: Sys, c: CallId, outcome: Outcome, k: string)
    requires Fresh(s) && Pointed(s) && c in s.calls && k != ""
    ensures var n := ApplyApi(s, c, ApiAct(s.calls[c], OwnerOf(s, s.calls[c].key), outcome));
            && (k in n.keys ==> n.keys[k] in n.calls
                                && (Owning(n.calls[n.keys[k]].pc) || n.calls[n.keys[k]].pc == Raised))
            && (Dead(n, k) ==> (Dead(s, k) && n.keys[k] == s.keys[k]) || Loses(s, Api(c, outcome), n.keys[k], k))
            && (Dead(s, k) ==> Dead(n, k) && n.keys[k] == s.keys[k])
            && (Loses(s, Api(c, outcome), c, k) ==> Dead(n, k) && n.keys[k] == c)
  {
    var call := s.calls[c];
    var e := ApiAct(call, OwnerOf(s, call.key), outcome);
    assert Owning(call.pc) && call.key != "" ==> OwnerOf(s, call.key) == Some(c);
  }

  /** What a step does to a key: it dies exactly when the step loses it, and then for good. */
  lemma DeadStep(cfg: Config, s: Sys, step: Step, k: string)
    requires Fresh(s) && Pointed(s) && k != ""
    ensures var n := Next(cfg, s, step);
            && (Dead(n, k) ==> (Dead(s, k) && n.keys[k] == s.keys[k]) || Loses(s, step, n.keys[k], k))
            && (Dead(s, k) ==> Dead(n, k) && n.keys[k] == s.keys[k])
            && (forall c | Loses(s, step, c, k) :: Dead(n, k) && n.keys[k] == c)
  {
    if step.Api? {
      if step.call in s.calls { PointedApi(s, step.call, step.outcome, k); }
    } else if !step.Begin? {
      assert Next(cfg, s, step).calls == s.calls && Next(cfg, s, step).keys == s.keys;
    }
  }

  lemma PointedStep(cfg: Config, s: Sys, step: Step)
    requires Fresh(s) && Pointed(s)
    ensures Pointed(Next(cfg, s, step))
  {
    var n := Next(cfg, s, step);
    OwnersStep(cfg, s, step);
    KeysStep(cfg, s, step);
    forall k | k in n.keys && k != "" ensures Owning(n.calls[n.keys[k]].pc) || n.calls[n.keys[k]].pc == Raised {
      if step.Api? && step.call in s.calls {
        PointedApi(s, step.call, step.outcome, k);
      } else if !step.Begin? {
        assert n.calls == s.calls && n.keys == s.keys;
      }
    }
  }

  lemma {:induction false} PointedRun(cfg: Config, steps: seq<Step>)
    ensures Pointed(Run(cfg, steps))
  {
    if steps != [] {
      var before := steps[..|steps| - 1];
      PointedRun(cfg, before);
      FreshRun(cfg, before);
      PointedStep(cfg, Run(cfg, before), steps[|steps| - 1]);
    }
  }

  lemma {:induction false} DeadKeysWereLost(cfg: Config, steps: seq<Step>, k: string) returns (i: nat)
    requires k != "" && Dead(Run(cfg, steps), k)
    ensures KeyLost(cfg, steps, i, Run(cfg, steps).keys[k], k)
  {
    i := |steps| - 1;
    var before := steps[..i];
    FreshRun(cfg, before);
    PointedRun(cfg, before);
    DeadStep(cfg, Run(cfg, before), steps[i], k);
    if !Loses(Run(cfg, before), steps[i], Run(cfg, steps).keys[k], k) {
      i := DeadKeysWereLost(cfg, before, k);
      assert before[..i] == steps[..i];
    }
  }

  lemma {:induction false} LostKeysStayDead(cfg: Config, steps: seq<Step>, i: nat, c: CallId, k: string)
    requires KeyLost(cfg, steps, i, c, k)
    ensures Dead(Run(cfg, steps), k) && Run(cfg, steps).keys[k] == c
  {
    var n := |steps| - 1;
    var before := steps[..n];
    FreshRun(cfg, before);
    PointedRun(cfg, before);
    DeadStep(cfg, Run(cfg, before), steps[n], k);
    if i < n {
      assert before[..i] == steps[..i];
      LostKeysStayDead(cfg, before, i, c, k);
    }
  }

  /** A key points to a call that has raised if and only if that call lost it: its claim took the key
      and raised, or its release was refused. */
  lemma KeysDieExactlyWhenLost(cfg: Config, steps: seq<Step>, c: CallId, k: string)
    requires k != ""
    ensures Dead(Run(cfg, steps), k) && Run(cfg, steps).keys[k] == c <==> exists i: nat :: KeyLost(cfg, steps, i, c, k)
  {
    if Dead(Run(cfg, steps), k) && Run(cfg, steps).keys[k] == c {
      var i := DeadKeysWereLost(cfg, steps, k);
    }
    forall i: nat | KeyLost(cfg, steps, i, c, k) ensures Dead(Run(cfg, steps), k) && Run(cfg, steps).keys[k] == c {
      LostKeysStayDead(cfg, steps, i, c, k);
    }
  }

  /** A duplicate names a job that has been queued, or whose `publish` is still on its way, unless
      that `publish` lost its key. */
  lemma DuplicatesNameLiveJobs(cfg: Config, steps: seq<Step>, x: CallId)
    requires var s := Run(cfg, steps); x in s.calls && s.calls[x].pc == ReadOwner && s.calls[x].key != ""
    requires Run(cfg, steps).calls[x].key in Run(cfg, steps).keys
    requires var s := Run(cfg, steps); var k := s.calls[x].key;
             forall i: nat :: !KeyLost(cfg, steps, i, s.keys[k], k)
    ensures var s, n := Run(cfg, steps), Run(cfg, steps + [Api(x, Done)]);
            var j := s.keys[s.calls[x].key];
            && n.calls[x].pc == Returned(Some(j), true) && j in s.calls && Owning(s.calls[j].pc)
            && (s.calls[j].pc.Returned? ==> Posted(j) in s.log)
  {
    var s := Run(cfg, steps);
    var k := s.calls[x].key;
    PointedRun(cfg, steps);
    PostedRun(cfg, steps);
    KeysDieExactlyWhenLost(cfg, steps, s.keys[k], k);
    RunSnoc(cfg, steps, Api(x, Done));
  }

  /** The claim of call 0 takes the key and raises; the repeat is told "duplicate" with job 0, which
      has no message and no status, and never will have one from its `publish`. */
  lemma ADuplicateCanNameALostJob(cfg: Config, p: Payload) returns (steps: seq<Step>)
    ensures var s := Run(cfg, steps);
            && s.calls == map[0 := Call(0, p, "k", Raised), 1 := Call(1, p, "k", Returned(Some(0), true))]
            && s.keys == map["k" := 0] && s.copies == map[] && s.status == map[]
  {
    RunSnoc(cfg, [], Begin(p, "k"));
    RunSnoc(cfg, [] + [Begin(p, "k")], Begin(p, "k"));
    var a := [] + [Begin(p, "k")] + [Begin(p, "k")];
    assert Two(Run(cfg, a), p, ClaimKey, ClaimKey, map[], map[]);
    FirstMoves(cfg, a, p, ClaimKey, map[], map[], Ambiguous, Move(Raised).(key := Claim));
    var b := a + [Api(0, Ambiguous)];
    RunSnoc(cfg, a, Api(0, Ambiguous));
    SecondMoves(cfg, b, p, ClaimKey, map["k" := 0], map[], Move(ReadOwner));
    RunSnoc(cfg, b, Api(1, Done));
    var c := b + [Api(1, Done)];
    SecondMoves(cfg, c, p, ReadOwner, map["k" := 0], map[], Move(Returned(Some(0), true)));
    RunSnoc(cfg, c, Api(1, Done));
    steps := c + [Api(1, Done)];
  }
}
