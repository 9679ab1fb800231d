/** Which `publish` calls have put a message into the broker, and what they know about it. */
module Posting {
  import opened Prelude
  import opened JobProtocol
  import opened NoLoss

  /** The call has made its broker call. */
  predicate Sent(pc: ApiPc) {
    PastPost(pc) && !(pc.Returned? && pc.duplicate)
  }

  /** Messages carry only jobs whose `publish` has posted them. */
  ghost predicate OnlyPosted(s: Sys) {
    forall t | t in s.copies ::
      var j := s.copies[t].job.id;
      j in s.calls && Sent(s.calls[j].pc) && Posted(j) in s.log
  }

  predicate AwaitsPost(pc: ApiPc) {
    pc.MarkPublished? || pc.Post? || pc.SetPostFailed?
  }

  /** Until its message is posted, the status of a job stays as `publish` wrote it. */
  ghost predicate StatusWaits(s: Sys) {
    forall j | j in s.calls && AwaitsPost(s.calls[j].pc) :: StatusOf(s, j) == Some(Published) || Posted(j) in s.log
  }

  ghost predicate Sound(s: Sys) {
    OnlyPosted(s) && StatusWaits(s)
  }

  lemma SoundApply(s: Sys, t: Tag, e: Effect)
    requires Sound(s) && t in s.copies && (e.post.Some? ==> e.post.value.job.id == s.copies[t].job.id)
    ensures Sound(Apply(s, t, e))
  {
    var n := Apply(s, t, e);
    assert forall x | x in s.log :: x in n.log;
  }

  lemma ApiStaysPast(call: Call, owner: Option<JobId>, outcome: Outcome)
    ensures var e := ApiAct(call, owner, outcome);
            && (e.post || Sent(call.pc) ==> Sent(e.pc))
            && (e.post && !e.pc.Returned? ==> call.pc == Post && outcome == Ambiguous)
            && (call.pc.Returned? ==> e.pc == call.pc)
            && (AwaitsPost(e.pc) ==> (e.write == Some(Published) && call.pc == SetPublished)
                                     || (e.write.None? && AwaitsPost(call.pc)))
  {
  }

  lemma SoundApi(s: Sys, c: CallId, outcome: Outcome)
    requires Fresh(s) && Sound(s) && c in s.calls
    ensures Sound(ApplyApi(s, c, ApiAct(s.calls[c], OwnerOf(s, s.calls[c].key), outcome)))
  {
    var e := ApiAct(s.calls[c], OwnerOf(s, s.calls[c].key), outcome);
    ApiStaysPast(s.calls[c], OwnerOf(s, s.calls[c].key), outcome);
    SoundCall(s, c, e);
  }

  lemma SoundCall(s: Sys, c: CallId, e: ApiEffect)
    requires Fresh(s) && Sound(s) && c in s.calls
    requires e.post || Sent(s.calls[c].pc) ==> Sent(e.pc)
    requires AwaitsPost(e.pc) ==> e.write == Some(Published) || (e.write.None? && AwaitsPost(s.calls[c].pc))
    ensures Sound(ApplyApi(s, c, e))
  {
    var n := ApplyApi(s, c, e);
    assert forall x | x in s.log :: x in n.log;
    assert n.log[|s.log|] == if e.post then Posted(c) else Silent;
  }

  lemma SoundStep(cfg: Config, s: Sys, step: Step)
    requires Fresh(s) && Sound(s)
    ensures Sound(Next(cfg, s, step))
  {
    match step
    case Api(c, outcome) => if c in s.calls { SoundApi(s, c, outcome); }
    case Work(t, outcome, result) =>
      if t in s.copies && s.copies[t].place.Busy? {
        var copy := s.copies[t];
        ActPostsItsJob(cfg, copy.job, copy.place.worker, StatusOf(s, copy.job.id), LockFree(s, copy.job), outcome,
            result);
        SoundApply(s, t, WorkEffect(cfg, s, t, outcome, result));
      }
    case Crash(t) =>
      if t in s.copies && s.copies[t].place.Busy? {
        SoundApply(s, t, CrashEffect(s.copies[t].job, s.copies[t].place.worker));
      }
    case _ =>
      var n := Next(cfg, s, step);
      assert forall x | x in s.log :: x in n.log;
  }

  lemma {:induction false} SoundRun(cfg: Config, steps: seq<Step>)
    ensures Sound(Run(cfg, steps))
  {
    if steps != [] {
      var before := steps[..|steps| - 1];
      SoundRun(cfg, before);
      FreshRun(cfg, before);
      SoundStep(cfg, Run(cfg, before), steps[|steps| - 1]);
    }
  }

  /** Step i is the broker call of job j's `publish`, and it raises although the message is queued. */
  ghost predicate AmbiguousPost(cfg: Config, steps: seq<Step>, i: nat, j: JobId) {
    && i < |steps| && steps[i] == Api(j, Ambiguous)
    && j in Run(cfg, steps[..i]).calls && Run(cfg, steps[..i]).calls[j].pc == Post
  }

  /** Job j was posted, and its `publish` has not returned. */
  ghost predicate Unanswered(s: Sys, j: JobId) {
    Posted(j) in s.log && j in s.calls && !s.calls[j].pc.Returned?
  }

  lemma OnlyApiPosts(cfg: Config, s: Sys, step: Step, j: JobId)
    requires Posted(j) !in s.log && Posted(j) in Next(cfg, s, step).log
    ensures step.Api?
  {
    if step.Work? {
      var copy := s.copies[step.tag];
      ActIsCareful(cfg, copy.job, copy.place.worker, StatusOf(s, copy.job.id), LockFree(s, copy.job), step.outcome,
          step.result);
    }
  }

  lemma UnansweredStep(cfg: Config, s: Sys, step: Step, j: JobId)
    requires Fresh(s) && Kept(s, j) && Unanswered(Next(cfg, s, step), j) && !Unanswered(s, j)
    ensures step == Api(j, Ambiguous) && j in s.calls && s.calls[j].pc == Post
  {
    if Posted(j) !in s.log {
      OnlyApiPosts(cfg, s, step, j);
    }
    if step.Api? && step.call in s.calls {
      ApiStaysPast(s.calls[step.call], OwnerOf(s, s.calls[step.call].key), step.outcome);
    }
  }

  /** A message whose `publish` did not return comes from a broker call that raised after taking effect. */
  lemma {:induction false} UnansweredIsAmbiguous(cfg: Config, steps: seq<Step>, j: JobId) returns (i: nat)
    requires Unanswered(Run(cfg, steps), j)
    ensures AmbiguousPost(cfg, steps, i, j)
  {
    i := |steps| - 1;
    var before := steps[..i];
    if Unanswered(Run(cfg, before), j) {
      i := UnansweredIsAmbiguous(cfg, before, j);
      assert before[..i] == steps[..i];
    } else {
      FreshRun(cfg, before);
      KeptRun(cfg, before, j);
      UnansweredStep(cfg, Run(cfg, before), steps[i], j);
    }
  }
}
