/** What a fresh delivery does before and instead of an agent run, when its calls succeed: it drops a
    job that is over, dead-letters a malformed one, delays one whose conversation is busy, and runs
    the agent of any other under the lock. */
module DeliveryRoutes {
  import opened Prelude
  import opened JobProtocol
  import opened JobOutcome
  import DeliveryShape

  /** A delivery that has just begun. */
  ghost predicate Begun(s: Sys, t: Tag, job: Envelope) {
    At(s, t, job, Worker(ReadStatus, false, job.attempt, false))
  }

  predicate Over(s: Sys, j: JobId) {
    j in s.status && (s.status[j] == Waiting || s.status[j] == Completed || s.status[j] == Failed)
  }

  lemma Reads(cfg: Config, s: Sys, t: Tag, job: Envelope, result: AgentResult) returns (run: seq<Sys>)
    requires Begun(s, t, job)
    ensures Unhindered(cfg, t, result, run) && |run| == 2 && run[0] == s
    ensures var pc := if Over(s, job.id) then Ack else if job.payload.Malformed? then SetFailed else Acquire;
            && At(run[1], t, job, Worker(pc, false, job.attempt, false)) && run[1].next == s.next + 1
            && run[1].status == s.status && run[1].locks == s.locks && run[1].log == s.log + [Silent]
            && run[1].copies == s.copies[t := Copy(job, Busy(Worker(pc, false, job.attempt, false)))]
  {
    var w := Worker(ReadStatus, false, job.attempt, false);
    var pc := if Over(s, job.id) then Ack else if job.payload.Malformed? then SetFailed else Acquire;
    run := CallNext(cfg, [s], t, job, w, result, JobProtocol.Quiet(Goto(w, pc)));
  }

  lemma Acknowledges(cfg: Config, run: seq<Sys>, t: Tag, job: Envelope, w: Worker, result: AgentResult)
    returns (more: seq<Sys>)
    requires Unhindered(cfg, t, result, run) && At(run[|run| - 1], t, job, w) && w.pc == Ack && !w.held
    ensures Unhindered(cfg, t, result, more) && more[0] == run[0] && |more| == |run| + 1
    ensures var a, b := run[|run| - 1], more[|run|];
            && b.copies == a.copies - {t} && b.status == a.status && b.locks == a.locks && b.log == a.log + [Silent]
  {
    more := CallNext(cfg, run, t, job, w, result, JobProtocol.Quiet(None));
  }

  /** A job that is over is acknowledged: its message goes, nothing else changes, and no agent runs. */
  lemma DuplicatesAreDropped(cfg: Config, s: Sys, t: Tag, job: Envelope, result: AgentResult) returns (run: seq<Sys>)
    requires Begun(s, t, job) && Over(s, job.id)
    ensures Unhindered(cfg, t, result, run) && |run| == 3 && run[0] == s
    ensures var n := run[2];
            && n.copies == s.copies - {t} && n.status == s.status && n.locks == s.locks
            && n.log == s.log + [Silent, Silent]
  {
    run := Reads(cfg, s, t, job, result);
    run := Acknowledges(cfg, run, t, job, Worker(Ack, false, job.attempt, false), result);
    assert run[2].copies == s.copies - {t};
  }

  /** A malformed payload is failed and dead-lettered on its first delivery, with no attempt counted
      and without lock or agent. */
  lemma MalformedJobsAreDeadLettered(cfg: Config, s: Sys, t: Tag, job: Envelope, result: AgentResult)
    returns (run: seq<Sys>)
    requires Begun(s, t, job) && !Over(s, job.id) && job.payload.Malformed?
    ensures Unhindered(cfg, t, result, run) && run[0] == s
    ensures Reports(run, t, job, Worker(Ack, false, job.attempt, false), job.attempt, Failed)
  {
    run := Reads(cfg, s, t, job, result);
    run := DeadLetters(cfg, run, t, job, Worker(SetFailed, false, job.attempt, false), result);
  }

  /** A job whose conversation is locked goes to the first retry queue as it is. */
  lemma BusyJobsAreDelayed(cfg: Config, s: Sys, t: Tag, job: Envelope, result: AgentResult) returns (run: seq<Sys>)
    requires Begun(s, t, job) && !Over(s, job.id) && job.payload.Chat? && job.payload.conversation in s.locks
    ensures Unhindered(cfg, t, result, run) && run[0] == s
    ensures var n := run[|run| - 1];
            && At(n, t, job, Worker(Ack, false, job.attempt, false)) && Newest(n, Copy(job, Backoff(1)))
            && n.status == s.status && n.locks == s.locks
  {
    var w := Worker(Acquire, false, job.attempt, false);
    run := Reads(cfg, s, t, job, result);
    run := CallNext(cfg, run, t, job, w, result,
                    JobProtocol.Quiet(Goto(w, PublishRetry(1))).(event := Delayed(job.id)));
    var v := w.(pc := PublishRetry(1));
    run := CallNext(cfg, run, t, job, v, result,
                    JobProtocol.Quiet(Goto(v, Ack)).(post := Some(Copy(job, Backoff(1)))));
  }

  /** Any other job takes the lock of its conversation, is processing, and comes to its agent run. */
  lemma OtherJobsRunTheAgent(cfg: Config, s: Sys, t: Tag, job: Envelope, result: AgentResult) returns (run: seq<Sys>)
    requires Begun(s, t, job) && !Over(s, job.id) && job.payload.Chat? && job.payload.conversation !in s.locks
    ensures Unhindered(cfg, t, result, run) && run[0] == s
    ensures var n := run[|run| - 1];
            && At(n, t, job, Worker(RunAgent, true, job.attempt, false))
            && n.status == s.status[job.id := Processing] && n.locks == s.locks[job.payload.conversation := job.id]
  {
    var w := Worker(Acquire, false, job.attempt, false);
    run := Reads(cfg, s, t, job, result);
    var v := Worker(SetProcessing, true, job.attempt, false);
    run := CallNext(cfg, run, t, job, w, result, JobProtocol.Quiet(Some(Busy(v))).(lock := Take));
    run := MarksTheStart(cfg, run, t, job, v, result);
  }

  lemma MarksTheStart(cfg: Config, run: seq<Sys>, t: Tag, job: Envelope, w: Worker, result: AgentResult)
    returns (more: seq<Sys>)
    requires Unhindered(cfg, t, result, run) && At(run[|run| - 1], t, job, w) && w.pc == SetProcessing
    ensures Unhindered(cfg, t, result, more) && more[0] == run[0]
    ensures var a, b := run[|run| - 1], more[|more| - 1];
            && At(b, t, job, w.(pc := RunAgent)) && b.status == a.status[job.id := Processing] && b.locks == a.locks
  {
    more := CallNext(cfg, run, t, job, w, result,
                     JobProtocol.Quiet(Goto(w, MarkStarted)).(write := Some(Processing)));
    more := CallNext(cfg, more, t, job, w.(pc := MarkStarted), result, JobProtocol.Quiet(Goto(w, RunAgent)));
  }

  /** A retry publish that is refused puts the message back on the main queue with the attempt it came with. */
  lemma RefusedRetriesAreRequeued(cfg: Config, job: Envelope, w: Worker, status: Option<Status>, lockFree: bool,
                                  result: AgentResult)
    requires w.pc.PublishRetry?
    ensures var e := Act(cfg, job, w, status, lockFree, Refused, result);
            && e.post.None? && e.write.None? && e.after.Some? && e.after.value.Busy?
            && Act(cfg, job, e.after.value.worker, status, lockFree, Done, result).post == Some(Copy(job, Main))
  {
  }

  // Over all schedules, the agent runs only for well-formed payloads.

  /** Every message carries the payload that was published for its job. */
  ghost predicate PayloadsMatch(s: Sys) {
    forall t | t in s.copies ::
      var job := s.copies[t].job; job.id in s.calls && s.calls[job.id].payload == job.payload
  }

  ghost predicate RunsAreChats(s: Sys) {
    forall j: JobId | Ran(j) in s.log :: j in s.calls && s.calls[j].payload.Chat?
  }

  lemma ChatsApply(s: Sys, t: Tag, e: Effect)
    requires Fresh(s) && PayloadsMatch(s) && RunsAreChats(s) && t in s.copies
    requires e.post.Some? ==>
               && e.post.value.job.id == s.copies[t].job.id
               && e.post.value.job.payload == s.copies[t].job.payload
    requires e.event.Ran? ==> e.event.job == s.copies[t].job.id && s.copies[t].job.payload.Chat?
    ensures PayloadsMatch(Apply(s, t, e)) && RunsAreChats(Apply(s, t, e))
  {
    var n := Apply(s, t, e);
    forall j: JobId | Ran(j) in n.log ensures j in n.calls && n.calls[j].payload.Chat? {
      assert Ran(j) in s.log || Ran(j) == e.event;
    }
  }

  lemma OnlyChatsRun(cfg: Config, job: Envelope, w: Worker, status: Option<Status>, lockFree: bool,
                     outcome: Outcome, result: AgentResult)
    ensures var e := Act(cfg, job, w, status, lockFree, outcome, result);
            e.event.Ran? ==> e.event.job == job.id && w.pc == RunAgent
  {
  }

  lemma ChatsApi(s: Sys, c: CallId, e: ApiEffect)
    requires Fresh(s) && PayloadsMatch(s) && RunsAreChats(s) && c in s.calls
    ensures PayloadsMatch(ApplyApi(s, c, e)) && RunsAreChats(ApplyApi(s, c, e))
  {
    var n := ApplyApi(s, c, e);
    forall j: JobId | Ran(j) in n.log ensures j in n.calls && n.calls[j].payload.Chat? {
      assert Ran(j) in s.log;
    }
  }

  lemma ChatsStep(cfg: Config, s: Sys, step: Step)
    requires Fresh(s) && DeliveryShape.AllShaped(cfg, s) && PayloadsMatch(s) && RunsAreChats(s)
    ensures PayloadsMatch(Next(cfg, s, step)) && RunsAreChats(Next(cfg, s, step))
  {
    match step
    case Api(c, outcome) =>
      if c in s.calls { ChatsApi(s, c, ApiAct(s.calls[c], OwnerOf(s, s.calls[c].key), outcome)); }
    case Work(t, outcome, result) =>
      if t in s.copies && s.copies[t].place.Busy? {
        var copy := s.copies[t];
        assert DeliveryShape.Shaped(cfg, copy);
        ActPostsItsJob(cfg, copy.job, copy.place.worker, StatusOf(s, copy.job.id), LockFree(s, copy.job),
                       outcome, result);
        OnlyChatsRun(cfg, copy.job, copy.place.worker, StatusOf(s, copy.job.id), LockFree(s, copy.job),
                     outcome, result);
        ChatsApply(s, t, WorkEffect(cfg, s, t, outcome, result));
      }
    case Crash(t) =>
      if t in s.copies && s.copies[t].place.Busy? {
        ChatsApply(s, t, CrashEffect(s.copies[t].job, s.copies[t].place.worker));
      }
    case _ => ChatsElsewhere(cfg, s, step);
  }

  lemma ChatsElsewhere(cfg: Config, s: Sys, step: Step)
    requires Fresh(s) && PayloadsMatch(s) && RunsAreChats(s) && !step.Api? && !step.Work? && !step.Crash?
    ensures PayloadsMatch(Next(cfg, s, step)) && RunsAreChats(Next(cfg, s, step))
  {
    var n := Next(cfg, s, step);
    forall j: JobId | Ran(j) in n.log ensures j in n.calls && n.calls[j].payload.Chat? {
      assert Ran(j) in s.log;
    }
  }

  lemma {:induction false} ChatsRun(cfg: Config, steps: seq<Step>)
    ensures PayloadsMatch(Run(cfg, steps)) && RunsAreChats(Run(cfg, steps))
  {
    if steps != [] {
      var before := steps[..|steps| - 1];
      ChatsRun(cfg, before);
      FreshRun(cfg, before);
      DeliveryShape.ShapedRun(cfg, before);
      ChatsStep(cfg, Run(cfg, before), steps[|steps| - 1]);
    }
  }

  /** Under every schedule, an agent runs only for a job that was published with a well-formed payload. */
  lemma OnlyWellFormedJobsRun(cfg: Config, steps: seq<Step>, j: JobId)
    requires Ran(j) in Run(cfg, steps).log
    ensures j in Run(cfg, steps).calls && Run(cfg, steps).calls[j].payload.Chat?
  {
    ChatsRun(cfg, steps);
  }
}
