/** The worker side of the job service in its own form: nested exception handlers
    over a store and a broker that are updated in place. Between any two of its calls the rest
    of the system may take any steps. Each delivery is proved to make exactly the steps of the
    flat protocol machine. */
module JobService {
  import opened Prelude
  import opened Backoff
  import opened JobProtocol
  import opened Interference

  /** The worker has settled its message. */
  predicate Settled(place: Place) {
    place.Busy? && place.worker.pc == Release(false)
  }

  /** What one step of the delivery on tag t does to the broker: the message stays
      unacknowledged or leaves, and another one may be added. */
  function QueuesAfter(queues: map<Tag, Copy>, t: Tag, next: nat, e: Effect): map<Tag, Copy> {
    var kept := if e.after.Some? && !Settled(e.after.value) then queues else queues - {t};
    if e.post.Some? then kept[next := e.post.value] else kept
  }

  /** The protocol state is the broker's content, in which a delivered message keeps the
      place it had when it was handed out, with the worker of tag t at point w. */
  ghost predicate Shows(s: Sys, t: Tag, job: Envelope, w: Worker, queues: map<Tag, Copy>) {
    && t < s.next && s.copies == queues[t := Copy(job, Busy(w))]
    && (if w.pc == Release(false) then t !in queues else t in queues && queues[t].job == job)
  }

  /** The others have moved on from the last state of the run to `mid`, where the delivery of
      `job` on tag t stands at worker w. */
  ghost predicate Stands(env: Env, t: Tag, run: seq<Sys>, mid: Sys, job: Envelope, w: Worker, queues: map<Tag, Copy>) {
    IsRun(env, Delivery(t), run) && mid == Interleaved(env, Delivery(t), run[|run| - 1])
        && Shows(mid, t, job, w, queues)
  }

  /** The run has gone on by one call from `mid`: the delivery stands at worker v, or is over. */
  ghost predicate Then(env: Env, t: Tag, run: seq<Sys>, mid: Sys, more: seq<Sys>, job: Envelope, v: Option<Worker>,
                       status: map<JobId, Status>, locks: map<string, JobId>, queues: map<Tag, Copy>)
  {
    && run != [] && IsRun(env, Delivery(t), more) && more[0] == run[0]
    && var n := more[|more| - 1];
       && n.next == mid.next + 1 && n.keys == mid.keys && n.calls == mid.calls
       && n.status == status && n.locks == locks
       && (if v.Some? then Shows(n, t, job, v.value, queues) else t !in queues && n.copies == queues)
  }

  lemma ShowsAfter(s: Sys, t: Tag, job: Envelope, w: Worker, queues: map<Tag, Copy>, e: Effect)
    requires Shows(s, t, job, w, queues) && t in s.copies
    requires e.after.Some? ==> e.after.value.Busy? && w.pc != Release(false)
    ensures var n, after := Apply(s, t, e), QueuesAfter(queues, t, s.next, e);
            if e.after.Some? then Shows(n, t, job, e.after.value.worker, after) else t !in after && n.copies == after
  {
  }

  function StatusAfter(s: Sys, j: JobId, e: Effect): map<JobId, Status> {
    if e.write.Some? then s.status[j := e.write.value] else s.status
  }

  /** The next call of the machine, whatever it is. */
  lemma Advance(env: Env, t: Tag, run: seq<Sys>, mid: Sys, job: Envelope, w: Worker, queues: map<Tag, Copy>, e: Effect)
    returns (more: seq<Sys>)
    requires Stands(env, t, run, mid, job, w, queues)
    requires e == Act(env.cfg, job, w, StatusOf(mid, job.id), LockFree(mid, job), env.faults(mid.next), env.agent)
    requires e.after.Some? ==> e.after.value.Busy? && w.pc != Release(false)
    ensures Then(env, t, run, mid, more, job, if e.after.Some? then Some(e.after.value.worker) else None,
                 StatusAfter(mid, job.id, e), LocksAfter(mid, job, e), QueuesAfter(queues, t, mid.next, e))
  {
    var n := Next(env.cfg, mid, OwnStep(env, Delivery(t), mid));
    ShowsAfter(mid, t, job, w, queues, e);
    assert n == Apply(mid, t, e);
    RunGoesOn(env, Delivery(t), run, n);
    more := run + [n];
  }

  // What each call does to the store, the broker and the worker, one lemma for every point at
  // which a worker can stand.

  /** A status write that may be refused, and where the worker goes when it raises. */
  function Put(s: Sys, env: Env, j: JobId, value: Status): map<JobId, Status> {
    if env.faults(s.next) == Refused then s.status else s.status[j := value]
  }

  predicate Raises(env: Env, s: Sys) {
    env.faults(s.next) != Done
  }

  /** A publish that may be refused. */
  function Sent(env: Env, s: Sys, queues: map<Tag, Copy>, copy: Copy): map<Tag, Copy> {
    if env.faults(s.next) == Refused then queues else queues[s.next := copy]
  }

  /** The message is settled; a worker in the locked region still has to free the lock. */
  function Released(w: Worker): Option<Worker> {
    if w.held then Some(w.(pc := Release(false))) else None
  }

  lemma ReadStep(env: Env, t: Tag, run: seq<Sys>, mid: Sys, job: Envelope, w: Worker, queues: map<Tag, Copy>)
    returns (more: seq<Sys>)
    requires Stands(env, t, run, mid, job, w, queues) && w.pc == ReadStatus
    ensures Then(env, t, run, mid, more, job,
                 Some(if Raises(env, mid) then Counted(env.cfg, w.(blind := true))
                      else w.(pc := if job.id in mid.status && mid.status[job.id].Terminal() then Ack
                                    else if job.payload.Malformed? then SetFailed else Acquire)),
                 mid.status, mid.locks, queues)
  {
    var e := Act(env.cfg, job, w, StatusOf(mid, job.id), LockFree(mid, job), env.faults(mid.next), env.agent);
    more := Advance(env, t, run, mid, job, w, queues, e);
  }

  lemma LockStep(env: Env, t: Tag, run: seq<Sys>, mid: Sys, job: Envelope, w: Worker, queues: map<Tag, Copy>)
    returns (more: seq<Sys>)
    requires Stands(env, t, run, mid, job, w, queues) && w.pc == Acquire && job.payload.Chat?
    ensures Then(env, t, run, mid, more, job,
                 Some(if Raises(env, mid) then Counted(env.cfg, w)
                      else if job.payload.conversation !in mid.locks then w.(held := true, pc := SetProcessing)
                      else w.(pc := PublishRetry(1))),
                 mid.status, 
                 if job.payload.conversation !in mid.locks && env.faults(mid.next) != Refused
                 then mid.locks[job.payload.conversation := job.id] else mid.locks, queues)
  {
    var e := Act(env.cfg, job, w, StatusOf(mid, job.id), LockFree(mid, job), env.faults(mid.next), env.agent);
    more := Advance(env, t, run, mid, job, w, queues, e);
  }

  lemma ProcessingStep(env: Env, t: Tag, run: seq<Sys>, mid: Sys, job: Envelope, w: Worker, queues: map<Tag, Copy>)
    returns (more: seq<Sys>)
    requires Stands(env, t, run, mid, job, w, queues) && w.pc == SetProcessing && w.held
    ensures Then(env, t, run, mid, more, job,
                 Some(w.(pc := if Raises(env, mid) then Release(true) else MarkStarted)),
                 Put(mid, env, job.id, Processing), mid.locks, queues)
  {
    var e := Act(env.cfg, job, w, StatusOf(mid, job.id), LockFree(mid, job), env.faults(mid.next), env.agent);
    more := Advance(env, t, run, mid, job, w, queues, e);
  }

  lemma StartedStep(env: Env, t: Tag, run: seq<Sys>, mid: Sys, job: Envelope, w: Worker, queues: map<Tag, Copy>)
    returns (more: seq<Sys>)
    requires Stands(env, t, run, mid, job, w, queues) && w.pc == MarkStarted && w.held
    ensures Then(env, t, run, mid, more, job,
                 Some(w.(pc := if Raises(env, mid) then Release(true) else RunAgent)),
                 mid.status, mid.locks, queues)
  {
    var e := Act(env.cfg, job, w, StatusOf(mid, job.id), LockFree(mid, job), env.faults(mid.next), env.agent);
    more := Advance(env, t, run, mid, job, w, queues, e);
  }

  lemma AgentStep(env: Env, t: Tag, run: seq<Sys>, mid: Sys, job: Envelope, w: Worker, queues: map<Tag, Copy>)
    returns (more: seq<Sys>)
    requires Stands(env, t, run, mid, job, w, queues) && w.pc == RunAgent
    ensures Then(env, t, run, mid, more, job,
                 Some(AfterAgent(env.cfg, w, env.agent)),
                 mid.status, mid.locks, queues)
  {
    var e := Act(env.cfg, job, w, StatusOf(mid, job.id), LockFree(mid, job), env.faults(mid.next), env.agent);
    more := Advance(env, t, run, mid, job, w, queues, e);
  }

  lemma MetadataStep(env: Env, t: Tag, run: seq<Sys>, mid: Sys, job: Envelope, w: Worker, queues: map<Tag, Copy>)
    returns (more: seq<Sys>)
    requires Stands(env, t, run, mid, job, w, queues) && w.pc == SaveMetadata && w.held
    ensures Then(env, t, run, mid, more, job,
                 Some(w.(pc := if Raises(env, mid) then Release(true) else MarkFinished(true))),
                 mid.status, mid.locks, queues)
  {
    var e := Act(env.cfg, job, w, StatusOf(mid, job.id), LockFree(mid, job), env.faults(mid.next), env.agent);
    more := Advance(env, t, run, mid, job, w, queues, e);
  }

  lemma FinishedStep(env: Env, t: Tag, run: seq<Sys>, mid: Sys, job: Envelope, w: Worker, queues: map<Tag, Copy>)
    returns (more: seq<Sys>)
    requires Stands(env, t, run, mid, job, w, queues) && w.pc.MarkFinished? && w.held
    ensures Then(env, t, run, mid, more, job,
                 Some(w.(pc := if Raises(env, mid) then Release(true) else SetFinal(w.pc.paused))),
                 mid.status, mid.locks, queues)
  {
    var e := Act(env.cfg, job, w, StatusOf(mid, job.id), LockFree(mid, job), env.faults(mid.next), env.agent);
    more := Advance(env, t, run, mid, job, w, queues, e);
  }

  lemma FinalStep(env: Env, t: Tag, run: seq<Sys>, mid: Sys, job: Envelope, w: Worker, queues: map<Tag, Copy>)
    returns (more: seq<Sys>)
    requires Stands(env, t, run, mid, job, w, queues) && w.pc.SetFinal? && w.held
    ensures Then(env, t, run, mid, more, job,
                 Some(w.(blind := w.blind || env.faults(mid.next) == Ambiguous,
                         pc := if Raises(env, mid) then Release(true) else Ack)),
                 Put(mid, env, job.id, if w.pc.paused then Waiting else Completed), mid.locks, queues)
  {
    var e := Act(env.cfg, job, w, StatusOf(mid, job.id), LockFree(mid, job), env.faults(mid.next), env.agent);
    more := Advance(env, t, run, mid, job, w, queues, e);
  }

  lemma RetryingStep(env: Env, t: Tag, run: seq<Sys>, mid: Sys, job: Envelope, w: Worker, queues: map<Tag, Copy>)
    returns (more: seq<Sys>)
    requires Stands(env, t, run, mid, job, w, queues) && w.pc == SetRetrying
    ensures Then(env, t, run, mid, more, job,
                 Some(w.(pc := PublishRetry(w.attempt))),
                 Put(mid, env, job.id, Retrying), mid.locks, queues)
  {
    var e := Act(env.cfg, job, w, StatusOf(mid, job.id), LockFree(mid, job), env.faults(mid.next), env.agent);
    more := Advance(env, t, run, mid, job, w, queues, e);
  }

  lemma RetryStep(env: Env, t: Tag, run: seq<Sys>, mid: Sys, job: Envelope, w: Worker, queues: map<Tag, Copy>)
    returns (more: seq<Sys>)
    requires Stands(env, t, run, mid, job, w, queues) && w.pc.PublishRetry?
    ensures Then(env, t, run, mid, more, job,
                 Some(w.(pc := if Raises(env, mid) then Requeue else Ack)),
                 mid.status, mid.locks, 
                 Sent(env, mid, queues,
                     Copy(job.(attempt := w.attempt), Backoff(Clamp(env.cfg.maxAttempts, w.pc.level)))))
  {
    var e := Act(env.cfg, job, w, StatusOf(mid, job.id), LockFree(mid, job), env.faults(mid.next), env.agent);
    more := Advance(env, t, run, mid, job, w, queues, e);
  }

  lemma FailedStep(env: Env, t: Tag, run: seq<Sys>, mid: Sys, job: Envelope, w: Worker, queues: map<Tag, Copy>)
    returns (more: seq<Sys>)
    requires Stands(env, t, run, mid, job, w, queues) && w.pc == SetFailed
    ensures Then(env, t, run, mid, more, job,
                 Some(w.(pc := if Raises(env, mid) then PublishDead(false) else MarkFailed)),
                 Put(mid, env, job.id, Failed), mid.locks, queues)
  {
    var e := Act(env.cfg, job, w, StatusOf(mid, job.id), LockFree(mid, job), env.faults(mid.next), env.agent);
    more := Advance(env, t, run, mid, job, w, queues, e);
  }

  lemma MarkFailedStep(env: Env, t: Tag, run: seq<Sys>, mid: Sys, job: Envelope, w: Worker, queues: map<Tag, Copy>)
    returns (more: seq<Sys>)
    requires Stands(env, t, run, mid, job, w, queues) && w.pc == MarkFailed
    ensures Then(env, t, run, mid, more, job,
                 Some(w.(pc := PublishDead(true))),
                 mid.status, mid.locks, queues)
  {
    var e := Act(env.cfg, job, w, StatusOf(mid, job.id), LockFree(mid, job), env.faults(mid.next), env.agent);
    more := Advance(env, t, run, mid, job, w, queues, e);
  }

  lemma DeadStep(env: Env, t: Tag, run: seq<Sys>, mid: Sys, job: Envelope, w: Worker, queues: map<Tag, Copy>)
    returns (more: seq<Sys>)
    requires Stands(env, t, run, mid, job, w, queues) && w.pc.PublishDead?
    ensures Then(env, t, run, mid, more, job,
                 Some(w.(pc := if Raises(env, mid) then Discard else Ack)),
                 mid.status, mid.locks, 
                 Sent(env, mid, queues, Copy(job.(attempt := w.attempt), Dead)))
  {
    var e := Act(env.cfg, job, w, StatusOf(mid, job.id), LockFree(mid, job), env.faults(mid.next), env.agent);
    more := Advance(env, t, run, mid, job, w, queues, e);
  }

  lemma RemoveStep(env: Env, t: Tag, run: seq<Sys>, mid: Sys, job: Envelope, w: Worker, queues: map<Tag, Copy>)
    returns (more: seq<Sys>)
    requires Stands(env, t, run, mid, job, w, queues) && (w.pc == Ack || w.pc == Discard)
    ensures Then(env, t, run, mid, more, job,
                 Released(w),
                 mid.status, mid.locks, queues - {t})
  {
    var e := Act(env.cfg, job, w, StatusOf(mid, job.id), LockFree(mid, job), env.faults(mid.next), env.agent);
    more := Advance(env, t, run, mid, job, w, queues, e);
  }

  lemma RequeueStep(env: Env, t: Tag, run: seq<Sys>, mid: Sys, job: Envelope, w: Worker, queues: map<Tag, Copy>)
    returns (more: seq<Sys>)
    requires Stands(env, t, run, mid, job, w, queues) && w.pc == Requeue
    ensures Then(env, t, run, mid, more, job,
                 Released(w),
                 mid.status, mid.locks, (queues - {t})[mid.next := Copy(job, Main)])
  {
    var e := Act(env.cfg, job, w, StatusOf(mid, job.id), LockFree(mid, job), env.faults(mid.next), env.agent);
    more := Advance(env, t, run, mid, job, w, queues, e);
  }

  lemma ReleaseStep(env: Env, t: Tag, run: seq<Sys>, mid: Sys, job: Envelope, w: Worker, queues: map<Tag, Copy>)
    returns (more: seq<Sys>)
    requires Stands(env, t, run, mid, job, w, queues) && w.pc.Release? && job.payload.Chat?
    ensures Then(env, t, run, mid, more, job,
                 if w.pc.retry then Some(Counted(env.cfg, w.(held := false))) else None,
                 mid.status, 
                 if env.faults(mid.next) != Refused && job.payload.conversation in mid.locks
                    && mid.locks[job.payload.conversation] == job.id
                 then mid.locks - {job.payload.conversation} else mid.locks, queues)
  {
    var e := Act(env.cfg, job, w, StatusOf(mid, job.id), LockFree(mid, job), env.faults(mid.next), env.agent);
    more := Advance(env, t, run, mid, job, w, queues, e);
  }

  /** The broker after the steps of the others, seen with and without the worker on tag t. */
  lemma Moved(s: Sys, before: Sys, mid: Sys, after: Sys, t: Tag, job: Envelope, w: Worker)
    requires Shows(s, t, job, w, before.copies) && Alike(mid, after, Delivery(t)) && s.next <= mid.next
    requires Untouched(s, mid, Delivery(t)) && Untouched(before, after, Delivery(t))
    ensures Shows(mid, t, job, w, after.copies) && mid.calls == after.calls
  {
    assert forall u | u != t :: (u in mid.copies <==> u in after.copies)
                                && (u in mid.copies ==> mid.copies[u] == after.copies[u]);
  }

  class JobService {
    const env: Env

    var status: map<JobId, Status>
    var locks: map<string, JobId>
    var keys: map<string, JobId>
    /** Every message of the broker; an unacknowledged one keeps its entry. */
    var queues: map<Tag, Copy>
    /** The `publish` calls that go on elsewhere. */
    var calls: map<CallId, Call>
    /** Numbers the calls and the messages. */
    var next: nat

    /** The protocol states after each call of the delivery, and the state before its next one. */
    ghost var run: seq<Sys>
    ghost var mid: Sys

    /** Everything that this service and the others can see is as in this state. */
    ghost predicate Matches(s: Sys)
      reads this
    {
      status == s.status && locks == s.locks && keys == s.keys && calls == s.calls && next == s.next
    }

    ghost predicate Valid()
      reads this
    {
      run != [] && Matches(run[|run| - 1])
    }

    /** The delivery stands at worker w, and the run has gone on from `from`. */
    ghost predicate At(t: Tag, job: Envelope, w: Worker, from: Sys)
      reads this
    {
      Valid() && IsRun(env, Delivery(t), run) && run[0] == from && Shows(run[|run| - 1], t, job, w, queues)
    }

    /** The same, when the others have moved and its next call is due. */
    ghost predicate Ready(t: Tag, job: Envelope, w: Worker, from: Sys)
      reads this
    {
      Stands(env, t, run, mid, job, w, queues) && run[0] == from && Matches(mid)
    }

    /** Nothing of the delivery is left. */
    ghost predicate Over(t: Tag, from: Sys)
      reads this
    {
      Valid() && IsRun(env, Delivery(t), run) && run[0] == from && t !in queues && run[|run| - 1].copies == queues
    }

    /** The message is settled; a worker in the locked region still has to free the lock. */
    ghost predicate Left(t: Tag, job: Envelope, w: Worker, from: Sys)
      reads this
    {
      if w.held then At(t, job, w.(pc := Release(false)), from) else Over(t, from)
    }

    constructor (env: Env, ghost s: Sys, status: map<JobId, Status>, locks: map<string, JobId>,
                 keys: map<string, JobId>, queues: map<Tag, Copy>, calls: map<CallId, Call>, next: nat)
      requires status == s.status && locks == s.locks && keys == s.keys
      requires queues == s.copies && calls == s.calls && next == s.next
      ensures Valid() && run == [s] && this.queues == s.copies && this.env == env
    {
      this.env := env;
      this.status, this.locks, this.keys, this.queues := status, locks, keys, queues;
      this.calls, this.next := calls, next;
      this.run, this.mid := [s], s;
    }

    /** Before each call of the delivery, everybody else takes the steps that the environment has
        in store; they do not depend on how far the delivery has come. */
    method Interrupt(t: Tag, ghost job: Envelope, ghost w: Worker, ghost from: Sys)
      requires At(t, job, w, from)
      modifies this
      ensures Ready(t, job, w, from)
    {
      ghost var s := run[|run| - 1];
      var before := Sys(status, locks, keys, queues, calls, next, {}, {}, []);
      var steps := Others(env.others(next), Delivery(t));
      AlikeRun(env.cfg, s, before, steps, Delivery(t));
      var after := RunFrom(env.cfg, before, steps);
      mid := Interleaved(env, Delivery(t), s);
      NextGrows(env.cfg, s, steps);
      Moved(s, before, mid, after, t, job, w);
      status, locks, keys, queues, calls, next :=
        after.status, after.locks, after.keys, after.copies, after.calls, after.next;
    }

    // The job store.

    method GetJobStatus(j: JobId) returns (raised: bool, value: Option<Status>)
      modifies this`next
      ensures next == old(next) + 1 && raised == (env.faults(old(next)) != Done)
      ensures value == if j in status then Some(status[j]) else None
    {
      raised, value := env.faults(next) != Done, if j in status then Some(status[j]) else None;
      next := next + 1;
    }

    method SetJobStatus(j: JobId, value: Status) returns (raised: bool)
      modifies this`next, this`status
      ensures next == old(next) + 1 && raised == (env.faults(old(next)) != Done)
      ensures status == if env.faults(old(next)) == Refused then old(status) else old(status)[j := value]
    {
      raised := env.faults(next) != Done;
      if env.faults(next) != Refused {
        status := status[j := value];
      }
      next := next + 1;
    }

    /** A timing or metadata write. */
    method Annotate() returns (raised: bool)
      modifies this`next
      ensures next == old(next) + 1 && raised == (env.faults(old(next)) != Done)
    {
      raised := env.faults(next) != Done;
      next := next + 1;
    }

    /** `SET NX`. */
    method AcquireConversationLock(c: string, token: JobId) returns (raised: bool, acquired: bool)
      modifies this`next, this`locks
      ensures next == old(next) + 1 && raised == (env.faults(old(next)) != Done)
      ensures acquired == (c !in old(locks))
      ensures locks == if acquired && env.faults(old(next)) != Refused then old(locks)[c := token] else old(locks)
    {
      raised, acquired := env.faults(next) != Done, c !in locks;
      if acquired && env.faults(next) != Refused {
        locks := locks[c := token];
      }
      next := next + 1;
    }

    /** Deletes the lock only when it still holds our token; a failure is only logged. */
    method ReleaseConversationLock(c: string, token: JobId)
      modifies this`next, this`locks
      ensures next == old(next) + 1
      ensures locks == if env.faults(old(next)) != Refused && c in old(locks) && old(locks)[c] == token
                       then old(locks) - {c} else old(locks)
    {
      if env.faults(next) != Refused && c in locks && locks[c] == token {
        locks := locks - {c};
      }
      next := next + 1;
    }

    // The broker.

    method Publish(copy: Copy) returns (raised: bool)
      modifies this`next, this`queues
      ensures next == old(next) + 1 && raised == (env.faults(old(next)) != Done)
      ensures queues == if env.faults(old(next)) == Refused then old(queues) else old(queues)[old(next) := copy]
    {
      raised := env.faults(next) != Done;
      if env.faults(next) != Refused {
        queues := queues[next := copy];
      }
      next := next + 1;
    }

    method Ack(t: Tag)
      modifies this`next, this`queues
      ensures next == old(next) + 1 && queues == old(queues) - {t}
    {
      queues := queues - {t};
      next := next + 1;
    }

    method Nack(t: Tag, requeue: bool)
      requires t in queues
      modifies this`next, this`queues
      ensures next == old(next) + 1
      ensures queues == if requeue then (old(queues) - {t})[old(next) := Copy(old(queues)[t].job, Main)]
                          else old(queues) - {t}
    {
      var message := queues[t];
      queues := queues - {t};
      if requeue {
        queues := queues[next := Copy(message.job, Main)];
      }
      next := next + 1;
    }

    // The service.

    /** Settle the message after handing the job on. */
    method Settle(t: Tag, nack: bool, requeue: bool, ghost was: Envelope, ghost w: Worker, ghost from: Sys)
      requires At(t, was, w, from) && w.pc == (if !nack then Pc.Ack else if requeue then Requeue else Discard)
      modifies this
      ensures Left(t, was, w, from)
    {
      if !nack {
        Acknowledge(t, was, w, from);
      } else {
        Reject(t, requeue, was, w, from);
      }
    }

    method Acknowledge(t: Tag, ghost was: Envelope, ghost w: Worker, ghost from: Sys)
      requires At(t, was, w, from) && w.pc == Pc.Ack
      modifies this
      ensures Left(t, was, w, from)
    {
      Interrupt(t, was, w, from);
      run := RemoveStep(env, t, run, mid, was, w, queues);
      Ack(t);
    }

    method Reject(t: Tag, requeue: bool, ghost was: Envelope, ghost w: Worker, ghost from: Sys)
      requires At(t, was, w, from) && w.pc == (if requeue then Requeue else Discard)
      modifies this
      ensures Left(t, was, w, from)
    {
      Interrupt(t, was, w, from);
      if requeue {
        run := RequeueStep(env, t, run, mid, was, w, queues);
      } else {
        run := RemoveStep(env, t, run, mid, was, w, queues);
      }
      Nack(t, requeue);
    }

    /** The broker's `retry`. */
    method PublishToRetry(t: Tag, job: Envelope, level: nat, ghost was: Envelope, ghost w: Worker, ghost from: Sys)
      returns (raised: bool)
      requires At(t, was, w, from) && w.pc == PublishRetry(level) && job == was.(attempt := w.attempt)
      modifies this
      ensures At(t, was, w.(pc := if raised then Requeue else Pc.Ack), from)
    {
      Interrupt(t, was, w, from);
      run := RetryStep(env, t, run, mid, was, w, queues);
      raised := Publish(Copy(job, Backoff(Clamp(env.cfg.maxAttempts, level))));
    }

    /** `_delay`. */
    method Delay(t: Tag, job: Envelope, level: nat, ghost was: Envelope, ghost w: Worker, ghost from: Sys)
      requires At(t, was, w, from) && w.pc == PublishRetry(level) && job == was.(attempt := w.attempt)
      modifies this
      ensures Left(t, was, w, from)
    {
      var raised := PublishToRetry(t, job, level, was, w, from);
      Settle(t, raised, true, was, w.(pc := if raised then Requeue else Pc.Ack), from);
    }

    /** `_dead_letter`. */
    method DeadLetter(t: Tag, job: Envelope, ghost was: Envelope, ghost w: Worker, ghost from: Sys)
      requires At(t, was, w, from) && w.pc == SetFailed && job == was.(attempt := w.attempt)
      modifies this
      ensures Left(t, was, w, from)
    {
      ghost var v := MarkAsFailed(t, job, was, w, from);
      var raised := PublishToDead(t, job, was, v, from);
      Settle(t, raised, false, was, v.(pc := if raised then Discard else Pc.Ack), from);
    }

    /** The broker's `dead_letter`. */
    method PublishToDead(t: Tag, job: Envelope, ghost was: Envelope, ghost w: Worker, ghost from: Sys)
      returns (raised: bool)
      requires At(t, was, w, from) && w.pc.PublishDead? && job == was.(attempt := w.attempt)
      modifies this
      ensures At(t, was, w.(pc := if raised then Discard else Pc.Ack), from)
    {
      Interrupt(t, was, w, from);
      run := DeadStep(env, t, run, mid, was, w, queues);
      raised := Publish(Copy(job, Dead));
    }

    method SetFailedStatus(t: Tag, job: Envelope, ghost was: Envelope, ghost w: Worker, ghost from: Sys)
      returns (raised: bool)
      requires At(t, was, w, from) && w.pc == SetFailed && job.id == was.id
      modifies this
      ensures At(t, was, w.(pc := if raised then PublishDead(false) else MarkFailed), from)
    {
      Interrupt(t, was, w, from);
      run := FailedStep(env, t, run, mid, was, w, queues);
      raised := SetJobStatus(job.id, Failed);
    }

    /** Record the failure as far as the store allows. */
    method MarkAsFailed(t: Tag, job: Envelope, ghost was: Envelope, ghost w: Worker, ghost from: Sys)
      returns (ghost v: Worker)
      requires At(t, was, w, from) && w.pc == SetFailed && job == was.(attempt := w.attempt)
      modifies this
      ensures At(t, was, v, from) && v == w.(pc := v.pc) && v.pc.PublishDead?
    {
      var raised := SetFailedStatus(t, job, was, w, from);
      v := w.(pc := PublishDead(!raised));
      if !raised {
        SetFailedTiming(t, was, w.(pc := MarkFailed), from);
      }
    }

    method SetFailedTiming(t: Tag, ghost was: Envelope, ghost w: Worker, ghost from: Sys)
      requires At(t, was, w, from) && w.pc == MarkFailed
      modifies this
      ensures At(t, was, w.(pc := PublishDead(true)), from)
    {
      Interrupt(t, was, w, from);
      run := MarkFailedStep(env, t, run, mid, was, w, queues);
      var ignored := Annotate();
    }

    method MarkAsRetrying(t: Tag, job: Envelope, ghost w: Worker, ghost from: Sys)
      requires At(t, job, w, from) && w.pc == SetRetrying
      modifies this
      ensures At(t, job, w.(pc := PublishRetry(w.attempt)), from)
    {
      Interrupt(t, job, w, from);
      run := RetryingStep(env, t, run, mid, job, w, queues);
      var ignored := SetJobStatus(job.id, Retrying);
    }

    /** `_retry`. */
    method Retry(t: Tag, job: Envelope, ghost w: Worker, ghost from: Sys)
      requires At(t, job, Counted(env.cfg, w), from) && w.attempt == job.attempt
      modifies this
      ensures Left(t, job, Counted(env.cfg, w), from)
    {
      var again := job.(attempt := job.attempt + 1);
      ghost var counted := Counted(env.cfg, w);
      if again.attempt >= env.cfg.maxAttempts {
        DeadLetter(t, again, job, counted, from);
      } else {
        MarkAsRetrying(t, job, counted, from);
        Delay(t, again, again.attempt, job, counted.(pc := PublishRetry(again.attempt)), from);
      }
    }

    /** `_finish`; an exception leaves the worker at the `finally` of the locked region. */
    method Finish(t: Tag, job: Envelope, ghost w: Worker, ghost from: Sys) returns (raised: bool, ghost v: Worker)
      requires At(t, job, AfterAgent(env.cfg, w, env.agent), from) && !env.agent.Errored? && !env.agent.NoPendingInput?
      requires w.held && w.attempt == job.attempt
      modifies this
      ensures v.held && v.attempt == job.attempt
      ensures if raised then At(t, job, v, from) && v.pc == Release(true) else Left(t, job, v, from)
    {
      v := AfterAgent(env.cfg, w, env.agent);
      raised := false;
      if env.agent.FinishedFailed? {
        DeadLetter(t, job, job, v, from);
        return;
      }
      if env.agent.Paused? {
        raised := SetJobMetadata(t, job, v, from);
        v := v.(pc := if raised then Release(true) else MarkFinished(true));
      }
      if !raised {
        raised, v := RecordEnd(t, job, env.agent.Paused?, v, from);
      }
    }

    method SetJobMetadata(t: Tag, job: Envelope, ghost w: Worker, ghost from: Sys) returns (raised: bool)
      requires At(t, job, w, from) && w.pc == SaveMetadata && w.held
      modifies this
      ensures At(t, job, w.(pc := if raised then Release(true) else MarkFinished(true)), from)
    {
      Interrupt(t, job, w, from);
      run := MetadataStep(env, t, run, mid, job, w, queues);
      raised := Annotate();
    }

    /** A timing write inside the locked region. */
    method MarkEnd(t: Tag, job: Envelope, ghost w: Worker, ghost from: Sys) returns (raised: bool)
      requires At(t, job, w, from) && w.pc.MarkFinished? && w.held
      modifies this
      ensures At(t, job, w.(pc := if raised then Release(true) else SetFinal(w.pc.paused)), from)
    {
      Interrupt(t, job, w, from);
      run := FinishedStep(env, t, run, mid, job, w, queues);
      raised := Annotate();
    }

    method SetFinalStatus(t: Tag, job: Envelope, paused: bool, ghost w: Worker, ghost from: Sys)
      returns (raised: bool, ghost v: Worker)
      requires At(t, job, w, from) && w.pc == SetFinal(paused) && w.held
      modifies this
      ensures At(t, job, v, from) && v == w.(blind := v.blind, pc := if raised then Release(true) else Pc.Ack)
    {
      Interrupt(t, job, w, from);
      v := w.(blind := w.blind || env.faults(next) == Ambiguous,
              pc := if env.faults(next) == Done then Pc.Ack else Release(true));
      run := FinalStep(env, t, run, mid, job, w, queues);
      raised := SetJobStatus(job.id, if paused then Waiting else Completed);
    }

    /** The tail of `_finish`: the finished time, the final status, then the acknowledgement. */
    method RecordEnd(t: Tag, job: Envelope, paused: bool, ghost w: Worker, ghost from: Sys)
      returns (raised: bool, ghost v: Worker)
      requires At(t, job, w, from) && w.pc == MarkFinished(paused) && w.held && w.attempt == job.attempt
      modifies this
      ensures v.held && v.attempt == job.attempt
      ensures if raised then At(t, job, v, from) && v.pc == Release(true) else Left(t, job, v, from)
    {
      raised := MarkEnd(t, job, w, from);
      v := w.(pc := if raised then Release(true) else SetFinal(paused));
      if !raised {
        raised, v := SetFinalStatus(t, job, paused, v, from);
        if !raised {
          Settle(t, false, false, job, v, from);
        }
      }
    }

    method SetProcessingStatus(t: Tag, job: Envelope, ghost w: Worker, ghost from: Sys) returns (raised: bool)
      requires At(t, job, w, from) && w.pc == SetProcessing && w.held
      modifies this
      ensures At(t, job, w.(pc := if raised then Release(true) else MarkStarted), from)
    {
      Interrupt(t, job, w, from);
      run := ProcessingStep(env, t, run, mid, job, w, queues);
      raised := SetJobStatus(job.id, Processing);
    }

    /** The two writes that mark the start of a run. */
    method MarkStart(t: Tag, job: Envelope, ghost w: Worker, ghost from: Sys) returns (raised: bool)
      requires At(t, job, w, from) && w.pc == SetProcessing && w.held
      modifies this
      ensures At(t, job, w.(pc := if raised then Release(true) else RunAgent), from)
    {
      raised := SetProcessingStatus(t, job, w, from);
      if !raised {
        raised := SetStartedTiming(t, job, w.(pc := MarkStarted), from);
      }
    }

    method SetStartedTiming(t: Tag, job: Envelope, ghost w: Worker, ghost from: Sys) returns (raised: bool)
      requires At(t, job, w, from) && w.pc == MarkStarted && w.held
      modifies this
      ensures At(t, job, w.(pc := if raised then Release(true) else RunAgent), from)
    {
      Interrupt(t, job, w, from);
      run := StartedStep(env, t, run, mid, job, w, queues);
      raised := Annotate();
    }

    method Run(t: Tag, job: Envelope, ghost w: Worker, ghost from: Sys)
      requires At(t, job, w, from) && w.pc == RunAgent
      modifies this
      ensures At(t, job, AfterAgent(env.cfg, w, env.agent), from)
    {
      Interrupt(t, job, w, from);
      run := AgentStep(env, t, run, mid, job, w, queues);
      next := next + 1;
    }

    /** The body of the locked region. */
    method Locked(t: Tag, job: Envelope, ghost w: Worker, ghost from: Sys) returns (raised: bool, ghost v: Worker)
      requires At(t, job, w, from) && w.pc == SetProcessing && w.held && w.attempt == job.attempt
      modifies this
      ensures v.held && (raised ==> v.attempt == job.attempt)
      ensures if raised then At(t, job, v, from) && v.pc == Release(true) else Left(t, job, v, from)
    {
      raised := MarkStart(t, job, w, from);
      v := w.(pc := if raised then Release(true) else RunAgent);
      if !raised {
        Run(t, job, v, from);
        if env.agent.NoPendingInput? {
          v := AfterAgent(env.cfg, v, env.agent);
          DeadLetter(t, job, job, v, from);
        } else if env.agent.Errored? {
          Retry(t, job, v, from);
          v := Counted(env.cfg, v);
        } else {
          raised, v := Finish(t, job, v, from);
        }
      }
    }

    /** The `finally` of the locked region. */
    method ReleaseLock(t: Tag, job: Envelope, ghost w: Worker, ghost from: Sys)
      requires At(t, job, w, from) && w.pc.Release? && job.payload.Chat?
      modifies this
      ensures if w.pc.retry then At(t, job, Counted(env.cfg, w.(held := false)), from) else Over(t, from)
    {
      Interrupt(t, job, w, from);
      run := ReleaseStep(env, t, run, mid, job, w, queues);
      ReleaseConversationLock(job.payload.conversation, job.id);
    }

    method TryLock(t: Tag, job: Envelope, ghost w: Worker, ghost from: Sys) returns (raised: bool, acquired: bool)
      requires At(t, job, w, from) && w.pc == Acquire && job.payload.Chat?
      modifies this
      ensures At(t, job, if raised then Counted(env.cfg, w)
                         else w.(held := w.held || acquired, pc := if acquired then SetProcessing
                             else PublishRetry(1)), from)
    {
      Interrupt(t, job, w, from);
      run := LockStep(env, t, run, mid, job, w, queues);
      raised, acquired := AcquireConversationLock(job.payload.conversation, job.id);
    }

    method ReadJobStatus(t: Tag, job: Envelope, ghost w: Worker, ghost from: Sys) returns (raised: bool, ended: bool)
      requires At(t, job, w, from) && w.pc == ReadStatus
      modifies this
      ensures At(t, job, if raised then Counted(env.cfg, w.(blind := true))
                         else w.(pc := if ended then Pc.Ack else if job.payload.Malformed? then SetFailed
                             else Acquire), from)
      ensures ended == (job.id in status && status[job.id].Terminal())
    {
      Interrupt(t, job, w, from);
      run := ReadStep(env, t, run, mid, job, w, queues);
      var value: Option<Status>;
      raised, value := GetJobStatus(job.id);
      ended := value.Some? && value.value.Terminal();
    }

    /** `_process`: an exception leaves the worker at the start of `_retry`. */
    method Process(t: Tag, job: Envelope, ghost w: Worker, ghost from: Sys) returns (raised: bool, ghost v: Worker)
      requires At(t, job, w, from) && w == Worker(ReadStatus, false, job.attempt, false)
      modifies this
      ensures if raised then At(t, job, Counted(env.cfg, v), from) && !v.held && v.attempt == job.attempt
              else Over(t, from)
    {
      var ended: bool;
      raised, ended := ReadJobStatus(t, job, w, from);
      v := w.(blind := raised);
      if raised {
        return;
      }
      if ended {
        Settle(t, false, false, job, w.(pc := Pc.Ack), from);
        return;
      }
      if job.payload.Malformed? {
        DeadLetter(t, job, job, w.(pc := SetFailed), from);
        return;
      }
      v := w.(pc := Acquire);
      raised, v := ProcessChat(t, job, v, from);
    }

    /** `_process` from the lock on. */
    method ProcessChat(t: Tag, job: Envelope, ghost w: Worker, ghost from: Sys) returns (raised: bool, ghost v: Worker)
      requires At(t, job, w, from) && w == Worker(Acquire, false, job.attempt, false) && job.payload.Chat?
      modifies this
      ensures if raised then At(t, job, Counted(env.cfg, v), from) && !v.held && v.attempt == job.attempt
              else Over(t, from)
    {
      var acquired: bool;
      raised, acquired := TryLock(t, job, w, from);
      v := w;
      if raised {
        return;
      }
      if !acquired {
        Delay(t, job, 1, job, w.(pc := PublishRetry(1)), from);
        return;
      }
      raised, v := Locked(t, job, w.(held := true, pc := SetProcessing), from);
      v := v.(pc := Release(raised));
      ReleaseLock(t, job, v, from);
      v := v.(held := false);
    }

    /** `consume`: whatever the environment has in store, the delivery and the others together make
        exactly the steps of the protocol machine, and nothing stays unacknowledged. */
    method Consume(t: Tag, job: Envelope)
      requires Valid() && |run| == 1 && t in queues && queues[t].job == job && t < next
      requires run[0].copies == queues[t := Copy(job, Busy(Worker(ReadStatus, false, job.attempt, false)))]
      modifies this
      ensures t !in queues
      ensures exists n: nat :: var s := Drive(env, Delivery(t), old(run[0]), n);
                && status == s.status && locks == s.locks && keys == s.keys && calls == s.calls
                && next == s.next && queues == s.copies
    {
      ghost var from := run[0];
      ghost var v := Worker(ReadStatus, false, job.attempt, false);
      var raised;
      raised, v := Process(t, job, v, from);
      if raised {
        Retry(t, job, v, from);
      }
      RunsAreDriven(env, Delivery(t), run);
    }
  }
}
