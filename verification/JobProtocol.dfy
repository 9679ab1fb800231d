/** The job delivery protocol as a state machine: any number of API calls and
    workers interleave over the status, lock and idempotency keys of the store
    and over the queues of the broker. One step is one store, broker or agent
    call, and every call can fail. */
module JobProtocol {
  import opened Prelude
  import opened Backoff

  type JobId = nat
  type Tag = nat
  type CallId = nat

  datatype Config = Config(maxAttempts: int) {
    /** The number of attempts a job really gets. */
    function Limit(): (n: nat)
      ensures n >= 1
    {
      Max(maxAttempts, 1)
    }
  }

  datatype Status = Published | Processing | Waiting | Completed | Failed | Retrying {
    predicate Terminal() {
      Completed? || Waiting? || Failed?
    }
  }

  /** A queued chat payload, after or instead of its validation. */
  datatype Payload = Malformed | Chat(conversation: string)

  datatype Envelope = Envelope(id: JobId, payload: Payload, attempt: nat)

  /** How a call to the store or the broker ends. After `Ambiguous` the call
      raised although its effect took place. */
  datatype Outcome = Done | Refused | Ambiguous

  /** How an agent run ends. */
  datatype AgentResult = Paused | Finished | FinishedFailed | NoPendingInput | Errored

  /** The call a worker makes next. */
  datatype Pc =
    | ReadStatus
    | Acquire
    | SetProcessing
    | MarkStarted
    | RunAgent
    | SaveMetadata
    | MarkFinished(paused: bool)
    | SetFinal(paused: bool)
    | SetRetrying
    | PublishRetry(level: nat)
    | SetFailed
    | MarkFailed
    | PublishDead(recorded: bool)
    | Ack
    | Requeue
    | Discard
    | Release(retry: bool)
  {
    /** Up to and including the agent run. */
    predicate Opening() {
      ReadStatus? || Acquire? || SetProcessing? || MarkStarted? || RunAgent?
    }

    /** Writing the final status, or rescheduling. */
    predicate Reporting() {
      SaveMetadata? || MarkFinished? || SetFinal? || SetRetrying? || PublishRetry?
    }
  }

  /** A worker that handles a delivery. `held` says that it is inside the
      locked region, `attempt` is the count in its own copy of the job, and
      `blind` records that its status read failed or that its final status
      write raised after taking effect. */
  datatype Worker = Worker(pc: Pc, held: bool, attempt: nat, blind: bool)

  datatype Place = Main | Backoff(level: int) | Dead | Busy(worker: Worker)

  /** One message instance. The message of a `Busy` copy is unacknowledged,
      except when its worker has settled it and only has to free the lock. */
  datatype Copy = Copy(job: Envelope, place: Place)

  /** What the history remembers about a step. */
  datatype Event =
    | Silent
    | Posted(job: JobId)
    | Delivered(job: JobId)
    | Ran(job: JobId)
    | Delayed(job: JobId)
    | RetryRefused(job: JobId)
    | Doubled(job: JobId)
    | Dropped(job: JobId)

  datatype ApiPc =
    | ClaimKey
    | ReadOwner
    | SetPublished
    | MarkPublished
    | Post
    | SetPostFailed
    | DropKey
    | Returned(job: Option<JobId>, duplicate: bool)
    | Raised

  /** A call of `publish`; the empty key stands for no idempotency key. */
  datatype Call = Call(job: JobId, payload: Payload, key: string, pc: ApiPc)

  datatype Sys = Sys(
    status: map<JobId, Status>,
    locks: map<string, JobId>,
    keys: map<string, JobId>,
    copies: map<Tag, Copy>,
    calls: map<CallId, Call>,
    next: nat,
    orphans: set<string>,
    early: set<string>,
    log: seq<Event>
  )

  const Init := Sys(map[], map[], map[], map[], map[], 0, {}, {}, [])

  datatype LockOp = Keep | Take | Free

  /** What one call of a worker changes. */
  datatype Effect = Effect(
    after: Option<Place>,
    write: Option<Status>,
    lock: LockOp,
    orphaned: bool,
    post: Option<Copy>,
    event: Event
  )

  function Quiet(after: Option<Place>): Effect {
    Effect(after, None, Keep, false, None, Silent)
  }

  /** The status that a write leaves behind, if any. */
  function Written(outcome: Outcome, status: Status): Option<Status> {
    if outcome == Refused then None else Some(status)
  }

  function Goto(w: Worker, pc: Pc): Option<Place> {
    Some(Busy(w.(pc := pc)))
  }

  /** `_retry`: count the attempt, then reschedule or dead-letter. */
  function Counted(cfg: Config, w: Worker): Worker {
    w.(attempt := w.attempt + 1, pc := if w.attempt + 1 >= cfg.maxAttempts then SetFailed else SetRetrying)
  }

  function StartRetry(cfg: Config, w: Worker): Option<Place> {
    Some(Busy(Counted(cfg, w)))
  }

  /** An exception leaves the locked region through its `finally`. */
  function Escape(cfg: Config, w: Worker): Option<Place> {
    if w.held then Goto(w, Release(true)) else StartRetry(cfg, w)
  }

  /** The message is settled; a worker in the locked region still frees the lock. */
  function Settle(w: Worker): Option<Place> {
    if w.held then Goto(w, Release(false)) else None
  }

  /** Where the result of the agent run sends the worker. */
  function AfterAgent(cfg: Config, w: Worker, result: AgentResult): Worker {
    match result
    case Paused => w.(pc := SaveMetadata)
    case Finished => w.(pc := MarkFinished(false))
    case FinishedFailed => w.(pc := SetFailed)
    case NoPendingInput => w.(pc := SetFailed)
    case Errored => Counted(cfg, w)
  }

  function ActOpening(cfg: Config, job: Envelope, w: Worker, status: Option<Status>, lockFree: bool,
                      outcome: Outcome, result: AgentResult): Effect
    requires w.pc.Opening()
  {
    match w.pc
    case ReadStatus =>
      if outcome != Done then Quiet(StartRetry(cfg, w.(blind := true)))
      else if status.Some? && status.value.Terminal() then Quiet(Goto(w, Ack))
      else if job.payload.Malformed? then Quiet(Goto(w, SetFailed))
      else Quiet(Goto(w, Acquire))
    case Acquire =>
      if outcome == Done then
        if lockFree then Quiet(Goto(w.(held := true), SetProcessing)).(lock := Take)
        else Quiet(Goto(w, PublishRetry(1))).(event := Delayed(job.id))
      else if outcome == Ambiguous && lockFree then
        Quiet(StartRetry(cfg, w)).(lock := Take, orphaned := true)
      else Quiet(StartRetry(cfg, w))
    case SetProcessing =>
      Quiet(if outcome == Done then Goto(w, MarkStarted) else Escape(cfg, w)).(write := Written(outcome, Processing))
    case MarkStarted =>
      Quiet(if outcome == Done then Goto(w, RunAgent) else Escape(cfg, w))
    case RunAgent =>
      Quiet(Some(Busy(AfterAgent(cfg, w, result)))).(event := Ran(job.id))
  }

  function ActReporting(cfg: Config, job: Envelope, w: Worker, outcome: Outcome): Effect
    requires w.pc.Reporting()
  {
    match w.pc
    case SaveMetadata =>
      Quiet(if outcome == Done then Goto(w, MarkFinished(true)) else Escape(cfg, w))
    case MarkFinished(paused) =>
      Quiet(if outcome == Done then Goto(w, SetFinal(paused)) else Escape(cfg, w))
    case SetFinal(paused) =>
      var final := if paused then Waiting else Completed;
      (match outcome
       case Done => Quiet(Goto(w, Ack)).(write := Some(final))
       case Refused => Quiet(Escape(cfg, w))
       case Ambiguous => Quiet(Escape(cfg, w.(blind := true))).(write := Some(final)))
    case SetRetrying =>
      Quiet(Goto(w, PublishRetry(w.attempt))).(write := Written(outcome, Retrying))
    case PublishRetry(level) =>
      var copy := Copy(job.(attempt := w.attempt), Backoff(Clamp(cfg.maxAttempts, level)));
      (match outcome
       case Done => Quiet(Goto(w, Ack)).(post := Some(copy))
       case Refused => Quiet(Goto(w, Requeue)).(event := RetryRefused(job.id))
       case Ambiguous => Quiet(Goto(w, Requeue)).(post := Some(copy), event := Doubled(job.id)))
  }

  function ActClosing(cfg: Config, job: Envelope, w: Worker, outcome: Outcome): Effect
    requires !w.pc.Opening() && !w.pc.Reporting()
  {
    match w.pc
    case SetFailed =>
      Quiet(Goto(w, if outcome == Done then MarkFailed else PublishDead(false))).(write := Written(outcome, Failed))
    case MarkFailed =>
      Quiet(Goto(w, PublishDead(true)))
    case PublishDead(recorded) =>
      var copy := Copy(job.(attempt := w.attempt), Dead);
      (match outcome
       case Done => Quiet(Goto(w, Ack)).(post := Some(copy))
       case Refused => Quiet(Goto(w, Discard)).(event := if recorded then Silent else Dropped(job.id))
       case Ambiguous => Quiet(Goto(w, Discard)).(post := Some(copy)))
    case Ack => Quiet(Settle(w))
    case Requeue => Quiet(Settle(w)).(post := Some(Copy(job, Main)))
    case Discard => Quiet(Settle(w))
    case Release(retry) =>
      var freed := w.(held := false);
      var after := if retry then StartRetry(cfg, freed) else None;
      if outcome == Refused then Quiet(after).(orphaned := true) else Quiet(after).(lock := Free)
  }

  /** One call of a worker, given what it can see of the store. */
  function Act(cfg: Config, job: Envelope, w: Worker, status: Option<Status>, lockFree: bool,
               outcome: Outcome, result: AgentResult): Effect
  {
    if w.pc.Opening() then ActOpening(cfg, job, w, status, lockFree, outcome, result)
    else if w.pc.Reporting() then ActReporting(cfg, job, w, outcome)
    else ActClosing(cfg, job, w, outcome)
  }

  /** Carry out the effect of the worker that handles copy `t`. */
  function Apply(s: Sys, t: Tag, e: Effect): Sys
    requires t in s.copies
  {
    var job := s.copies[t].job;
    var kept := if e.after.Some? then s.copies[t := Copy(job, e.after.value)] else s.copies - {t};
    var copies := if e.post.Some? then kept[s.next := e.post.value] else kept;
    s.(copies := copies,
       next := s.next + 1,
       status := if e.write.Some? then s.status[job.id := e.write.value] else s.status,
       locks := LocksAfter(s, job, e),
       orphans := if e.orphaned && job.payload.Chat? then s.orphans + {job.payload.conversation} else s.orphans,
       log := s.log + [e.event])
  }

  /** `SET NX` takes a lock; the release script deletes it only when it holds the job's own token. */
  function LocksAfter(s: Sys, job: Envelope, e: Effect): map<string, JobId> {
    if job.payload.Malformed? then s.locks
    else
      var c := job.payload.conversation;
      match e.lock
      case Keep => s.locks
      case Take => s.locks[c := job.id]
      case Free => if c in s.locks && s.locks[c] == job.id then s.locks - {c} else s.locks
  }

  function LockFree(s: Sys, job: Envelope): bool {
    job.payload.Chat? && job.payload.conversation !in s.locks
  }

  function StatusOf(s: Sys, j: JobId): Option<Status> {
    if j in s.status then Some(s.status[j]) else None
  }

  function WorkEffect(cfg: Config, s: Sys, t: Tag, outcome: Outcome, result: AgentResult): Effect
    requires t in s.copies && s.copies[t].place.Busy?
  {
    var copy := s.copies[t];
    Act(cfg, copy.job, copy.place.worker, StatusOf(s, copy.job.id), LockFree(s, copy.job), outcome, result)
  }

  /** A dead worker process: the broker requeues the message unless it was settled. */
  function CrashEffect(job: Envelope, w: Worker): Effect {
    if w.pc == Release(false) then Quiet(None).(orphaned := w.held)
    else Quiet(Some(Main)).(orphaned := w.held, event := Doubled(job.id))
  }

  datatype KeyOp = KeepKey | Claim | Drop

  /** What one call made by `publish` changes. */
  datatype ApiEffect = ApiEffect(pc: ApiPc, key: KeyOp, write: Option<Status>, post: bool)

  function Move(pc: ApiPc): ApiEffect {
    ApiEffect(pc, KeepKey, None, false)
  }

  /** One step of a `publish` call, given the current owner of its key. */
  function ApiAct(call: Call, owner: Option<JobId>, outcome: Outcome): ApiEffect {
    var took := outcome != Refused;
    match call.pc
    case ClaimKey =>
      if owner.None? then
        Move(if outcome == Done then SetPublished else Raised).(key := if took then Claim else KeepKey)
      else Move(if outcome == Done then ReadOwner else Raised)
    case ReadOwner =>
      Move(if outcome == Done then Returned(owner, true) else Raised)
    case SetPublished =>
      Move(if outcome == Done then MarkPublished else DropKey).(write := if took then Some(Published) else None)
    case MarkPublished =>
      Move(if outcome == Done then Post else DropKey)
    case Post =>
      Move(if outcome == Done then Returned(Some(call.job), false) else SetPostFailed).(post := took)
    case SetPostFailed =>
      Move(DropKey).(write := if took then Some(Failed) else None)
    case DropKey =>
      Move(Raised).(key := if took && call.key != "" then Drop else KeepKey)
    case Returned(_, _) => Move(call.pc)
    case Raised => Move(call.pc)
  }

  function OwnerOf(s: Sys, key: string): Option<JobId> {
    if key in s.keys then Some(s.keys[key]) else None
  }

  function ApplyApi(s: Sys, c: CallId, e: ApiEffect): Sys
    requires c in s.calls
  {
    var call := s.calls[c];
    s.(calls := s.calls[c := call.(pc := e.pc)],
       next := s.next + 1,
       keys := match e.key
               case KeepKey => s.keys
               case Claim => s.keys[call.key := call.job]
               case Drop => s.keys - {call.key},
       status := if e.write.Some? then s.status[call.job := e.write.value] else s.status,
       copies := if e.post then s.copies[s.next := Copy(Envelope(call.job, call.payload, 0), Main)] else s.copies,
       log := s.log + [if e.post then Posted(call.job) else Silent])
  }

  datatype Step =
    | Begin(payload: Payload, key: string)
    | Api(call: CallId, outcome: Outcome)
    | Deliver(tag: Tag)
    | Work(tag: Tag, outcome: Outcome, result: AgentResult)
    | Crash(tag: Tag)
    | BackoffOver(tag: Tag)
    | LockExpires(conversation: string)

  function Placed(s: Sys, t: Tag, place: Place, event: Event): Sys
    requires t in s.copies
  {
    s.(copies := s.copies[t := s.copies[t].(place := place)], log := s.log + [event])
  }

  /** The protocol's step function; a step that is not enabled changes nothing. */
  function Next(cfg: Config, s: Sys, step: Step): Sys {
    match step
    case Begin(payload, key) =>
      var pc := if key == "" then SetPublished else ClaimKey;
      s.(calls := s.calls[s.next := Call(s.next, payload, key, pc)], next := s.next + 1)
    case Api(c, outcome) =>
      if c in s.calls then ApplyApi(s, c, ApiAct(s.calls[c], OwnerOf(s, s.calls[c].key), outcome)) else s
    case Deliver(t) =>
      if t in s.copies && s.copies[t].place.Main? then
        var job := s.copies[t].job;
        Placed(s, t, Busy(Worker(ReadStatus, false, job.attempt, false)), Delivered(job.id))
      else s
    case Work(t, outcome, result) =>
      if t in s.copies && s.copies[t].place.Busy? then Apply(s, t, WorkEffect(cfg, s, t, outcome, result)) else s
    case Crash(t) =>
      if t in s.copies && s.copies[t].place.Busy? then
        Apply(s, t, CrashEffect(s.copies[t].job, s.copies[t].place.worker))
      else s
    case BackoffOver(t) =>
      if t in s.copies && s.copies[t].place.Backoff? then Placed(s, t, Main, Silent) else s
    case LockExpires(c) =>
      if c in s.locks then
        s.(locks := s.locks - {c}, orphans := s.orphans - {c},
           early := if c in s.orphans then s.early else s.early + {c})
      else s
  }

  function RunFrom(cfg: Config, s: Sys, steps: seq<Step>): Sys {
    if steps == [] then s else Next(cfg, RunFrom(cfg, s, steps[..|steps| - 1]), steps[|steps| - 1])
  }

  /** The state after a schedule; the reachable states are exactly these. */
  function Run(cfg: Config, steps: seq<Step>): Sys {
    RunFrom(cfg, Init, steps)
  }

  lemma RunSnoc(cfg: Config, steps: seq<Step>, step: Step)
    ensures Run(cfg, steps + [step]) == Next(cfg, Run(cfg, steps), step)
  {
    assert (steps + [step])[..|steps|] == steps;
  }

  lemma {:induction false} RunConcat(cfg: Config, s: Sys, a: seq<Step>, b: seq<Step>)
    ensures RunFrom(cfg, s, a + b) == RunFrom(cfg, RunFrom(cfg, s, a), b)
    decreases |b|
  {
    if b == [] {
      assert a + b == a;
    } else {
      assert (a + b)[..|a + b| - 1] == a + b[..|b| - 1];
      RunConcat(cfg, s, a, b[..|b| - 1]);
    }
  }

  /** How often an event happened. */
  function Count(log: seq<Event>, e: Event): nat {
    if log == [] then 0 else Count(log[..|log| - 1], e) + if log[|log| - 1] == e then 1 else 0
  }

  lemma CountAppend(log: seq<Event>, e: Event, last: Event)
    ensures Count(log + [last], e) == Count(log, e) + if last == e then 1 else 0
  {
    assert (log + [last])[..|log|] == log;
  }

  /** Ids and tags come from one counter, so a new one was never used. */
  ghost predicate Fresh(s: Sys) {
    && (forall t | t in s.copies :: t < s.next && s.copies[t].job.id < s.next)
    && (forall c | c in s.calls :: c < s.next && s.calls[c].job == c)
  }

  /** A worker only publishes copies of the job it handles. */
  lemma ActPostsItsJob(cfg: Config, job: Envelope, w: Worker, status: Option<Status>, lockFree: bool,
                       outcome: Outcome, result: AgentResult)
    ensures var e := Act(cfg, job, w, status, lockFree, outcome, result);
            e.post.Some? ==> e.post.value.job.id == job.id && e.post.value.job.payload == job.payload
                             && !e.post.value.place.Busy?
  {
  }

  lemma FreshApply(s: Sys, t: Tag, e: Effect)
    requires Fresh(s) && t in s.copies
    requires e.post.Some? ==> e.post.value.job.id == s.copies[t].job.id
    ensures Fresh(Apply(s, t, e))
  {
  }

  lemma FreshApi(s: Sys, c: CallId, e: ApiEffect)
    requires Fresh(s) && c in s.calls
    ensures Fresh(ApplyApi(s, c, e))
  {
  }

  lemma FreshStep(cfg: Config, s: Sys, step: Step)
    requires Fresh(s)
    ensures Fresh(Next(cfg, s, step))
  {
    match step
    case Begin(_, _) =>
    case Api(c, outcome) => if c in s.calls { FreshApi(s, c, ApiAct(s.calls[c], OwnerOf(s, s.calls[c].key), outcome)); }
    case Deliver(_) =>
    case Work(t, outcome, result) =>
      if t in s.copies && s.copies[t].place.Busy? {
        var copy := s.copies[t];
        ActPostsItsJob(cfg, copy.job, copy.place.worker, StatusOf(s, copy.job.id), LockFree(s, copy.job), outcome,
            result);
        FreshApply(s, t, WorkEffect(cfg, s, t, outcome, result));
      }
    case Crash(t) =>
      if t in s.copies && s.copies[t].place.Busy? {
        FreshApply(s, t, CrashEffect(s.copies[t].job, s.copies[t].place.worker));
      }
    case BackoffOver(_) =>
    case LockExpires(_) =>
  }

  lemma {:induction false} FreshRun(cfg: Config, steps: seq<Step>)
    ensures Fresh(Run(cfg, steps))
  {
    if steps != [] {
      FreshRun(cfg, steps[..|steps| - 1]);
      FreshStep(cfg, Run(cfg, steps[..|steps| - 1]), steps[|steps| - 1]);
    }
  }
}
