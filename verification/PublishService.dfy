/** The API side of the job service in its own form: nested exception handlers over a store
    and a broker that are updated in place. Between any two of its calls the rest of the system
    may take any steps. A `publish` is proved to make exactly the steps of its call in the flat
    protocol machine. */
module PublishService {
  import opened Prelude
  import opened JobProtocol
  import opened Interference

  /** The call stands at this point. */
  ghost predicate Shows(s: Sys, c: CallId, call: Call, calls: map<CallId, Call>) {
    c < s.next && call.job == c && s.calls == calls[c := call] && c !in calls
  }

  /** The others have moved on from the last state of the run to `mid`, where the call stands. */
  ghost predicate Stands(env: Env, c: CallId, run: seq<Sys>, mid: Sys, call: Call, calls: map<CallId, Call>) {
    IsRun(env, Caller(c), run) && mid == Interleaved(env, Caller(c), run[|run| - 1]) && Shows(mid, c, call, calls)
  }

  /** What the next call does. */
  ghost function Effect(env: Env, s: Sys, call: Call): ApiEffect {
    ApiAct(call, OwnerOf(s, call.key), env.faults(s.next))
  }

  /** What one step with this effect does to the store and the broker. */
  ghost predicate Changes(s: Sys, n: Sys, call: Call, e: ApiEffect) {
    && n.next == s.next + 1 && n.locks == s.locks
    && n.keys == (match e.key
                  case KeepKey => s.keys
                  case Claim => s.keys[call.key := call.job]
                  case Drop => s.keys - {call.key})
    && n.status == (if e.write.Some? then s.status[call.job := e.write.value] else s.status)
    && n.copies == (if e.post then s.copies[s.next := Copy(Envelope(call.job, call.payload, 0), Main)] else s.copies)
  }

  lemma Advance(env: Env, c: CallId, run: seq<Sys>, mid: Sys, call: Call, calls: map<CallId, Call>)
    returns (more: seq<Sys>)
    requires Stands(env, c, run, mid, call, calls)
    ensures run != [] && IsRun(env, Caller(c), more) && more[0] == run[0]
    ensures Shows(more[|more| - 1], c, call.(pc := Effect(env, mid, call).pc), calls)
    ensures Changes(mid, more[|more| - 1], call, Effect(env, mid, call))
  {
    var n := ApplyApi(mid, c, Effect(env, mid, call));
    assert n == Next(env.cfg, mid, OwnStep(env, Caller(c), mid));
    RunGoesOn(env, Caller(c), run, n);
    more := run + [n];
  }

  /** The calls after the steps of the others, seen with and without this one. */
  lemma Moved(s: Sys, before: Sys, mid: Sys, after: Sys, c: CallId, call: Call)
    requires Shows(s, c, call, before.calls) && Alike(mid, after, Caller(c)) && s.next <= mid.next
    requires Untouched(s, mid, Caller(c)) && Untouched(before, after, Caller(c))
    ensures Shows(mid, c, call, after.calls) && mid.copies == after.copies
  {
    assert forall u | u != c :: (u in mid.calls <==> u in after.calls)
                                && (u in mid.calls ==> mid.calls[u] == after.calls[u]);
  }

  class PublishService {
    const env: Env

    var status: map<JobId, Status>
    var locks: map<string, JobId>
    var keys: map<string, JobId>
    var queues: map<Tag, Copy>
    /** The other `publish` calls. */
    var calls: map<CallId, Call>
    /** Numbers the calls, the jobs and the messages. */
    var next: nat

    /** The protocol states after each call of this one, and the state before its next one. */
    ghost var run: seq<Sys>
    ghost var mid: Sys

    ghost predicate Matches(s: Sys)
      reads this
    {
      status == s.status && locks == s.locks && keys == s.keys && queues == s.copies && next == s.next
    }

    ghost predicate Valid()
      reads this
    {
      run != [] && Matches(run[|run| - 1])
    }

    ghost predicate At(c: CallId, call: Call, from: Sys)
      reads this
    {
      Valid() && IsRun(env, Caller(c), run) && run[0] == from && Shows(run[|run| - 1], c, call, calls)
    }

    /** The same, when the others have moved and its next call is due. */
    ghost predicate Ready(c: CallId, call: Call, from: Sys)
      reads this
    {
      Stands(env, c, run, mid, call, calls) && run[0] == from && Matches(mid)
    }

    constructor (env: Env, ghost s: Sys, status: map<JobId, Status>, locks: map<string, JobId>,
                 keys: map<string, JobId>, queues: map<Tag, Copy>, calls: map<CallId, Call>, next: nat)
      requires status == s.status && locks == s.locks && keys == s.keys
      requires queues == s.copies && calls == s.calls && next == s.next
      ensures Valid() && run == [s] && this.calls == s.calls && this.env == env
    {
      this.env := env;
      this.status, this.locks, this.keys, this.queues := status, locks, keys, queues;
      this.calls, this.next := calls, next;
      this.run, this.mid := [s], s;
    }

    /** Before each of its calls, everybody else takes the steps that the environment has in store. */
    method Interrupt(c: CallId, ghost call: Call, ghost from: Sys)
      requires At(c, call, from)
      modifies this
      ensures Ready(c, call, from)
    {
      ghost var s := run[|run| - 1];
      var before := Sys(status, locks, keys, queues, calls, next, {}, {}, []);
      var steps := Others(env.others(next), Caller(c));
      AlikeRun(env.cfg, s, before, steps, Caller(c));
      var after := RunFrom(env.cfg, before, steps);
      mid := Interleaved(env, Caller(c), s);
      NextGrows(env.cfg, s, steps);
      Moved(s, before, mid, after, c, call);
      status, locks, keys, queues, calls, next :=
        after.status, after.locks, after.keys, after.copies, after.calls, after.next;
    }

    /** `claim_idempotency_key`: a `SET NX` and, when it finds an owner, a second call to read it. */
    method ClaimIdempotencyKey(c: CallId, key: string, ghost call: Call, ghost from: Sys)
      returns (raised: bool, owner: Option<JobId>, claimed: bool)
      requires At(c, call, from) && call.pc == ClaimKey && call.key == key
      modifies this
      ensures At(c, call.(pc := if raised then Raised else if claimed then SetPublished else Returned(owner, true)),
              from)
    {
      owner := None;
      raised, claimed := SetKeyIfAbsent(c, key, call, from);
      if !raised && !claimed {
        raised, owner := ReadKey(c, key, call.(pc := ReadOwner), from);
      }
    }

    method SetKeyIfAbsent(c: CallId, key: string, ghost call: Call, ghost from: Sys)
        returns (raised: bool, claimed: bool)
      requires At(c, call, from) && call.pc == ClaimKey && call.key == key
      modifies this
      ensures At(c, call.(pc := if raised then Raised else if claimed then SetPublished else ReadOwner), from)
    {
      Interrupt(c, call, from);
      run := Advance(env, c, run, mid, call, calls);
      raised, claimed := env.faults(next) != Done, key !in keys;
      if claimed && env.faults(next) != Refused {
        keys := keys[key := c];
      }
      next := next + 1;
    }

    method ReadKey(c: CallId, key: string, ghost call: Call, ghost from: Sys)
        returns (raised: bool, owner: Option<JobId>)
      requires At(c, call, from) && call.pc == ReadOwner && call.key == key
      modifies this
      ensures At(c, call.(pc := if raised then Raised else Returned(owner, true)), from)
    {
      Interrupt(c, call, from);
      run := Advance(env, c, run, mid, call, calls);
      raised, owner := env.faults(next) != Done, if key in keys then Some(keys[key]) else None;
      next := next + 1;
    }

    /** `set_job_status`, for the published and for the failed status. */
    method SetJobStatus(c: CallId, value: Status, ghost call: Call, ghost from: Sys) returns (raised: bool)
      requires At(c, call, from)
      requires (call.pc == SetPublished && value == Published) || (call.pc == SetPostFailed && value == Failed)
      modifies this
      ensures At(c, call.(pc := if call.pc == SetPublished && !raised then MarkPublished else DropKey), from)
    {
      Interrupt(c, call, from);
      run := Advance(env, c, run, mid, call, calls);
      raised := env.faults(next) != Done;
      if env.faults(next) != Refused {
        status := status[c := value];
      }
      next := next + 1;
    }

    method MarkJobTiming(c: CallId, ghost call: Call, ghost from: Sys) returns (raised: bool)
      requires At(c, call, from) && call.pc == MarkPublished
      modifies this
      ensures At(c, call.(pc := if raised then DropKey else Post), from)
    {
      Interrupt(c, call, from);
      run := Advance(env, c, run, mid, call, calls);
      raised := env.faults(next) != Done;
      next := next + 1;
    }

    /** The broker's `publish`. */
    method PostMessage(c: CallId, payload: Payload, ghost call: Call, ghost from: Sys) returns (raised: bool)
      requires At(c, call, from) && call.pc == Post && call.payload == payload
      modifies this
      ensures At(c, call.(pc := if raised then SetPostFailed else Returned(Some(c), false)), from)
    {
      Interrupt(c, call, from);
      run := Advance(env, c, run, mid, call, calls);
      raised := env.faults(next) != Done;
      if env.faults(next) != Refused {
        queues := queues[next := Copy(Envelope(c, payload, 0), Main)];
      }
      next := next + 1;
    }

    /** The outer handler: give the key back, if there is one, and raise. */
    method ReleaseIdempotencyKey(c: CallId, key: string, ghost call: Call, ghost from: Sys)
      requires At(c, call, from) && call.pc == DropKey && call.key == key
      modifies this
      ensures At(c, call.(pc := Raised), from)
    {
      Interrupt(c, call, from);
      run := Advance(env, c, run, mid, call, calls);
      if key != "" && env.faults(next) != Refused {
        keys := keys - {key};
      }
      next := next + 1;
    }

    /** The inner `try`: status, timing, message; a refused message also records the failure. */
    method Enqueue(c: CallId, payload: Payload, ghost call: Call, ghost from: Sys) returns (raised: bool)
      requires At(c, call, from) && call.pc == SetPublished && call.payload == payload
      modifies this
      ensures At(c, call.(pc := if raised then DropKey else Returned(Some(c), false)), from)
    {
      raised := SetJobStatus(c, Published, call, from);
      if !raised {
        raised := MarkJobTiming(c, call.(pc := MarkPublished), from);
      }
      if !raised {
        raised := PostMessage(c, payload, call.(pc := Post), from);
        if raised {
          var ignored := SetJobStatus(c, Failed, call.(pc := SetPostFailed), from);
        }
      }
    }

    /** What `publish` answers, as the point at which its call comes to rest. */
    method Publish(payload: Payload, key: string) returns (answer: ApiPc)
      requires Valid() && |run| == 1 && calls == run[0].calls && next !in calls
      modifies this
      ensures answer.Returned? || answer.Raised?
      ensures exists n: nat ::
              var s := Drive(env, Caller(old(next)), Next(env.cfg, old(run[0]), Begin(payload, key)), n);
                && status == s.status && locks == s.locks && keys == s.keys && queues == s.copies && next == s.next
                && s.calls == calls[old(next) := Call(old(next), payload, key, answer)]
    {
      ghost var from := Next(env.cfg, run[0], Begin(payload, key));
      var c := next;
      ghost var call := Call(c, payload, key, if key == "" then SetPublished else ClaimKey);
      next := next + 1;
      run := [from];
      answer := Carry(c, payload, key, call, from);
      RunsAreDriven(env, Caller(c), run);
    }

    method Carry(c: CallId, payload: Payload, key: string, ghost call: Call, ghost from: Sys) returns (answer: ApiPc)
      requires At(c, call, from) && call == Call(c, payload, key, if key == "" then SetPublished else ClaimKey)
      modifies this
      ensures At(c, call.(pc := answer), from) && (answer.Returned? || answer.Raised?)
    {
      if key != "" {
        var raised, owner, claimed := ClaimIdempotencyKey(c, key, call, from);
        if raised { return Raised; }
        if !claimed { return Returned(owner, true); }
      }
      var raised := Enqueue(c, payload, call.(pc := SetPublished), from);
      if raised {
        ReleaseIdempotencyKey(c, key, call.(pc := DropKey), from);
        return Raised;
      }
      answer := Returned(Some(c), false);
    }
  }
}
