/** How the end of a workflow run becomes the status of the job that carried it. */
module JobOutcome {
  import opened Prelude
  import opened Workflow
  import opened AgentRuns
  import opened Invocations
  import Airline
  import Interference
  import Jobs = JobProtocol

  /** An environment in which nobody else moves and no call fails. */
  function Calm(cfg: Jobs.Config, result: Jobs.AgentResult): Interference.Env {
    Interference.Env(cfg, n => Jobs.Done, result, n => [])
  }

  /** The states of a run in which only the worker of copy t moves and none of its calls fails. */
  ghost predicate Unhindered(cfg: Jobs.Config, t: Jobs.Tag, result: Jobs.AgentResult, run: seq<Jobs.Sys>) {
    Interference.IsRun(Calm(cfg, result), Interference.Delivery(t), run)
  }

  ghost predicate At(s: Jobs.Sys, t: Jobs.Tag, job: Jobs.Envelope, w: Jobs.Worker) {
    t < s.next && t in s.copies && s.copies[t] == Jobs.Copy(job, Jobs.Busy(w))
  }

  /** The message that was published last. */
  ghost predicate Newest(s: Jobs.Sys, copy: Jobs.Copy) {
    s.next > 0 && s.next - 1 in s.copies && s.copies[s.next - 1] == copy
  }

  /** What the effect of a call leaves behind. */
  ghost predicate Left(a: Jobs.Sys, b: Jobs.Sys, t: Jobs.Tag, job: Jobs.Envelope, e: Jobs.Effect) {
    && e.after.Some? && e.after.value.Busy? && At(b, t, job, e.after.value.worker)
    && b.status == (if e.write.Some? then a.status[job.id := e.write.value] else a.status)
    && (e.post.Some? ==> Newest(b, e.post.value))
  }

  lemma ApplyLeaves(s: Jobs.Sys, t: Jobs.Tag, job: Jobs.Envelope, w: Jobs.Worker, e: Jobs.Effect)
    requires At(s, t, job, w) && e.after.Some? && e.after.value.Busy?
    ensures Left(s, Jobs.Apply(s, t, e), t, job, e)
  {
  }

  /** One more call; the agent run and the calls after it read nothing from the store. */
  lemma CallOnce(cfg: Jobs.Config, run: seq<Jobs.Sys>, t: Jobs.Tag, job: Jobs.Envelope, w: Jobs.Worker,
                 result: Jobs.AgentResult, e: Jobs.Effect) returns (more: seq<Jobs.Sys>)
    requires Unhindered(cfg, t, result, run) && At(run[|run| - 1], t, job, w)
    requires !w.pc.ReadStatus? && !w.pc.Acquire?
    requires e == Jobs.Act(cfg, job, w, None, false, Jobs.Done, result) && e.after.Some? && e.after.value.Busy?
    ensures Unhindered(cfg, t, result, more) && |more| == |run| + 1 && more[..|run|] == run
    ensures Left(run[|run| - 1], more[|run|], t, job, e)
  {
    var s := run[|run| - 1];
    ApplyLeaves(s, t, job, w, e);
    more := CallNext(cfg, run, t, job, w, result, e);
  }

  lemma CallNext(cfg: Jobs.Config, run: seq<Jobs.Sys>, t: Jobs.Tag, job: Jobs.Envelope, w: Jobs.Worker,
                 result: Jobs.AgentResult, e: Jobs.Effect) returns (more: seq<Jobs.Sys>)
    requires Unhindered(cfg, t, result, run) && At(run[|run| - 1], t, job, w)
    requires var s := run[|run| - 1];
             e == Jobs.Act(cfg, job, w, Jobs.StatusOf(s, job.id), Jobs.LockFree(s, job), Jobs.Done, result)
    ensures Unhindered(cfg, t, result, more) && |more| == |run| + 1 && more[..|run|] == run
    ensures t in run[|run| - 1].copies && more[|run|] == Jobs.Apply(run[|run| - 1], t, e)
  {
    var s := run[|run| - 1];
    var n := Jobs.Apply(s, t, e);
    assert n == Jobs.Next(cfg, s, Jobs.Work(t, Jobs.Done, result));
    CalmStep(cfg, t, result, s);
    Interference.RunGoesOn(Calm(cfg, result), Interference.Delivery(t), run, n);
    more := run + [n];
  }

  lemma CalmStep(cfg: Jobs.Config, t: Jobs.Tag, result: Jobs.AgentResult, s: Jobs.Sys)
    ensures Interference.OneStep(Calm(cfg, result), Interference.Delivery(t), s,
                                 Jobs.Next(cfg, s, Jobs.Work(t, Jobs.Done, result)))
  {
    assert Interference.Interleaved(Calm(cfg, result), Interference.Delivery(t), s) == s;
  }

  /** The status a worker reports for a result of its agent. */
  function StatusFor(result: Jobs.AgentResult, lastAttempt: bool): Jobs.Status {
    match result
    case Paused => Jobs.Waiting
    case Finished => Jobs.Completed
    case FinishedFailed => Jobs.Failed
    case NoPendingInput => Jobs.Failed
    case Errored => if lastAttempt then Jobs.Failed else Jobs.Retrying
  }

  predicate LastAttempt(cfg: Jobs.Config, w: Jobs.Worker) {
    w.attempt + 1 >= cfg.maxAttempts
  }

  /** The worker comes to its acknowledgement with this attempt count and this status. */
  ghost predicate Reports(run: seq<Jobs.Sys>, t: Jobs.Tag, job: Jobs.Envelope, w: Jobs.Worker, attempt: nat,
                          status: Jobs.Status)
  {
    && run != [] && At(run[|run| - 1], t, job, w.(pc := Jobs.Ack, attempt := attempt))
    && Jobs.StatusOf(run[|run| - 1], job.id) == Some(status)
    && (status.Failed? ==> Newest(run[|run| - 1], Jobs.Copy(job.(attempt := attempt), Jobs.Dead)))
    && (status.Retrying? ==> Newest(run[|run| - 1], Jobs.Copy(job.(attempt := attempt), Jobs.Backoff(attempt))))
  }

  lemma RecordsEnd(cfg: Jobs.Config, run: seq<Jobs.Sys>, t: Jobs.Tag, job: Jobs.Envelope, w: Jobs.Worker,
                   result: Jobs.AgentResult, paused: bool) returns (more: seq<Jobs.Sys>)
    requires Unhindered(cfg, t, result, run) && At(run[|run| - 1], t, job, w) && w.pc == Jobs.MarkFinished(paused)
    ensures Unhindered(cfg, t, result, more) && more[0] == run[0]
    ensures Reports(more, t, job, w, w.attempt, if paused then Jobs.Waiting else Jobs.Completed)
  {
    more := CallOnce(cfg, run, t, job, w, result, Jobs.Act(cfg, job, w, None, false, Jobs.Done, result));
    var f := w.(pc := Jobs.SetFinal(paused));
    more := CallOnce(cfg, more, t, job, f, result, Jobs.Act(cfg, job, f, None, false, Jobs.Done, result));
  }

  lemma DeadLetters(cfg: Jobs.Config, run: seq<Jobs.Sys>, t: Jobs.Tag, job: Jobs.Envelope, w: Jobs.Worker,
                    result: Jobs.AgentResult) returns (more: seq<Jobs.Sys>)
    requires Unhindered(cfg, t, result, run) && At(run[|run| - 1], t, job, w) && w.pc.SetFailed?
    ensures Unhindered(cfg, t, result, more) && more[0] == run[0]
    ensures Reports(more, t, job, w, w.attempt, Jobs.Failed)
  {
    more := CallOnce(cfg, run, t, job, w, result, Jobs.Act(cfg, job, w, None, false, Jobs.Done, result));
    var m := w.(pc := Jobs.MarkFailed);
    more := CallOnce(cfg, more, t, job, m, result, Jobs.Act(cfg, job, m, None, false, Jobs.Done, result));
    var d := w.(pc := Jobs.PublishDead(true));
    more := CallOnce(cfg, more, t, job, d, result, Jobs.Act(cfg, job, d, None, false, Jobs.Done, result));
  }

  lemma Reschedules(cfg: Jobs.Config, run: seq<Jobs.Sys>, t: Jobs.Tag, job: Jobs.Envelope, w: Jobs.Worker,
                    result: Jobs.AgentResult) returns (more: seq<Jobs.Sys>)
    requires Unhindered(cfg, t, result, run) && At(run[|run| - 1], t, job, w) && w.pc.SetRetrying?
    requires 1 <= w.attempt < cfg.maxAttempts
    ensures Unhindered(cfg, t, result, more) && more[0] == run[0]
    ensures Reports(more, t, job, w, w.attempt, Jobs.Retrying)
  {
    more := CallOnce(cfg, run, t, job, w, result, Jobs.Act(cfg, job, w, None, false, Jobs.Done, result));
    var p := w.(pc := Jobs.PublishRetry(w.attempt));
    more := CallOnce(cfg, more, t, job, p, result, Jobs.Act(cfg, job, p, None, false, Jobs.Done, result));
  }

  /** From any state of the protocol, a worker whose agent run ended with this result and whose
      calls succeed comes to its acknowledgement with the status that the result calls for, and with
      the job in the dead-letter queue or in the backoff queue of its next attempt when it is failed
      or retried. */
  lemma ResultDecidesStatus(cfg: Jobs.Config, s: Jobs.Sys, t: Jobs.Tag, job: Jobs.Envelope, w: Jobs.Worker,
                            result: Jobs.AgentResult) returns (run: seq<Jobs.Sys>)
    requires At(s, t, job, w) && w.pc.RunAgent?
    ensures Unhindered(cfg, t, result, run) && run[0] == s
    ensures Reports(run, t, job, w, if result.Errored? then w.attempt + 1 else w.attempt,
                    StatusFor(result, LastAttempt(cfg, w)))
  {
    var e := Jobs.Act(cfg, job, w, None, false, Jobs.Done, result);
    run := CallOnce(cfg, [s], t, job, w, result, e);
    var v := e.after.value.worker;
    match v.pc
    case SetFailed => run := DeadLetters(cfg, run, t, job, v, result);
    case SetRetrying => run := Reschedules(cfg, run, t, job, v, result);
    case MarkFinished(paused) => run := RecordsEnd(cfg, run, t, job, v, result, paused);
    case SaveMetadata =>
      run := CallOnce(cfg, run, t, job, v, result, Jobs.Act(cfg, job, v, None, false, Jobs.Done, result));
      run := RecordsEnd(cfg, run, t, job, v.(pc := Jobs.MarkFinished(true)), result, true);
  }

  /** End to end, for the result that the runner gives for this request. A job is reported waiting
      if and only if its run has come to show its options; completed if and only if its run has just
      verified a booking or the user has just declined; retrying if and only if the run raised and
      the job has an attempt left; and failed if and only if the run ended failed, there was no
      pending input, or the run raised on the last attempt. */
  lemma JobReportsTheRun(maxRetries: int, actions: seq<Action>, request: Request, nodes: seq<Action>,
                         cfg: Jobs.Config, s: Jobs.Sys, t: Jobs.Tag, job: Jobs.Envelope, w: Jobs.Worker)
    returns (run: seq<Jobs.Sys>, attempt: nat, status: Jobs.Status)
    requires At(s, t, job, w) && w.pc.RunAgent?
    requires !Running(History(maxRetries, actions).pc) && Complete(maxRetries, actions, request, nodes)
    ensures Unhindered(cfg, t, Told(maxRetries, actions, request, nodes), run) && run[0] == s
    ensures Reports(run, t, job, w, attempt, status)
    ensures var th, end := History(maxRetries, actions), Invoked(maxRetries, actions, request, nodes);
            var entered, last := Enters(th, request).Some?, LastAttempt(cfg, w);
            var raised := (entered && end.raised) || (request.Message? && request.blank);
            && (status.Waiting? <==> entered && end.pc.Paused? && !end.raised)
            && (status.Completed? <==> entered && end.pc.Ended?
                                       && (LastIs(end, Verified(true)) || Answered(end, false)))
            && (status.Retrying? <==> raised && !last)
            && (status.Failed? <==> || (entered && end.pc.Ended? && (Refused(end) || Exhausted(end, maxRetries)))
                                    || (request.Resumption? && !th.pc.Paused?)
                                    || (raised && last))
  {
    var result := Told(maxRetries, actions, request, nodes);
    ResultsAreExplained(maxRetries, actions, request, nodes);
    run := ResultDecidesStatus(cfg, s, t, job, w, result);
    attempt := if result.Errored? then w.attempt + 1 else w.attempt;
    status := StatusFor(result, LastAttempt(cfg, w));
  }

  // A resumption that raises after its pause was consumed.

  /** The paused thread would take the confirmation of this selection to its validation. */
  predicate Offers(th: Thread, sel: Selection) {
    && th.pc.Paused? && th.state.evaluation.Some?
    && ExpectedSegment(th.state, th.state.evaluation.value) == Some(sel.segment)
    && sel.target in th.state.evaluation.value.options
  }

  lemma AnswerIsTaken(maxRetries: int, actions: seq<Action>, sel: Selection) returns (more: seq<Action>)
    requires Offers(History(maxRetries, actions), sel)
    ensures more == actions + [Resume(Answer(true, Some(sel)))] + [Node(Fine, false)]
    ensures var th, n := History(maxRetries, actions), History(maxRetries, more);
            n == th.(pc := ValidateChange, state := th.state.(answer := Some(Answer(true, Some(sel)))),
                     history := th.history + [Resumed(Answer(true, Some(sel)))], finished := false, raised := false)
  {
    var a := actions + [Resume(Answer(true, Some(sel)))];
    HistorySnoc(maxRetries, actions, Resume(Answer(true, Some(sel))));
    HistorySnoc(maxRetries, a, Node(Fine, false));
    more := a + [Node(Fine, false)];
  }

  /** From every pause: the validator raises, and the resumption has used the pause up. */
  lemma AResumptionCanRaise(maxRetries: int, actions: seq<Action>, sel: Selection)
    requires Offers(History(maxRetries, actions), sel)
    ensures var request, nodes := Resumption(Answer(true, Some(sel))), [Node(Fine, false), Node(Raises, false)];
            && Complete(maxRetries, actions, request, nodes) && Told(maxRetries, actions, request, nodes).Errored?
            && Invoked(maxRetries, actions, request, nodes).pc.Stopped?
  {
    var a := AnswerIsTaken(maxRetries, actions, sel);
    HistorySnoc(maxRetries, a, Node(Raises, false));
    assert actions + [Resume(Answer(true, Some(sel)))] + [Node(Fine, false),
        Node(Raises, false)] == a + [Node(Raises, false)];
  }

  /** From every pause: the booking call is made, and the worker dies before the booking is verified,
      either inside the booking node or after it. */
  lemma AWorkerCanDieAfterBooking(maxRetries: int, actions: seq<Action>, sel: Selection, inside: bool)
    returns (more: seq<Action>)
    requires Offers(History(maxRetries, actions), sel)
    ensures actions <= more && History(maxRetries, more).pc.Stopped?
    ensures LastIs(History(maxRetries, more), Executed(sel, !inside))
  {
    var a := AnswerIsTaken(maxRetries, actions, sel);
    var b := ComesToBook(maxRetries, a, sel);
    if !inside {
      HistorySnoc(maxRetries, b, Node(Fine, false));
      b := b + [Node(Fine, false)];
    }
    HistorySnoc(maxRetries, b, Crash(false, inside));
    more := b + [Crash(false, inside)];
  }

  lemma ComesToBook(maxRetries: int, actions: seq<Action>, sel: Selection) returns (more: seq<Action>)
    requires var th := History(maxRetries, actions);
             && th.pc.ValidateChange? && th.state.answer == Some(Answer(true, Some(sel))) && th.state.evaluation.Some?
             && ExpectedSegment(th.state, th.state.evaluation.value) == Some(sel.segment)
             && sel.target in th.state.evaluation.value.options
    ensures actions <= more
    ensures var th := History(maxRetries, more);
            th.pc.ExecuteRebooking? && th.state.verdict == Some(Verdict(true, Some(sel), false))
  {
    HistorySnoc(maxRetries, actions, Node(Fine, false));
    more := actions + [Node(Fine, false)];
  }

  /** Any further attempt at such a resumption leaves the thread as it is, and the job is failed and
      dead-lettered on that attempt. */
  lemma ALostResumptionFails(maxRetries: int, actions: seq<Action>, answer: Answer, nodes: seq<Action>,
                             cfg: Jobs.Config, s: Jobs.Sys, t: Jobs.Tag, job: Jobs.Envelope, w: Jobs.Worker)
    returns (run: seq<Jobs.Sys>)
    requires At(s, t, job, w) && w.pc.RunAgent? && History(maxRetries, actions).pc.Stopped?
    ensures Invoked(maxRetries, actions, Resumption(answer), nodes) == History(maxRetries, actions)
    ensures Told(maxRetries, actions, Resumption(answer), nodes) == Jobs.NoPendingInput
    ensures Unhindered(cfg, t, Jobs.NoPendingInput, run) && run[0] == s
    ensures Reports(run, t, job, w, w.attempt, Jobs.Failed)
  {
    run := ResultDecidesStatus(cfg, s, t, job, w, Jobs.NoPendingInput);
  }

  /** So a job can be reported failed although the call of its confirmed booking was made, whether
      the worker died inside the booking node or after it. */
  lemma ABookedJobCanFail(maxRetries: int, actions: seq<Action>, sel: Selection, inside: bool, nodes: seq<Action>,
                          cfg: Jobs.Config, s: Jobs.Sys, t: Jobs.Tag, job: Jobs.Envelope, w: Jobs.Worker)
    returns (more: seq<Action>, run: seq<Jobs.Sys>)
    requires At(s, t, job, w) && w.pc.RunAgent? && Offers(History(maxRetries, actions), sel)
    ensures actions <= more && LastIs(History(maxRetries, more), Executed(sel, !inside))
    ensures var result := Told(maxRetries, more, Resumption(Answer(true, Some(sel))), nodes);
            Unhindered(cfg, t, result, run) && run[0] == s && Reports(run, t, job, w, w.attempt, Jobs.Failed)
  {
    more := AWorkerCanDieAfterBooking(maxRetries, actions, sel, inside);
    run := ALostResumptionFails(maxRetries, more, Answer(true, Some(sel)), nodes, cfg, s, t, job, w);
  }

  /** Such a pause exists: a run that finds one option for one segment. */
  lemma APauseExists(maxRetries: int) returns (actions: seq<Action>, sel: Selection)
    ensures Offers(History(maxRetries, actions), sel)
  {
    var key := Airline.FareKey(7, 1);
    sel := Airline.Selection(5, key, None, 0);
    actions := Gathers(maxRetries);
    HistorySnoc(maxRetries, actions, Node(Found([key]), false));
    var a := actions + [Node(Found([key]), false)];
    HistorySnoc(maxRetries, a, Node(Fine, true));
    var b := a + [Node(Fine, true)];
    assert History(maxRetries, b).pc.Evaluate?;
    HistorySnoc(maxRetries, b, Node(Fine, false));
    var c := b + [Node(Fine, false)];
    HistorySnoc(maxRetries, c, Node(Fine, false));
    actions := c + [Node(Fine, false)];
  }

  lemma Gathers(maxRetries: int) returns (actions: seq<Action>)
    ensures var wish, th := Wish(Some(5), Some((1, 2))), History(maxRetries, actions);
            && th.pc == Gather(false, false)
            && th.state == Start.state.(wish := Some(wish), context := Some(Context(wish, [5])))
  {
    var wish := Wish(Some(5), Some((1, 2)));
    HistorySnoc(maxRetries, [], Run);
    var a := [] + [Run];
    HistorySnoc(maxRetries, a, Node(Understood(wish), false));
    var b := a + [Node(Understood(wish), false)];
    assert History(maxRetries, b).pc.GetReservation?;
    HistorySnoc(maxRetries, b, Node(Reservation([5]), false));
    actions := b + [Node(Reservation([5]), false)];
  }
}
