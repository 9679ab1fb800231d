/** The agent workflow as a graph of nodes over a persisted thread state: two branches that
    join, a pause for human confirmation, a bounded retry loop and several ends. */
module Workflow {
  import opened Prelude
  import Airline

  type Id = Airline.Id
  type FareKey = Airline.FareKey
  type Selection = Airline.Selection

  /** What the language model understood: perhaps a segment, perhaps a departure window. */
  datatype Wish = Wish(segment: Option<Id>, window: Option<(int, int)>)

  datatype Context = Context(wish: Wish, segments: seq<Id>)

  datatype Evaluation = Evaluation(wish: Wish, options: seq<FareKey>)

  datatype Answer = Answer(confirmed: bool, selection: Option<Selection>)

  datatype Verdict = Verdict(valid: bool, selection: Option<Selection>, declined: bool)

  datatype Final = Completed | Declined | Failed

  /** The channels of the persisted state; they survive from run to run. */
  datatype State = State(
    wish: Option<Wish>,
    context: Option<Context>,
    options: Option<seq<FareKey>>,
    credits: bool,
    evaluation: Option<Evaluation>,
    answer: Option<Answer>,
    verdict: Option<Verdict>,
    executed: bool,
    final: Option<Final>,
    retryCount: nat
  )

  /** Where the thread stands. `Gather` is the pair of parallel nodes with the branches that are
      done; `Ask` holds the answer it was resumed with, if any; `Stopped` follows an exception. */
  datatype Pc =
    | New
    | Understand
    | GetReservation
    | Gather(searched: bool, credited: bool)
    | Evaluate
    | Ask(resumed: Option<Answer>)
    | Paused
    | ValidateChange
    | Explain
    | Refresh
    | ExecuteRebooking
    | VerifyRebooking
    | FinalizeDeclined
    | FinalizeFailed
    | Ended
    | Stopped

  /** What the history of a thread records. */
  datatype Event =
    | Loaded(context: Context)
    | Searched(segment: Id, options: seq<FareKey>)
    | Shown(options: seq<FareKey>)
    | Resumed(answer: Answer)
    | Validated(selection: Selection)
    | Executed(selection: Selection, done: bool) // the call was made, and its caller learned of its success
    | Verified(done: bool)
    | Retried

  /** `finished` says that the current run has written a final result, `raised` that no run has
      given one: there was none, an exception left it, or its worker died. */
  datatype Thread = Thread(state: State, pc: Pc, history: seq<Event>, finished: bool, raised: bool)

  const Start := Thread(State(None, None, None, false, None, None, None, false, None, 0), New, [], false, true)

  /** How a call of the language model, the airline service or the validator ends. */
  datatype Effect =
    | Raises
    | Understood(wish: Wish)
    | Reservation(segments: seq<Id>)
    | Found(options: seq<FareKey>)
    | Fine
    | Rejects

  /** What the environment does next: start a run, resume, let a node run (the flag chooses a
      branch of the fan-out), or kill the worker (the flags say whether the pause survives and
      whether the booking node had already made its call). */
  datatype Action =
    | Run
    | Resume(answer: Answer)
    | Node(effect: Effect, credits: bool)
    | Crash(paused: bool, called: bool)

  predicate Running(pc: Pc) {
    !(pc.New? || pc.Paused? || pc.Ended? || pc.Stopped?)
  }

  /** `_selected_segment`: the requested one if it belongs to the reservation, or the only one. */
  function SelectedSegment(context: Context): Option<Id> {
    match context.wish.segment
    case Some(s) => if s in context.segments then Some(s) else None
    case None => if |context.segments| == 1 then Some(context.segments[0]) else None
  }

  predicate HasWindow(wish: Wish) {
    wish.window.Some? && wish.window.value.0 <= wish.window.value.1
  }

  /** The segment that `validate_change` expects. */
  function ExpectedSegment(st: State, evaluation: Evaluation): Option<Id> {
    var segments := if st.context.Some? then st.context.value.segments else [];
    if segments == [] || evaluation.wish.segment.Some? then evaluation.wish.segment else Some(segments[0])
  }

  function Stop(th: Thread): Thread {
    th.(pc := Stopped, raised := true)
  }

  function Go(th: Thread, st: State, pc: Pc): Thread {
    th.(state := st, pc := pc)
  }

  function Log(th: Thread, event: Event): Thread {
    th.(history := th.history + [event])
  }

  function Finish(th: Thread, final: Final, pc: Pc): Thread {
    th.(state := th.state.(final := Some(final)), pc := pc, finished := true)
  }

  function SearchNode(th: Thread, effect: Effect): Thread
    requires th.pc.Gather?
  {
    if th.state.context.None? then Stop(th)
    else
      var context := th.state.context.value;
      var segment := SelectedSegment(context);
      if segment.None? || !HasWindow(context.wish) || !effect.Found? then Stop(th)
      else Log(Go(th, th.state.(options := Some(effect.options)), Join(true, th.pc.credited)),
               Searched(segment.value, effect.options))
  }

  function CreditsNode(th: Thread, effect: Effect): Thread
    requires th.pc.Gather?
  {
    if th.state.context.None? || !effect.Fine? then Stop(th)
    else Go(th, th.state.(credits := true), Join(th.pc.searched, true))
  }

  /** The evaluation starts when both branches are done. */
  function Join(searched: bool, credited: bool): Pc {
    if searched && credited then Evaluate else Gather(searched, credited)
  }

  /** The nodes up to the pause. */
  function Prepare(th: Thread, effect: Effect, credits: bool): Thread
    requires th.pc.Understand? || th.pc.GetReservation? || th.pc.Gather? || th.pc.Evaluate?
  {
    var st := th.state;
    match th.pc
    case Understand =>
      if effect.Understood? then Go(th, st.(wish := Some(effect.wish)), GetReservation) else Stop(th)
    case GetReservation =>
      if effect.Reservation? && effect.segments != [] && st.wish.Some? then
        var context := Context(st.wish.value, effect.segments);
        Log(Go(th, st.(context := Some(context)), Gather(false, false)), Loaded(context))
      else Stop(th)
    case Gather(searched, credited) =>
      if (credits && !credited) || searched then CreditsNode(th, effect) else SearchNode(th, effect)
    case Evaluate =>
      if st.wish.Some? && st.options.Some? && st.credits && effect.Fine? then
        Go(th, st.(evaluation := Some(Evaluation(st.wish.value, st.options.value))), Ask(None))
      else Stop(th)
  }

  /** `ask_confirmation`: pauses, and goes on with the answer it is resumed with. A payload that
      cannot be read raises, and the pause may survive that or not. */
  function AskNode(th: Thread, effect: Effect): Thread
    requires th.pc.Ask?
  {
    if th.state.evaluation.None? then Stop(th)
    else
      match th.pc.resumed
      case None => Log(Go(th, th.state, Paused), Shown(th.state.evaluation.value.options))
      case Some(answer) =>
        if effect.Fine? then Log(Go(th, th.state.(answer := Some(answer)), ValidateChange), Resumed(answer))
        else if effect.Raises? then Stop(th) else Stop(th).(pc := Paused)
  }

  /** `validate_change`. */
  function ValidateNode(th: Thread, effect: Effect): Thread {
    var st := th.state;
    if st.answer.None? || st.evaluation.None? then Stop(th)
    else
      var answer, evaluation := st.answer.value, st.evaluation.value;
      var invalid := Go(th, st.(verdict := Some(Verdict(false, answer.selection, false))), Explain);
      if !answer.confirmed then Go(th, st.(verdict := Some(Verdict(false, answer.selection, true))), FinalizeDeclined)
      else if answer.selection.None? then Stop(th)
      else
        var sel := answer.selection.value;
        if ExpectedSegment(st, evaluation) != Some(sel.segment) then invalid
        else if sel.target !in evaluation.options then invalid
        else if effect.Fine? then
          Log(Go(th, st.(verdict := Some(Verdict(true, Some(sel), false))), ExecuteRebooking), Validated(sel))
        else if effect.Rejects? then invalid
        else Stop(th)
  }

  /** `explain_invalid_change`: counts the retries of the whole thread. */
  function ExplainNode(th: Thread, maxRetries: int): Thread {
    if th.state.verdict.None? then Stop(th)
    else if th.state.verdict.value.declined then Finish(th, Declined, FinalizeDeclined)
    else
      var counted := th.(state := th.state.(retryCount := th.state.retryCount + 1));
      if counted.state.retryCount > maxRetries then Finish(counted, Failed, Ended)
      else Log(counted.(pc := Refresh), Retried)
  }

  predicate CanExecute(th: Thread) {
    th.state.verdict.Some? && th.state.verdict.value.valid && th.state.verdict.value.selection.Some?
  }

  /** `execute_rebooking`: an exception becomes a failed result. */
  function ExecuteNode(th: Thread, effect: Effect): Thread {
    if !CanExecute(th) then Stop(th)
    else
      var called := Log(th, Executed(th.state.verdict.value.selection.value, effect.Fine?));
      if effect.Fine? then Go(called, th.state.(executed := true), VerifyRebooking)
      else Finish(called, Failed, FinalizeFailed)
  }

  /** The worker is killed, perhaps inside the booking node after its call was made. */
  function Killed(th: Thread, paused: bool, called: bool): Thread {
    var dead := Stop(th).(pc := if paused && th.pc.Ask? && th.pc.resumed.Some? then Paused else Stopped);
    if called && th.pc.ExecuteRebooking? && CanExecute(th) then
      Log(dead, Executed(th.state.verdict.value.selection.value, false))
    else dead
  }

  /** `verify_rebooking`. */
  function VerifyNode(th: Thread, effect: Effect): Thread {
    if th.state.verdict.None? || th.state.verdict.value.selection.None? || !th.state.executed then Stop(th)
    else
      var called := Log(th, Verified(effect.Fine?));
      if effect.Fine? then Finish(called, Completed, Ended) else Finish(called, Failed, FinalizeFailed)
  }

  /** The nodes after the confirmation. */
  function Conclude(th: Thread, effect: Effect, maxRetries: int): Thread
    requires Running(th.pc) && !th.pc.Understand? && !th.pc.GetReservation? && !th.pc.Gather? && !th.pc.Evaluate?
  {
    match th.pc
    case Ask(_) => AskNode(th, effect)
    case ValidateChange => ValidateNode(th, effect)
    case Explain => ExplainNode(th, maxRetries)
    case Refresh => Go(th, th.state, Gather(false, false))
    case ExecuteRebooking => ExecuteNode(th, effect)
    case VerifyRebooking => VerifyNode(th, effect)
    case FinalizeDeclined => Finish(th, Declined, Ended)
    case FinalizeFailed => th.(pc := Ended)
  }

  function RunNode(th: Thread, effect: Effect, credits: bool, maxRetries: int): Thread
    requires Running(th.pc)
  {
    if th.pc.Understand? || th.pc.GetReservation? || th.pc.Gather? || th.pc.Evaluate? then Prepare(th, effect, credits)
    else Conclude(th, effect, maxRetries)
  }

  /** One action; an action that is not possible changes nothing. */
  function Next(maxRetries: int, th: Thread, action: Action): Thread {
    match action
    case Run => if Running(th.pc) then th else th.(pc := Understand, finished := false, raised := false)
    case Resume(answer) => if th.pc.Paused? then th.(pc := Ask(Some(answer)), finished := false, raised := false)
        else th
    case Node(effect, credits) => if Running(th.pc) then RunNode(th, effect, credits, maxRetries) else th
    case Crash(paused, called) => if Running(th.pc) then Killed(th, paused, called) else th
  }

  function History(maxRetries: int, actions: seq<Action>): Thread {
    if actions == [] then Start
    else Next(maxRetries, History(maxRetries, actions[..|actions| - 1]), actions[|actions| - 1])
  }

  // Execution safety.

  /** Position i closes a block of five events: the search for this segment found these options,
      they were shown, the user confirmed exactly this selection of one of them, and the
      validator accepted it. */
  ghost predicate Justified(h: seq<Event>, i: nat)
    requires i < |h| && h[i].Executed?
  {
    var sel := h[i].selection;
    && i >= 4 && h[i - 1] == Validated(sel) && h[i - 2] == Resumed(Answer(true, Some(sel)))
    && h[i - 3].Shown? && h[i - 4] == Searched(sel.segment, h[i - 3].options)
    && sel.target in h[i - 3].options
  }

  ghost predicate AllJustified(h: seq<Event>) {
    forall i | 0 <= i < |h| && h[i].Executed? :: Justified(h, i)
  }

  /** The event k places before the end. */
  ghost predicate Ends(h: seq<Event>, k: nat, event: Event) {
    k < |h| && h[|h| - 1 - k] == event
  }

  /** The search of the current round used the segment that the context selects. */
  ghost predicate SearchLogged(th: Thread, k: nat, options: seq<FareKey>) {
    && th.state.context.Some? && th.state.wish == Some(th.state.context.value.wish)
    && SelectedSegment(th.state.context.value).Some?
    && Ends(th.history, k, Searched(SelectedSegment(th.state.context.value).value, options))
  }

  ghost predicate EvaluationLogged(th: Thread, k: nat) {
    && th.state.evaluation.Some? && th.state.wish == Some(th.state.evaluation.value.wish)
    && SearchLogged(th, k, th.state.evaluation.value.options)
  }

  /** What the position of a thread says about the end of its history. */
  ghost predicate Tail(th: Thread) {
    match th.pc
    case Gather(searched, _) =>
      && th.state.context.Some? && th.state.wish == Some(th.state.context.value.wish)
      && (searched ==> th.state.options.Some? && SearchLogged(th, 0, th.state.options.value))
    case Evaluate => th.state.options.Some? && SearchLogged(th, 0, th.state.options.value)
    case Ask(None) => EvaluationLogged(th, 0)
    case Ask(Some(_)) => ShownLogged(th, 0)
    case Paused => ShownLogged(th, 0)
    case ValidateChange => th.state.answer.Some? && ShownLogged(th, 1)
        && Ends(th.history, 0, Resumed(th.state.answer.value))
    case Explain => th.state.context.Some? && th.state.wish == Some(th.state.context.value.wish)
    case Refresh => th.state.context.Some? && th.state.wish == Some(th.state.context.value.wish)
    case ExecuteRebooking =>
      && th.state.verdict.Some? && th.state.verdict.value.selection.Some?
      && Ready(th.history, th.state.verdict.value.selection.value)
    case _ => true
  }

  ghost predicate ShownLogged(th: Thread, k: nat) {
    EvaluationLogged(th, k + 1) && Ends(th.history, k, Shown(th.state.evaluation.value.options))
  }

  /** An execution of this selection would be justified next. */
  ghost predicate Ready(h: seq<Event>, sel: Selection) {
    Justified(h + [Executed(sel, true)], |h|)
  }

  ghost predicate Safe(th: Thread) {
    AllJustified(th.history) && Tail(th)
  }

  lemma JustifiedGrows(h: seq<Event>, event: Event)
    requires AllJustified(h) && (event.Executed? ==> Ready(h, event.selection))
    ensures AllJustified(h + [event])
  {
    var g := h + [event];
    forall i | 0 <= i < |g| && g[i].Executed? ensures Justified(g, i) {
      if i < |h| {
        assert Justified(h, i);
      } else {
        assert Justified(h + [Executed(event.selection, true)], |h|);
      }
    }
  }

  lemma SafePrepare(th: Thread, effect: Effect, credits: bool)
    requires Safe(th) && (th.pc.Understand? || th.pc.GetReservation? || th.pc.Gather? || th.pc.Evaluate?)
    ensures Safe(Prepare(th, effect, credits))
  {
    var n := Prepare(th, effect, credits);
    if n.history != th.history {
      JustifiedGrows(th.history, n.history[|th.history|]);
    }
  }

  lemma SafeAsk(th: Thread, effect: Effect)
    requires Safe(th) && th.pc.Ask?
    ensures Safe(AskNode(th, effect))
  {
    var n := AskNode(th, effect);
    if n.history != th.history {
      JustifiedGrows(th.history, n.history[|th.history|]);
    }
  }

  /** The segment the validation expects is the one the search used. */
  lemma ExpectedIsSelected(th: Thread, k: nat)
    requires EvaluationLogged(th, k)
    ensures ExpectedSegment(th.state, th.state.evaluation.value) == SelectedSegment(th.state.context.value)
  {
  }

  lemma ReadyToExecute(h: seq<Event>, sel: Selection, options: seq<FareKey>)
    requires Ends(h, 0, Resumed(Answer(true, Some(sel)))) && Ends(h, 1, Shown(options))
    requires Ends(h, 2, Searched(sel.segment, options)) && sel.target in options
    ensures Ready(h + [Validated(sel)], sel)
  {
  }

  lemma SafeValidate(th: Thread, effect: Effect)
    requires Safe(th) && th.pc.ValidateChange?
    ensures Safe(ValidateNode(th, effect))
  {
    var n := ValidateNode(th, effect);
    ExpectedIsSelected(th, 2);
    if n.pc.ExecuteRebooking? {
      var sel := th.state.answer.value.selection.value;
      JustifiedGrows(th.history, Validated(sel));
      ReadyToExecute(th.history, sel, th.state.evaluation.value.options);
    }
  }

  lemma SafeExplain(th: Thread, maxRetries: int)
    requires Safe(th) && th.pc.Explain?
    ensures Safe(ExplainNode(th, maxRetries))
  {
    JustifiedGrows(th.history, Retried);
  }

  lemma SafeExecute(th: Thread, effect: Effect)
    requires Safe(th) && th.pc.ExecuteRebooking?
    ensures Safe(ExecuteNode(th, effect))
  {
    JustifiedGrows(th.history, Executed(th.state.verdict.value.selection.value, effect.Fine?));
  }

  lemma SafeVerify(th: Thread, effect: Effect)
    requires Safe(th) && th.pc.VerifyRebooking?
    ensures Safe(VerifyNode(th, effect))
  {
    JustifiedGrows(th.history, Verified(effect.Fine?));
  }

  lemma SafeConclude(th: Thread, effect: Effect, maxRetries: int)
    requires Safe(th) && Running(th.pc)
    requires !th.pc.Understand? && !th.pc.GetReservation? && !th.pc.Gather? && !th.pc.Evaluate?
    ensures Safe(Conclude(th, effect, maxRetries))
  {
    match th.pc
    case Ask(_) => SafeAsk(th, effect);
    case ValidateChange => SafeValidate(th, effect);
    case Explain => SafeExplain(th, maxRetries);
    case ExecuteRebooking => SafeExecute(th, effect);
    case VerifyRebooking => SafeVerify(th, effect);
    case _ =>
  }

  lemma SafeKilled(th: Thread, paused: bool, called: bool)
    requires Safe(th) && Running(th.pc)
    ensures Safe(Killed(th, paused, called))
  {
    if th.pc.ExecuteRebooking? && CanExecute(th) {
      JustifiedGrows(th.history, Executed(th.state.verdict.value.selection.value, false));
    }
  }

  lemma {:induction false} SafeHistory(maxRetries: int, actions: seq<Action>)
    ensures Safe(History(maxRetries, actions))
  {
    if actions != [] {
      var before, action := actions[..|actions| - 1], actions[|actions| - 1];
      SafeHistory(maxRetries, before);
      var th := History(maxRetries, before);
      if action.Node? && Running(th.pc) {
        if th.pc.Understand? || th.pc.GetReservation? || th.pc.Gather? || th.pc.Evaluate? {
          SafePrepare(th, action.effect, action.credits);
        } else {
          SafeConclude(th, action.effect, maxRetries);
        }
      } else if action.Crash? && Running(th.pc) {
        SafeKilled(th, action.paused, action.called);
      }
    }
  }

  /** In every history of a thread, over any runs, resumes, failures and crashes, each execution is
      preceded by its own confirmed resume with exactly that selection, of an option that was shown
      last, for the segment that the search used, accepted by the validator in that round. */
  lemma ExecutionsAreConfirmed(maxRetries: int, actions: seq<Action>, i: nat)
    requires i < |History(maxRetries, actions).history| && History(maxRetries, actions).history[i].Executed?
    ensures Justified(History(maxRetries, actions).history, i)
  {
    SafeHistory(maxRetries, actions);
  }
}
