/** Where the nodes of the workflow lead: which segment is searched, what makes a node raise, which
    answers are invalid, and what becomes of them. */
module Routing {
  import opened Prelude
  import opened Workflow
  import opened AgentRuns

  // The segment that is searched.

  /** The reservation that was loaded last, with the wish it was loaded for. */
  function LastLoaded(h: seq<Event>): Option<Context> {
    if h == [] then None
    else if h[|h| - 1].Loaded? then Some(h[|h| - 1].context)
    else LastLoaded(h[..|h| - 1])
  }

  /** The window is given and ordered, and the segment is the requested one, which the reservation
      has, or the only one of the reservation when none is requested. */
  predicate Searchable(context: Context, segment: Id) {
    && context.wish.window.Some? && context.wish.window.value.0 <= context.wish.window.value.1
    && match context.wish.segment
       case Some(s) => segment == s && s in context.segments
       case None => context.segments == [segment]
  }

  /** Every search is for a segment of the reservation that was loaded last. */
  ghost predicate SearchesFit(h: seq<Event>) {
    forall i | 0 <= i < |h| && h[i].Searched? :: SearchFits(h, i)
  }

  ghost predicate SearchFits(h: seq<Event>, i: nat)
    requires i < |h| && h[i].Searched?
  {
    LastLoaded(h[..i]).Some? && Searchable(LastLoaded(h[..i]).value, h[i].segment)
  }

  ghost predicate Loads(th: Thread) {
    th.state.context == LastLoaded(th.history) && SearchesFit(th.history)
  }

  lemma LastLoadedAppend(h: seq<Event>, event: Event)
    ensures LastLoaded(h + [event]) == if event.Loaded? then Some(event.context) else LastLoaded(h)
  {
    assert (h + [event])[..|h|] == h;
  }

  lemma SearchesFitAppend(h: seq<Event>, event: Event)
    requires SearchesFit(h)
    requires event.Searched? ==> LastLoaded(h).Some? && Searchable(LastLoaded(h).value, event.segment)
    ensures SearchesFit(h + [event])
  {
    var g := h + [event];
    forall i | 0 <= i < |g| && g[i].Searched? ensures SearchFits(g, i) {
      if i < |h| {
        assert SearchFits(h, i);
        assert g[..i] == h[..i];
      } else {
        assert g[..i] == h;
      }
    }
  }

  lemma LoadsGrow(th: Thread, n: Thread, event: Event)
    requires Loads(th) && n.history == th.history + [event]
    requires if event.Loaded? then n.state.context == Some(event.context) else n.state.context == th.state.context
    requires event.Searched? ==> th.state.context.Some? && Searchable(th.state.context.value, event.segment)
    ensures Loads(n)
  {
    LastLoadedAppend(th.history, event);
    SearchesFitAppend(th.history, event);
  }

  /** The search node goes on if and only if the airline answers, the window is given and ordered, and
      the requested segment is one of the reservation, or none is requested and it has exactly one. */
  lemma SearchGoesOn(th: Thread, effect: Effect)
    requires th.pc.Gather? && th.state.context.Some?
    ensures var n, context := SearchNode(th, effect), th.state.context.value;
            && (n.raised == th.raised && !n.pc.Stopped? <==>
                  && effect.Found? && context.wish.window.Some?
                  && context.wish.window.value.0 <= context.wish.window.value.1
                  && (if context.wish.segment.Some? then context.wish.segment.value in context.segments
                      else |context.segments| == 1))
            && (!n.pc.Stopped? ==>
                  && n.history == th.history + [Searched(n.history[|th.history|].segment, effect.options)]
                  && Searchable(context, n.history[|th.history|].segment)
                  && n.state == th.state.(options := Some(effect.options)))
            && (n.pc.Stopped? ==> n == Stop(th))
  {
  }

  lemma LoadsPrepare(th: Thread, effect: Effect, credits: bool)
    requires Early(th.pc) && Loads(th) && (th.pc.Gather? ==> th.state.context.Some?)
    ensures Loads(Prepare(th, effect, credits))
  {
    var n := Prepare(th, effect, credits);
    if th.pc.Gather? {
      SearchGoesOn(th, effect);
    }
    if n.history != th.history {
      LoadsGrow(th, n, n.history[|th.history|]);
    }
  }

  /** The node leaves the reservation alone and logs at most one event, which is no search. */
  predicate Quiet(th: Thread, n: Thread) {
    && n.state.context == th.state.context
    && (n.history == th.history
        || (|n.history| == |th.history| + 1 && n.history[..|th.history|] == th.history
            && !n.history[|th.history|].Loaded? && !n.history[|th.history|].Searched?))
  }

  lemma ValidateIsQuiet(th: Thread, effect: Effect)
    ensures Quiet(th, ValidateNode(th, effect))
  {
  }

  lemma BookingIsQuiet(th: Thread, effect: Effect, paused: bool, called: bool)
    ensures Quiet(th, ExecuteNode(th, effect)) && Quiet(th, VerifyNode(th, effect))
    ensures Quiet(th, Killed(th, paused, called))
  {
  }

  lemma TalkIsQuiet(th: Thread, effect: Effect, maxRetries: int)
    ensures th.pc.Ask? ==> Quiet(th, AskNode(th, effect))
    ensures Quiet(th, ExplainNode(th, maxRetries))
  {
  }

  lemma ConcludeIsQuiet(th: Thread, effect: Effect, maxRetries: int)
    requires Running(th.pc) && !Early(th.pc)
    ensures Quiet(th, Conclude(th, effect, maxRetries))
  {
    match th.pc
    case Ask(_) => TalkIsQuiet(th, effect, maxRetries);
    case ValidateChange => ValidateIsQuiet(th, effect);
    case Explain => TalkIsQuiet(th, effect, maxRetries);
    case ExecuteRebooking => BookingIsQuiet(th, effect, false, false);
    case VerifyRebooking => BookingIsQuiet(th, effect, false, false);
    case _ =>
  }

  lemma LoadsQuietly(th: Thread, n: Thread)
    requires Loads(th) && Quiet(th, n)
    ensures Loads(n)
  {
    if n.history != th.history {
      assert n.history == th.history + [n.history[|th.history|]];
      LoadsGrow(th, n, n.history[|th.history|]);
    }
  }

  lemma {:induction false} LoadsHistory(maxRetries: int, actions: seq<Action>)
    ensures Loads(History(maxRetries, actions))
  {
    if actions != [] {
      var before, action := actions[..|actions| - 1], actions[|actions| - 1];
      LoadsHistory(maxRetries, before);
      SafeHistory(maxRetries, before);
      LoadsAction(maxRetries, History(maxRetries, before), action);
    }
  }

  lemma LoadsAction(maxRetries: int, th: Thread, action: Action)
    requires Loads(th) && Tail(th)
    ensures Loads(Workflow.Next(maxRetries, th, action))
  {
    if Running(th.pc) && action.Node? {
      if Early(th.pc) {
        LoadsPrepare(th, action.effect, action.credits);
      } else {
        ConcludeIsQuiet(th, action.effect, maxRetries);
        LoadsQuietly(th, Conclude(th, action.effect, maxRetries));
      }
    } else if Running(th.pc) && action.Crash? {
      BookingIsQuiet(th, Fine, action.paused, action.called);
      LoadsQuietly(th, Killed(th, action.paused, action.called));
    }
  }

  /** In every history of a thread, each search is for a segment of the reservation that was loaded
      last: the requested one, or its only one. */
  lemma SearchesAreForTheReservation(maxRetries: int, actions: seq<Action>, i: nat)
    requires i < |History(maxRetries, actions).history| && History(maxRetries, actions).history[i].Searched?
    ensures var h := History(maxRetries, actions).history;
            LastLoaded(h[..i]).Some? && Searchable(LastLoaded(h[..i]).value, h[i].segment)
  {
    LoadsHistory(maxRetries, actions);
    assert SearchFits(History(maxRetries, actions).history, i);
  }

  lemma NotLoadedSince(h: seq<Event>, i: nat, n: nat)
    requires i <= n <= |h| && forall k | i <= k < n :: !h[k].Loaded?
    ensures LastLoaded(h[..n]) == LastLoaded(h[..i])
    decreases n
  {
    if i < n {
      NotLoadedSince(h, i, n - 1);
      assert h[..n][..n - 1] == h[..n - 1];
    }
  }

  /** Nothing is ever booked but a segment of the reservation that was loaded last. */
  lemma ExecutionsAreForTheReservation(maxRetries: int, actions: seq<Action>, i: nat)
    requires i < |History(maxRetries, actions).history| && History(maxRetries, actions).history[i].Executed?
    ensures var h := History(maxRetries, actions).history;
            LastLoaded(h[..i]).Some? && Searchable(LastLoaded(h[..i]).value, h[i].selection.segment)
  {
    ExecutionsAreConfirmed(maxRetries, actions, i);
    LoadsHistory(maxRetries, actions);
    BlockFits(History(maxRetries, actions).history, i);
  }

  lemma BlockFits(h: seq<Event>, i: nat)
    requires i < |h| && h[i].Executed? && Justified(h, i) && SearchesFit(h)
    ensures LastLoaded(h[..i]).Some? && Searchable(LastLoaded(h[..i]).value, h[i].selection.segment)
  {
    assert SearchFits(h, i - 4);
    NotLoadedSince(h, i - 4, i);
  }

  // What makes a node raise.

  /** The channels that the node at this point needs are there. */
  ghost predicate Stocked(th: Thread) {
    match th.pc
    case GetReservation => th.state.wish.Some?
    case Gather(_, credited) => credited ==> th.state.credits
    case Evaluate => th.state.credits
    case Explain => th.state.verdict.Some? && !th.state.verdict.value.declined
    case ExecuteRebooking => CanExecute(th)
    case VerifyRebooking => th.state.verdict.Some? && th.state.verdict.value.selection.Some? && th.state.executed
    case _ => true
  }

  lemma StockedValidate(th: Thread, effect: Effect)
    ensures Stocked(ValidateNode(th, effect))
  {
  }

  lemma StockedPrepare(th: Thread, effect: Effect, credits: bool)
    requires Early(th.pc) && Stocked(th)
    ensures Stocked(Prepare(th, effect, credits))
  {
  }

  lemma StockedBooking(th: Thread, effect: Effect)
    ensures th.pc.ExecuteRebooking? ==> Stocked(ExecuteNode(th, effect))
    ensures th.pc.VerifyRebooking? ==> Stocked(VerifyNode(th, effect))
  {
  }

  lemma StockedConclude(th: Thread, effect: Effect, maxRetries: int)
    requires Running(th.pc) && !Early(th.pc) && Stocked(th)
    ensures Stocked(Conclude(th, effect, maxRetries))
  {
    match th.pc
    case ValidateChange => StockedValidate(th, effect);
    case ExecuteRebooking => StockedBooking(th, effect);
    case VerifyRebooking => StockedBooking(th, effect);
    case _ =>
  }

  lemma StockedNode(th: Thread, effect: Effect, credits: bool, maxRetries: int)
    requires Running(th.pc) && Stocked(th)
    ensures Stocked(RunNode(th, effect, credits, maxRetries))
  {
    if Early(th.pc) {
      StockedPrepare(th, effect, credits);
    } else {
      StockedConclude(th, effect, maxRetries);
    }
  }

  lemma {:induction false} StockedHistory(maxRetries: int, actions: seq<Action>)
    ensures Stocked(History(maxRetries, actions))
  {
    if actions != [] {
      var before, action := actions[..|actions| - 1], actions[|actions| - 1];
      StockedHistory(maxRetries, before);
      var th := History(maxRetries, before);
      if action.Node? && Running(th.pc) {
        StockedNode(th, action.effect, action.credits, maxRetries);
      }
    }
  }

  /** The answer names the segment that was searched and one of the options that were shown. */
  predicate Right(h: seq<Event>, sel: Selection) {
    && |h| >= 3 && h[|h| - 2].Shown? && h[|h| - 3].Searched?
    && sel.segment == h[|h| - 3].segment && sel.target in h[|h| - 2].options
  }

  /** What makes the next node raise: the call it makes, a segment or window that does not fit, or a
      confirmation without a selection. */
  predicate Fails(th: Thread, effect: Effect, credits: bool) {
    match th.pc
    case Understand => !effect.Understood?
    case GetReservation => !effect.Reservation? || effect.segments == []
    case Gather(searched, credited) =>
      if (credits && !credited) || searched then !effect.Fine?
      else !effect.Found? || LastLoaded(th.history).None?
           || forall s | s in LastLoaded(th.history).value.segments :: !Searchable(LastLoaded(th.history).value, s)
    case Evaluate => !effect.Fine?
    case Ask(resumed) => resumed.Some? && !effect.Fine?
    case ValidateChange =>
      && th.history != [] && th.history[|th.history| - 1].Resumed?
      && var answer := th.history[|th.history| - 1].answer;
         && answer.confirmed
         && (answer.selection.None? || (Right(th.history, answer.selection.value) && !effect.Fine? && !effect.Rejects?))
    case _ => false
  }

  lemma RightIsExpected(th: Thread, sel: Selection)
    requires th.pc.ValidateChange? && Tail(th)
    ensures Right(th.history, sel) <==>
            && ExpectedSegment(th.state, th.state.evaluation.value) == Some(sel.segment)
            && sel.target in th.state.evaluation.value.options
  {
    ExpectedIsSelected(th, 2);
  }

  lemma PrepareFails(th: Thread, effect: Effect, credits: bool)
    requires Early(th.pc) && Tail(th) && Stocked(th) && Loads(th) && !th.raised
    ensures Prepare(th, effect, credits).raised <==> Fails(th, effect, credits)
  {
    if th.pc.Gather? {
      SearchGoesOn(th, effect);
      assert th.state.context.value.wish.segment.None? && |th.state.context.value.segments| == 1 ==>
               th.state.context.value.segments[0] in th.state.context.value.segments;
    }
  }

  lemma ValidateFails(th: Thread, effect: Effect)
    requires th.pc.ValidateChange? && Tail(th) && !th.raised
    ensures ValidateNode(th, effect).raised <==> Fails(th, effect, false)
  {
    if th.state.answer.value.selection.Some? {
      RightIsExpected(th, th.state.answer.value.selection.value);
    }
  }

  lemma ConcludeFails(th: Thread, effect: Effect, maxRetries: int)
    requires Running(th.pc) && !Early(th.pc) && Tail(th) && Stocked(th) && !th.raised
    ensures Conclude(th, effect, maxRetries).raised <==> Fails(th, effect, false)
  {
    match th.pc
    case ValidateChange => ValidateFails(th, effect);
    case _ =>
  }

  /** In every reachable thread the next node raises if and only if its call fails, a segment or a
      window does not fit, or a confirmation has no selection; never for want of a channel. */
  lemma NodesRaiseForTheirCalls(maxRetries: int, actions: seq<Action>, effect: Effect, credits: bool)
    requires Running(History(maxRetries, actions).pc)
    ensures var th := History(maxRetries, actions);
            History(maxRetries, actions + [Node(effect, credits)]).raised <==> Fails(th, effect, credits)
  {
    SafeHistory(maxRetries, actions);
    StockedHistory(maxRetries, actions);
    LoadsHistory(maxRetries, actions);
    TellsHistory(maxRetries, actions);
    HistorySnoc(maxRetries, actions, Node(effect, credits));
    var th := History(maxRetries, actions);
    if Early(th.pc) {
      PrepareFails(th, effect, credits);
    } else {
      ConcludeFails(th, effect, maxRetries);
    }
  }

  /** The edges of the graph. */
  predicate Edge(a: Pc, b: Pc) {
    match a
    case Understand => b == GetReservation
    case GetReservation => b == Gather(false, false)
    case Gather(searched, credited) =>
      if searched || credited then b == Evaluate else b == Gather(true, false) || b == Gather(false, true)
    case Evaluate => b == Ask(None)
    case Ask(resumed) => if resumed.Some? then b == ValidateChange else b == Paused
    case ValidateChange => b == ExecuteRebooking || b == FinalizeDeclined || b == Explain
    case Explain => b == Refresh || b == Ended
    case Refresh => b == Gather(false, false)
    case ExecuteRebooking => b == VerifyRebooking || b == FinalizeFailed
    case VerifyRebooking => b == Ended || b == FinalizeFailed
    case FinalizeDeclined => b == Ended
    case FinalizeFailed => b == Ended
    case _ => false
  }

  ghost predicate Apart(th: Thread) {
    th.pc.Gather? ==> !(th.pc.searched && th.pc.credited)
  }

  lemma EdgePrepare(th: Thread, effect: Effect, credits: bool)
    requires Early(th.pc) && Apart(th)
    ensures var n := Prepare(th, effect, credits); Apart(n) && (n.raised || Edge(th.pc, n.pc))
  {
  }

  lemma EdgeConclude(th: Thread, effect: Effect, maxRetries: int)
    requires Running(th.pc) && !Early(th.pc) && Stocked(th)
    ensures var n := Conclude(th, effect, maxRetries); Apart(n) && (n.raised || Edge(th.pc, n.pc))
  {
    match th.pc
    case ValidateChange => EdgeValidate(th, effect);
    case _ =>
  }

  lemma EdgeNode(th: Thread, effect: Effect, credits: bool, maxRetries: int)
    requires Running(th.pc) && Stocked(th) && Apart(th)
    ensures var n := RunNode(th, effect, credits, maxRetries); Apart(n) && (n.raised || Edge(th.pc, n.pc))
  {
    if Early(th.pc) {
      EdgePrepare(th, effect, credits);
    } else {
      EdgeConclude(th, effect, maxRetries);
    }
  }

  lemma EdgeValidate(th: Thread, effect: Effect)
    requires th.pc.ValidateChange?
    ensures ValidateNode(th, effect).raised || Edge(ValidateChange, ValidateNode(th, effect).pc)
    ensures Apart(ValidateNode(th, effect))
  {
  }

  lemma {:induction false} ApartHistory(maxRetries: int, actions: seq<Action>)
    ensures Apart(History(maxRetries, actions))
  {
    if actions != [] {
      var before, action := actions[..|actions| - 1], actions[|actions| - 1];
      ApartHistory(maxRetries, before);
      StockedHistory(maxRetries, before);
      var th := History(maxRetries, before);
      if action.Node? && Running(th.pc) {
        EdgeNode(th, action.effect, action.credits, maxRetries);
      }
    }
  }

  /** In every reachable thread a node that does not raise takes an edge of the graph: both branches of
      the fan-out run, in either order, before the evaluation, and the retry leads back to both. */
  lemma NodesTakeEdges(maxRetries: int, actions: seq<Action>, effect: Effect, credits: bool)
    requires Running(History(maxRetries, actions).pc)
    ensures var th, n := History(maxRetries, actions), History(maxRetries, actions + [Node(effect, credits)]);
            n.raised || Edge(th.pc, n.pc)
  {
    ApartHistory(maxRetries, actions);
    StockedHistory(maxRetries, actions);
    TellsHistory(maxRetries, actions);
    HistorySnoc(maxRetries, actions, Node(effect, credits));
    EdgeNode(History(maxRetries, actions), effect, credits, maxRetries);
  }

  // What becomes of an answer.

  /** Where an answer leads. */
  predicate Routed(th: Thread, n: Thread, answer: Answer, effect: Effect) {
    && (n.pc.FinalizeDeclined? <==> !answer.confirmed)
    && (n.pc.Stopped? <==>
          && answer.confirmed
          && (|| answer.selection.None?
              || (Right(th.history, answer.selection.value) && !effect.Fine? && !effect.Rejects?)))
    && (n.pc.ExecuteRebooking? <==>
          answer.confirmed && answer.selection.Some? && Right(th.history, answer.selection.value) && effect.Fine?)
    && (n.pc.Explain? <==>
          answer.confirmed && answer.selection.Some? && (!Right(th.history, answer.selection.value) || effect.Rejects?))
    && n.state.retryCount == th.state.retryCount
  }

  lemma ValidateRoutes(th: Thread, effect: Effect)
    requires th.pc.ValidateChange? && Tail(th)
    ensures th.state.answer.Some? && Routed(th, ValidateNode(th, effect), th.state.answer.value, effect)
  {
    if th.state.answer.value.selection.Some? {
      RightIsExpected(th, th.state.answer.value.selection.value);
    }
  }

  /** In every reachable thread that has just been answered: a refusal is declined, a right selection
      that the validator accepts is executed, and a selection of another segment, of an option that was
      not shown, or one that the validator rejects is explained as invalid. */
  lemma AnswersAreRouted(maxRetries: int, actions: seq<Action>, effect: Effect, credits: bool)
    requires History(maxRetries, actions).pc.ValidateChange?
    ensures var th, n := History(maxRetries, actions), History(maxRetries, actions + [Node(effect, credits)]);
            && |th.history| >= 3 && th.history[|th.history| - 1].Resumed?
            && th.history[|th.history| - 2].Shown? && th.history[|th.history| - 3].Searched?
            && Routed(th, n, th.history[|th.history| - 1].answer, effect)
  {
    SafeHistory(maxRetries, actions);
    HistorySnoc(maxRetries, actions, Node(effect, credits));
    ValidateRoutes(History(maxRetries, actions), effect);
  }

  lemma ExplainCounts(th: Thread, maxRetries: int)
    requires th.pc.Explain? && Stocked(th)
    ensures var n := ExplainNode(th, maxRetries);
            && n.state.retryCount == th.state.retryCount + 1
            && (if th.state.retryCount + 1 > maxRetries
                then n.pc.Ended? && n.state.final == Some(Failed) && n.finished && n.history == th.history
                else n.pc.Refresh? && n.history == th.history + [Retried])
  {
  }

  /** Every invalid selection counts: two nodes later the counter is one higher, and the thread is about
      to search again, or has ended failed when no retry is left. */
  lemma InvalidSelectionsAreCounted(maxRetries: int, actions: seq<Action>,
                                    effect: Effect, a: bool, other: Effect, b: bool)
    requires var th := History(maxRetries, actions);
             && th.pc.ValidateChange? && th.state.answer.Some?
             && var answer := th.state.answer.value;
                && answer.confirmed && answer.selection.Some?
                && (!Right(th.history, answer.selection.value) || effect.Rejects?)
    ensures var th := History(maxRetries, actions);
            var n := History(maxRetries, actions + [Node(effect, a)] + [Node(other, b)]);
            && n.state.retryCount == th.state.retryCount + 1
            && (if th.state.retryCount + 1 > maxRetries then n.pc.Ended? && n.state.final == Some(Failed)
                else n.pc.Refresh? && LastIs(n, Retried))
  {
    SafeHistory(maxRetries, actions);
    HistorySnoc(maxRetries, actions, Node(effect, a));
    ValidateRoutes(History(maxRetries, actions), effect);
    var before := actions + [Node(effect, a)];
    StockedHistory(maxRetries, before);
    HistorySnoc(maxRetries, before, Node(other, b));
    ExplainCounts(History(maxRetries, before), maxRetries);
  }

  /** A retry opens the fan-out again, with neither branch done and the reservation still at hand. */
  lemma RetriesSearchAgain(maxRetries: int, actions: seq<Action>, effect: Effect, credits: bool)
    requires History(maxRetries, actions).pc.Refresh?
    ensures var th, n := History(maxRetries, actions), History(maxRetries, actions + [Node(effect, credits)]);
            n == th.(pc := Gather(false, false)) && n.state.context.Some?
  {
    SafeHistory(maxRetries, actions);
    HistorySnoc(maxRetries, actions, Node(effect, credits));
  }
}
