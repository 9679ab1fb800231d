/** How runs of the workflow end: they always do, the retries of a thread are counted once for
    its whole life, and the final result says what happened. */
module AgentRuns {
  import opened Prelude
  import opened Workflow

  predicate Early(pc: Pc) {
    pc.Understand? || pc.GetReservation? || pc.Gather? || pc.Evaluate?
  }

  /** How many nodes can still run before the run pauses or ends. */
  function Rank(pc: Pc): nat {
    match pc
    case Understand => 6
    case GetReservation => 5
    case Gather(searched, credited) => if searched || credited then 3 else 4
    case Evaluate => 2
    case Ask(resumed) => if resumed.Some? then 8 else 1
    case ValidateChange => 7
    case Explain => 6
    case Refresh => 5
    case ExecuteRebooking => 3
    case VerifyRebooking => 2
    case FinalizeDeclined => 1
    case FinalizeFailed => 1
    case _ => 0
  }

  lemma RankPrepare(th: Thread, effect: Effect, credits: bool)
    requires Early(th.pc)
    ensures Rank(Prepare(th, effect, credits).pc) < Rank(th.pc)
  {
  }

  lemma RankValidate(th: Thread, effect: Effect)
    ensures Rank(ValidateNode(th, effect).pc) < 7
  {
  }

  lemma RankBooking(th: Thread, effect: Effect)
    ensures Rank(ExecuteNode(th, effect).pc) < 3 && Rank(VerifyNode(th, effect).pc) < 2
  {
  }

  lemma RankAsk(th: Thread, effect: Effect)
    requires th.pc.Ask?
    ensures Rank(AskNode(th, effect).pc) < Rank(th.pc)
  {
  }

  lemma RankConclude(th: Thread, effect: Effect, maxRetries: int)
    requires Running(th.pc) && !Early(th.pc)
    ensures Rank(Conclude(th, effect, maxRetries).pc) < Rank(th.pc)
  {
    match th.pc
    case Ask(_) => RankAsk(th, effect);
    case ValidateChange => RankValidate(th, effect);
    case ExecuteRebooking => RankBooking(th, effect);
    case VerifyRebooking => RankBooking(th, effect);
    case _ =>
  }

  lemma RankFalls(th: Thread, effect: Effect, credits: bool, maxRetries: int)
    requires Running(th.pc)
    ensures Rank(RunNode(th, effect, credits, maxRetries).pc) < Rank(th.pc)
  {
    if Early(th.pc) {
      RankPrepare(th, effect, credits);
    } else {
      RankConclude(th, effect, maxRetries);
    }
  }

  /** The action is the run of one node. */
  predicate OnlyNodes(actions: seq<Action>) {
    forall i | 0 <= i < |actions| :: actions[i].Node?
  }

  /** Every node that runs brings the graph nearer to a rest, so as many as its rank are enough. */
  lemma {:induction false} NodesBringRest(maxRetries: int, actions: seq<Action>, nodes: seq<Action>)
    requires OnlyNodes(nodes) && Rank(History(maxRetries, actions).pc) <= |nodes|
    ensures !Running(History(maxRetries, actions + nodes).pc)
    decreases |nodes|
  {
    if nodes == [] {
      assert actions + nodes == actions;
    } else {
      var first, rest := nodes[0], nodes[1..];
      RankStep(maxRetries, actions, first);
      TakeFirst(actions, nodes);
      NodesBringRest(maxRetries, actions + [first], rest);
    }
  }

  lemma TakeFirst(actions: seq<Action>, nodes: seq<Action>)
    requires nodes != []
    ensures actions + nodes == actions + [nodes[0]] + nodes[1..]
  {
  }

  lemma RankStep(maxRetries: int, actions: seq<Action>, node: Action)
    requires node.Node?
    ensures Rank(History(maxRetries, actions + [node]).pc) <= Max(Rank(History(maxRetries, actions).pc) - 1, 0)
  {
    HistorySnoc(maxRetries, actions, node);
    if Running(History(maxRetries, actions).pc) {
      RankFalls(History(maxRetries, actions), node.effect, node.credits, maxRetries);
    }
  }

  lemma HistorySnoc(maxRetries: int, actions: seq<Action>, action: Action)
    ensures History(maxRetries, actions + [action]) == Next(maxRetries, History(maxRetries, actions), action)
  {
    assert (actions + [action])[..|actions|] == actions;
  }

  function Retries(h: seq<Event>): nat {
    if h == [] then 0 else Retries(h[..|h| - 1]) + if h[|h| - 1].Retried? then 1 else 0
  }

  lemma RetriesAppend(h: seq<Event>, event: Event)
    ensures Retries(h + [event]) == Retries(h) + if event.Retried? then 1 else 0
  {
    assert (h + [event])[..|h|] == h;
  }

  /** The retries taken so far: every invalid selection counts, up to the limit. */
  ghost predicate Spent(th: Thread, maxRetries: int) {
    var limit := Max(maxRetries, 0);
    Retries(th.history) == if th.state.retryCount <= limit then th.state.retryCount else limit
  }

  /** The node neither counts an invalid selection nor goes back to the search. */
  ghost predicate SpendsNothing(th: Thread, n: Thread) {
    n.state.retryCount == th.state.retryCount && Retries(n.history) == Retries(th.history)
  }

  lemma SearchSpendsNothing(th: Thread, effect: Effect)
    requires th.pc.Gather?
    ensures SpendsNothing(th, SearchNode(th, effect))
  {
    if effect.Found? && th.state.context.Some? && SelectedSegment(th.state.context.value).Some? {
      RetriesAppend(th.history, Searched(SelectedSegment(th.state.context.value).value, effect.options));
    }
  }

  lemma PrepareSpendsNothing(th: Thread, effect: Effect, credits: bool)
    requires Early(th.pc)
    ensures SpendsNothing(th, Prepare(th, effect, credits))
  {
    if th.pc.Gather? {
      SearchSpendsNothing(th, effect);
    } else if th.pc.GetReservation? && effect.Reservation? && th.state.wish.Some? {
      RetriesAppend(th.history, Loaded(Context(th.state.wish.value, effect.segments)));
    }
  }

  lemma AskSpendsNothing(th: Thread, effect: Effect)
    requires th.pc.Ask?
    ensures SpendsNothing(th, AskNode(th, effect))
  {
    if th.state.evaluation.Some? {
      RetriesAppend(th.history, Shown(th.state.evaluation.value.options));
    }
    if th.pc.resumed.Some? {
      RetriesAppend(th.history, Resumed(th.pc.resumed.value));
    }
  }

  lemma ValidateSpendsNothing(th: Thread, effect: Effect)
    ensures SpendsNothing(th, ValidateNode(th, effect))
  {
    if th.state.answer.Some? && th.state.answer.value.selection.Some? {
      RetriesAppend(th.history, Validated(th.state.answer.value.selection.value));
    }
  }

  lemma ExecuteSpendsNothing(th: Thread, effect: Effect)
    ensures SpendsNothing(th, ExecuteNode(th, effect)) && SpendsNothing(th, VerifyNode(th, effect))
  {
    if th.state.verdict.Some? && th.state.verdict.value.selection.Some? {
      RetriesAppend(th.history, Executed(th.state.verdict.value.selection.value, effect.Fine?));
      RetriesAppend(th.history, Verified(effect.Fine?));
    }
  }

  lemma KilledSpendsNothing(th: Thread, paused: bool, called: bool)
    ensures SpendsNothing(th, Killed(th, paused, called))
  {
    if CanExecute(th) {
      RetriesAppend(th.history, Executed(th.state.verdict.value.selection.value, false));
    }
  }

  lemma SpentExplain(th: Thread, maxRetries: int)
    requires Spent(th, maxRetries)
    ensures Spent(ExplainNode(th, maxRetries), maxRetries)
  {
    RetriesAppend(th.history, Retried);
  }

  lemma ConcludeSpendsNothing(th: Thread, effect: Effect, maxRetries: int)
    requires Running(th.pc) && !Early(th.pc) && !th.pc.Explain?
    ensures SpendsNothing(th, Conclude(th, effect, maxRetries))
  {
    match th.pc
    case Ask(_) => AskSpendsNothing(th, effect);
    case ValidateChange => ValidateSpendsNothing(th, effect);
    case ExecuteRebooking => ExecuteSpendsNothing(th, effect);
    case VerifyRebooking => ExecuteSpendsNothing(th, effect);
    case _ =>
  }

  lemma SpentNode(th: Thread, effect: Effect, credits: bool, maxRetries: int)
    requires Running(th.pc) && Spent(th, maxRetries)
    ensures Spent(RunNode(th, effect, credits, maxRetries), maxRetries)
  {
    if Early(th.pc) {
      PrepareSpendsNothing(th, effect, credits);
    } else if th.pc.Explain? {
      SpentExplain(th, maxRetries);
    } else {
      ConcludeSpendsNothing(th, effect, maxRetries);
    }
  }

  /** Retries belong to the thread, not to a run: over all its runs and resumes a thread goes back
      to the search at most `max_retries` times, exactly once for each invalid selection until then. */
  lemma {:induction false} RetriesAreBounded(maxRetries: int, actions: seq<Action>)
    ensures var th := History(maxRetries, actions);
            var limit := Max(maxRetries, 0);
            && Retries(th.history) <= limit
            && (Retries(th.history) < limit ==> Retries(th.history) == th.state.retryCount)
    ensures Spent(History(maxRetries, actions), maxRetries)
  {
    if actions != [] {
      var before, action := actions[..|actions| - 1], actions[|actions| - 1];
      RetriesAreBounded(maxRetries, before);
      var th := History(maxRetries, before);
      if action.Node? && Running(th.pc) {
        SpentNode(th, action.effect, action.credits, maxRetries);
      } else if action.Crash? && Running(th.pc) {
        KilledSpendsNothing(th, action.paused, action.called);
      }
    }
  }

  // What the final result says.

  predicate LastIs(th: Thread, event: Event) {
    th.history != [] && th.history[|th.history| - 1] == event
  }

  predicate Refused(th: Thread) {
    th.history != [] && var last := th.history[|th.history| - 1];
    (last.Executed? || last.Verified?) && !last.done
  }

  predicate Answered(th: Thread, confirmed: bool) {
    th.history != [] && var last := th.history[|th.history| - 1];
    last.Resumed? && last.answer.confirmed == confirmed
  }

  predicate Exhausted(th: Thread, maxRetries: int) {
    Answered(th, true) && th.state.retryCount > maxRetries
  }

  /** The final result of an ended run against the last thing that happened. */
  predicate Explained(th: Thread, maxRetries: int) {
    th.finished &&
    match th.state.final
    case None => false
    case Some(Completed) => LastIs(th, Verified(true))
    case Some(Declined) => Answered(th, false)
    case Some(Failed) => Refused(th) || Exhausted(th, maxRetries)
  }

  /** What each position after the pause promises. */
  ghost predicate Accounted(th: Thread, maxRetries: int) {
    match th.pc
    case ValidateChange => th.state.answer.Some? && LastIs(th, Resumed(th.state.answer.value))
    case Explain => Answered(th, true) && th.state.verdict.Some? && !th.state.verdict.value.declined
    case FinalizeDeclined => Answered(th, false)
    case FinalizeFailed => th.finished && th.state.final == Some(Failed) && Refused(th)
    case Ended => Explained(th, maxRetries)
    case _ => true
  }

  lemma AccountedValidate(th: Thread, effect: Effect, maxRetries: int)
    requires th.pc.ValidateChange? && Accounted(th, maxRetries)
    ensures Accounted(ValidateNode(th, effect), maxRetries)
  {
  }

  lemma AccountedBooking(th: Thread, effect: Effect, maxRetries: int)
    ensures Accounted(ExecuteNode(th, effect), maxRetries) && Accounted(VerifyNode(th, effect), maxRetries)
  {
  }

  lemma AccountedExplain(th: Thread, maxRetries: int)
    requires th.pc.Explain? && Accounted(th, maxRetries)
    ensures Accounted(ExplainNode(th, maxRetries), maxRetries)
  {
  }

  lemma AccountedConclude(th: Thread, effect: Effect, maxRetries: int)
    requires Running(th.pc) && !Early(th.pc) && Accounted(th, maxRetries)
    ensures Accounted(Conclude(th, effect, maxRetries), maxRetries)
  {
    match th.pc
    case ValidateChange => AccountedValidate(th, effect, maxRetries);
    case Explain => AccountedExplain(th, maxRetries);
    case ExecuteRebooking => AccountedBooking(th, effect, maxRetries);
    case VerifyRebooking => AccountedBooking(th, effect, maxRetries);
    case _ =>
  }

  lemma {:induction false} AccountedHistory(maxRetries: int, actions: seq<Action>)
    ensures Accounted(History(maxRetries, actions), maxRetries)
  {
    if actions != [] {
      var before, action := actions[..|actions| - 1], actions[|actions| - 1];
      AccountedHistory(maxRetries, before);
      var th := History(maxRetries, before);
      if action.Node? && Running(th.pc) && !Early(th.pc) {
        AccountedConclude(th, action.effect, maxRetries);
      }
    }
  }

  /** A run that reaches its end has written its result itself, and that result is never left
      over from an earlier run: completed if and only if a booking was just verified, declined if
      and only if the user just declined, failed if and only if a call was just refused or an
      invalid selection found no retry left. */
  lemma EndsAreExplained(maxRetries: int, actions: seq<Action>)
    requires History(maxRetries, actions).pc.Ended?
    ensures var th := History(maxRetries, actions);
            && th.finished && th.state.final.Some?
            && (th.state.final == Some(Completed) <==> LastIs(th, Verified(true)))
            && (th.state.final == Some(Declined) <==> Answered(th, false))
            && (th.state.final == Some(Failed) <==> Refused(th) || Exhausted(th, maxRetries))
  {
    AccountedHistory(maxRetries, actions);
    ExplainedBothWays(History(maxRetries, actions), maxRetries);
  }

  /** The explanations exclude each other. */
  lemma ExplainedBothWays(th: Thread, maxRetries: int)
    requires Explained(th, maxRetries)
    ensures th.finished && th.state.final.Some?
    ensures th.state.final == Some(Completed) <==> LastIs(th, Verified(true))
    ensures th.state.final == Some(Declined) <==> Answered(th, false)
    ensures th.state.final == Some(Failed) <==> Refused(th) || Exhausted(th, maxRetries)
  {
  }

  /** Only an exception or a dead worker leaves a run without a result. */
  predicate Tells(th: Thread) {
    (Running(th.pc) || th.pc.Ended? ==> !th.raised) && (th.pc.Stopped? || th.pc.New? ==> th.raised)
  }

  lemma TellsConclude(th: Thread, effect: Effect, maxRetries: int)
    requires Running(th.pc) && !Early(th.pc) && Tells(th)
    ensures Tells(Conclude(th, effect, maxRetries))
  {
  }

  lemma TellsNode(th: Thread, effect: Effect, credits: bool, maxRetries: int)
    requires Running(th.pc) && Tells(th)
    ensures Tells(RunNode(th, effect, credits, maxRetries))
  {
    if !Early(th.pc) {
      TellsConclude(th, effect, maxRetries);
    }
  }

  lemma {:induction false} TellsHistory(maxRetries: int, actions: seq<Action>)
    ensures Tells(History(maxRetries, actions))
  {
    if actions != [] {
      var before, action := actions[..|actions| - 1], actions[|actions| - 1];
      TellsHistory(maxRetries, before);
      var th := History(maxRetries, before);
      if action.Node? && Running(th.pc) {
        TellsNode(th, action.effect, action.credits, maxRetries);
      }
    }
  }
}
