/** The workflow together with the tables it books in: what an executed, a verified and a failed
    run say about the database, among any traffic of other transactions. */
module BookedRuns {
  import opened Prelude
  import opened Airline
  import opened Workflow
  import opened AgentRuns
  import Invocations
  import JobOutcome
  import Jobs = JobProtocol

  // What the history of a thread says about its booking.

  /** Every verification follows an execution that was carried out. */
  ghost predicate VerifiedFollows(h: seq<Event>) {
    forall i | 0 <= i < |h| && h[i].Verified? :: i > 0 && h[i - 1].Executed? && h[i - 1].done
  }

  /** Every answer follows the options it was given to, and those the search that found them. */
  ghost predicate ResumedFollows(h: seq<Event>) {
    forall i | 0 <= i < |h| && h[i].Resumed? :: i > 1 && h[i - 1].Shown? && h[i - 2].Searched?
  }

  ghost predicate Booked(th: Thread) {
    && VerifiedFollows(th.history) && ResumedFollows(th.history)
    && (th.pc.VerifyRebooking? ==>
          && th.state.executed && th.state.verdict.Some? && th.state.verdict.value.selection.Some?
          && LastIs(th, Executed(th.state.verdict.value.selection.value, true)))
    && (th.pc.ExecuteRebooking? ==> CanExecute(th))
  }

  /** The event may come next. */
  ghost predicate Comes(h: seq<Event>, event: Event) {
    && (event.Verified? ==> |h| > 0 && h[|h| - 1].Executed? && h[|h| - 1].done)
    && (event.Resumed? ==> |h| > 1 && h[|h| - 1].Shown? && h[|h| - 2].Searched?)
  }

  lemma FollowsGrow(h: seq<Event>, event: Event)
    requires VerifiedFollows(h) && ResumedFollows(h) && Comes(h, event)
    ensures VerifiedFollows(h + [event]) && ResumedFollows(h + [event])
  {
  }

  lemma BookedSearch(th: Thread, effect: Effect)
    requires th.pc.Gather? && Booked(th)
    ensures Booked(SearchNode(th, effect))
  {
    var n := SearchNode(th, effect);
    if n.history != th.history {
      FollowsGrow(th.history, n.history[|th.history|]);
    }
  }

  lemma BookedPrepare(th: Thread, effect: Effect, credits: bool)
    requires Early(th.pc) && Booked(th)
    ensures Booked(Prepare(th, effect, credits))
  {
    if th.pc.Gather? {
      BookedSearch(th, effect);
    } else if th.pc.GetReservation? && effect.Reservation? && th.state.wish.Some? {
      FollowsGrow(th.history, Loaded(Context(th.state.wish.value, effect.segments)));
    }
  }

  lemma BookedAsk(th: Thread, effect: Effect)
    requires th.pc.Ask? && Booked(th) && Tail(th)
    ensures Booked(AskNode(th, effect))
  {
    var n := AskNode(th, effect);
    if n.history != th.history {
      FollowsGrow(th.history, n.history[|th.history|]);
    }
  }

  lemma BookedValidate(th: Thread, effect: Effect)
    requires th.pc.ValidateChange? && Booked(th)
    ensures Booked(ValidateNode(th, effect))
  {
    var n := ValidateNode(th, effect);
    if n.history != th.history {
      FollowsGrow(th.history, n.history[|th.history|]);
    }
  }

  lemma BookedExplain(th: Thread, maxRetries: int)
    requires th.pc.Explain? && Booked(th)
    ensures Booked(ExplainNode(th, maxRetries))
  {
    var n := ExplainNode(th, maxRetries);
    if n.history != th.history {
      FollowsGrow(th.history, n.history[|th.history|]);
    }
  }

  lemma BookedExecute(th: Thread, effect: Effect)
    requires th.pc.ExecuteRebooking? && Booked(th)
    ensures Booked(ExecuteNode(th, effect))
  {
  }

  lemma BookedVerify(th: Thread, effect: Effect)
    requires th.pc.VerifyRebooking? && Booked(th)
    ensures Booked(VerifyNode(th, effect))
  {
  }

  lemma BookedConclude(th: Thread, effect: Effect, maxRetries: int)
    requires Running(th.pc) && !Early(th.pc) && Booked(th) && Tail(th)
    ensures Booked(Conclude(th, effect, maxRetries))
  {
    match th.pc
    case Ask(_) => BookedAsk(th, effect);
    case ValidateChange => BookedValidate(th, effect);
    case Explain => BookedExplain(th, maxRetries);
    case ExecuteRebooking => BookedExecute(th, effect);
    case VerifyRebooking => BookedVerify(th, effect);
    case _ =>
  }

  lemma BookedKilled(th: Thread, paused: bool, called: bool)
    requires Running(th.pc) && Booked(th)
    ensures Booked(Killed(th, paused, called))
  {
    if CanExecute(th) {
      FollowsGrow(th.history, Executed(th.state.verdict.value.selection.value, false));
    }
  }

  lemma {:induction false} BookedHistory(maxRetries: int, actions: seq<Action>)
    ensures Booked(History(maxRetries, actions))
  {
    if actions != [] {
      var before, action := actions[..|actions| - 1], actions[|actions| - 1];
      BookedHistory(maxRetries, before);
      SafeHistory(maxRetries, before);
      var th := History(maxRetries, before);
      if action.Node? && Running(th.pc) {
        if Early(th.pc) {
          BookedPrepare(th, action.effect, action.credits);
        } else {
          BookedConclude(th, action.effect, maxRetries);
        }
      } else if action.Crash? && Running(th.pc) {
        BookedKilled(th, action.paused, action.called);
      }
    }
  }

  // The tables.

  /** Whose transaction it was, and whether its caller learned of the commit. */
  datatype Kind = Foreign | Own | Lost

  /** A transaction that was carried out; `at` is the place of its call in the thread's history. */
  datatype Entry = Entry(request: Request, kind: Kind, at: nat)

  datatype World = World(thread: Thread, db: Db, booked: seq<Entry>)

  /** How the call of the booking node reaches the database: not at all, with an answer, with a
      commit whose answer is lost, or with a commit after which the worker dies inside the node. */
  datatype Reach = Unreached | Answered | CommitLost | Died

  datatype Step =
    | Other(request: Request)
    | Agent(action: Action)
    | Book(now: int, reach: Reach)
    | ReadBack(reached: bool)

  predicate HasSelection(th: Thread) {
    th.state.verdict.Some? && th.state.verdict.value.selection.Some?
  }

  function SelectionOf(th: Thread): Selection
    requires HasSelection(th)
  {
    th.state.verdict.value.selection.value
  }

  /** What the step does to the thread, if anything; the tables answer its booking and its
      verifying node. */
  ghost function ActionOf(w: World, step: Step): Option<Action>
    requires Schema(w.db)
  {
    var th := w.thread;
    match step
    case Other(_) => None
    case Agent(action) =>
      if action.Node? && (th.pc.ExecuteRebooking? || th.pc.VerifyRebooking?) then None else Some(action)
    case Book(now, reach) =>
      if !th.pc.ExecuteRebooking? || !HasSelection(th) then None
      else if reach.Died? then Some(Crash(false, true))
      else Some(Node(if reach.Answered? && Accepts(w.db, SelectionOf(th), now) then Fine else Raises, false))
    case ReadBack(reached) =>
      if !th.pc.VerifyRebooking? || !HasSelection(th) then None
      else Some(Node(if reached && Airline.Verified(w.db, SelectionOf(th)) then Fine else Raises, false))
  }

  /** The transaction that the step carries out, if any. */
  ghost function EntryOf(w: World, step: Step): Option<Entry>
    requires Schema(w.db)
  {
    var th := w.thread;
    match step
    case Other(r) => Some(Entry(r, Foreign, 0))
    case Book(now, reach) =>
      if th.pc.ExecuteRebooking? && HasSelection(th) && !reach.Unreached? && Accepts(w.db, SelectionOf(th), now) then
        Some(Entry(Request(SelectionOf(th), now), if reach.Answered? then Own else Lost, |th.history|))
      else None
    case _ => None
  }

  ghost function Proceed(maxRetries: int, w: World, step: Step): World
    requires Schema(w.db)
  {
    var action, entry := ActionOf(w, step), EntryOf(w, step);
    World(if action.Some? then Workflow.Next(maxRetries, w.thread, action.value) else w.thread,
          if entry.Some? then Execute(w.db, entry.value.request) else w.db,
          if entry.Some? then w.booked + [entry.value] else w.booked)
  }

  ghost function Runs(maxRetries: int, db: Db, steps: seq<Step>): (w: World)
    requires Schema(db)
    ensures Schema(w.db)
  {
    if steps == [] then World(Start, db, [])
    else
      var before, step := Runs(maxRetries, db, steps[..|steps| - 1]), steps[|steps| - 1];
      StepKeepsSchema(maxRetries, before, step);
      Proceed(maxRetries, before, step)
  }

  lemma StepKeepsSchema(maxRetries: int, w: World, step: Step)
    requires Schema(w.db)
    ensures Schema(Proceed(maxRetries, w, step).db)
  {
    if EntryOf(w, step).Some? {
      ExecuteKeepsSchema(w.db, EntryOf(w, step).value.request);
    }
  }

  function Requests(booked: seq<Entry>): seq<Request> {
    if booked == [] then [] else Requests(booked[..|booked| - 1]) + [booked[|booked| - 1].request]
  }

  lemma RequestsAppend(booked: seq<Entry>, e: Entry)
    ensures Requests(booked + [e]) == Requests(booked) + [e.request]
  {
    assert (booked + [e])[..|booked|] == booked;
  }

  /** The history goes on from h to n, and no execution in between was learned of. */
  ghost predicate Grows(h: seq<Event>, n: seq<Event>) {
    h <= n && forall i | |h| <= i < |n| :: !(n[i].Executed? && n[i].done)
  }

  lemma PrepareGrows(th: Thread, effect: Effect, credits: bool)
    requires Early(th.pc)
    ensures Grows(th.history, Prepare(th, effect, credits).history)
  {
  }

  lemma AskGrows(th: Thread, effect: Effect)
    requires th.pc.Ask?
    ensures Grows(th.history, AskNode(th, effect).history)
  {
  }

  lemma ValidateGrows(th: Thread, effect: Effect)
    ensures Grows(th.history, ValidateNode(th, effect).history)
  {
  }

  lemma ConcludeGrows(th: Thread, effect: Effect, maxRetries: int)
    requires Running(th.pc) && !Early(th.pc) && !th.pc.ExecuteRebooking?
    ensures Grows(th.history, Conclude(th, effect, maxRetries).history)
  {
    match th.pc
    case Ask(_) => AskGrows(th, effect);
    case ValidateChange => ValidateGrows(th, effect);
    case _ =>
  }

  lemma OthersGrow(maxRetries: int, th: Thread, action: Action)
    requires !(action.Node? && th.pc.ExecuteRebooking?)
    ensures Grows(th.history, Workflow.Next(maxRetries, th, action).history)
  {
    if action.Node? && Running(th.pc) {
      if Early(th.pc) {
        PrepareGrows(th, action.effect, action.credits);
      } else {
        ConcludeGrows(th, action.effect, maxRetries);
      }
    }
  }

  /** However it is reached, the booking node logs its call, as done if it was answered. */
  lemma BookLogs(maxRetries: int, w: World, now: int, reach: Reach)
    requires Schema(w.db) && w.thread.pc.ExecuteRebooking? && Booked(w.thread)
    ensures var done := reach.Answered? && Accepts(w.db, SelectionOf(w.thread), now);
            Proceed(maxRetries, w, Book(now, reach)).thread.history ==
            w.thread.history + [Executed(SelectionOf(w.thread), done)]
  {
  }

  /** The entry is a transaction of the thread, and its call stands in the history, as done exactly
      when the thread learned of the commit. */
  ghost predicate Called(e: Entry, h: seq<Event>) {
    e.at < |h| && h[e.at] == Executed(e.request.selection, e.kind.Own?)
  }

  ghost predicate HasEntry(booked: seq<Entry>, i: nat) {
    exists e :: e in booked && e.kind.Own? && e.at == i
  }

  /** The tables are those of the transactions carried out; each one of the thread has its own call
      in the history, and each call that the history shows as done has its transaction. */
  ghost predicate Agrees(w: World, db: Db)
    requires Schema(db)
  {
    var h := w.thread.history;
    && w.db == ExecuteAll(db, Requests(w.booked))
    && (forall e | e in w.booked && !e.kind.Foreign? :: Called(e, h))
    && (forall i | 0 <= i < |h| && h[i].Executed? && h[i].done :: HasEntry(w.booked, i))
    && (forall a, b | 0 <= a < b < |w.booked| && !w.booked[a].kind.Foreign? && !w.booked[b].kind.Foreign? ::
          w.booked[a].at < w.booked[b].at)
  }

  lemma AgreesGrown(w: World, n: World, db: Db)
    requires Schema(db) && Agrees(w, db) && n.db == w.db && n.booked == w.booked
    requires Grows(w.thread.history, n.thread.history)
    ensures Agrees(n, db)
  {
    var h, g := w.thread.history, n.thread.history;
    forall e | e in n.booked && !e.kind.Foreign? ensures Called(e, g) { assert Called(e, h); }
    forall i | 0 <= i < |g| && g[i].Executed? && g[i].done ensures HasEntry(n.booked, i) { assert i < |h|; }
  }

  lemma CallsGrow(booked: seq<Entry>, h: seq<Event>, g: seq<Event>, e: Entry)
    requires forall x | x in booked && !x.kind.Foreign? :: Called(x, h)
    requires h <= g && (!e.kind.Foreign? ==> Called(e, g))
    ensures forall x | x in booked + [e] && !x.kind.Foreign? :: Called(x, g)
  {
    forall x | x in booked + [e] && !x.kind.Foreign? ensures Called(x, g) {
      if x in booked { assert Called(x, h); }
    }
  }

  lemma EntriesGrow(booked: seq<Entry>, h: seq<Event>, e: Entry, event: Event)
    requires forall i | 0 <= i < |h| && h[i].Executed? && h[i].done :: HasEntry(booked, i)
    requires event.Executed? && event.done ==> e.kind.Own? && e.at == |h|
    ensures forall i | 0 <= i <= |h| && (h + [event])[i].Executed? && (h + [event])[i].done :: HasEntry(booked + [e], i)
  {
    forall i | 0 <= i <= |h| && (h + [event])[i].Executed? && (h + [event])[i].done ensures HasEntry(booked + [e], i) {
      if i < |h| {
        EntryStays(booked, e, i);
      } else {
        assert (booked + [e])[|booked|] == e;
      }
    }
  }

  lemma EntryStays(booked: seq<Entry>, e: Entry, i: nat)
    requires HasEntry(booked, i)
    ensures HasEntry(booked + [e], i)
  {
    var x :| x in booked && x.kind.Own? && x.at == i;
    assert x in booked + [e];
  }

  lemma AgreesBooked(w: World, n: World, db: Db, e: Entry, event: Event)
    requires Schema(db) && Schema(w.db) && Agrees(w, db) && n.db == Execute(w.db, e.request)
             && n.booked == w.booked + [e]
    requires if e.kind.Foreign? then n.thread == w.thread
             else n.thread.history == w.thread.history + [event] && e.at == |w.thread.history|
                  && event == Executed(e.request.selection, e.kind.Own?)
    ensures Agrees(n, db)
  {
    var h, g := w.thread.history, n.thread.history;
    RequestsAppend(w.booked, e);
    ExecuteAllSnoc(db, Requests(w.booked), e.request);
    CallsGrow(w.booked, h, g, e);
    if e.kind.Foreign? {
      forall i | 0 <= i < |g| && g[i].Executed? && g[i].done ensures HasEntry(n.booked, i) {
        EntryStays(w.booked, e, i);
      }
    } else {
      EntriesGrow(w.booked, h, e, event);
    }
    forall a, b | 0 <= a < b < |n.booked| && !n.booked[a].kind.Foreign? && !n.booked[b].kind.Foreign?
      ensures n.booked[a].at < n.booked[b].at
    {
      assert w.booked[a] in w.booked && Called(w.booked[a], h);
    }
  }

  lemma AgreesStep(maxRetries: int, w: World, db: Db, step: Step)
    requires Schema(db) && Schema(w.db) && Agrees(w, db) && Booked(w.thread)
    ensures Agrees(Proceed(maxRetries, w, step), db)
  {
    var n, action, entry := Proceed(maxRetries, w, step), ActionOf(w, step), EntryOf(w, step);
    if step.Book? && w.thread.pc.ExecuteRebooking? {
      BookLogs(maxRetries, w, step.now, step.reach);
      if entry.Some? {
        AgreesBooked(w, n, db, entry.value, Executed(entry.value.request.selection, entry.value.kind.Own?));
      } else {
        AgreesGrown(w, n, db);
      }
    } else if entry.Some? {
      AgreesBooked(w, n, db, entry.value, Retried);
    } else {
      if action.Some? { OthersGrow(maxRetries, w.thread, action.value); }
      AgreesGrown(w, n, db);
    }
  }

  /** The thread is one that the workflow can reach alone, so all that holds of its histories holds here. */
  lemma {:induction false} ThreadsAreHistories(maxRetries: int, db: Db, steps: seq<Step>) returns (actions: seq<Action>)
    requires Schema(db)
    ensures Runs(maxRetries, db, steps).thread == History(maxRetries, actions)
  {
    if steps == [] {
      actions := [];
    } else {
      var w, step := Runs(maxRetries, db, steps[..|steps| - 1]), steps[|steps| - 1];
      actions := ThreadsAreHistories(maxRetries, db, steps[..|steps| - 1]);
      var action := ActionOf(w, step);
      if action.Some? {
        HistorySnoc(maxRetries, actions, action.value);
        actions := actions + [action.value];
      }
    }
  }

  lemma {:induction false} RunsAgree(maxRetries: int, db: Db, steps: seq<Step>)
    requires Schema(db)
    ensures Agrees(Runs(maxRetries, db, steps), db) && Booked(Runs(maxRetries, db, steps).thread)
  {
    var actions := ThreadsAreHistories(maxRetries, db, steps);
    BookedHistory(maxRetries, actions);
    if steps != [] {
      var before := steps[..|steps| - 1];
      RunsAgree(maxRetries, db, before);
      AgreesStep(maxRetries, Runs(maxRetries, db, before), db, steps[|steps| - 1]);
    }
  }

  /** Among any traffic, with commits whose answer is lost and workers that die inside the booking
      node, the tables are those of the transactions carried out. Each transaction of the thread has
      its own call in the history, shown as done if and only if the thread learned of the commit, and
      every call shown as done has its transaction. */
  lemma BookingsAreExecutions(maxRetries: int, db: Db, steps: seq<Step>)
    requires Schema(db)
    ensures var w := Runs(maxRetries, db, steps);
            var h := w.thread.history;
            && w.db == ExecuteAll(db, Requests(w.booked))
            && (forall e | e in w.booked && !e.kind.Foreign? :: Called(e, h))
            && (forall i | 0 <= i < |h| && h[i].Executed? && h[i].done :: HasEntry(w.booked, i))
            && (forall a, b | 0 <= a < b < |w.booked| && !w.booked[a].kind.Foreign? && !w.booked[b].kind.Foreign? ::
                  w.booked[a].at < w.booked[b].at)
  {
    RunsAgree(maxRetries, db, steps);
  }

  /** Every transaction that the thread carried out, also one whose commit it did not learn of or
      inside of which its worker died, was confirmed by the user in that round and accepted by the
      validator before. */
  lemma OwnBookingsAreConfirmed(maxRetries: int, db: Db, steps: seq<Step>, e: Entry)
    requires Schema(db) && e in Runs(maxRetries, db, steps).booked && !e.kind.Foreign?
    ensures var h := Runs(maxRetries, db, steps).thread.history; Called(e, h) && Justified(h, e.at)
  {
    RunsAgree(maxRetries, db, steps);
    assert Called(e, Runs(maxRetries, db, steps).thread.history);
    var actions := ThreadsAreHistories(maxRetries, db, steps);
    ExecutionsAreConfirmed(maxRetries, actions, e.at);
  }

  /** Only the verifying node ends a run as completed. */
  lemma CompletesByVerifying(maxRetries: int, th: Thread, action: Action)
    requires Accounted(th, maxRetries) && !th.pc.Ended?
    requires var n := Workflow.Next(maxRetries, th, action); n.pc.Ended? && n.state.final == Some(Final.Completed)
    ensures th.pc.VerifyRebooking? && action.Node? && action.effect.Fine?
    ensures Workflow.Next(maxRetries, th, action).history == th.history + [Verified(true)]
  {
    if action.Node? && Early(th.pc) {
      RankPrepare(th, action.effect, action.credits);
    }
  }

  /** The step brings the thread to its end as completed. */
  ghost predicate Completes(w: World, n: World) {
    !w.thread.pc.Ended? && n.thread.pc.Ended? && n.thread.state.final == Some(Final.Completed)
  }

  /** The segment now carries the selection that the thread was about to verify, and its round has
      searched, shown, confirmed, validated and executed it. */
  ghost predicate CarriesTheConfirmed(w: World, n: World) {
    var h := n.thread.history;
    && HasSelection(w.thread) && Airline.Verified(n.db, SelectionOf(w.thread))
    && |h| >= 2 && h[|h| - 1] == Verified(true) && h[|h| - 2] == Executed(SelectionOf(w.thread), true)
    && Justified(h, |h| - 2)
  }

  /** When a run comes to its end as completed, the segment carries the confirmed selection at that
      very moment. */
  lemma CompletedMeansBooked(maxRetries: int, db: Db, steps: seq<Step>, step: Step)
    requires Schema(db)
    requires Completes(Runs(maxRetries, db, steps), Proceed(maxRetries, Runs(maxRetries, db, steps), step))
    ensures CarriesTheConfirmed(Runs(maxRetries, db, steps), Proceed(maxRetries, Runs(maxRetries, db, steps), step))
  {
    RunsAgree(maxRetries, db, steps);
    var actions := ThreadsAreHistories(maxRetries, db, steps);
    AccountedHistory(maxRetries, actions);
    SafeHistory(maxRetries, actions);
    CompletedNow(maxRetries, Runs(maxRetries, db, steps), step);
  }

  lemma CompletedNow(maxRetries: int, w: World, step: Step)
    requires Schema(w.db) && Booked(w.thread) && Accounted(w.thread, maxRetries) && AllJustified(w.thread.history)
    requires Completes(w, Proceed(maxRetries, w, step))
    ensures CarriesTheConfirmed(w, Proceed(maxRetries, w, step))
  {
    ReadsBack(maxRetries, w, step);
    Confirmed(w, Proceed(maxRetries, w, step));
  }

  lemma Confirmed(w: World, n: World)
    requires HasSelection(w.thread) && Airline.Verified(w.db, SelectionOf(w.thread)) && n.db == w.db
    requires LastIs(w.thread, Executed(SelectionOf(w.thread), true)) && AllJustified(w.thread.history)
    requires n.thread.history == w.thread.history + [Verified(true)]
    ensures CarriesTheConfirmed(w, n)
  {
    var h := w.thread.history;
    assert Justified(h, |h| - 1);
    JustifiedStays(h, Verified(true), |h| - 1);
  }

  lemma ReadsBack(maxRetries: int, w: World, step: Step)
    requires Schema(w.db) && Booked(w.thread) && Accounted(w.thread, maxRetries)
    requires Completes(w, Proceed(maxRetries, w, step))
    ensures HasSelection(w.thread) && Airline.Verified(w.db, SelectionOf(w.thread))
    ensures LastIs(w.thread, Executed(SelectionOf(w.thread), true))
    ensures Proceed(maxRetries, w, step).db == w.db
    ensures Proceed(maxRetries, w, step).thread.history == w.thread.history + [Verified(true)]
  {
    var action := ActionOf(w, step);
    if action.Some? {
      CompletesByVerifying(maxRetries, w.thread, action.value);
    }
  }

  lemma JustifiedStays(h: seq<Event>, event: Event, i: nat)
    requires i < |h| && h[i].Executed? && Justified(h, i)
    ensures Justified(h + [event], i)
  {
  }

  /** A transaction of the thread was carried out since its last search. */
  ghost predicate RoundBooked(w: World) {
    exists e :: e in w.booked && SinceTheSearch(w, e)
  }

  ghost predicate SinceTheSearch(w: World, e: Entry) {
    !e.kind.Foreign? && forall k | e.at < k < |w.thread.history| :: !w.thread.history[k].Searched?
  }

  /** The last thing in the history is a call whose commit the thread did not learn of. */
  ghost predicate CommitWasLost(w: World) {
    exists e :: e in w.booked && e.kind.Lost? && e.at + 1 == |w.thread.history|
  }

  /** A run that ends failed has booked in its last round if and only if what failed was the
      verification, or the answer of a commit that took place. */
  lemma FailedRunsCanHaveBooked(maxRetries: int, db: Db, steps: seq<Step>)
    requires Schema(db)
    requires var th := Runs(maxRetries, db, steps).thread; th.pc.Ended? && th.state.final == Some(Final.Failed)
    ensures var w := Runs(maxRetries, db, steps);
            RoundBooked(w) <==> LastIs(w.thread, Verified(false)) || CommitWasLost(w)
  {
    RunsAgree(maxRetries, db, steps);
    var actions := ThreadsAreHistories(maxRetries, db, steps);
    EndsAreExplained(maxRetries, actions);
    SafeHistory(maxRetries, actions);
    FailedRound(Runs(maxRetries, db, steps), db, maxRetries);
  }

  lemma FailedRound(w: World, db: Db, maxRetries: int)
    requires Schema(db) && Agrees(w, db) && Booked(w.thread) && AllJustified(w.thread.history)
    requires Refused(w.thread) || Exhausted(w.thread, maxRetries)
    ensures RoundBooked(w) <==> LastIs(w.thread, Verified(false)) || CommitWasLost(w)
  {
    var h := w.thread.history;
    if h[|h| - 1].Verified? {
      assert HasEntry(w.booked, |h| - 2);
      var e :| e in w.booked && e.kind.Own? && e.at == |h| - 2;
      assert SinceTheSearch(w, e);
    } else if h[|h| - 1].Executed? {
      assert Justified(h, |h| - 1) && h[|h| - 5].Searched?;
      forall e | e in w.booked && SinceTheSearch(w, e) ensures e.kind.Lost? && e.at + 1 == |h| { assert Called(e, h); }
    } else {
      assert h[|h| - 3].Searched?;
      forall e | e in w.booked && !e.kind.Foreign?
          ensures !SinceTheSearch(w, e) && e.at + 1 != |h| { assert Called(e, h); }
    }
  }

  /** Both ways of booking without knowing it are open from every acceptable booking call. The
      transaction commits and its answer is lost: the run ends failed. */
  lemma ALostCommitFailsTheRun(maxRetries: int, db: Db, steps: seq<Step>, now: int)
    requires Schema(db) && Runs(maxRetries, db, steps).thread.pc.ExecuteRebooking?
    requires var w := Runs(maxRetries, db, steps);
             HasSelection(w.thread) && Accepts(w.db, SelectionOf(w.thread), now)
    ensures var w := Runs(maxRetries, db, steps);
            var n := Runs(maxRetries, db, steps + [Book(now, CommitLost)] + [Agent(Node(Fine, false))]);
            && n.thread.pc.Ended? && n.thread.state.final == Some(Final.Failed)
            && n.db == Rebooked(w.db, SelectionOf(w.thread)) && CommitWasLost(n)
  {
    var a := steps + [Book(now, CommitLost)];
    RunsAgree(maxRetries, db, steps);
    RunsSnoc(maxRetries, db, steps, Book(now, CommitLost));
    RunsSnoc(maxRetries, db, a, Agent(Node(Fine, false)));
    LostBook(maxRetries, Runs(maxRetries, db, steps), now);
  }

  lemma LostBook(maxRetries: int, w: World, now: int)
    requires Schema(w.db) && w.thread.pc.ExecuteRebooking? && Booked(w.thread)
    requires Accepts(w.db, SelectionOf(w.thread), now)
    ensures var m := Proceed(maxRetries, w, Book(now, CommitLost));
            && Schema(m.db)
            && var n := Proceed(maxRetries, m, Agent(Node(Fine, false)));
               && n.thread.pc.Ended? && n.thread.state.final == Some(Final.Failed)
               && n.db == Rebooked(w.db, SelectionOf(w.thread)) && CommitWasLost(n)
  {
    var m := Proceed(maxRetries, w, Book(now, CommitLost));
    StepKeepsSchema(maxRetries, w, Book(now, CommitLost));
    BookLogs(maxRetries, w, now, CommitLost);
    assert m.booked[|w.booked|].kind.Lost? && m.booked[|w.booked|] in m.booked;
  }

  /** The transaction commits and the worker dies inside the node: the thread stops. */
  lemma AWorkerCanDieInsideTheBooking(maxRetries: int, db: Db, steps: seq<Step>, now: int)
    requires Schema(db) && Runs(maxRetries, db, steps).thread.pc.ExecuteRebooking?
    requires var w := Runs(maxRetries, db, steps);
             HasSelection(w.thread) && Accepts(w.db, SelectionOf(w.thread), now)
    ensures var w, n := Runs(maxRetries, db, steps), Runs(maxRetries, db, steps + [Book(now, Died)]);
            && n.thread.pc.Stopped? && LastIs(n.thread, Executed(SelectionOf(w.thread), false))
            && n.db == Rebooked(w.db, SelectionOf(w.thread)) && CommitWasLost(n)
  {
    RunsAgree(maxRetries, db, steps);
    RunsSnoc(maxRetries, db, steps, Book(now, Died));
    DeadBook(maxRetries, Runs(maxRetries, db, steps), now);
  }

  lemma DeadBook(maxRetries: int, w: World, now: int)
    requires Schema(w.db) && w.thread.pc.ExecuteRebooking? && Booked(w.thread)
    requires Accepts(w.db, SelectionOf(w.thread), now)
    ensures var n := Proceed(maxRetries, w, Book(now, Died));
            && n.thread.pc.Stopped? && LastIs(n.thread, Executed(SelectionOf(w.thread), false))
            && n.db == Rebooked(w.db, SelectionOf(w.thread)) && CommitWasLost(n)
  {
    var n := Proceed(maxRetries, w, Book(now, Died));
    BookLogs(maxRetries, w, now, Died);
    assert n.booked[|w.booked|].kind.Lost? && n.booked[|w.booked|] in n.booked;
  }

  /** So the tables can carry the confirmed booking of a job that is then reported failed: whatever
      answer it is resumed with, the job finds no pending input and is dead-lettered. */
  lemma ABookingCanBeReportedFailed(maxRetries: int, db: Db, steps: seq<Step>, now: int, answer: Answer,
                                    nodes: seq<Action>, cfg: Jobs.Config, s: Jobs.Sys, t: Jobs.Tag,
                                    job: Jobs.Envelope, v: Jobs.Worker)
    returns (actions: seq<Action>, run: seq<Jobs.Sys>)
    requires Schema(db) && Runs(maxRetries, db, steps).thread.pc.ExecuteRebooking?
    requires var w := Runs(maxRetries, db, steps);
             HasSelection(w.thread) && Accepts(w.db, SelectionOf(w.thread), now)
    requires JobOutcome.At(s, t, job, v) && v.pc.RunAgent?
    ensures var w, n := Runs(maxRetries, db, steps), Runs(maxRetries, db, steps + [Book(now, Died)]);
            n.db == Rebooked(w.db, SelectionOf(w.thread)) && n.thread == History(maxRetries, actions)
    ensures Invocations.Told(maxRetries, actions, Invocations.Resumption(answer), nodes) == Jobs.NoPendingInput
    ensures JobOutcome.Unhindered(cfg, t, Jobs.NoPendingInput, run) && run[0] == s
    ensures JobOutcome.Reports(run, t, job, v, v.attempt, Jobs.Failed)
  {
    AWorkerCanDieInsideTheBooking(maxRetries, db, steps, now);
    actions := ThreadsAreHistories(maxRetries, db, steps + [Book(now, Died)]);
    run := JobOutcome.ALostResumptionFails(maxRetries, actions, answer, nodes, cfg, s, t, job, v);
  }

  /** And when nothing goes wrong, from every booking call: the run completes if the selection is
      acceptable, with the tables rebooked, and otherwise ends failed with the tables as they were. */
  lemma UndisturbedBookingsComplete(maxRetries: int, db: Db, steps: seq<Step>, now: int)
    requires Schema(db) && Runs(maxRetries, db, steps).thread.pc.ExecuteRebooking?
    ensures HasSelection(Runs(maxRetries, db, steps).thread)
    ensures var w := Runs(maxRetries, db, steps);
            var sel := SelectionOf(w.thread);
            var told := steps + [Book(now, Reach.Answered)] + [ReadBack(true)] + [Agent(Node(Fine, false))];
            var n := Runs(maxRetries, db, told);
            && n.db == Execute(w.db, Request(sel, now)) && n.thread.pc.Ended?
            && n.thread.state.final == Some(if Accepts(w.db, sel, now) then Final.Completed else Final.Failed)
  {
    var a := steps + [Book(now, Reach.Answered)];
    RunsAgree(maxRetries, db, steps);
    RunsSnoc(maxRetries, db, steps, Book(now, Reach.Answered));
    RunsSnoc(maxRetries, db, a, ReadBack(true));
    RunsSnoc(maxRetries, db, a + [ReadBack(true)], Agent(Node(Fine, false)));
    var w := Runs(maxRetries, db, steps);
    if Accepts(w.db, SelectionOf(w.thread), now) {
      BookCompletes(maxRetries, w, now);
    } else {
      BookFails(maxRetries, w, now);
    }
  }

  lemma BookCompletes(maxRetries: int, w: World, now: int)
    requires Schema(w.db) && w.thread.pc.ExecuteRebooking? && Booked(w.thread)
    requires Accepts(w.db, SelectionOf(w.thread), now)
    ensures var a := Proceed(maxRetries, w, Book(now, Reach.Answered));
            && Schema(a.db)
            && var b := Proceed(maxRetries, a, ReadBack(true));
               && Schema(b.db) && b.db == Execute(w.db, Request(SelectionOf(w.thread), now))
               && b.thread.pc.Ended? && b.thread.state.final == Some(Final.Completed)
               && Proceed(maxRetries, b, Agent(Node(Fine, false))) == b
  {
    StepKeepsSchema(maxRetries, w, Book(now, Reach.Answered));
  }

  lemma BookFails(maxRetries: int, w: World, now: int)
    requires Schema(w.db) && w.thread.pc.ExecuteRebooking? && Booked(w.thread)
    requires !Accepts(w.db, SelectionOf(w.thread), now)
    ensures var a := Proceed(maxRetries, w, Book(now, Reach.Answered));
            && a.db == w.db && a.booked == w.booked && Proceed(maxRetries, a, ReadBack(true)) == a
            && var b := Proceed(maxRetries, a, Agent(Node(Fine, false)));
               b.db == w.db && b.thread.pc.Ended? && b.thread.state.final == Some(Final.Failed)
  {
  }

  lemma RunsSnoc(maxRetries: int, db: Db, steps: seq<Step>, step: Step)
    requires Schema(db)
    ensures Runs(maxRetries, db, steps + [step]) == Proceed(maxRetries, Runs(maxRetries, db, steps), step)
  {
    assert (steps + [step])[..|steps|] == steps;
  }
}
