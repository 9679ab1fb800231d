/** Whole invocations of the workflow by its runner, and the result that the caller is given. */
module Invocations {
  import opened Prelude
  import opened Workflow
  import opened AgentRuns
  import Jobs = JobProtocol

  /** What a job asks of the runner. */
  datatype Request = Message(blank: bool) | Resumption(answer: Answer)

  /** The action by which the request enters the graph; a blank message and the resumption of a
      thread that is not paused are turned away. */
  function Enters(th: Thread, request: Request): Option<Action> {
    match request
    case Message(blank) => if blank then None else Some(Run)
    case Resumption(answer) => if th.pc.Paused? then Some(Resume(answer)) else None
  }

  /** The thread after the request and these nodes. */
  function Invoked(maxRetries: int, actions: seq<Action>, request: Request, nodes: seq<Action>): Thread {
    match Enters(History(maxRetries, actions), request)
    case None => History(maxRetries, actions)
    case Some(action) => History(maxRetries, actions + [action] + nodes)
  }

  /** These nodes bring the invocation to its rest; further ones would change nothing. */
  ghost predicate Complete(maxRetries: int, actions: seq<Action>, request: Request, nodes: seq<Action>) {
    OnlyNodes(nodes) && !Running(Invoked(maxRetries, actions, request, nodes).pc)
  }

  /** What the runner returns, or raises, when the graph has come to rest. */
  function ResultOf(th: Thread): Jobs.AgentResult {
    if th.raised then Jobs.Errored
    else if th.pc.Paused? then Jobs.Paused
    else if th.state.final == Some(Failed) then Jobs.FinishedFailed
    else Jobs.Finished
  }

  /** What the caller is told. */
  function Told(maxRetries: int, actions: seq<Action>, request: Request, nodes: seq<Action>): Jobs.AgentResult {
    if Enters(History(maxRetries, actions), request).Some? then ResultOf(Invoked(maxRetries, actions, request, nodes))
    else if request.Message? then Jobs.Errored
    else Jobs.NoPendingInput
  }

  /** Whatever the language model, the airline and the user answer, six nodes bring a message to its
      rest, and eight a resumption. */
  lemma InvocationsStop(maxRetries: int, actions: seq<Action>, request: Request, nodes: seq<Action>)
    requires !Running(History(maxRetries, actions).pc) && OnlyNodes(nodes)
    requires |nodes| >= if request.Message? then 6 else 8
    ensures Complete(maxRetries, actions, request, nodes)
  {
    var th := History(maxRetries, actions);
    if Enters(th, request).Some? {
      var action := Enters(th, request).value;
      HistorySnoc(maxRetries, actions, action);
      NodesBringRest(maxRetries, actions + [action], nodes);
    }
  }

  lemma ResultIsExplained(th: Thread, maxRetries: int)
    requires !Running(th.pc) && Tells(th) && (th.pc.Ended? ==> Explained(th, maxRetries))
    ensures var result := ResultOf(th);
            && (result.Paused? <==> th.pc.Paused? && !th.raised)
            && (result.Finished? <==> th.pc.Ended? && (LastIs(th, Verified(true)) || Answered(th, false)))
            && (result.FinishedFailed? <==> th.pc.Ended? && (Refused(th) || Exhausted(th, maxRetries)))
            && !result.NoPendingInput? && (result.Errored? <==> th.raised)
  {
    if th.pc.Ended? {
      ExplainedBothWays(th, maxRetries);
      match th.state.final.value
      case Completed =>
      case Declined =>
      case Failed =>
    }
  }

  /** What each answer of the runner means. */
  lemma ResultsAreExplained(maxRetries: int, actions: seq<Action>, request: Request, nodes: seq<Action>)
    requires !Running(History(maxRetries, actions).pc) && Complete(maxRetries, actions, request, nodes)
    ensures var th, end := History(maxRetries, actions), Invoked(maxRetries, actions, request, nodes);
            var result, entered := Told(maxRetries, actions, request, nodes), Enters(th, request).Some?;
            && (result.Paused? <==> entered && end.pc.Paused? && !end.raised)
            && (result.Finished? <==> entered && end.pc.Ended? && (LastIs(end, Verified(true)) || Answered(end, false)))
            && (result.FinishedFailed? <==> entered && end.pc.Ended? && (Refused(end) || Exhausted(end, maxRetries)))
            && (result.NoPendingInput? <==> request.Resumption? && !th.pc.Paused?)
            && (result.Errored? <==> (entered && end.raised) || (request.Message? && request.blank))
  {
    var th := History(maxRetries, actions);
    if Enters(th, request).Some? {
      var all := actions + [Enters(th, request).value] + nodes;
      TellsHistory(maxRetries, all);
      AccountedHistory(maxRetries, all);
      ResultIsExplained(History(maxRetries, all), maxRetries);
    }
  }
}
