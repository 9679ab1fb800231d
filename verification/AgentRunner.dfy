/** The application-facing runner: it advances the persisted state of one thread in place. */
module AgentRunner {
  import opened Prelude
  import opened Workflow
  import opened AgentRuns
  import opened Invocations
  import Jobs = JobProtocol

  class AgentRunner {
    const maxRetries: int
    /** How the call of the n-th node ends, and which branch of a fan-out goes first. */
    const world: nat -> (Effect, bool)

    var thread: Thread
    var nodes: nat

    /** Everything that has happened to the thread. */
    ghost var actions: seq<Action>

    ghost predicate Valid()
      reads this
    {
      thread == History(maxRetries, actions)
    }

    constructor (maxRetries: int, world: nat -> (Effect, bool))
      ensures Valid() && thread == Start && actions == []
      ensures this.maxRetries == maxRetries && this.world == world
    {
      this.maxRetries, this.world := maxRetries, world;
      this.thread, this.nodes, this.actions := Start, 0, [];
    }

    /** The n nodes that run from the given one on. */
    ghost function NodesFrom(first: nat, n: nat): seq<Action> {
      if n == 0 then [] else NodesFrom(first, n - 1) + [Node(world(first + n - 1).0, world(first + n - 1).1)]
    }

    /** The request has been carried out with just the nodes that the world has in store, at most
        `limit` of them, and the caller is told its result. */
    twostate predicate Served(request: Request, limit: nat, result: Jobs.AgentResult)
      reads this
    {
      && Valid() && !Running(thread.pc) && old(nodes) <= nodes <= old(nodes) + limit
      && var ran := NodesFrom(old(nodes), nodes - old(nodes));
         && thread == Invoked(maxRetries, old(actions), request, ran)
         && result == Told(maxRetries, old(actions), request, ran)
    }

    /** Run one node. */
    method Step()
      requires Valid() && Running(thread.pc)
      modifies this
      ensures Valid() && nodes == old(nodes) + 1 && Rank(thread.pc) < old(Rank(thread.pc))
      ensures actions == old(actions) + [Node(world(old(nodes)).0, world(old(nodes)).1)]
    {
      var (effect, credits) := world(nodes);
      RankFalls(thread, effect, credits, maxRetries);
      HistorySnoc(maxRetries, actions, Node(effect, credits));
      thread := RunNode(thread, effect, credits, maxRetries);
      actions := actions + [Node(effect, credits)];
      nodes := nodes + 1;
    }

    /** Run node after node until the graph pauses, ends or raises. */
    method Invoke()
      requires Valid()
      modifies this
      ensures Valid() && !Running(thread.pc) && old(nodes) <= nodes <= old(nodes) + old(Rank(thread.pc))
      ensures actions == old(actions) + NodesFrom(old(nodes), nodes - old(nodes))
    {
      while Running(thread.pc)
        invariant Valid() && old(nodes) <= nodes
        invariant nodes + Rank(thread.pc) <= old(nodes) + old(Rank(thread.pc))
        invariant actions == old(actions) + NodesFrom(old(nodes), nodes - old(nodes))
        decreases Rank(thread.pc)
      {
        Step();
      }
    }

    /** `run`: a blank message raises and leaves the thread alone; any other one starts the graph
        again on the persisted state. */
    method RunMessage(blank: bool) returns (result: Jobs.AgentResult)
      requires Valid() && !Running(thread.pc)
      modifies this
      ensures Served(Message(blank), if blank then 0 else 6, result)
    {
      if blank { return Jobs.Errored; }
      Enter(Run);
      Invoke();
      result := ResultOf(thread);
    }

    /** `resume`: only a paused thread takes an answer. */
    method ResumeWith(answer: Answer) returns (result: Jobs.AgentResult)
      requires Valid() && !Running(thread.pc)
      modifies this
      ensures Served(Resumption(answer), if old(thread.pc.Paused?) then 8 else 0, result)
    {
      if !thread.pc.Paused? { return Jobs.NoPendingInput; }
      Enter(Resume(answer));
      Invoke();
      result := ResultOf(thread);
    }

    /** Put the graph to its entry, or the paused node to its answer. */
    method Enter(action: Action)
      requires Valid() && !Running(thread.pc) && (action.Run? || (action.Resume? && thread.pc.Paused?))
      modifies this
      ensures Valid() && nodes == old(nodes) && actions == old(actions) + [action]
      ensures Rank(thread.pc) == if action.Run? then 6 else 8
    {
      HistorySnoc(maxRetries, actions, action);
      thread := thread.(pc := if action.Run? then Understand
          else Ask(Some(action.answer)), finished := false, raised := false);
      actions := actions + [action];
    }
  }
}
