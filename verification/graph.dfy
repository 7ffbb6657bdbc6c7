/** The compiled `StateGraph` of `src/graph/builder.py`: three nodes, the
    edges between them, and how a run walks them. A node is any function from
    the run state to the state after its update is merged in, or `None` when
    the node raises; the node functions themselves are plugged in by
    `Builder.BuildGraph`. */
module Graph {

  import opened Wrappers
  import opened State

  /** The graph's nodes and its end. */
  datatype Node = Planner | Executor | Synthesizer | End

  /** `should_continue`: back to the executor while the plan has steps left. */
  function ShouldContinue(s: RunState): (n: Node)
    ensures n == Executor <==> s.plan != []
    ensures n == Synthesizer <==> s.plan == []
  {
    if s.plan != [] then Executor else Synthesizer
  }

  /** The edges: planner to executor unconditionally, executor to wherever
      `should_continue` says, synthesizer to the end. No edge leads back to
      the planner, and only the executor's edge depends on the state. */
  function Successor(n: Node, s: RunState): (m: Node)
    requires n != End
    ensures m != Planner
    ensures n == Planner ==> m == Executor
    ensures n == Synthesizer ==> m == End
    ensures n == Executor ==> (m == Executor <==> s.plan != []) && (m == Synthesizer <==> s.plan == [])
  {
    match n
    case Planner => Executor
    case Executor => ShouldContinue(s)
    case Synthesizer => End
  }

  /** The three node functions of a graph; `None` is a node that raised. */
  datatype Nodes = Nodes(
    planner: RunState -> Option<RunState>,
    executor: RunState -> Option<RunState>,
    synthesizer: RunState -> Option<RunState>)

  /** Running one node. */
  function Step(g: Nodes, n: Node, s: RunState): Option<RunState>
    requires n != End
  {
    match n
    case Planner => g.planner(s)
    case Executor => g.executor(s)
    case Synthesizer => g.synthesizer(s)
  }

  /** How a run ends: at the end node with its final state; with the
      exception a node raised on the state it was given; or still running
      when the step budget is spent. */
  datatype Outcome = Done(final: RunState) | Crash(node: Node, state: RunState) | Exhausted(node: Node, state: RunState)

  /** Running the graph from node `n` for at most `fuel` node executions. A
      run only ends right after the synthesizer, and it crashes only where a
      node raises. */
  function Run(g: Nodes, n: Node, s: RunState, fuel: nat): (o: Outcome)
    requires n != End
    ensures o.Done? ==> exists t :: g.synthesizer(t) == Some(o.final)
    ensures o.Crash? ==> o.node != End && Step(g, o.node, o.state) == None
    ensures o.Exhausted? ==> o.node != End
    decreases fuel
  {
    if fuel == 0 then Exhausted(n, s)
    else
      match Step(g, n, s)
      case None => Crash(n, s)
      case Some(s') =>
        var m := Successor(n, s');
        if m == End then
          assert g.synthesizer(s) == Some(s');
          Done(s')
        else Run(g, m, s', fuel - 1)
  }
}
