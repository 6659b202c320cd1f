/** The part of LangGraph's `StateGraph` that the workflows use: a builder
    object that records nodes, plain edges and conditional edges, the compiled
    graph as a value, and the routing step that picks the next node. A run is
    the finite-state machine that follows the routing step from `START` until
    it reaches `END`, finds no route for the label, or finds no edge at all. */
module StateGraphs {
  import opened Documents

  /** `START`, `END` or a node registered under a name. */
  datatype Node = Start | End | Named(name: string)

  /** A compiled graph: the registered names, the plain edges in the order they
      were added, and for each source of a conditional edge its path map
      (routing label to target). */
  datatype Graph = Graph(nodes: set<string>, edges: seq<(Node, Node)>, branches: map<Node, map<string, Node>>)

  /** The builder the workflow files call `add_node`, `add_edge`,
      `set_entry_point` and `add_conditional_edges` on. */
  class StateGraph {
    var nodes: set<string>
    var edges: seq<(Node, Node)>
    var branches: map<Node, map<string, Node>>

    constructor ()
      ensures nodes == {} && edges == [] && branches == map[]
    {
      nodes, edges, branches := {}, [], map[];
    }

    /** `add_node(name, action)`: the action is bound by the workflow itself. */
    method AddNode(name: string)
      modifies this
      ensures nodes == old(nodes) + {name}
      ensures edges == old(edges) && branches == old(branches)
    {
      nodes := nodes + {name};
    }

    /** `add_edge(source, target)`. */
    method AddEdge(source: Node, target: Node)
      modifies this
      ensures edges == old(edges) + [(source, target)]
      ensures nodes == old(nodes) && branches == old(branches)
    {
      edges := edges + [(source, target)];
    }

    /** `set_entry_point(name)`: an edge from `START`. */
    method SetEntryPoint(name: string)
      modifies this
      ensures edges == old(edges) + [(Start, Named(name))]
      ensures nodes == old(nodes) && branches == old(branches)
    {
      AddEdge(Start, Named(name));
    }

    /** `add_conditional_edges(source, path, path_map)`: after `source` the
        label the path function returns is looked up in `pathMap`. */
    method AddConditionalEdges(source: string, pathMap: map<string, Node>)
      modifies this
      ensures branches == old(branches)[Named(source) := pathMap]
      ensures nodes == old(nodes) && edges == old(edges)
    {
      branches := branches[Named(source) := pathMap];
    }

    /** `compile()`: the graph as it stands. */
    function Compile(): (g: Graph)
      reads this
      ensures g.nodes == nodes && g.edges == edges && g.branches == branches
    {
      Graph(nodes, edges, branches)
    }
  }

  /** The target of the first plain edge out of `n`, if there is one. */
  function FirstTarget(edges: seq<(Node, Node)>, n: Node): (t: Option<Node>)
    ensures t.Some? <==> exists i :: 0 <= i < |edges| && edges[i].0 == n
    ensures t.Some? ==> exists i :: 0 <= i < |edges| && edges[i] == (n, t.value)
  {
    if |edges| == 0 then None
    else if edges[0].0 == n then Some(edges[0].1)
    else
      var t := FirstTarget(edges[1..], n);
      assert forall i :: 1 <= i < |edges| ==> edges[i] == edges[1..][i - 1];
      t
  }

  /** What the runtime does after node `n` when the state's routing label is `route`. */
  datatype Step = Go(next: Node) | NoRoute(route: string) | DeadEnd

  /** A conditional edge looks the label up in its path map; a label with no
      entry has no route. Otherwise the plain edge out of `n` is followed. */
  function Next(g: Graph, n: Node, route: string): (s: Step)
    ensures n in g.branches ==> (s.NoRoute? <==> route !in g.branches[n])
    ensures n in g.branches && route in g.branches[n] ==> s == Go(g.branches[n][route])
    ensures n !in g.branches ==> !s.NoRoute?
    ensures n !in g.branches && s.Go? ==> exists i :: 0 <= i < |g.edges| && g.edges[i] == (n, s.next)
  {
    if n in g.branches then
      if route in g.branches[n] then Go(g.branches[n][route]) else NoRoute(route)
    else
      match FirstTarget(g.edges, n)
      case Some(t) => Go(t)
      case None => DeadEnd
  }

  /** `rank` strictly decreases along every step, whatever the label: the
      graph has no cycle. */
  ghost predicate Ranked(g: Graph, rank: Node -> nat)
  {
    forall n, route :: n != End && Next(g, n, route).Go? ==> rank(Next(g, n, route).next) < rank(n)
  }

  /** How a run ends: at `END`, at a conditional edge with no entry for the
      label, or at a node with no outgoing edge. Each carries the named nodes
      executed, in order. */
  datatype Outcome = Finished(trace: seq<string>) | Unrouted(trace: seq<string>, route: string) | Stuck(trace: seq<string>)

  function Executed(n: Node): seq<string>
  {
    if n.Named? then [n.name] else []
  }

  function Prepend(names: seq<string>, o: Outcome): (r: Outcome)
    ensures r.trace == names + o.trace
    ensures r.Finished? == o.Finished? && r.Unrouted? == o.Unrouted? && r.Stuck? == o.Stuck?
  {
    match o
    case Finished(t) => Finished(names + t)
    case Unrouted(t, l) => Unrouted(names + t, l)
    case Stuck(t) => Stuck(names + t)
  }

  /** Prepending twice is prepending the concatenation. */
  lemma PrependTwice(a: seq<string>, b: seq<string>, o: Outcome)
    ensures Prepend(a, Prepend(b, o)) == Prepend(a + b, o)
  {
    assert a + (b + o.trace) == (a + b) + o.trace;
  }

  /** The run from node `n` when every conditional edge reads the label `route`. */
  ghost function Run(g: Graph, rank: Node -> nat, n: Node, route: string): Outcome
    requires Ranked(g, rank)
    decreases rank(n)
  {
    if n == End then Finished([])
    else
      match Next(g, n, route)
      case Go(m) => Prepend(Executed(n), Run(g, rank, m, route))
      case NoRoute(l) => Unrouted(Executed(n), l)
      case DeadEnd => Stuck(Executed(n))
  }

  /** One step of a run, unfolded. */
  lemma RunStep(g: Graph, rank: Node -> nat, n: Node, route: string, m: Node)
    requires Ranked(g, rank) && n != End && Next(g, n, route) == Go(m)
    ensures Run(g, rank, n, route) == Prepend(Executed(n), Run(g, rank, m, route))
  {
  }

  /** A named node whose step leads to `END` finishes with itself alone. */
  lemma RunLast(g: Graph, rank: Node -> nat, n: Node, route: string)
    requires Ranked(g, rank) && n.Named? && Next(g, n, route) == Go(End)
    ensures Run(g, rank, n, route) == Finished([n.name])
  {
    RunStep(g, rank, n, route, End);
  }

  /** A named node whose step leads to a run that finishes executes first. */
  lemma RunThen(g: Graph, rank: Node -> nat, n: Node, route: string, m: Node, t: seq<string>)
    requires Ranked(g, rank) && n.Named? && Next(g, n, route) == Go(m)
    requires Run(g, rank, m, route) == Finished(t)
    ensures Run(g, rank, n, route) == Finished([n.name] + t)
  {
    RunStep(g, rank, n, route, m);
  }

  /** `START` executes nothing: the run is the one from its target. */
  lemma RunEntry(g: Graph, rank: Node -> nat, route: string, m: Node)
    requires Ranked(g, rank) && Next(g, Start, route) == Go(m)
    ensures Run(g, rank, Start, route) == Run(g, rank, m, route)
  {
    RunStep(g, rank, Start, route, m);
    assert Executed(Start) == [];
    assert Prepend([], Run(g, rank, m, route)) == Run(g, rank, m, route);
  }

  /** A run through two named nodes from `START` to `END`. */
  lemma RunPath2(g: Graph, rank: Node -> nat, route: string, a: string, b: string)
    requires Ranked(g, rank)
    requires Next(g, Start, route) == Go(Named(a)) && Next(g, Named(a), route) == Go(Named(b))
    requires Next(g, Named(b), route) == Go(End)
    ensures Run(g, rank, Start, route) == Finished([a, b])
  {
    RunLast(g, rank, Named(b), route);
    RunThen(g, rank, Named(a), route, Named(b), [b]);
    RunEntry(g, rank, route, Named(a));
    assert [a] + [b] == [a, b];
  }

  /** A run through three named nodes from `START` to `END`. */
  lemma RunPath3(g: Graph, rank: Node -> nat, route: string, a: string, b: string, c: string)
    requires Ranked(g, rank)
    requires Next(g, Start, route) == Go(Named(a)) && Next(g, Named(a), route) == Go(Named(b))
    requires Next(g, Named(b), route) == Go(Named(c)) && Next(g, Named(c), route) == Go(End)
    ensures Run(g, rank, Start, route) == Finished([a, b, c])
  {
    RunLast(g, rank, Named(c), route);
    RunThen(g, rank, Named(b), route, Named(c), [c]);
    RunThen(g, rank, Named(a), route, Named(b), [b] + [c]);
    RunEntry(g, rank, route, Named(a));
    assert [a] + ([b] + [c]) == [a, b, c];
  }

  /** Every name in `t` is ranked no higher than `top`, and the ranks
      strictly decrease along `t`. */
  ghost predicate DescendingTrace(rank: Node -> nat, t: seq<string>, top: nat)
  {
    && (forall i :: 0 <= i < |t| ==> rank(Named(t[i])) <= top)
    && (forall i, j :: 0 <= i < j < |t| ==> rank(Named(t[i])) > rank(Named(t[j])))
  }

  /** Every node a run executes has a rank no larger than where it started,
      and the ranks along the trace strictly decrease: no node runs twice. */
  lemma {:induction false} RunTraceDecreasing(g: Graph, rank: Node -> nat, n: Node, route: string)
    requires Ranked(g, rank)
    ensures DescendingTrace(rank, Run(g, rank, n, route).trace, rank(n))
    decreases rank(n)
  {
    if n != End {
      match Next(g, n, route)
      case Go(m) =>
        RunTraceDecreasing(g, rank, m, route);
        PrependDescending(rank, n, Run(g, rank, m, route).trace, rank(m));
      case NoRoute(_) =>
      case DeadEnd =>
    }
  }

  /** Executing `n` before a trace ranked below it keeps the trace descending. */
  lemma PrependDescending(rank: Node -> nat, n: Node, rest: seq<string>, top: nat)
    requires DescendingTrace(rank, rest, top) && top < rank(n)
    ensures DescendingTrace(rank, Executed(n) + rest, rank(n))
  {
    var t := Executed(n) + rest;
    var e := |Executed(n)|;
    assert e == 1 ==> Named(t[0]) == n;
    assert forall i :: e <= i < |t| ==> t[i] == rest[i - e];
  }

  /** So the trace of a run never repeats a node. */
  lemma RunTraceDistinct(g: Graph, rank: Node -> nat, n: Node, route: string)
    requires Ranked(g, rank)
    ensures var t := Run(g, rank, n, route).trace;
      forall i, j :: 0 <= i < j < |t| ==> t[i] != t[j]
  {
    RunTraceDecreasing(g, rank, n, route);
  }
}
