/**
 * The static shape of a LangGraph `StateGraph` as the agents build it: the
 * registered nodes, plain edges, join edges (`add_edge([a, b], c)`: `c` waits
 * for all of `a, b`), and conditional edges with their routing map.  The
 * builder is mutated call by call, as the agents' build functions do.
 */
module Graph {
  import opened Wrappers

  /** LangGraph's `START` and `END` markers. */
  const Start: string := "__start__"
  const End: string := "__end__"

  datatype Edge = Edge(source: string, target: string)

  /** `add_edge([s1, ..., sn], target)`: `target` runs once every source has finished. */
  datatype Join = Join(sources: seq<string>, target: string)

  /**
   * `add_conditional_edges(source, router, mapping)`; with no mapping the
   * router's return value is itself the name of the next node.
   */
  datatype Branch = Branch(source: string, mapping: Option<map<string, string>>)

  /** What a router returns: one name, or a list of names to fan out to. */
  datatype Route = Goto(name: string) | FanOut(names: seq<string>)

  function RouteNames(r: Route): seq<string> {
    match r
    case Goto(n) => [n]
    case FanOut(ns) => ns
  }

  datatype Topology = Topology(nodes: seq<string>, edges: seq<Edge>, joins: seq<Join>, branches: seq<Branch>)

  class StateGraph {
    var nodes: seq<string>
    var edges: seq<Edge>
    var joins: seq<Join>
    var branches: seq<Branch>

    /** The topology registered so far. */
    function Snapshot(): Topology
      reads this
    {
      Topology(nodes, edges, joins, branches)
    }

    constructor ()
      ensures Snapshot() == Topology([], [], [], [])
    {
      nodes, edges, joins, branches := [], [], [], [];
    }

    /** `add_node(name, fn)`. */
    method AddNode(name: string)
      modifies this
      ensures Snapshot() == old(Snapshot()).(nodes := old(nodes) + [name])
    {
      nodes := nodes + [name];
    }

    /** `add_edge(source, target)`. */
    method AddEdge(source: string, target: string)
      modifies this
      ensures Snapshot() == old(Snapshot()).(edges := old(edges) + [Edge(source, target)])
    {
      edges := edges + [Edge(source, target)];
    }

    /** `add_edge([source, ...], target)`. */
    method AddJoin(sources: seq<string>, target: string)
      modifies this
      ensures Snapshot() == old(Snapshot()).(joins := old(joins) + [Join(sources, target)])
    {
      joins := joins + [Join(sources, target)];
    }

    /** `add_conditional_edges(source, router[, mapping])`. */
    method AddConditionalEdges(source: string, mapping: Option<map<string, string>>)
      modifies this
      ensures Snapshot() == old(Snapshot()).(branches := old(branches) + [Branch(source, mapping)])
    {
      branches := branches + [Branch(source, mapping)];
    }

    /** `set_entry_point(name)`, which is an edge from START. */
    method SetEntryPoint(name: string)
      modifies this
      ensures Snapshot() == old(Snapshot()).(edges := old(edges) + [Edge(Start, name)])
    {
      AddEdge(Start, name);
    }

    /** `set_conditional_entry_point(router, mapping)`, a branch out of START. */
    method SetConditionalEntryPoint(mapping: map<string, string>)
      modifies this
      ensures Snapshot() == old(Snapshot()).(branches := old(branches) + [Branch(Start, Some(mapping))])
    {
      AddConditionalEdges(Start, Some(mapping));
    }
  }

  /** A name an edge may leave from: a registered node or START. */
  predicate IsSource(t: Topology, n: string) {
    n in t.nodes || n == Start
  }

  /** A name an edge may lead to: a registered node or END. */
  predicate IsTarget(t: Topology, n: string) {
    n in t.nodes || n == End
  }

  /** Every edge, join and branch connects registered nodes, START and END only. */
  predicate EndpointsRegistered(t: Topology) {
    EdgesRegistered(t) && JoinsRegistered(t) && BranchSourcesRegistered(t) && MappingsRegistered(t)
  }

  /** Every plain edge leaves a node or START and leads to a node or END. */
  predicate EdgesRegistered(t: Topology) {
    forall e :: e in t.edges ==> IsSource(t, e.source) && IsTarget(t, e.target)
  }

  /** Every join waits for registered nodes and leads to a node or END. */
  predicate JoinsRegistered(t: Topology) {
    forall j :: j in t.joins ==> IsTarget(t, j.target) && forall n :: n in j.sources ==> n in t.nodes
  }

  /** Every branch leaves a node or START. */
  predicate BranchSourcesRegistered(t: Topology) {
    forall b :: b in t.branches ==> IsSource(t, b.source)
  }

  /** Every routing map sends its names to nodes or END. */
  predicate MappingsRegistered(t: Topology) {
    forall b, k :: b in t.branches && b.mapping.Some? && k in b.mapping.value ==> IsTarget(t, b.mapping.value[k])
  }

  /** The edges are registered when each one, by position, is. */
  lemma EdgesRegisteredByIndex(t: Topology)
    requires forall i :: 0 <= i < |t.edges| ==> IsSource(t, t.edges[i].source) && IsTarget(t, t.edges[i].target)
    ensures EdgesRegistered(t)
  {
    forall e | e in t.edges
      ensures IsSource(t, e.source) && IsTarget(t, e.target)
    {
      var i :| 0 <= i < |t.edges| && t.edges[i] == e;
    }
  }

  /** Where the branch out of `source` sends router value `name`, if it knows it. */
  function Resolve(t: Topology, source: string, name: string): Option<string> {
    ResolveIn(t.branches, source, name)
  }

  function ResolveIn(bs: seq<Branch>, source: string, name: string): Option<string>
    decreases |bs|
  {
    if |bs| == 0 then None
    else if bs[0].source == source then
      match bs[0].mapping
      case None => Some(name)
      case Some(m) => if name in m then Some(m[name]) else None
    else ResolveIn(bs[1..], source, name)
  }

  /** Each name the route holds is resolved by the branch out of `source` to a registered node or END. */
  predicate RouteCovered(t: Topology, source: string, r: Route) {
    forall n :: n in RouteNames(r) ==> Resolve(t, source, n).Some? && IsTarget(t, Resolve(t, source, n).value)
  }

  /** The plain successors of a node (the targets of its unconditional edges). */
  function Successors(t: Topology, n: string): set<string> {
    set e | e in t.edges && e.source == n :: e.target
  }
}
