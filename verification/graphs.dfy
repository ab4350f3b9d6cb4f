/**
 * The part of LangGraph's `StateGraph` that the two engines use: named nodes, plain and
 * conditional edges, an entry point, and the compiled table the run follows.
 */
module Graphs {
  import opened Wrappers

  /** LangGraph's name for the terminal node. */
  const END: string := "__end__"

  /** Where an edge leads: a node, or END. */
  datatype Target<N> = To(node: N) | End

  /**
   * An outgoing edge: a fixed successor, or a router whose answer (a label) is looked
   * up in the branch map.
   */
  datatype Edge<N, R> = Direct(to: Target<N>) | Conditional(router: R, branches: map<string, Target<N>>)

  /** A compiled graph. */
  datatype Compiled<N, R> = Compiled(entry: N, nodes: set<N>, edges: map<N, Edge<N, R>>)

  /** Why a run stopped without reaching END. */
  datatype Fault =
    /** a node raised, with this message */
    | NodeError(message: string)
    /** a node read a state key that is absent (Python's KeyError) */
    | MissingKey(key: string)
    /** the run used up its step budget */
    | RecursionLimit

  /** The targets an edge can lead to. */
  function Targets<N(==), R>(e: Edge<N, R>): (ts: set<Target<N>>)
    ensures e.Direct? ==> ts == {e.to}
  {
    match e
    case Direct(t) => {t}
    case Conditional(_, branches) => branches.Values
  }

  /**
   * The successor of node `n` once it has run; `route` gives the answer of each router
   * on the current state (None when the router raises).
   */
  function Next<N(==), R>(g: Compiled<N, R>, n: N, route: R -> Option<string>): (t: Option<Target<N>>)
    ensures t.Some? ==> n in g.edges && t.value in Targets(g.edges[n])
    ensures n in g.edges && g.edges[n].Direct? ==> t == Some(g.edges[n].to)
    ensures n in g.edges && g.edges[n].Conditional? ==>
      var e := g.edges[n];
      t == if route(e.router).Some? && route(e.router).value in e.branches
           then Some(e.branches[route(e.router).value]) else None
  {
    if n !in g.edges then None
    else
      match g.edges[n]
      case Direct(t) => Some(t)
      case Conditional(r, branches) =>
        match route(r)
        case None => None
        case Some(answer) => if answer in branches then Some(branches[answer]) else None
  }

  /** A node that is neither the entry nor the target of any edge. */
  ghost predicate Unreachable<N, R>(g: Compiled<N, R>, n: N) {
    n != g.entry && forall m :: m in g.edges ==> To(n) !in Targets(g.edges[m])
  }

  /** A run that follows the graph's edges never steps into an unreachable node. */
  lemma NextAvoidsUnreachable<N, R>(g: Compiled<N, R>, m: N, n: N, route: R -> Option<string>)
    requires Unreachable(g, n)
    ensures Next(g, m, route) != Some(To(n))
  {
  }

  /** The builder of `create_legal_engine`: a `StateGraph` being filled in. */
  class StateGraph<N(==), R> {
    var nodes: set<N>
    var edges: map<N, Edge<N, R>>
    var entry: Option<N>

    constructor ()
      ensures nodes == {} && edges == map[] && entry == None
    {
      nodes, edges, entry := {}, map[], None;
    }

    /** `add_node`; LangGraph refuses a name that is already present. */
    method AddNode(n: N)
      requires n !in nodes
      modifies this
      ensures nodes == old(nodes) + {n}
      ensures edges == old(edges) && entry == old(entry)
    {
      nodes := nodes + {n};
    }

    /** `set_entry_point`. */
    method SetEntryPoint(n: N)
      modifies this
      ensures entry == Some(n)
      ensures nodes == old(nodes) && edges == old(edges)
    {
      entry := Some(n);
    }

    /** `add_edge`, for a node that has no outgoing edge yet. */
    method AddEdge(from: N, to: Target<N>)
      requires from !in edges
      modifies this
      ensures edges == old(edges)[from := Direct(to)]
      ensures nodes == old(nodes) && entry == old(entry)
    {
      edges := edges[from := Direct(to)];
    }

    /** `add_conditional_edges`, for a node that has no outgoing edge yet. */
    method AddConditionalEdges(from: N, router: R, branches: map<string, Target<N>>)
      requires from !in edges
      modifies this
      ensures edges == old(edges)[from := Conditional(router, branches)]
      ensures nodes == old(nodes) && entry == old(entry)
    {
      edges := edges[from := Conditional(router, branches)];
    }

    /** `compile`; LangGraph refuses a graph without an entry point. */
    method Compile() returns (g: Compiled<N, R>)
      requires entry.Some?
      ensures g == Compiled(entry.value, nodes, edges)
    {
      g := Compiled(entry.value, nodes, edges);
    }
  }
}
