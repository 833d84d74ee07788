/**
 * The part of an undirected `networkx.Graph` the toolkit relies on, as a value: its nodes, its
 * edges with their data dictionaries, degrees, and `nx.is_simple_path`. An edge is keyed by the
 * set of its ends (one element for a self-loop), so both directions share one data dictionary,
 * as they do in networkx.
 */
module Graphs {
  import opened Json

  datatype Graph = Graph(nodes: set<string>, edges: map<set<string>, Dict>)

  const Empty := Graph({}, map[])

  /** One entry of `add_edges_from`: a 2-tuple has no data, a 3-tuple carries a dictionary. */
  datatype Edge = Edge(u: string, v: string, data: Dict)

  predicate Adjacent(g: Graph, x: string, y: string)
  {
    {x, y} in g.edges
  }

  /** Every edge joins nodes of the graph. */
  ghost predicate Valid(g: Graph)
  {
    forall k :: k in g.edges ==> k <= g.nodes && 1 <= |k| <= 2
  }

  /** `add_nodes_from`: present nodes are left alone and no edge changes. */
  function AddNodes(g: Graph, ns: seq<string>): (r: Graph)
    ensures r.nodes == g.nodes + (set n | n in ns)
    ensures r.edges == g.edges
  {
    Graph(g.nodes + (set n | n in ns), g.edges)
  }

  /** The data an edge holds after `add_edge`: what it held, updated with the new dictionary. */
  function MergedData(g: Graph, e: Edge): Dict
  {
    (if {e.u, e.v} in g.edges then g.edges[{e.u, e.v}] else map[]) + e.data
  }

  /** One step of `add_edges_from`: both ends become nodes and the edge's data is updated. */
  function AddEdge(g: Graph, e: Edge): (r: Graph)
    ensures r.nodes == g.nodes + {e.u, e.v}
    ensures Valid(g) ==> Valid(r)
  {
    Graph(g.nodes + {e.u, e.v}, g.edges[{e.u, e.v} := MergedData(g, e)])
  }

  /** After adding an edge, its ends are adjacent and no other pair's adjacency or data changed. */
  lemma AddEdgeAdjacency(g: Graph, e: Edge, x: string, y: string)
    ensures Adjacent(AddEdge(g, e), x, y) <==> Adjacent(g, x, y) || {x, y} == {e.u, e.v}
    ensures {x, y} != {e.u, e.v} && Adjacent(g, x, y) ==> AddEdge(g, e).edges[{x, y}] == g.edges[{x, y}]
  {
  }

  /** `add_edges_from`, one entry after the other. */
  function AddEdges(g: Graph, es: seq<Edge>): (r: Graph)
    ensures Valid(g) ==> Valid(r)
  {
    if es == [] then g else AddEdge(AddEdges(g, es[..|es| - 1]), es[|es| - 1])
  }

  /** The ends of the entries. */
  function Ends(es: seq<Edge>): (r: set<string>)
    ensures forall i :: 0 <= i < |es| ==> es[i].u in r && es[i].v in r
  {
    if es == [] then {} else Ends(es[..|es| - 1]) + {es[|es| - 1].u, es[|es| - 1].v}
  }

  /** Every end belongs to some entry. */
  lemma {:induction false} EndsBelong(es: seq<Edge>, n: string)
    requires n in Ends(es)
    ensures exists i :: 0 <= i < |es| && (es[i].u == n || es[i].v == n)
  {
    var init := es[..|es| - 1];
    if n in Ends(init) {
      EndsBelong(init, n);
      var i :| 0 <= i < |init| && (init[i].u == n || init[i].v == n);
      assert es[i] == init[i];
    } else {
      assert es[|es| - 1].u == n || es[|es| - 1].v == n;
    }
  }

  /** `add_edges_from` adds exactly the ends of its entries as nodes. */
  lemma {:induction false} AddEdgesNodes(g: Graph, es: seq<Edge>)
    ensures AddEdges(g, es).nodes == g.nodes + Ends(es)
  {
    if es != [] {
      AddEdgesNodes(g, es[..|es| - 1]);
    }
  }

  /** Some entry joins `x` and `y`, in either direction. */
  predicate Joins(es: seq<Edge>, x: string, y: string)
  {
    exists i :: 0 <= i < |es| && {es[i].u, es[i].v} == {x, y}
  }

  /** Two nodes are adjacent after `add_edges_from` exactly when they were before or some entry joins them. */
  lemma {:induction false} AddEdgesAdjacency(g: Graph, es: seq<Edge>, x: string, y: string)
    ensures Adjacent(AddEdges(g, es), x, y) <==> Adjacent(g, x, y) || Joins(es, x, y)
  {
    if es != [] {
      var init := es[..|es| - 1];
      AddEdgesAdjacency(g, init, x, y);
      AddEdgeAdjacency(AddEdges(g, init), es[|es| - 1], x, y);
      JoinsSnoc(es, x, y);
    }
  }

  /** An entry joining the pair is among the earlier entries or is the last one. */
  lemma JoinsSnoc(es: seq<Edge>, x: string, y: string)
    requires es != []
    ensures Joins(es, x, y) <==> Joins(es[..|es| - 1], x, y) || {es[|es| - 1].u, es[|es| - 1].v} == {x, y}
  {
    var init := es[..|es| - 1];
    if Joins(es, x, y) && {es[|es| - 1].u, es[|es| - 1].v} != {x, y} {
      var i :| 0 <= i < |es| && {es[i].u, es[i].v} == {x, y};
      assert init[i] == es[i];
    }
    if Joins(init, x, y) {
      var i :| 0 <= i < |init| && {init[i].u, init[i].v} == {x, y};
      assert init[i] == es[i];
    }
  }

  /** The neighbours of a node; a self-loop makes the node its own neighbour. */
  function Neighbours(g: Graph, n: string): set<string>
  {
    set k, y | k in g.edges && n in k && y in k && (y != n || |k| == 1) :: y
  }

  /** `G.degree[n]`: the number of neighbours, where a self-loop counts twice. */
  function Degree(g: Graph, n: string): nat
  {
    |Neighbours(g, n)| + if {n} in g.edges then 1 else 0
  }

  /** `nx.is_simple_path`: a non-empty sequence of distinct nodes of the graph, each adjacent to the next. */
  predicate IsSimplePath(g: Graph, nodes: seq<string>)
  {
    if |nodes| == 0 then false
    else if |nodes| == 1 then nodes[0] in g.nodes
    else
      && (forall i :: 0 <= i < |nodes| ==> nodes[i] in g.nodes)
      && (forall i, j :: 0 <= i < j < |nodes| ==> nodes[i] != nodes[j])
      && (forall i :: 0 <= i < |nodes| - 1 ==> Adjacent(g, nodes[i], nodes[i + 1]))
  }

  /** A walk from `a` to `b`: non-empty, from `a` to `b`, each node adjacent to the next. */
  predicate IsWalk(g: Graph, nodes: seq<string>, a: string, b: string)
  {
    |nodes| >= 1 && nodes[0] == a && nodes[|nodes| - 1] == b
    && forall i :: 0 <= i < |nodes| - 1 ==> Adjacent(g, nodes[i], nodes[i + 1])
  }
}
