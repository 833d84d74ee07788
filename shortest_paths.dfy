/**
 * Routing through a list of waypoints (`validation/shortest_paths.py`): one shortest path per pair
 * of consecutive waypoints, glued together with each join node written once, and the filter that
 * keeps only the nodes a driver has to be told about.
 */
module ShortestPaths {
  import opened Wrappers
  import opened Json
  import opened Graphs

  /** `nx.dijkstra_path(graph, from, to, weight=...)`, given from outside; the weight reads an edge's data. */
  type Dijkstra = (Graph, string, string, Dict -> Result<real>) -> Result<seq<string>>

  /** What the toolkit relies on from Dijkstra: a path it returns is a walk from the source to the target. */
  ghost predicate Sound(dijkstra: Dijkstra)
  {
    forall g, a, b, w :: dijkstra(g, a, b, w).Ok? ==> IsWalk(g, dijkstra(g, a, b, w).value, a, b)
  }

  /** `train['speed'] if train and 'maxSpeed' in train else 5000`: the test asks for one key and reads another. */
  function SpeedCap(train: Option<Dict>): (r: Result<Value>)
    ensures train.None? ==> r == Ok(Int(5000))
    ensures train.Some? && "maxSpeed" !in train.value ==> r == Ok(Int(5000))
    ensures train.Some? && "maxSpeed" in train.value ==>
      r == (if "speed" in train.value then Ok(train.value["speed"]) else Err(KeyError))
  {
    if train.Some? && "maxSpeed" in train.value then
      if "speed" in train.value then Ok(train.value["speed"]) else Err(KeyError)
    else Ok(Int(5000))
  }

  /** Python's `min(a, b)`: `b` only when it is strictly smaller. */
  function Min(a: Value, b: Value): (r: Result<Value>)
    ensures r.Ok? <==> AsNumber(a).Some? && AsNumber(b).Some?
    ensures r.Ok? ==> r.value == a || r.value == b
    ensures r.Ok? ==> AsNumber(r.value).Some? && AsNumber(r.value).value <= AsNumber(a).value
    ensures r.Ok? ==> AsNumber(r.value).Some? && AsNumber(r.value).value <= AsNumber(b).value
  {
    var less :- Less(b, a);
    Ok(if less then b else a)
  }

  /** Python's `a / b` on numbers. */
  function Divide(a: Value, b: Value): (r: Result<real>)
    ensures r.Ok? <==> AsNumber(a).Some? && AsNumber(b).Some? && AsNumber(b).value != 0.0
    ensures r.Ok? ==> r.value * AsNumber(b).value == AsNumber(a).value
  {
    match (AsNumber(a), AsNumber(b))
    case (Some(x), Some(y)) => if y == 0.0 then Err(ZeroDivisionError) else Ok(x / y)
    case _ => Err(TypeError)
  }

  /** The travel-time weight: `edge['length'] / min(edge['maxSpeed'], cap)`. */
  function TimeWeight(cap: Value, edge: Dict): (r: Result<real>)
    ensures "length" !in edge || "maxSpeed" !in edge ==> r == Err(KeyError)
  {
    var length :- if "length" in edge then Ok(edge["length"]) else Err(KeyError);
    var maxSpeed :- if "maxSpeed" in edge then Ok(edge["maxSpeed"]) else Err(KeyError);
    var speed :- Min(maxSpeed, cap);
    Divide(length, speed)
  }

  /** The distance weight of `get_shortest_path_distance`: `edge['length']`, which has to be a number. */
  function DistanceWeight(edge: Dict): (r: Result<real>)
    ensures r.Ok? <==> "length" in edge && AsNumber(edge["length"]).Some?
    ensures r.Ok? ==> r.value == AsNumber(edge["length"]).value
  {
    if "length" !in edge then Err(KeyError)
    else match AsNumber(edge["length"])
      case Some(x) => Ok(x)
      case None => Err(TypeError)
  }

  /** With no train, an edge on which the line speed is at most 5000 weighs its length over that speed. */
  lemma NoTrainWeight(edge: Dict, length: real, maxSpeed: int)
    requires "length" in edge && edge["length"] == Float(length)
    requires "maxSpeed" in edge && edge["maxSpeed"] == Int(maxSpeed) && 0 < maxSpeed <= 5000
    ensures SpeedCap(None) == Ok(Int(5000))
    ensures TimeWeight(Int(5000), edge) == Ok(length / maxSpeed as real)
  {
  }

  /** `sub_path[1:]`. */
  function Tail(s: seq<string>): (r: seq<string>)
    ensures s != [] ==> r == s[1..]
    ensures s == [] ==> r == []
  {
    if s == [] then [] else s[1..]
  }

  /**
   * The path through the first `n + 1` waypoints: the first pair's path, then each later pair's
   * path without its first node. The first failing Dijkstra call decides the error.
   */
  function Through(g: Graph, stations: seq<string>, weight: Dict -> Result<real>, dijkstra: Dijkstra, n: nat): Result<seq<string>>
    requires 1 <= n < |stations|
  {
    if n == 1 then dijkstra(g, stations[0], stations[1], weight)
    else
      var before :- Through(g, stations, weight, dijkstra, n - 1);
      var sub :- dijkstra(g, stations[n - 1], stations[n], weight);
      Ok(before + Tail(sub))
  }

  /** The concatenation shared by both functions: None for fewer than two waypoints. */
  function Concatenated(g: Graph, stations: seq<string>, weight: Dict -> Result<real>, dijkstra: Dijkstra): Result<Option<seq<string>>>
  {
    if |stations| >= 2 then
      var path :- Through(g, stations, weight, dijkstra, |stations| - 1);
      Ok(Some(path))
    else Ok(None)
  }

  /** `get_shortest_path`: the speed cap is read before any path is computed. */
  function ShortestPath(g: Graph, stations: seq<string>, train: Option<Dict>, dijkstra: Dijkstra): (r: Result<Option<seq<string>>>)
    ensures |stations| < 2 ==> r == Ok(None)
    ensures |stations| >= 2 && SpeedCap(train).Ok? ==>
      r == Concatenated(g, stations, e => TimeWeight(SpeedCap(train).value, e), dijkstra)
  {
    if |stations| >= 2 then
      var cap :- SpeedCap(train);
      Concatenated(g, stations, e => TimeWeight(cap, e), dijkstra)
    else Ok(None)
  }

  /** `get_shortest_path_distance`: the same concatenation, weighted by length. */
  function ShortestPathDistance(g: Graph, stations: seq<string>, dijkstra: Dijkstra): (r: Result<Option<seq<string>>>)
    ensures r.Ok? && r.value.Some? <==> |stations| >= 2 && Through(g, stations, DistanceWeight, dijkstra, |stations| - 1).Ok?
  {
    Concatenated(g, stations, DistanceWeight, dijkstra)
  }

  /** A walk that ends where another starts continues it, its first node dropped. */
  lemma WalkJoin(g: Graph, p: seq<string>, q: seq<string>, a: string, b: string, c: string)
    requires IsWalk(g, p, a, b) && IsWalk(g, q, b, c)
    ensures IsWalk(g, p + Tail(q), a, c)
  {
    var r := p + Tail(q);
    if |q| > 1 {
      forall i | 0 <= i < |r| - 1
        ensures Adjacent(g, r[i], r[i + 1])
      {
        if i >= |p| - 1 {
          assert r[i] == q[i - |p| + 1] && r[i + 1] == q[i - |p| + 2];
        }
      }
    } else {
      assert r == p;
    }
  }

  /**
   * The path through the first `n + 1` waypoints runs from the first to the `n`-th waypoint along
   * edges of the graph, and extends the path through every shorter prefix of the waypoints, so
   * the `k`-th waypoint sits at the end of that prefix: every waypoint occurs, in order.
   */
  lemma {:induction false} ThroughIsWalk(g: Graph, stations: seq<string>, weight: Dict -> Result<real>, dijkstra: Dijkstra, n: nat)
    requires Sound(dijkstra) && 1 <= n < |stations|
    requires Through(g, stations, weight, dijkstra, n).Ok?
    ensures IsWalk(g, Through(g, stations, weight, dijkstra, n).value, stations[0], stations[n])
  {
    if n > 1 {
      ThroughIsWalk(g, stations, weight, dijkstra, n - 1);
      var before := Through(g, stations, weight, dijkstra, n - 1).value;
      var sub := dijkstra(g, stations[n - 1], stations[n], weight).value;
      WalkJoin(g, before, sub, stations[0], stations[n - 1], stations[n]);
    }
  }

  lemma {:induction false} ThroughExtends(g: Graph, stations: seq<string>, weight: Dict -> Result<real>, dijkstra: Dijkstra, k: nat, n: nat)
    requires 1 <= k <= n < |stations|
    requires Through(g, stations, weight, dijkstra, n).Ok?
    ensures Through(g, stations, weight, dijkstra, k).Ok?
    ensures Through(g, stations, weight, dijkstra, k).value <= Through(g, stations, weight, dijkstra, n).value
    decreases n - k
  {
    if k < n {
      ThroughExtends(g, stations, weight, dijkstra, k, n - 1);
    }
  }

  /** A path through all waypoints starts at the first, ends at the last, and passes each waypoint in order. */
  lemma ShortestPathVisitsWaypoints(g: Graph, stations: seq<string>, weight: Dict -> Result<real>, dijkstra: Dijkstra, k: nat)
    requires Sound(dijkstra) && 1 <= k < |stations|
    requires Concatenated(g, stations, weight, dijkstra).Ok? && Concatenated(g, stations, weight, dijkstra).value.Some?
    ensures var path := Concatenated(g, stations, weight, dijkstra).value.value;
      var prefix := Through(g, stations, weight, dijkstra, k);
      IsWalk(g, path, stations[0], stations[|stations| - 1])
      && prefix.Ok? && prefix.value <= path && |prefix.value| >= 1 && path[|prefix.value| - 1] == stations[k]
  {
    var n := |stations| - 1;
    ThroughIsWalk(g, stations, weight, dijkstra, n);
    ThroughExtends(g, stations, weight, dijkstra, k, n);
    ThroughIsWalk(g, stations, weight, dijkstra, k);
  }

  /** `get_shortest_path`'s loop, for either weight: the first pair's path, then `extend(sub_path[1:])` for the others. */
  method ConcatenatePaths(g: Graph, stations: seq<string>, weight: Dict -> Result<real>, dijkstra: Dijkstra)
    returns (r: Result<Option<seq<string>>>)
    ensures r == Concatenated(g, stations, weight, dijkstra)
  {
    if |stations| < 2 {
      return Ok(None);
    }
    var first := dijkstra(g, stations[0], stations[1], weight);
    if first.Err? {
      ThroughErrorPersists(g, stations, weight, dijkstra, 1);
      return Err(first.error);
    }
    var path := first.value;
    var i := 1;
    while i < |stations| - 1
      invariant 1 <= i <= |stations| - 1
      invariant Through(g, stations, weight, dijkstra, i) == Ok(path)
    {
      var sub := dijkstra(g, stations[i], stations[i + 1], weight);
      if sub.Err? {
        ThroughErrorPersists(g, stations, weight, dijkstra, i + 1);
        return Err(sub.error);
      }
      path := path + Tail(sub.value);
      i := i + 1;
    }
    return Ok(Some(path));
  }

  lemma {:induction false} ThroughErrorPersists(g: Graph, stations: seq<string>, weight: Dict -> Result<real>, dijkstra: Dijkstra, j: nat)
    requires 1 <= j < |stations| && Through(g, stations, weight, dijkstra, j).Err?
    ensures Through(g, stations, weight, dijkstra, |stations| - 1) == Through(g, stations, weight, dijkstra, j)
    decreases |stations| - j
  {
    if j < |stations| - 1 {
      ThroughErrorPersists(g, stations, weight, dijkstra, j + 1);
    }
  }

  /** `get_shortest_path` as a method. */
  method GetShortestPath(g: Graph, stations: seq<string>, train: Option<Dict>, dijkstra: Dijkstra)
    returns (r: Result<Option<seq<string>>>)
    ensures r == ShortestPath(g, stations, train, dijkstra)
  {
    if |stations| < 2 {
      return Ok(None);
    }
    var cap := SpeedCap(train);
    if cap.Err? {
      return Err(cap.error);
    }
    r := ConcatenatePaths(g, stations, e => TimeWeight(cap.value, e), dijkstra);
  }

  /** `get_shortest_path_distance` as a method. */
  method GetShortestPathDistance(g: Graph, stations: seq<string>, dijkstra: Dijkstra)
    returns (r: Result<Option<seq<string>>>)
    ensures r == ShortestPathDistance(g, stations, dijkstra)
  {
    r := ConcatenatePaths(g, stations, DistanceWeight, dijkstra);
  }

  // ---------------------------------------------------------------------------------------------
  // without_trivial_nodes

  /** A node worth naming: a node of the graph that branches (degree above 2) or is a waypoint. */
  predicate Kept(g: Graph, stations: seq<string>, node: string)
  {
    node in g.nodes && (Degree(g, node) > 2 || node in stations)
  }

  /** `without_trivial_nodes`: `graph.degree(path)` skips nodes that are not in the graph. */
  function WithoutTrivialNodes(g: Graph, stations: seq<string>, path: seq<string>): (r: seq<string>)
    ensures |r| <= |path|
    ensures forall x :: x in r ==> Kept(g, stations, x)
  {
    if path == [] then []
    else
      var before := WithoutTrivialNodes(g, stations, path[..|path| - 1]);
      if Kept(g, stations, path[|path| - 1]) then before + [path[|path| - 1]] else before
  }

  /** `a` is `b` with some elements left out, in the same order. */
  predicate SubsequenceOf(a: seq<string>, b: seq<string>)
    decreases |b|
  {
    if a == [] then true
    else if b == [] then false
    else if a[|a| - 1] == b[|b| - 1] then SubsequenceOf(a[..|a| - 1], b[..|b| - 1])
    else SubsequenceOf(a, b[..|b| - 1])
  }

  /** The filtered path keeps exactly the kept nodes of the path, in path order. */
  lemma {:induction false} WithoutTrivialNodesMeaning(g: Graph, stations: seq<string>, path: seq<string>)
    ensures var r := WithoutTrivialNodes(g, stations, path);
      SubsequenceOf(r, path) && forall x :: x in r <==> x in path && Kept(g, stations, x)
  {
    if path != [] {
      var init := path[..|path| - 1];
      var last := path[|path| - 1];
      WithoutTrivialNodesMeaning(g, stations, init);
      var before := WithoutTrivialNodes(g, stations, init);
      assert path == init + [last];
      if Kept(g, stations, last) {
        assert (before + [last])[..|before|] == before;
      } else if before != [] {
        assert before[|before| - 1] in before;
      }
    }
  }

  /** Every waypoint the path passes through, if it is a node of the graph, survives the filter. */
  lemma WaypointsKept(g: Graph, stations: seq<string>, path: seq<string>, i: nat)
    requires i < |stations| && stations[i] in path && stations[i] in g.nodes
    ensures stations[i] in WithoutTrivialNodes(g, stations, path)
  {
    WithoutTrivialNodesMeaning(g, stations, path);
  }

  /** The filter keeps what it has kept: applying it twice is applying it once. */
  lemma {:induction false} WithoutTrivialNodesIdempotent(g: Graph, stations: seq<string>, path: seq<string>)
    ensures WithoutTrivialNodes(g, stations, WithoutTrivialNodes(g, stations, path)) == WithoutTrivialNodes(g, stations, path)
  {
    if path != [] {
      var init := path[..|path| - 1];
      var last := path[|path| - 1];
      WithoutTrivialNodesIdempotent(g, stations, init);
      var before := WithoutTrivialNodes(g, stations, init);
      if Kept(g, stations, last) {
        assert (before + [last])[..|before|] == before;
      }
    }
  }
}
