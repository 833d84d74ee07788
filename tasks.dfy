/**
 * The task records of the game (`structures/task.py`): the path a task's waypoints give, whether
 * that path uses a high-speed line, removing None-valued fields recursively, and hoisting the
 * fields every sub-task shares into one extra sub-task.
 */
module Tasks {
  import opened Wrappers
  import opened Json
  import opened Graphs
  import opened ShortestPaths

  // ---------------------------------------------------------------------------------------------
  // TcTask.shortest_path

  /**
   * `TcTask.shortest_path`: the Dijkstra path of each consecutive pair of waypoints, weighted by
   * `length`, the first one whole and each later one without its first node. With fewer than two
   * waypoints there is no first pair, and `__next__` raises StopIteration.
   */
  function TaskPath(g: Graph, stations: seq<string>, dijkstra: Dijkstra): (r: Result<seq<string>>)
    ensures |stations| < 2 ==> r == Err(StopIteration)
    ensures |stations| >= 2 ==> r == Through(g, stations, DistanceWeight, dijkstra, |stations| - 1)
  {
    if |stations| < 2 then Err(StopIteration)
    else Through(g, stations, DistanceWeight, dijkstra, |stations| - 1)
  }

  /** With a Dijkstra that returns walks, a task's path runs from its first to its last waypoint along edges of the graph. */
  lemma TaskPathIsWalk(g: Graph, stations: seq<string>, dijkstra: Dijkstra)
    requires Sound(dijkstra) && TaskPath(g, stations, dijkstra).Ok?
    ensures IsWalk(g, TaskPath(g, stations, dijkstra).value, stations[0], stations[|stations| - 1])
  {
    ThroughIsWalk(g, stations, DistanceWeight, dijkstra, |stations| - 1);
  }

  /** `TcTask.shortest_path` as a method: the concatenating loop, and no path for fewer than two waypoints. */
  method ShortestPath(g: Graph, stations: seq<string>, dijkstra: Dijkstra) returns (r: Result<seq<string>>)
    ensures r == TaskPath(g, stations, dijkstra)
  {
    var path := ConcatenatePaths(g, stations, DistanceWeight, dijkstra);
    if path.Err? {
      return Err(path.error);
    }
    if path.value.None? {
      return Err(StopIteration);
    }
    return Ok(path.value.value);
  }

  // ---------------------------------------------------------------------------------------------
  // TcTask.uses_sfs

  /** `edge['group'] == 2`, with Python's numeric equality. */
  predicate IsSfsGroup(v: Value)
  {
    AsNumber(v) == Some(2.0)
  }

  /** The `i`-th pair of the path is an edge with a group other than 2. */
  predicate PlainPair(g: Graph, path: seq<string>, i: nat)
    requires i + 1 < |path|
  {
    Adjacent(g, path[i], path[i + 1])
    && "group" in g.edges[{path[i], path[i + 1]}]
    && !IsSfsGroup(g.edges[{path[i], path[i + 1]}]["group"])
  }

  /** The `i`-th pair of the path is an edge of group 2. */
  predicate SfsPair(g: Graph, path: seq<string>, i: nat)
    requires i + 1 < |path|
  {
    Adjacent(g, path[i], path[i + 1])
    && "group" in g.edges[{path[i], path[i + 1]}]
    && IsSfsGroup(g.edges[{path[i], path[i + 1]}]["group"])
  }

  /** Every pair from the `i`-th up to the `k`-th, exclusive, is an edge with a group other than 2. */
  predicate PlainBefore(g: Graph, path: seq<string>, i: nat, k: nat)
    requires k < |path|
  {
    forall j :: i <= j < k ==> PlainPair(g, path, j)
  }

  /**
   * The loop of `uses_sfs` from the `i`-th consecutive pair on: `graph[a][b]` raises KeyError
   * when the pair is no edge, an edge without `group` ends the loop with False, one of group 2
   * with True, and running out of pairs gives False.
   */
  function SfsFrom(g: Graph, path: seq<string>, i: nat): (r: Result<bool>)
    decreases |path| - i
  {
    if i + 1 >= |path| then Ok(false)
    else if !Adjacent(g, path[i], path[i + 1]) then Err(KeyError)
    else if "group" !in g.edges[{path[i], path[i + 1]}] then Ok(false)
    else if IsSfsGroup(g.edges[{path[i], path[i + 1]}]["group"]) then Ok(true)
    else SfsFrom(g, path, i + 1)
  }

  /** The loop answers True exactly when some pair is of group 2 and every pair before it is an edge with another group. */
  lemma {:induction false} SfsFromMeaning(g: Graph, path: seq<string>, i: nat)
    ensures SfsFrom(g, path, i) == Ok(true) <==>
      exists k :: i <= k && k + 1 < |path| && SfsPair(g, path, k) && PlainBefore(g, path, i, k)
    decreases |path| - i
  {
    if i + 1 < |path| && PlainPair(g, path, i) {
      SfsFromMeaning(g, path, i + 1);
      if SfsFrom(g, path, i + 1) == Ok(true) {
        var k :| i + 1 <= k && k + 1 < |path| && SfsPair(g, path, k) && PlainBefore(g, path, i + 1, k);
        assert PlainBefore(g, path, i, k);
      }
      if exists k :: i <= k && k + 1 < |path| && SfsPair(g, path, k) && PlainBefore(g, path, i, k) {
        var k :| i <= k && k + 1 < |path| && SfsPair(g, path, k) && PlainBefore(g, path, i, k);
        assert k != i;
      }
    } else if i + 1 < |path| {
      if SfsPair(g, path, i) {
        assert PlainBefore(g, path, i, i);
      }
      if exists k :: i <= k && k + 1 < |path| && SfsPair(g, path, k) && PlainBefore(g, path, i, k) {
        var k :| i <= k && k + 1 < |path| && SfsPair(g, path, k) && PlainBefore(g, path, i, k);
        assert k == i;
      }
    }
  }

  /** Along a walk every pair is an edge, so the loop never raises. */
  lemma {:induction false} SfsFromWalk(g: Graph, path: seq<string>, i: nat)
    requires forall j :: 0 <= j < |path| - 1 ==> Adjacent(g, path[j], path[j + 1])
    ensures SfsFrom(g, path, i).Ok?
    decreases |path| - i
  {
    if i + 1 < |path| {
      SfsFromWalk(g, path, i + 1);
    }
  }

  /** `uses_sfs`: the task's path, then the loop over its consecutive pairs. */
  function UsesSfs(g: Graph, stations: seq<string>, dijkstra: Dijkstra): Result<bool>
  {
    var path :- TaskPath(g, stations, dijkstra);
    SfsFrom(g, path, 0)
  }

  /** With a Dijkstra that returns walks, `uses_sfs` fails only when no path is found, and says True exactly for a group-2 edge reached before any edge without a group. */
  lemma UsesSfsMeaning(g: Graph, stations: seq<string>, dijkstra: Dijkstra)
    requires Sound(dijkstra) && TaskPath(g, stations, dijkstra).Ok?
    ensures UsesSfs(g, stations, dijkstra).Ok?
    ensures var path := TaskPath(g, stations, dijkstra).value;
      UsesSfs(g, stations, dijkstra) == Ok(true) <==>
        exists k :: 0 <= k && k + 1 < |path| && SfsPair(g, path, k) && PlainBefore(g, path, 0, k)
  {
    TaskPathIsWalk(g, stations, dijkstra);
    var path := TaskPath(g, stations, dijkstra).value;
    SfsFromWalk(g, path, 0);
    SfsFromMeaning(g, path, 0);
  }

  /** `uses_sfs` as a method, with its `for ... else` loop. */
  method UsesSfsLoop(g: Graph, stations: seq<string>, dijkstra: Dijkstra) returns (r: Result<bool>)
    ensures r == UsesSfs(g, stations, dijkstra)
  {
    var found := ShortestPath(g, stations, dijkstra);
    if found.Err? {
      return Err(found.error);
    }
    var path := found.value;
    var i := 0;
    while i + 1 < |path|
      invariant SfsFrom(g, path, 0) == SfsFrom(g, path, i)
      decreases |path| - i
    {
      if !Adjacent(g, path[i], path[i + 1]) {
        return Err(KeyError);
      }
      var edge := g.edges[{path[i], path[i + 1]}];
      if "group" !in edge {
        return Ok(false);
      }
      if IsSfsGroup(edge["group"]) {
        return Ok(true);
      }
      i := i + 1;
    }
    return Ok(false);
  }

  // ---------------------------------------------------------------------------------------------
  // cleanup_task

  /**
   * `cleanup_task`, on the value of the task: the None-valued fields go first, then the
   * sub-tasks under a remaining `objects` are cleaned in turn.
   */
  function CleanupTask(task: Dict): (r: Result<Dict>)
    ensures r.Ok? ==> forall k :: k in r.value <==> k in task && task[k] != Null
    ensures r.Ok? ==> forall k :: k in r.value && k != "objects" ==> r.value[k] == task[k]
    decreases Obj(task), 2
  {
    var base := WithoutNulls(task);
    if "objects" !in base then Ok(base)
    else
      var subs :- CleanupObjects(base["objects"]);
      Ok(base["objects" := subs])
  }

  /**
   * `for task in task['objects']: cleanup_task(task)`: a list is walked item by item, and an
   * item that is not a dictionary has no `copy().items()`; an empty string or dictionary yields
   * nothing, a non-empty one yields strings; other values are not iterable.
   */
  function CleanupObjects(objects: Value): (r: Result<Value>)
    ensures r.Ok? ==> (r.value.Arr? <==> objects.Arr?)
    ensures r.Ok? && !objects.Arr? ==> r.value == objects
    decreases objects, 1
  {
    match objects
    case Arr(items) =>
      var done :- CleanupItems(objects, |items|);
      Ok(Arr(done))
    case Obj(m) => if m == map[] then Ok(objects) else Err(AttributeError)
    case Str(s) => if s == [] then Ok(objects) else Err(AttributeError)
    case _ => Err(TypeError)
  }

  /** The first `n` sub-tasks of a list, each cleaned. */
  function CleanupItems(objects: Value, n: nat): (r: Result<seq<Value>>)
    requires objects.Arr? && n <= |objects.items|
    ensures r.Ok? ==> |r.value| == n
    decreases objects, 0, n
  {
    if n == 0 then Ok([])
    else
      var before :- CleanupItems(objects, n - 1);
      var item := objects.items[n - 1];
      if !item.Obj? then Err(AttributeError)
      else
        var sub :- CleanupTask(item.fields);
        Ok(before + [Obj(sub)])
  }

  /** The task and every sub-task under `objects`, recursively, hold no None value. */
  predicate NoNulls(task: Dict)
    decreases Obj(task), 1
  {
    (forall k :: k in task ==> task[k] != Null)
    && ("objects" in task && task["objects"].Arr? ==> ItemsNoNulls(task["objects"]))
  }

  predicate ItemsNoNulls(objects: Value)
    requires objects.Arr?
    decreases objects, 0
  {
    forall i :: 0 <= i < |objects.items| ==> objects.items[i].Obj? ==> NoNulls(objects.items[i].fields)
  }

  /** The cleaned list holds the cleaned sub-tasks, item by item. */
  lemma {:induction false} CleanupItemsMeaning(objects: Value, n: nat)
    requires objects.Arr? && n <= |objects.items|
    requires CleanupItems(objects, n).Ok?
    ensures forall i :: 0 <= i < n ==>
      objects.items[i].Obj? && CleanupTask(objects.items[i].fields).Ok?
      && CleanupItems(objects, n).value[i] == Obj(CleanupTask(objects.items[i].fields).value)
    decreases n
  {
    if n > 0 {
      CleanupItemsMeaning(objects, n - 1);
    }
  }

  /** A cleaned task holds no None value anywhere. */
  lemma {:induction false} CleanedHasNoNulls(task: Dict)
    requires CleanupTask(task).Ok?
    ensures NoNulls(CleanupTask(task).value)
    decreases Obj(task)
  {
    var r := CleanupTask(task).value;
    if "objects" in r && r["objects"].Arr? {
      var objects := task["objects"];
      var n := |objects.items|;
      CleanupItemsMeaning(objects, n);
      forall i | 0 <= i < n
        ensures NoNulls(CleanupTask(objects.items[i].fields).value)
      {
        CleanedHasNoNulls(objects.items[i].fields);
      }
      assert ItemsNoNulls(r["objects"]);
    }
  }

  lemma {:induction false} CleanupItemsErrorPersists(objects: Value, j: nat)
    requires objects.Arr? && j <= |objects.items| && CleanupItems(objects, j).Err?
    ensures CleanupItems(objects, |objects.items|) == CleanupItems(objects, j)
    decreases |objects.items| - j
  {
    if j < |objects.items| {
      CleanupItemsErrorPersists(objects, j + 1);
    }
  }

  /** `cleanup_task`, popping the None-valued fields and walking the sub-tasks in a loop. */
  method CleanupTaskInPlace(task: Dict) returns (r: Result<Dict>)
    ensures r == CleanupTask(task)
    decreases Obj(task)
  {
    var base := WithoutNulls(task);
    if "objects" !in base {
      return Ok(base);
    }
    var objects := base["objects"];
    if !objects.Arr? {
      var subs := CleanupObjects(objects);
      if subs.Err? {
        return Err(subs.error);
      }
      return Ok(base["objects" := subs.value]);
    }
    var items := objects.items;
    var done: seq<Value> := [];
    var i := 0;
    while i < |items|
      invariant 0 <= i <= |items|
      invariant CleanupItems(objects, i) == Ok(done)
    {
      var item := items[i];
      if !item.Obj? {
        CleanupItemsErrorPersists(objects, i + 1);
        return Err(AttributeError);
      }
      var sub := CleanupTaskInPlace(item.fields);
      if sub.Err? {
        CleanupItemsErrorPersists(objects, i + 1);
        return Err(sub.error);
      }
      done := done + [Obj(sub.value)];
      i := i + 1;
    }
    return Ok(base["objects" := Arr(done)]);
  }

  // ---------------------------------------------------------------------------------------------
  // extract_remaining_subtask_from_task

  /**
   * The sub-tasks as dictionaries, for `subtask.keys()`: a list of dictionaries; any other item,
   * and the strings a non-empty string or dictionary yields, has no `keys`; other values are
   * not iterable.
   */
  function SubDicts(objects: Value): (r: Result<seq<Dict>>)
    ensures r.Ok? && objects.Arr? ==> |r.value| == |objects.items|
    ensures r.Ok? && objects.Arr? ==> forall i :: 0 <= i < |objects.items| ==> objects.items[i] == Obj(r.value[i])
    ensures r.Ok? ==> objects.Arr?
    ensures objects.Arr? && (forall i :: 0 <= i < |objects.items| ==> objects.items[i].Obj?) ==> r.Ok?
  {
    match objects
    case Arr(items) => ItemDicts(items)
    case Obj(_) => Err(AttributeError)
    case Str(_) => Err(AttributeError)
    case _ => Err(TypeError)
  }

  function ItemDicts(items: seq<Value>): (r: Result<seq<Dict>>)
    ensures r.Ok? ==> |r.value| == |items| && forall i :: 0 <= i < |items| ==> items[i] == Obj(r.value[i])
    ensures (forall i :: 0 <= i < |items| ==> items[i].Obj?) ==> r.Ok?
  {
    if items == [] then Ok([])
    else
      var before :- ItemDicts(items[..|items| - 1]);
      var last := items[|items| - 1];
      if !last.Obj? then Err(AttributeError) else Ok(before + [last.fields])
  }

  /** The keys of the first sub-task, intersected with those of each later one. */
  function CommonKeys(subs: seq<Dict>): (r: set<string>)
    requires |subs| >= 1
    ensures forall k :: k in r <==> forall i :: 0 <= i < |subs| ==> k in subs[i]
  {
    if |subs| == 1 then subs[0].Keys
    else CommonKeys(subs[..|subs| - 1]) * subs[|subs| - 1].Keys
  }

  /** The popped keys with the task's values. */
  function Popped(task: Dict, keys: set<string>): (r: Dict)
    requires keys <= task.Keys
    ensures r.Keys == keys && forall k :: k in r ==> r[k] == task[k]
  {
    map k | k in keys :: task[k]
  }

  /** The task without the popped keys. */
  function Rest(task: Dict, keys: set<string>): (r: Dict)
    ensures forall k :: k in r <==> k in task && k !in keys
    ensures forall k :: k in r ==> r[k] == task[k]
  {
    map k | k in task && k !in keys :: task[k]
  }

  /**
   * `extract_remaining_subtask_from_task`, on the value of the task: with a non-empty `objects`,
   * every key all sub-tasks carry is popped from the task (KeyError if the task lacks it) into a
   * new sub-task, which is appended only when it is not empty; if `objects` was among the
   * popped keys, the append finds no `objects` and raises KeyError.
   */
  function ExtractRemaining(task: Dict): (r: Result<Dict>)
  {
    if "objects" !in task || !Truthy(task["objects"]) then Ok(task)
    else
      var subs :- SubDicts(task["objects"]);
      var common := CommonKeys(subs);
      if !(common <= task.Keys) then Err(KeyError)
      else
        var popped := Popped(task, common);
        var rest := Rest(task, common);
        if popped == map[] then Ok(rest)
        else if "objects" !in rest then Err(KeyError)
        else Ok(rest["objects" := Arr(task["objects"].items + [Obj(popped)])])
  }

  /**
   * What extracting does: the keys every sub-task carries leave the task and form one new,
   * last sub-task holding the task's values; when there is no such key the task is unchanged;
   * no value is lost.
   */
  lemma ExtractRemainingMeaning(task: Dict)
    requires "objects" in task && Truthy(task["objects"]) && ExtractRemaining(task).Ok?
    ensures var subs := SubDicts(task["objects"]).value;
      var r := ExtractRemaining(task).value;
      var common := CommonKeys(subs);
      && (common == {} ==> r == task)
      && (common != {} ==>
        && "objects" !in common
        && r["objects"] == Arr(task["objects"].items + [Obj(map k | k in common :: task[k])])
        && (forall k :: k != "objects" ==> (k in r <==> k in task && k !in common))
        && (forall k :: k in r && k != "objects" ==> r[k] == task[k]))
  {
    var common := CommonKeys(SubDicts(task["objects"]).value);
    if common == {} {
      ExtractRemainingUnshared(task);
    } else {
      ExtractRemainingShared(task);
    }
  }

  lemma ExtractRemainingUnshared(task: Dict)
    requires "objects" in task && Truthy(task["objects"]) && ExtractRemaining(task).Ok?
    requires CommonKeys(SubDicts(task["objects"]).value) == {}
    ensures ExtractRemaining(task).value == task
  {
    var common := CommonKeys(SubDicts(task["objects"]).value);
    assert Popped(task, common) == map[];
    assert Rest(task, common) == task;
  }

  lemma ExtractRemainingShared(task: Dict)
    requires "objects" in task && Truthy(task["objects"]) && ExtractRemaining(task).Ok?
    requires CommonKeys(SubDicts(task["objects"]).value) != {}
    ensures var r := ExtractRemaining(task).value;
      var common := CommonKeys(SubDicts(task["objects"]).value);
      && "objects" !in common
      && r["objects"] == Arr(task["objects"].items + [Obj(map k | k in common :: task[k])])
      && (forall k :: k != "objects" ==> (k in r <==> k in task && k !in common))
      && (forall k :: k in r && k != "objects" ==> r[k] == task[k])
  {
    var common := CommonKeys(SubDicts(task["objects"]).value);
    var k :| k in common;
    var popped := Popped(task, common);
    var rest := Rest(task, common);
    assert k in popped;
    assert "objects" in rest;
    assert popped == map k | k in common :: task[k];
    assert ExtractRemaining(task).value == rest["objects" := Arr(task["objects"].items + [Obj(popped)])];
  }

  /** Every sub-task carrying `objects` makes the append fail, even though the fields were found. */
  lemma ExtractingObjectsFails(task: Dict)
    requires "objects" in task && task["objects"].Arr? && task["objects"].items != []
    requires forall i :: 0 <= i < |task["objects"].items| ==> task["objects"].items[i].Obj? && task["objects"].items[i].fields.Keys <= task.Keys
    requires forall i :: 0 <= i < |task["objects"].items| ==> "objects" in task["objects"].items[i].fields
    ensures ExtractRemaining(task) == Err(KeyError)
  {
    var subs := SubDicts(task["objects"]).value;
    assert "objects" in CommonKeys(subs);
    assert subs[0].Keys <= task.Keys by {
      assert task["objects"].items[0] == Obj(subs[0]);
    }
    assert CommonKeys(subs) <= subs[0].Keys;
    assert "objects" in Popped(task, CommonKeys(subs));
  }

  /** `extract_remaining_subtask_from_task`: the intersecting loop over the sub-tasks, then the loop popping the shared keys. */
  method ExtractRemainingSubtask(task: Dict) returns (r: Result<Dict>)
    ensures r == ExtractRemaining(task)
  {
    if "objects" !in task || !Truthy(task["objects"]) {
      return Ok(task);
    }
    var found := SubDicts(task["objects"]);
    if found.Err? {
      return Err(found.error);
    }
    var common := IntersectKeys(found.value);
    var split := PopKeys(task, common);
    if split.Err? {
      return Err(split.error);
    }
    var (popped, rest) := split.value;
    if popped == map[] {
      return Ok(rest);
    }
    if "objects" !in rest {
      return Err(KeyError);
    }
    return Ok(rest["objects" := Arr(task["objects"].items + [Obj(popped)])]);
  }

  /** The intersecting loop: the keys of the first sub-task, narrowed by each later one. */
  method IntersectKeys(subs: seq<Dict>) returns (common: set<string>)
    requires |subs| >= 1
    ensures forall k :: k in common <==> forall i :: 0 <= i < |subs| ==> k in subs[i]
    ensures common == CommonKeys(subs)
  {
    common := subs[0].Keys;
    var i := 1;
    while i < |subs|
      invariant 1 <= i <= |subs|
      invariant common == CommonKeys(subs[..i])
    {
      assert subs[..i + 1][..i] == subs[..i];
      common := common * subs[i].Keys;
      i := i + 1;
    }
    assert subs[..i] == subs;
  }

  /** The popping loop: each shared key is popped from the task, KeyError when the task lacks one. */
  method PopKeys(task: Dict, common: set<string>) returns (r: Result<(Dict, Dict)>)
    ensures r.Err? <==> !(common <= task.Keys)
    ensures r.Err? ==> r.error == KeyError
    ensures r.Ok? ==> r.value.0 == Popped(task, common) && r.value.1 == Rest(task, common)
  {
    var rest := task;
    var popped: Dict := map[];
    var left := common;
    while left != {}
      invariant left <= common
      invariant forall k :: k in popped <==> k in common && k !in left
      invariant forall k :: k in popped ==> k in task && popped[k] == task[k]
      invariant forall k :: k in rest <==> k in task && !(k in common && k !in left)
      invariant forall k :: k in rest ==> rest[k] == task[k]
      decreases left
    {
      var k :| k in left;
      if k !in rest {
        return Err(KeyError);
      }
      popped := popped[k := rest[k]];
      rest := Remove(rest, k);
      left := left - {k};
    }
    assert popped == Popped(task, common);
    assert rest == Rest(task, common);
    return Ok((popped, rest));
  }
}
