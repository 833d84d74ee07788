/**
 * Refreshing the path suggestions of the task models (`update_path_suggestions.py`): a task with
 * waypoints gets the suggested path through them unless it already has one (or the update is
 * forced), a suggestion that adds nothing is dropped, and sub-tasks under `objects` are treated
 * the same way. The suggestion itself, the routing graph it is computed on and the per-service
 * configuration table come from outside, so the configuration type is a parameter.
 */
module UpdatePaths {
  import opened Wrappers
  import opened Json
  import opened Seqs
  import opened Text

  /**
   * What one run of `update_path_suggestion` is given: the configuration, whether it asks for the
   * per-service configuration (`auto_service`), the per-service table (`path_suggestion_configs`,
   * which is not part of this model), the suggestion itself (`get_path_suggestion` on the graph
   * and the station groups, from the waypoints and a configuration), and `force`.
   */
  datatype Settings<!C> = Settings(
    config: C,
    autoService: bool,
    services: map<Value, C>,
    suggest: (Value, C) -> Result<seq<string>>,
    force: bool)

  /** The configuration a task is routed with: its service's one when `auto_service` is set and the task names a service. */
  function ConfigFor<C>(task: Dict, st: Settings<C>): (r: Result<C>)
    ensures !st.autoService || "service" !in task ==> r == Ok(st.config)
    ensures st.autoService && "service" in task ==>
      (r.Ok? <==> Hashable(task["service"]) && task["service"] in st.services)
    ensures st.autoService && "service" in task && r.Ok? ==> r.value == st.services[task["service"]]
    ensures st.autoService && "service" in task && !Hashable(task["service"]) ==> r == Err(TypeError)
  {
    if st.autoService && "service" in task then
      if !Hashable(task["service"]) then Err(TypeError)
      else if task["service"] in st.services then Ok(st.services[task["service"]])
      else Err(KeyError)
    else Ok(st.config)
  }

  /** A list of station codes as a JSON list. */
  function AsValue(p: seq<string>): (r: Value)
    ensures r.Arr? && |r.items| == |p|
    ensures forall i :: 0 <= i < |p| ==> r.items[i] == Str(p[i])
  {
    Arr(seq(|p|, i requires 0 <= i < |p| => Str(p[i])))
  }

  /**
   * The `try` block: a non-empty suggestion is stored under `pathSuggestion`; an empty one, or a
   * missing path (which is logged), leaves the task as it was; any other error propagates.
   */
  function Suggested<C>(task: Dict, st: Settings<C>): (r: Result<Dict>)
    requires "stations" in task
    ensures ConfigFor(task, st).Err? ==> r == Err(ConfigFor(task, st).error)
    ensures ConfigFor(task, st).Ok? ==>
      var found := st.suggest(task["stations"], ConfigFor(task, st).value);
      (found == Err(NoPath) || found == Ok([]) ==> r == Ok(task))
      && (found.Err? && found.error != NoPath ==> r == Err(found.error))
      && (found.Ok? && found.value != [] ==> r == Ok(task["pathSuggestion" := AsValue(found.value)]))
  {
    var c :- ConfigFor(task, st);
    var found := st.suggest(task["stations"], c);
    if found.Err? then
      if found.error == NoPath then Ok(task) else Err(found.error)
    else if found.value == [] then Ok(task)
    else Ok(task["pathSuggestion" := AsValue(found.value)])
  }

  /** A suggestion that is empty, or the waypoints themselves, is removed. */
  function Pruned(task: Dict): (r: Dict)
    requires "stations" in task
    ensures "stations" in r && r["stations"] == task["stations"]
    ensures "pathSuggestion" in r ==> r["pathSuggestion"] != r["stations"] && Truthy(r["pathSuggestion"])
    ensures "pathSuggestion" in task && task["pathSuggestion"] != task["stations"] && Truthy(task["pathSuggestion"]) ==> r == task
    ensures forall k :: k != "pathSuggestion" ==> (k in r <==> k in task) && (k in r ==> r[k] == task[k])
  {
    if "pathSuggestion" in task && (task["pathSuggestion"] == task["stations"] || !Truthy(task["pathSuggestion"])) then
      Remove(task, "pathSuggestion")
    else task
  }

  /** The part of `update_path_suggestion` about the task's own waypoints. */
  function UpdateOwn<C>(task: Dict, st: Settings<C>): (r: Result<Dict>)
    requires "stations" in task
    ensures !st.force && "pathSuggestion" in task ==> r == Ok(Pruned(task))
    ensures st.force || "pathSuggestion" !in task ==>
      (r.Ok? <==> Suggested(task, st).Ok?) && (r.Ok? ==> r.value == Pruned(Suggested(task, st).value))
    ensures r.Ok? ==> forall k :: k != "pathSuggestion" ==> (k in r.value <==> k in task) && (k in r.value ==> r.value[k] == task[k])
    ensures r.Ok? && "pathSuggestion" in r.value ==> r.value["pathSuggestion"] != task["stations"] && Truthy(r.value["pathSuggestion"])
  {
    var t :- if st.force || "pathSuggestion" !in task then Suggested(task, st) else Ok(task);
    Ok(Pruned(t))
  }

  /**
   * A value met while walking `objects` that is not a dictionary is left alone when neither
   * `'stations' in` nor `'objects' in` holds for it; otherwise indexing it by that string raises
   * TypeError, as does `in` on a value that is not a container.
   */
  predicate Inert(v: Value)
  {
    match v
    case Str(s) => !Contains(s, "stations") && !Contains(s, "objects")
    case Arr(xs) => Str("stations") !in xs && Str("objects") !in xs
    case Obj(_) => false
    case _ => false
  }

  /** `update_path_suggestion`, on the value of the task: its own suggestion first, then the sub-tasks. */
  function UpdateTask<C>(task: Dict, st: Settings<C>): (r: Result<Dict>)
    ensures r.Ok? ==> forall k :: k != "pathSuggestion" && k != "objects" ==>
      (k in r.value <==> k in task) && (k in r.value ==> r.value[k] == task[k])
    ensures r.Ok? ==> ("objects" in r.value <==> "objects" in task)
    ensures r.Ok? && "stations" !in task ==> ("pathSuggestion" in r.value <==> "pathSuggestion" in task)
    ensures r.Ok? && "stations" !in task && "pathSuggestion" in task ==> r.value["pathSuggestion"] == task["pathSuggestion"]
    ensures r.Ok? && "stations" in task && "pathSuggestion" in r.value ==>
      r.value["pathSuggestion"] != task["stations"] && Truthy(r.value["pathSuggestion"])
    decreases Obj(task), 2
  {
    var t :- if "stations" in task then UpdateOwn(task, st) else Ok(task);
    if "objects" !in task then Ok(t)
    else
      var subs :- UpdateObjects(task["objects"], st);
      Ok(t["objects" := subs])
  }

  /**
   * `for sub_task in task['objects']`: a list is walked item by item; iterating a string yields
   * one-character strings and iterating a dictionary its keys, which are tested like string
   * items; other values are not iterable.
   */
  function UpdateObjects<C>(objects: Value, st: Settings<C>): (r: Result<Value>)
    ensures r.Ok? ==> (r.value.Arr? <==> objects.Arr?)
    ensures r.Ok? && objects.Arr? ==> |r.value.items| == |objects.items|
    ensures r.Ok? && !objects.Arr? ==> r.value == objects
    decreases objects, 1
  {
    match objects
    case Arr(items) =>
      var done :- UpdateItems(objects, |items|, st);
      Ok(Arr(done))
    case Obj(m) => if forall k | k in m :: Inert(Str(k)) then Ok(objects) else Err(TypeError)
    case Str(_) => Ok(objects)
    case _ => Err(TypeError)
  }

  /** The first `n` items of a list of sub-tasks, each updated. */
  function UpdateItems<C>(objects: Value, n: nat, st: Settings<C>): (r: Result<seq<Value>>)
    requires objects.Arr? && n <= |objects.items|
    ensures r.Ok? ==> |r.value| == n
    decreases objects, 0, n
  {
    if n == 0 then Ok([])
    else
      var before :- UpdateItems(objects, n - 1, st);
      var item := objects.items[n - 1];
      if item.Obj? then
        var sub :- UpdateTask(item.fields, st);
        Ok(before + [Obj(sub)])
      else if Inert(item) then Ok(before + [item])
      else Err(TypeError)
  }

  /** Each sub-task in the list is updated with the same settings, and every other item is left as it was. */
  lemma {:induction false} UpdateItemsMeaning<C>(objects: Value, n: nat, st: Settings<C>)
    requires objects.Arr? && n <= |objects.items|
    requires UpdateItems(objects, n, st).Ok?
    ensures forall i :: 0 <= i < n && objects.items[i].Obj? ==>
      UpdateTask(objects.items[i].fields, st).Ok?
      && UpdateItems(objects, n, st).value[i] == Obj(UpdateTask(objects.items[i].fields, st).value)
    ensures forall i :: 0 <= i < n && !objects.items[i].Obj? ==>
      Inert(objects.items[i]) && UpdateItems(objects, n, st).value[i] == objects.items[i]
    decreases n
  {
    if n > 0 {
      UpdateItemsMeaning(objects, n - 1, st);
      var before := UpdateItems(objects, n - 1, st).value;
      var all := UpdateItems(objects, n, st).value;
      assert forall i :: 0 <= i < n - 1 ==> all[i] == before[i];
    }
  }

  /** The suggestion a task ends up with is the one it had or one the suggestion function returned for its waypoints. */
  lemma SuggestionProvenance<C>(task: Dict, st: Settings<C>)
    requires "stations" in task && UpdateOwn(task, st).Ok?
    requires "pathSuggestion" in UpdateOwn(task, st).value
    ensures var s := UpdateOwn(task, st).value["pathSuggestion"];
      ("pathSuggestion" in task && s == task["pathSuggestion"])
      || (ConfigFor(task, st).Ok? && exists p :: st.suggest(task["stations"], ConfigFor(task, st).value) == Ok(p) && s == AsValue(p))
  {
    if st.force || "pathSuggestion" !in task {
      var c := ConfigFor(task, st).value;
      var found := st.suggest(task["stations"], c);
      if found.Ok? && found.value != [] {
        assert st.suggest(task["stations"], c) == Ok(found.value);
      }
    }
  }

  /** Forcing a second update changes nothing: the same waypoints give the same suggestion, and a pruned task stays pruned. */
  lemma {:induction false} ForcedUpdateIdempotent<C>(task: Dict, st: Settings<C>)
    requires st.force && UpdateTask(task, st).Ok?
    ensures UpdateTask(UpdateTask(task, st).value, st) == UpdateTask(task, st)
    decreases Obj(task), 1
  {
    var r := UpdateTask(task, st).value;
    var t := if "stations" in task then UpdateOwn(task, st).value else task;
    if "stations" in task {
      ForcedOwnIdempotent(task, st);
      OwnFixed(t, r, st);
    }
    if "objects" in task {
      var subs := UpdateObjects(task["objects"], st).value;
      assert r == t["objects" := subs];
      ForcedObjectsIdempotent(task["objects"], st);
      assert t["objects" := subs]["objects" := subs] == r;
    }
  }

  /** The sub-tasks of a forced update, updated again, stay as they are. */
  lemma {:induction false} ForcedObjectsIdempotent<C>(objects: Value, st: Settings<C>)
    requires st.force && UpdateObjects(objects, st).Ok?
    ensures UpdateObjects(UpdateObjects(objects, st).value, st) == UpdateObjects(objects, st)
    decreases objects, 0
  {
    var subs := UpdateObjects(objects, st).value;
    if objects.Arr? {
      var n := |objects.items|;
      UpdateItemsMeaning(objects, n, st);
      forall i | 0 <= i < n && objects.items[i].Obj?
        ensures UpdateTask(subs.items[i].fields, st) == Ok(subs.items[i].fields)
      {
        ForcedUpdateIdempotent(objects.items[i].fields, st);
      }
      ItemsFixed(subs, n, st);
      assert subs.items[..n] == subs.items;
    }
  }

  /** A task that the own step leaves as it is stays so when only its `objects` change. */
  lemma OwnFixed<C>(t: Dict, r: Dict, st: Settings<C>)
    requires "stations" in t && UpdateOwn(t, st) == Ok(t)
    requires forall k :: k != "objects" ==> (k in r <==> k in t) && (k in r ==> r[k] == t[k])
    ensures UpdateOwn(r, st) == Ok(r)
  {
    OwnFrame(t, r, st);
    assert UpdateOwn(r, st).Ok?;
    var again := UpdateOwn(r, st).value;
    forall k
      ensures (k in again <==> k in r) && (k in r ==> again[k] == r[k])
    {
      if k == "pathSuggestion" {
        assert ("pathSuggestion" in r <==> "pathSuggestion" in t) && ("pathSuggestion" in r ==> r[k] == t[k]);
      }
    }
    assert again == r;
  }

  /** The own step of a forced update, applied to its own result, gives that result again. */
  lemma ForcedOwnIdempotent<C>(task: Dict, st: Settings<C>)
    requires st.force && "stations" in task && UpdateOwn(task, st).Ok?
    ensures UpdateOwn(UpdateOwn(task, st).value, st) == UpdateOwn(task, st)
  {
    var r := UpdateOwn(task, st).value;
    var s := Suggested(task, st).value;
    assert ConfigFor(r, st) == ConfigFor(task, st) by {
      assert ("service" in r <==> "service" in task) && ("service" in r ==> r["service"] == task["service"]);
    }
    assert r["stations"] == task["stations"];
    var c := ConfigFor(task, st).value;
    var found := st.suggest(task["stations"], c);
    if found.Ok? && found.value != [] {
      assert s == task["pathSuggestion" := AsValue(found.value)];
      assert Suggested(r, st) == Ok(r["pathSuggestion" := AsValue(found.value)]);
      if "pathSuggestion" in r {
        assert r == s;
        assert r["pathSuggestion" := AsValue(found.value)] == r;
      } else {
        assert r == Remove(s, "pathSuggestion");
        assert r["pathSuggestion" := AsValue(found.value)] == s;
      }
    } else {
      assert Suggested(r, st) == Ok(r);
    }
  }

  /** The own step reads no field but the waypoints, the service and the suggestion, so two tasks that differ only in `objects` get the same suggestion. */
  lemma OwnFrame<C>(t: Dict, r: Dict, st: Settings<C>)
    requires "stations" in t
    requires forall k :: k != "objects" ==> (k in r <==> k in t) && (k in r ==> r[k] == t[k])
    ensures UpdateOwn(r, st).Ok? <==> UpdateOwn(t, st).Ok?
    ensures UpdateOwn(r, st).Ok? ==> ("pathSuggestion" in UpdateOwn(r, st).value <==> "pathSuggestion" in UpdateOwn(t, st).value)
    ensures UpdateOwn(r, st).Ok? && "pathSuggestion" in UpdateOwn(r, st).value ==>
      UpdateOwn(r, st).value["pathSuggestion"] == UpdateOwn(t, st).value["pathSuggestion"]
  {
    assert ConfigFor(r, st) == ConfigFor(t, st) by {
      assert ("service" in r <==> "service" in t) && ("service" in r ==> r["service"] == t["service"]);
    }
    assert r["stations"] == t["stations"];
    assert ("pathSuggestion" in r <==> "pathSuggestion" in t) && ("pathSuggestion" in r ==> r["pathSuggestion"] == t["pathSuggestion"]);
  }

  /** A list of sub-tasks each of which an update leaves as it is, and of other items that pass, is updated to itself. */
  lemma {:induction false} ItemsFixed<C>(objects: Value, n: nat, st: Settings<C>)
    requires objects.Arr? && n <= |objects.items|
    requires forall i :: 0 <= i < n && objects.items[i].Obj? ==> UpdateTask(objects.items[i].fields, st) == Ok(objects.items[i].fields)
    requires forall i :: 0 <= i < n && !objects.items[i].Obj? ==> Inert(objects.items[i])
    ensures UpdateItems(objects, n, st) == Ok(objects.items[..n])
    decreases n
  {
    if n > 0 {
      ItemsFixed(objects, n - 1, st);
      PrefixSnoc(objects.items, n);
    }
  }

  lemma {:induction false} ItemsErrorPersists<C>(objects: Value, j: nat, st: Settings<C>)
    requires objects.Arr? && j <= |objects.items| && UpdateItems(objects, j, st).Err?
    ensures UpdateItems(objects, |objects.items|, st) == UpdateItems(objects, j, st)
    decreases |objects.items| - j
  {
    if j < |objects.items| {
      ItemsErrorPersists(objects, j + 1, st);
    }
  }

  /** `update_path_suggestion`, walking the sub-tasks in a loop. */
  method UpdatePathSuggestion<C>(task: Dict, st: Settings<C>) returns (r: Result<Dict>)
    ensures r == UpdateTask(task, st)
    decreases Obj(task)
  {
    var t := task;
    if "stations" in task {
      var own := UpdateOwn(task, st);
      if own.Err? {
        return Err(own.error);
      }
      t := own.value;
    }
    if "objects" !in task {
      return Ok(t);
    }
    var objects := task["objects"];
    if !objects.Arr? {
      var subs := UpdateObjects(objects, st);
      if subs.Err? {
        return Err(subs.error);
      }
      return Ok(t["objects" := subs.value]);
    }
    var items := objects.items;
    var done: seq<Value> := [];
    for i := 0 to |items|
      invariant UpdateItems(objects, i, st) == Ok(done)
    {
      var item := items[i];
      if item.Obj? {
        var sub := UpdatePathSuggestion(item.fields, st);
        if sub.Err? {
          ItemsErrorPersists(objects, i + 1, st);
          return Err(sub.error);
        }
        done := done + [Obj(sub.value)];
      } else if Inert(item) {
        done := done + [item];
      } else {
        ItemsErrorPersists(objects, i + 1, st);
        return Err(TypeError);
      }
    }
    return Ok(t["objects" := Arr(done)]);
  }

  /** The task models updated one after the other; the first failure ends the run. */
  function UpdatedTasks<C>(tasks: seq<Dict>, st: Settings<C>): (r: Result<seq<Dict>>)
    ensures r.Ok? ==> |r.value| == |tasks|
    ensures r.Ok? ==> forall i :: 0 <= i < |tasks| ==> UpdateTask(tasks[i], st) == Ok(r.value[i])
  {
    if tasks == [] then Ok([])
    else
      var before :- UpdatedTasks(tasks[..|tasks| - 1], st);
      var last :- UpdateTask(tasks[|tasks| - 1], st);
      Ok(before + [last])
  }

  lemma {:induction false} UpdatedTasksErrorPersists<C>(tasks: seq<Dict>, j: nat, st: Settings<C>)
    requires j <= |tasks| && UpdatedTasks(tasks[..j], st).Err?
    ensures UpdatedTasks(tasks, st) == UpdatedTasks(tasks[..j], st)
    decreases |tasks| - j
  {
    if j < |tasks| {
      assert tasks[..j + 1][..j] == tasks[..j];
      UpdatedTasksErrorPersists(tasks, j + 1, st);
    } else {
      assert tasks[..j] == tasks;
    }
  }

  /**
   * The loop of `update_path_suggestions` over the task models; loading the files, building the
   * graph and the station groups, and the defaulted configuration are not part of this model.
   */
  method UpdatePathSuggestions<C>(tasks: seq<Dict>, st: Settings<C>) returns (r: Result<seq<Dict>>)
    ensures r == UpdatedTasks(tasks, st)
  {
    var out: seq<Dict> := [];
    for i := 0 to |tasks|
      invariant UpdatedTasks(tasks[..i], st) == Ok(out)
    {
      PrefixSnoc(tasks, i + 1);
      var u := UpdatePathSuggestion(tasks[i], st);
      if u.Err? {
        UpdatedTasksErrorPersists(tasks, i + 1, st);
        return Err(u.error);
      }
      out := out + [u.value];
    }
    assert tasks[..|tasks|] == tasks;
    return Ok(out);
  }
}
