/**
 * Removing the editing annotations from a path record (`cleanup.py`): `start_long` and
 * `end_long` go, on the path and on every sub-path under `objects`.
 */
module Cleanup {
  import opened Wrappers
  import opened Json
  import opened Seqs

  /** `sub_path.pop(key, '')` on a value that is not a dictionary: a list's `pop` takes one argument, other values have none. */
  function NotADict(v: Value): Error
  {
    if v.Arr? then TypeError else AttributeError
  }

  /**
   * `remove_annotations_from_path`, on the value of the record: both pops have a default, so a
   * missing annotation is no error; the sub-paths are cleaned in turn.
   */
  function RemoveAnnotations(path: Dict): (r: Result<Dict>)
    ensures r.Ok? ==> r.value.Keys == path.Keys - {"start_long", "end_long"}
    ensures r.Ok? ==> forall k :: k in r.value && k != "objects" ==> r.value[k] == path[k]
    decreases Obj(path), 2, 0
  {
    var base := Remove(Remove(path, "start_long"), "end_long");
    if "objects" !in path then Ok(base)
    else
      var subs :- RemoveInObjects(path["objects"]);
      Ok(base["objects" := subs])
  }

  /**
   * `for sub_path in path['objects']`: a list is walked item by item; iterating an empty string
   * or dictionary does nothing, a non-empty one yields strings, which have no `pop`; other
   * values are not iterable.
   */
  function RemoveInObjects(objects: Value): (r: Result<Value>)
    ensures r.Ok? ==> (r.value.Arr? <==> objects.Arr?)
    ensures r.Ok? && !objects.Arr? ==> r.value == objects
    decreases objects, 1, 0
  {
    match objects
    case Arr(items) =>
      var done :- RemoveInItems(objects, |items|);
      Ok(Arr(done))
    case Obj(m) => if m == map[] then Ok(objects) else Err(AttributeError)
    case Str(s) => if s == [] then Ok(objects) else Err(AttributeError)
    case _ => Err(TypeError)
  }

  /** The first `n` sub-paths of a list, each cleaned. */
  function RemoveInItems(objects: Value, n: nat): (r: Result<seq<Value>>)
    requires objects.Arr? && n <= |objects.items|
    ensures r.Ok? ==> |r.value| == n
    decreases objects, 0, n
  {
    if n == 0 then Ok([])
    else
      var before :- RemoveInItems(objects, n - 1);
      var item := objects.items[n - 1];
      if !item.Obj? then Err(NotADict(item))
      else
        var sub :- RemoveAnnotations(item.fields);
        Ok(before + [Obj(sub)])
  }

  /** The record and every sub-path under `objects`, recursively, hold no annotation. */
  predicate Clean(path: Dict)
    decreases Obj(path), 1
  {
    !("start_long" in path) && !("end_long" in path)
    && ("objects" in path && path["objects"].Arr? ==> CleanItems(path["objects"]))
  }

  predicate CleanItems(objects: Value)
    requires objects.Arr?
    decreases objects, 0
  {
    forall i :: 0 <= i < |objects.items| ==> objects.items[i].Obj? ==> Clean(objects.items[i].fields)
  }

  /** The cleaned list holds the cleaned sub-paths, item by item. */
  lemma {:induction false} RemoveInItemsMeaning(objects: Value, n: nat)
    requires objects.Arr? && n <= |objects.items|
    requires RemoveInItems(objects, n).Ok?
    ensures forall i :: 0 <= i < n ==>
      objects.items[i].Obj? && RemoveAnnotations(objects.items[i].fields).Ok?
      && RemoveInItems(objects, n).value[i] == Obj(RemoveAnnotations(objects.items[i].fields).value)
    decreases n
  {
    if n > 0 {
      RemoveInItemsMeaning(objects, n - 1);
    }
  }

  /** A cleaned record holds no annotation anywhere. */
  lemma {:induction false} RemovedIsClean(path: Dict)
    requires RemoveAnnotations(path).Ok?
    ensures Clean(RemoveAnnotations(path).value)
    decreases Obj(path)
  {
    var r := RemoveAnnotations(path).value;
    if "objects" in path && path["objects"].Arr? {
      var objects := path["objects"];
      var n := |objects.items|;
      RemoveInItemsMeaning(objects, n);
      var done := RemoveInItems(objects, n).value;
      assert r["objects"] == Arr(done);
      forall i | 0 <= i < n
        ensures Clean(RemoveAnnotations(objects.items[i].fields).value)
      {
        RemovedIsClean(objects.items[i].fields);
      }
      assert CleanItems(r["objects"]);
    }
  }

  /** Cleaning a cleaned record changes nothing, so cleaning twice is cleaning once. */
  lemma {:induction false} RemoveIdempotent(path: Dict)
    requires RemoveAnnotations(path).Ok?
    ensures RemoveAnnotations(RemoveAnnotations(path).value) == RemoveAnnotations(path)
    decreases Obj(path)
  {
    var r := RemoveAnnotations(path).value;
    assert Remove(Remove(r, "start_long"), "end_long") == r;
    if "objects" in path {
      var objects := path["objects"];
      if objects.Arr? {
        var n := |objects.items|;
        RemoveInItemsMeaning(objects, n);
        var done := RemoveInItems(objects, n).value;
        var again := Arr(done);
        assert r["objects"] == again;
        forall i | 0 <= i < n
          ensures again.items[i].Obj? && RemoveAnnotations(again.items[i].fields) == Ok(again.items[i].fields)
        {
          RemoveIdempotent(objects.items[i].fields);
        }
        ItemsFixed(again, n);
        assert again.items[..n] == done;
        assert RemoveInObjects(again) == Ok(again);
        assert r["objects" := again] == r;
      } else {
        assert r["objects"] == objects;
        assert r["objects" := objects] == r;
      }
    }
  }

  /** A list of cleaned sub-paths is cleaned to itself. */
  lemma {:induction false} ItemsFixed(objects: Value, n: nat)
    requires objects.Arr? && n <= |objects.items|
    requires forall i :: 0 <= i < n ==> objects.items[i].Obj? && RemoveAnnotations(objects.items[i].fields) == Ok(objects.items[i].fields)
    ensures RemoveInItems(objects, n) == Ok(objects.items[..n])
    decreases n
  {
    if n > 0 {
      ItemsFixed(objects, n - 1);
      PrefixSnoc(objects.items, n);
    }
  }

  lemma {:induction false} ItemsErrorPersists(objects: Value, j: nat)
    requires objects.Arr? && j <= |objects.items| && RemoveInItems(objects, j).Err?
    ensures RemoveInItems(objects, |objects.items|) == RemoveInItems(objects, j)
    decreases |objects.items| - j
  {
    if j < |objects.items| {
      ItemsErrorPersists(objects, j + 1);
    }
  }

  /** `remove_annotations_from_path`, popping the annotations and walking the sub-paths in a loop. */
  method RemoveAnnotationsFromPath(path: Dict) returns (r: Result<Dict>)
    ensures r == RemoveAnnotations(path)
    decreases Obj(path)
  {
    var base := Remove(Remove(path, "start_long"), "end_long");
    if "objects" !in path {
      return Ok(base);
    }
    var objects := path["objects"];
    if !objects.Arr? {
      var subs := RemoveInObjects(objects);
      if subs.Err? {
        return Err(subs.error);
      }
      return Ok(base["objects" := subs.value]);
    }
    var items := objects.items;
    var done: seq<Value> := [];
    for i := 0 to |items|
      invariant RemoveInItems(objects, i) == Ok(done)
    {
      var item := items[i];
      if !item.Obj? {
        ItemsErrorPersists(objects, i + 1);
        return Err(NotADict(item));
      }
      var sub := RemoveAnnotationsFromPath(item.fields);
      if sub.Err? {
        ItemsErrorPersists(objects, i + 1);
        return Err(sub.error);
      }
      done := done + [Obj(sub.value)];
    }
    return Ok(base["objects" := Arr(done)]);
  }
}
