/**
 * `merge_task_dicts` (`structures/task.py`): new task records are folded into earlier ones that
 * share group, needed capacity and one of name, descriptions or stations, as a sub-task holding
 * only the fields that differ; a record that matches nothing is kept as a task of its own.
 */
module TaskMerge {
  import opened Wrappers
  import opened Json
  import opened Tasks

  /** The fields the merge compares; missing ones are set to None first. */
  const MergeKeys: seq<string> := ["group", "neededCapacity", "name", "descriptions", "stations"]

  predicate HasMergeKeys(d: Dict)
  {
    forall k :: k in MergeKeys ==> k in d
  }

  /** Whether two records agree on every field but `objects`. */
  ghost predicate SameButObjects(a: Dict, b: Dict)
  {
    forall k :: k != "objects" ==> (k in a <==> k in b) && (k in a ==> a[k] == b[k])
  }

  /** The first loop of `merge_task_dicts` on one task: each compared field that is missing is set to None. */
  function Filled(task: Dict): (r: Dict)
    ensures HasMergeKeys(r)
    ensures forall k :: k in task ==> k in r && r[k] == task[k]
    ensures forall k :: k in r && k !in task ==> k in MergeKeys && r[k] == Null
  {
    map k | k in task.Keys + (set m | m in MergeKeys) :: if k in task then task[k] else Null
  }

  /** The first loop on one task, one compared field after the other. */
  method FillTask(task: Dict) returns (r: Dict)
    ensures r == Filled(task)
  {
    r := task;
    for j := 0 to |MergeKeys|
      invariant r.Keys == task.Keys + (set m | m in MergeKeys[..j])
      invariant forall k :: k in r ==> r[k] == if k in task then task[k] else Null
    {
      assert MergeKeys[..j + 1] == MergeKeys[..j] + [MergeKeys[j]];
      if MergeKeys[j] !in r {
        r := r[MergeKeys[j] := Null];
      }
    }
    assert MergeKeys[..|MergeKeys|] == MergeKeys;
    assert r.Keys == Filled(task).Keys;
  }

  /** Every task filled, in order. */
  function FilledAll(tasks: seq<Dict>): (r: seq<Dict>)
    ensures |r| == |tasks| && forall i :: 0 <= i < |tasks| ==> r[i] == Filled(tasks[i])
  {
    seq(|tasks|, i requires 0 <= i < |tasks| => Filled(tasks[i]))
  }

  /**
   * A new task may fold into an earlier one: it has no sub-tasks, the same group and capacity,
   * and the same name, descriptions or stations. Both tasks are filled (`MergedHaveMergeKeys`),
   * so `Get` reads the fields themselves.
   */
  predicate Mergeable(t: Dict, m: Dict)
  {
    && "objects" !in t
    && Get(t, "group") == Get(m, "group")
    && Get(t, "neededCapacity") == Get(m, "neededCapacity")
    && (Get(t, "name") == Get(m, "name") || Get(t, "descriptions") == Get(m, "descriptions") || Get(t, "stations") == Get(m, "stations"))
  }

  /**
   * The overlap of a new task with an earlier one: zero unless it may fold into it, else the
   * number of its fields the earlier one holds with the same value; a field the earlier one
   * lacks makes `merge_task[key]` raise KeyError.
   */
  function Overlap(t: Dict, m: Dict): (r: Result<nat>)
    ensures !Mergeable(t, m) ==> r == Ok(0)
    ensures Mergeable(t, m) ==> (r.Ok? <==> t.Keys <= m.Keys)
    ensures Mergeable(t, m) && "group" in t && r.Ok? ==> r.value >= 1
    ensures r.Err? ==> r.error == KeyError
  {
    if !Mergeable(t, m) then Ok(0)
    else if !(t.Keys <= m.Keys) then Err(KeyError)
    else
      var shared := set k | k in t.Keys && k in m && m[k] == t[k];
      assert "group" in t ==> "group" in shared;
      Ok(|shared|)
  }

  /** The overlap list of a new task against the first `n` tasks kept so far. */
  function Overlaps(t: Dict, ms: seq<Dict>, n: nat): (r: Result<seq<nat>>)
    requires n <= |ms|
    ensures r.Ok? ==> |r.value| == n
  {
    if n == 0 then Ok([])
    else
      var before :- Overlaps(t, ms, n - 1);
      var last :- Overlap(t, ms[n - 1]);
      Ok(before + [last])
  }

  /** The overlap list holds each earlier task's overlap, and it fails, with KeyError, exactly when one of them does. */
  lemma {:induction false} OverlapsMeaning(t: Dict, ms: seq<Dict>, n: nat)
    requires n <= |ms|
    ensures Overlaps(t, ms, n).Ok? ==> forall i :: 0 <= i < n ==> Overlap(t, ms[i]) == Ok(Overlaps(t, ms, n).value[i])
    ensures Overlaps(t, ms, n).Ok? <==> forall i :: 0 <= i < n ==> Overlap(t, ms[i]).Ok?
    ensures Overlaps(t, ms, n).Err? ==> Overlaps(t, ms, n).error == KeyError
  {
    if n > 0 {
      OverlapsMeaning(t, ms, n - 1);
    }
  }

  /** `overlap.index(max(overlap))` over the first `n` counts, as a position. */
  function FirstMax(s: seq<nat>, n: nat): (r: nat)
    requires 1 <= n <= |s|
    ensures r < n
  {
    if n == 1 then 0
    else
      var b := FirstMax(s, n - 1);
      if s[n - 1] > s[b] then n - 1 else b
  }

  /** The position `FirstMax` gives holds the largest count, and no earlier position holds as much. */
  lemma {:induction false} FirstMaxIsFirst(s: seq<nat>, n: nat)
    requires 1 <= n <= |s|
    ensures forall j :: 0 <= j < n ==> s[j] <= s[FirstMax(s, n)]
    ensures forall j :: 0 <= j < FirstMax(s, n) ==> s[j] < s[FirstMax(s, n)]
  {
    if n > 1 {
      FirstMaxIsFirst(s, n - 1);
    }
  }

  /**
   * The sub-task a folded task becomes: only its fields whose values differ from the earlier
   * task's (the overlap has already read every one of them from the earlier task).
   */
  function Differing(t: Dict, m: Dict): (r: Dict)
    ensures t.Keys <= m.Keys ==> forall k :: k in r <==> k in t && m[k] != t[k]
    ensures forall k :: k in r ==> k in t && r[k] == t[k]
  {
    map k | k in t && (k !in m || m[k] != t[k]) :: t[k]
  }

  /** Folding a task into an earlier one: `objects` is created empty if missing and the differing fields are appended to it; a value there that is not a list has no `append`. */
  function Fold(m: Dict, t: Dict): (r: Result<Dict>)
    ensures r.Ok? <==> "objects" !in m || m["objects"].Arr?
    ensures r.Ok? ==> r.value.Keys == m.Keys + {"objects"}
  {
    var objects := if "objects" in m then m["objects"] else Arr([]);
    if !objects.Arr? then Err(AttributeError)
    else Ok(m["objects" := Arr(objects.items + [Obj(Differing(t, m))])])
  }

  /** The earlier task keeps every other field, and its sub-task list gains the differing fields at its end. */
  lemma FoldMeaning(m: Dict, t: Dict)
    requires Fold(m, t).Ok?
    ensures SameButObjects(Fold(m, t).value, m)
    ensures Fold(m, t).value["objects"] == Arr(ItemsOf(Get(m, "objects")) + [Obj(Differing(t, m))])
  {
  }

  /** One pass of the outer loop: fold the task into the first earlier task of largest overlap, or append it when every overlap is zero. */
  function MergeStep(ms: seq<Dict>, t: Dict): (r: Result<seq<Dict>>)
    requires |ms| >= 1
    ensures r.Ok? ==> |ms| <= |r.value| <= |ms| + 1
  {
    var overlap :- Overlaps(t, ms, |ms|);
    var best := FirstMax(overlap, |overlap|);
    if overlap[best] == 0 then Ok(ms + [t])
    else
      var folded :- Fold(ms[best], t);
      Ok(ms[best := folded])
  }

  /**
   * The fold rule: a task is appended exactly when it may fold into none of the tasks kept so
   * far; otherwise it folds into one it may fold into, the first of largest overlap, and no
   * other task changes.
   */
  lemma MergeStepMeaning(ms: seq<Dict>, t: Dict)
    requires |ms| >= 1 && "group" in t
    requires MergeStep(ms, t).Ok?
    ensures (forall i :: 0 <= i < |ms| ==> !Mergeable(t, ms[i])) <==> MergeStep(ms, t).value == ms + [t]
    ensures (exists i :: 0 <= i < |ms| && Mergeable(t, ms[i])) ==>
      var overlap := Overlaps(t, ms, |ms|).value;
      var b := FirstMax(overlap, |overlap|);
      && Mergeable(t, ms[b]) && t.Keys <= ms[b].Keys
      && (forall j :: 0 <= j < |ms| ==> overlap[j] <= overlap[b])
      && (forall j :: 0 <= j < b ==> overlap[j] < overlap[b])
      && MergeStep(ms, t).value == ms[b := Fold(ms[b], t).value]
  {
    var overlap := Overlaps(t, ms, |ms|).value;
    OverlapsMeaning(t, ms, |ms|);
    FirstMaxIsFirst(overlap, |overlap|);
    var b := FirstMax(overlap, |overlap|);
    if exists i :: 0 <= i < |ms| && Mergeable(t, ms[i]) {
      var i :| 0 <= i < |ms| && Mergeable(t, ms[i]);
      assert overlap[i] >= 1;
      assert |MergeStep(ms, t).value| == |ms|;
    } else {
      assert overlap[b] == 0;
    }
  }

  /** The first kept task stays first and changes at most in its sub-tasks. */
  lemma MergeStepKeepsFirst(ms: seq<Dict>, t: Dict)
    requires |ms| >= 1 && MergeStep(ms, t).Ok?
    ensures SameButObjects(MergeStep(ms, t).value[0], ms[0])
  {
    var overlap := Overlaps(t, ms, |ms|).value;
    var b := FirstMax(overlap, |overlap|);
    if overlap[b] != 0 && b == 0 {
      OverlapsMeaning(t, ms, |ms|);
      FoldMeaning(ms[0], t);
    }
  }

  /** The outer loop from the `i`-th filled task on, with `ms` the tasks kept so far. */
  function MergeRest(ms: seq<Dict>, filled: seq<Dict>, i: nat): (r: Result<seq<Dict>>)
    requires |ms| >= 1 && i <= |filled|
    ensures r.Ok? ==> |ms| <= |r.value| <= |ms| + |filled| - i
    decreases |filled| - i
  {
    if i == |filled| then Ok(ms)
    else
      var next :- MergeStep(ms, filled[i]);
      MergeRest(next, filled, i + 1)
  }

  /** The first kept task stays first and changes at most in its sub-tasks. */
  lemma {:induction false} MergeRestKeepsFirst(ms: seq<Dict>, filled: seq<Dict>, i: nat)
    requires |ms| >= 1 && i <= |filled| && MergeRest(ms, filled, i).Ok?
    ensures SameButObjects(MergeRest(ms, filled, i).value[0], ms[0])
    decreases |filled| - i
  {
    if i < |filled| {
      var next := MergeStep(ms, filled[i]).value;
      MergeStepKeepsFirst(ms, filled[i]);
      MergeRestKeepsFirst(next, filled, i + 1);
    }
  }

  /** Every task the outer loop keeps carries the compared fields, when every filled task does. */
  lemma {:induction false} MergedHaveMergeKeys(ms: seq<Dict>, filled: seq<Dict>, i: nat)
    requires |ms| >= 1 && i <= |filled| && MergeRest(ms, filled, i).Ok?
    requires forall j :: 0 <= j < |ms| ==> HasMergeKeys(ms[j])
    requires forall j :: i <= j < |filled| ==> HasMergeKeys(filled[j])
    ensures forall j :: 0 <= j < |MergeRest(ms, filled, i).value| ==> HasMergeKeys(MergeRest(ms, filled, i).value[j])
    decreases |filled| - i
  {
    if i < |filled| {
      var t := filled[i];
      var overlap := Overlaps(t, ms, |ms|).value;
      var b := FirstMax(overlap, |overlap|);
      if overlap[b] != 0 {
        OverlapsMeaning(t, ms, |ms|);
        assert HasMergeKeys(Fold(ms[b], t).value);
      }
      MergedHaveMergeKeys(MergeStep(ms, t).value, filled, i + 1);
    }
  }

  /** The last loop: every kept task cleaned of None values. */
  function CleanupAll(ts: seq<Dict>): (r: Result<seq<Dict>>)
    ensures r.Ok? ==> |r.value| == |ts|
  {
    if ts == [] then Ok([])
    else
      var before :- CleanupAll(ts[..|ts| - 1]);
      var last :- CleanupTask(ts[|ts| - 1]);
      Ok(before + [last])
  }

  /** Each kept task is cleaned in place in the list, and none of them holds a None value any more. */
  lemma {:induction false} CleanupAllMeaning(ts: seq<Dict>)
    requires CleanupAll(ts).Ok?
    ensures forall i :: 0 <= i < |ts| ==> CleanupTask(ts[i]) == Ok(CleanupAll(ts).value[i])
    ensures forall i :: 0 <= i < |ts| ==> NoNulls(CleanupAll(ts).value[i])
  {
    if ts != [] {
      var init := ts[..|ts| - 1];
      CleanupAllMeaning(init);
      CleanedHasNoNulls(ts[|ts| - 1]);
      assert forall i :: 0 <= i < |init| ==> init[i] == ts[i];
    }
  }

  lemma {:induction false} CleanupAllErrorPersists(ts: seq<Dict>, j: nat)
    requires j <= |ts| && CleanupAll(ts[..j]).Err?
    ensures CleanupAll(ts) == CleanupAll(ts[..j])
    decreases |ts| - j
  {
    if j < |ts| {
      assert ts[..j + 1][..j] == ts[..j];
      CleanupAllErrorPersists(ts, j + 1);
    } else {
      assert ts[..j] == ts;
    }
  }

  /**
   * `merge_task_dicts`: a single task is returned as it is; an empty list fails on `tasks[0]`;
   * otherwise the tasks are filled, merged, and cleaned of None values.
   */
  function MergeTaskDicts(tasks: seq<Dict>): (r: Result<seq<Dict>>)
    ensures |tasks| == 1 ==> r == Ok(tasks)
    ensures tasks == [] ==> r == Err(IndexError)
    ensures r.Ok? ==> 1 <= |r.value| <= |tasks|
  {
    if |tasks| == 1 then Ok(tasks)
    else if tasks == [] then Err(IndexError)
    else
      var filled := FilledAll(tasks);
      var merged :- MergeRest([filled[0]], filled, 1);
      CleanupAll(merged)
  }

  /**
   * Of two or more tasks, none of the merged ones holds a None value, and the first one keeps
   * every field of the first task that was not None, except its sub-tasks.
   */
  lemma MergeTaskDictsMeaning(tasks: seq<Dict>)
    requires |tasks| >= 2 && MergeTaskDicts(tasks).Ok?
    ensures forall i :: 0 <= i < |MergeTaskDicts(tasks).value| ==> NoNulls(MergeTaskDicts(tasks).value[i])
    ensures forall k :: k != "objects" ==>
      (k in MergeTaskDicts(tasks).value[0] <==> k in tasks[0] && tasks[0][k] != Null)
    ensures forall k :: k != "objects" && k in MergeTaskDicts(tasks).value[0] ==> MergeTaskDicts(tasks).value[0][k] == tasks[0][k]
  {
    var filled := FilledAll(tasks);
    var merged := MergeRest([filled[0]], filled, 1).value;
    CleanupAllMeaning(merged);
    MergeRestKeepsFirst([filled[0]], filled, 1);
  }

  /** The first loop of `merge_task_dicts`: every task filled. */
  method FillTasks(tasks: seq<Dict>) returns (filled: seq<Dict>)
    ensures filled == FilledAll(tasks)
  {
    filled := [];
    for i := 0 to |tasks|
      invariant |filled| == i && forall j :: 0 <= j < i ==> filled[j] == Filled(tasks[j])
    {
      var f := FillTask(tasks[i]);
      filled := filled + [f];
    }
  }

  /** One pass of the outer loop: the overlap loop over the kept tasks, then the fold or the append. */
  method MergeInto(merged: seq<Dict>, t: Dict) returns (r: Result<seq<Dict>>)
    requires |merged| >= 1
    ensures r == MergeStep(merged, t)
  {
    var overlap: seq<nat> := [];
    var j := 0;
    while j < |merged|
      invariant 0 <= j <= |merged|
      invariant |overlap| == j && forall x :: 0 <= x < j ==> Overlap(t, merged[x]) == Ok(overlap[x])
    {
      var o := Overlap(t, merged[j]);
      if o.Err? {
        OverlapsMeaning(t, merged, |merged|);
        return Err(o.error);
      }
      overlap := overlap + [o.value];
      j := j + 1;
    }
    OverlapsMeaning(t, merged, |merged|);
    assert Overlaps(t, merged, |merged|).value == overlap;
    var best := FirstMax(overlap, |overlap|);
    if overlap[best] == 0 {
      return Ok(merged + [t]);
    }
    var folded := Fold(merged[best], t);
    if folded.Err? {
      return Err(folded.error);
    }
    return Ok(merged[best := folded.value]);
  }

  /** The last loop of `merge_task_dicts`: every kept task cleaned. */
  method CleanupTasks(merged: seq<Dict>) returns (r: Result<seq<Dict>>)
    ensures r == CleanupAll(merged)
  {
    var out: seq<Dict> := [];
    for k := 0 to |merged|
      invariant CleanupAll(merged[..k]) == Ok(out)
    {
      assert merged[..k + 1][..k] == merged[..k];
      var c := CleanupTaskInPlace(merged[k]);
      if c.Err? {
        CleanupAllErrorPersists(merged, k + 1);
        return Err(c.error);
      }
      out := out + [c.value];
    }
    assert merged[..|merged|] == merged;
    return Ok(out);
  }

  /** `merge_task_dicts` with its loops: filling, the outer loop over the later tasks, and cleaning. */
  method MergeTasks(tasks: seq<Dict>) returns (r: Result<seq<Dict>>)
    ensures r == MergeTaskDicts(tasks)
  {
    if |tasks| == 1 {
      return Ok(tasks);
    }
    if tasks == [] {
      return Err(IndexError);
    }
    var filled := FillTasks(tasks);
    var merged := [filled[0]];
    var i := 1;
    while i < |filled|
      invariant 1 <= i <= |filled| && |merged| >= 1
      invariant MergeRest(merged, filled, i) == MergeRest([filled[0]], filled, 1)
    {
      var step := MergeInto(merged, filled[i]);
      if step.Err? {
        return Err(step.error);
      }
      merged := step.value;
      i := i + 1;
    }
    r := CleanupTasks(merged);
  }
}
