/**
 * `create_tasks` (`create_tasks.py`): new task records are merged, finished, and inserted into
 * the task model, the group-1 tasks right before its first group-0 entry and every other task at
 * the end. On the way the path records are expanded and filtered into the routing edges.
 */
module CreateTasks {
  import opened Wrappers
  import opened Json
  import opened TcFiles
  import opened Expansion
  import opened Tasks
  import opened TaskMerge

  // ---------------------------------------------------------------------------------------------
  // Selected codes and path edges

  /** `[station['ril100'] for station in station_json.data]`; a station without a code raises KeyError. */
  function SelectedCodes(stations: seq<Dict>): (r: Result<seq<Value>>)
    ensures r.Ok? <==> forall i :: 0 <= i < |stations| ==> "ril100" in stations[i]
    ensures r.Ok? ==> |r.value| == |stations| && forall i :: 0 <= i < |stations| ==> r.value[i] == stations[i]["ril100"]
    ensures r.Err? ==> r.error == KeyError
  {
    if stations == [] then Ok([])
    else
      var before :- SelectedCodes(stations[..|stations| - 1]);
      var last := stations[|stations| - 1];
      if "ril100" !in last then Err(KeyError) else Ok(before + [last["ril100"]])
  }

  /** An edge of the routing graph: the two ends as written in the path, and the path itself. */
  datatype PathEdge = PathEdge(start: Value, end: Value, path: Dict)

  /** A path the edge filter can read: it has a start, and an end when the start is selected (`and` reads no further otherwise). */
  predicate Readable(path: Dict, codes: seq<Value>)
  {
    "start" in path && (path["start"] in codes ==> "end" in path)
  }

  /** A path that becomes an edge: both of its ends are selected codes. */
  predicate Linked(path: Dict, codes: seq<Value>)
  {
    "start" in path && path["start"] in codes && "end" in path && path["end"] in codes
  }

  /** The edge list: each path, in order, whose start and end are both selected codes. */
  function PathEdges(paths: seq<Dict>, codes: seq<Value>): (r: Result<seq<PathEdge>>)
    ensures r.Ok? <==> forall i :: 0 <= i < |paths| ==> Readable(paths[i], codes)
    ensures r.Ok? ==> forall e :: e in r.value ==> e.start in codes && e.end in codes
    ensures r.Ok? ==> |r.value| <= |paths|
  {
    if paths == [] then Ok([])
    else
      var before :- PathEdges(paths[..|paths| - 1], codes);
      var path := paths[|paths| - 1];
      if "start" !in path then Err(KeyError)
      else if path["start"] !in codes then Ok(before)
      else if "end" !in path then Err(KeyError)
      else if path["end"] !in codes then Ok(before)
      else Ok(before + [PathEdge(path["start"], path["end"], path)])
  }

  /** Every edge is a linked path with its own two ends, and every linked path is an edge. */
  lemma {:induction false} PathEdgesMeaning(paths: seq<Dict>, codes: seq<Value>)
    requires PathEdges(paths, codes).Ok?
    ensures forall e :: e in PathEdges(paths, codes).value ==>
      e.path in paths && Linked(e.path, codes) && e.start == e.path["start"] && e.end == e.path["end"]
    ensures forall i :: 0 <= i < |paths| && Linked(paths[i], codes) ==>
      PathEdge(paths[i]["start"], paths[i]["end"], paths[i]) in PathEdges(paths, codes).value
  {
    if paths != [] {
      var init := paths[..|paths| - 1];
      PathEdgesMeaning(init, codes);
      assert forall i :: 0 <= i < |init| ==> init[i] == paths[i];
      assert forall p :: p in init ==> p in paths;
    }
  }

  // ---------------------------------------------------------------------------------------------
  // Finishing the merged tasks

  /** `extract_remaining_subtask_from_task` and then `cleanup_task` on one merged task. */
  function Finished(task: Dict): (r: Result<Dict>)
  {
    var extracted :- ExtractRemaining(task);
    CleanupTask(extracted)
  }

  /** Every merged task finished, in order. */
  function FinishedAll(tasks: seq<Dict>): (r: Result<seq<Dict>>)
    ensures r.Ok? ==> |r.value| == |tasks|
  {
    if tasks == [] then Ok([])
    else
      var before :- FinishedAll(tasks[..|tasks| - 1]);
      var last :- Finished(tasks[|tasks| - 1]);
      Ok(before + [last])
  }

  /** A finished task holds no None value anywhere, and each one is the finished form of its merged task. */
  lemma {:induction false} FinishedAllMeaning(tasks: seq<Dict>)
    requires FinishedAll(tasks).Ok?
    ensures forall i :: 0 <= i < |tasks| ==> Finished(tasks[i]) == Ok(FinishedAll(tasks).value[i])
    ensures forall i :: 0 <= i < |tasks| ==> NoNulls(FinishedAll(tasks).value[i])
  {
    if tasks != [] {
      var init := tasks[..|tasks| - 1];
      FinishedAllMeaning(init);
      CleanedHasNoNulls(ExtractRemaining(tasks[|tasks| - 1]).value);
      assert forall i :: 0 <= i < |init| ==> init[i] == tasks[i];
    }
  }

  lemma {:induction false} FinishedAllErrorPersists(tasks: seq<Dict>, j: nat)
    requires j <= |tasks| && FinishedAll(tasks[..j]).Err?
    ensures FinishedAll(tasks) == FinishedAll(tasks[..j])
    decreases |tasks| - j
  {
    if j < |tasks| {
      assert tasks[..j + 1][..j] == tasks[..j];
      FinishedAllErrorPersists(tasks, j + 1);
    } else {
      assert tasks[..j] == tasks;
    }
  }

  /** The finishing loop over the merged tasks. */
  method FinishTasks(tasks: seq<Dict>) returns (r: Result<seq<Dict>>)
    ensures r == FinishedAll(tasks)
  {
    var out: seq<Dict> := [];
    for i := 0 to |tasks|
      invariant FinishedAll(tasks[..i]) == Ok(out)
    {
      assert tasks[..i + 1][..i] == tasks[..i];
      var extracted := ExtractRemainingSubtask(tasks[i]);
      var cleaned: Result<Dict>;
      if extracted.Err? {
        cleaned := Err(extracted.error);
      } else {
        cleaned := CleanupTaskInPlace(extracted.value);
      }
      if cleaned.Err? {
        FinishedAllErrorPersists(tasks, i + 1);
        return Err(cleaned.error);
      }
      out := out + [cleaned.value];
    }
    assert tasks[..|tasks|] == tasks;
    return Ok(out);
  }

  // ---------------------------------------------------------------------------------------------
  // The place of the new tasks

  /** `task['group'] if 'group' in task else -1`. */
  function GroupOf(task: Dict): Value
  {
    if "group" in task then task["group"] else Int(-1)
  }

  /** `task_groups.index(0)` from position `i` on: the first entry whose group equals 0. */
  function FirstZero(data: seq<Dict>, i: nat): (r: Result<nat>)
    requires i <= |data|
    ensures r.Ok? <==> exists j :: i <= j < |data| && Equals(GroupOf(data[j]), 0.0)
    ensures r.Ok? ==> i <= r.value < |data| && Equals(GroupOf(data[r.value]), 0.0)
    ensures r.Ok? ==> forall j :: i <= j < r.value ==> !Equals(GroupOf(data[j]), 0.0)
    ensures r.Err? ==> r.error == ValueError
    decreases |data| - i
  {
    if i == |data| then Err(ValueError)
    else if Equals(GroupOf(data[i]), 0.0) then Ok(i)
    else FirstZero(data, i + 1)
  }

  /**
   * The checks before the insertion: every entry of the task model must carry a group, and none
   * may equal -1 (the assertion), and some group must equal 0 (`index`).
   */
  function InsertionIndex(data: seq<Dict>): (r: Result<nat>)
    ensures (exists i :: 0 <= i < |data| && Equals(GroupOf(data[i]), -1.0)) ==> r == Err(AssertionError)
    ensures r.Ok? ==> r.value < |data| && Equals(GroupOf(data[r.value]), 0.0)
    ensures r.Ok? ==> forall j :: 0 <= j < r.value ==> !Equals(GroupOf(data[j]), 0.0)
    ensures r.Ok? ==> forall j :: 0 <= j < |data| ==> "group" in data[j]
    ensures r.Err? && r.error == ValueError <==>
      (forall i :: 0 <= i < |data| ==> !Equals(GroupOf(data[i]), -1.0)) && forall j :: 0 <= j < |data| ==> !Equals(GroupOf(data[j]), 0.0)
  {
    if exists i :: 0 <= i < |data| && Equals(GroupOf(data[i]), -1.0) then Err(AssertionError)
    else FirstZero(data, 0)
  }

  /** `task['group'] == 1`, for a task that has a group. */
  predicate IsGroupOne(task: Dict)
    requires "group" in task
  {
    Equals(task["group"], 1.0)
  }

  /** The first position of a task without a group, where `task['group']` raises KeyError; the length when there is none. */
  function FirstMissing(tasks: seq<Dict>): (r: nat)
    ensures r <= |tasks|
    ensures forall j :: 0 <= j < r ==> "group" in tasks[j]
    ensures r < |tasks| ==> "group" !in tasks[r]
  {
    if tasks == [] then 0
    else
      var before := FirstMissing(tasks[..|tasks| - 1]);
      if before < |tasks| - 1 then before
      else if "group" in tasks[|tasks| - 1] then |tasks| else |tasks| - 1
  }

  /** The group-1 tasks, in order. */
  function Ones(tasks: seq<Dict>): (r: seq<Dict>)
    requires forall j :: 0 <= j < |tasks| ==> "group" in tasks[j]
    ensures |r| <= |tasks|
  {
    if tasks == [] then []
    else
      var last := tasks[|tasks| - 1];
      Ones(tasks[..|tasks| - 1]) + (if IsGroupOne(last) then [last] else [])
  }

  /** The other tasks, in order. */
  function Others(tasks: seq<Dict>): (r: seq<Dict>)
    requires forall j :: 0 <= j < |tasks| ==> "group" in tasks[j]
    ensures |r| == |tasks| - |Ones(tasks)|
  {
    if tasks == [] then []
    else
      var last := tasks[|tasks| - 1];
      Others(tasks[..|tasks| - 1]) + (if IsGroupOne(last) then [] else [last])
  }

  /** The two filters split the tasks: none is lost and none is added. */
  lemma {:induction false} OnesOthersSplit(tasks: seq<Dict>)
    requires forall j :: 0 <= j < |tasks| ==> "group" in tasks[j]
    ensures multiset(Ones(tasks)) + multiset(Others(tasks)) == multiset(tasks)
  {
    if tasks != [] {
      var init := tasks[..|tasks| - 1];
      var last := tasks[|tasks| - 1];
      OnesOthersSplit(init);
      assert tasks == init + [last];
      assert multiset(tasks) == multiset(init) + multiset{last};
    }
  }

  /** Every group-1 task goes to the first filter, every other task to the second. */
  lemma {:induction false} OnesOthersGroups(tasks: seq<Dict>)
    requires forall j :: 0 <= j < |tasks| ==> "group" in tasks[j]
    ensures forall t :: t in Ones(tasks) ==> "group" in t && IsGroupOne(t)
    ensures forall t :: t in Others(tasks) ==> "group" in t && !IsGroupOne(t)
  {
    if tasks != [] {
      OnesOthersGroups(tasks[..|tasks| - 1]);
    }
  }

  /** The four parts of a concatenation, read back by their positions. */
  lemma Parts<T>(a: seq<T>, b: seq<T>, c: seq<T>, d: seq<T>)
    ensures var r := a + b + c + d;
      && r[..|a|] == a && r[|a|..|a| + |b|] == b
      && r[|a| + |b|..|a| + |b| + |c|] == c && r[|a| + |b| + |c|..] == d
      && multiset(r) == multiset(a) + multiset(b) + multiset(c) + multiset(d)
  {
    var r := a + b + c + d;
    assert r == ((a + b) + c) + d;
    assert r[..|a|] == a;
  }

  /**
   * The task model after the insertion loop ran over the first `n` new tasks: the group-1 tasks
   * before the entry at `at`, the others at the end.
   */
  function Placed(data: seq<Dict>, tasks: seq<Dict>, at: nat, n: nat): (r: seq<Dict>)
    requires at <= |data| && n <= |tasks| && forall j :: 0 <= j < n ==> "group" in tasks[j]
    ensures |r| == |data| + n
  {
    data[..at] + Ones(tasks[..n]) + data[at..] + Others(tasks[..n])
  }

  /** The insertion loop: it stops with KeyError at the first new task without a group. */
  function Inserted(data: seq<Dict>, tasks: seq<Dict>, at: nat): (r: Result<seq<Dict>>)
    requires at <= |data|
    ensures r.Ok? <==> forall j :: 0 <= j < |tasks| ==> "group" in tasks[j]
    ensures r.Err? ==> r.error == KeyError
    ensures r.Ok? ==> multiset(r.value) == multiset(data) + multiset(tasks)
  {
    if FirstMissing(tasks) < |tasks| then Err(KeyError)
    else
      PlacedPermutation(data, tasks, at);
      Ok(Placed(data, tasks, at, |tasks|))
  }

  /** The insertion keeps every entry and adds every new task once. */
  lemma PlacedPermutation(data: seq<Dict>, tasks: seq<Dict>, at: nat)
    requires at <= |data| && forall j :: 0 <= j < |tasks| ==> "group" in tasks[j]
    ensures multiset(Placed(data, tasks, at, |tasks|)) == multiset(data) + multiset(tasks)
  {
    assert tasks[..|tasks|] == tasks;
    OnesOthersSplit(tasks);
    Parts(data[..at], Ones(tasks), data[at..], Others(tasks));
    assert data[..at] + data[at..] == data;
  }

  /**
   * The entries before `at` stay where they are, the group-1 tasks follow them in order, then the
   * entry at `at` and the rest of the old entries, then the other new tasks in order.
   */
  lemma PlacedOrder(data: seq<Dict>, tasks: seq<Dict>, at: nat)
    requires at <= |data| && forall j :: 0 <= j < |tasks| ==> "group" in tasks[j]
    ensures var r := Placed(data, tasks, at, |tasks|);
      var k := at + |Ones(tasks)|;
      && r[..at] == data[..at]
      && r[at..k] == Ones(tasks)
      && r[k..|data| + |Ones(tasks)|] == data[at..]
      && r[|data| + |Ones(tasks)|..] == Others(tasks)
  {
    assert tasks[..|tasks|] == tasks;
    Parts(data[..at], Ones(tasks), data[at..], Others(tasks));
  }

  /** The loop step: a group-1 task joins the inserted ones, another task the appended ones. */
  lemma PlacedStep(data: seq<Dict>, tasks: seq<Dict>, at: nat, n: nat)
    requires at <= |data| && n < |tasks| && forall j :: 0 <= j <= n ==> "group" in tasks[j]
    ensures var before := Placed(data, tasks, at, n);
      var t := tasks[n];
      var k := at + |Ones(tasks[..n])|;
      && k <= |before|
      && |Ones(tasks[..n + 1])| == |Ones(tasks[..n])| + (if IsGroupOne(t) then 1 else 0)
      && Placed(data, tasks, at, n + 1) == if IsGroupOne(t) then before[..k] + [t] + before[k..] else before + [t]
  {
    assert tasks[..n + 1][..n] == tasks[..n];
    var before := Placed(data, tasks, at, n);
    var k := at + |Ones(tasks[..n])|;
    assert before[..k] == data[..at] + Ones(tasks[..n]);
    assert before[k..] == data[at..] + Others(tasks[..n]);
  }

  /**
   * The insertion loop of `create_tasks` on the task model file: `insert` at a moving index for
   * the group-1 tasks, `append` for the others. A task without a group stops it with KeyError,
   * leaving the tasks before it placed.
   */
  method InsertTasks(file: TcFile, tasks: seq<Dict>, at: nat) returns (error: Option<Error>)
    requires at <= |file.data|
    modifies file
    ensures var f := FirstMissing(tasks);
      file.data == Placed(old(file.data), tasks, at, f) && error == (if f < |tasks| then Some(KeyError) else None)
  {
    ghost var data := file.data;
    ghost var f := FirstMissing(tasks);
    var index := at;
    var i := 0;
    assert tasks[..0] == [];
    while i < |tasks|
      invariant i <= f && i <= |tasks|
      invariant index == at + |Ones(tasks[..i])|
      invariant file.data == Placed(data, tasks, at, i)
    {
      if "group" !in tasks[i] {
        return Some(KeyError);
      }
      index := PlaceNext(file, data, tasks, at, i, index);
      i := i + 1;
    }
    return None;
  }

  /** One pass of the insertion loop, in terms of the tasks placed so far. */
  method PlaceNext(file: TcFile, ghost data: seq<Dict>, tasks: seq<Dict>, at: nat, i: nat, index: nat) returns (next: nat)
    requires at <= |data| && i < |tasks| && forall j :: 0 <= j <= i ==> "group" in tasks[j]
    requires index == at + |Ones(tasks[..i])| && file.data == Placed(data, tasks, at, i)
    modifies file
    ensures next == at + |Ones(tasks[..i + 1])| && file.data == Placed(data, tasks, at, i + 1)
  {
    PlacedStep(data, tasks, at, i);
    next := InsertOne(file, tasks[i], index);
  }

  /** One pass of the insertion loop: `insert` at the index for a group-1 task, which moves the index on, `append` otherwise. */
  method InsertOne(file: TcFile, task: Dict, index: nat) returns (next: nat)
    requires "group" in task && index <= |file.data|
    modifies file
    ensures IsGroupOne(task) ==> file.data == old(file.data)[..index] + [task] + old(file.data)[index..] && next == index + 1
    ensures !IsGroupOne(task) ==> file.data == old(file.data) + [task] && next == index
  {
    if Equals(task["group"], 1.0) {
      file.data := file.data[..index] + [task] + file.data[index..];
      next := index + 1;
    } else {
      file.data := file.data + [task];
      next := index;
    }
  }

  // ---------------------------------------------------------------------------------------------
  // create_tasks

  /**
   * `create_tasks` on the three files' records: the codes, the expanded paths and their edges
   * first; then the new task records (built from the graph by code that is not part of this
   * model, so given) merged and finished; then the checks of the task model and the insertion.
   */
  function CreateTasks(stationData: seq<Dict>, pathData: seq<Dict>, taskModel: seq<Dict>, newTasks: seq<Dict>)
    : (r: Result<seq<Dict>>)
  {
    var codes :- SelectedCodes(stationData);
    var paths :- Expanded(pathData);
    var edges :- PathEdges(paths, codes);
    var merged :- MergeTaskDicts(newTasks);
    var finished :- FinishedAll(merged);
    var at :- InsertionIndex(taskModel);
    Inserted(taskModel, finished, at)
  }

  /**
   * A task model that passes the checks gains exactly the finished new tasks, none of which holds
   * a None value, and keeps every entry it had.
   */
  lemma CreateTasksAddsFinished(stationData: seq<Dict>, pathData: seq<Dict>, taskModel: seq<Dict>, newTasks: seq<Dict>)
    requires CreateTasks(stationData, pathData, taskModel, newTasks).Ok?
    ensures var finished := FinishedAll(MergeTaskDicts(newTasks).value).value;
      && (forall t :: t in finished ==> NoNulls(t))
      && multiset(CreateTasks(stationData, pathData, taskModel, newTasks).value) == multiset(taskModel) + multiset(finished)
  {
    var merged := MergeTaskDicts(newTasks).value;
    FinishedAllMeaning(merged);
    PlacedPermutation(taskModel, FinishedAll(merged).value, InsertionIndex(taskModel).value);
  }

  /**
   * The group-1 tasks go, in order, right before the first group-0 entry of the task model, the
   * others, in order, at its end; the old entries keep their order.
   */
  lemma CreateTasksPlaces(stationData: seq<Dict>, pathData: seq<Dict>, taskModel: seq<Dict>, newTasks: seq<Dict>)
    requires CreateTasks(stationData, pathData, taskModel, newTasks).Ok?
    ensures var finished := FinishedAll(MergeTaskDicts(newTasks).value).value;
      var at := InsertionIndex(taskModel).value;
      && Equals(GroupOf(taskModel[at]), 0.0)
      && (forall j :: 0 <= j < at ==> !Equals(GroupOf(taskModel[j]), 0.0))
      && (forall t :: t in Ones(finished) ==> "group" in t && IsGroupOne(t))
      && (forall t :: t in Others(finished) ==> "group" in t && !IsGroupOne(t))
      && CreateTasks(stationData, pathData, taskModel, newTasks).value == taskModel[..at] + Ones(finished) + taskModel[at..] + Others(finished)
  {
    var finished := FinishedAll(MergeTaskDicts(newTasks).value).value;
    var at := InsertionIndex(taskModel).value;
    assert finished[..|finished|] == finished;
    OnesOthersGroups(finished);
  }

  /** A task model entry without a group fails the assertion, whatever the new tasks. */
  lemma GrouplessEntryFails(stationData: seq<Dict>, pathData: seq<Dict>, taskModel: seq<Dict>, newTasks: seq<Dict>, i: nat)
    requires i < |taskModel| && "group" !in taskModel[i]
    ensures CreateTasks(stationData, pathData, taskModel, newTasks).Err?
  {
    assert Equals(GroupOf(taskModel[i]), -1.0);
  }

  /**
   * `create_tasks` with its loops: expansion, merging, finishing and the insertion into the task
   * model file, which changes only when every earlier step succeeded.
   */
  method CreateTasksInto(stationData: seq<Dict>, pathData: seq<Dict>, newTasks: seq<Dict>, taskModel: TcFile)
    returns (error: Option<Error>)
    modifies taskModel
    ensures var r := CreateTasks(stationData, pathData, old(taskModel.data), newTasks);
      (error.None? <==> r.Ok?) && (r.Ok? ==> taskModel.data == r.value)
  {
    var codes := SelectedCodes(stationData);
    if codes.Err? {
      return Some(codes.error);
    }
    var paths := ExpandSubRecords(pathData);
    if paths.Err? {
      return Some(paths.error);
    }
    var edges := PathEdges(paths.value, codes.value);
    if edges.Err? {
      return Some(edges.error);
    }
    var merged := MergeTasks(newTasks);
    if merged.Err? {
      return Some(merged.error);
    }
    var finished := FinishTasks(merged.value);
    if finished.Err? {
      return Some(finished.error);
    }
    var at := InsertionIndex(taskModel.data);
    if at.Err? {
      return Some(at.error);
    }
    error := InsertTasks(taskModel, finished.value, at.value);
  }
}
