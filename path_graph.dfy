/**
 * The routing graph of the game's data (`validation/graph.py`): stations are nodes, paths between
 * two known stations are edges carrying the path record, and a path suggestion is the shortest
 * path through a task's waypoints, optionally reduced to its non-trivial nodes.
 */
module PathGraph {
  import opened Wrappers
  import opened Json
  import opened Text
  import opened Graphs

  /** `build_tc_graph`: a fresh graph, the stations added as nodes, then the paths as edges. */
  function BuildTcGraph(stations: seq<string>, paths: seq<Edge>): (r: Graph)
    ensures Valid(r)
  {
    AddEdges(AddNodes(Empty, stations), paths)
  }

  /** Every station is a node, even one no path touches; the other nodes are the ends of paths; edges are exactly the given pairs. */
  lemma BuildTcGraphShape(stations: seq<string>, paths: seq<Edge>, x: string, y: string)
    ensures var g := BuildTcGraph(stations, paths);
      g.nodes == (set s | s in stations) + Ends(paths)
      && (Adjacent(g, x, y) <==> Joins(paths, x, y))
  {
    AddEdgesNodes(AddNodes(Empty, stations), paths);
    AddEdgesAdjacency(AddNodes(Empty, stations), paths, x, y);
  }

  /** `value.upper()` on a record's field: a missing key raises KeyError, a value that is not a string AttributeError. */
  function UpperField(record: Dict, key: string): (r: Result<string>)
    ensures r.Ok? <==> key in record && record[key].Str?
    ensures r.Ok? ==> r.value == Upper(record[key].s)
    ensures key !in record ==> r == Err(KeyError)
  {
    if key !in record then Err(KeyError)
    else if !record[key].Str? then Err(AttributeError)
    else Ok(Upper(record[key].s))
  }

  /** `[station['ril100'].upper() for station in stations]`. */
  function StationCodes(stations: seq<Dict>): (r: Result<seq<string>>)
    ensures r.Ok? ==> |r.value| == |stations|
    ensures r.Ok? ==> forall i :: 0 <= i < |stations| ==> UpperField(stations[i], "ril100") == Ok(r.value[i])
  {
    if stations == [] then Ok([])
    else
      var before :- StationCodes(stations[..|stations| - 1]);
      var code :- UpperField(stations[|stations| - 1], "ril100");
      Ok(before + [code])
  }

  /**
   * The edge list of `graph_from_files`: a path becomes an edge, with the path record as its data,
   * when its upper-cased start and then its upper-cased end are station codes; `and` reads the
   * end only after the start matched.
   */
  function PathEdges(paths: seq<Dict>, codes: seq<string>): (r: Result<seq<Edge>>)
    ensures r.Ok? ==> forall i :: 0 <= i < |r.value| ==> r.value[i].u in codes && r.value[i].v in codes
    ensures r.Ok? ==> |r.value| <= |paths|
  {
    if paths == [] then Ok([])
    else
      var before :- PathEdges(paths[..|paths| - 1], codes);
      var path := paths[|paths| - 1];
      var start :- UpperField(path, "start");
      if start !in codes then Ok(before)
      else
        var end :- UpperField(path, "end");
        if end !in codes then Ok(before) else Ok(before + [Edge(start, end, path)])
  }

  /** An edge comes from one of the paths, whose upper-cased ends it joins, and every such path yields one. */
  lemma {:induction false} PathEdgesMeaning(paths: seq<Dict>, codes: seq<string>, x: string, y: string)
    requires PathEdges(paths, codes).Ok?
    ensures Joins(PathEdges(paths, codes).value, x, y) <==>
      exists i :: 0 <= i < |paths| && Accepted(paths[i], codes) && {Upper(paths[i]["start"].s), Upper(paths[i]["end"].s)} == {x, y}
  {
    if paths != [] {
      var init := paths[..|paths| - 1];
      PathEdgesMeaning(init, codes, x, y);
      assert forall i :: 0 <= i < |init| ==> init[i] == paths[i];
      var before := PathEdges(init, codes).value;
      var r := PathEdges(paths, codes).value;
      if Accepted(paths[|paths| - 1], codes) {
        assert r == before + [r[|r| - 1]];
        assert forall i :: 0 <= i < |before| ==> r[i] == before[i];
      }
    }
  }

  /** A flattened path that becomes an edge: both ends are strings whose upper-cased forms are station codes. */
  predicate Accepted(path: Dict, codes: seq<string>)
  {
    "start" in path && path["start"].Str? && Upper(path["start"].s) in codes
    && "end" in path && path["end"].Str? && Upper(path["end"].s) in codes
  }

  /**
   * `graph_from_files`, with `flatten_objects` (which is not part of this model) given as a
   * parameter: station codes first, then the path edges, then the graph.
   */
  function GraphFromFiles(stationData: seq<Dict>, pathData: seq<Dict>, flatten: seq<Dict> -> seq<Dict>): (r: Result<Graph>)
    ensures r.Ok? ==> StationCodes(flatten(stationData)).Ok?
    ensures r.Ok? ==> Valid(r.value) && r.value.nodes == set c | c in StationCodes(flatten(stationData)).value
  {
    var codes :- StationCodes(flatten(stationData));
    var edges :- PathEdges(flatten(pathData), codes);
    EdgesAmongCodes(edges, codes);
    BuildTcGraphShape(codes, edges, "", "");
    Ok(BuildTcGraph(codes, edges))
  }

  lemma {:induction false} EdgesAmongCodes(edges: seq<Edge>, codes: seq<string>)
    requires forall i :: 0 <= i < |edges| ==> edges[i].u in codes && edges[i].v in codes
    ensures Ends(edges) <= set c | c in codes
  {
    if edges != [] {
      EdgesAmongCodes(edges[..|edges| - 1], codes);
    }
  }

  /** Two codes are adjacent exactly when some flattened path with both ends known joins them. */
  lemma GraphFromFilesEdges(stationData: seq<Dict>, pathData: seq<Dict>, flatten: seq<Dict> -> seq<Dict>, x: string, y: string)
    requires GraphFromFiles(stationData, pathData, flatten).Ok?
    ensures var codes := StationCodes(flatten(stationData)).value;
      var paths := flatten(pathData);
      Adjacent(GraphFromFiles(stationData, pathData, flatten).value, x, y) <==>
        exists i :: 0 <= i < |paths| && Accepted(paths[i], codes) && {Upper(paths[i]["start"].s), Upper(paths[i]["end"].s)} == {x, y}
  {
    var codes := StationCodes(flatten(stationData)).value;
    var edges := PathEdges(flatten(pathData), codes).value;
    BuildTcGraphShape(codes, edges, x, y);
    PathEdgesMeaning(flatten(pathData), codes, x, y);
  }

  // ---------------------------------------------------------------------------------------------
  // PathSuggestionConfig

  /** `PathSuggestionConfig`; `avoid_equipments` is None when the command line gave none. */
  datatype Config = Config(useSfs: bool, nonElectrified: bool, avoidEquipments: Option<seq<string>>, fullPath: bool)

  /** The dataclass defaults: SFS and non-electrified lines allowed, nothing avoided, path reduced. */
  const Default := Config(true, true, Some([]), false)

  /** The command-line flags `add_cli_args` defines. */
  datatype CliArgs = CliArgs(avoidSfs: bool, electrified: bool, fullPath: bool, avoidEquipments: Option<seq<string>>)

  /** `from_cli_args`: the two "avoid" flags are negated into the two "allow" settings. */
  function FromCliArgs(args: CliArgs): (r: Config)
    ensures r.useSfs <==> !args.avoidSfs
    ensures r.nonElectrified <==> !args.electrified
    ensures r.fullPath == args.fullPath && r.avoidEquipments == args.avoidEquipments
  {
    Config(!args.avoidSfs, !args.electrified, args.avoidEquipments, args.fullPath)
  }

  /** A command line without flags gives the defaults, except that no equipment list is None rather than empty. */
  lemma NoFlagsGiveDefaults()
    ensures FromCliArgs(CliArgs(false, false, false, None)) == Default.(avoidEquipments := None)
  {
  }

  /**
   * `get_path_suggestion`. The shortest-path call it makes passes options that the
   * `get_shortest_path` of `validation/shortest_paths.py` does not take, and the reduction passes
   * `station_to_group` to a `without_trivial_nodes` that takes three arguments; both are given
   * from outside: `complete` is what the shortest-path call returned, `reduce` the reduction.
   */
  function GetPathSuggestion(g: Graph, complete: Result<Option<seq<string>>>, config: Config, reduce: seq<string> -> seq<string>)
    : (r: Result<seq<string>>)
    ensures complete.Err? ==> r == Err(complete.error)
    ensures complete.Ok? ==> (r.Ok? <==> complete.value.Some? && IsSimplePath(g, complete.value.value))
    ensures complete.Ok? && complete.value.Some? && !IsSimplePath(g, complete.value.value) ==> r == Err(AssertionError)
    ensures r.Ok? && config.fullPath ==> r.value == complete.value.value
    ensures r.Ok? && !config.fullPath ==> r.value == reduce(complete.value.value)
  {
    var path :- complete;
    if path.None? then Err(TypeError)
    else if !IsSimplePath(g, path.value) then Err(AssertionError)
    else if !config.fullPath then Ok(reduce(path.value))
    else Ok(path.value)
  }
}
