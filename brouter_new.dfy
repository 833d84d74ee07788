/**
 * The pure helpers of the GPX route importer (`importers/brouter_new.py`): station-name
 * normalisation, the group tables for Photon and Overpass answers, the gauge equipment, the
 * country equipment of a new path, and the splitting of a track at its stops.
 */
module BrouterNew {
  import opened Wrappers
  import opened Json
  import opened Text

  // ---------------------------------------------------------------------------------------------
  // normalize_name

  /** `[- _]` replaced by a space. */
  function Delimited(s: string): (r: string)
    ensures |r| == |s|
    ensures forall i :: 0 <= i < |s| ==> r[i] == if s[i] in "- _" then ' ' else s[i]
  {
    seq(|s|, i requires 0 <= i < |s| => if s[i] in "- _" then ' ' else s[i])
  }

  /** `[.']` removed. */
  function Omitted(s: string): (r: string)
    ensures forall c :: c in r ==> c in s && c != '.' && c != '\''
    ensures forall c :: c in s && c != '.' && c != '\'' ==> c in r
  {
    if s == [] then []
    else (if s[0] in ".'" then [] else [s[0]]) + Omitted(s[1..])
  }

  /** The end of the whitespace run starting at `i`. */
  function RunEnd(s: string, i: nat): (j: nat)
    requires i <= |s|
    ensures i <= j <= |s| && (j == |s| || !IsSpace(s[j]))
    ensures forall k :: i <= k < j ==> IsSpace(s[k])
    decreases |s| - i
  {
    if i == |s| || !IsSpace(s[i]) then i else RunEnd(s, i + 1)
  }

  /** `re.sub(r"\s\s+", " ", s)` from position `i` on: each run of two or more whitespace characters, leftmost first, becomes one space. */
  function Collapsed(s: string, i: nat): (r: string)
    requires i <= |s|
    decreases |s| - i
  {
    if i == |s| then []
    else if i + 1 < |s| && IsSpace(s[i]) && IsSpace(s[i + 1]) then " " + Collapsed(s, RunEnd(s, i))
    else [s[i]] + Collapsed(s, i + 1)
  }

  /**
   * `normalize_name`: lower-cased, transliterated (`unidecode`, whose tables are not part of this
   * model, is a parameter), delimiters to spaces, dots and apostrophes dropped, whitespace runs
   * collapsed, and finally every "saint" shortened to "st".
   */
  function NormalizeName(name: string, unidecode: string -> string): (r: string)
  {
    Replace(Collapsed(Omitted(Delimited(unidecode(Lower(name)))), 0), "saint", "st")
  }

  /** None of the characters that `normalize_name` removes or replaces. */
  predicate Clean(s: string)
  {
    forall i :: 0 <= i < |s| ==> s[i] !in "-_.'"
  }

  /** No two whitespace characters in a row. */
  ghost predicate SingleSpaced(s: string)
  {
    forall i, j :: 0 <= i < j < |s| && j == i + 1 ==> !(IsSpace(s[i]) && IsSpace(s[j]))
  }

  lemma SingleSpacedJoin(a: string, b: string)
    requires SingleSpaced(a) && SingleSpaced(b)
    requires |a| == 0 || |b| == 0 || !IsSpace(a[|a| - 1]) || !IsSpace(b[0])
    ensures SingleSpaced(a + b)
  {
    var r := a + b;
    forall i, j | 0 <= i < j < |r| && j == i + 1
      ensures !(IsSpace(r[i]) && IsSpace(r[j]))
    {
      if j < |a| {
        assert r[i] == a[i] && r[j] == a[j];
      } else if i >= |a| {
        assert r[i] == b[i - |a|] && r[j] == b[j - |a|];
      }
    }
  }

  /** The collapsed text starts with whitespace only where the original does. */
  lemma CollapsedStart(s: string, i: nat)
    requires i <= |s|
    ensures Collapsed(s, i) != [] && IsSpace(Collapsed(s, i)[0]) ==> i < |s| && IsSpace(s[i])
  {
  }

  /** A run of whitespace collapsed to one space, before text that does not start with whitespace. */
  lemma CollapsedRun(s: string, j: nat)
    requires j <= |s| && (j == |s| || !IsSpace(s[j])) && SingleSpaced(Collapsed(s, j))
    ensures SingleSpaced(" " + Collapsed(s, j))
  {
    CollapsedStart(s, j);
    SingleSpacedJoin(" ", Collapsed(s, j));
  }

  /** A character kept, where it and the next do not form a whitespace run. */
  lemma CollapsedKept(s: string, i: nat)
    requires i < |s| && !(i + 1 < |s| && IsSpace(s[i]) && IsSpace(s[i + 1])) && SingleSpaced(Collapsed(s, i + 1))
    ensures SingleSpaced([s[i]] + Collapsed(s, i + 1))
  {
    CollapsedStart(s, i + 1);
    SingleSpacedJoin([s[i]], Collapsed(s, i + 1));
  }

  /** The collapsed text has no whitespace run. */
  lemma {:induction false} CollapsedSingleSpaced(s: string, i: nat)
    requires i <= |s|
    ensures SingleSpaced(Collapsed(s, i))
    decreases |s| - i
  {
    if i < |s| {
      if i + 1 < |s| && IsSpace(s[i]) && IsSpace(s[i + 1]) {
        CollapsedSingleSpaced(s, RunEnd(s, i));
        CollapsedRun(s, RunEnd(s, i));
      } else {
        CollapsedSingleSpaced(s, i + 1);
        CollapsedKept(s, i);
      }
    }
  }

  /** Collapsing only writes spaces and characters of the text. */
  lemma {:induction false} CollapsedClean(s: string, i: nat)
    requires i <= |s| && Clean(s)
    ensures Clean(Collapsed(s, i))
    decreases |s| - i
  {
    if i < |s| {
      if i + 1 < |s| && IsSpace(s[i]) && IsSpace(s[i + 1]) {
        CollapsedClean(s, RunEnd(s, i));
      } else {
        CollapsedClean(s, i + 1);
      }
    }
  }

  lemma SuffixClean(s: string, j: nat)
    requires j <= |s|
    ensures Clean(s) ==> Clean(s[j..])
    ensures SingleSpaced(s) ==> SingleSpaced(s[j..])
  {
    forall k | 0 <= k < |s| - j
      ensures s[j..][k] == s[k + j]
    {
    }
  }

  /** Shortening "saint" starts the text with whitespace only where the original does. */
  lemma SaintStart(s: string)
    ensures Replace(s, "saint", "st") != [] && IsSpace(Replace(s, "saint", "st")[0]) ==> s != [] && IsSpace(s[0])
  {
  }

  /** Shortening "saint" keeps the text clean and single-spaced. */
  lemma {:induction false} SaintKeepsClean(s: string)
    requires Clean(s) && SingleSpaced(s)
    ensures Clean(Replace(s, "saint", "st")) && SingleSpaced(Replace(s, "saint", "st"))
    decreases |s|
  {
    var r := Replace(s, "saint", "st");
    if StartsWith(s, "saint") {
      var rest := s[5..];
      SuffixClean(s, 5);
      SaintKeepsClean(rest);
      SingleSpacedJoin("st", Replace(rest, "saint", "st"));
      assert r == "st" + Replace(rest, "saint", "st");
    } else if s != [] {
      var rest := s[1..];
      SuffixClean(s, 1);
      SaintKeepsClean(rest);
      SaintStart(rest);
      SingleSpacedJoin([s[0]], Replace(rest, "saint", "st"));
      assert r == [s[0]] + Replace(rest, "saint", "st");
    }
  }

  /** A normalised name holds no '-', '_', '.' or "'", and no two whitespace characters in a row, whatever the transliteration. */
  lemma NormalizeNameIsClean(name: string, unidecode: string -> string)
    ensures Clean(NormalizeName(name, unidecode)) && SingleSpaced(NormalizeName(name, unidecode))
  {
    var d := Delimited(unidecode(Lower(name)));
    var o := Omitted(d);
    assert Clean(o) by {
      forall i | 0 <= i < |o|
        ensures o[i] !in "-_.'"
      {
        assert o[i] in d;
      }
    }
    CollapsedSingleSpaced(o, 0);
    CollapsedClean(o, 0);
    SaintKeepsClean(Collapsed(o, 0));
  }

  // ---------------------------------------------------------------------------------------------
  // Groups

  /** `group_from_photon_response`: a missing `osm_value` raises KeyError. */
  function GroupFromPhotonResponse(response: Dict): (r: Result<Option<int>>)
    ensures "osm_value" !in response ==> r == Err(KeyError)
    ensures "osm_value" in response ==> r.Ok?
    ensures r.Ok? ==> (r.value == Some(2) <==> response["osm_value"] == Str("station"))
    ensures r.Ok? ==> (r.value == Some(5) <==> response["osm_value"] in {Str("stop"), Str("halt")})
    ensures r.Ok? ==> (r.value == Some(4) <==> response["osm_value"] == Str("junction"))
    ensures r.Ok? ==> (r.value == None <==> response["osm_value"] !in {Str("station"), Str("stop"), Str("halt"), Str("junction")})
  {
    if "osm_value" !in response then Err(KeyError)
    else
      var value := response["osm_value"];
      if value == Str("station") then Ok(Some(2))
      else if value == Str("stop") then Ok(Some(5))
      else if value == Str("halt") then Ok(Some(5))
      else if value == Str("junction") then Ok(Some(4))
      else Ok(None)
  }

  /** The order in which `largest_group` looks for the groups. */
  const GroupOrder: seq<int> := [0, 1, 2, 5, 3, 6, 4]

  /** `largest_group`, its chain of membership tests. */
  function LargestGroup(groups: seq<int>): (r: Option<int>)
  {
    if 0 in groups then Some(0)
    else if 1 in groups then Some(1)
    else if 2 in groups then Some(2)
    else if 5 in groups then Some(5)
    else if 3 in groups then Some(3)
    else if 6 in groups then Some(6)
    else if 4 in groups then Some(4)
    else None
  }

  /** The first entry of `order`, from position `i` on, that occurs among the groups. */
  function FirstOccurring(order: seq<int>, groups: seq<int>, i: nat): (r: Option<int>)
    decreases |order| - i
  {
    if i >= |order| then None
    else if order[i] in groups then Some(order[i])
    else FirstOccurring(order, groups, i + 1)
  }

  /** The first occurring entry is one of the groups, and none before it occurs; there is none exactly when no entry occurs. */
  lemma {:induction false} FirstOccurringMeaning(order: seq<int>, groups: seq<int>, i: nat)
    ensures FirstOccurring(order, groups, i).None? <==> forall j :: i <= j < |order| ==> order[j] !in groups
    ensures FirstOccurring(order, groups, i).Some? ==>
      exists k :: i <= k < |order| && order[k] == FirstOccurring(order, groups, i).value && order[k] in groups &&
        forall j :: i <= j < k ==> order[j] !in groups
    decreases |order| - i
  {
    if i < |order| && order[i] !in groups {
      FirstOccurringMeaning(order, groups, i + 1);
    }
  }

  /**
   * `largest_group` picks the first group of the order that occurs, so its answer is one of the
   * given groups, and no group earlier in the order occurs; None exactly when no listed group does.
   */
  lemma LargestGroupIsFirstOccurring(groups: seq<int>)
    ensures LargestGroup(groups) == FirstOccurring(GroupOrder, groups, 0)
    ensures LargestGroup(groups).Some? ==> LargestGroup(groups).value in groups
    ensures LargestGroup(groups).None? <==> forall g :: g in GroupOrder ==> g !in groups
    ensures LargestGroup(groups).Some? ==>
      exists k :: 0 <= k < |GroupOrder| && GroupOrder[k] == LargestGroup(groups).value &&
        forall j :: 0 <= j < k ==> GroupOrder[j] !in groups
  {
    var o := GroupOrder;
    assert o[0] == 0 && o[1] == 1 && o[2] == 2 && o[3] == 5 && o[4] == 3 && o[5] == 6 && o[6] == 4 && |o| == 7;
    assert FirstOccurring(o, groups, 7) == None;
    assert FirstOccurring(o, groups, 6) == if 4 in groups then Some(4) else None;
    assert FirstOccurring(o, groups, 5) == if 6 in groups then Some(6) else FirstOccurring(o, groups, 6);
    assert FirstOccurring(o, groups, 4) == if 3 in groups then Some(3) else FirstOccurring(o, groups, 5);
    assert FirstOccurring(o, groups, 3) == if 5 in groups then Some(5) else FirstOccurring(o, groups, 4);
    assert FirstOccurring(o, groups, 2) == if 2 in groups then Some(2) else FirstOccurring(o, groups, 3);
    assert FirstOccurring(o, groups, 1) == if 1 in groups then Some(1) else FirstOccurring(o, groups, 2);
    FirstOccurringMeaning(o, groups, 0);
  }

  /** `dict.get(key, default)` on string tags. */
  function TagOr(tags: map<string, string>, key: string, default: string): (r: string)
    ensures key in tags ==> r == tags[key]
    ensures key !in tags ==> r == default
  {
    if key in tags then tags[key] else default
  }

  /** The usages that make a line a branch line. */
  const BranchUsages: seq<string> := ["branch", "industrial", "military", "test", "tourism"]

  /**
   * `get_group_from_overpass`: a branch usage gives 1; otherwise the speed decides, 2 from 230
   * on and 0 below; a speed tag that is not a whole number makes `int` raise ValueError.
   */
  function GroupFromOverpass(tags: map<string, string>): (r: Result<int>)
    ensures TagOr(tags, "usage", "main") in BranchUsages ==> r == Ok(1)
    ensures TagOr(tags, "usage", "main") !in BranchUsages ==>
      (r.Ok? <==> ParseInt(TagOr(tags, "maxspeed", "0")).Ok?)
    ensures TagOr(tags, "usage", "main") !in BranchUsages && r.Ok? ==>
      (r.value == 2 <==> ParseInt(TagOr(tags, "maxspeed", "0")).value >= 230)
    ensures r.Ok? ==> r.value in {0, 1, 2}
  {
    var usage := TagOr(tags, "usage", "main");
    if usage in BranchUsages then Ok(1)
    else
      var speed :- ParseInt(TagOr(tags, "maxspeed", "0"));
      if speed >= 230 then Ok(2) else Ok(0)
  }

  /** Tags without usage and speed give a main line, group 0. */
  lemma UntaggedIsMainLine(tags: map<string, string>)
    requires "usage" !in tags && "maxspeed" !in tags
    ensures GroupFromOverpass(tags) == Ok(0)
  {
    assert "main" !in BranchUsages;
    assert ParseInt("0") == Ok(0) by {
      ParseIntOfString(0);
      assert IntToString(0) == "0";
    }
  }

  /** `get_equipments_from_overpass`: a gauge other than standard gauge is needed, as "<gauge>mm". */
  function EquipmentsFromOverpass(tags: map<string, string>): (r: seq<string>)
    ensures r != [] <==> "gauge" in tags && tags["gauge"] != "1435"
    ensures r != [] ==> r == [tags["gauge"] + "mm"]
  {
    if TagOr(tags, "gauge", "1435") != "1435" then [tags["gauge"] + "mm"] else []
  }

  // ---------------------------------------------------------------------------------------------
  // The equipment of a new path

  /** Every equipment of the sub-paths, once. */
  function AllEquipments(subPaths: seq<seq<string>>): (r: set<string>)
    ensures forall e :: e in r <==> exists i :: 0 <= i < |subPaths| && e in subPaths[i]
  {
    if subPaths == [] then {}
    else
      var last := subPaths[|subPaths| - 1];
      AllEquipments(subPaths[..|subPaths| - 1]) + set i | 0 <= i < |last| :: last[i]
  }

  /**
   * The equipment rule of `tc_path_from_gpx`: the sub-paths' equipment, and both countries'
   * codes as soon as one end lies outside Germany.
   */
  function NeededEquipments(subPaths: seq<seq<string>>, startCountry: string, endCountry: string): (r: set<string>)
    ensures AllEquipments(subPaths) <= r
    ensures r - AllEquipments(subPaths) <= {startCountry, endCountry}
    ensures startCountry != "DE" || endCountry != "DE" ==> startCountry in r && endCountry in r
    ensures startCountry == "DE" && endCountry == "DE" ==> r == AllEquipments(subPaths)
  {
    var needed := AllEquipments(subPaths);
    if startCountry != "DE" || endCountry != "DE" then needed + {startCountry} + {endCountry} else needed
  }

  // ---------------------------------------------------------------------------------------------
  // collect_path_segments

  /** A piece of the track: the previous stop (none before the first), its track points, and the stop it ends at. */
  datatype Segment<S, P> = Segment(start: Option<S>, points: seq<P>, end: S)

  /** Where the scan of the track points stands. `table` holds the waypoints not matched yet, in the dictionary's order. */
  datatype Scan<L, S, P> = Scan(segments: seq<Segment<S, P>>, stops: seq<S>, lastIndex: nat, lastStop: Option<S>, table: seq<(L, S)>)

  /** The first waypoint left that lies near the point (closer than 0.08 in the source), or the table's length. */
  function FirstNear<L, S, P>(table: seq<(L, S)>, point: P, near: (L, P) -> bool): (r: nat)
    ensures r <= |table|
  {
    if table == [] then 0
    else if near(table[0].0, point) then 0
    else 1 + FirstNear(table[1..], point, near)
  }

  /** The waypoint found is near the point, and none before it is. */
  lemma {:induction false} FirstNearMeaning<L, S, P>(table: seq<(L, S)>, point: P, near: (L, P) -> bool)
    ensures FirstNear(table, point, near) < |table| ==> near(table[FirstNear(table, point, near)].0, point)
    ensures forall j :: 0 <= j < FirstNear(table, point, near) ==> !near(table[j].0, point)
  {
    if table != [] && !near(table[0].0, point) {
      FirstNearMeaning(table[1..], point, near);
      forall j | 0 < j < FirstNear(table, point, near)
        ensures !near(table[j].0, point)
      {
        assert table[j] == table[1..][j - 1];
      }
    }
  }

  /** The stations of the waypoint table. */
  function Stations<L, S>(table: seq<(L, S)>): (r: seq<S>)
    ensures |r| == |table| && forall i :: 0 <= i < |table| ==> r[i] == table[i].1
  {
    seq(|table|, i requires 0 <= i < |table| => table[i].1)
  }

  /** The stop before stop `i`, none for the first. */
  function Before<S>(stops: seq<S>, i: nat): Option<S>
    requires i <= |stops|
  {
    if i == 0 then None else Some(stops[i - 1])
  }

  /** Segment `i` ends at stop `i` and starts at the stop before (the first at none); the last stop is remembered. */
  ghost predicate Chained<L, S, P>(s: Scan<L, S, P>)
  {
    && |s.segments| == |s.stops|
    && (forall i {:trigger s.segments[i]} :: 0 <= i < |s.stops| ==> s.segments[i].end == s.stops[i] && s.segments[i].start == Before(s.stops, i))
    && s.lastStop == Before(s.stops, |s.stops|)
  }

  lemma BeforeAppend<S>(stops: seq<S>, x: S, i: nat)
    requires i <= |stops|
    ensures Before(stops + [x], i) == Before(stops, i)
  {
    if i > 0 {
      assert (stops + [x])[i - 1] == stops[i - 1];
    }
  }

  /** After closing a segment at a new stop, segment `i` still runs from stop `i - 1` to stop `i`. */
  lemma ChainAt<L, S, P>(s: Scan<L, S, P>, points: seq<P>, stop: S, i: nat)
    requires Chained(s) && i <= |s.stops|
    ensures var segments, stops := s.segments + [Segment(s.lastStop, points, stop)], s.stops + [stop];
      segments[i].end == stops[i] && segments[i].start == Before(stops, i)
  {
    BeforeAppend(s.stops, stop, i);
    if i < |s.stops| {
      assert (s.segments + [Segment(s.lastStop, points, stop)])[i] == s.segments[i];
      assert (s.stops + [stop])[i] == s.stops[i];
    }
  }

  /** Closing a segment at a new stop keeps the scan chained. */
  lemma ChainExtend<L, S, P>(s: Scan<L, S, P>, points: seq<P>, stop: S, index: nat, table: seq<(L, S)>)
    ensures Chained(s) ==> Chained(Scan(s.segments + [Segment(s.lastStop, points, stop)], s.stops + [stop], index, Some(stop), table))
  {
    var segments, stops := s.segments + [Segment(s.lastStop, points, stop)], s.stops + [stop];
    if Chained(s) {
      forall i | 0 <= i < |stops|
        ensures segments[i].end == stops[i] && segments[i].start == Before(stops, i)
      {
        ChainAt(s, points, stop, i);
      }
    }
  }

  lemma SplitAt<T>(t: seq<T>, k: nat)
    requires k < |t|
    ensures t == (t[..k] + [t[k]]) + t[k + 1..]
  {
  }

  lemma StationsAppend<L, S>(a: seq<(L, S)>, b: seq<(L, S)>)
    ensures Stations(a + b) == Stations(a) + Stations(b)
  {
  }

  /** Taking entry `k` out of a table takes one entry, and its station. */
  lemma RemovedAt<L, S>(t: seq<(L, S)>, k: nat)
    requires k < |t|
    ensures multiset(t[..k] + t[k + 1..]) + multiset{t[k]} == multiset(t)
  {
    SplitAt(t, k);
  }

  lemma RemovedStation<L, S>(t: seq<(L, S)>, k: nat)
    requires k < |t|
    ensures multiset(Stations(t[..k] + t[k + 1..])) + multiset{t[k].1} == multiset(Stations(t))
  {
    var a, b := t[..k], t[k + 1..];
    var x := t[k];
    SplitAt(t, k);
    StationsAppend(a, b);
    StationsAppend(a + [x], b);
    StationsAppend(a, [x]);
    var sa, sb := Stations(a), Stations(b);
    assert Stations([x]) == [x.1];
    assert Stations(t) == sa + [x.1] + sb;
    assert Stations(a + b) == sa + sb;
    assert multiset(sa + [x.1] + sb) == multiset(sa) + multiset{x.1} + multiset(sb);
  }

  /**
   * Track point `index`: when it lies near a waypoint left, a segment from the last stop up to
   * (not including) this point is closed at that waypoint's station, which is a stop from now on
   * and is taken out of the table.
   */
  function Step<L, S, P>(points: seq<P>, near: (L, P) -> bool, s: Scan<L, S, P>, index: nat): (r: Scan<L, S, P>)
    requires s.lastIndex <= index < |points|
    ensures r.lastIndex <= index
    ensures |r.segments| - |s.segments| == |r.stops| - |s.stops| && |r.stops| + |r.table| == |s.stops| + |s.table|
  {
    var k := FirstNear(s.table, points[index], near);
    if k == |s.table| then s
    else
      var stop := s.table[k].1;
      Scan(s.segments + [Segment(s.lastStop, points[s.lastIndex..index], stop)], s.stops + [stop], index, Some(stop),
           s.table[..k] + s.table[k + 1..])
  }

  /** The scan after the first `n` track points. */
  function Scanned<L, S, P>(points: seq<P>, table: seq<(L, S)>, near: (L, P) -> bool, n: nat): (r: Scan<L, S, P>)
    requires n <= |points|
    ensures r.lastIndex <= if n == 0 then 0 else n - 1
    ensures |r.segments| == |r.stops| && |r.stops| + |r.table| == |table|
  {
    if n == 0 then Scan([], [], 0, None, table)
    else Step(points, near, Scanned(points, table, near, n - 1), n - 1)
  }

  /** The scan holds a part of the original table, and the stops are the stations of the entries it lost. */
  ghost predicate Accounted<L, S, P>(s: Scan<L, S, P>, table: seq<(L, S)>)
  {
    && multiset(s.table) <= multiset(table)
    && multiset(Stations(s.table)) + multiset(s.stops) == multiset(Stations(table))
  }

  /** Taking entry `k` out of the table, and making its station a stop, keeps the account. */
  lemma AccountedTake<L, S, P>(s: Scan<L, S, P>, k: nat, rest: seq<(L, S)>, stops: seq<S>, table: seq<(L, S)>)
    requires Accounted(s, table) && k < |s.table|
    requires rest == s.table[..k] + s.table[k + 1..] && stops == s.stops + [s.table[k].1]
    ensures multiset(rest) <= multiset(table) && multiset(Stations(rest)) + multiset(stops) == multiset(Stations(table))
  {
    RemovedAt(s.table, k);
    RemovedStation(s.table, k);
  }

  /** One step takes at most one entry out of the table, and its station becomes the stop. */
  lemma StepTakes<L, S, P>(points: seq<P>, near: (L, P) -> bool, s: Scan<L, S, P>, index: nat, table: seq<(L, S)>)
    requires s.lastIndex <= index < |points| && Accounted(s, table)
    ensures Accounted(Step(points, near, s, index), table)
  {
    var k := FirstNear(s.table, points[index], near);
    if k < |s.table| {
      var r := Step(points, near, s, index);
      AccountedTake(s, k, r.table, r.stops, table);
    }
  }

  lemma ScannedTakesStep<L, S, P>(points: seq<P>, table: seq<(L, S)>, near: (L, P) -> bool, n: nat)
    requires 0 < n <= |points| && Accounted(Scanned(points, table, near, n - 1), table)
    ensures Accounted(Scanned(points, table, near, n), table)
  {
    StepTakes(points, near, Scanned(points, table, near, n - 1), n - 1, table);
  }

  lemma AccountedStart<L, S, P>(table: seq<(L, S)>)
    ensures Accounted<L, S, P>(Scan([], [], 0, None, table), table)
  {
  }

  /** Each waypoint is matched at most once: the table only loses entries, and the stops are the stations of the entries it lost. */
  lemma {:induction false} ScannedTakes<L, S, P>(points: seq<P>, table: seq<(L, S)>, near: (L, P) -> bool, n: nat)
    requires n <= |points|
    ensures Accounted(Scanned(points, table, near, n), table)
  {
    if n == 0 {
      AccountedStart<L, S, P>(table);
    } else {
      ScannedTakes(points, table, near, n - 1);
      ScannedTakesStep(points, table, near, n);
    }
  }

  /** One step keeps the scan chained. */
  lemma StepChains<L, S, P>(points: seq<P>, near: (L, P) -> bool, s: Scan<L, S, P>, index: nat)
    requires s.lastIndex <= index < |points| && Chained(s)
    ensures Chained(Step(points, near, s, index))
  {
    var k := FirstNear(s.table, points[index], near);
    if k < |s.table| {
      ChainExtend(s, points[s.lastIndex..index], s.table[k].1, index, s.table[..k] + s.table[k + 1..]);
    }
  }

  lemma ScannedChainStep<L, S, P>(points: seq<P>, table: seq<(L, S)>, near: (L, P) -> bool, n: nat)
    requires 0 < n <= |points| && Chained(Scanned(points, table, near, n - 1))
    ensures Chained(Scanned(points, table, near, n))
  {
    StepChains(points, near, Scanned(points, table, near, n - 1), n - 1);
  }

  lemma ChainedStart<L, S, P>(table: seq<(L, S)>)
    ensures Chained<L, S, P>(Scan([], [], 0, None, table))
  {
  }

  /** The scan keeps its segments chained from stop to stop. */
  lemma {:induction false} ScannedChain<L, S, P>(points: seq<P>, table: seq<(L, S)>, near: (L, P) -> bool, n: nat)
    requires n <= |points|
    ensures Chained(Scanned(points, table, near, n))
  {
    if n == 0 {
      ChainedStart<L, S, P>(table);
    } else {
      ScannedChain(points, table, near, n - 1);
      ScannedChainStep(points, table, near, n);
    }
  }

  /**
   * `collect_path_segments`: the scan over every track point; the first segment, which starts at
   * no stop, is dropped (IndexError without any stop) and at least one must remain (the
   * assertion). The unmatched waypoints are what is left of the caller's dictionary.
   */
  function CollectPathSegments<L, S, P>(points: seq<P>, table: seq<(L, S)>, near: (L, P) -> bool)
    : (r: Result<(seq<Segment<S, P>>, seq<S>, seq<(L, S)>)>)
    ensures r.Ok? ==> |r.value.0| >= 1 && |r.value.1| == |r.value.0| + 1
  {
    var s := Scanned(points, table, near, |points|);
    if |s.segments| == 0 then Err(IndexError)
    else if |s.segments| == 1 then Err(AssertionError)
    else Ok((s.segments[1..], s.stops, s.table))
  }

  /** The segments kept run from each stop to the next: segment `i` from stop `i` to stop `i + 1`. */
  lemma CollectedSegmentsChain<L, S, P>(points: seq<P>, table: seq<(L, S)>, near: (L, P) -> bool)
    requires CollectPathSegments(points, table, near).Ok?
    ensures var (segments, stops, _) := CollectPathSegments(points, table, near).value;
      forall i :: 0 <= i < |segments| ==> segments[i].start == Some(stops[i]) && segments[i].end == stops[i + 1]
  {
    ScannedChain(points, table, near, |points|);
  }

  /** Every waypoint gives at most one stop: the waypoints left are part of the table, and the stops are the stations of the others. */
  lemma CollectedWaypointsOnce<L, S, P>(points: seq<P>, table: seq<(L, S)>, near: (L, P) -> bool)
    requires CollectPathSegments(points, table, near).Ok?
    ensures var (_, stops, rest) := CollectPathSegments(points, table, near).value;
      multiset(rest) <= multiset(table) && multiset(Stations(rest)) + multiset(stops) == multiset(Stations(table))
  {
    ScannedTakes(points, table, near, |points|);
  }

  /** Fewer than two stops on the track fail: none raises IndexError, one fails the assertion. */
  lemma FewStopsFail<L, S, P>(points: seq<P>, table: seq<(L, S)>, near: (L, P) -> bool)
    ensures |Scanned(points, table, near, |points|).stops| == 0 ==> CollectPathSegments(points, table, near) == Err(IndexError)
    ensures |Scanned(points, table, near, |points|).stops| == 1 ==> CollectPathSegments(points, table, near) == Err(AssertionError)
  {
  }

  /** One track point: the inner loop over the waypoints left, which stops at the first one near it. */
  method MatchPoint<L, S, P>(table: seq<(L, S)>, point: P, near: (L, P) -> bool) returns (k: nat)
    ensures k == FirstNear(table, point, near)
  {
    k := 0;
    while k < |table|
      invariant k <= |table|
      invariant forall j :: 0 <= j < k ==> !near(table[j].0, point)
    {
      if near(table[k].0, point) {
        FirstNearIsFirst(table, point, near, k);
        return;
      }
      k := k + 1;
    }
    FirstNearIsFirst(table, point, near, k);
  }

  lemma {:induction false} FirstNearIsFirst<L, S, P>(table: seq<(L, S)>, point: P, near: (L, P) -> bool, k: nat)
    requires k <= |table| && forall j :: 0 <= j < k ==> !near(table[j].0, point)
    requires k == |table| || near(table[k].0, point)
    ensures FirstNear(table, point, near) == k
  {
    if k > 0 {
      FirstNearIsFirst(table[1..], point, near, k - 1);
    }
  }

  /** The body of the loop over the track points: the point closes a segment at the first waypoint near it, if any. */
  method ScanPoint<L, S, P>(points: seq<P>, near: (L, P) -> bool, segments: seq<Segment<S, P>>, stops: seq<S>, lastIndex: nat,
                            lastStop: Option<S>, left: seq<(L, S)>, index: nat)
    returns (segments': seq<Segment<S, P>>, stops': seq<S>, lastIndex': nat, lastStop': Option<S>, left': seq<(L, S)>)
    requires lastIndex <= index < |points|
    ensures Scan(segments', stops', lastIndex', lastStop', left') == Step(points, near, Scan(segments, stops, lastIndex, lastStop, left), index)
  {
    segments', stops', lastIndex', lastStop', left' := segments, stops, lastIndex, lastStop, left;
    var k := MatchPoint(left, points[index], near);
    if k < |left| {
      var stop := left[k].1;
      segments' := segments + [Segment(lastStop, points[lastIndex..index], stop)];
      lastIndex' := index;
      lastStop' := Some(stop);
      stops' := stops + [stop];
      left' := left[..k] + left[k + 1..];
    }
  }

  /** The loop over the track points. */
  method ScanAll<L, S, P>(points: seq<P>, table: seq<(L, S)>, near: (L, P) -> bool)
    returns (segments: seq<Segment<S, P>>, stops: seq<S>, left: seq<(L, S)>)
    ensures var scan := Scanned(points, table, near, |points|); segments == scan.segments && stops == scan.stops && left == scan.table
  {
    segments, stops, left := [], [], table;
    var lastIndex: nat := 0;
    var lastStop: Option<S> := None;
    ghost var scan := Scan(segments, stops, lastIndex, lastStop, left);
    for index := 0 to |points|
      invariant scan == Scanned(points, table, near, index)
      invariant scan == Scan(segments, stops, lastIndex, lastStop, left)
    {
      segments, stops, lastIndex, lastStop, left := ScanPoint(points, near, segments, stops, lastIndex, lastStop, left, index);
      scan := Step(points, near, scan, index);
    }
  }

  /** `collect_path_segments`: the scan, then the first segment dropped and at least one more required. */
  method CollectPathSegmentsLoop<L, S, P>(points: seq<P>, table: seq<(L, S)>, near: (L, P) -> bool)
    returns (r: Result<(seq<Segment<S, P>>, seq<S>, seq<(L, S)>)>)
    ensures r == CollectPathSegments(points, table, near)
  {
    var segments, stops, left := ScanAll(points, table, near);
    if |segments| == 0 {
      return Err(IndexError);
    }
    segments := segments[1..];
    if |segments| == 0 {
      return Err(AssertionError);
    }
    return Ok((segments, stops, left));
  }
}
