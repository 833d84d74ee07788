/**
 * The DB Trassenfinder importer: the rows of the route planner's CSV export become
 * `CodeWaypoint`s, and a list of waypoints is turned into a `Route` by finding, for every pair of
 * consecutive waypoints, the tracks of the route number the first one continues on.
 */
module DbTrassenfinder {
  import opened Wrappers
  import opened Text
  import opened Stations
  import opened Routes

  // ---------------------------------------------------------------------------------------------
  // Reading one CSV row

  /** `int(s) if s else None`: an empty cell means no route number. */
  function OptionalInt(s: string): (r: Result<Option<int>>)
    ensures s == [] ==> r == Ok(None)
    ensures s != [] ==> (r.Ok? <==> ParseInt(s).Ok?)
    ensures s != [] && r.Ok? ==> r.value == Some(ParseInt(s).value)
  {
    if s == [] then Ok(None)
    else
      var n :- ParseInt(s);
      Ok(Some(n))
  }

  /**
   * `DbTrassenfinderImporter.deserialize`: column 0 is the distance with a decimal comma, column 2
   * the station code, column 17 the stop kind and column 3 the next route number. The cells are
   * read in that order, so a short row fails with IndexError unless the distance is already bad.
   */
  function Deserialize(entry: seq<string>): (r: Result<CodeWaypoint>)
  {
    if |entry| == 0 then Err(IndexError)
    else
      var distance :- ParseReal(Replace(entry[0], ",", "."));
      if |entry| < 18 then Err(IndexError)
      else
        var next :- OptionalInt(entry[3]);
        Ok(CodeWaypoint(distance, Contains(entry[17], "Kundenhalt"), next, CollapseDoubleSpaces(entry[2])))
  }

  /** What `deserialize` promises about each cell it reads, and when it fails. */
  lemma DeserializeMeaning(entry: seq<string>)
    ensures |entry| == 0 ==> Deserialize(entry) == Err(IndexError)
    ensures |entry| > 0 && ParseReal(Replace(entry[0], ",", ".")).Err? ==> Deserialize(entry) == Err(ValueError)
    ensures 0 < |entry| < 18 && ParseReal(Replace(entry[0], ",", ".")).Ok? ==> Deserialize(entry) == Err(IndexError)
    ensures Deserialize(entry).Ok? <==>
      |entry| >= 18 && ParseReal(Replace(entry[0], ",", ".")).Ok? && OptionalInt(entry[3]).Ok?
    ensures Deserialize(entry).Ok? ==>
      var w := Deserialize(entry).value;
      && Ok(w.distanceFromStart) == ParseReal(Replace(entry[0], ",", "."))
      && w.code == CollapseDoubleSpaces(entry[2])
      && (w.isStop <==> Contains(entry[17], "Kundenhalt"))
      && (w.nextRouteNumber.None? <==> entry[3] == [])
      && (entry[3] != [] ==> w.nextRouteNumber == Some(ParseInt(entry[3]).value))
  {
    if |entry| > 0 {
      var d := ParseReal(Replace(entry[0], ",", "."));
      if d.Err? {
        assert d.error == ValueError;
      }
    }
  }

  /** No `str(n)` contains a comma, so the comma replacement leaves it alone. */
  lemma NatTextHasNoComma(n: nat)
    ensures Replace(NatToString(n), ",", ".") == NatToString(n)
  {
    var s := NatToString(n);
    ContainsChar(s, ',');
    assert ',' !in s by {
      forall i | 0 <= i < |s| ensures s[i] != ',' {
        assert IsDigit(s[i]);
      }
    }
    ReplaceAbsent(s, ",", ".");
  }

  /** A route number written by `str` is read back by the route number cell's conversion. */
  lemma OptionalIntOfString(routeNumber: int)
    ensures OptionalInt(IntToString(routeNumber)) == Ok(Some(routeNumber))
  {
    ParseIntOfString(routeNumber);
    assert IntToString(routeNumber) != [] by {
      if routeNumber >= 0 {
        assert |NatToString(routeNumber)| > 0;
      }
    }
  }

  /** A row whose distance is a whole number of kilometres and whose route number cell is set. */
  lemma DeserializeWrittenRow(entry: seq<string>, km: nat, routeNumber: int)
    requires |entry| >= 18
    requires entry[0] == NatToString(km) && entry[3] == IntToString(routeNumber)
    ensures Deserialize(entry) == Ok(CodeWaypoint(km as real, Contains(entry[17], "Kundenhalt"),
      Some(routeNumber), CollapseDoubleSpaces(entry[2])))
  {
    NatTextHasNoComma(km);
    ParseRealOfNat(km);
    OptionalIntOfString(routeNumber);
  }

  // ---------------------------------------------------------------------------------------------
  // Fallback tracks

  /** `invalid_track`: a track of an unknown route number, not electrified, of unknown kind. */
  function InvalidTrack(routeNumber: Option<int>): (t: Track)
    ensures t.routeNumber == routeNumber && !t.electrified && t.kind == Unknown && t.length == 0.0
    ensures t.fromKm.None? && t.toKm.None?
  {
    Track(routeNumber, false, Unknown, 0.0, None, None)
  }

  /**
   * `track_from_path`: a track of zero length that continues the last known segment, or, when there
   * is none or it lies on another route, the median segment of the whole route. `median` stands for
   * `tc_statistics.median_high` applied to the electrification and the kind of a route's tracks.
   * Python's `not last and rn in data or last.route_number != rn` reads the route number of a missing
   * segment when the route is unknown, which raises AttributeError; a known segment on another route
   * whose route number has no path raises KeyError.
   */
  function TrackFromPath(routeNumber: int, last: Option<Track>, toKm: Option<real>,
                         pathData: map<Option<int>, Path>, median: seq<Track> -> (bool, TrackKind)): (r: Result<Track>)
  {
    var useMedian :-
      if last.None? then (if Some(routeNumber) in pathData then Ok(true) else Err(AttributeError))
      else Ok(last.value.routeNumber != Some(routeNumber));
    if useMedian && Some(routeNumber) !in pathData then Err(KeyError)
    else
      var segment :=
        if useMedian then
          var (electrified, kind) := median(pathData[Some(routeNumber)].tracks);
          Track(Some(routeNumber), electrified, kind, 0.0, None, None)
        else last.value;
      Ok(Track(Some(routeNumber), segment.electrified, segment.kind, 0.0, segment.toKm, toKm))
  }

  /** The three cases of `track_from_path`: no segment, a segment on this route, one on another. */
  lemma TrackFromPathCases(routeNumber: int, last: Option<Track>, toKm: Option<real>,
                           pathData: map<Option<int>, Path>, median: seq<Track> -> (bool, TrackKind))
    ensures var r := TrackFromPath(routeNumber, last, toKm, pathData, median);
      && (r.Ok? <==>
            Some(routeNumber) in pathData || (last.Some? && last.value.routeNumber == Some(routeNumber)))
      && (last.None? && Some(routeNumber) !in pathData ==> r == Err(AttributeError))
      && (last.Some? && last.value.routeNumber != Some(routeNumber) && Some(routeNumber) !in pathData ==>
            r == Err(KeyError))
      && (r.Ok? ==> r.value.routeNumber == Some(routeNumber) && r.value.length == 0.0 && r.value.toKm == toKm)
      && (r.Ok? && last.Some? && last.value.routeNumber == Some(routeNumber) ==>
            r.value.electrified == last.value.electrified && r.value.kind == last.value.kind
            && r.value.fromKm == last.value.toKm)
      && (r.Ok? && (last.None? || last.value.routeNumber != Some(routeNumber)) ==>
            (r.value.electrified, r.value.kind) == median(pathData[Some(routeNumber)].tracks)
            && r.value.fromKm.None?)
  {
  }

  // ---------------------------------------------------------------------------------------------
  // The lookup tables

  /** `{path.route_numer: path for path in path_data}`: a later path of the same number wins. */
  function PathIndex(paths: seq<Path>): map<Option<int>, Path>
  {
    if paths == [] then map[]
    else PathIndex(paths[..|paths| - 1])[paths[|paths| - 1].routeNumber := paths[|paths| - 1]]
  }

  /** `paths[i]` has route number `rn` and no later path has. */
  predicate LastWith(paths: seq<Path>, i: int, rn: Option<int>)
  {
    0 <= i < |paths| && paths[i].routeNumber == rn && forall j :: i < j < |paths| ==> paths[j].routeNumber != rn
  }

  /** Some path has route number `rn`. */
  predicate HasNumber(paths: seq<Path>, rn: Option<int>)
  {
    exists i :: 0 <= i < |paths| && paths[i].routeNumber == rn
  }

  /** The keys of the index are exactly the route numbers of the paths. */
  lemma {:induction false} PathIndexKeys(paths: seq<Path>, rn: Option<int>)
    ensures rn in PathIndex(paths) <==> HasNumber(paths, rn)
  {
    if paths != [] {
      var init := paths[..|paths| - 1];
      PathIndexKeys(init, rn);
      if HasNumber(paths, rn) && rn != paths[|paths| - 1].routeNumber {
        var i :| 0 <= i < |paths| && paths[i].routeNumber == rn;
        assert init[i] == paths[i];
      }
      if HasNumber(init, rn) {
        var i :| 0 <= i < |init| && init[i].routeNumber == rn;
        assert paths[i] == init[i];
      }
    }
  }

  /** Each key holds the LAST path with that number. */
  lemma {:induction false} PathIndexLastWins(paths: seq<Path>, rn: Option<int>)
    requires rn in PathIndex(paths)
    ensures exists i :: LastWith(paths, i, rn) && PathIndex(paths)[rn] == paths[i]
  {
    var init := paths[..|paths| - 1];
    var last := paths[|paths| - 1];
    if rn == last.routeNumber {
      assert PathIndex(paths)[rn] == paths[|paths| - 1];
      assert LastWith(paths, |paths| - 1, rn);
    } else {
      assert rn in PathIndex(init) && PathIndex(paths)[rn] == PathIndex(init)[rn];
      PathIndexLastWins(init, rn);
      var i :| LastWith(init, i, rn) && PathIndex(init)[rn] == init[i];
      assert paths[i] == init[i];
      forall j | i < j < |paths|
        ensures paths[j].routeNumber != rn
      {
        if j < |init| {
          assert paths[j] == init[j];
        }
      }
      assert LastWith(paths, i, rn);
    }
  }

  /** The route kilometres of the locations on route `rn`, in order. */
  function KmsOn(locations: seq<PathLocation>, rn: int): (r: seq<real>)
    ensures |r| <= |locations|
    ensures forall km :: km in r <==> exists l :: l in locations && l.routeNumber == rn && l.lfdKm == km
  {
    if locations == [] then []
    else (if locations[0].routeNumber == rn then [locations[0].lfdKm] else []) + KmsOn(locations[1..], rn)
  }

  // ---------------------------------------------------------------------------------------------
  // Choosing the tracks between two stations

  /** Python's `from_km <= km <= to_km` on a track: TypeError when the comparison reaches a None. */
  function Within(t: Track, km: real): (r: Result<bool>)
    requires t.fromKm.Some?
  {
    if !(t.fromKm.value <= km) then Ok(false)
    else if t.toKm.None? then Err(TypeError)
    else Ok(km <= t.toKm.value)
  }

  /** `track.from_km <= km_start <= track.to_km or track.from_km <= km_end <= track.to_km`. */
  function Covers(t: Track, kmStart: real, kmEnd: real): (r: Result<bool>)
  {
    if t.fromKm.None? then Err(TypeError)
    else
      var first :- Within(t, kmStart);
      if first then Ok(true) else Within(t, kmEnd)
  }

  /** On a track with both kilometres the test is the interval condition; a missing start always fails. */
  lemma CoversMeaning(t: Track, kmStart: real, kmEnd: real)
    ensures t.fromKm.Some? && t.toKm.Some? ==>
      Covers(t, kmStart, kmEnd) == Ok((t.fromKm.value <= kmStart <= t.toKm.value) || (t.fromKm.value <= kmEnd <= t.toKm.value))
    ensures t.fromKm.None? ==> Covers(t, kmStart, kmEnd) == Err(TypeError)
    ensures t.fromKm.Some? && t.toKm.None? ==>
      (Covers(t, kmStart, kmEnd).Ok? <==> kmStart < t.fromKm.value && kmEnd < t.fromKm.value)
  {
  }

  /** The tracks of a path that cover `kmStart` or `kmEnd`, in the path's order; the first failing test fails all. */
  function Selection(tracks: seq<Track>, kmStart: real, kmEnd: real): (r: Result<seq<Track>>)
  {
    if tracks == [] then Ok([])
    else
      var init :- Selection(tracks[..|tracks| - 1], kmStart, kmEnd);
      var covers :- Covers(tracks[|tracks| - 1], kmStart, kmEnd);
      Ok(if covers then init + [tracks[|tracks| - 1]] else init)
  }

  predicate Selects(t: Track, kmStart: real, kmEnd: real)
  {
    Covers(t, kmStart, kmEnd) == Ok(true)
  }

  /**
   * A selection succeeds exactly when every track's test does, and then it keeps precisely the
   * covering tracks, as a subsequence of the path.
   */
  lemma {:induction false} SelectionMeaning(tracks: seq<Track>, kmStart: real, kmEnd: real)
    ensures Selection(tracks, kmStart, kmEnd).Ok? <==> forall i :: 0 <= i < |tracks| ==> Covers(tracks[i], kmStart, kmEnd).Ok?
    ensures Selection(tracks, kmStart, kmEnd).Ok? ==>
      var r := Selection(tracks, kmStart, kmEnd).value;
      && |r| <= |tracks|
      && (forall t :: t in r ==> t in tracks && Selects(t, kmStart, kmEnd))
      && (forall i :: 0 <= i < |tracks| && Selects(tracks[i], kmStart, kmEnd) ==> tracks[i] in r)
  {
    if tracks != [] {
      var init := tracks[..|tracks| - 1];
      var last := tracks[|tracks| - 1];
      SelectionMeaning(init, kmStart, kmEnd);
      assert forall i :: 0 <= i < |init| ==> init[i] == tracks[i];
      if Selection(tracks, kmStart, kmEnd).Ok? {
        var r := Selection(tracks, kmStart, kmEnd).value;
        var ri := Selection(init, kmStart, kmEnd).value;
        assert forall t :: t in ri ==> t in ri + [last];
        forall i | 0 <= i < |tracks| && Selects(tracks[i], kmStart, kmEnd) ensures tracks[i] in r {
          if i < |init| {
            assert tracks[i] in ri;
          }
        }
      }
    }
  }

  /** `for track in path_used.tracks: if …: tracks_between_waypoints.append(track)`. */
  method SelectTracks(tracks: seq<Track>, kmStart: real, kmEnd: real) returns (r: Result<seq<Track>>)
    ensures r == Selection(tracks, kmStart, kmEnd)
  {
    var selected: seq<Track> := [];
    var i := 0;
    while i < |tracks|
      invariant 0 <= i <= |tracks|
      invariant Selection(tracks[..i], kmStart, kmEnd) == Ok(selected)
    {
      assert tracks[..i + 1][..i] == tracks[..i];
      var covers := Covers(tracks[i], kmStart, kmEnd);
      if covers.Err? {
        SelectionErrorPersists(tracks, i + 1, kmStart, kmEnd);
        return Err(covers.error);
      }
      if covers.value {
        selected := selected + [tracks[i]];
      }
      i := i + 1;
    }
    assert tracks[..i] == tracks;
    return Ok(selected);
  }

  lemma {:induction false} SelectionErrorPersists(tracks: seq<Track>, k: nat, kmStart: real, kmEnd: real)
    requires 0 < k <= |tracks|
    requires Covers(tracks[k - 1], kmStart, kmEnd).Err?
    requires Selection(tracks[..k - 1], kmStart, kmEnd).Ok?
    ensures Selection(tracks, kmStart, kmEnd) == Err(Covers(tracks[k - 1], kmStart, kmEnd).error)
    decreases |tracks| - k
  {
    assert tracks[..k][..k - 1] == tracks[..k - 1];
    if k < |tracks| {
      SelectionErrorAfter(tracks, k, kmStart, kmEnd);
    } else {
      assert tracks[..k] == tracks;
    }
  }

  /** Once a prefix of the tracks fails, every longer prefix fails with the same error. */
  lemma {:induction false} SelectionErrorAfter(tracks: seq<Track>, k: nat, kmStart: real, kmEnd: real)
    requires 0 < k <= |tracks|
    requires Selection(tracks[..k], kmStart, kmEnd).Err?
    ensures Selection(tracks, kmStart, kmEnd) == Selection(tracks[..k], kmStart, kmEnd)
    decreases |tracks| - k
  {
    if k < |tracks| {
      assert tracks[..k + 1][..k] == tracks[..k];
      SelectionErrorAfter(tracks, k + 1, kmStart, kmEnd);
    } else {
      assert tracks[..k] == tracks;
    }
  }

  // ---------------------------------------------------------------------------------------------
  // Converting a list of waypoints

  /**
   * What `convert_waypoints_to_route` looks up: the station of every code (as given by
   * `iter_stations_by_codes_reverse`), the path of every route number, the route locations of a
   * station and the median segment of a route.
   */
  datatype Tables = Tables(
    codesToStation: map<string, Station>,
    routeNumberToPath: map<Option<int>, Path>,
    locationsPath: Station -> Option<seq<PathLocation>>,
    median: seq<Track> -> (bool, TrackKind))

  /** A station for a code; an unknown code gets a placeholder named by the NEXT waypoint's code. */
  function StationFor(code: string, next: CodeWaypoint, tables: Tables): (s: Station)
    ensures code in tables.codesToStation ==> s == tables.codesToStation[code]
    ensures code !in tables.codesToStation ==> s == InvalidStation(next.code)
  {
    if code in tables.codesToStation then tables.codesToStation[code] else InvalidStation(next.code)
  }

  /** The tracks between a waypoint and the next one. */
  function SegmentTracks(w: CodeWaypoint, next: CodeWaypoint, tables: Tables): (r: Result<seq<Track>>)
  {
    var station := StationFor(w.code, next, tables);
    var nextStation := StationFor(next.code, next, tables);
    if w.nextRouteNumber.Some? && w.nextRouteNumber.value != 0 && w.nextRouteNumber in tables.routeNumberToPath then
      var rn := w.nextRouteNumber.value;
      var locations := tables.locationsPath(station);
      var nextLocations := tables.locationsPath(nextStation);
      if locations.Some? && locations.value != [] && nextLocations.Some? && nextLocations.value != [] then
        var kms := KmsOn(locations.value, rn);
        var nextKms := KmsOn(nextLocations.value, rn);
        if kms != [] && nextKms != [] then
          var kmStart := if kms[0] <= nextKms[0] then kms[0] else nextKms[0];
          var kmEnd := if kms[0] <= nextKms[0] then nextKms[0] else kms[0];
          var selected :- Selection(tables.routeNumberToPath[Some(rn)].tracks, kmStart, kmEnd);
          if selected == [] then Err(AssertionError) else Ok(selected)
        else
          var nextKm := if nextKms != [] then Some(nextKms[0]) else None;
          var t :- TrackFromPath(rn, None, nextKm, tables.routeNumberToPath, tables.median);
          Ok([t])
      else
        var t :- TrackFromPath(rn, None, None, tables.routeNumberToPath, tables.median);
        Ok([t])
    else Ok([InvalidTrack(w.nextRouteNumber)])
  }

  /** The tracks of the first `k` waypoint pairs, or the first error. */
  function TracksUpTo(ws: seq<CodeWaypoint>, k: nat, tables: Tables): (r: Result<seq<seq<Track>>>)
    requires k < |ws| || k == 0
  {
    if k == 0 then Ok([])
    else
      var init :- TracksUpTo(ws, k - 1, tables);
      var segment :- SegmentTracks(ws[k - 1], ws[k], tables);
      Ok(init + [segment])
  }

  function PairCount(ws: seq<CodeWaypoint>): nat
  {
    if ws == [] then 0 else |ws| - 1
  }

  /** `convert_waypoints_to_route` as a function of its inputs. */
  function ConvertSpec(ws: seq<CodeWaypoint>, tables: Tables): Result<Route>
  {
    var tracks :- TracksUpTo(ws, PairCount(ws), tables);
    Ok(Route(ws, tracks))
  }

  /** A route number that is missing, zero or unknown gives the one invalid track. */
  lemma SegmentWithoutPath(w: CodeWaypoint, next: CodeWaypoint, tables: Tables)
    requires w.nextRouteNumber.None? || w.nextRouteNumber == Some(0) || w.nextRouteNumber !in tables.routeNumberToPath
    ensures SegmentTracks(w, next, tables) == Ok([InvalidTrack(w.nextRouteNumber)])
  {
  }

  /**
   * With both stations located on the route, the tracks are those of the route's path that cover
   * the km of either station (smaller first); if none does, the assertion fails.
   */
  lemma SegmentWithKms(w: CodeWaypoint, next: CodeWaypoint, tables: Tables)
    requires w.nextRouteNumber.Some? && w.nextRouteNumber.value != 0 && w.nextRouteNumber in tables.routeNumberToPath
    requires var l := tables.locationsPath(StationFor(w.code, next, tables)); l.Some? && KmsOn(l.value, w.nextRouteNumber.value) != []
    requires var l := tables.locationsPath(StationFor(next.code, next, tables)); l.Some? && KmsOn(l.value, w.nextRouteNumber.value) != []
    ensures var rn := w.nextRouteNumber.value;
      var a := KmsOn(tables.locationsPath(StationFor(w.code, next, tables)).value, rn)[0];
      var b := KmsOn(tables.locationsPath(StationFor(next.code, next, tables)).value, rn)[0];
      var sel := Selection(tables.routeNumberToPath[Some(rn)].tracks, if a <= b then a else b, if a <= b then b else a);
      SegmentTracks(w, next, tables) == (if sel.Err? then Err(sel.error) else if sel.value == [] then Err(AssertionError) else sel)
  {
  }

  /** Every pair of consecutive waypoints gets a non-empty tuple of tracks, in order. */
  lemma TracksUpToShape(ws: seq<CodeWaypoint>, k: nat, tables: Tables)
    requires k < |ws| || k == 0
    ensures TracksUpTo(ws, k, tables).Ok? <==> forall i :: 0 <= i < k ==> SegmentTracks(ws[i], ws[i + 1], tables).Ok?
    ensures TracksUpTo(ws, k, tables).Ok? ==> |TracksUpTo(ws, k, tables).value| == k
    ensures TracksUpTo(ws, k, tables).Ok? ==>
      forall i :: 0 <= i < k ==>
        Ok(TracksUpTo(ws, k, tables).value[i]) == SegmentTracks(ws[i], ws[i + 1], tables) && TracksUpTo(ws, k, tables).value[i] != []
  {
    TracksUpToOk(ws, k, tables);
    if TracksUpTo(ws, k, tables).Ok? {
      TracksUpToElements(ws, k, tables);
      forall i | 0 <= i < k
        ensures TracksUpTo(ws, k, tables).value[i] != []
      {
        SegmentNonEmpty(ws[i], ws[i + 1], tables);
      }
    }
  }

  lemma {:induction false} TracksUpToOk(ws: seq<CodeWaypoint>, k: nat, tables: Tables)
    requires k < |ws| || k == 0
    ensures TracksUpTo(ws, k, tables).Ok? <==> forall i :: 0 <= i < k ==> SegmentTracks(ws[i], ws[i + 1], tables).Ok?
  {
    if k > 0 {
      TracksUpToOk(ws, k - 1, tables);
    }
  }

  lemma {:induction false} TracksUpToElements(ws: seq<CodeWaypoint>, k: nat, tables: Tables)
    requires k < |ws| || k == 0
    requires TracksUpTo(ws, k, tables).Ok?
    ensures |TracksUpTo(ws, k, tables).value| == k
    ensures forall i :: 0 <= i < k ==> Ok(TracksUpTo(ws, k, tables).value[i]) == SegmentTracks(ws[i], ws[i + 1], tables)
  {
    if k > 0 {
      TracksUpToElements(ws, k - 1, tables);
      var init := TracksUpTo(ws, k - 1, tables).value;
      var last := SegmentTracks(ws[k - 1], ws[k], tables);
      assert TracksUpTo(ws, k, tables).value == init + [last.value];
    }
  }

  /** The route keeps the waypoints and has one non-empty tuple of tracks per pair of them. */
  lemma ConvertShape(ws: seq<CodeWaypoint>, tables: Tables)
    ensures ConvertSpec(ws, tables).Ok? <==>
      forall i :: 0 <= i < PairCount(ws) ==> SegmentTracks(ws[i], ws[i + 1], tables).Ok?
    ensures ConvertSpec(ws, tables).Ok? ==>
      var r := ConvertSpec(ws, tables).value;
      && r.waypoints == ws && |r.tracks| == PairCount(ws)
      && forall i :: 0 <= i < |r.tracks| ==> Ok(r.tracks[i]) == SegmentTracks(ws[i], ws[i + 1], tables) && r.tracks[i] != []
  {
    TracksUpToShape(ws, PairCount(ws), tables);
  }

  /** A segment never yields an empty tuple: the fallback branches add one track, the selection is asserted. */
  lemma SegmentNonEmpty(w: CodeWaypoint, next: CodeWaypoint, tables: Tables)
    ensures SegmentTracks(w, next, tables).Ok? ==> SegmentTracks(w, next, tables).value != []
  {
  }

  /** The tracks of one waypoint pair: the body of the loop in `convert_waypoints_to_route`. */
  method ConvertSegment(w: CodeWaypoint, next: CodeWaypoint, tables: Tables) returns (r: Result<seq<Track>>)
    ensures r == SegmentTracks(w, next, tables)
  {
    var station := StationFor(w.code, next, tables);
    var nextStation := StationFor(next.code, next, tables);
    if w.nextRouteNumber.Some? && w.nextRouteNumber.value != 0 && w.nextRouteNumber in tables.routeNumberToPath {
      var rn := w.nextRouteNumber.value;
      var locations := tables.locationsPath(station);
      var nextLocations := tables.locationsPath(nextStation);
      var last: Option<Track> := None;
      if locations.Some? && locations.value != [] && nextLocations.Some? && nextLocations.value != [] {
        var pathUsed := tables.routeNumberToPath[Some(rn)];
        var kms := KmsOn(locations.value, rn);
        var nextKms := KmsOn(nextLocations.value, rn);
        if kms != [] && nextKms != [] {
          var kmStart := if kms[0] <= nextKms[0] then kms[0] else nextKms[0];
          var kmEnd := if kms[0] <= nextKms[0] then nextKms[0] else kms[0];
          r := SelectTracks(pathUsed.tracks, kmStart, kmEnd);
          if r.Ok? && r.value == [] {
            r := Err(AssertionError);
          }
        } else {
          var nextKm := if nextKms != [] then Some(nextKms[0]) else None;
          var t := TrackFromPath(rn, last, nextKm, tables.routeNumberToPath, tables.median);
          r := if t.Err? then Err(t.error) else Ok([t.value]);
        }
      } else {
        var t := TrackFromPath(rn, last, None, tables.routeNumberToPath, tables.median);
        r := if t.Err? then Err(t.error) else Ok([t.value]);
      }
    } else {
      r := Ok([InvalidTrack(w.nextRouteNumber)]);
    }
  }

  /** `convert_waypoints_to_route`: walks the pairs of consecutive waypoints and collects their tracks. */
  method ConvertWaypointsToRoute(ws: seq<CodeWaypoint>, stations: map<string, Station>, paths: seq<Path>,
                                 locationsPath: Station -> Option<seq<PathLocation>>,
                                 median: seq<Track> -> (bool, TrackKind)) returns (r: Result<Route>)
    ensures r == ConvertSpec(ws, Tables(stations, PathIndex(paths), locationsPath, median))
  {
    var tables := Tables(stations, PathIndex(paths), locationsPath, median);
    var tracksUsed: seq<seq<Track>> := [];
    var i := 0;
    while i < PairCount(ws)
      invariant 0 <= i <= PairCount(ws)
      invariant TracksUpTo(ws, i, tables) == Ok(tracksUsed)
    {
      var segment := ConvertSegment(ws[i], ws[i + 1], tables);
      if segment.Err? {
        TracksErrorPersists(ws, i + 1, tables);
        return Err(segment.error);
      }
      tracksUsed := tracksUsed + [segment.value];
      i := i + 1;
    }
    return Ok(Route(ws, tracksUsed));
  }

  /** The first failing pair decides the error of the whole conversion. */
  lemma {:induction false} TracksErrorPersists(ws: seq<CodeWaypoint>, k: nat, tables: Tables)
    requires 0 < k <= PairCount(ws)
    requires TracksUpTo(ws, k, tables).Err?
    ensures TracksUpTo(ws, PairCount(ws), tables) == TracksUpTo(ws, k, tables)
    decreases PairCount(ws) - k
  {
    if k < PairCount(ws) {
      TracksErrorPersists(ws, k + 1, tables);
    }
  }
}
