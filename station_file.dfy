/**
 * Adding stations to the game's station list (`tc_utils/stations.py`): incoming stations are
 * filtered against the codes already in the file, then each one either updates the existing
 * record of its first known code or is appended as a new record.
 */
module StationFile {
  import opened Wrappers
  import opened Json
  import opened Stations
  import opened TcFiles

  // ---------------------------------------------------------------------------------------------
  // The codes already in the file

  predicate AllHaveCode(data: seq<Dict>)
  {
    forall i :: 0 <= i < |data| ==> "ril100" in data[i]
  }

  /**
   * `frozenset([station['ril100'] for station in file.data])`: the list is built first, so a
   * record without the key is a KeyError before any unhashable value is a TypeError.
   */
  function ReadError(data: seq<Dict>): (r: Option<Error>)
    ensures r.None? ==> AllHaveCode(data)
    ensures r.None? <==> AllHaveCode(data) && forall i :: 0 <= i < |data| ==> Hashable(data[i]["ril100"])
  {
    if !AllHaveCode(data) then Some(KeyError)
    else if exists i :: 0 <= i < |data| && !Hashable(data[i]["ril100"]) then Some(TypeError)
    else None
  }

  /** The set of codes in the file. */
  function Existing(data: seq<Dict>): set<Value>
    requires AllHaveCode(data)
  {
    set i | 0 <= i < |data| :: data[i]["ril100"]
  }

  /** `{station['ril100']: station for station in file.data}`: a later record of the same code wins. */
  function CodeIndex(data: seq<Dict>): (r: map<Value, nat>)
    requires AllHaveCode(data)
    ensures forall k :: k in r ==> r[k] < |data|
  {
    if data == [] then map[]
    else CodeIndex(data[..|data| - 1])[data[|data| - 1]["ril100"] := |data| - 1]
  }

  /** The index has exactly the file's codes, each pointing at the last record with that code. */
  lemma {:induction false} CodeIndexMeaning(data: seq<Dict>, k: Value)
    requires AllHaveCode(data)
    ensures k in CodeIndex(data) <==> k in Existing(data)
    ensures k in CodeIndex(data) ==>
      var i := CodeIndex(data)[k];
      data[i]["ril100"] == k && forall j :: i < j < |data| ==> data[j]["ril100"] != k
  {
    if data != [] {
      var last := |data| - 1;
      var init := data[..last];
      assert AllHaveCode(init) by {
        forall i | 0 <= i < |init|
          ensures "ril100" in init[i]
        {
          assert init[i] == data[i];
        }
      }
      CodeIndexMeaning(init, k);
      if k in Existing(data) && data[last]["ril100"] != k {
        var i :| 0 <= i < |data| && data[i]["ril100"] == k;
        assert init[i] == data[i];
      }
      if k in Existing(init) {
        var i :| 0 <= i < |init| && init[i]["ril100"] == k;
        assert data[i] == init[i];
      }
      if k in CodeIndex(init) && data[last]["ril100"] != k {
        var i := CodeIndex(init)[k];
        assert data[i] == init[i];
        forall j | i < j < |data|
          ensures data[j]["ril100"] != k
        {
          if j < last {
            assert data[j] == init[j];
          }
        }
      }
    }
  }

  // ---------------------------------------------------------------------------------------------
  // Filtering the incoming stations

  /** Some code of the station is already in the file. */
  predicate Known(codes: seq<string>, existing: set<Value>)
  {
    exists c :: c in codes && Str(c) in existing
  }

  /**
   * The stations whose `Known` test comes out as `known`, in their order. Both filtering loops
   * remove stations from a list by value while iterating over a copy of it; every value removed
   * is removed as often as it occurs, so what remains is this subsequence.
   */
  function Filter(stations: seq<Station>, existing: set<Value>, known: bool): (r: seq<Station>)
    ensures |r| <= |stations|
  {
    if stations == [] then []
    else
      var last := stations[|stations| - 1];
      Filter(stations[..|stations| - 1], existing, known) + (if Known(last.codes, existing) == known then [last] else [])
  }

  /** The filter keeps exactly the stations that pass. */
  lemma {:induction false} FilterMeaning(stations: seq<Station>, existing: set<Value>, known: bool, s: Station)
    ensures s in Filter(stations, existing, known) <==> s in stations && Known(s.codes, existing) == known
  {
    if stations != [] {
      var init := stations[..|stations| - 1];
      FilterMeaning(init, existing, known, s);
      assert stations == init + [stations[|stations| - 1]];
    }
  }

  /** A passing station is kept as often as it occurs. */
  lemma {:induction false} FilterCounts(stations: seq<Station>, existing: set<Value>, known: bool, s: Station)
    ensures multiset(Filter(stations, existing, known))[s] == if Known(s.codes, existing) == known then multiset(stations)[s] else 0
  {
    if stations != [] {
      var init := stations[..|stations| - 1];
      var last := stations[|stations| - 1];
      FilterCounts(init, existing, known, s);
      assert stations == init + [last];
      assert multiset(stations) == multiset(init) + multiset{last};
    }
  }

  /** `list.remove(x)`: drops the first element equal to `x`; ValueError when there is none. */
  function RemoveFirst(xs: seq<Station>, x: Station): (r: Result<seq<Station>>)
    ensures r.Ok? <==> x in xs
    ensures r.Ok? ==> |r.value| == |xs| - 1
    ensures r.Err? ==> r.error == ValueError
  {
    if xs == [] then Err(ValueError)
    else if xs[0] == x then Ok(xs[1..])
    else
      var rest :- RemoveFirst(xs[1..], x);
      Ok([xs[0]] + rest)
  }

  /** The inner loop of the first filter as written: one removal for each of the station's codes in the file. */
  function RemoveForCodes(current: seq<Station>, s: Station, codes: seq<string>, existing: set<Value>): (r: Result<seq<Station>>)
    ensures r.Err? ==> r.error == ValueError
    ensures r.Ok? ==> |r.value| <= |current|
    ensures (forall i :: 0 <= i < |codes| ==> Str(codes[i]) !in existing) ==> r == Ok(current)
  {
    if codes == [] then Ok(current)
    else
      var before :- RemoveForCodes(current, s, codes[..|codes| - 1], existing);
      if Str(codes[|codes| - 1]) in existing then RemoveFirst(before, s) else Ok(before)
  }

  /** The first filter as written, after the first `k` stations of the copy. */
  function DropKnownAsWritten(stations: seq<Station>, k: nat, existing: set<Value>): (r: Result<seq<Station>>)
    requires k <= |stations|
    ensures r.Err? ==> r.error == ValueError
    ensures r.Ok? ==> |r.value| <= |stations|
  {
    if k == 0 then Ok(stations)
    else
      var before :- DropKnownAsWritten(stations, k - 1, existing);
      RemoveForCodes(before, stations[k - 1], stations[k - 1].codes, existing)
  }

  /** A station with two codes in the file is removed twice; the second `remove` raises ValueError. */
  lemma DroppingTwiceFails(s: Station, existing: set<Value>)
    requires |s.codes| == 2 && Str(s.codes[0]) in existing && Str(s.codes[1]) in existing
    ensures DropKnownAsWritten([s], 1, existing) == Err(ValueError)
  {
    assert s.codes[..1] == [s.codes[0]];
    assert [s.codes[0]][..0] == [];
    assert RemoveForCodes([s], s, s.codes[..1], existing) == Ok([]);
  }

  /** The same station is dropped by the filter that tests each station once. */
  lemma DroppingOnceKeepsNothing(s: Station, existing: set<Value>)
    requires |s.codes| == 2 && Str(s.codes[0]) in existing && Str(s.codes[1]) in existing
    ensures Filter([s], existing, false) == []
  {
    assert s.codes[0] in s.codes;
  }

  // ---------------------------------------------------------------------------------------------
  // Updating and appending

  /** `{key: value for key, value in tc_station.__dict__.items() if value is not None}`. */
  function TcStationDict(t: TcStation): (r: Dict)
    ensures "ril100" in r && r["ril100"] == Str(t.ril100)
    ensures forall k :: k in r ==> r[k] != Null
    ensures "name" in r <==> t.name.Some?
    ensures "forRandomTasks" in r <==> t.forRandomTasks.Some?
  {
    var base := map["ril100" := Str(t.ril100), "group" := Int(t.group), "x" := Int(t.x), "y" := Int(t.y)];
    var a := if t.name.Some? then base["name" := Str(t.name.value)] else base;
    var b := if t.platformLength.Some? then a["platformLength" := Int(t.platformLength.value)] else a;
    var c := if t.platforms.Some? then b["platforms" := Int(t.platforms.value)] else b;
    if t.forRandomTasks.Some? then c["forRandomTasks" := Bool(t.forRandomTasks.value)] else c
  }

  /** The first of the codes that is in the file. */
  function FirstKnown(codes: seq<string>, existing: set<Value>): (r: Option<string>)
    ensures r.Some? ==> r.value in codes && Str(r.value) in existing
    ensures r.None? <==> !Known(codes, existing)
  {
    if codes == [] then None
    else if Str(codes[0]) in existing then Some(codes[0])
    else
      var r := FirstKnown(codes[1..], existing);
      assert forall c :: c in codes && c != codes[0] ==> c in codes[1..];
      r
  }

  /** The records reached so far, and the exception that stopped the loop, if one did. */
  datatype Progress = Progress(data: seq<Dict>, error: Option<Error>)

  predicate IndexFits(index: map<Value, nat>, existing: set<Value>, n: nat)
  {
    index.Keys == existing && forall k :: k in index ==> index[k] < n
  }

  /**
   * The update-or-append loop over the first stations: the first known code's record is
   * updated with the station's dictionary, a station without known code is appended. The
   * index is the one built before the loop, so appended records are never updated.
   */
  function InsertAll(data0: seq<Dict>, index: map<Value, nat>, existing: set<Value>, stations: seq<Station>, project: Location -> (int, int)): (r: Progress)
    requires IndexFits(index, existing, |data0|)
    ensures |r.data| >= |data0|
  {
    if stations == [] then Progress(data0, None)
    else
      var before := InsertAll(data0, index, existing, stations[..|stations| - 1], project);
      if before.error.Some? then before
      else
        var s := stations[|stations| - 1];
        match FromStation(s, project)
        case Err(e) => Progress(before.data, Some(e))
        case Ok(t) =>
          var d := TcStationDict(t);
          match FirstKnown(s.codes, existing)
          case Some(c) =>
            var at := index[Str(c)];
            Progress(before.data[at := before.data[at] + d], None)
          case None => Progress(before.data + [d], None)
  }

  /** What `add_stations_to_file` leaves: the file's records, the caller's station list after the filters, and the exception raised. */
  datatype Outcome = Outcome(data: seq<Dict>, stations: seq<Station>, error: Option<Error>)

  /** The stations that reach the update-or-append loop. */
  function Selected(stations: seq<Station>, existing: set<Value>, overrideStations: bool, updateStations: bool): seq<Station>
  {
    var a := if !overrideStations && !updateStations then Filter(stations, existing, false) else stations;
    if updateStations then Filter(a, existing, true) else a
  }

  /** `add_stations_to_file`, with the first filter testing each station once. */
  function AddStations(data: seq<Dict>, stations: seq<Station>, overrideStations: bool, updateStations: bool, project: Location -> (int, int)): Outcome
  {
    match ReadError(data)
    case Some(e) => Outcome(data, stations, Some(e))
    case None =>
      var existing := Existing(data);
      var index := CodeIndex(data);
      IndexKeys(data);
      var kept := Selected(stations, existing, overrideStations, updateStations);
      var p := InsertAll(data, index, existing, kept, project);
      Outcome(p.data, kept, p.error)
  }

  lemma IndexKeys(data: seq<Dict>)
    requires AllHaveCode(data)
    ensures IndexFits(CodeIndex(data), Existing(data), |data|)
  {
    forall k
      ensures k in CodeIndex(data) <==> k in Existing(data)
    {
      CodeIndexMeaning(data, k);
    }
  }

  // ---------------------------------------------------------------------------------------------
  // What the loop promises

  /**
   * Records are never removed and only gain keys; the list grows by exactly the stations with no
   * known code; every appended record has a ril100 code and no None value.
   */
  lemma InsertAllShape(data0: seq<Dict>, index: map<Value, nat>, existing: set<Value>, stations: seq<Station>, project: Location -> (int, int))
    requires IndexFits(index, existing, |data0|)
    ensures var r := InsertAll(data0, index, existing, stations, project);
      r.error.None? ==> |r.data| == |data0| + |Filter(stations, existing, false)|
    ensures forall i :: 0 <= i < |data0| ==> data0[i].Keys <= InsertAll(data0, index, existing, stations, project).data[i].Keys
    ensures forall i :: |data0| <= i < |InsertAll(data0, index, existing, stations, project).data| ==>
      Written(InsertAll(data0, index, existing, stations, project).data[i])
  {
    InsertAllGrowth(data0, index, existing, stations, project);
    InsertAllKeeps(data0, index, existing, stations, project);
    InsertAllAppended(data0, index, existing, stations, project);
  }

  lemma {:induction false} InsertAllGrowth(data0: seq<Dict>, index: map<Value, nat>, existing: set<Value>, stations: seq<Station>, project: Location -> (int, int))
    requires IndexFits(index, existing, |data0|)
    ensures var r := InsertAll(data0, index, existing, stations, project);
      r.error.None? ==> |r.data| == |data0| + |Filter(stations, existing, false)|
  {
    if stations != [] {
      InsertAllGrowth(data0, index, existing, stations[..|stations| - 1], project);
    }
  }

  lemma {:induction false} InsertAllKeeps(data0: seq<Dict>, index: map<Value, nat>, existing: set<Value>, stations: seq<Station>, project: Location -> (int, int))
    requires IndexFits(index, existing, |data0|)
    ensures forall i :: 0 <= i < |data0| ==> data0[i].Keys <= InsertAll(data0, index, existing, stations, project).data[i].Keys
  {
    if stations != [] {
      InsertAllKeeps(data0, index, existing, stations[..|stations| - 1], project);
    }
  }

  /** A record as `TcStation.to_dict` writes it: with a ril100 code and no None value. */
  predicate Written(d: Dict)
  {
    "ril100" in d && forall k :: k in d ==> d[k] != Null
  }

  lemma {:induction false} InsertAllAppended(data0: seq<Dict>, index: map<Value, nat>, existing: set<Value>, stations: seq<Station>, project: Location -> (int, int))
    requires IndexFits(index, existing, |data0|)
    ensures forall i :: |data0| <= i < |InsertAll(data0, index, existing, stations, project).data| ==>
      Written(InsertAll(data0, index, existing, stations, project).data[i])
  {
    if stations != [] {
      InsertAllAppended(data0, index, existing, stations[..|stations| - 1], project);
    }
  }

  /** With neither override nor update, existing records stay as they were and new ones are only appended. */
  lemma {:induction false} NewStationsOnlyAppend(data0: seq<Dict>, index: map<Value, nat>, existing: set<Value>, stations: seq<Station>, project: Location -> (int, int))
    requires IndexFits(index, existing, |data0|)
    requires forall i :: 0 <= i < |stations| ==> !Known(stations[i].codes, existing)
    ensures InsertAll(data0, index, existing, stations, project).data[..|data0|] == data0
  {
    if stations != [] {
      var init := stations[..|stations| - 1];
      assert forall i :: 0 <= i < |init| ==> init[i] == stations[i];
      NewStationsOnlyAppend(data0, index, existing, init, project);
    }
  }

  /** With update, every station that reaches the loop has a known code, so nothing is appended. */
  lemma {:induction false} UpdateNeverAppends(data0: seq<Dict>, index: map<Value, nat>, existing: set<Value>, stations: seq<Station>, project: Location -> (int, int))
    requires IndexFits(index, existing, |data0|)
    requires forall i :: 0 <= i < |stations| ==> Known(stations[i].codes, existing)
    ensures |InsertAll(data0, index, existing, stations, project).data| == |data0|
  {
    if stations != [] {
      var init := stations[..|stations| - 1];
      assert forall i :: 0 <= i < |init| ==> init[i] == stations[i];
      UpdateNeverAppends(data0, index, existing, init, project);
    }
  }

  /** The filters select what their flags say. */
  lemma SelectedMeaning(stations: seq<Station>, existing: set<Value>, overrideStations: bool, updateStations: bool, s: Station)
    ensures s in Selected(stations, existing, overrideStations, updateStations) ==> s in stations
    ensures updateStations ==>
      (s in Selected(stations, existing, overrideStations, updateStations) <==> s in stations && Known(s.codes, existing))
    ensures !overrideStations && !updateStations ==>
      (s in Selected(stations, existing, overrideStations, updateStations) <==> s in stations && !Known(s.codes, existing))
    ensures overrideStations && !updateStations ==> Selected(stations, existing, overrideStations, updateStations) == stations
  {
    FilterMeaning(stations, existing, false, s);
    FilterMeaning(stations, existing, true, s);
    var a := if !overrideStations && !updateStations then Filter(stations, existing, false) else stations;
    FilterMeaning(a, existing, true, s);
  }

  // ---------------------------------------------------------------------------------------------
  // The file update

  /** `add_stations_to_file`: the caller's list after the filters comes back as `kept`, and `error` is the exception raised. */
  method AddStationsToFile(file: TcFile, stations: seq<Station>, overrideStations: bool, updateStations: bool, project: Location -> (int, int))
    returns (kept: seq<Station>, error: Option<Error>)
    modifies file
    ensures Outcome(file.data, kept, error) == AddStations(old(file.data), stations, overrideStations, updateStations, project)
  {
    var data := file.data;
    var e := ReadError(data);
    if e.Some? {
      return stations, e;
    }
    var existing := Existing(data);
    var index := CodeIndex(data);
    IndexKeys(data);
    kept := stations;
    if !overrideStations && !updateStations {
      kept := FilterLoop(kept, existing, false);
    }
    if updateStations {
      kept := FilterLoop(kept, existing, true);
    }
    error := InsertLoop(file, index, existing, kept, project);
  }

  /** The `for station in stations` loop: update the first known code's record or append. */
  method InsertLoop(file: TcFile, index: map<Value, nat>, existing: set<Value>, stations: seq<Station>, project: Location -> (int, int))
    returns (error: Option<Error>)
    requires IndexFits(index, existing, |file.data|)
    modifies file
    ensures Progress(file.data, error) == InsertAll(old(file.data), index, existing, stations, project)
  {
    ghost var data := file.data;
    var i := 0;
    while i < |stations|
      invariant 0 <= i <= |stations|
      invariant InsertAll(data, index, existing, stations[..i], project) == Progress(file.data, None)
    {
      var s := stations[i];
      var t := FromStation(s, project);
      if t.Err? {
        InsertFails(data, index, existing, stations, project, i, file.data);
        return Some(t.error);
      }
      InsertStep(data, index, existing, stations, project, i, file.data);
      var d := TcStationDict(t.value);
      var at := FirstKnownLoop(s.codes, existing);
      if at.Some? {
        var k := index[Str(at.value)];
        file.data := file.data[k := file.data[k] + d];
      } else {
        file.data := file.data + [d];
      }
      i := i + 1;
    }
    assert stations[..i] == stations;
    return None;
  }

  /** One more station updates the record of its first known code, or is appended. */
  lemma InsertStep(data0: seq<Dict>, index: map<Value, nat>, existing: set<Value>, stations: seq<Station>, project: Location -> (int, int), i: nat, data: seq<Dict>)
    requires IndexFits(index, existing, |data0|) && i < |stations|
    requires InsertAll(data0, index, existing, stations[..i], project) == Progress(data, None)
    requires FromStation(stations[i], project).Ok?
    ensures |data| >= |data0|
    ensures var d := TcStationDict(FromStation(stations[i], project).value);
      var c := FirstKnown(stations[i].codes, existing);
      InsertAll(data0, index, existing, stations[..i + 1], project) ==
        if c.Some? then Progress(data[index[Str(c.value)] := data[index[Str(c.value)]] + d], None)
        else Progress(data + [d], None)
  {
    assert stations[..i + 1][..i] == stations[..i];
  }

  /** A station that cannot be converted ends the loop with its error. */
  lemma InsertFails(data0: seq<Dict>, index: map<Value, nat>, existing: set<Value>, stations: seq<Station>, project: Location -> (int, int), i: nat, data: seq<Dict>)
    requires IndexFits(index, existing, |data0|) && i < |stations|
    requires InsertAll(data0, index, existing, stations[..i], project) == Progress(data, None)
    requires FromStation(stations[i], project).Err?
    ensures InsertAll(data0, index, existing, stations, project) == Progress(data, Some(FromStation(stations[i], project).error))
  {
    assert stations[..i + 1][..i] == stations[..i];
    InsertErrorPersists(data0, index, existing, stations, project, i + 1);
  }

  /** One of the `for station in stations.copy()` loops, with `is_existing` computed code by code. */
  method FilterLoop(stations: seq<Station>, existing: set<Value>, known: bool) returns (r: seq<Station>)
    ensures r == Filter(stations, existing, known)
  {
    r := [];
    var i := 0;
    while i < |stations|
      invariant 0 <= i <= |stations|
      invariant r == Filter(stations[..i], existing, known)
    {
      var s := stations[i];
      var isExisting := false;
      var j := 0;
      while j < |s.codes|
        invariant 0 <= j <= |s.codes|
        invariant isExisting <==> Known(s.codes[..j], existing)
      {
        if Str(s.codes[j]) in existing {
          isExisting := true;
        }
        assert s.codes[..j + 1] == s.codes[..j] + [s.codes[j]];
        j := j + 1;
      }
      assert s.codes[..j] == s.codes;
      assert stations[..i + 1][..i] == stations[..i];
      if isExisting == known {
        r := r + [s];
      }
      i := i + 1;
    }
    assert stations[..i] == stations;
  }

  /** The inner `for code in station.codes ... break` loop. */
  method FirstKnownLoop(codes: seq<string>, existing: set<Value>) returns (r: Option<string>)
    ensures r == FirstKnown(codes, existing)
  {
    var j := 0;
    while j < |codes|
      invariant 0 <= j <= |codes|
      invariant FirstKnown(codes, existing) == FirstKnown(codes[j..], existing)
    {
      if Str(codes[j]) in existing {
        return Some(codes[j]);
      }
      assert codes[j..][1..] == codes[j + 1..];
      j := j + 1;
    }
    return None;
  }

  lemma {:induction false} InsertErrorPersists(data0: seq<Dict>, index: map<Value, nat>, existing: set<Value>, stations: seq<Station>, project: Location -> (int, int), j: nat)
    requires IndexFits(index, existing, |data0|)
    requires j <= |stations| && InsertAll(data0, index, existing, stations[..j], project).error.Some?
    ensures InsertAll(data0, index, existing, stations, project) == InsertAll(data0, index, existing, stations[..j], project)
    decreases |stations| - j
  {
    if j < |stations| {
      assert stations[..j + 1][..j] == stations[..j];
      InsertErrorPersists(data0, index, existing, stations, project, j + 1);
    } else {
      assert stations[..j] == stations;
    }
  }
}
