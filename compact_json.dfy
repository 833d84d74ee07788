/**
 * Compacting the game's station and path lists (`compact_json.py`): fields only the editors
 * need are deleted, and text fields that are only shown are emptied.
 */
module CompactJson {
  import opened Json

  /** One entry after `clean_json`'s two inner loops. */
  function Cleaned(entry: Dict, toRemove: seq<string>, toClear: seq<string>): (r: Dict)
    ensures r.Keys == entry.Keys - set f | f in toRemove
    ensures forall k :: k in r && k !in toClear ==> r[k] == entry[k]
    ensures forall k :: k in r && k in toClear && !entry[k].Str? ==> r[k] == entry[k]
    ensures forall k :: k in r && k in toClear && entry[k].Str? ==> r[k] == Str("")
  {
    map k | k in entry && k !in toRemove :: if k in toClear && entry[k].Str? then Str("") else entry[k]
  }

  /** Cleaning an entry a second time changes nothing. */
  lemma CleanedIdempotent(entry: Dict, toRemove: seq<string>, toClear: seq<string>)
    ensures Cleaned(Cleaned(entry, toRemove, toClear), toRemove, toClear) == Cleaned(entry, toRemove, toClear)
  {
    var once := Cleaned(entry, toRemove, toClear);
    var twice := Cleaned(once, toRemove, toClear);
    assert twice.Keys == once.Keys;
    forall k | k in once
      ensures twice[k] == once[k]
    {
    }
  }

  /** The two inner loops of `clean_json` on one entry: delete the present fields, then empty the string fields. */
  method CleanEntry(entry: Dict, toRemove: seq<string>, toClear: seq<string>) returns (r: Dict)
    ensures r == Cleaned(entry, toRemove, toClear)
  {
    r := entry;
    var i := 0;
    while i < |toRemove|
      invariant 0 <= i <= |toRemove|
      invariant r == map k | k in entry && k !in toRemove[..i] :: entry[k]
    {
      if toRemove[i] in r {
        r := map k | k in r && k != toRemove[i] :: r[k];
      }
      assert toRemove[..i + 1] == toRemove[..i] + [toRemove[i]];
      i := i + 1;
    }
    assert toRemove[..i] == toRemove;
    ghost var removed := r;
    var j := 0;
    while j < |toClear|
      invariant 0 <= j <= |toClear|
      invariant r.Keys == removed.Keys
      invariant forall k :: k in r ==> r[k] == if k in toClear[..j] && removed[k].Str? then Str("") else removed[k]
    {
      if toClear[j] in r && r[toClear[j]].Str? {
        r := r[toClear[j] := Str("")];
      }
      assert toClear[..j + 1] == toClear[..j] + [toClear[j]];
      j := j + 1;
    }
    assert toClear[..j] == toClear;
  }

  /** `clean_json`: every entry once, in input order, each cleaned. */
  method CleanJson(data: seq<Dict>, toRemove: seq<string>, toClear: seq<string>) returns (out: seq<Dict>)
    ensures |out| == |data|
    ensures forall i :: 0 <= i < |data| ==> out[i] == Cleaned(data[i], toRemove, toClear)
  {
    out := [];
    var i := 0;
    while i < |data|
      invariant 0 <= i <= |data|
      invariant |out| == i
      invariant forall j :: 0 <= j < i ==> out[j] == Cleaned(data[j], toRemove, toClear)
    {
      var e := CleanEntry(data[i], toRemove, toClear);
      out := out + [e];
      i := i + 1;
    }
  }

  const StationFieldsToRemove: seq<string> := ["platformLength", "platforms", "network", "forRandomTasks", "inDefaultRectangle"]

  const StationFieldsToClear: seq<string> := ["name"]

  const PathFieldsToRemove: seq<string> := ["name", "group"]

  /** `clean_stations_data`. */
  method CleanStationsData(data: seq<Dict>) returns (out: seq<Dict>)
    ensures |out| == |data|
    ensures forall i :: 0 <= i < |data| ==> out[i] == Cleaned(data[i], StationFieldsToRemove, StationFieldsToClear)
  {
    out := CleanJson(data, StationFieldsToRemove, StationFieldsToClear);
  }

  /** `clean_paths_data`: no field is cleared. */
  method CleanPathsData(data: seq<Dict>) returns (out: seq<Dict>)
    ensures |out| == |data|
    ensures forall i :: 0 <= i < |data| ==> out[i] == Cleaned(data[i], PathFieldsToRemove, [])
  {
    out := CleanJson(data, PathFieldsToRemove, []);
  }

  /** A compacted station keeps no routing-irrelevant field, and its name, if a string, is empty. */
  lemma StationCompacted(entry: Dict)
    ensures var r := Cleaned(entry, StationFieldsToRemove, StationFieldsToClear);
      "platformLength" !in r && "platforms" !in r && "network" !in r && "forRandomTasks" !in r
      && "inDefaultRectangle" !in r
      && ("name" in entry && entry["name"].Str? ==> r["name"] == Str(""))
      && ("ril100" in entry ==> r["ril100"] == entry["ril100"])
  {
    assert "name" !in StationFieldsToRemove && "name" in StationFieldsToClear;
    assert "ril100" !in StationFieldsToRemove && "ril100" !in StationFieldsToClear;
  }

  /** A compacted path has neither name nor group, and its other fields are as they were. */
  lemma PathCompacted(entry: Dict, k: string)
    ensures var r := Cleaned(entry, PathFieldsToRemove, []);
      "name" !in r && "group" !in r && (k in entry && k != "name" && k != "group" ==> k in r && r[k] == entry[k])
  {
  }
}
