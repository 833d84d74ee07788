/**
 * The DB station list importer (`importers/db_bahnhoefe.py`): a row of the station table
 * becomes a station record, and `add_hp_information_to_stations` fills the number, category
 * and name of already known stations, found through their codes.
 */
module DbBahnhoefe {
  import opened Wrappers
  import opened Text
  import opened Stations

  // ---------------------------------------------------------------------------------------------
  // Reading a row

  /**
   * A row read with the code taken from column `codeColumn`: name from column 4, int(column 3)
   * as number, int(column 6) as category, the code appended to an empty code list.
   */
  function RowWithCode(entry: seq<string>, codeColumn: nat): (r: Result<Station>)
    requires codeColumn <= 6
  {
    if |entry| < 5 then Err(IndexError)
    else
      var number :- ParseInt(entry[3]);
      if |entry| < 7 then Err(IndexError)
      else
        var category :- ParseInt(entry[6]);
        Ok(Station(Some(entry[4]), Appended([], entry[codeColumn]), Some(number), None, None, None, None, Some(category)))
  }

  /** `deserialize` as written: it appends column 6, the price category, as the station's code. */
  function DeserializeAsWritten(entry: seq<string>): (r: Result<Station>)
    ensures r.Ok? ==> |entry| >= 7 && entry[6] in r.value.codes
  {
    var r := RowWithCode(entry, 6);
    if r.Ok? then AppendedExtends([], entry[6]); r else r
  }

  /** `deserialize` reading the code from column 5, where the station table keeps the RIL100 code. */
  function Deserialize(entry: seq<string>): (r: Result<Station>)
    ensures r.Ok? ==> |entry| >= 7 && entry[5] in r.value.codes && r.value.codes[0] == entry[5]
  {
    var r := RowWithCode(entry, 5);
    if r.Ok? then AppendedExtends([], entry[5]); r else r
  }

  /** The errors in the order the columns are read, and every field of the record. */
  lemma DeserializeMeaning(entry: seq<string>)
    ensures Deserialize(entry) == Err(IndexError) <==> |entry| < 5 || (ParseInt(entry[3]).Ok? && |entry| < 7)
    ensures Deserialize(entry) == Err(ValueError) <==>
      |entry| >= 5 && (ParseInt(entry[3]).Err? || (|entry| >= 7 && ParseInt(entry[6]).Err?))
    ensures Deserialize(entry).Ok? ==>
      var s := Deserialize(entry).value;
      s.name == Some(entry[4]) && s.number == Some(ParseInt(entry[3]).value)
      && s.stationCategory == Some(ParseInt(entry[6]).value) && s.codes == Appended([], entry[5])
      && s.location.None? && s.locationPath.None? && s.kind.None? && s.platforms.None?
  {
    if |entry| >= 5 {
      var n := ParseInt(entry[3]);
      if n.Err? {
        assert n.error == ValueError;
      } else if |entry| >= 7 {
        var c := ParseInt(entry[6]);
        if c.Err? {
          assert c.error == ValueError;
        }
      }
    }
  }

  // ---------------------------------------------------------------------------------------------
  // Filling known stations

  /** `{code: index}` over every code of every station, in order: a later station wins a code. */
  function CodeIndex(stations: seq<Station>): (r: map<string, nat>)
    ensures forall c :: c in r ==> r[c] < |stations|
  {
    if stations == [] then map[]
    else
      var last := |stations| - 1;
      CodeIndex(stations[..last]) + map c | c in stations[last].codes :: last
  }

  /** Some station carries `code`. */
  predicate IsCodeOf(stations: seq<Station>, code: string)
  {
    exists i :: 0 <= i < |stations| && code in stations[i].codes
  }

  /** The index holds exactly the codes of the stations, each pointing at a station that has it. */
  lemma {:induction false} CodeIndexMeaning(stations: seq<Station>, code: string)
    ensures code in CodeIndex(stations) <==> IsCodeOf(stations, code)
    ensures code in CodeIndex(stations) ==> code in stations[CodeIndex(stations)[code]].codes
  {
    if stations != [] {
      var last := |stations| - 1;
      var init := stations[..last];
      CodeIndexMeaning(init, code);
      if IsCodeOf(init, code) {
        var i :| 0 <= i < |init| && code in init[i].codes;
        assert stations[i] == init[i];
      }
      if IsCodeOf(stations, code) && code !in stations[last].codes {
        var i :| 0 <= i < |stations| && code in stations[i].codes;
        assert init[i] == stations[i];
      }
      if code in CodeIndex(init) && code !in stations[last].codes {
        assert stations[CodeIndex(init)[code]] == init[CodeIndex(init)[code]];
      }
    }
  }

  /** Number, category and name of `s`, each taken from the newcomer only where `s` has none. */
  function Fill(s: Station, n: Station): (r: Station)
  {
    s.(number := if s.number.None? then n.number else s.number,
       stationCategory := if s.stationCategory.None? then n.stationCategory else s.stationCategory,
       name := if s.name.None? then n.name else s.name)
  }

  /** `a` is `b` with possibly its number, category or name filled in where `b` had none. */
  predicate FillsOnlyNone(a: Station, b: Station)
  {
    a.codes == b.codes && a.location == b.location && a.locationPath == b.locationPath
    && a.kind == b.kind && a.platforms == b.platforms
    && (b.number.Some? ==> a.number == b.number)
    && (b.stationCategory.Some? ==> a.stationCategory == b.stationCategory)
    && (b.name.Some? ==> a.name == b.name)
  }

  /** Filling keeps what is there and takes the newcomer's value exactly where nothing was. */
  lemma FillMeaning(s: Station, n: Station)
    ensures FillsOnlyNone(Fill(s, n), s)
    ensures s.number.None? ==> Fill(s, n).number == n.number
    ensures s.stationCategory.None? ==> Fill(s, n).stationCategory == n.stationCategory
    ensures s.name.None? ==> Fill(s, n).name == n.name
  {
  }

  /** The inner loop: for each of `codes` in order, the indexed station filled from `n`. */
  function FillCodes(stations: seq<Station>, index: map<string, nat>, n: Station, codes: seq<string>): (r: Result<seq<Station>>)
    requires forall c :: c in index ==> index[c] < |stations|
    ensures r.Ok? ==> |r.value| == |stations|
    ensures r.Err? ==> r.error == KeyError
    decreases |codes|
  {
    if codes == [] then Ok(stations)
    else
      var before :- FillCodes(stations, index, n, codes[..|codes| - 1]);
      var c := codes[|codes| - 1];
      if c !in index then Err(KeyError)
      else Ok(before[index[c] := Fill(before[index[c]], n)])
  }

  /** The outer loop: each newcomer in turn, through all of its codes. */
  function FillAll(stations: seq<Station>, index: map<string, nat>, news: seq<Station>): (r: Result<seq<Station>>)
    requires forall c :: c in index ==> index[c] < |stations|
    ensures r.Ok? ==> |r.value| == |stations|
    ensures r.Err? ==> r.error == KeyError
    decreases |news|
  {
    if news == [] then Ok(stations)
    else
      var before :- FillAll(stations, index, news[..|news| - 1]);
      FillCodes(before, index, news[|news| - 1], news[|news| - 1].codes)
  }

  /** Every code of every newcomer is indexed. */
  predicate AllKnown(index: map<string, nat>, news: seq<Station>)
  {
    forall j, c :: 0 <= j < |news| && c in news[j].codes ==> c in index
  }

  /** The newcomer's codes fail exactly when one of them is not indexed; each station only gets filled. */
  lemma {:induction false} FillCodesMeaning(stations: seq<Station>, index: map<string, nat>, n: Station, codes: seq<string>)
    requires forall c :: c in index ==> index[c] < |stations|
    ensures FillCodes(stations, index, n, codes).Ok? <==> forall c :: c in codes ==> c in index
    ensures FillCodes(stations, index, n, codes).Ok? ==>
      forall i :: 0 <= i < |stations| ==> FillsOnlyNone(FillCodes(stations, index, n, codes).value[i], stations[i])
    decreases |codes|
  {
    if codes != [] {
      var init := codes[..|codes| - 1];
      var c := codes[|codes| - 1];
      FillCodesMeaning(stations, index, n, init);
      assert forall d :: d in codes <==> d in init || d == c;
      var before := FillCodes(stations, index, n, init);
      if before.Ok? && c in index {
        var r := before.value[index[c] := Fill(before.value[index[c]], n)];
        forall i | 0 <= i < |stations|
          ensures FillsOnlyNone(r[i], stations[i])
        {
          if i == index[c] {
            FillMeaning(before.value[i], n);
          }
        }
      }
    }
  }

  /** The whole update fails exactly when some newcomer has an unknown code; otherwise it only fills. */
  lemma {:induction false} FillAllMeaning(stations: seq<Station>, index: map<string, nat>, news: seq<Station>)
    requires forall c :: c in index ==> index[c] < |stations|
    ensures FillAll(stations, index, news).Ok? <==> AllKnown(index, news)
    ensures FillAll(stations, index, news).Ok? ==>
      forall i :: 0 <= i < |stations| ==> FillsOnlyNone(FillAll(stations, index, news).value[i], stations[i])
    decreases |news|
  {
    if news != [] {
      var init := news[..|news| - 1];
      var n := news[|news| - 1];
      FillAllMeaning(stations, index, init);
      var before := FillAll(stations, index, init);
      if before.Ok? {
        FillCodesMeaning(before.value, index, n, n.codes);
        if FillAll(stations, index, news).Ok? {
          forall i | 0 <= i < |stations|
            ensures FillsOnlyNone(FillAll(stations, index, news).value[i], stations[i])
          {
            FillsOnlyNoneTransitive(FillAll(stations, index, news).value[i], before.value[i], stations[i]);
          }
        }
      }
      if AllKnown(index, news) {
        assert AllKnown(index, init) by {
          forall j, c | 0 <= j < |init| && c in init[j].codes
            ensures c in index
          {
            assert init[j] == news[j];
          }
        }
      }
      if FillAll(stations, index, news).Ok? {
        forall j, c | 0 <= j < |news| && c in news[j].codes
          ensures c in index
        {
          if j < |init| {
            assert news[j] == init[j];
          }
        }
      }
    }
  }

  lemma FillsOnlyNoneTransitive(a: Station, b: Station, c: Station)
    requires FillsOnlyNone(a, b) && FillsOnlyNone(b, c)
    ensures FillsOnlyNone(a, c)
  {
  }

  /** The codes of one newcomer, filling the station each code indexes. */
  method FillStation(stations: seq<Station>, index: map<string, nat>, n: Station) returns (r: Result<seq<Station>>)
    requires forall c :: c in index ==> index[c] < |stations|
    ensures r == FillCodes(stations, index, n, n.codes)
  {
    var current := stations;
    var k := 0;
    while k < |n.codes|
      invariant 0 <= k <= |n.codes|
      invariant FillCodes(stations, index, n, n.codes[..k]) == Ok(current)
    {
      var code := n.codes[k];
      assert n.codes[..k + 1][..k] == n.codes[..k];
      if code !in index {
        FillCodesErrorPersists(stations, index, n, n.codes, k + 1);
        return Err(KeyError);
      }
      var at := index[code];
      current := current[at := Fill(current[at], n)];
      k := k + 1;
    }
    assert n.codes[..k] == n.codes;
    return Ok(current);
  }

  lemma {:induction false} FillCodesErrorPersists(stations: seq<Station>, index: map<string, nat>, n: Station, codes: seq<string>, k: nat)
    requires forall c :: c in index ==> index[c] < |stations|
    requires k <= |codes| && FillCodes(stations, index, n, codes[..k]).Err?
    ensures FillCodes(stations, index, n, codes) == FillCodes(stations, index, n, codes[..k])
    decreases |codes| - k
  {
    if k < |codes| {
      assert codes[..k + 1][..k] == codes[..k];
      FillCodesErrorPersists(stations, index, n, codes, k + 1);
    } else {
      assert codes[..k] == codes;
    }
  }

  lemma {:induction false} FillAllErrorPersists(stations: seq<Station>, index: map<string, nat>, news: seq<Station>, j: nat)
    requires forall c :: c in index ==> index[c] < |stations|
    requires j <= |news| && FillAll(stations, index, news[..j]).Err?
    ensures FillAll(stations, index, news) == FillAll(stations, index, news[..j])
    decreases |news| - j
  {
    if j < |news| {
      assert news[..j + 1][..j] == news[..j];
      FillAllErrorPersists(stations, index, news, j + 1);
    } else {
      assert news[..j] == news;
    }
  }

  /**
   * `add_hp_information_to_stations`: the stations after the update, or the KeyError an unknown
   * code raises.
   */
  method AddHpInformation(stations: seq<Station>, newData: seq<Station>) returns (r: Result<seq<Station>>)
    ensures r == FillAll(stations, CodeIndex(stations), newData)
  {
    var index := CodeIndex(stations);
    var current := stations;
    var j := 0;
    while j < |newData|
      invariant 0 <= j <= |newData|
      invariant FillAll(stations, index, newData[..j]) == Ok(current)
    {
      assert newData[..j + 1][..j] == newData[..j];
      var next := FillStation(current, index, newData[j]);
      if next.Err? {
        FillAllErrorPersists(stations, index, newData, j + 1);
        return next;
      }
      current := next.value;
      j := j + 1;
    }
    assert newData[..j] == newData;
    return Ok(current);
  }

  /**
   * With the code read from column 6, a row whose category text is no station's code makes the
   * update raise KeyError.
   */
  lemma AsWrittenRowIsUnknown(stations: seq<Station>, entry: seq<string>)
    requires DeserializeAsWritten(entry).Ok? && !IsCodeOf(stations, entry[6])
    ensures FillAll(stations, CodeIndex(stations), [DeserializeAsWritten(entry).value]) == Err(KeyError)
  {
    var index := CodeIndex(stations);
    CodeIndexMeaning(stations, entry[6]);
    FillAllMeaning(stations, index, [DeserializeAsWritten(entry).value]);
  }

  /** `s` has a value wherever the newcomer `n` has one. */
  predicate HasAllOf(s: Station, n: Station)
  {
    (n.number.Some? ==> s.number.Some?) && (n.stationCategory.Some? ==> s.stationCategory.Some?)
    && (n.name.Some? ==> s.name.Some?)
  }

  /** After the newcomer's codes are processed, every station one of them indexes has its values. */
  lemma {:induction false} FillCodesReaches(stations: seq<Station>, index: map<string, nat>, n: Station, codes: seq<string>, c: string)
    requires forall c :: c in index ==> index[c] < |stations|
    requires FillCodes(stations, index, n, codes).Ok? && c in codes
    ensures c in index && HasAllOf(FillCodes(stations, index, n, codes).value[index[c]], n)
    decreases |codes|
  {
    var init := codes[..|codes| - 1];
    var last := codes[|codes| - 1];
    var before := FillCodes(stations, index, n, init).value;
    var r := FillCodes(stations, index, n, codes).value;
    assert r == before[index[last] := Fill(before[index[last]], n)];
    if c != last {
      assert c in init;
      FillCodesReaches(stations, index, n, init, c);
      if index[c] == index[last] {
        FillMeaning(before[index[c]], n);
      }
    }
  }

  /**
   * Read from column 5, the row of a station whose codes are all known fills in a number, a
   * category and a name for the station its RIL100 code indexes.
   */
  lemma RowFillsItsStation(stations: seq<Station>, entry: seq<string>)
    requires Deserialize(entry).Ok? && AllKnown(CodeIndex(stations), [Deserialize(entry).value])
    ensures var r := FillAll(stations, CodeIndex(stations), [Deserialize(entry).value]);
      r.Ok? && entry[5] in CodeIndex(stations)
      && var s := r.value[CodeIndex(stations)[entry[5]]];
      s.number.Some? && s.stationCategory.Some? && s.name.Some?
  {
    var index := CodeIndex(stations);
    var n := Deserialize(entry).value;
    FillAllMeaning(stations, index, [n]);
    assert [n][..0] == [];
    assert FillAll(stations, index, [n]) == FillCodes(stations, index, n, n.codes);
    FillCodesReaches(stations, index, n, n.codes, entry[5]);
  }
}
