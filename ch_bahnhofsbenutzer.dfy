/**
 * Swiss passenger counts (`importers/ch_bahnhofsbenutzer.py`): the daily passenger figure as a
 * station category, and the categories set on the known stations of the same name.
 */
module ChBahnhofsbenutzer {
  import opened Wrappers
  import opened Stations

  /**
   * `passengers_to_station_category`: more than 60000 passengers → 1, strictly between 40000 and
   * 60000 → 2, strictly between 10000 and 40000 → 3, anything else → 4.
   */
  function PassengersToStationCategory(passengers: int): (r: int)
    ensures 1 <= r <= 4
    ensures r == 1 <==> passengers > 60000
    ensures r == 2 <==> 40000 < passengers < 60000
    ensures r == 3 <==> 10000 < passengers < 40000
    ensures r == 4 <==> passengers <= 10000 || passengers == 40000 || passengers == 60000
  {
    if passengers > 60000 then 1
    else if 40000 < passengers < 60000 then 2
    else if 10000 < passengers < 40000 then 3
    else 4
  }

  /** The three band limits themselves fall through to category 4, and the category never rises with fewer passengers. */
  lemma CategoryBoundaries(a: int, b: int)
    requires a <= b && a != 40000 && a != 60000 && b != 40000 && b != 60000 && a > 10000
    ensures PassengersToStationCategory(60000) == 4
    ensures PassengersToStationCategory(40000) == 4
    ensures PassengersToStationCategory(10000) == 4
    ensures PassengersToStationCategory(b) <= PassengersToStationCategory(a)
  {
  }

  /** `{station.name: station}`: a later station of the same name wins. */
  function NameIndex(stations: seq<Station>): (r: map<Option<string>, nat>)
    ensures forall k :: k in r ==> r[k] < |stations|
  {
    if stations == [] then map[]
    else NameIndex(stations[..|stations| - 1])[stations[|stations| - 1].name := |stations| - 1]
  }

  /** Some station has this name. */
  predicate IsNameOf(stations: seq<Station>, name: Option<string>)
  {
    exists i :: 0 <= i < |stations| && stations[i].name == name
  }

  /** The index holds exactly the names of the stations, each pointing at a station of that name. */
  lemma {:induction false} NameIndexMeaning(stations: seq<Station>, name: Option<string>)
    ensures name in NameIndex(stations) <==> IsNameOf(stations, name)
    ensures name in NameIndex(stations) ==> stations[NameIndex(stations)[name]].name == name
  {
    if stations != [] {
      var last := |stations| - 1;
      var init := stations[..last];
      NameIndexMeaning(init, name);
      if IsNameOf(init, name) {
        var i :| 0 <= i < |init| && init[i].name == name;
        assert stations[i] == init[i];
      }
      if IsNameOf(stations, name) && stations[last].name != name {
        var i :| 0 <= i < |stations| && stations[i].name == name;
        assert init[i] == stations[i];
      }
      if name in NameIndex(init) && stations[last].name != name {
        assert stations[NameIndex(init)[name]] == init[NameIndex(init)[name]];
      }
    }
  }

  /** Each newcomer in turn sets the category of the station its name indexes; an unknown name is a KeyError. */
  function SetCategories(stations: seq<Station>, index: map<Option<string>, nat>, news: seq<Station>): (r: Result<seq<Station>>)
    requires forall k :: k in index ==> index[k] < |stations|
    ensures r.Ok? ==> |r.value| == |stations|
    ensures r.Err? ==> r.error == KeyError
    decreases |news|
  {
    if news == [] then Ok(stations)
    else
      var before :- SetCategories(stations, index, news[..|news| - 1]);
      var n := news[|news| - 1];
      if n.name !in index then Err(KeyError)
      else Ok(before[index[n.name] := before[index[n.name]].(stationCategory := n.stationCategory)])
  }

  /** Every newcomer's name is indexed. */
  predicate AllNamed(index: map<Option<string>, nat>, news: seq<Station>)
  {
    forall j :: 0 <= j < |news| ==> news[j].name in index
  }

  /** The update fails exactly on an unknown name, and it changes nothing but categories. */
  lemma {:induction false} SetCategoriesMeaning(stations: seq<Station>, index: map<Option<string>, nat>, news: seq<Station>)
    requires forall k :: k in index ==> index[k] < |stations|
    ensures SetCategories(stations, index, news).Ok? <==> AllNamed(index, news)
    ensures SetCategories(stations, index, news).Ok? ==>
      forall i :: 0 <= i < |stations| ==>
        SetCategories(stations, index, news).value[i]
          == stations[i].(stationCategory := SetCategories(stations, index, news).value[i].stationCategory)
    decreases |news|
  {
    if news != [] {
      var init := news[..|news| - 1];
      SetCategoriesMeaning(stations, index, init);
      if AllNamed(index, news) {
        assert AllNamed(index, init) by {
          forall j | 0 <= j < |init|
            ensures init[j].name in index
          {
            assert init[j] == news[j];
          }
        }
      }
      if SetCategories(stations, index, news).Ok? {
        forall j | 0 <= j < |news|
          ensures news[j].name in index
        {
          if j < |init| {
            assert news[j] == init[j];
          }
        }
      }
    }
  }

  /** The station a name indexes ends with the category of the last newcomer of that name. */
  lemma {:induction false} LastNewcomerWins(stations: seq<Station>, news: seq<Station>, j: nat)
    requires SetCategories(stations, NameIndex(stations), news).Ok?
    requires j < |news| && forall k :: j < k < |news| ==> news[k].name != news[j].name
    ensures news[j].name in NameIndex(stations)
    ensures SetCategories(stations, NameIndex(stations), news).value[NameIndex(stations)[news[j].name]].stationCategory
      == news[j].stationCategory
    decreases |news|
  {
    var index := NameIndex(stations);
    var init := news[..|news| - 1];
    var n := news[|news| - 1];
    if j < |news| - 1 {
      assert init[j] == news[j];
      LastNewcomerWins(stations, init, j);
      NameIndexMeaning(stations, n.name);
      NameIndexMeaning(stations, news[j].name);
    }
  }

  lemma {:induction false} SetCategoriesErrorPersists(stations: seq<Station>, index: map<Option<string>, nat>, news: seq<Station>, j: nat)
    requires forall k :: k in index ==> index[k] < |stations|
    requires j <= |news| && SetCategories(stations, index, news[..j]).Err?
    ensures SetCategories(stations, index, news) == SetCategories(stations, index, news[..j])
    decreases |news| - j
  {
    if j < |news| {
      assert news[..j + 1][..j] == news[..j];
      SetCategoriesErrorPersists(stations, index, news, j + 1);
    } else {
      assert news[..j] == news;
    }
  }

  /** `add_passengers_to_stations_ch`: the stations after the categories are set, or the KeyError of an unknown name. */
  method AddPassengersToStations(stations: seq<Station>, newData: seq<Station>) returns (r: Result<seq<Station>>)
    ensures r == SetCategories(stations, NameIndex(stations), newData)
  {
    var index := NameIndex(stations);
    var current := stations;
    var j := 0;
    while j < |newData|
      invariant 0 <= j <= |newData|
      invariant SetCategories(stations, index, newData[..j]) == Ok(current)
    {
      var n := newData[j];
      assert newData[..j + 1][..j] == newData[..j];
      if n.name !in index {
        SetCategoriesErrorPersists(stations, index, newData, j + 1);
        return Err(KeyError);
      }
      var at := index[n.name];
      current := current[at := current[at].(stationCategory := n.stationCategory)];
      j := j + 1;
    }
    assert newData[..j] == newData;
    return Ok(current);
  }
}
