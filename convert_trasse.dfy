/**
 * The older Trassenfinder converter: station categories become game groups, RIL100 codes lose
 * their space-separated extensions, the waypoints of a route are accumulated into one record per
 * stop, the properties all segments share are hoisted into the path record, and platform rows are
 * counted per station number.
 */
module ConvertTrasse {
  import opened Wrappers
  import opened Text
  import opened Json
  import Stations

  // ---------------------------------------------------------------------------------------------
  // Station categories and RIL100 codes

  /**
   * `group_from_category`: the game group of a German station category ("Preisklasse"). The
   * function falls off its end, returning None, for categories of 7 and above.
   */
  function GroupFromCategory(category: int): (r: Option<int>)
    ensures r == Some(3) <==> category < 1
    ensures r == Some(0) <==> 1 <= category <= 2
    ensures r == Some(1) <==> category == 3
    ensures r == Some(5) <==> 4 <= category <= 6
    ensures r.None? <==> category >= 7
  {
    if category < 1 then Some(3)
    else if 0 < category <= 2 then Some(0)
    else if category == 3 then Some(1)
    else if 3 < category < 7 then Some(5)
    else None
  }

  /**
   * Against `Station.group` of the newer station model, this table agrees on categories 1 to 3 and
   * differs on 4 to 6 (5 here, 2 there) and on 7 (None here, 5 there).
   */
  lemma GroupFromCategoryAgainstStationGroup(category: int)
    requires 1 <= category <= 7
    ensures var g := Stations.Group(Stations.EmptyStation.(stationCategory := Some(category)));
      && (category <= 3 ==> GroupFromCategory(category) == Some(g))
      && (4 <= category <= 6 ==> GroupFromCategory(category) == Some(5) && g == 2)
      && (category == 7 ==> GroupFromCategory(category).None? && g == 5)
  {
  }

  /**
   * A character matched by the regular expression class `\w`, on the ASCII and Latin-1 ranges:
   * `_` and the characters for which `str.isalnum` holds, the numeric ² ³ ¹ ¼ ½ ¾ included.
   */
  predicate IsWordChar(c: char)
  {
    ('a' <= c <= 'z') || ('A' <= c <= 'Z') || ('0' <= c <= '9') || c == '_'
    || c == 'ª' || c == 'µ' || c == 'º'
    || c == '²' || c == '³' || c == '¹' || c == '¼' || c == '½' || c == '¾'
    || ('À' <= c <= 'ÿ' && c != '×' && c != '÷')
  }

  predicate AllWordChars(s: string)
  {
    forall i :: 0 <= i < |s| ==> IsWordChar(s[i])
  }

  /** The longest prefix of word characters. */
  function LeadingWord(s: string): (r: string)
    ensures |r| <= |s| && r == s[..|r|] && AllWordChars(r)
    ensures |r| < |s| ==> !IsWordChar(s[|r|])
    decreases |s|
  {
    if s != [] && IsWordChar(s[0]) then [s[0]] + LeadingWord(s[1..]) else []
  }

  /**
   * `remove_ril_extensions`: group 1 of `(\w+)( \w+)?` matched at the start, which is the leading
   * run of word characters; a code that does not start with one has no match, and reading its
   * group raises AttributeError.
   */
  function RemoveRilExtensions(ril100: string): (r: Result<string>)
    ensures r.Err? <==> ril100 == [] || !IsWordChar(ril100[0])
    ensures r.Err? ==> r.error == AttributeError
    ensures r.Ok? ==> r.value != [] && r.value == LeadingWord(ril100)
  {
    if ril100 != [] && IsWordChar(ril100[0]) then Ok(LeadingWord(ril100)) else Err(AttributeError)
  }

  lemma {:induction false} LeadingWordOf(word: string, rest: string)
    requires AllWordChars(word)
    requires rest == [] || !IsWordChar(rest[0])
    ensures LeadingWord(word + rest) == word
    decreases |word|
  {
    if word != [] {
      assert (word + rest)[1..] == word[1..] + rest;
      LeadingWordOf(word[1..], rest);
    }
  }

  /** 'HO U' becomes 'HO': an extension after a space goes, and a bare code is kept. */
  lemma RemoveExtension(code: string, extension: string)
    requires code != [] && AllWordChars(code)
    ensures RemoveRilExtensions(code + " " + extension) == Ok(code)
    ensures RemoveRilExtensions(code) == Ok(code)
  {
    LeadingWordOf(code, " " + extension);
    assert code + " " + extension == code + (" " + extension);
    LeadingWordOf(code, []);
    assert code + [] == code;
  }

  /** Removing extensions twice is removing them once. */
  lemma RemoveRilExtensionsIdempotent(ril100: string)
    requires RemoveRilExtensions(ril100).Ok?
    ensures RemoveRilExtensions(RemoveRilExtensions(ril100).value) == RemoveRilExtensions(ril100)
  {
    RemoveExtension(RemoveRilExtensions(ril100).value, []);
  }

  /**
   * `get_category_data`: the category of the code, else of its extension-less form, else -1. Only
   * KeyError is caught, so a code without a leading word character raises AttributeError.
   */
  function GetCategoryData(categories: map<string, int>, ril100: string): (r: Result<int>)
  {
    if ril100 in categories then Ok(categories[ril100])
    else
      var short :- RemoveRilExtensions(ril100);
      Ok(if short in categories then categories[short] else -1)
  }

  /** The exact code wins, the extension-less one is the fallback, and -1 means neither is known. */
  lemma GetCategoryDataCases(categories: map<string, int>, ril100: string)
    requires forall code :: code in categories ==> categories[code] >= 0
    ensures ril100 in categories ==> GetCategoryData(categories, ril100) == Ok(categories[ril100])
    ensures GetCategoryData(categories, ril100).Err? <==> ril100 !in categories && RemoveRilExtensions(ril100).Err?
    ensures GetCategoryData(categories, ril100) == Ok(-1) <==>
      ril100 !in categories && RemoveRilExtensions(ril100).Ok? && RemoveRilExtensions(ril100).value !in categories
    ensures ril100 !in categories && RemoveRilExtensions(ril100).Ok? && RemoveRilExtensions(ril100).value in categories ==>
      GetCategoryData(categories, ril100) == Ok(categories[RemoveRilExtensions(ril100).value])
  {
  }

  /** `get_best_ril100`: the code if the game knows it, else its extension-less form if that is known, else the code. */
  function GetBestRil100(ril100: string, existing: seq<string>): (r: Result<string>)
    ensures r.Ok? ==> r.value == ril100 || r.value in existing
    ensures ril100 in existing ==> r == Ok(ril100)
    ensures r.Err? <==> ril100 !in existing && RemoveRilExtensions(ril100).Err?
    ensures r.Ok? && r.value != ril100 ==> RemoveRilExtensions(ril100) == Ok(r.value)
  {
    if ril100 in existing then Ok(ril100)
    else
      var short :- RemoveRilExtensions(ril100);
      Ok(if short in existing then short else ril100)
  }

  /** Choosing the best code of a best code changes nothing. */
  lemma GetBestRil100Idempotent(ril100: string, existing: seq<string>)
    requires GetBestRil100(ril100, existing).Ok?
    ensures GetBestRil100(GetBestRil100(ril100, existing).value, existing) == GetBestRil100(ril100, existing)
  {
    var best := GetBestRil100(ril100, existing).value;
    if best == ril100 && ril100 !in existing {
      var short := RemoveRilExtensions(ril100).value;
      assert short !in existing;
      RemoveRilExtensionsIdempotent(ril100);
    }
  }

  // ---------------------------------------------------------------------------------------------
  // Accumulating the waypoints of a route into stops

  /** One waypoint: `(distance from start, RIL100, is a stop, route number)`. */
  datatype Waypoint = Waypoint(km: real, ril100: string, isStop: bool, segmentNo: int)

  /** One entry of `route`: `(RIL100, length, electrified, category)`. */
  datatype RouteStop = RouteStop(ril100: string, length: int, electrified: bool, category: int)

  /** `import_route_data()`: a route number's electrification and its category (None for an unknown kind). */
  type RouteData = map<int, (bool, Option<int>)>

  /** `cat ^ 1` on Python's integers: the lowest bit of the two's complement is flipped. */
  function FlipLowBit(c: int): int
  {
    if c % 2 == 0 then c + 1 else c - 1
  }

  /** The ordering the flipped bit gives the categories: 2 beats 0 beats 1. */
  lemma FlipLowBitOrder()
    ensures FlipLowBit(2) == 3 && FlipLowBit(0) == 1 && FlipLowBit(1) == 0
  {
  }

  /**
   * `max(categories, key=lambda cat: cat ^ 1)` on a non-empty list: the first category whose flipped
   * value is largest; a None category makes the key raise TypeError.
   */
  function MaxByFlip(data: seq<(bool, Option<int>)>): (r: Result<int>)
    requires data != []
    decreases |data|
  {
    var last := data[|data| - 1].1;
    if |data| == 1 then (if last.None? then Err(TypeError) else Ok(last.value))
    else
      var best :- MaxByFlip(data[..|data| - 1]);
      if last.None? then Err(TypeError)
      else Ok(if FlipLowBit(last.value) > FlipLowBit(best) then last.value else best)
  }

  /** All flipped values are at most the result's, and the result is the first category reaching it. */
  predicate FirstMaximal(data: seq<(bool, Option<int>)>, c: int)
  {
    && (forall i :: 0 <= i < |data| ==> data[i].1.Some? && FlipLowBit(data[i].1.value) <= FlipLowBit(c))
    && exists i :: 0 <= i < |data| && data[i].1 == Some(c) && forall j :: 0 <= j < i ==> FlipLowBit(data[j].1.value) < FlipLowBit(c)
  }

  lemma MaxByFlipMeaning(data: seq<(bool, Option<int>)>)
    requires data != []
    ensures MaxByFlip(data).Ok? <==> forall i :: 0 <= i < |data| ==> data[i].1.Some?
    ensures MaxByFlip(data).Ok? ==> FirstMaximal(data, MaxByFlip(data).value)
  {
    MaxByFlipOk(data);
    if MaxByFlip(data).Ok? {
      MaxByFlipFirstMaximal(data);
    }
  }

  lemma {:induction false} MaxByFlipOk(data: seq<(bool, Option<int>)>)
    requires data != []
    ensures MaxByFlip(data).Ok? <==> forall i :: 0 <= i < |data| ==> data[i].1.Some?
    decreases |data|
  {
    if |data| > 1 {
      var init := data[..|data| - 1];
      MaxByFlipOk(init);
      assert forall i :: 0 <= i < |init| ==> init[i] == data[i];
    }
  }

  lemma {:induction false} MaxByFlipFirstMaximal(data: seq<(bool, Option<int>)>)
    requires data != [] && MaxByFlip(data).Ok?
    ensures FirstMaximal(data, MaxByFlip(data).value)
    decreases |data|
  {
    var last := data[|data| - 1].1;
    if |data| == 1 {
      assert data[0].1 == Some(last.value);
    } else {
      var init := data[..|data| - 1];
      MaxByFlipFirstMaximal(init);
      assert forall i :: 0 <= i < |init| ==> init[i] == data[i];
      var best := MaxByFlip(init).value;
      var r := MaxByFlip(data).value;
      var i :| 0 <= i < |init| && init[i].1 == Some(best) && forall j :: 0 <= j < i ==> FlipLowBit(init[j].1.value) < FlipLowBit(best);
      if FlipLowBit(last.value) > FlipLowBit(best) {
        assert data[|data| - 1].1 == Some(r);
        assert forall j :: 0 <= j < |data| - 1 ==> FlipLowBit(data[j].1.value) < FlipLowBit(r);
      } else {
        assert data[i].1 == Some(r);
        assert forall j :: 0 <= j < i ==> FlipLowBit(data[j].1.value) < FlipLowBit(r);
      }
    }
  }

  /** The index of the last stop before `i`, if any. */
  function LastStop(w: seq<Waypoint>, i: nat): (r: Option<nat>)
    requires i <= |w|
    ensures r.Some? ==> r.value < i
  {
    if i == 0 then None else if w[i - 1].isStop then Some(i - 1) else LastStop(w, i - 1)
  }

  lemma {:induction false} LastStopMeaning(w: seq<Waypoint>, i: nat)
    requires i <= |w|
    ensures LastStop(w, i).Some? ==>
      var p := LastStop(w, i).value; w[p].isStop && forall j :: p < j < i ==> !w[j].isStop
    ensures LastStop(w, i).None? ==> forall j :: 0 <= j < i ==> !w[j].isStop
  {
    if i > 0 {
      LastStopMeaning(w, i - 1);
    }
  }

  /** Where the stretch ending at `i` begins: the last stop before it, or the first waypoint. */
  function StartIndex(w: seq<Waypoint>, i: nat): (r: nat)
    requires i <= |w|
    ensures r <= i
  {
    match LastStop(w, i)
    case Some(p) => p
    case None => 0
  }

  /** The kilometre the stretch ending at `i` is measured from: the last stop's, or 0. */
  function StartKm(w: seq<Waypoint>, i: nat): real
    requires i <= |w|
  {
    match LastStop(w, i)
    case Some(p) => w[p].km
    case None => 0.0
  }

  function SegmentNumbers(ws: seq<Waypoint>): (r: seq<int>)
    ensures |r| == |ws|
  {
    if ws == [] then [] else SegmentNumbers(ws[..|ws| - 1]) + [ws[|ws| - 1].segmentNo]
  }

  lemma {:induction false} SegmentNumbersAt(ws: seq<Waypoint>)
    ensures forall i :: 0 <= i < |ws| ==> SegmentNumbers(ws)[i] == ws[i].segmentNo
  {
    if ws != [] {
      SegmentNumbersAt(ws[..|ws| - 1]);
    }
  }

  /** `[route_data[n] for n in numbers]`: KeyError at the first unknown route number. */
  function CoveredData(numbers: seq<int>, routeData: RouteData): (r: Result<seq<(bool, Option<int>)>>)
    ensures r.Err? ==> r.error == KeyError
  {
    if numbers == [] then Ok([])
    else
      var init :- CoveredData(numbers[..|numbers| - 1], routeData);
      if numbers[|numbers| - 1] !in routeData then Err(KeyError)
      else Ok(init + [routeData[numbers[|numbers| - 1]]])
  }

  /** The lookup succeeds exactly when every number is known, and then lists their data in order. */
  lemma {:induction false} CoveredDataMeaning(numbers: seq<int>, routeData: RouteData)
    ensures CoveredData(numbers, routeData).Ok? <==> forall i :: 0 <= i < |numbers| ==> numbers[i] in routeData
    ensures CoveredData(numbers, routeData).Ok? ==>
      var r := CoveredData(numbers, routeData).value;
      |r| == |numbers| && forall i :: 0 <= i < |numbers| ==> r[i] == routeData[numbers[i]]
  {
    if numbers != [] {
      CoveredDataMeaning(numbers[..|numbers| - 1], routeData);
    }
  }

  predicate AllElectrified(data: seq<(bool, Option<int>)>)
  {
    forall i :: 0 <= i < |data| ==> data[i].0
  }

  /** The category of a stretch: 0 without data, else the flipped-bit maximum. */
  function RouteCategory(data: seq<(bool, Option<int>)>): Result<int>
  {
    if data == [] then Ok(0) else MaxByFlip(data)
  }

  /** Without data the category is 0; otherwise it exists exactly when every category is known, and is the first maximal one. */
  lemma RouteCategoryMeaning(data: seq<(bool, Option<int>)>)
    ensures data == [] ==> RouteCategory(data) == Ok(0)
    ensures data != [] ==> (RouteCategory(data).Ok? <==> forall i :: 0 <= i < |data| ==> data[i].1.Some?)
    ensures data != [] && RouteCategory(data).Ok? ==> FirstMaximal(data, RouteCategory(data).value)
  {
    if data != [] {
      MaxByFlipMeaning(data);
    }
  }

  /** The route entry of the stop at `j`. */
  function StopEntry(w: seq<Waypoint>, j: nat, routeData: RouteData): Result<RouteStop>
    requires j < |w|
  {
    var data :- CoveredData(SegmentNumbers(w[StartIndex(w, j)..j]), routeData);
    var category :- RouteCategory(data);
    Ok(RouteStop(w[j].ril100, Trunc(w[j].km - StartKm(w, j)), AllElectrified(data), category))
  }

  /** The route entries of the stops among the first `k` waypoints, or the first error. */
  function StopsUpTo(w: seq<Waypoint>, k: nat, routeData: RouteData): Result<seq<RouteStop>>
    requires k <= |w|
  {
    if k == 0 then Ok([])
    else
      var init :- StopsUpTo(w, k - 1, routeData);
      if w[k - 1].isStop then
        var entry :- StopEntry(w, k - 1, routeData);
        Ok(init + [entry])
      else Ok(init)
  }

  /** The number of stops among the first `k` waypoints. */
  function StopsBefore(w: seq<Waypoint>, k: nat): nat
    requires k <= |w|
  {
    if k == 0 then 0 else StopsBefore(w, k - 1) + (if w[k - 1].isStop then 1 else 0)
  }


  /**
   * A stop's entry carries its code, the kilometres since the previous stop (or the start)
   * truncated to an integer, whether every route number it covers is electrified, and the
   * flipped-bit maximum of their categories.
   */
  lemma StopEntryMeaning(w: seq<Waypoint>, j: nat, routeData: RouteData)
    requires j < |w|
    ensures var covered := w[StartIndex(w, j)..j];
      && (StopEntry(w, j, routeData).Ok? <==>
            (forall m :: 0 <= m < |covered| ==> covered[m].segmentNo in routeData)
            && (forall m :: 0 <= m < |covered| ==> routeData[covered[m].segmentNo].1.Some?))
      && (StopEntry(w, j, routeData).Ok? ==>
            var e := StopEntry(w, j, routeData).value;
            && e.ril100 == w[j].ril100
            && e.length == Trunc(w[j].km - StartKm(w, j))
            && (e.electrified <==> forall m :: 0 <= m < |covered| ==> routeData[covered[m].segmentNo].0)
            && (covered == [] ==> e.category == 0)
            && (covered != [] ==> FirstMaximal(CoveredData(SegmentNumbers(covered), routeData).value, e.category)))
  {
    var covered := w[StartIndex(w, j)..j];
    SegmentNumbersAt(covered);
    CoveredDataMeaning(SegmentNumbers(covered), routeData);
    var data := CoveredData(SegmentNumbers(covered), routeData);
    if data.Ok? && data.value != [] {
      MaxByFlipMeaning(data.value);
    }
  }

  /** The stops succeed exactly when the entry of every stop does. */
  lemma {:induction false} StopsUpToSucceeds(w: seq<Waypoint>, k: nat, routeData: RouteData)
    requires k <= |w|
    ensures StopsUpTo(w, k, routeData).Ok? <==> forall j :: 0 <= j < k && w[j].isStop ==> StopEntry(w, j, routeData).Ok?
  {
    if k > 0 {
      StopsUpToSucceeds(w, k - 1, routeData);
      var init := StopsUpTo(w, k - 1, routeData);
      if init.Err? {
        assert StopsUpTo(w, k, routeData).Err?;
      } else if !w[k - 1].isStop {
        assert StopsUpTo(w, k, routeData) == init;
      } else {
        assert StopsUpTo(w, k, routeData).Ok? <==> StopEntry(w, k - 1, routeData).Ok?;
      }
    }
  }

  /** The entries are those of the stops, one per stop, in order. */
  lemma {:induction false} StopsUpToEntries(w: seq<Waypoint>, k: nat, routeData: RouteData)
    requires k <= |w|
    requires StopsUpTo(w, k, routeData).Ok?
    ensures |StopsUpTo(w, k, routeData).value| == StopsBefore(w, k)
    ensures forall j :: 0 <= j < k && w[j].isStop ==>
      StopsBefore(w, j) < StopsBefore(w, k) && StopEntry(w, j, routeData).Ok?
      && StopsUpTo(w, k, routeData).value[StopsBefore(w, j)] == StopEntry(w, j, routeData).value
  {
    StopsUpToSucceeds(w, k, routeData);
    if k > 0 {
      StopsUpToEntries(w, k - 1, routeData);
      var r := StopsUpTo(w, k, routeData).value;
      var init := StopsUpTo(w, k - 1, routeData).value;
      var c := StopsBefore(w, k - 1);
      if w[k - 1].isStop {
        assert r == init + [StopEntry(w, k - 1, routeData).value];
        assert r[c] == StopEntry(w, k - 1, routeData).value;
      } else {
        assert r == init;
      }
      forall j | 0 <= j < k - 1 && w[j].isStop
        ensures StopsBefore(w, j) < StopsBefore(w, k) && r[StopsBefore(w, j)] == StopEntry(w, j, routeData).value
      {
        assert r[StopsBefore(w, j)] == init[StopsBefore(w, j)];
      }
    }
  }

  lemma {:induction false} StopsErrorPersists(w: seq<Waypoint>, k: nat, routeData: RouteData)
    requires 0 < k <= |w|
    requires StopsUpTo(w, k, routeData).Err?
    ensures StopsUpTo(w, |w|, routeData) == StopsUpTo(w, k, routeData)
    decreases |w| - k
  {
    if k < |w| {
      StopsErrorPersists(w, k + 1, routeData);
    }
  }

  /** One more waypoint: a stop adds its entry, any other waypoint adds nothing. */
  lemma StopsStep(w: seq<Waypoint>, i: nat, routeData: RouteData, route: seq<RouteStop>)
    requires i < |w| && StopsUpTo(w, i, routeData) == Ok(route)
    ensures !w[i].isStop ==> StopsUpTo(w, i + 1, routeData) == Ok(route)
    ensures w[i].isStop && StopEntry(w, i, routeData).Ok? ==>
      StopsUpTo(w, i + 1, routeData) == Ok(route + [StopEntry(w, i, routeData).value])
    ensures w[i].isStop && StopEntry(w, i, routeData).Err? ==>
      StopsUpTo(w, i + 1, routeData) == Err(StopEntry(w, i, routeData).error)
  {
  }

  /** The stretch after a waypoint: it restarts at a stop and grows by one waypoint otherwise. */
  lemma StretchStep(w: seq<Waypoint>, i: nat)
    requires i < |w|
    ensures w[i].isStop ==> StartIndex(w, i + 1) == i && StartKm(w, i + 1) == w[i].km
    ensures !w[i].isStop ==> StartIndex(w, i + 1) == StartIndex(w, i) && StartKm(w, i + 1) == StartKm(w, i)
    ensures SegmentNumbers(w[StartIndex(w, i)..i]) + [w[i].segmentNo] == SegmentNumbers(w[StartIndex(w, i)..i + 1])
  {
    var s := w[StartIndex(w, i)..i + 1];
    assert s[..|s| - 1] == w[StartIndex(w, i)..i];
  }

  /**
   * The accumulation loop of `extend_path`: the distance to the next stop grows by every segment
   * and is reset at each stop, and the route numbers seen since the previous stop decide the
   * stop's electrification and category.
   */
  method AccumulateStops(w: seq<Waypoint>, routeData: RouteData) returns (r: Result<seq<RouteStop>>)
    ensures r == StopsUpTo(w, |w|, routeData)
  {
    var route: seq<RouteStop> := [];
    var distanceToStop: real := 0.0;
    var totalDistance: real := 0.0;
    var segmentSegments: seq<int> := [];
    for i := 0 to |w|
      invariant Accumulated(w, i, routeData, route, distanceToStop, totalDistance, segmentSegments)
    {
      if w[i].isStop {
        AccumulateAtStop(w, i, routeData, route, distanceToStop, totalDistance, segmentSegments);
      }
      ghost var before := (route, distanceToStop, totalDistance, segmentSegments);
      var segment := w[i].km - totalDistance;
      totalDistance := w[i].km;
      distanceToStop := distanceToStop + segment;
      if w[i].isStop {
        var entry := StopReached(w, i, routeData, segmentSegments, distanceToStop);
        if entry.Err? {
          return Err(entry.error);
        }
        segmentSegments := [];
        route := route + [entry.value];
        distanceToStop := 0.0;
      }
      segmentSegments := segmentSegments + [w[i].segmentNo];
      if !w[i].isStop {
        AccumulatePast(w, i, routeData, before.0, before.1, before.2, before.3, route, distanceToStop, totalDistance, segmentSegments);
      }
    }
    return Ok(route);
  }

  /** The variables of the accumulation loop after `i` waypoints. */
  ghost predicate Accumulated(w: seq<Waypoint>, i: nat, routeData: RouteData, route: seq<RouteStop>,
                              distanceToStop: real, totalDistance: real, segmentSegments: seq<int>)
    requires i <= |w|
  {
    && StopsUpTo(w, i, routeData) == Ok(route)
    && totalDistance == (if i == 0 then 0.0 else w[i - 1].km)
    && distanceToStop == totalDistance - StartKm(w, i)
    && segmentSegments == SegmentNumbers(w[StartIndex(w, i)..i])
  }

  /** A waypoint that is not a stop only lengthens the stretch. */
  lemma AccumulatePast(w: seq<Waypoint>, i: nat, routeData: RouteData, route: seq<RouteStop>,
                       distanceToStop: real, totalDistance: real, segmentSegments: seq<int>,
                       route': seq<RouteStop>, distanceToStop': real, totalDistance': real, segmentSegments': seq<int>)
    requires i < |w| && !w[i].isStop
    requires Accumulated(w, i, routeData, route, distanceToStop, totalDistance, segmentSegments)
    requires route' == route && distanceToStop' == distanceToStop + (w[i].km - totalDistance)
    requires totalDistance' == w[i].km && segmentSegments' == segmentSegments + [w[i].segmentNo]
    ensures Accumulated(w, i + 1, routeData, route', distanceToStop', totalDistance', segmentSegments')
  {
    StretchStep(w, i);
    StopsStep(w, i, routeData, route);
  }

  /** At a stop the stretch's distance is complete; its entry ends the walk with an error or is added, and a new stretch starts. */
  lemma AccumulateAtStop(w: seq<Waypoint>, i: nat, routeData: RouteData, route: seq<RouteStop>,
                         distanceToStop: real, totalDistance: real, segmentSegments: seq<int>)
    requires i < |w| && w[i].isStop
    requires Accumulated(w, i, routeData, route, distanceToStop, totalDistance, segmentSegments)
    ensures distanceToStop + (w[i].km - totalDistance) == w[i].km - StartKm(w, i)
    ensures segmentSegments == SegmentNumbers(w[StartIndex(w, i)..i])
    ensures StopEntry(w, i, routeData).Err? ==> StopsUpTo(w, |w|, routeData) == Err(StopEntry(w, i, routeData).error)
    ensures StopEntry(w, i, routeData).Ok? ==>
      Accumulated(w, i + 1, routeData, route + [StopEntry(w, i, routeData).value], 0.0, w[i].km, [] + [w[i].segmentNo])
  {
    StretchStep(w, i);
    StopsStep(w, i, routeData, route);
    if StopEntry(w, i, routeData).Err? {
      StopsErrorPersists(w, i + 1, routeData);
    } else {
      assert w[i..i + 1] == [w[i]];
      assert SegmentNumbers([w[i]]) == [] + [w[i].segmentNo];
    }
  }

  /** What the loop does at a stop: the covered data of the stretch decide the stop's entry. */
  method StopReached(w: seq<Waypoint>, i: nat, routeData: RouteData, segmentSegments: seq<int>, distanceToStop: real)
    returns (r: Result<RouteStop>)
    requires i < |w| && segmentSegments == SegmentNumbers(w[StartIndex(w, i)..i])
    requires distanceToStop == w[i].km - StartKm(w, i)
    ensures r == StopEntry(w, i, routeData)
  {
    var data := CoveredData(segmentSegments, routeData);
    if data.Err? {
      return Err(data.error);
    }
    var electrified := AllElectrified(data.value);
    var category := RouteCategory(data.value);
    if category.Err? {
      return Err(category.error);
    }
    return Ok(RouteStop(w[i].ril100, Trunc(distanceToStop), electrified, category.value));
  }

  // ---------------------------------------------------------------------------------------------
  // Segments of the path record and the hoisting of shared properties

  const TwistingFactorKey := "twistingFactor"

  /** The keys of a segment record, in the order the dictionary display writes them. */
  const SegmentKeys: seq<string> := ["start", "end", "electrified", "group", "length", "twistingFactor"]

  const SegmentKeySet: set<string> := {"start", "end", "electrified", "group", "length", "twistingFactor"}

  /** The segment record between two consecutive stops; it carries the end stop's data. */
  function SegmentRecord(start: string, end: string, stop: RouteStop): (d: Dict)
    ensures d.Keys == SegmentKeySet
  {
    map["start" := Str(start), "end" := Str(end), "electrified" := Bool(stop.electrified),
        "group" := Int(stop.category), "length" := Int(stop.length), "twistingFactor" := Int(0)]
  }

  /** The segments of the first `k` pairs of consecutive stops, or the first error. */
  function SegmentsUpTo(stops: seq<RouteStop>, k: nat, existing: seq<string>): (r: Result<seq<Dict>>)
    requires k < |stops| || k == 0
    ensures r.Ok? ==> |r.value| == k && forall i :: 0 <= i < k ==> r.value[i].Keys == SegmentKeySet
  {
    if k == 0 then Ok([])
    else
      var init :- SegmentsUpTo(stops, k - 1, existing);
      var start :- GetBestRil100(stops[k - 1].ril100, existing);
      var end :- GetBestRil100(stops[k].ril100, existing);
      Ok(init + [SegmentRecord(start, end, stops[k])])
  }

  /** Every segment has `key`, all with the same value. */
  predicate SharedBy(segments: seq<Dict>, key: string)
  {
    |segments| > 0 && key in segments[0]
    && forall i :: 0 <= i < |segments| ==> key in segments[i] && segments[i][key] == segments[0][key]
  }

  /** The keys that move into the path record: all shared ones but the twisting factor placeholder. */
  function HoistedKeys(segments: seq<Dict>): set<string>
  {
    set key | key in SegmentKeys && key != TwistingFactorKey && SharedBy(segments, key)
  }

  /** `d` without the keys in `keys`. */
  function Without(d: Dict, keys: set<string>): (r: Dict)
    ensures r.Keys == d.Keys - keys
    ensures forall k :: k in r ==> r[k] == d[k]
  {
    map k | k in d && k !in keys :: d[k]
  }

  /** A path record holding `maxSpeed` 0 and the first segment's values under `keys`. */
  function EntryOf(segments: seq<Dict>, keys: set<string>): Dict
    requires |segments| > 0 && forall k :: k in keys ==> k in segments[0]
  {
    map k | k in keys + {"maxSpeed"} :: if k == "maxSpeed" then Int(0) else segments[0][k]
  }

  /** The path record before its segments are attached: `maxSpeed` 0 and the hoisted properties. */
  function HoistedEntry(segments: seq<Dict>): (r: Dict)
    requires |segments| > 0
  {
    EntryOf(segments, HoistedKeys(segments))
  }

  lemma EntryAdd(segments: seq<Dict>, keys: set<string>, key: string)
    requires |segments| > 0 && forall k :: k in keys ==> k in segments[0]
    requires key in segments[0] && key != "maxSpeed"
    ensures EntryOf(segments, keys)[key := segments[0][key]] == EntryOf(segments, keys + {key})
  {
  }

  lemma RemoveWithout(d: Dict, keys: set<string>, key: string)
    ensures Remove(Without(d, keys), key) == Without(d, keys + {key})
  {
  }

  /** The keys moved so far by the loop: the hoisted ones among the first `j` segment keys. */
  function HoistedSoFar(segments: seq<Dict>, j: nat): set<string>
    requires j <= |SegmentKeys|
  {
    set key | key in SegmentKeys[..j] && key in HoistedKeys(segments)
  }

  /** `for segment in route_segments: segment.pop(key)`. */
  method PopFromAll(segments: seq<Dict>, key: string) returns (r: seq<Dict>)
    ensures |r| == |segments| && forall i :: 0 <= i < |segments| ==> r[i] == Remove(segments[i], key)
  {
    r := segments;
    var i := 0;
    while i < |segments|
      invariant 0 <= i <= |segments| && |r| == |segments|
      invariant forall m :: 0 <= m < i ==> r[m] == Remove(segments[m], key)
      invariant forall m :: i <= m < |segments| ==> r[m] == segments[m]
    {
      r := r[i := Remove(r[i], key)];
      i := i + 1;
    }
  }

  /** `all(segment[key] == value for segment in route_segments)`. */
  method AllEqual(segments: seq<Dict>, key: string, value: Value) returns (b: bool)
    requires forall i :: 0 <= i < |segments| ==> key in segments[i]
    ensures b <==> forall i :: 0 <= i < |segments| ==> segments[i][key] == value
  {
    var i := 0;
    while i < |segments|
      invariant 0 <= i <= |segments|
      invariant forall m :: 0 <= m < i ==> segments[m][key] == value
    {
      if segments[i][key] != value {
        return false;
      }
      i := i + 1;
    }
    return true;
  }

  lemma HoistStep(segments: seq<Dict>, current: seq<Dict>, j: nat)
    requires |segments| > 0 && j < |SegmentKeys|
    requires forall i :: 0 <= i < |segments| ==> segments[i].Keys == SegmentKeySet
    requires |current| == |segments|
    requires forall i :: 0 <= i < |segments| ==> current[i] == Without(segments[i], HoistedSoFar(segments, j))
    ensures SegmentKeys[j] !in HoistedSoFar(segments, j)
    ensures forall i :: 0 <= i < |segments| ==> SegmentKeys[j] in current[i] && current[i][SegmentKeys[j]] == segments[i][SegmentKeys[j]]
    ensures var key := SegmentKeys[j];
      HoistedSoFar(segments, j + 1) == HoistedSoFar(segments, j) + (if key in HoistedKeys(segments) then {key} else {})
  {
    KeyFresh(j);
    HoistedSoFarNext(segments, j);
    var key := SegmentKeys[j];
    assert key in SegmentKeySet;
  }

  /** The segment keys are distinct. */
  lemma KeyFresh(j: nat)
    requires j < |SegmentKeys|
    ensures SegmentKeys[j] !in SegmentKeys[..j] && SegmentKeys[j] in SegmentKeySet
  {
  }

  lemma HoistedSoFarNext(segments: seq<Dict>, j: nat)
    requires j < |SegmentKeys|
    ensures var key := SegmentKeys[j];
      HoistedSoFar(segments, j + 1) == HoistedSoFar(segments, j) + (if key in HoistedKeys(segments) then {key} else {})
  {
    assert SegmentKeys[..j + 1] == SegmentKeys[..j] + [SegmentKeys[j]];
  }

  /** One round of the hoisting loop: the `j`-th key moves when it is shared and is not the placeholder. */
  method HoistKey(segments: seq<Dict>, j: nat, entry: Dict, rest: seq<Dict>) returns (entry': Dict, rest': seq<Dict>)
    requires |segments| > 0 && j < |SegmentKeys|
    requires forall i :: 0 <= i < |segments| ==> segments[i].Keys == SegmentKeySet
    requires entry == EntryOf(segments, HoistedSoFar(segments, j))
    requires |rest| == |segments| && forall i :: 0 <= i < |segments| ==> rest[i] == Without(segments[i], HoistedSoFar(segments, j))
    ensures entry' == EntryOf(segments, HoistedSoFar(segments, j + 1))
    ensures |rest'| == |segments| && forall i :: 0 <= i < |segments| ==> rest'[i] == Without(segments[i], HoistedSoFar(segments, j + 1))
  {
    HoistStep(segments, rest, j);
    entry', rest' := entry, rest;
    var key := SegmentKeys[j];
    var shared := false;
    if key != TwistingFactorKey {
      shared := AllEqual(rest, key, segments[0][key]);
      assert shared <==> SharedBy(segments, key);
      if shared {
        EntryAdd(segments, HoistedSoFar(segments, j), key);
        entry' := entry[key := segments[0][key]];
        rest' := PopFromAll(rest, key);
        forall i | 0 <= i < |segments| ensures rest'[i] == Without(segments[i], HoistedSoFar(segments, j + 1)) {
          RemoveWithout(segments[i], HoistedSoFar(segments, j), key);
        }
      }
    }
    if !shared {
      assert key !in HoistedKeys(segments);
      assert HoistedSoFar(segments, j + 1) == HoistedSoFar(segments, j);
    }
  }

  /**
   * The hoisting loop of `extend_path`: every key of the first segment but the twisting factor whose
   * value all segments share moves into the path record and is popped from every segment.
   */
  method Hoist(segments: seq<Dict>) returns (entry: Dict, rest: seq<Dict>)
    requires |segments| > 0
    requires forall i :: 0 <= i < |segments| ==> segments[i].Keys == SegmentKeySet
    ensures entry == HoistedEntry(segments)
    ensures |rest| == |segments| && forall i :: 0 <= i < |segments| ==> rest[i] == Without(segments[i], HoistedKeys(segments))
  {
    entry := map["maxSpeed" := Int(0)];
    assert HoistedSoFar(segments, 0) == {};
    assert entry == EntryOf(segments, {});
    rest := segments;
    assert forall i :: 0 <= i < |segments| ==> rest[i] == Without(segments[i], {});
    var j := 0;
    while j < |SegmentKeys|
      invariant 0 <= j <= |SegmentKeys| && |rest| == |segments|
      invariant entry == EntryOf(segments, HoistedSoFar(segments, j))
      invariant forall i :: 0 <= i < |segments| ==> rest[i] == Without(segments[i], HoistedSoFar(segments, j))
    {
      entry, rest := HoistKey(segments, j, entry, rest);
      j := j + 1;
    }
    assert SegmentKeys[..j] == SegmentKeys;
    assert HoistedSoFar(segments, j) == HoistedKeys(segments);
  }

  /**
   * What the path record holds: `maxSpeed` 0, and a key of the segments other than the twisting
   * factor placeholder exactly when all segments agree on it, with that common value.
   */
  lemma HoistedEntryMeaning(segments: seq<Dict>)
    requires |segments| > 0
    requires forall i :: 0 <= i < |segments| ==> segments[i].Keys == SegmentKeySet
    ensures var entry := HoistedEntry(segments);
      && entry["maxSpeed"] == Int(0)
      && (forall k :: k in SegmentKeySet && k != TwistingFactorKey ==> (k in entry <==> SharedBy(segments, k)))
      && TwistingFactorKey !in entry
      && forall k, i :: k in entry && k != "maxSpeed" && 0 <= i < |segments| ==> entry[k] == segments[i][k]
  {
    var entry := HoistedEntry(segments);
    var keys := HoistedKeys(segments);
    assert entry.Keys == keys + {"maxSpeed"};
    forall k | k in SegmentKeySet && k != TwistingFactorKey
      ensures k in entry <==> SharedBy(segments, k)
    {
      assert k in SegmentKeys;
    }
    forall k, i | k in entry && k != "maxSpeed" && 0 <= i < |segments|
      ensures entry[k] == segments[i][k]
    {
      assert k in keys && SharedBy(segments, k);
    }
  }

  /**
   * What a segment keeps: the twisting factor, and every property the path record did not take,
   * so each of its properties is found in the segment or in the path record.
   */
  lemma HoistedRestMeaning(segments: seq<Dict>, i: nat)
    requires |segments| > 0 && i < |segments|
    requires forall i :: 0 <= i < |segments| ==> segments[i].Keys == SegmentKeySet
    ensures var entry := HoistedEntry(segments);
      var rest := Without(segments[i], HoistedKeys(segments));
      && TwistingFactorKey in rest
      && (forall k :: k in entry && k != "maxSpeed" ==> k !in rest)
      && (forall k :: k in segments[i] ==> (k in rest && rest[k] == segments[i][k]) || (k in entry && entry[k] == segments[i][k]))
  {
  }

  function PairCount(stops: seq<RouteStop>): nat
  {
    if stops == [] then 0 else |stops| - 1
  }

  /** The path record `extend_path` appends to the game's path list. */
  function ExtendPathSpec(w: seq<Waypoint>, routeData: RouteData, existing: seq<string>): Result<Value>
  {
    var stops :- StopsUpTo(w, |w|, routeData);
    var segments :- SegmentsUpTo(stops, PairCount(stops), existing);
    if segments == [] then Err(IndexError)
    else
      var rest := seq(|segments|, i requires 0 <= i < |segments| => Obj(Without(segments[i], HoistedKeys(segments))));
      Ok(Obj(HoistedEntry(segments)["objects" := Arr(rest)]))
  }

  /**
   * `extend_path` up to the file write: accumulate the stops, make a segment of every pair of
   * consecutive stops with the best known codes, and hoist their shared properties. A route with
   * fewer than two stops has no first segment, which raises IndexError.
   */
  method ExtendPath(w: seq<Waypoint>, routeData: RouteData, existing: seq<string>) returns (r: Result<Value>)
    ensures r == ExtendPathSpec(w, routeData, existing)
  {
    var stops :- AccumulateStops(w, routeData);
    var segments :- SegmentsUpTo(stops, PairCount(stops), existing);
    if segments == [] {
      return Err(IndexError);
    }
    var entry, rest := Hoist(segments);
    var objects := seq(|rest|, i requires 0 <= i < |rest| => Obj(rest[i]));
    assert objects == seq(|segments|, i requires 0 <= i < |segments| => Obj(Without(segments[i], HoistedKeys(segments))));
    return Ok(Obj(entry["objects" := Arr(objects)]));
  }

  // ---------------------------------------------------------------------------------------------
  // Platform counts

  /** How many platform rows name the station number. */
  function CountOf(platforms: seq<(int, int)>, number: int): nat
  {
    if platforms == [] then 0
    else CountOf(platforms[..|platforms| - 1], number) + (if platforms[|platforms| - 1].0 == number then 1 else 0)
  }

  /** The longest platform of the station number, starting from 0. */
  function MaxLengthOf(platforms: seq<(int, int)>, number: int): int
  {
    if platforms == [] then 0
    else
      var best := MaxLengthOf(platforms[..|platforms| - 1], number);
      var last := platforms[|platforms| - 1];
      if last.0 == number && last.1 > best then last.1 else best
  }

  /** A station number is counted exactly when a row names it; its length is the maximum (or 0). */
  lemma {:induction false} PlatformFigures(platforms: seq<(int, int)>, number: int)
    ensures CountOf(platforms, number) > 0 <==> exists i :: 0 <= i < |platforms| && platforms[i].0 == number
    ensures forall i :: 0 <= i < |platforms| && platforms[i].0 == number ==> platforms[i].1 <= MaxLengthOf(platforms, number)
    ensures MaxLengthOf(platforms, number) == 0
      || exists i :: 0 <= i < |platforms| && platforms[i].0 == number && platforms[i].1 == MaxLengthOf(platforms, number)
    ensures MaxLengthOf(platforms, number) >= 0
  {
    if platforms != [] {
      var init := platforms[..|platforms| - 1];
      PlatformFigures(init, number);
      assert forall i :: 0 <= i < |init| ==> init[i] == platforms[i];
    }
  }

  lemma PlatformStep(platforms: seq<(int, int)>, i: nat)
    requires i < |platforms|
    ensures forall n :: CountOf(platforms[..i + 1], n) == CountOf(platforms[..i], n) + (if platforms[i].0 == n then 1 else 0)
    ensures forall n ::
              MaxLengthOf(platforms[..i + 1], n)
              == if platforms[i].0 == n && platforms[i].1 > MaxLengthOf(platforms[..i], n) then platforms[i].1
                 else MaxLengthOf(platforms[..i], n)
    ensures forall n :: CountOf(platforms[..i], n) == 0 ==> MaxLengthOf(platforms[..i], n) == 0
  {
    assert platforms[..i + 1][..i] == platforms[..i];
    forall n | CountOf(platforms[..i], n) == 0 ensures MaxLengthOf(platforms[..i], n) == 0 {
      NoRowsNoLength(platforms[..i], n);
    }
  }

  lemma {:induction false} NoRowsNoLength(platforms: seq<(int, int)>, number: int)
    requires CountOf(platforms, number) == 0
    ensures MaxLengthOf(platforms, number) == 0
  {
    if platforms != [] {
      NoRowsNoLength(platforms[..|platforms| - 1], number);
    }
  }

  /** The counting loop of `import_platform_data`: per station number, the platform count and the largest length. */
  method CountPlatforms(platforms: seq<(int, int)>) returns (data: map<int, (int, int)>)
    ensures forall n :: n in data <==> CountOf(platforms, n) > 0
    ensures forall n :: n in data ==> data[n] == (CountOf(platforms, n), MaxLengthOf(platforms, n))
  {
    data := map[];
    var i := 0;
    while i < |platforms|
      invariant 0 <= i <= |platforms|
      invariant forall n :: n in data <==> CountOf(platforms[..i], n) > 0
      invariant forall n :: n in data ==> data[n] == (CountOf(platforms[..i], n), MaxLengthOf(platforms[..i], n))
    {
      var (number, length) := platforms[i];
      PlatformStep(platforms, i);
      if number !in data {
        data := data[number := (0, 0)];
      }
      data := data[number := (data[number].0 + 1, data[number].1)];
      data := data[number := (data[number].0, if data[number].1 >= length then data[number].1 else length)];
      i := i + 1;
    }
    assert platforms[..i] == platforms;
  }
}
