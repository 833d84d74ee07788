/**
 * Tracks and the paths built from them: the ordering of track kinds, grouping tracks by route
 * number, splitting a waypoint route into one game path per stop, hoisting attributes shared by
 * all sub-paths into a parent path, and a path's dictionary form.
 */
module Routes {
  import opened Wrappers
  import opened Seqs
  import opened Text
  import opened Json
  import Countries
  import opened Stations

  // ---------------------------------------------------------------------------------------------
  // Track kinds

  datatype TrackKind = Hauptbahn | Nebenbahn | Sfs | Unknown

  /** The enum value, which is also the group a path of this kind gets in the game. */
  function KindValue(k: TrackKind): int
  {
    match k
    case Hauptbahn => 0
    case Nebenbahn => 1
    case Sfs => 2
    case Unknown => -1
  }

  /** The rank that orders kinds: Unknown below Nebenbahn below Hauptbahn below Sfs. */
  function Rank(k: TrackKind): (r: int)
    ensures -1 <= r <= 2
    ensures r == -1 <==> k == Unknown
  {
    match k
    case Hauptbahn => 1
    case Nebenbahn => 0
    case Sfs => 2
    case Unknown => -1
  }

  /** `TrackKind.__lt__`. */
  predicate KindLess(a: TrackKind, b: TrackKind)
  {
    Rank(a) < Rank(b)
  }

  /** `<` on kinds is a strict total order: exactly one of a < b, a == b, b < a holds. */
  lemma KindLessTotal(a: TrackKind, b: TrackKind)
    ensures !KindLess(a, a)
    ensures a != b ==> (KindLess(a, b) <==> !KindLess(b, a))
    ensures KindLess(Unknown, Nebenbahn) && KindLess(Nebenbahn, Hauptbahn) && KindLess(Hauptbahn, Sfs)
  {
  }

  /** The kind of a track given its top speed and its category column. */
  function FromSpeedCategory(vMax: real, category: string): (r: TrackKind)
    ensures r == Nebenbahn <==> category == "Nebenbahn"
    ensures r == Sfs <==> category == "Hauptbahn" && vMax >= 250.0
    ensures r == Hauptbahn <==> category == "Hauptbahn" && vMax < 250.0
    ensures r == Unknown <==> category != "Nebenbahn" && category != "Hauptbahn"
  {
    if category == "Nebenbahn" then Nebenbahn
    else if category == "Hauptbahn" then (if vMax >= 250.0 then Sfs else Hauptbahn)
    else Unknown
  }

  // ---------------------------------------------------------------------------------------------
  // Tracks and their grouping by route number

  /** A stretch of one numbered route; `fromKm`/`toKm` are its route kilometres when known. */
  datatype Track = Track(
    routeNumber: Option<int>,
    electrified: bool,
    kind: TrackKind,
    length: real,
    fromKm: Option<real>,
    toKm: Option<real>)

  /** All tracks of one route number. */
  datatype Path = Path(routeNumber: Option<int>, tracks: seq<Track>)

  predicate NoDuplicates<T(==)>(s: seq<T>)
  {
    forall i, j :: 0 <= i < j < |s| ==> s[i] != s[j]
  }

  /** The route numbers of `tracks` in order of first occurrence: the key order of the grouping dict. */
  function RouteNumbers(tracks: seq<Track>): seq<Option<int>>
  {
    if tracks == [] then []
    else
      var rs := RouteNumbers(tracks[..|tracks| - 1]);
      var rn := tracks[|tracks| - 1].routeNumber;
      if rn in rs then rs else rs + [rn]
  }

  /** The distinct tracks with route number `rn`, in order of first occurrence: one set of the grouping dict. */
  function TracksOf(tracks: seq<Track>, rn: Option<int>): seq<Track>
  {
    if tracks == [] then []
    else
      var g := TracksOf(tracks[..|tracks| - 1], rn);
      var t := tracks[|tracks| - 1];
      if t.routeNumber == rn && t !in g then g + [t] else g
  }

  /** The route numbers are distinct and are exactly those of the tracks. */
  lemma {:induction false} RouteNumbersExact(tracks: seq<Track>)
    ensures NoDuplicates(RouteNumbers(tracks))
    ensures forall rn :: rn in RouteNumbers(tracks) <==> exists t :: t in tracks && t.routeNumber == rn
  {
    if tracks != [] {
      var front := tracks[..|tracks| - 1];
      RouteNumbersExact(front);
      assert tracks == front + [tracks[|tracks| - 1]];
    }
  }

  /** A group holds each track of its route number once, and nothing else. */
  lemma {:induction false} TracksOfExact(tracks: seq<Track>, rn: Option<int>)
    ensures NoDuplicates(TracksOf(tracks, rn))
    ensures forall t :: t in TracksOf(tracks, rn) <==> t in tracks && t.routeNumber == rn
  {
    if tracks != [] {
      var front := tracks[..|tracks| - 1];
      TracksOfExact(front, rn);
      assert tracks == front + [tracks[|tracks| - 1]];
    }
  }

  /** A route number not seen yet has no tracks yet. */
  lemma {:induction false} NewRouteNumber(tracks: seq<Track>, rn: Option<int>)
    requires rn !in RouteNumbers(tracks)
    ensures TracksOf(tracks, rn) == []
  {
    if tracks != [] {
      NewRouteNumber(tracks[..|tracks| - 1], rn);
    }
  }

  // Sorting one group by from_km and comparing neighbours.

  predicate SortedReals(s: seq<real>)
  {
    forall i, j :: 0 <= i < j < |s| ==> s[i] <= s[j]
  }

  function InsertReal(x: real, s: seq<real>): (r: seq<real>)
    requires SortedReals(s)
    ensures |r| == |s| + 1
    ensures forall k :: 0 <= k < |r| ==> r[k] == x || r[k] in s
    ensures SortedReals(r)
    ensures multiset(r) == multiset(s) + multiset{x}
  {
    if s == [] || x <= s[0] then [x] + s
    else
      var rest := InsertReal(x, s[1..]);
      ConsSorted(s[0], rest);
      assert s == [s[0]] + s[1..];
      [s[0]] + rest
  }

  lemma ConsSorted(h: real, s: seq<real>)
    requires SortedReals(s) && forall k :: 0 <= k < |s| ==> h <= s[k]
    ensures SortedReals([h] + s)
  {
    var r := [h] + s;
    forall i, j | 0 <= i < j < |r|
      ensures r[i] <= r[j]
    {
      if i > 0 {
        assert r[i] == s[i - 1] && r[j] == s[j - 1];
      }
    }
  }

  /** `list.sort` on the kilometre keys. */
  function SortReals(s: seq<real>): (r: seq<real>)
    ensures SortedReals(r) && multiset(r) == multiset(s)
  {
    if s == [] then []
    else
      assert s == [s[0]] + s[1..];
      InsertReal(s[0], SortReals(s[1..]))
  }

  predicate HasAdjacentEqual(s: seq<real>)
  {
    exists i :: 0 <= i < |s| - 1 && s[i] == s[i + 1]
  }

  predicate HasEqualPair<T(==)>(s: seq<T>)
  {
    exists i, j :: 0 <= i < j < |s| && s[i] == s[j]
  }

  /** The from_km keys of a group; the placeholder 0.0 is only ever read for groups of fewer than two. */
  function Kms(g: seq<Track>): (r: seq<real>)
    ensures |r| == |g|
    ensures forall i :: 0 <= i < |g| && g[i].fromKm.Some? ==> r[i] == g[i].fromKm.value
  {
    seq(|g|, i requires 0 <= i < |g| => g[i].fromKm.GetOr(0.0))
  }

  predicate MissingKm(g: seq<Track>)
  {
    exists t :: t in g && t.fromKm.None?
  }

  /** Two distinct tracks of the group share a from_km. */
  predicate SharedKm(g: seq<Track>)
  {
    exists i, j :: 0 <= i < j < |g| && g[i].fromKm == g[j].fromKm
  }

  /**
   * The exception one group raises: sorting two or more tracks where one has no from_km compares
   * None (TypeError); otherwise the duplicate check fails its assertion when two tracks of the
   * group share from_km.
   */
  function GroupError(g: seq<Track>): Option<Error>
  {
    if |g| >= 2 && MissingKm(g) then Some(TypeError)
    else if SharedKm(g) then Some(AssertionError)
    else None
  }

  /**
   * The sort-and-compare-neighbours check of one group: sorting the tracks by from_km and
   * asserting that no two neighbours share it.
   */
  method CheckGroup(g: seq<Track>) returns (e: Option<Error>)
    ensures e == GroupError(g)
  {
    if |g| >= 2 && exists t :: t in g && t.fromKm.None? {
      assert MissingKm(g);
      return Some(TypeError);
    }
    assert !(|g| >= 2 && MissingKm(g));
    var keys := SortReals(Kms(g));
    SortedCheck(g);
    var repeated := AdjacentRepeat(keys);
    return if repeated then Some(AssertionError) else None;
  }

  /** The neighbour comparison over the sorted keys. */
  method AdjacentRepeat(keys: seq<real>) returns (b: bool)
    ensures b == HasAdjacentEqual(keys)
  {
    var i := 0;
    while i + 1 < |keys|
      invariant 0 <= i <= |keys|
      invariant forall h :: 0 <= h < i && h + 1 < |keys| ==> keys[h] != keys[h + 1]
    {
      if keys[i] == keys[i + 1] {
        return true;
      }
      i := i + 1;
    }
    return false;
  }

  /** In a sorted sequence, two equal elements anywhere make two equal neighbours. */
  lemma SortedAdjacent(s: seq<real>)
    requires SortedReals(s)
    ensures HasAdjacentEqual(s) <==> HasEqualPair(s)
  {
    if HasEqualPair(s) {
      var i, j :| 0 <= i < j < |s| && s[i] == s[j];
      assert s[i] <= s[i + 1] <= s[j];
      assert s[i] == s[i + 1];
    }
    if HasAdjacentEqual(s) {
      var i :| 0 <= i < |s| - 1 && s[i] == s[i + 1];
      assert 0 <= i < i + 1 < |s|;
    }
  }

  /** Two equal elements make some element occur twice in the multiset. */
  lemma {:induction false} PairGivesMultiplicity<T>(s: seq<T>, i: nat, j: nat)
    requires i < j < |s| && s[i] == s[j]
    ensures multiset(s)[s[i]] >= 2
  {
    var h, t := s[0], s[1..];
    assert s == [h] + t;
    if i == 0 {
      assert t[j - 1] == h;
      assert h in multiset(t);
    } else {
      PairGivesMultiplicity(t, i - 1, j - 1);
    }
  }

  /** An element occurring twice in the multiset sits at two positions. */
  lemma {:induction false} MultiplicityGivesPair<T>(s: seq<T>, x: T)
    requires multiset(s)[x] >= 2
    ensures HasEqualPair(s)
  {
    var h, t := s[0], s[1..];
    assert s == [h] + t;
    if x == h {
      assert x in multiset(t);
      var j :| 0 <= j < |t| && t[j] == h;
      assert s[0] == s[j + 1];
    } else {
      MultiplicityGivesPair(t, x);
      var i, j :| 0 <= i < j < |t| && t[i] == t[j];
      assert s[i + 1] == s[j + 1];
    }
  }

  /** Rearranging a sequence keeps whether it has two equal elements. */
  lemma SamePairs(a: seq<real>, b: seq<real>)
    requires multiset(a) == multiset(b)
    ensures HasEqualPair(a) <==> HasEqualPair(b)
  {
    if HasEqualPair(a) {
      var i, j :| 0 <= i < j < |a| && a[i] == a[j];
      PairGivesMultiplicity(a, i, j);
      MultiplicityGivesPair(b, a[i]);
    }
    if HasEqualPair(b) {
      var i, j :| 0 <= i < j < |b| && b[i] == b[j];
      PairGivesMultiplicity(b, i, j);
      MultiplicityGivesPair(a, b[i]);
    }
  }

  lemma KmPairs(g: seq<Track>)
    requires !MissingKm(g)
    ensures HasEqualPair(Kms(g)) <==> SharedKm(g)
  {
    var ks := Kms(g);
    forall i | 0 <= i < |g|
      ensures g[i].fromKm == Some(ks[i])
    {
      assert g[i] in g;
    }
    if HasEqualPair(ks) {
      var i, j :| 0 <= i < j < |ks| && ks[i] == ks[j];
      assert g[i].fromKm == g[j].fromKm;
    }
  }

  /** Comparing neighbours after sorting finds exactly the groups where two tracks share from_km. */
  lemma SortedCheck(g: seq<Track>)
    requires !(|g| >= 2 && MissingKm(g))
    ensures HasAdjacentEqual(SortReals(Kms(g))) <==> SharedKm(g)
  {
    var ks := Kms(g);
    var sorted := SortReals(ks);
    SortedAdjacent(sorted);
    SamePairs(sorted, ks);
    if |g| >= 2 {
      KmPairs(g);
    } else {
      assert !HasEqualPair(ks) && !SharedKm(g);
    }
  }

  /** The error of the first group, in route-number order, that raises. */
  function FirstGroupError(tracks: seq<Track>, rns: seq<Option<int>>): Option<Error>
  {
    if rns == [] then None
    else
      var before := FirstGroupError(tracks, rns[..|rns| - 1]);
      if before.Some? then before else GroupError(TracksOf(tracks, rns[|rns| - 1]))
  }

  /** No group raises exactly when there is no first error. */
  lemma {:induction false} FirstGroupErrorNone(tracks: seq<Track>, rns: seq<Option<int>>)
    ensures FirstGroupError(tracks, rns).None? <==> forall i :: 0 <= i < |rns| ==> GroupError(TracksOf(tracks, rns[i])).None?
  {
    if rns != [] {
      FirstGroupErrorNone(tracks, rns[..|rns| - 1]);
    }
  }

  /** Once a prefix of the route numbers raises, so does the whole list, with the same error. */
  lemma {:induction false} FirstErrorOfPrefix(tracks: seq<Track>, rns: seq<Option<int>>, k: nat)
    requires k <= |rns|
    requires FirstGroupError(tracks, rns[..k]).Some?
    ensures FirstGroupError(tracks, rns) == FirstGroupError(tracks, rns[..k])
  {
    if k < |rns| {
      assert rns[..|rns| - 1][..k] == rns[..k];
      FirstErrorOfPrefix(tracks, rns[..|rns| - 1], k);
    } else {
      assert rns[..k] == rns;
    }
  }

  /** The paths `merge_tracks` returns, one per route number in first-seen order. */
  function PathsOf(tracks: seq<Track>, rns: seq<Option<int>>): seq<Path>
  {
    if rns == [] then []
    else PathsOf(tracks, rns[..|rns| - 1]) + [Path(rns[|rns| - 1], TracksOf(tracks, rns[|rns| - 1]))]
  }

  lemma {:induction false} PathsOfIndex(tracks: seq<Track>, rns: seq<Option<int>>)
    ensures |PathsOf(tracks, rns)| == |rns|
    ensures forall i :: 0 <= i < |rns| ==> PathsOf(tracks, rns)[i] == Path(rns[i], TracksOf(tracks, rns[i]))
  {
    if rns != [] {
      PathsOfIndex(tracks, rns[..|rns| - 1]);
    }
  }

  /** `merge_tracks(tracks)`. */
  function MergeTracksSpec(tracks: seq<Track>): Result<seq<Path>>
  {
    var rns := RouteNumbers(tracks);
    var e := FirstGroupError(tracks, rns);
    if e.Some? then Err(e.value) else Ok(PathsOf(tracks, rns))
  }

  /** The first loop of `merge_tracks`: the dict from route number to the set of its tracks. */
  method GroupByRouteNumber(tracks: seq<Track>) returns (order: seq<Option<int>>, groups: map<Option<int>, seq<Track>>)
    ensures order == RouteNumbers(tracks)
    ensures forall rn :: rn in groups <==> rn in order
    ensures forall rn :: rn in groups ==> groups[rn] == TracksOf(tracks, rn)
  {
    order := [];
    groups := map[];
    var i := 0;
    while i < |tracks|
      invariant 0 <= i <= |tracks|
      invariant order == RouteNumbers(tracks[..i])
      invariant forall rn :: rn in groups <==> rn in order
      invariant forall rn :: rn in groups ==> groups[rn] == TracksOf(tracks[..i], rn)
    {
      var t := tracks[i];
      assert tracks[..i + 1][..i] == tracks[..i];
      if t.routeNumber !in groups {
        var none: seq<Track> := [];
        groups := groups[t.routeNumber := none];
        NewRouteNumber(tracks[..i], t.routeNumber);
        order := order + [t.routeNumber];
      }
      var g := groups[t.routeNumber];
      var g' := if t in g then g else g + [t];
      groups := groups[t.routeNumber := g'];
      i := i + 1;
    }
    assert tracks[..i] == tracks;
  }

  /**
   * `merge_tracks`: fills a dict from route number to the set of its tracks, sorts each set by
   * from_km and checks neighbours, then returns one path per dict entry.
   */
  method MergeTracks(tracks: seq<Track>) returns (r: Result<seq<Path>>)
    ensures r == MergeTracksSpec(tracks)
  {
    var order, groups := GroupByRouteNumber(tracks);
    var paths: seq<Path> := [];
    var k := 0;
    while k < |order|
      invariant 0 <= k <= |order|
      invariant FirstGroupError(tracks, order[..k]).None?
      invariant paths == PathsOf(tracks, order[..k])
    {
      var g := groups[order[k]];
      var e := CheckGroup(g);
      assert order[..k + 1][..k] == order[..k];
      if e.Some? {
        FirstErrorOfPrefix(tracks, order, k + 1);
        assert FirstGroupError(tracks, order) == e;
        return Err(e.value);
      }
      paths := paths + [Path(order[k], g)];
      k := k + 1;
    }
    assert order[..k] == order;
    assert FirstGroupError(tracks, order).None?;
    return Ok(paths);
  }

  /**
   * `merge_tracks` partitions its input: one path per distinct route number, every track of a path
   * has the path's route number, and every input track lies in exactly one path.
   */
  lemma MergeTracksPartition(tracks: seq<Track>)
    requires MergeTracksSpec(tracks).Ok?
    ensures var ps := MergeTracksSpec(tracks).value;
      (forall i, j :: 0 <= i < j < |ps| ==> ps[i].routeNumber != ps[j].routeNumber)
      && (forall i, t :: 0 <= i < |ps| && t in ps[i].tracks ==> t.routeNumber == ps[i].routeNumber && t in tracks)
      && (forall t :: t in tracks ==> exists i :: 0 <= i < |ps| && t in ps[i].tracks)
      && (forall t, i, j :: 0 <= i < |ps| && 0 <= j < |ps| && t in ps[i].tracks && t in ps[j].tracks ==> i == j)
  {
    var ps := MergeTracksSpec(tracks).value;
    var rns := RouteNumbers(tracks);
    RouteNumbersExact(tracks);
    PathsOfIndex(tracks, rns);
    forall i | 0 <= i < |rns|
      ensures forall t :: t in ps[i].tracks <==> t in tracks && t.routeNumber == rns[i]
    {
      TracksOfExact(tracks, rns[i]);
    }
    forall t | t in tracks
      ensures exists i :: 0 <= i < |ps| && t in ps[i].tracks
    {
      assert t.routeNumber in rns;
      var i :| 0 <= i < |rns| && rns[i] == t.routeNumber;
      assert t in ps[i].tracks;
    }
  }

  /** Two distinct tracks of one route number with the same from_km make `merge_tracks` raise. */
  lemma MergeTracksRejectsSharedKm(tracks: seq<Track>, a: Track, b: Track)
    requires a in tracks && b in tracks && a != b
    requires a.routeNumber == b.routeNumber && a.fromKm == b.fromKm
    ensures MergeTracksSpec(tracks).Err?
  {
    var rns := RouteNumbers(tracks);
    RouteNumbersExact(tracks);
    assert a.routeNumber in rns;
    var k :| 0 <= k < |rns| && rns[k] == a.routeNumber;
    var g := TracksOf(tracks, rns[k]);
    TracksOfExact(tracks, rns[k]);
    assert a in g && b in g;
    var i :| 0 <= i < |g| && g[i] == a;
    var j :| 0 <= j < |g| && g[j] == b;
    if i < j {
      assert g[i].fromKm == g[j].fromKm;
    } else {
      assert g[j].fromKm == g[i].fromKm;
    }
    assert SharedKm(g);
    assert GroupError(TracksOf(tracks, rns[k])).Some?;
    FirstGroupErrorNone(tracks, rns);
    assert FirstGroupError(tracks, rns).Some?;
  }

  // ---------------------------------------------------------------------------------------------
  // Waypoint routes and the game's path records

  /** A point of a route: distance from the start, whether trains stop, the next route number, the station code. */
  datatype CodeWaypoint = CodeWaypoint(distanceFromStart: real, isStop: bool, nextRouteNumber: Option<int>, code: string)

  /** A route: its waypoints and, for each consecutive pair of them, the tracks in between. */
  datatype Route = Route(waypoints: seq<CodeWaypoint>, tracks: seq<seq<Track>>)

  /** A path record of the game; every attribute may be missing (None). */
  datatype TcPath = TcPath(
    start: Option<string>,
    startLong: Option<string>,
    end: Option<string>,
    endLong: Option<string>,
    name: Option<string>,
    electrified: Option<bool>,
    group: Option<int>,
    length: Option<int>,
    maxSpeed: Option<int>,
    twistingFactor: Option<real>,
    sinuosity: Option<real>,
    neededEquipments: Option<seq<string>>,
    objects: SubPaths)

  /** The optional list of sub-paths of a path. */
  datatype SubPaths = NoSubPaths | SubPaths(paths: seq<TcPath>)

  /** `TcPath()`: every attribute None. */
  const BlankPath := TcPath(None, None, None, None, None, None, None, None, None, None, None, None, NoSubPaths)

  /**
   * What `from_route` works with besides the route. The straight-line distance of two locations,
   * the twisting factor of a sinuosity (with its rounding) and the country of a code come from code
   * outside this model and are parameters.
   */
  datatype Context = Context(
    addAnnotations: bool,
    codeToStation: Option<map<string, Station>>,
    countryOf: string -> Option<Countries.Country>,
    distance: (Location, Location) -> real,
    twisting: real -> real)

  function Flatten(tss: seq<seq<Track>>): seq<Track>
  {
    if tss == [] then [] else Flatten(tss[..|tss| - 1]) + tss[|tss| - 1]
  }

  lemma {:induction false} FlattenMembership(tss: seq<seq<Track>>, t: Track)
    ensures t in Flatten(tss) <==> exists i :: 0 <= i < |tss| && t in tss[i]
  {
    if tss != [] {
      var front := tss[..|tss| - 1];
      FlattenMembership(front, t);
      assert forall i :: 0 <= i < |front| ==> front[i] == tss[i];
    }
  }

  /** `if code_to_station:` — a dictionary is true when it is not empty. */
  predicate LooksUp(ctx: Context)
  {
    ctx.codeToStation.Some? && ctx.codeToStation.value != map[]
  }

  /**
   * The twisting factor of a path between two stops: a code missing from the dictionary raises
   * KeyError, and two stations at the same spot make the sinuosity a division by zero.
   */
  function TwistingOf(ctx: Context, last: string, current: string, length: real): (r: Result<Option<real>>)
    ensures r.Err? && r.error == KeyError <==>
      LooksUp(ctx) && (current !in ctx.codeToStation.value || last !in ctx.codeToStation.value)
    ensures r.Err? ==> r.error == KeyError || r.error == ZeroDivisionError
    ensures r.Ok? && r.value.Some? ==> LooksUp(ctx)
  {
    if !LooksUp(ctx) then Ok(None)
    else
      var m := ctx.codeToStation.value;
      if current !in m || last !in m then Err(KeyError)
      else
        var here := m[current].location;
        var there := m[last].location;
        if here.Some? && there.Some? then
          var direct := ctx.distance(here.value, there.value);
          if direct == 0.0 then Err(ZeroDivisionError) else Ok(Some(ctx.twisting(length / direct)))
        else Ok(None)
  }

  /**
   * The ISO codes of the countries of the visited codes, each once, in order of first visit. A
   * code without a country puts None into the set, whose `iso_3166` raises AttributeError.
   */
  function CountryIsos(ws: seq<CodeWaypoint>, countryOf: string -> Option<Countries.Country>): (r: Result<seq<string>>)
    ensures r.Err? ==> r.error == AttributeError
  {
    if ws == [] then Ok([])
    else
      var before :- CountryIsos(ws[..|ws| - 1], countryOf);
      var c := countryOf(ws[|ws| - 1].code);
      if c.None? then Err(AttributeError)
      else
        var iso := Countries.Iso3166(c.value);
        Ok(if iso in before then before else before + [iso])
  }

  /** Finding the countries fails exactly when some visited code has none. */
  lemma {:induction false} CountryIsosFails(ws: seq<CodeWaypoint>, countryOf: string -> Option<Countries.Country>)
    ensures CountryIsos(ws, countryOf).Err? <==> exists i :: 0 <= i < |ws| && countryOf(ws[i].code).None?
  {
    if ws != [] {
      var front := ws[..|ws| - 1];
      CountryIsosFails(front, countryOf);
      assert forall i :: 0 <= i < |front| ==> front[i] == ws[i];
    }
  }

  /** The ISO codes found are distinct, never none, and exactly those of the countries visited. */
  lemma CountryIsosExact(ws: seq<CodeWaypoint>, countryOf: string -> Option<Countries.Country>)
    requires CountryIsos(ws, countryOf).Ok?
    ensures var isos := CountryIsos(ws, countryOf).value;
      NoDuplicates(isos) && (ws != [] ==> isos != []) &&
      forall x :: x in isos <==>
        exists i :: 0 <= i < |ws| && countryOf(ws[i].code).Some? && Countries.Iso3166(countryOf(ws[i].code).value) == x
  {
    CountryIsosDistinct(ws, countryOf);
    CountryIsosFound(ws, countryOf);
  }

  lemma {:induction false} CountryIsosDistinct(ws: seq<CodeWaypoint>, countryOf: string -> Option<Countries.Country>)
    requires CountryIsos(ws, countryOf).Ok?
    ensures NoDuplicates(CountryIsos(ws, countryOf).value)
    ensures ws != [] ==> CountryIsos(ws, countryOf).value != []
  {
    if ws != [] {
      var front := ws[..|ws| - 1];
      CountryIsosDistinct(front, countryOf);
      var before := CountryIsos(front, countryOf).value;
      var iso := Countries.Iso3166(countryOf(ws[|ws| - 1].code).value);
      if iso !in before {
        NoDuplicatesSnoc(before, iso);
      }
    }
  }

  lemma NoDuplicatesSnoc<T>(s: seq<T>, x: T)
    requires NoDuplicates(s) && x !in s
    ensures NoDuplicates(s + [x])
  {
    var t := s + [x];
    forall i, j | 0 <= i < j < |t|
      ensures t[i] != t[j]
    {
      if j == |s| {
        assert t[i] == s[i];
      }
    }
  }

  lemma {:induction false} CountryIsosFound(ws: seq<CodeWaypoint>, countryOf: string -> Option<Countries.Country>)
    requires CountryIsos(ws, countryOf).Ok?
    ensures forall x :: x in CountryIsos(ws, countryOf).value <==>
      exists i :: 0 <= i < |ws| && countryOf(ws[i].code).Some? && Countries.Iso3166(countryOf(ws[i].code).value) == x
  {
    if ws != [] {
      var front := ws[..|ws| - 1];
      CountryIsosFound(front, countryOf);
      assert forall i :: 0 <= i < |front| ==> front[i] == ws[i];
      var before := CountryIsos(front, countryOf).value;
      var last := |ws| - 1;
      var iso := Countries.Iso3166(countryOf(ws[last].code).value);
      var r := CountryIsos(ws, countryOf).value;
      assert r == if iso in before then before else before + [iso];
      forall x
        ensures x in r <==> exists i :: 0 <= i < |ws| && countryOf(ws[i].code).Some? && Countries.Iso3166(countryOf(ws[i].code).value) == x
      {
        if x in before {
          var i :| 0 <= i < |front| && countryOf(front[i].code).Some? && Countries.Iso3166(countryOf(front[i].code).value) == x;
          assert ws[i] == front[i];
        } else if x == iso {
          assert countryOf(ws[last].code).Some?;
        } else {
          assert x !in r;
          forall i | 0 <= i < |ws| && countryOf(ws[i].code).Some?
            ensures Countries.Iso3166(countryOf(ws[i].code).value) != x
          {
            if i < last {
              assert ws[i] == front[i];
            }
          }
        }
      }
    }
  }

  /** `max(tracks, key=rank).kind`: a kind of a track of highest rank. */
  function MaxRankKind(ts: seq<Track>): (r: TrackKind)
    requires ts != []
    ensures exists t :: t in ts && t.kind == r
    ensures forall t :: t in ts ==> Rank(t.kind) <= Rank(r)
  {
    if |ts| == 1 then ts[0].kind
    else
      var m := MaxRankKind(ts[1..]);
      assert ts == [ts[0]] + ts[1..];
      if Rank(m) > Rank(ts[0].kind) then m else ts[0].kind
  }

  /** `code_to_station[code].name if code in code_to_station else ''` when annotating, else None. */
  function LongName(ctx: Context, code: string): Option<string>
  {
    if !ctx.addAnnotations then None
    else if ctx.codeToStation.Some? && code in ctx.codeToStation.value then ctx.codeToStation.value[code].name
    else Some("")
  }

  /**
   * The path `from_route` emits on reaching the stop `current`: from the first waypoint visited since
   * the previous stop, over the tracks visited since then.
   */
  function MakePath(visited: seq<CodeWaypoint>, tracks: seq<Track>, current: CodeWaypoint, ctx: Context): Result<TcPath>
    requires visited != []
  {
    var last := visited[0];
    var length := current.distanceFromStart - last.distanceFromStart;
    var twisting :- TwistingOf(ctx, last.code, current.code, length);
    var isos :- CountryIsos(visited + [current], ctx.countryOf);
    if tracks == [] then Err(ValueError)
    else
      Ok(TcPath(
        start := Some(last.code),
        startLong := LongName(ctx, last.code),
        end := Some(current.code),
        endLong := LongName(ctx, current.code),
        name := None,
        electrified := Some(forall t :: t in tracks ==> t.electrified),
        group := Some(KindValue(MaxRankKind(tracks))),
        length := Some(Trunc(length)),
        maxSpeed := None,
        twistingFactor := twisting,
        sinuosity := None,
        neededEquipments := if isos != [] then Some(isos) else None,
        objects := NoSubPaths))
  }

  /** What a path made at a stop holds, and when making it fails. */
  lemma MakePathMeaning(visited: seq<CodeWaypoint>, tracks: seq<Track>, current: CodeWaypoint, ctx: Context)
    requires visited != []
    ensures var r := MakePath(visited, tracks, current, ctx);
      var length := current.distanceFromStart - visited[0].distanceFromStart;
      var isos := CountryIsos(visited + [current], ctx.countryOf);
      var twisting := TwistingOf(ctx, visited[0].code, current.code, length);
      (r.Err? <==> twisting.Err? || isos.Err? || tracks == [])
      && (r.Err? ==> r.error == if twisting.Err? then twisting.error else if isos.Err? then AttributeError else ValueError)
      && (r.Ok? ==>
            r.value.start == Some(visited[0].code) && r.value.end == Some(current.code) &&
            r.value.length == Some(Trunc(length)) &&
            r.value.electrified.Some? && (r.value.electrified.value <==> forall t :: t in tracks ==> t.electrified) &&
            (exists t :: t in tracks && r.value.group == Some(KindValue(t.kind)) &&
                         forall u :: u in tracks ==> Rank(u.kind) <= Rank(t.kind)) &&
            r.value.twistingFactor == twisting.value &&
            r.value.neededEquipments == Some(isos.value) &&
            r.value.startLong == LongName(ctx, visited[0].code) && r.value.endLong == LongName(ctx, current.code) &&
            r.value.name.None? && r.value.maxSpeed.None? && r.value.sinuosity.None? && r.value.objects.NoSubPaths?)
  {
    if CountryIsos(visited + [current], ctx.countryOf).Ok? {
      CountryIsosExact(visited + [current], ctx.countryOf);
    }
    if tracks != [] {
      var _ := MaxRankKind(tracks);
    }
  }

  lemma MakePathEnds(visited: seq<CodeWaypoint>, tracks: seq<Track>, current: CodeWaypoint, ctx: Context)
    requires visited != []
    ensures var r := MakePath(visited, tracks, current, ctx);
      r.Ok? ==> r.value.start == Some(visited[0].code) && r.value.end == Some(current.code)
  {
  }

  /** The last stop among the waypoints 1..k, or 0 when there is none: where the path under way began. */
  function Anchor(w: seq<CodeWaypoint>, k: nat): (r: nat)
    requires k < |w|
    ensures r <= k && (r == 0 || w[r].isStop)
    ensures forall j :: r < j <= k ==> !w[j].isStop
  {
    if k == 0 then 0 else if w[k].isStop then k else Anchor(w, k - 1)
  }

  /** The length of `zip(waypoints, tracks, waypoints[1:])`. */
  function PairCount(route: Route): (r: nat)
    ensures r == 0 || r < |route.waypoints|
    ensures r <= |route.tracks|
  {
    if |route.waypoints| == 0 then 0
    else if |route.waypoints| - 1 <= |route.tracks| then |route.waypoints| - 1
    else |route.tracks|
  }

  /** The paths `from_route` has emitted after the first `k` waypoint pairs. */
  function PathsUpTo(route: Route, k: nat, ctx: Context): Result<seq<TcPath>>
    requires k <= PairCount(route)
  {
    if k == 0 then Ok([])
    else
      var before :- PathsUpTo(route, k - 1, ctx);
      var w := route.waypoints;
      if w[k].isStop then
        var a := Anchor(w, k - 1);
        var p :- MakePath(w[a..k], Flatten(route.tracks[a..k]), w[k], ctx);
        Ok(before + [p])
      else Ok(before)
  }

  /** `TcPath.from_route(route, add_annotations, code_to_station)`. */
  function FromRouteSpec(route: Route, ctx: Context): Result<seq<TcPath>>
  {
    if ctx.addAnnotations && ctx.codeToStation.None? then Err(AssertionError)
    else PathsUpTo(route, PairCount(route), ctx)
  }

  /**
   * `TcPath.from_route`: walks the waypoint pairs, collecting visited waypoints and tracks, and emits a
   * path whenever the pair ends at a stop.
   */
  method FromRoute(route: Route, ctx: Context) returns (r: Result<seq<TcPath>>)
    ensures r == FromRouteSpec(route, ctx)
  {
    if ctx.addAnnotations && ctx.codeToStation.None? {
      return Err(AssertionError);
    }
    var w := route.waypoints;
    var n := PairCount(route);
    var paths: seq<TcPath> := [];
    var visitedWaypoints: seq<CodeWaypoint> := [];
    var visitedTracks: seq<Track> := [];
    for i := 0 to n
      invariant Walked(route, i, ctx, paths, visitedWaypoints, visitedTracks)
    {
      if w[i + 1].isStop {
        WalkEmits(route, i, ctx, paths, visitedWaypoints, visitedTracks);
      } else {
        WalkOn(route, i, ctx, paths, visitedWaypoints, visitedTracks);
      }
      visitedTracks := visitedTracks + route.tracks[i];
      visitedWaypoints := visitedWaypoints + [w[i]];
      if w[i + 1].isStop {
        var p := MakePath(visitedWaypoints, visitedTracks, w[i + 1], ctx);
        if p.Err? {
          return Err(p.error);
        }
        paths := paths + [p.value];
        visitedWaypoints := [];
        visitedTracks := [];
      }
    }
    return Ok(paths);
  }

  /** The state of the walk after `i` waypoint pairs: the paths emitted and the path under way. */
  ghost predicate Walked(route: Route, i: nat, ctx: Context, paths: seq<TcPath>, visitedWaypoints: seq<CodeWaypoint>, visitedTracks: seq<Track>)
    requires i <= PairCount(route)
  {
    var w := route.waypoints;
    && PathsUpTo(route, i, ctx) == Ok(paths)
    && (0 < |w| ==> visitedWaypoints == w[Anchor(w, i)..i] && visitedTracks == Flatten(route.tracks[Anchor(w, i)..i]))
  }

  /** A pass that does not end at a stop extends the path under way. */
  lemma WalkOn(route: Route, i: nat, ctx: Context, paths: seq<TcPath>, visitedWaypoints: seq<CodeWaypoint>, visitedTracks: seq<Track>)
    requires i < PairCount(route) && Walked(route, i, ctx, paths, visitedWaypoints, visitedTracks)
    requires !route.waypoints[i + 1].isStop
    ensures Walked(route, i + 1, ctx, paths, visitedWaypoints + [route.waypoints[i]], visitedTracks + route.tracks[i])
  {
    FromRouteStep(route, i, ctx);
  }

  /** A pass that ends at a stop emits the path under way, or ends the walk with its error. */
  lemma WalkEmits(route: Route, i: nat, ctx: Context, paths: seq<TcPath>, visitedWaypoints: seq<CodeWaypoint>, visitedTracks: seq<Track>)
    requires i < PairCount(route) && Walked(route, i, ctx, paths, visitedWaypoints, visitedTracks)
    requires route.waypoints[i + 1].isStop
    ensures var w := route.waypoints;
      var p := MakePath(visitedWaypoints + [w[i]], visitedTracks + route.tracks[i], w[i + 1], ctx);
      (p.Err? ==> PathsUpTo(route, PairCount(route), ctx) == Err(p.error))
      && (p.Ok? ==> Walked(route, i + 1, ctx, paths + [p.value], [], []))
  {
    FromRouteStep(route, i, ctx);
    var w := route.waypoints;
    var p := MakePath(visitedWaypoints + [w[i]], visitedTracks + route.tracks[i], w[i + 1], ctx);
    if p.Err? {
      PathsErrorPersists(route, i + 1, PairCount(route), ctx);
    } else {
      EmptyTail(route, i + 1);
    }
  }

  lemma EmptyTail(route: Route, j: nat)
    requires j <= |route.waypoints| && j <= |route.tracks|
    ensures route.waypoints[j..j] == [] && Flatten(route.tracks[j..j]) == []
  {
    assert route.tracks[j..j] == [];
  }

  /** One waypoint pair further: the visited waypoints and tracks grow by one, and a stop emits a path. */
  lemma FromRouteStep(route: Route, i: nat, ctx: Context)
    requires i < PairCount(route)
    requires PathsUpTo(route, i, ctx).Ok?
    ensures var w := route.waypoints;
      var a := Anchor(w, i);
      w[a..i + 1] == w[a..i] + [w[i]]
      && Flatten(route.tracks[a..i + 1]) == Flatten(route.tracks[a..i]) + route.tracks[i]
      && Anchor(w, i + 1) == (if w[i + 1].isStop then i + 1 else a)
      && PathsUpTo(route, i + 1, ctx) ==
           if !w[i + 1].isStop then PathsUpTo(route, i, ctx)
           else
             var p := MakePath(w[a..i + 1], Flatten(route.tracks[a..i + 1]), w[i + 1], ctx);
             if p.Err? then Err(p.error) else Ok(PathsUpTo(route, i, ctx).value + [p.value])
  {
    var a := Anchor(route.waypoints, i);
    SliceSnoc(route.waypoints, a, i);
    FlattenSliceSnoc(route.tracks, a, i);
  }

  lemma FlattenSliceSnoc(tss: seq<seq<Track>>, a: nat, i: nat)
    requires a <= i < |tss|
    ensures Flatten(tss[a..i + 1]) == Flatten(tss[a..i]) + tss[i]
  {
    assert tss[a..i + 1][..i - a] == tss[a..i];
  }

  /** An error at some waypoint pair is the error of the whole walk. */
  lemma {:induction false} PathsErrorPersists(route: Route, k: nat, m: nat, ctx: Context)
    requires k <= m <= PairCount(route)
    requires PathsUpTo(route, k, ctx).Err?
    ensures PathsUpTo(route, m, ctx) == PathsUpTo(route, k, ctx)
  {
    if k < m {
      PathsErrorPersists(route, k, m - 1, ctx);
      assert PathsUpTo(route, m, ctx) == PathsUpTo(route, m - 1, ctx);
    }
  }

  /** The number of stops among `ws`. */
  function StopCount(ws: seq<CodeWaypoint>): nat
  {
    if ws == [] then 0 else StopCount(ws[..|ws| - 1]) + (if ws[|ws| - 1].isStop then 1 else 0)
  }

  /** `from_route` emits exactly one path per stop among the waypoints after the first. */
  lemma {:induction false} PathsPerStop(route: Route, k: nat, ctx: Context)
    requires k <= PairCount(route)
    requires PathsUpTo(route, k, ctx).Ok?
    ensures |PathsUpTo(route, k, ctx).value| == if k == 0 then 0 else StopCount(route.waypoints[1..k + 1])
  {
    if k > 0 {
      PathsPerStop(route, k - 1, ctx);
      var w := route.waypoints;
      assert w[1..k + 1][..k - 1] == w[1..k];
    }
  }

  /**
   * Paths that chain up along the walk: the first starts at the first waypoint, each later one
   * starts where the one before ended, and the last ends where the path under way begins (no path
   * is emitted before the first stop).
   */
  ghost predicate Chained(w: seq<CodeWaypoint>, k: nat, ps: seq<TcPath>)
    requires k == 0 || k < |w|
  {
    && (k == 0 ==> |ps| == 0)
    && (k > 0 ==>
          && (|ps| == 0 ==> Anchor(w, k) == 0)
          && (|ps| > 0 ==> ps[0].start == Some(w[0].code) && ps[|ps| - 1].end == Some(w[Anchor(w, k)].code))
          && forall m :: 0 < m < |ps| ==> ps[m].start == ps[m - 1].end)
  }

  /** The paths emitted along the walk chain up. */
  lemma {:induction false} PathsChain(route: Route, k: nat, ctx: Context)
    requires k <= PairCount(route)
    requires PathsUpTo(route, k, ctx).Ok?
    ensures Chained(route.waypoints, k, PathsUpTo(route, k, ctx).value)
  {
    if k > 0 {
      PathsChain(route, k - 1, ctx);
      if route.waypoints[k].isStop {
        ChainAtStop(route, k, ctx);
      } else {
        ChainPastWaypoint(route, k, ctx);
      }
    }
  }

  lemma ChainAtStop(route: Route, k: nat, ctx: Context)
    requires 0 < k <= PairCount(route) && route.waypoints[k].isStop
    requires PathsUpTo(route, k, ctx).Ok?
    requires Chained(route.waypoints, k - 1, PathsUpTo(route, k - 1, ctx).value)
    ensures Chained(route.waypoints, k, PathsUpTo(route, k, ctx).value)
  {
    var w := route.waypoints;
    var before := PathsUpTo(route, k - 1, ctx).value;
    var a := Anchor(w, k - 1);
    var p := MakePath(w[a..k], Flatten(route.tracks[a..k]), w[k], ctx);
    MakePathEnds(w[a..k], Flatten(route.tracks[a..k]), w[k], ctx);
    assert PathsUpTo(route, k, ctx).value == before + [p.value];
    assert |before| == 0 ==> a == 0;
  }

  lemma ChainPastWaypoint(route: Route, k: nat, ctx: Context)
    requires 0 < k <= PairCount(route) && !route.waypoints[k].isStop
    requires PathsUpTo(route, k, ctx).Ok?
    requires Chained(route.waypoints, k - 1, PathsUpTo(route, k - 1, ctx).value)
    ensures Chained(route.waypoints, k, PathsUpTo(route, k, ctx).value)
  {
    assert PathsUpTo(route, k, ctx).value == PathsUpTo(route, k - 1, ctx).value;
  }

  // ---------------------------------------------------------------------------------------------
  // Hoisting shared attributes into a parent path

  /** The attributes of a path, in the order the dataclass declares them. */
  datatype PathField =
    | Start | StartLong | End | EndLong | PathName | Electrified | PathGroup | Length
    | MaxSpeed | TwistingFactor | Sinuosity | NeededEquipments | Objects

  const PathFields: seq<PathField> :=
    [Start, StartLong, End, EndLong, PathName, Electrified, PathGroup, Length,
     MaxSpeed, TwistingFactor, Sinuosity, NeededEquipments, Objects]

  function FieldIndex(f: PathField): (i: nat)
    ensures i < |PathFields| && PathFields[i] == f
  {
    match f
    case Start => 0
    case StartLong => 1
    case End => 2
    case EndLong => 3
    case PathName => 4
    case Electrified => 5
    case PathGroup => 6
    case Length => 7
    case MaxSpeed => 8
    case TwistingFactor => 9
    case Sinuosity => 10
    case NeededEquipments => 11
    case Objects => 12
  }

  lemma PathFieldsListed()
    ensures NoDuplicates(PathFields) && forall f: PathField :: f in PathFields
  {
    forall f: PathField
      ensures f in PathFields
    {
      var _ := FieldIndex(f);
    }
  }

  /** The value of one attribute, as `__getattribute__` sees it; `Absent` is None. */
  datatype Attr =
    | Absent
    | AText(text: string)
    | AFlag(flag: bool)
    | ANumber(number: int)
    | AReal(x: real)
    | ATexts(texts: seq<string>)
    | APaths(paths: seq<TcPath>)

  function TextAttr(o: Option<string>): Attr { if o.Some? then AText(o.value) else Absent }

  function AttrOf(p: TcPath, f: PathField): Attr
  {
    match f
    case Start => TextAttr(p.start)
    case StartLong => TextAttr(p.startLong)
    case End => TextAttr(p.end)
    case EndLong => TextAttr(p.endLong)
    case PathName => TextAttr(p.name)
    case Electrified => if p.electrified.Some? then AFlag(p.electrified.value) else Absent
    case PathGroup => if p.group.Some? then ANumber(p.group.value) else Absent
    case Length => if p.length.Some? then ANumber(p.length.value) else Absent
    case MaxSpeed => if p.maxSpeed.Some? then ANumber(p.maxSpeed.value) else Absent
    case TwistingFactor => if p.twistingFactor.Some? then AReal(p.twistingFactor.value) else Absent
    case Sinuosity => if p.sinuosity.Some? then AReal(p.sinuosity.value) else Absent
    case NeededEquipments => if p.neededEquipments.Some? then ATexts(p.neededEquipments.value) else Absent
    case Objects => if p.objects.SubPaths? then APaths(p.objects.paths) else Absent
  }

  /** An attribute value of the right type for the field (or None). */
  predicate Fits(f: PathField, a: Attr)
  {
    match f
    case Start => a.Absent? || a.AText?
    case StartLong => a.Absent? || a.AText?
    case End => a.Absent? || a.AText?
    case EndLong => a.Absent? || a.AText?
    case PathName => a.Absent? || a.AText?
    case Electrified => a.Absent? || a.AFlag?
    case PathGroup => a.Absent? || a.ANumber?
    case Length => a.Absent? || a.ANumber?
    case MaxSpeed => a.Absent? || a.ANumber?
    case TwistingFactor => a.Absent? || a.AReal?
    case Sinuosity => a.Absent? || a.AReal?
    case NeededEquipments => a.Absent? || a.ATexts?
    case Objects => a.Absent? || a.APaths?
  }

  function AsText(a: Attr): Option<string> { if a.AText? then Some(a.text) else None }

  /** `__setattr__`: replaces one attribute and keeps the others. */
  function WithAttr(p: TcPath, f: PathField, a: Attr): (r: TcPath)
    requires Fits(f, a)
    ensures AttrOf(r, f) == a
    ensures forall g :: g != f ==> AttrOf(r, g) == AttrOf(p, g)
  {
    match f
    case Start => p.(start := AsText(a))
    case StartLong => p.(startLong := AsText(a))
    case End => p.(end := AsText(a))
    case EndLong => p.(endLong := AsText(a))
    case PathName => p.(name := AsText(a))
    case Electrified => p.(electrified := if a.AFlag? then Some(a.flag) else None)
    case PathGroup => p.(group := if a.ANumber? then Some(a.number) else None)
    case Length => p.(length := if a.ANumber? then Some(a.number) else None)
    case MaxSpeed => p.(maxSpeed := if a.ANumber? then Some(a.number) else None)
    case TwistingFactor => p.(twistingFactor := if a.AReal? then Some(a.x) else None)
    case Sinuosity => p.(sinuosity := if a.AReal? then Some(a.x) else None)
    case NeededEquipments => p.(neededEquipments := if a.ATexts? then Some(a.texts) else None)
    case Objects => p.(objects := if a.APaths? then SubPaths(a.paths) else NoSubPaths)
  }

  lemma AttrOfFits(p: TcPath, f: PathField)
    ensures Fits(f, AttrOf(p, f))
  {
  }

  /** All paths agree on the attribute (checked against the first path). */
  predicate Shared(paths: seq<TcPath>, f: PathField)
    requires paths != []
  {
    forall j :: 0 <= j < |paths| ==> AttrOf(paths[j], f) == AttrOf(paths[0], f)
  }

  /** The parent path after the attributes `fs` were considered. */
  function Hoisted(paths: seq<TcPath>, fs: seq<PathField>): TcPath
    requires paths != []
  {
    if fs == [] then BlankPath
    else
      var main := Hoisted(paths, fs[..|fs| - 1]);
      var f := fs[|fs| - 1];
      var base := AttrOf(paths[0], f);
      AttrOfFits(paths[0], f);
      if Shared(paths, f) && base != Absent then WithAttr(main, f, base) else main
  }

  /** A sub-path after the attributes `fs` were considered: every shared one is cleared. */
  function Cleared(p: TcPath, paths: seq<TcPath>, fs: seq<PathField>): TcPath
    requires paths != []
  {
    if fs == [] then p
    else
      var q := Cleared(p, paths, fs[..|fs| - 1]);
      var f := fs[|fs| - 1];
      if Shared(paths, f) then WithAttr(q, f, Absent) else q
  }

  /** `TcPath.merge(paths)`, as a value. */
  function Merged(paths: seq<TcPath>): TcPath
    requires paths != []
  {
    var main := Hoisted(paths, PathFields);
    var withSubs := main.(objects := SubPaths(ClearedPaths(paths)));
    var withSpeed := if withSubs.maxSpeed.None? then withSubs.(maxSpeed := Some(0)) else withSubs;
    if withSpeed.twistingFactor.None? then withSpeed.(twistingFactor := Some(0.0)) else withSpeed
  }

  /** The paths after merging, each with the shared attributes cleared. */
  function ClearedPaths(paths: seq<TcPath>): (r: seq<TcPath>)
    requires paths != []
    ensures |r| == |paths| && forall j :: 0 <= j < |paths| ==> r[j] == Cleared(paths[j], paths, PathFields)
  {
    seq(|paths|, j requires 0 <= j < |paths| => Cleared(paths[j], paths, PathFields))
  }

  lemma {:induction false} HoistedAttr(paths: seq<TcPath>, fs: seq<PathField>, f: PathField)
    requires paths != [] && NoDuplicates(fs)
    ensures AttrOf(Hoisted(paths, fs), f) == if f in fs && Shared(paths, f) then AttrOf(paths[0], f) else Absent
  {
    if fs != [] {
      var front := fs[..|fs| - 1];
      assert NoDuplicates(front);
      HoistedAttr(paths, front, f);
      InFront(fs, f);
    }
  }

  lemma {:induction false} ClearedAttr(p: TcPath, paths: seq<TcPath>, fs: seq<PathField>, f: PathField)
    requires paths != [] && NoDuplicates(fs)
    ensures AttrOf(Cleared(p, paths, fs), f) == if f in fs && Shared(paths, f) then Absent else AttrOf(p, f)
  {
    if fs != [] {
      var front := fs[..|fs| - 1];
      assert NoDuplicates(front);
      ClearedAttr(p, paths, front, f);
      InFront(fs, f);
    }
  }

  /**
   * `TcPath.merge`: every attribute all paths share moves to a new parent path (when it is not
   * None) and is cleared in the paths, which become the parent's objects; the parent's maxSpeed
   * and twistingFactor default to 0. An empty list raises IndexError at `paths[0]`.
   */
  method Merge(paths: seq<TcPath>) returns (r: Result<TcPath>)
    ensures paths == [] ==> r == Err(IndexError)
    ensures paths != [] ==> r == Ok(Merged(paths))
  {
    if paths == [] {
      return Err(IndexError);
    }
    PathFieldsListed();
    var main := BlankPath;
    var subs := paths;
    var k := 0;
    ghost var done: seq<PathField> := [];
    while k < |PathFields|
      invariant 0 <= k <= |PathFields| && done == PathFields[..k]
      invariant main == Hoisted(paths, done)
      invariant |subs| == |paths|
      invariant forall j :: 0 <= j < |paths| ==> subs[j] == Cleared(paths[j], paths, done)
    {
      var f := PathFields[k];
      assert NoDuplicates(done) && f !in done;
      main, subs := HoistOne(paths, done, main, subs, f);
      PrefixNext(done, f);
      done := done + [f];
      k := k + 1;
    }
    assert done == PathFields;
    assert subs == ClearedPaths(paths);
    main := main.(objects := SubPaths(subs));
    if main.maxSpeed.None? {
      main := main.(maxSpeed := Some(0));
    }
    if main.twistingFactor.None? {
      main := main.(twistingFactor := Some(0.0));
    }
    return Ok(main);
  }

  /** One attribute of `TcPath.merge`: when all paths share it, it moves to the parent (unless None) and is cleared in every path. */
  method HoistOne(paths: seq<TcPath>, ghost done: seq<PathField>, main: TcPath, subs: seq<TcPath>, f: PathField)
    returns (main': TcPath, subs': seq<TcPath>)
    requires paths != [] && NoDuplicates(done) && f !in done
    requires main == Hoisted(paths, done)
    requires |subs| == |paths| && forall j :: 0 <= j < |paths| ==> subs[j] == Cleared(paths[j], paths, done)
    ensures main' == Hoisted(paths, done + [f])
    ensures |subs'| == |paths| && forall j :: 0 <= j < |paths| ==> subs'[j] == Cleared(paths[j], paths, done + [f])
  {
    PrefixNext(done, f);
    forall j | 0 <= j < |paths|
      ensures AttrOf(subs[j], f) == AttrOf(paths[j], f)
    {
      ClearedAttr(paths[j], paths, done, f);
    }
    var base := AttrOf(subs[0], f);
    var shared := forall j :: 0 <= j < |subs| ==> AttrOf(subs[j], f) == base;
    assert shared == Shared(paths, f);
    main', subs' := main, subs;
    if shared {
      AttrOfFits(subs[0], f);
      if base != Absent {
        main' := WithAttr(main, f, base);
      }
      subs' := ClearAll(subs, f);
    }
  }

  lemma PrefixNext(fs: seq<PathField>, f: PathField)
    ensures (fs + [f])[..|fs|] == fs && (fs + [f])[|fs|] == f
  {
  }

  lemma HoistedNext(paths: seq<TcPath>, k: nat)
    requires paths != [] && k < |PathFields|
    ensures var f := PathFields[k];
      var main := Hoisted(paths, PathFields[..k]);
      var base := AttrOf(paths[0], f);
      Fits(f, base) &&
      Hoisted(paths, PathFields[..k + 1]) == if Shared(paths, f) && base != Absent then WithAttr(main, f, base) else main
  {
    AttrOfFits(paths[0], PathFields[k]);
    assert PathFields[..k + 1][..k] == PathFields[..k];
  }

  lemma ClearedNext(p: TcPath, paths: seq<TcPath>, k: nat)
    requires paths != [] && k < |PathFields|
    ensures var f := PathFields[k];
      var q := Cleared(p, paths, PathFields[..k]);
      Cleared(p, paths, PathFields[..k + 1]) == if Shared(paths, f) then WithAttr(q, f, Absent) else q
  {
    assert PathFields[..k + 1][..k] == PathFields[..k];
  }

  /** Sets one attribute of every path to None. */
  method ClearAll(paths: seq<TcPath>, f: PathField) returns (r: seq<TcPath>)
    ensures |r| == |paths| && forall h :: 0 <= h < |paths| ==> r[h] == WithAttr(paths[h], f, Absent)
  {
    r := paths;
    var j := 0;
    while j < |r|
      invariant 0 <= j <= |r| == |paths|
      invariant forall h :: 0 <= h < j ==> r[h] == WithAttr(paths[h], f, Absent)
      invariant forall h :: j <= h < |paths| ==> r[h] == paths[h]
    {
      r := r[j := WithAttr(r[j], f, Absent)];
      j := j + 1;
    }
  }

  /** Attributes that the parent keeps as hoisted, without a default of its own. */
  predicate Plain(f: PathField)
  {
    f != MaxSpeed && f != TwistingFactor && f != Objects
  }

  /**
   * What merging does to each attribute: a shared one sits on the parent and in none of the
   * sub-paths, any other stays in its sub-path and not on the parent.
   */
  lemma MergeHoists(paths: seq<TcPath>, f: PathField)
    requires paths != []
    ensures var m := Merged(paths);
      m.objects.SubPaths? && |m.objects.paths| == |paths|
      && (Plain(f) ==> AttrOf(m, f) == if Shared(paths, f) then AttrOf(paths[0], f) else Absent)
      && forall j :: 0 <= j < |paths| ==>
           AttrOf(m.objects.paths[j], f) == if Shared(paths, f) then Absent else AttrOf(paths[j], f)
  {
    PathFieldsListed();
    if Plain(f) {
      HoistedAttr(paths, PathFields, f);
      MergedPlainAttr(paths, f);
    }
    MergedSubPaths(paths, f);
  }

  /** The parent keeps a plain attribute as hoisting left it. */
  lemma MergedPlainAttr(paths: seq<TcPath>, f: PathField)
    requires paths != [] && Plain(f)
    ensures AttrOf(Merged(paths), f) == AttrOf(Hoisted(paths, PathFields), f)
  {
  }

  /** The parent's objects are the paths with the shared attributes cleared. */
  lemma MergedSubPaths(paths: seq<TcPath>, f: PathField)
    requires paths != []
    ensures var m := Merged(paths);
      m.objects.SubPaths? && |m.objects.paths| == |paths|
      && forall j :: 0 <= j < |paths| ==>
           AttrOf(m.objects.paths[j], f) == if Shared(paths, f) then Absent else AttrOf(paths[j], f)
  {
    PathFieldsListed();
    forall j | 0 <= j < |paths|
      ensures AttrOf(Cleared(paths[j], paths, PathFields), f) == if Shared(paths, f) then Absent else AttrOf(paths[j], f)
    {
      ClearedAttr(paths[j], paths, PathFields, f);
    }
  }

  /** The parent's maxSpeed and twistingFactor: the shared value, or 0 when none is shared. */
  lemma MergeDefaults(paths: seq<TcPath>)
    requires paths != []
    ensures var m := Merged(paths);
      m.maxSpeed == (if Shared(paths, MaxSpeed) && paths[0].maxSpeed.Some? then paths[0].maxSpeed else Some(0))
      && m.twistingFactor ==
           (if Shared(paths, TwistingFactor) && paths[0].twistingFactor.Some? then paths[0].twistingFactor else Some(0.0))
  {
    PathFieldsListed();
    HoistedAttr(paths, PathFields, MaxSpeed);
    HoistedAttr(paths, PathFields, TwistingFactor);
  }

  /** An attribute of a sub-path read through its parent: its own value, else the parent's. */
  function Inherited(parent: TcPath, sub: TcPath, f: PathField): Attr
  {
    if AttrOf(sub, f) != Absent then AttrOf(sub, f) else AttrOf(parent, f)
  }

  /** Reading through the parent gives back every attribute the path had before merging. */
  lemma MergeRestores(paths: seq<TcPath>, j: nat, f: PathField)
    requires j < |paths| && Plain(f)
    ensures var m := Merged(paths);
      m.objects.SubPaths? && j < |m.objects.paths| && Inherited(m, m.objects.paths[j], f) == AttrOf(paths[j], f)
  {
    MergeHoists(paths, f);
  }

  // ---------------------------------------------------------------------------------------------
  // The dictionary form of a path

  /** The dictionary key of each attribute: the dataclass's field name. */
  function KeyName(f: PathField): string
  {
    match f
    case Start => "start"
    case StartLong => "start_long"
    case End => "end"
    case EndLong => "end_long"
    case PathName => "name"
    case Electrified => "electrified"
    case PathGroup => "group"
    case Length => "length"
    case MaxSpeed => "maxSpeed"
    case TwistingFactor => "twistingFactor"
    case Sinuosity => "sinuosity"
    case NeededEquipments => "neededEquipments"
    case Objects => "objects"
  }

  function FieldNamed(k: string): Option<PathField>
  {
    match k
    case "start" => Some(Start)
    case "start_long" => Some(StartLong)
    case "end" => Some(End)
    case "end_long" => Some(EndLong)
    case "name" => Some(PathName)
    case "electrified" => Some(Electrified)
    case "group" => Some(PathGroup)
    case "length" => Some(Length)
    case "maxSpeed" => Some(MaxSpeed)
    case "twistingFactor" => Some(TwistingFactor)
    case "sinuosity" => Some(Sinuosity)
    case "neededEquipments" => Some(NeededEquipments)
    case "objects" => Some(Objects)
    case _ => None
  }

  lemma KeyNameNames(f: PathField, g: PathField)
    ensures FieldNamed(KeyName(f)) == Some(f)
    ensures KeyName(f) == KeyName(g) ==> f == g
  {
    assert FieldNamed(KeyName(g)) == Some(g);
  }

  /** `to_dict`: the attributes that are not None, with the sub-paths turned into dictionaries in turn. */
  function ToDict(p: TcPath): Dict
    decreases p, 2, 0
  {
    Entries(p, PathFields)
  }

  /** The entries of the attributes `fs` that are not None. */
  function Entries(p: TcPath, fs: seq<PathField>): Dict
    decreases p, 1, |fs|
  {
    if fs == [] then map[]
    else
      var d := Entries(p, fs[..|fs| - 1]);
      var f := fs[|fs| - 1];
      if AttrOf(p, f) != Absent then d[KeyName(f) := Encode(p, f)] else d
  }

  /** The JSON value of one attribute. */
  function Encode(p: TcPath, f: PathField): Value
    decreases p, 0, 0
  {
    match f
    case Start => if p.start.Some? then Str(p.start.value) else Null
    case StartLong => if p.startLong.Some? then Str(p.startLong.value) else Null
    case End => if p.end.Some? then Str(p.end.value) else Null
    case EndLong => if p.endLong.Some? then Str(p.endLong.value) else Null
    case PathName => if p.name.Some? then Str(p.name.value) else Null
    case Electrified => if p.electrified.Some? then Bool(p.electrified.value) else Null
    case PathGroup => if p.group.Some? then Int(p.group.value) else Null
    case Length => if p.length.Some? then Int(p.length.value) else Null
    case MaxSpeed => if p.maxSpeed.Some? then Int(p.maxSpeed.value) else Null
    case TwistingFactor => if p.twistingFactor.Some? then Float(p.twistingFactor.value) else Null
    case Sinuosity => if p.sinuosity.Some? then Float(p.sinuosity.value) else Null
    case NeededEquipments =>
      if p.neededEquipments.Some? then
        var ss := p.neededEquipments.value;
        Arr(seq(|ss|, i requires 0 <= i < |ss| => Str(ss[i])))
      else Null
    case Objects =>
      if p.objects.SubPaths? then
        var ps := p.objects.paths;
        Arr(seq(|ps|, i requires 0 <= i < |ps| => Obj(ToDict(ps[i]))))
      else Null
  }

  lemma {:induction false} EntriesKeys(p: TcPath, fs: seq<PathField>, f: PathField)
    requires NoDuplicates(fs)
    ensures KeyName(f) in Entries(p, fs) <==> f in fs && AttrOf(p, f) != Absent
    ensures KeyName(f) in Entries(p, fs) ==> Entries(p, fs)[KeyName(f)] == Encode(p, f)
  {
    if fs != [] {
      var front := fs[..|fs| - 1];
      assert NoDuplicates(front);
      EntriesKeys(p, front, f);
      KeyNameNames(f, fs[|fs| - 1]);
      InFront(fs, f);
    }
  }


  /**
   * The key of an attribute is in the dictionary exactly when the attribute is not None, and holds
   * the attribute's value.
   */
  lemma ToDictKeys(p: TcPath, f: PathField)
    ensures KeyName(f) in ToDict(p) <==> AttrOf(p, f) != Absent
    ensures KeyName(f) in ToDict(p) ==> ToDict(p)[KeyName(f)] == Encode(p, f)
  {
    PathFieldsListed();
    EntriesKeys(p, PathFields, f);
  }

  /** Reading a path back from its dictionary (the keyword arguments of `TcPath(**d)`). */
  function FromDict(v: Value): TcPath
    decreases v, 2, 0
  {
    if v.Obj? then Filled(v, PathFields) else BlankPath
  }

  function Filled(v: Value, fs: seq<PathField>): TcPath
    requires v.Obj?
    decreases v, 1, |fs|
  {
    if fs == [] then BlankPath
    else WithAttr(Filled(v, fs[..|fs| - 1]), fs[|fs| - 1], Decoded(v, fs[|fs| - 1]))
  }

  /** The attribute an entry of the dictionary gives (None when the key is missing). */
  function Decoded(v: Value, f: PathField): (a: Attr)
    requires v.Obj?
    ensures Fits(f, a)
    decreases v, 0, 0
  {
    var d := v.fields;
    var k := KeyName(f);
    if k !in d then Absent
    else
      var x := d[k];
      match f
      case Start => if x.Str? then AText(x.s) else Absent
      case StartLong => if x.Str? then AText(x.s) else Absent
      case End => if x.Str? then AText(x.s) else Absent
      case EndLong => if x.Str? then AText(x.s) else Absent
      case PathName => if x.Str? then AText(x.s) else Absent
      case Electrified => if x.Bool? then AFlag(x.b) else Absent
      case PathGroup => if x.Int? then ANumber(x.i) else Absent
      case Length => if x.Int? then ANumber(x.i) else Absent
      case MaxSpeed => if x.Int? then ANumber(x.i) else Absent
      case TwistingFactor => if x.Float? then AReal(x.r) else Absent
      case Sinuosity => if x.Float? then AReal(x.r) else Absent
      case NeededEquipments =>
        if x.Arr? then
          var xs := x.items;
          ATexts(seq(|xs|, i requires 0 <= i < |xs| => if xs[i].Str? then xs[i].s else ""))
        else Absent
      case Objects =>
        if x.Arr? then
          var xs := x.items;
          APaths(seq(|xs|, i requires 0 <= i < |xs| => FromDict(xs[i])))
        else Absent
  }

  lemma {:induction false} FilledAttr(v: Value, fs: seq<PathField>, f: PathField)
    requires v.Obj? && NoDuplicates(fs)
    ensures AttrOf(Filled(v, fs), f) == if f in fs then Decoded(v, f) else Absent
  {
    if fs != [] {
      var front := fs[..|fs| - 1];
      assert NoDuplicates(front);
      FilledAttr(v, front, f);
      assert fs == front + [fs[|fs| - 1]];
    }
  }

  /** Two paths with the same attributes are the same path. */
  lemma AttrsDetermine(a: TcPath, b: TcPath)
    requires forall f :: AttrOf(a, f) == AttrOf(b, f)
    ensures a == b
  {
    assert a.start == b.start by { assert AttrOf(a, Start) == AttrOf(b, Start); }
    assert a.startLong == b.startLong by { assert AttrOf(a, StartLong) == AttrOf(b, StartLong); }
    assert a.end == b.end by { assert AttrOf(a, End) == AttrOf(b, End); }
    assert a.endLong == b.endLong by { assert AttrOf(a, EndLong) == AttrOf(b, EndLong); }
    assert a.name == b.name by { assert AttrOf(a, PathName) == AttrOf(b, PathName); }
    assert a.electrified == b.electrified by { assert AttrOf(a, Electrified) == AttrOf(b, Electrified); }
    assert a.group == b.group by { assert AttrOf(a, PathGroup) == AttrOf(b, PathGroup); }
    assert a.length == b.length by { assert AttrOf(a, Length) == AttrOf(b, Length); }
    assert a.maxSpeed == b.maxSpeed by { assert AttrOf(a, MaxSpeed) == AttrOf(b, MaxSpeed); }
    assert a.twistingFactor == b.twistingFactor by { assert AttrOf(a, TwistingFactor) == AttrOf(b, TwistingFactor); }
    assert a.sinuosity == b.sinuosity by { assert AttrOf(a, Sinuosity) == AttrOf(b, Sinuosity); }
    assert a.neededEquipments == b.neededEquipments by { assert AttrOf(a, NeededEquipments) == AttrOf(b, NeededEquipments); }
    assert a.objects == b.objects by { assert AttrOf(a, Objects) == AttrOf(b, Objects); }
  }

  lemma {:induction false} DecodedRoundTrip(p: TcPath, f: PathField)
    ensures Decoded(Obj(ToDict(p)), f) == AttrOf(p, f)
    decreases p, 0
  {
    ToDictKeys(p, f);
    if f == NeededEquipments && p.neededEquipments.Some? {
      var ss := p.neededEquipments.value;
      assert Decoded(Obj(ToDict(p)), f).texts == ss;
    }
    if f == Objects && p.objects.SubPaths? {
      var ps := p.objects.paths;
      forall i | 0 <= i < |ps|
        ensures FromDict(Obj(ToDict(ps[i]))) == ps[i]
      {
        DictRoundTrip(ps[i]);
      }
      assert Decoded(Obj(ToDict(p)), f).paths == ps;
    }
  }

  /** A path's dictionary reads back as the same path, sub-paths included. */
  lemma {:induction false} DictRoundTrip(p: TcPath)
    ensures FromDict(Obj(ToDict(p))) == p
    decreases p, 1
  {
    PathFieldsListed();
    var q := FromDict(Obj(ToDict(p)));
    forall f
      ensures AttrOf(q, f) == AttrOf(p, f)
    {
      FilledAttr(Obj(ToDict(p)), PathFields, f);
      DecodedRoundTrip(p, f);
    }
    AttrsDetermine(q, p);
  }

  // ---------------------------------------------------------------------------------------------
  // A route as the game stores it

  /** The stations a route stops at and the merged path over it. */
  datatype TcRoute = TcRoute(stations: seq<Station>, path: TcPath)

  /** `invalid_station(code)`: a placeholder station that has only the code. */
  function InvalidStation(code: string): (r: Station)
    ensures r.codes == [code] && r.name.None? && r.number.None? && r.location.None?
  {
    EmptyStation.(codes := [code])
  }

  /** The dictionary's station for a waypoint's code, else a placeholder for the code. */
  function StationOf(w: CodeWaypoint, codeToStation: map<string, Station>): Station
  {
    if w.code in codeToStation then codeToStation[w.code] else InvalidStation(w.code)
  }

  /** The station of each stop, in route order. */
  function StopStations(ws: seq<CodeWaypoint>, codeToStation: map<string, Station>): seq<Station>
  {
    if ws == [] then []
    else
      var w := ws[|ws| - 1];
      var before := StopStations(ws[..|ws| - 1], codeToStation);
      if w.isStop then before + [StationOf(w, codeToStation)] else before
  }

  predicate StationOfSomeStop(ws: seq<CodeWaypoint>, codeToStation: map<string, Station>, s: Station)
  {
    exists j :: 0 <= j < |ws| && ws[j].isStop && s == StationOf(ws[j], codeToStation)
  }

  /** One station per stop, each the station of some stop. */
  lemma {:induction false} StopStationsMatch(ws: seq<CodeWaypoint>, codeToStation: map<string, Station>)
    ensures |StopStations(ws, codeToStation)| == StopCount(ws)
    ensures forall i :: 0 <= i < |StopStations(ws, codeToStation)| ==>
      StationOfSomeStop(ws, codeToStation, StopStations(ws, codeToStation)[i])
  {
    if ws != [] {
      var front := ws[..|ws| - 1];
      StopStationsMatch(front, codeToStation);
      forall i | 0 <= i < |StopStations(ws, codeToStation)|
        ensures StationOfSomeStop(ws, codeToStation, StopStations(ws, codeToStation)[i])
      {
        if i < |StopStations(front, codeToStation)| {
          assert StationOfSomeStop(front, codeToStation, StopStations(front, codeToStation)[i]);
          var j :| 0 <= j < |front| && front[j].isStop && StopStations(front, codeToStation)[i] == StationOf(front[j], codeToStation);
          assert ws[j] == front[j];
        } else {
          assert ws[|ws| - 1].isStop;
        }
      }
    }
  }

  /** `TcRoute.from_route`, given the code-to-station dictionary the station list yields. */
  function TcRouteSpec(route: Route, codeToStation: map<string, Station>, ctx: Context): Result<TcRoute>
  {
    var c := ctx.(codeToStation := Some(codeToStation));
    var paths :- FromRouteSpec(route, c);
    if paths == [] then Err(IndexError)
    else Ok(TcRoute(StopStations(route.waypoints, codeToStation), Merged(paths)))
  }

  method TcRouteFromRoute(route: Route, codeToStation: map<string, Station>, ctx: Context) returns (r: Result<TcRoute>)
    ensures r == TcRouteSpec(route, codeToStation, ctx)
  {
    var stations := StopStations(route.waypoints, codeToStation);
    var paths := FromRoute(route, ctx.(codeToStation := Some(codeToStation)));
    if paths.Err? {
      return Err(paths.error);
    }
    var merged := Merge(paths.value);
    if merged.Err? {
      return Err(merged.error);
    }
    return Ok(TcRoute(stations, merged.value));
  }
}
