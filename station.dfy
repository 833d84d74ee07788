/**
 * Station records and their code lists (structures/station.py): the self-deduplicating
 * `CodeList`, the derived station group and platform figures, `merge_stations`, and the
 * conversion into the game's station record.
 */
module Stations {
  import opened Wrappers
  import opened Text

  /** Codes that stand for the same station: adding one adds the others. */
  const SpecialCodes: seq<seq<string>> := [["EMSTP", "EMST"]]

  /** `list.append(x)` guarded by `x not in list`. */
  function AddIfAbsent(items: seq<string>, x: string): (r: seq<string>)
  {
    if x in items then items else items + [x]
  }

  /** The single-space form of a code, when the code contains a double space. */
  function SpacedForm(code: string): string
  {
    if Contains(code, "  ") then CollapseDoubleSpaces(code) else code
  }

  /** The code a new code finally stands for after its variants are derived: its first token when it has a space. */
  function DerivedForm(code: string): string
  {
    var spaced := SpacedForm(code);
    if Contains(spaced, " ") then BeforeFirst(spaced, ' ') else spaced
  }

  /** The code that the alias-group check tests: the code itself when it was present already, else its derived form. */
  function AliasProbe(items: seq<string>, code: string): string
  {
    if code in items then code else DerivedForm(code)
  }

  /** A code not yet present, appended with its single-space form and its first token, each only if absent. */
  function WithVariants(items: seq<string>, code: string): seq<string>
  {
    var withCode := items + [code];
    var spaced := SpacedForm(code);
    var withSpaced := if Contains(code, "  ") then AddIfAbsent(withCode, spaced) else withCode;
    if Contains(spaced, " ") then AddIfAbsent(withSpaced, BeforeFirst(spaced, ' ')) else withSpaced
  }

  /** Appends every member of `group` other than `probe`, without any membership test. */
  function AppendOthers(items: seq<string>, group: seq<string>, probe: string): seq<string>
    decreases |group|
  {
    if group == [] then items
    else
      var before := AppendOthers(items, group[..|group| - 1], probe);
      var other := group[|group| - 1];
      if other != probe then before + [other] else before
  }

  /** For each alias group that holds `probe`, in order, appends the group's other members. */
  function AppendAliases(items: seq<string>, groups: seq<seq<string>>, probe: string): seq<string>
    decreases |groups|
  {
    if groups == [] then items
    else
      var before := AppendAliases(items, groups[..|groups| - 1], probe);
      var group := groups[|groups| - 1];
      if probe in group then AppendOthers(before, group, probe) else before
  }

  /** The list after `CodeList.append(code)`. */
  function Appended(items: seq<string>, code: string): seq<string>
  {
    var added := if code in items then items else WithVariants(items, code);
    AppendAliases(added, SpecialCodes, AliasProbe(items, code))
  }

  /** The list after `CodeList.extend(codes)`: each code appended in order. */
  function Extended(items: seq<string>, codes: seq<string>): seq<string>
    decreases |codes|
  {
    if codes == [] then items else Appended(Extended(items, codes[..|codes| - 1]), codes[|codes| - 1])
  }

  /** A list of station codes that adds derived variants and aliases when a code is appended. */
  class CodeList {
    var items: seq<string>

    constructor ()
      ensures items == []
    {
      items := [];
    }

    method Append(code: string)
      modifies this
      ensures items == Appended(old(items), code)
    {
      ghost var start := items;
      var current := code;
      if current !in items {
        items := items + [current];
        if Contains(current, "  ") {
          current := CollapseDoubleSpaces(current);
          if current !in items {
            items := items + [current];
          }
        }
        if Contains(current, " ") {
          current := BeforeFirst(current, ' ');
          if current !in items {
            items := items + [current];
          }
        }
      }
      assert current == AliasProbe(start, code);
      ghost var added := items;
      var g := 0;
      while g < |SpecialCodes|
        invariant 0 <= g <= |SpecialCodes|
        invariant items == AppendAliases(added, SpecialCodes[..g], current)
      {
        var special := SpecialCodes[g];
        assert SpecialCodes[..g + 1][..g] == SpecialCodes[..g];
        if current in special {
          ghost var before := items;
          var j := 0;
          while j < |special|
            invariant 0 <= j <= |special|
            invariant items == AppendOthers(before, special[..j], current)
          {
            assert special[..j + 1][..j] == special[..j];
            if special[j] != current {
              items := items + [special[j]];
            }
            j := j + 1;
          }
          assert special[..j] == special;
        }
        g := g + 1;
      }
      assert SpecialCodes[..g] == SpecialCodes;
    }

    method Extend(codes: seq<string>)
      modifies this
      ensures items == Extended(old(items), codes)
    {
      ghost var start := items;
      var i := 0;
      while i < |codes|
        invariant 0 <= i <= |codes|
        invariant items == Extended(start, codes[..i])
      {
        assert codes[..i + 1][..i] == codes[..i];
        Append(codes[i]);
        i := i + 1;
      }
      assert codes[..i] == codes;
    }
  }

  lemma {:induction false} AppendOthersExtends(items: seq<string>, group: seq<string>, probe: string)
    ensures |AppendOthers(items, group, probe)| >= |items|
    ensures AppendOthers(items, group, probe)[..|items|] == items
    ensures forall x :: x in group && x != probe ==> x in AppendOthers(items, group, probe)
    decreases |group|
  {
    if group != [] {
      AppendOthersExtends(items, group[..|group| - 1], probe);
      assert group == group[..|group| - 1] + [group[|group| - 1]];
    }
  }

  lemma {:induction false} AppendAliasesExtends(items: seq<string>, groups: seq<seq<string>>, probe: string)
    ensures |AppendAliases(items, groups, probe)| >= |items|
    ensures AppendAliases(items, groups, probe)[..|items|] == items
    ensures forall i, x ::
              0 <= i < |groups| && probe in groups[i] && x in groups[i] && x != probe ==> x in AppendAliases(items, groups, probe)
    decreases |groups|
  {
    if groups != [] {
      var init := groups[..|groups| - 1];
      AppendAliasesExtends(items, init, probe);
      var before := AppendAliases(items, init, probe);
      var after := AppendAliases(items, groups, probe);
      var group := groups[|groups| - 1];
      if probe in group {
        AppendOthersExtends(before, group, probe);
      }
      assert |after| >= |before| && after[..|before|] == before;
      assert after[..|items|] == before[..|items|];
      forall i, x | 0 <= i < |groups| && probe in groups[i] && x in groups[i] && x != probe
        ensures x in after
      {
        if i < |groups| - 1 {
          assert groups[i] == init[i];
          PrefixMembership(before, after, x);
        }
      }
    }
  }

  lemma PrefixMembership(shorter: seq<string>, longer: seq<string>, x: string)
    requires |shorter| <= |longer| && longer[..|shorter|] == shorter && x in shorter
    ensures x in longer
  {
    var k :| 0 <= k < |shorter| && shorter[k] == x;
    assert longer[k] == x;
  }

  predicate Distinct(s: seq<string>)
  {
    forall i, j :: 0 <= i < j < |s| ==> s[i] != s[j]
  }

  lemma {:induction false} WithVariantsExtends(items: seq<string>, code: string)
    requires code !in items
    ensures var r := WithVariants(items, code);
      |r| > |items| && r[..|items|] == items && r[|items|] == code && DerivedForm(code) in r
    ensures Contains(code, "  ") ==> CollapseDoubleSpaces(code) in WithVariants(items, code)
    ensures ' ' in code ==> BeforeFirst(code, ' ') in WithVariants(items, code)
    ensures Distinct(items) ==> Distinct(WithVariants(items, code))
  {
    var withCode := items + [code];
    var spaced := SpacedForm(code);
    var withSpaced := if Contains(code, "  ") then AddIfAbsent(withCode, spaced) else withCode;
    var r := WithVariants(items, code);
    assert withCode[|items|] == code;
    assert |withSpaced| >= |withCode| && withSpaced[..|withCode|] == withCode;
    assert |r| >= |withSpaced| && r[..|withSpaced|] == withSpaced;
    assert r[..|items|] == withSpaced[..|withCode|][..|items|];
    assert r[|items|] == withSpaced[|items|];
    assert spaced in withSpaced by {
      if !Contains(code, "  ") {
        assert withCode[|items|] == spaced;
      }
    }
    PrefixMembership(withSpaced, r, spaced);
    if Contains(code, "  ") {
      CollapseKeepsFirstToken(code);
    }
    ContainsChar(spaced, ' ');
    if Distinct(items) {
      AddIfAbsentDistinct(items, code);
      AddIfAbsentDistinct(withCode, spaced);
      AddIfAbsentDistinct(withSpaced, BeforeFirst(spaced, ' '));
    }
  }

  lemma AddIfAbsentDistinct(items: seq<string>, x: string)
    requires Distinct(items)
    ensures Distinct(AddIfAbsent(items, x)) && Distinct(items + [x]) == (x !in items)
  {
    if x !in items {
      var r := items + [x];
      forall i, j | 0 <= i < j < |r| ensures r[i] != r[j] {
        if j == |items| {
          assert r[i] == items[i];
        }
      }
    } else {
      var k :| 0 <= k < |items| && items[k] == x;
      assert (items + [x])[k] == (items + [x])[|items|];
    }
  }

  /** Appending keeps every element where it was, and the appended code is then present. */
  lemma AppendedExtends(items: seq<string>, code: string)
    ensures var r := Appended(items, code); |r| >= |items| && r[..|items|] == items
    ensures code in Appended(items, code)
    ensures code !in items ==> Appended(items, code)[|items|] == code
  {
    var added := if code in items then items else WithVariants(items, code);
    var probe := AliasProbe(items, code);
    AppendAliasesExtends(added, SpecialCodes, probe);
    var r := Appended(items, code);
    if code !in items {
      WithVariantsExtends(items, code);
      assert r[..|items|] == r[..|added|][..|items|];
      assert r[|items|] == added[|items|];
    } else {
      PrefixMembership(items, r, code);
    }
  }

  /** A new code brings its single-space form and its part before the first space along. */
  lemma AppendedAddsVariants(items: seq<string>, code: string)
    requires code !in items
    ensures Contains(code, "  ") ==> CollapseDoubleSpaces(code) in Appended(items, code)
    ensures ' ' in code ==> BeforeFirst(code, ' ') in Appended(items, code)
  {
    var added := WithVariants(items, code);
    WithVariantsExtends(items, code);
    AppendAliasesExtends(added, SpecialCodes, AliasProbe(items, code));
    if Contains(code, "  ") {
      PrefixMembership(added, Appended(items, code), CollapseDoubleSpaces(code));
    }
    if ' ' in code {
      PrefixMembership(added, Appended(items, code), BeforeFirst(code, ' '));
    }
  }

  /** When the code (or its derived form, for a new code) belongs to an alias group, the whole group is present afterwards. */
  lemma AppendedAddsAliases(items: seq<string>, code: string, g: nat, x: string)
    requires g < |SpecialCodes| && AliasProbe(items, code) in SpecialCodes[g] && x in SpecialCodes[g]
    ensures x in Appended(items, code)
  {
    var added := if code in items then items else WithVariants(items, code);
    var probe := AliasProbe(items, code);
    AppendAliasesExtends(added, SpecialCodes, probe);
    if x == probe {
      if code !in items {
        WithVariantsExtends(items, code);
      }
      PrefixMembership(added, Appended(items, code), x);
    }
  }

  /** A list without duplicates keeps that property unless the alias groups add a member again. */
  lemma AppendedStaysDistinct(items: seq<string>, code: string)
    requires Distinct(items)
    requires forall g :: 0 <= g < |SpecialCodes| ==> AliasProbe(items, code) !in SpecialCodes[g]
    ensures Distinct(Appended(items, code))
  {
    if code !in items {
      WithVariantsExtends(items, code);
    }
    assert SpecialCodes[..0] == [];
  }

  /** The alias append tests no membership: appending an alias that is already present duplicates its partner. */
  lemma AppendedCanDuplicate()
    ensures Appended(["EMSTP", "EMST"], "EMST") == ["EMSTP", "EMST", "EMSTP"]
  {
    var items := ["EMSTP", "EMST"];
    var group := SpecialCodes[0];
    assert "EMST" in items;
    assert AliasProbe(items, "EMST") == "EMST";
    assert SpecialCodes[..0] == [];
    assert AppendAliases(items, SpecialCodes[..0], "EMST") == items;
    assert group[..1][..0] == [];
    assert AppendOthers(items, group[..1], "EMST") == items + ["EMSTP"];
    assert group[..2] == group;
    assert AppendOthers(items, group, "EMST") == items + ["EMSTP"];
  }

  /** Extending keeps every element where it was and leaves each extended code present. */
  lemma {:induction false} ExtendedExtends(items: seq<string>, codes: seq<string>)
    ensures var r := Extended(items, codes); |r| >= |items| && r[..|items|] == items
    ensures forall c :: c in codes ==> c in Extended(items, codes)
    decreases |codes|
  {
    if codes != [] {
      var init := codes[..|codes| - 1];
      var last := codes[|codes| - 1];
      ExtendedExtends(items, init);
      var before := Extended(items, init);
      AppendedExtends(before, last);
      var r := Extended(items, codes);
      assert r[..|items|] == r[..|before|][..|items|];
      forall c | c in codes ensures c in r {
        if c != last {
          assert c in init by {
            var k :| 0 <= k < |codes| && codes[k] == c;
            assert k < |codes| - 1;
            assert init[k] == c;
          }
          PrefixMembership(before, r, c);
        }
      }
    }
  }

  // ---------------------------------------------------------------------------------------------
  // Station records

  datatype Location = Location(latitude: real, longitude: real)

  datatype PathLocation = PathLocation(routeNumber: int, lfdKm: real)

  datatype Platform = Platform(length: real)

  datatype Station = Station(
    name: Option<string>,
    codes: seq<string>,
    number: Option<int>,
    location: Option<Location>,
    locationPath: Option<PathLocation>,
    kind: Option<string>,
    platforms: Option<seq<Platform>>,
    stationCategory: Option<int>)

  /** A station with only default fields: no name, no codes, an empty platform list. */
  const EmptyStation := Station(None, [], None, None, None, None, Some([]), None)

  predicate IsAbzw(kind: Option<string>)
  {
    kind.Some? && kind.value != [] && Lower(kind.value) == "abzw"
  }

  /** The game group of a station: decided by its category where that is 1 to 7, else by an 'abzw' kind. */
  function Group(s: Station): (r: int)
    ensures r in {0, 1, 2, 3, 4, 5}
    ensures r == 0 <==> s.stationCategory.Some? && 1 <= s.stationCategory.value <= 2
    ensures r == 1 <==> s.stationCategory == Some(3)
    ensures r == 2 <==> s.stationCategory.Some? && 4 <= s.stationCategory.value <= 6
    ensures r == 5 <==> s.stationCategory == Some(7)
    ensures r == 4 <==> !(s.stationCategory.Some? && 1 <= s.stationCategory.value <= 7) && IsAbzw(s.kind)
  {
    if s.stationCategory.Some? && 1 <= s.stationCategory.value <= 2 then 0
    else if s.stationCategory == Some(3) then 1
    else if s.stationCategory.Some? && 4 <= s.stationCategory.value < 7 then 2
    else if s.stationCategory == Some(7) then 5
    else if IsAbzw(s.kind) then 4
    else 3
  }

  function PlatformCount(s: Station): (r: nat)
    ensures s.platforms.Some? ==> r == |s.platforms.value|
    ensures s.platforms.None? ==> r == 0
  {
    if s.platforms.Some? then |s.platforms.value| else 0
  }

  /** The longest of a non-empty list of platforms. */
  function MaxLength(ps: seq<Platform>): (r: real)
    requires ps != []
    ensures forall i :: 0 <= i < |ps| ==> ps[i].length <= r
    ensures exists i :: 0 <= i < |ps| && ps[i].length == r
  {
    if |ps| == 1 then ps[0].length
    else
      var rest := MaxLength(ps[1..]);
      assert forall i :: 1 <= i < |ps| ==> ps[i] == ps[1..][i - 1];
      if ps[0].length >= rest then ps[0].length else rest
  }

  /** The length of the longest platform, or 0 when the station has no platforms. */
  function PlatformLength(s: Station): (r: real)
    ensures s.platforms.None? || s.platforms.value == [] ==> r == 0.0
    ensures s.platforms.Some? ==> forall i :: 0 <= i < |s.platforms.value| ==> s.platforms.value[i].length <= r
    ensures s.platforms.Some? && s.platforms.value != [] ==>
              exists i :: 0 <= i < |s.platforms.value| && s.platforms.value[i].length == r
  {
    if s.platforms.Some? && s.platforms.value != [] then MaxLength(s.platforms.value) else 0.0
  }

  // ---------------------------------------------------------------------------------------------
  // merge_stations

  /** The station attributes `merge_stations` can match on. */
  datatype Field = Name | Codes | Number | StationLocation | StationLocationPath | Kind | Platforms | StationCategory

  /** A dictionary key: None, a string or an integer. */
  datatype Key = NoneKey | StrKey(s: string) | IntKey(i: int)

  function OptStrKey(v: Option<string>): Key
  {
    if v.Some? then StrKey(v.value) else NoneKey
  }

  function OptIntKey(v: Option<int>): Key
  {
    if v.Some? then IntKey(v.value) else NoneKey
  }

  /**
   * The attribute `on` of a station as a dictionary key, or None when it cannot be hashed:
   * a code list, a location, a path location and a platform list are unhashable, only None is.
   */
  function KeyOf(s: Station, on: Field): (r: Option<Key>)
    ensures r.None? <==> on == Codes || (on == StationLocation && s.location.Some?)
                         || (on == StationLocationPath && s.locationPath.Some?) || (on == Platforms && s.platforms.Some?)
  {
    match on
    case Name => Some(OptStrKey(s.name))
    case Number => Some(OptIntKey(s.number))
    case Kind => Some(OptStrKey(s.kind))
    case StationCategory => Some(OptIntKey(s.stationCategory))
    case Codes => None
    case StationLocation => if s.location.None? then Some(NoneKey) else None
    case StationLocationPath => if s.locationPath.None? then Some(NoneKey) else None
    case Platforms => if s.platforms.None? then Some(NoneKey) else None
  }

  predicate AllHashable(ss: seq<Station>, on: Field)
  {
    forall i :: 0 <= i < |ss| ==> KeyOf(ss[i], on).Some?
  }

  /** `{station.<on>: index}` over `onto`: a later station with the same key wins. */
  function IndexByKey(onto: seq<Station>, on: Field): (r: map<Key, nat>)
    requires AllHashable(onto, on)
    ensures forall k :: k in r ==> r[k] < |onto|
    decreases |onto|
  {
    if onto == [] then map[]
    else
      var init := onto[..|onto| - 1];
      assert forall i :: 0 <= i < |init| ==> init[i] == onto[i];
      IndexByKey(init, on)[KeyOf(onto[|onto| - 1], on).value := |onto| - 1]
  }

  /** The index holds exactly the keys of `onto`, each pointing at the last station with that key. */
  lemma IndexByKeyLastWins(onto: seq<Station>, on: Field, k: Key)
    requires AllHashable(onto, on)
    ensures k in IndexByKey(onto, on) <==> exists i :: 0 <= i < |onto| && KeyOf(onto[i], on) == Some(k)
    ensures k in IndexByKey(onto, on) ==>
              var at := IndexByKey(onto, on)[k];
              KeyOf(onto[at], on) == Some(k) && forall j :: at < j < |onto| ==> KeyOf(onto[j], on) != Some(k)
  {
    IndexByKeyHolds(onto, on, k);
    if k in IndexByKey(onto, on) {
      IndexByKeyLast(onto, on, k);
    }
  }

  lemma {:induction false} IndexByKeyHolds(onto: seq<Station>, on: Field, k: Key)
    requires AllHashable(onto, on)
    ensures k in IndexByKey(onto, on) <==> exists i :: 0 <= i < |onto| && KeyOf(onto[i], on) == Some(k)
    decreases |onto|
  {
    if onto != [] {
      var init := onto[..|onto| - 1];
      IndexByKeyHolds(init, on, k);
      if KeyOf(onto[|onto| - 1], on) != Some(k) && exists i :: 0 <= i < |onto| && KeyOf(onto[i], on) == Some(k) {
        var i :| 0 <= i < |onto| && KeyOf(onto[i], on) == Some(k);
        assert init[i] == onto[i];
      }
      if exists i :: 0 <= i < |init| && KeyOf(init[i], on) == Some(k) {
        var i :| 0 <= i < |init| && KeyOf(init[i], on) == Some(k);
        assert init[i] == onto[i];
      }
    }
  }

  lemma {:induction false} IndexByKeyLast(onto: seq<Station>, on: Field, k: Key)
    requires AllHashable(onto, on) && k in IndexByKey(onto, on)
    ensures var at := IndexByKey(onto, on)[k];
      KeyOf(onto[at], on) == Some(k) && forall j :: at < j < |onto| ==> KeyOf(onto[j], on) != Some(k)
    decreases |onto|
  {
    var init := onto[..|onto| - 1];
    if KeyOf(onto[|onto| - 1], on) != Some(k) {
      IndexByKeyLast(init, on, k);
      assert forall i :: 0 <= i < |init| ==> init[i] == onto[i];
    }
  }

  /** One matched newcomer folded into a station: each empty attribute other than `on` is taken over, the codes are extended. */
  function MergeInto(s: Station, n: Station, on: Field): (r: Station)
  {
    s.(name := if on != Name && s.name.None? then n.name else s.name,
       number := if on != Number && s.number.None? then n.number else s.number,
       stationCategory := if on != StationCategory && s.stationCategory.None? then n.stationCategory else s.stationCategory,
       location := if on != StationLocation && s.location.None? then n.location else s.location,
       locationPath := if on != StationLocationPath && s.locationPath.None? then n.locationPath else s.locationPath,
       platforms := if on != Platforms && s.platforms.None? then n.platforms else s.platforms,
       kind := if on != Kind && s.kind.None? then n.kind else s.kind,
       codes := Extended(s.codes, n.codes))
  }

  /** Each newcomer in turn merged into the station its key indexes, or appended when the key is not indexed. */
  function MergeAll(onto: seq<Station>, index: map<Key, nat>, news: seq<Station>, on: Field): (r: seq<Station>)
    requires forall k :: k in index ==> index[k] < |onto|
    requires AllHashable(news, on)
    ensures |r| >= |onto|
    decreases |news|
  {
    if news == [] then onto
    else
      var init := news[..|news| - 1];
      assert forall i :: 0 <= i < |init| ==> init[i] == news[i];
      var before := MergeAll(onto, index, init, on);
      var n := news[|news| - 1];
      var k := KeyOf(n, on).value;
      if k in index then before[index[k] := MergeInto(before[index[k]], n, on)] else before + [n]
  }

  /**
   * `merge_stations(onto, new_data, on)`, returning the merged list. Python raises TypeError when
   * some key is unhashable.
   */
  method MergeStations(onto: seq<Station>, newData: seq<Station>, on: Field) returns (r: Result<seq<Station>>)
    ensures r.Err? <==> !AllHashable(onto, on) || !AllHashable(newData, on)
    ensures r.Err? ==> r.error == TypeError
    ensures r.Ok? ==> r.value == MergeAll(onto, IndexByKey(onto, on), newData, on)
  {
    var bad := FirstUnhashable(onto, on);
    if bad < |onto| {
      return Err(TypeError);
    }
    var index := IndexByKey(onto, on);
    r := MergeLoop(onto, index, newData, on);
  }

  /** The loop of `merge_stations` over the new stations, given the index of `onto`. */
  method MergeLoop(onto: seq<Station>, index: map<Key, nat>, newData: seq<Station>, on: Field) returns (r: Result<seq<Station>>)
    requires forall k :: k in index ==> index[k] < |onto|
    ensures r.Err? <==> !AllHashable(newData, on)
    ensures r.Err? ==> r.error == TypeError
    ensures r.Ok? ==> r.value == MergeAll(onto, index, newData, on)
  {
    var merged := onto;
    for j := 0 to |newData|
      invariant AllHashable(newData[..j], on) && merged == MergeAll(onto, index, newData[..j], on)
    {
      var n := newData[j];
      var key := KeyOf(n, on);
      if key.None? {
        assert !AllHashable(newData, on);
        return Err(TypeError);
      }
      assert newData[..j + 1] == newData[..j] + [n];
      MergeAllStep(onto, index, newData[..j], n, on);
      if key.value in index {
        var at := index[key.value];
        merged := merged[at := MergeInto(merged[at], n, on)];
      } else {
        merged := merged + [n];
      }
    }
    assert newData[..|newData|] == newData;
    return Ok(merged);
  }

  /** The index of the first station whose key cannot be hashed, or the list's length. */
  method FirstUnhashable(ss: seq<Station>, on: Field) returns (i: nat)
    ensures i <= |ss| && forall h :: 0 <= h < i ==> KeyOf(ss[h], on).Some?
    ensures i < |ss| ==> KeyOf(ss[i], on).None?
  {
    i := 0;
    while i < |ss| && KeyOf(ss[i], on).Some?
      invariant i <= |ss| && forall h :: 0 <= h < i ==> KeyOf(ss[h], on).Some?
    {
      i := i + 1;
    }
  }

  lemma MergeAllStep(onto: seq<Station>, index: map<Key, nat>, news: seq<Station>, n: Station, on: Field)
    requires forall k :: k in index ==> index[k] < |onto|
    requires AllHashable(news, on) && KeyOf(n, on).Some?
    ensures AllHashable(news + [n], on)
    ensures var before := MergeAll(onto, index, news, on);
      var k := KeyOf(n, on).value;
      MergeAll(onto, index, news + [n], on)
        == if k in index then before[index[k] := MergeInto(before[index[k]], n, on)] else before + [n]
  {
    var all := news + [n];
    assert all[..|all| - 1] == news;
  }

  /** `a` is `b` with possibly more attributes filled and more codes at the end of its code list. */
  predicate Refines(a: Station, b: Station)
  {
    (b.name.Some? ==> a.name == b.name)
    && (b.number.Some? ==> a.number == b.number)
    && (b.stationCategory.Some? ==> a.stationCategory == b.stationCategory)
    && (b.location.Some? ==> a.location == b.location)
    && (b.locationPath.Some? ==> a.locationPath == b.locationPath)
    && (b.platforms.Some? ==> a.platforms == b.platforms)
    && (b.kind.Some? ==> a.kind == b.kind)
    && |a.codes| >= |b.codes| && a.codes[..|b.codes|] == b.codes
  }

  /** Folding in a newcomer fills exactly the empty attributes other than `on`, keeps the filled ones, and extends the codes. */
  lemma MergeIntoFillsOnlyNone(s: Station, n: Station, on: Field)
    ensures Refines(MergeInto(s, n, on), s)
    ensures KeyOf(MergeInto(s, n, on), on) == KeyOf(s, on)
    ensures s.name.None? && on != Name ==> MergeInto(s, n, on).name == n.name
    ensures s.number.None? && on != Number ==> MergeInto(s, n, on).number == n.number
    ensures s.stationCategory.None? && on != StationCategory ==> MergeInto(s, n, on).stationCategory == n.stationCategory
    ensures s.kind.None? && on != Kind ==> MergeInto(s, n, on).kind == n.kind
    ensures forall c :: c in n.codes ==> c in MergeInto(s, n, on).codes
  {
    ExtendedExtends(s.codes, n.codes);
  }

  function Unmatched(index: map<Key, nat>, news: seq<Station>, on: Field): (r: seq<Station>)
    requires AllHashable(news, on)
    decreases |news|
  {
    if news == [] then []
    else
      var init := news[..|news| - 1];
      assert forall i :: 0 <= i < |init| ==> init[i] == news[i];
      var n := news[|news| - 1];
      Unmatched(index, init, on) + (if KeyOf(n, on).value in index then [] else [n])
  }

  /**
   * The merged list is `onto`, each station possibly refined, followed by the newcomers whose
   * key no station of `onto` has, in their order.
   */
  lemma {:induction false} MergeAllShape(onto: seq<Station>, index: map<Key, nat>, news: seq<Station>, on: Field)
    requires forall k :: k in index ==> index[k] < |onto|
    requires AllHashable(news, on)
    ensures var r := MergeAll(onto, index, news, on);
      |r| == |onto| + |Unmatched(index, news, on)|
      && r[|onto|..] == Unmatched(index, news, on)
      && forall i :: 0 <= i < |onto| ==> Refines(r[i], onto[i])
    decreases |news|
  {
    if news != [] {
      var init := news[..|news| - 1];
      assert forall i :: 0 <= i < |init| ==> init[i] == news[i];
      MergeAllShape(onto, index, init, on);
      var before := MergeAll(onto, index, init, on);
      var n := news[|news| - 1];
      var k := KeyOf(n, on).value;
      var r := MergeAll(onto, index, news, on);
      if k in index {
        MergeIntoFillsOnlyNone(before[index[k]], n, on);
        forall i | 0 <= i < |onto| ensures Refines(r[i], onto[i]) {
          if i == index[k] {
            RefinesTransitive(r[i], before[i], onto[i]);
          }
        }
        assert r[|onto|..] == before[|onto|..];
      } else {
        assert r[|onto|..] == before[|onto|..] + [n];
      }
    }
  }

  lemma RefinesTransitive(a: Station, b: Station, c: Station)
    requires Refines(a, b) && Refines(b, c)
    ensures Refines(a, c)
  {
    assert a.codes[..|c.codes|] == a.codes[..|b.codes|][..|c.codes|];
  }

  /** Every `onto` station whose key a newcomer shares receives that newcomer's codes, however many newcomers share it. */
  lemma {:induction false} MergeAllCodes(onto: seq<Station>, index: map<Key, nat>, news: seq<Station>, on: Field, j: nat, c: string)
    requires forall k :: k in index ==> index[k] < |onto|
    requires AllHashable(news, on)
    requires j < |news| && KeyOf(news[j], on).value in index && c in news[j].codes
    ensures c in MergeAll(onto, index, news, on)[index[KeyOf(news[j], on).value]].codes
    decreases |news|
  {
    var init := news[..|news| - 1];
    assert forall i :: 0 <= i < |init| ==> init[i] == news[i];
    var before := MergeAll(onto, index, init, on);
    var n := news[|news| - 1];
    var at := index[KeyOf(news[j], on).value];
    var r := MergeAll(onto, index, news, on);
    if j == |news| - 1 {
      MergeIntoFillsOnlyNone(before[at], n, on);
    } else {
      MergeAllCodes(onto, index, init, on, j, c);
      var k := KeyOf(n, on).value;
      if k in index && index[k] == at {
        MergeIntoFillsOnlyNone(before[at], n, on);
        PrefixMembership(before[at].codes, r[at].codes, c);
      }
    }
  }

  /** On the code list, which never hashes, merging raises TypeError as soon as `onto` has a station. */
  lemma MergeOnCodesFails(onto: seq<Station>, newData: seq<Station>)
    requires onto != []
    ensures !AllHashable(onto, Codes)
  {
    assert KeyOf(onto[0], Codes).None?;
  }

  // ---------------------------------------------------------------------------------------------
  // TcStation.from_station

  /** The station record of the game's station list. */
  datatype TcStation = TcStation(
    name: Option<string>,
    ril100: string,
    group: int,
    x: int,
    y: int,
    platformLength: Option<int>,
    platforms: Option<int>,
    forRandomTasks: Option<bool>)

  /**
   * `TcStation.from_station`. The map projection `Location.convert_to_tc` computes in floating
   * point and is given as `project`. A station without codes raises IndexError.
   */
  function FromStation(s: Station, project: Location -> (int, int)): (r: Result<TcStation>)
    ensures r.Err? <==> s.codes == []
    ensures r.Ok? ==> r.value.ril100 == s.codes[0] && r.value.name == s.name && r.value.group == Group(s)
    ensures r.Ok? ==> r.value.platforms == Some(PlatformCount(s)) && r.value.forRandomTasks.None?
    ensures r.Ok? ==> r.value.platformLength == Some(Trunc(PlatformLength(s)))
    ensures r.Ok? && s.location.None? ==> r.value.x == 0 && r.value.y == 0
  {
    if s.codes == [] then Err(IndexError)
    else
      var (x, y) := if s.location.Some? then project(s.location.value) else (0, 0);
      Ok(TcStation(s.name, s.codes[0], Group(s), x, y, Some(Trunc(PlatformLength(s))), Some(PlatformCount(s)), None))
  }
}
