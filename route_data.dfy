/**
 * The route table of the DB route register (`route_data.py`): the speed text
 * `(ab (\d+) )?bis (\d+) km/h` searched anywhere in a cell, the Haupt-/Nebenbahn group of a
 * route, and one row of the table keyed by route number.
 */
module RouteData {
  import opened Wrappers
  import opened Text
  import Routes

  // ---------------------------------------------------------------------------------------------
  // The speed pattern, written out as a backtracking search

  /** The length of the run of decimal digits starting at `i`; `\d+` is greedy. */
  function DigitRun(s: string, i: nat): (n: nat)
    requires i <= |s|
    ensures i + n <= |s|
    ensures AllDigits(s[i..i + n])
    ensures i + n < |s| ==> !IsDigit(s[i + n])
    decreases |s| - i
  {
    if i < |s| && IsDigit(s[i]) then
      var n := DigitRun(s, i + 1);
      assert s[i..i + 1 + n] == [s[i]] + s[i + 1..i + 1 + n];
      1 + n
    else 0
  }

  /**
   * `bis (\d+) km/h` matched at `i`: the value of group 3. A shorter digit run would be followed
   * by a digit, never by the space the pattern needs, so the greedy run is the only candidate.
   */
  function TailAt(s: string, i: nat): Option<nat>
    requires i <= |s|
  {
    if StartsWith(s[i..], "bis ") then
      var n := DigitRun(s, i + 4);
      if n > 0 && StartsWith(s[i + 4 + n..], " km/h") then Some(DigitsValue(s[i + 4..i + 4 + n]))
      else None
    else None
  }

  /** `ab (\d+) ` matched at `i`: the value of group 2 and the position after the group. */
  function FromGroup(s: string, i: nat): (r: Option<(nat, nat)>)
    requires i <= |s|
    ensures r.Some? ==> r.value.1 <= |s|
  {
    if StartsWith(s[i..], "ab ") then
      var n := DigitRun(s, i + 3);
      if n > 0 && i + 3 + n < |s| && s[i + 3 + n] == ' ' then Some((DigitsValue(s[i + 3..i + 3 + n]), i + 4 + n))
      else None
    else None
  }

  /**
   * The whole pattern matched at `i`: the optional group is tried first, and when the rest fails
   * after it the group is skipped, as the regex engine backtracks.
   */
  function MatchAt(s: string, i: nat): Option<(nat, nat)>
    requires i <= |s|
  {
    var g := FromGroup(s, i);
    if g.Some? && TailAt(s, g.value.1).Some? then Some((g.value.0, TailAt(s, g.value.1).value))
    else if TailAt(s, i).Some? then Some((0, TailAt(s, i).value))
    else None
  }

  /** `speed_re.search(s)` from position `i`: the leftmost match. */
  function SearchFrom(s: string, i: nat): Option<(nat, nat)>
    requires i <= |s|
    decreases |s| - i
  {
    if MatchAt(s, i).Some? then MatchAt(s, i)
    else if i == |s| then None
    else SearchFrom(s, i + 1)
  }

  /** `extract_speed`: (lower, upper) bound from the first match, a missing lower bound as 0. */
  function ExtractSpeed(s: string): (r: (int, int))
    ensures r.0 >= 0 && r.1 >= 0
  {
    match SearchFrom(s, 0)
    case Some((x, y)) => (x, y)
    case None => (0, 0)
  }

  // ---------------------------------------------------------------------------------------------
  // What the pattern reads

  lemma DigitRunOf(s: string, i: nat, digits: string)
    requires i + |digits| <= |s| && s[i..i + |digits|] == digits && AllDigits(digits)
    requires i + |digits| < |s| ==> !IsDigit(s[i + |digits|])
    ensures DigitRun(s, i) == |digits|
    decreases |digits|
  {
    if digits != [] {
      assert IsDigit(s[i]) by { assert s[i] == digits[0]; }
      assert s[i + 1..i + 1 + |digits[1..]|] == digits[1..];
      DigitRunOf(s, i + 1, digits[1..]);
    }
  }

  /** A prefix seen inside a string makes the string contain it. */
  lemma {:induction false} StartsWithContains(s: string, i: nat, t: string)
    requires i <= |s| && StartsWith(s[i..], t)
    ensures Contains(s, t)
    decreases i
  {
    if i > 0 {
      assert s[1..][i - 1..] == s[i..];
      StartsWithContains(s[1..], i - 1, t);
    }
  }

  lemma TailOf(s: string, i: nat, y: nat)
    requires i <= |s| && s[i..] == "bis " + NatToString(y) + " km/h"
    ensures TailAt(s, i) == Some(y)
  {
    var digits := NatToString(y);
    assert s[i..][..4] == "bis ";
    assert s[i + 4..i + 4 + |digits|] == digits;
    assert s[i + 4 + |digits|] == ' ';
    DigitRunOf(s, i + 4, digits);
    assert s[i + 4 + |digits|..] == " km/h";
    NatToStringRoundTrip(y);
  }

  /** `extract_speed("bis Y km/h") == (0, Y)`. */
  lemma ExtractUpperOnly(y: nat)
    ensures ExtractSpeed("bis " + NatToString(y) + " km/h") == (0, y)
  {
    var s := "bis " + NatToString(y) + " km/h";
    assert s[0..] == s;
    TailOf(s, 0, y);
    assert !StartsWith(s[0..], "ab ") by { assert s[0] == 'b'; }
    assert MatchAt(s, 0) == Some((0, y));
  }

  lemma FromGroupOf(s: string, i: nat, x: nat)
    requires i + 3 + |NatToString(x)| < |s| && s[i..i + 3] == "ab "
    requires s[i + 3..i + 3 + |NatToString(x)|] == NatToString(x) && s[i + 3 + |NatToString(x)|] == ' '
    ensures FromGroup(s, i) == Some((x, i + 4 + |NatToString(x)|))
  {
    var d := NatToString(x);
    assert s[i..][..3] == s[i..i + 3];
    DigitRunOf(s, i + 3, d);
    NatToStringRoundTrip(x);
  }

  lemma LowerAndUpperLayout(from: string, to: string)
    ensures var s := "ab " + from + " bis " + to + " km/h";
      s[0..3] == "ab " && s[3..3 + |from|] == from && s[3 + |from|] == ' '
      && s[4 + |from|..] == "bis " + to + " km/h"
  {
    var s := "ab " + from + " bis " + to + " km/h";
    var tail := "bis " + to + " km/h";
    assert s == ("ab " + from) + (" " + tail);
  }

  lemma LowerAndUpperAt(s: string, x: nat, y: nat)
    requires var from := NatToString(x);
      4 + |from| <= |s| && s[0..3] == "ab " && s[3..3 + |from|] == from && s[3 + |from|] == ' '
      && s[4 + |from|..] == "bis " + NatToString(y) + " km/h"
    ensures MatchAt(s, 0) == Some((x, y))
  {
    FromGroupOf(s, 0, x);
    TailOf(s, 4 + |NatToString(x)|, y);
    var g := FromGroup(s, 0);
    assert g.Some? && g.value.0 == x && TailAt(s, g.value.1) == Some(y);
  }

  /** `extract_speed("ab X bis Y km/h") == (X, Y)`. */
  lemma ExtractLowerAndUpper(x: nat, y: nat)
    ensures ExtractSpeed("ab " + NatToString(x) + " bis " + NatToString(y) + " km/h") == (x, y)
  {
    LowerAndUpperLayout(NatToString(x), NatToString(y));
    LowerAndUpperAt("ab " + NatToString(x) + " bis " + NatToString(y) + " km/h", x, y);
  }

  lemma NoTailWithoutUpTo(s: string, i: nat)
    requires i <= |s| && !Contains(s, "bis ")
    ensures TailAt(s, i) == None
  {
    if StartsWith(s[i..], "bis ") {
      StartsWithContains(s, i, "bis ");
    }
  }

  lemma {:induction false} NoMatchWithoutUpTo(s: string, i: nat)
    requires i <= |s| && !Contains(s, "bis ")
    ensures SearchFrom(s, i) == None
    decreases |s| - i
  {
    NoTailWithoutUpTo(s, i);
    var g := FromGroup(s, i);
    if g.Some? {
      NoTailWithoutUpTo(s, g.value.1);
    }
    assert MatchAt(s, i) == None;
    if i < |s| {
      NoMatchWithoutUpTo(s, i + 1);
    }
  }

  /** A cell without "bis " anywhere yields the `(0, 0)` fallback. */
  lemma ExtractWithoutUpTo(s: string)
    requires !Contains(s, "bis ")
    ensures ExtractSpeed(s) == (0, 0)
  {
    NoMatchWithoutUpTo(s, 0);
  }

  // ---------------------------------------------------------------------------------------------
  // Route groups

  /**
   * `convert_haupt_nebenbahn`: 1 for a Nebenbahn, 2 for a Hauptbahn with an upper speed of at
   * least 250 km/h, 0 for a slower Hauptbahn, and None (the function falls off its end) for any
   * other category.
   */
  function ConvertHauptNebenbahn(speed: string, category: string): (r: Option<int>)
    ensures r == Some(1) <==> category == "Nebenbahn"
    ensures r == Some(2) <==> category == "Hauptbahn" && ExtractSpeed(speed).1 >= 250
    ensures r == Some(0) <==> category == "Hauptbahn" && ExtractSpeed(speed).1 < 250
    ensures r == None <==> category != "Nebenbahn" && category != "Hauptbahn"
  {
    if category == "Nebenbahn" then Some(1)
    else if category == "Hauptbahn" then (if ExtractSpeed(speed).1 >= 250 then Some(2) else Some(0))
    else None
  }

  /** The group agrees with the value of the track kind the route register importer gives. */
  lemma GroupIsKindValue(speed: string, category: string)
    requires category == "Nebenbahn" || category == "Hauptbahn"
    ensures ConvertHauptNebenbahn(speed, category)
      == Some(Routes.KindValue(Routes.FromSpeedCategory(ExtractSpeed(speed).1 as real, category)))
  {
  }

  // ---------------------------------------------------------------------------------------------
  // One row of the route table

  /** (electrified, group) of one route. */
  type RouteInfo = (bool, Option<int>)

  /**
   * One entry of `import_route_data` as written: (int(route[1]), (route[8] != "nicht
   * elektrifiziert", convert_haupt_nebenbahn(route[8], route[13]))). Column 8 holds the
   * electrification, yet it is also handed over as the speed text.
   */
  function RouteRowAsWritten(route: seq<string>): (r: Result<(int, RouteInfo)>)
    ensures r.Ok? <==> |route| >= 14 && ParseInt(route[1]).Ok?
    ensures r.Ok? ==> r.value.0 == ParseInt(route[1]).value
    ensures r.Ok? ==> r.value.1 == (route[8] != "nicht elektrifiziert", ConvertHauptNebenbahn(route[8], route[13]))
  {
    if |route| < 2 then Err(IndexError)
    else
      var number :- ParseInt(route[1]);
      if |route| < 14 then Err(IndexError)
      else Ok((number, (route[8] != "nicht elektrifiziert", ConvertHauptNebenbahn(route[8], route[13]))))
  }

  /** The same entry reading the speed from column 10, the column the route register keeps it in. */
  function RouteRow(route: seq<string>): (r: Result<(int, RouteInfo)>)
    ensures r.Ok? <==> |route| >= 14 && ParseInt(route[1]).Ok?
    ensures r.Ok? ==> r.value.0 == ParseInt(route[1]).value
    ensures r.Ok? ==> r.value.1 == (route[8] != "nicht elektrifiziert", ConvertHauptNebenbahn(route[10], route[13]))
  {
    if |route| < 2 then Err(IndexError)
    else
      var number :- ParseInt(route[1]);
      if |route| < 14 then Err(IndexError)
      else Ok((number, (route[8] != "nicht elektrifiziert", ConvertHauptNebenbahn(route[10], route[13]))))
  }

  /**
   * As written, a Hauptbahn whose electrification text has no "bis " is never a high-speed line
   * (group 2), whatever column 10 says.
   */
  lemma AsWrittenIgnoresSpeed(route: seq<string>)
    requires RouteRowAsWritten(route).Ok? && route[13] == "Hauptbahn" && !Contains(route[8], "bis ")
    ensures RouteRowAsWritten(route).value.1.1 == Some(0)
  {
    ExtractWithoutUpTo(route[8]);
  }

  /**
   * A high-speed Hauptbahn row, "ab X bis Y km/h" in column 10 with Y >= 250 and an
   * electrification text without "bis " in column 8: as written it is filed as group 0, read
   * from column 10 it is group 2.
   */
  lemma HighSpeedRowDiffers(route: seq<string>, x: nat, y: nat)
    requires |route| >= 14 && ParseInt(route[1]).Ok? && route[13] == "Hauptbahn"
    requires !Contains(route[8], "bis ")
    requires route[10] == "ab " + NatToString(x) + " bis " + NatToString(y) + " km/h" && y >= 250
    ensures RouteRowAsWritten(route).value.1.1 == Some(0)
    ensures RouteRow(route).value.1.1 == Some(2)
  {
    ExtractWithoutUpTo(route[8]);
    ExtractLowerAndUpper(x, y);
  }

  /** The corrected row files a Haupt-/Nebenbahn under the value of its track kind. */
  lemma RouteRowIsKindValue(route: seq<string>)
    requires RouteRow(route).Ok? && (route[13] == "Nebenbahn" || route[13] == "Hauptbahn")
    ensures RouteRow(route).value.1.1
      == Some(Routes.KindValue(Routes.FromSpeedCategory(ExtractSpeed(route[10]).1 as real, route[13])))
  {
    GroupIsKindValue(route[10], route[13]);
  }
}
