/**
 * Countries and country prefixes of station codes (structures/country.py): the country table and
 * its reverse lookups, the classifier `country_from_code`, `strip_country`, `split_country`, the
 * translation into the "compatible" code format and the scan `parse_codes_with_countries`.
 */
module Countries {
  import opened Wrappers
  import opened Text

  /** The countries of the table, Germany included. */
  datatype Country =
    | Austria | Belgium | Russia | Denmark | Spain | France | Greece | Finland | Italy
    | Bosnia | UnitedKingdom | Luxembourg | Hungary | Netherlands | Norway | Poland | Turkey
    | Serbia | Switzerland | Czechia | Romania | Sweden | Bulgaria | Portugal | Slovakia
    | Slovenia | Germany

  predicate IsUpperAscii(c: char)
  {
    'A' <= c <= 'Z'
  }

  function Iso3166(c: Country): (r: string)
    ensures |r| == 2 && IsUpperAscii(r[0]) && IsUpperAscii(r[1])
  {
    match c
    case Austria => "AT" case Belgium => "BE" case Russia => "RU" case Denmark => "DK"
    case Spain => "ES" case France => "FR" case Greece => "GR" case Finland => "FI"
    case Italy => "IT" case Bosnia => "BA" case UnitedKingdom => "GB" case Luxembourg => "LU"
    case Hungary => "HU" case Netherlands => "NL" case Norway => "NO" case Poland => "PL"
    case Turkey => "TR" case Serbia => "RS" case Switzerland => "CH" case Czechia => "CZ"
    case Romania => "RO" case Sweden => "SE" case Bulgaria => "BG" case Portugal => "PT"
    case Slovakia => "SK" case Slovenia => "SI" case Germany => "DE"
  }

  /** The one-letter country code of the RIL100 scheme ('-' for Germany). */
  function DbRil100(c: Country): (r: string)
    ensures |r| == 1
  {
    match c
    case Austria => "A" case Belgium => "B" case Russia => "C" case Denmark => "D"
    case Spain => "E" case France => "F" case Greece => "G" case Finland => "H"
    case Italy => "I" case Bosnia => "J" case UnitedKingdom => "K" case Luxembourg => "L"
    case Hungary => "M" case Netherlands => "N" case Norway => "O" case Poland => "P"
    case Turkey => "Q" case Serbia => "R" case Switzerland => "S" case Czechia => "T"
    case Romania => "U" case Sweden => "V" case Bulgaria => "W" case Portugal => "X"
    case Slovakia => "Y" case Slovenia => "Z" case Germany => "-"
  }

  /** The two-digit UIC country number. */
  function Uic(c: Country): (r: nat)
    ensures 10 <= r <= 99
  {
    match c
    case Austria => 81 case Belgium => 88 case Russia => 20 case Denmark => 86
    case Spain => 71 case France => 87 case Greece => 73 case Finland => 10
    case Italy => 83 case Bosnia => 49 case UnitedKingdom => 70 case Luxembourg => 82
    case Hungary => 55 case Netherlands => 84 case Norway => 76 case Poland => 51
    case Turkey => 75 case Serbia => 72 case Switzerland => 85 case Czechia => 54
    case Romania => 53 case Sweden => 74 case Bulgaria => 52 case Portugal => 94
    case Slovakia => 56 case Slovenia => 79 case Germany => 80
  }

  /** The explicitly configured top-level domain; only the United Kingdom has one. */
  function TldField(c: Country): Option<string>
  {
    if c == UnitedKingdom then Some("uk") else None
  }

  /** The configured top-level domain when it is non-empty, else the lower-cased ISO code. */
  function Tld(c: Country): (r: string)
    ensures TldField(c).None? ==> r == Lower(Iso3166(c))
  {
    if TldField(c).Some? && TldField(c).value != [] then TldField(c).value else Lower(Iso3166(c))
  }

  /** The distance from 'A' to REGIONAL INDICATOR SYMBOL LETTER A. */
  const FlagOffset: int := 0x1F1E6 - 'A' as int

  predicate IsRegionalIndicator(c: char)
  {
    0x1F1E6 <= c as int <= 0x1F1FF
  }

  /** The flag emoji: each letter of the upper-cased ISO code shifted by the regional-indicator offset. */
  function Flag(c: Country): (r: string)
    ensures |r| == 2
    ensures forall i :: 0 <= i < 2 ==> r[i] as int == Upper(Iso3166(c))[i] as int + FlagOffset
    ensures IsRegionalIndicator(r[0]) && IsRegionalIndicator(r[1])
  {
    var iso := Upper(Iso3166(c));
    [(iso[0] as int + FlagOffset) as char, (iso[1] as int + FlagOffset) as char]
  }

  function XRil100(c: Country): string { "X" + DbRil100(c) }

  function ZRil100(c: Country): string { "Z" + DbRil100(c) }

  function ColonPrefix(c: Country): string { Iso3166(c) + ":" }

  function UicString(c: Country): string { NatToString(Uic(c)) }

  // ---------------------------------------------------------------------------------------------
  // Reverse tables

  function ByRil100(k: string): Option<Country>
  {
    match k
    case "A" => Some(Austria) case "B" => Some(Belgium) case "C" => Some(Russia) case "D" => Some(Denmark)
    case "E" => Some(Spain) case "F" => Some(France) case "G" => Some(Greece) case "H" => Some(Finland)
    case "I" => Some(Italy) case "J" => Some(Bosnia) case "K" => Some(UnitedKingdom) case "L" => Some(Luxembourg)
    case "M" => Some(Hungary) case "N" => Some(Netherlands) case "O" => Some(Norway) case "P" => Some(Poland)
    case "Q" => Some(Turkey) case "R" => Some(Serbia) case "S" => Some(Switzerland) case "T" => Some(Czechia)
    case "U" => Some(Romania) case "V" => Some(Sweden) case "W" => Some(Bulgaria) case "X" => Some(Portugal)
    case "Y" => Some(Slovakia) case "Z" => Some(Slovenia) case "-" => Some(Germany)
    case _ => None
  }

  function ByIso3166(k: string): Option<Country>
  {
    match k
    case "AT" => Some(Austria) case "BE" => Some(Belgium) case "RU" => Some(Russia) case "DK" => Some(Denmark)
    case "ES" => Some(Spain) case "FR" => Some(France) case "GR" => Some(Greece) case "FI" => Some(Finland)
    case "IT" => Some(Italy) case "BA" => Some(Bosnia) case "GB" => Some(UnitedKingdom) case "LU" => Some(Luxembourg)
    case "HU" => Some(Hungary) case "NL" => Some(Netherlands) case "NO" => Some(Norway) case "PL" => Some(Poland)
    case "TR" => Some(Turkey) case "RS" => Some(Serbia) case "CH" => Some(Switzerland) case "CZ" => Some(Czechia)
    case "RO" => Some(Romania) case "SE" => Some(Sweden) case "BG" => Some(Bulgaria) case "PT" => Some(Portugal)
    case "SK" => Some(Slovakia) case "SI" => Some(Slovenia) case "DE" => Some(Germany)
    case _ => None
  }

  function ByTld(k: string): Option<Country>
  {
    match k
    case "at" => Some(Austria) case "be" => Some(Belgium) case "ru" => Some(Russia) case "dk" => Some(Denmark)
    case "es" => Some(Spain) case "fr" => Some(France) case "gr" => Some(Greece) case "fi" => Some(Finland)
    case "it" => Some(Italy) case "ba" => Some(Bosnia) case "uk" => Some(UnitedKingdom) case "lu" => Some(Luxembourg)
    case "hu" => Some(Hungary) case "nl" => Some(Netherlands) case "no" => Some(Norway) case "pl" => Some(Poland)
    case "tr" => Some(Turkey) case "rs" => Some(Serbia) case "ch" => Some(Switzerland) case "cz" => Some(Czechia)
    case "ro" => Some(Romania) case "se" => Some(Sweden) case "bg" => Some(Bulgaria) case "pt" => Some(Portugal)
    case "sk" => Some(Slovakia) case "si" => Some(Slovenia) case "de" => Some(Germany)
    case _ => None
  }

  function ByUic(k: int): Option<Country>
  {
    match k
    case 81 => Some(Austria) case 88 => Some(Belgium) case 20 => Some(Russia) case 86 => Some(Denmark)
    case 71 => Some(Spain) case 87 => Some(France) case 73 => Some(Greece) case 10 => Some(Finland)
    case 83 => Some(Italy) case 49 => Some(Bosnia) case 70 => Some(UnitedKingdom) case 82 => Some(Luxembourg)
    case 55 => Some(Hungary) case 84 => Some(Netherlands) case 76 => Some(Norway) case 51 => Some(Poland)
    case 75 => Some(Turkey) case 72 => Some(Serbia) case 85 => Some(Switzerland) case 54 => Some(Czechia)
    case 53 => Some(Romania) case 74 => Some(Sweden) case 52 => Some(Bulgaria) case 94 => Some(Portugal)
    case 56 => Some(Slovakia) case 79 => Some(Slovenia) case 80 => Some(Germany)
    case _ => None
  }

  /** The ISO letters behind a two-character flag. */
  function Unflag(k: string): (r: string)
    requires |k| == 2 && IsRegionalIndicator(k[0]) && IsRegionalIndicator(k[1])
    ensures |r| == 2 && IsUpperAscii(r[0]) && IsUpperAscii(r[1])
  {
    [(k[0] as int - FlagOffset) as char, (k[1] as int - FlagOffset) as char]
  }

  function ByFlag(k: string): Option<Country>
  {
    if |k| == 2 && IsRegionalIndicator(k[0]) && IsRegionalIndicator(k[1]) then ByIso3166(Unflag(k)) else None
  }

  /** Every country is found again from its own RIL100 letter, ISO code, domain and UIC number. */
  lemma TableRoundTrip(c: Country)
    ensures ByRil100(DbRil100(c)) == Some(c)
    ensures ByIso3166(Iso3166(c)) == Some(c)
    ensures ByTld(Tld(c)) == Some(c)
    ensures ByUic(Uic(c)) == Some(c)
  {
    Ril100RoundTrip(c);
    IsoRoundTrip(c);
    TldRoundTrip(c);
    UicRoundTrip(c);
  }

  lemma UicRoundTrip(c: Country)
    ensures ByUic(Uic(c)) == Some(c)
  {
  }

  lemma Ril100RoundTrip(c: Country)
    ensures ByRil100(DbRil100(c)) == Some(c)
  {
  }

  lemma IsoRoundTrip(c: Country)
    ensures ByIso3166(Iso3166(c)) == Some(c)
  {
  }

  lemma TldRoundTrip(c: Country)
    ensures ByTld(Tld(c)) == Some(c)
  {
    TldSpelledOut(c);
    TldTableRoundTrip(c);
  }

  lemma TldTableRoundTrip(c: Country)
    ensures ByTld(TldTable(c)) == Some(c)
  {
  }

  /** A key the reverse tables know is the key of the country they give. */
  lemma Ril100Back(k: string)
    ensures ByRil100(k).Some? ==> DbRil100(ByRil100(k).value) == k
  {
  }

  lemma Iso3166Back(k: string)
    ensures ByIso3166(k).Some? ==> Iso3166(ByIso3166(k).value) == k
  {
  }

  lemma TldBack(k: string)
    ensures ByTld(k).Some? ==> Tld(ByTld(k).value) == k
  {
    if ByTld(k).Some? {
      TldTableBack(k);
      TldSpelledOut(ByTld(k).value);
    }
  }

  lemma TldTableBack(k: string)
    ensures ByTld(k).Some? ==> TldTable(ByTld(k).value) == k
  {
  }

  /** The domains, written out. */
  function TldTable(c: Country): string
  {
    match c
    case Austria => "at" case Belgium => "be" case Russia => "ru" case Denmark => "dk"
    case Spain => "es" case France => "fr" case Greece => "gr" case Finland => "fi"
    case Italy => "it" case Bosnia => "ba" case UnitedKingdom => "uk" case Luxembourg => "lu"
    case Hungary => "hu" case Netherlands => "nl" case Norway => "no" case Poland => "pl"
    case Turkey => "tr" case Serbia => "rs" case Switzerland => "ch" case Czechia => "cz"
    case Romania => "ro" case Sweden => "se" case Bulgaria => "bg" case Portugal => "pt"
    case Slovakia => "sk" case Slovenia => "si" case Germany => "de"
  }

  lemma TldSpelledOut(c: Country)
    ensures Tld(c) == TldTable(c)
  {
    LowerPair(Iso3166(c));
  }

  lemma UicBack(u: int)
    ensures ByUic(u).Some? ==> Uic(ByUic(u).value) == u
  {
  }

  /** ISO codes are upper case already. */
  lemma UpperIso(c: Country)
    ensures Upper(Iso3166(c)) == Iso3166(c)
  {
    var iso := Iso3166(c);
    assert Upper(iso)[0] == iso[0];
    assert Upper(iso)[1] == iso[1];
  }

  /** Shifting a flag back gives the ISO code it was made from. */
  lemma UnflagFlag(c: Country)
    ensures Unflag(Flag(c)) == Iso3166(c)
  {
    UpperIso(c);
    var iso := Iso3166(c);
    var u := Unflag(Flag(c));
    assert u[0] == iso[0];
    assert u[1] == iso[1];
  }

  /** The flag table inverts `Flag` in both directions. */
  lemma FlagRoundTrip(c: Country, k: string)
    ensures ByFlag(Flag(c)) == Some(c)
    ensures ByFlag(k) == Some(c) ==> Flag(c) == k
  {
    UnflagFlag(c);
    IsoRoundTrip(c);
    if ByFlag(k) == Some(c) {
      FlagBack(k);
    }
  }

  /** A flag the table knows is the flag of the country it gives. */
  lemma FlagBack(k: string)
    ensures ByFlag(k).Some? ==> Flag(ByFlag(k).value) == k
  {
    if ByFlag(k).Some? {
      var c := ByFlag(k).value;
      var u := Unflag(k);
      Iso3166Back(u);
      assert Iso3166(c) == u;
      UpperIso(c);
      var f := Flag(c);
      assert f[0] == k[0];
      assert f[1] == k[1];
    }
  }

  // ---------------------------------------------------------------------------------------------
  // Classifying code prefixes

  datatype Representation = Ril100X | Ril100Z | Colon | FlagPrefix | UicPrefix | NoPrefix

  datatype Classification = Classification(country: Option<Country>, representation: Representation)

  /** `flag_re.match(code)`: two regional indicators at the start. */
  predicate FlagMatch(code: string)
  {
    |code| >= 2 && IsRegionalIndicator(code[0]) && IsRegionalIndicator(code[1])
  }

  /** `country_colon.match(code)`: two capital letters and a colon at the start. */
  predicate ColonMatch(code: string)
  {
    |code| >= 3 && IsUpperAscii(code[0]) && IsUpperAscii(code[1]) && code[2] == ':'
  }

  /** `uic_country.match(code)`: a non-zero digit and at least six more digits at the start. */
  predicate UicMatch(code: string)
  {
    |code| >= 7 && '1' <= code[0] <= '9' && forall i :: 1 <= i < 7 ==> IsDigit(code[i])
  }

  /**
   * `country_from_code`. Python's implicit `None` (a colon or UIC prefix of an unknown country)
   * is `Ok(None)`; IndexError and KeyError escape from the RIL100 and flag lookups.
   */
  function CountryFromCode(code: string): (r: Result<Option<Classification>>)
    ensures var up := Upper(code);
      (StartsWith(up, "X") || StartsWith(up, "Z")) ==>
        (r.Ok? ==> |up| >= 2 && r.value.Some? && r.value.value.representation == Ril100X
                   && r.value.value.country.Some? && DbRil100(r.value.value.country.value) == [up[1]])
        && (r == Err(IndexError) <==> |up| < 2)
    ensures r.Ok? && r.value.Some? ==> r.value.value.representation != Ril100Z
    ensures StartsWith(Upper(code), ":") ==> r == Ok(Some(Classification(None, NoPrefix)))
  {
    var up := Upper(code);
    if StartsWith(up, "X") || StartsWith(up, "Z") then
      if |up| < 2 then Err(IndexError)
      else
        match ByRil100([up[1]])
        case None => Err(KeyError)
        case Some(c) => Ok(Some(Classification(Some(c), Ril100X)))
    else if FlagMatch(up) then
      match ByFlag(up[..2])
      case None => Err(KeyError)
      case Some(c) => Ok(Some(Classification(Some(c), FlagPrefix)))
    else if ColonMatch(up) then
      var iso := up[..2];
      if ByIso3166(iso).Some? then Ok(Some(Classification(ByIso3166(iso), Colon)))
      else if ByTld(Lower(iso)).Some? then Ok(Some(Classification(ByTld(Lower(iso)), Colon)))
      else Ok(None)
    else if UicMatch(up) then
      var uic := DigitsValue(up[..2]);
      if ByUic(uic).Some? then Ok(Some(Classification(ByUic(uic), UicPrefix))) else Ok(None)
    else if StartsWith(up, ":") then Ok(Some(Classification(None, NoPrefix)))
    else Ok(Some(Classification(Some(Germany), NoPrefix)))
  }

  /** A code none of whose prefixes is recognised is German. */
  lemma UnprefixedIsGerman(code: string)
    requires var up := Upper(code);
      !StartsWith(up, "X") && !StartsWith(up, "Z") && !FlagMatch(up) && !ColonMatch(up) && !UicMatch(up)
      && !StartsWith(up, ":")
    ensures CountryFromCode(code) == Ok(Some(Classification(Some(Germany), NoPrefix)))
  {
  }

  /** A colon prefix resolves through the ISO table first, then through the lower-cased domain table. */
  lemma ColonResolution(code: string)
    requires var up := Upper(code); !StartsWith(up, "X") && !StartsWith(up, "Z") && ColonMatch(up)
    ensures var iso := Upper(code)[..2];
      CountryFromCode(code) ==
        if ByIso3166(iso).Some? then Ok(Some(Classification(ByIso3166(iso), Colon)))
        else if ByTld(Lower(iso)).Some? then Ok(Some(Classification(ByTld(Lower(iso)), Colon)))
        else Ok(None)
  {
    var up := Upper(code);
    assert !FlagMatch(up) by {
      assert IsUpperAscii(up[0]);
    }
  }

  /** A UIC-looking code resolves exactly when its first two digits are a known UIC number. */
  lemma UicResolution(code: string)
    requires var up := Upper(code);
      !StartsWith(up, "X") && !StartsWith(up, "Z") && !ColonMatch(up) && UicMatch(up)
    ensures var up := Upper(code); var uic := DigitsValue(up[..2]);
      CountryFromCode(code) == if ByUic(uic).Some? then Ok(Some(Classification(ByUic(uic), UicPrefix))) else Ok(None)
  {
    var up := Upper(code);
    assert !FlagMatch(up) by {
      assert IsDigit(up[0]);
    }
  }

  /**
   * `strip_country(code, strip_ril100)`. The guard reads `(strip_ril100 and X...) or Z...`, so a
   * Z code loses its first two characters even when `strip_ril100` is off. The tests are on the
   * code as given, not upper-cased.
   */
  function StripCountry(code: string, stripRil100: bool): (r: string)
    ensures StartsWith(code, "Z") ==> r == Drop(code, 2)
    ensures StartsWith(code, "X") && stripRil100 ==> r == Drop(code, 2)
    ensures |r| <= |code| && r == code[|code| - |r|..]
  {
    if (stripRil100 && StartsWith(code, "X")) || StartsWith(code, "Z") then Drop(code, 2)
    else if FlagMatch(code) then code[2..]
    else if ColonMatch(code) then code[3..]
    else if UicMatch(code) then code[2..]
    else code
  }

  /** A code with no prefix `strip_country` knows of is left as it is. */
  lemma StripUnprefixed(code: string, stripRil100: bool)
    requires !(stripRil100 && StartsWith(code, "X")) && !StartsWith(code, "Z")
    requires !FlagMatch(code) && !ColonMatch(code) && !UicMatch(code)
    ensures StripCountry(code, stripRil100) == code
  {
  }

  datatype SplitCode = SplitCode(country: Option<Country>, bare: string, representation: Representation)

  /** `split_country`: unpacking Python's `None` from `country_from_code` raises TypeError. */
  function SplitCountry(code: string, stripRil100: bool): (r: Result<SplitCode>)
    ensures r.Ok? ==> r.value.bare == StripCountry(code, stripRil100)
    ensures CountryFromCode(code) == Ok(None) ==> r == Err(TypeError)
    ensures r.Ok? ==> CountryFromCode(code) == Ok(Some(Classification(r.value.country, r.value.representation)))
  {
    var classified :- CountryFromCode(code);
    if classified.None? then Err(TypeError)
    else Ok(SplitCode(classified.value.country, StripCountry(code, stripRil100), classified.value.representation))
  }

  /**
   * `parse_code_to_compatible_format`. A missing country where an attribute of it is read
   * raises AttributeError.
   */
  function CompatibleFormat(country: Option<Country>, code: string, rep: Representation): (r: Result<string>)
    ensures (rep == Colon || rep == FlagPrefix) && country.Some? ==> r == Ok(Flag(country.value) + code)
    ensures (rep == Ril100X || rep == Ril100Z) && country == Some(Germany) ==> r == Ok(code)
    ensures rep == NoPrefix ==> r == Ok(code)
    ensures r.Ok? ==> |r.value| >= |code| && r.value[|r.value| - |code|..] == code
  {
    if rep == Colon || rep == FlagPrefix then
      if country.None? then Err(AttributeError) else Ok(Flag(country.value) + code)
    else if (rep == Ril100X || rep == Ril100Z) && country == Some(Germany) then Ok(code)
    else if rep == NoPrefix then Ok(code)
    else if country.None? then Err(AttributeError)
    else
      var prefix :=
        if rep == Ril100X then XRil100(country.value)
        else if rep == Ril100Z then ZRil100(country.value)
        else UicString(country.value);
      Ok(prefix + code)
  }

  /** A code of another country keeps its own prefix form: 'X' or 'Z' with the RIL100 letter, or the UIC number. */
  lemma CompatibleKeepsForeignPrefix(c: Country, code: string, rep: Representation)
    requires c != Germany && (rep == Ril100X || rep == Ril100Z || rep == UicPrefix)
    ensures CompatibleFormat(Some(c), code, rep) ==
      Ok((if rep == Ril100X then XRil100(c) else if rep == Ril100Z then ZRil100(c) else UicString(c)) + code)
  {
  }

  // ---------------------------------------------------------------------------------------------
  // parse_codes_with_countries

  datatype ScanState = ScanState(current: Option<Country>, out: seq<string>)

  /** The country a bare prefix selects: none for Germany. */
  function Selected(country: Option<Country>): Option<Country>
  {
    if country == Some(Germany) then None else country
  }

  /** One code of `parse_codes_with_countries`: a bare prefix selects a country, anything else yields one code. */
  function ScanStep(st: ScanState, code: string): (r: Result<ScanState>)
    ensures r.Ok? ==> |st.out| <= |r.value.out| <= |st.out| + 1 && r.value.out[..|st.out|] == st.out
  {
    var split :- SplitCountry(code, true);
    if split.bare == [] then Ok(ScanState(Selected(split.country), st.out))
    else if split.representation == NoPrefix then
      var flag := if st.current.Some? then Flag(st.current.value) else [];
      Ok(ScanState(st.current, st.out + [flag + split.bare]))
    else
      var compatible :- CompatibleFormat(split.country, split.bare, split.representation);
      Ok(ScanState(st.current, st.out + [compatible]))
  }

  /** The state after scanning `codes` from the start. */
  function Scan(codes: seq<string>): (r: Result<ScanState>)
    decreases |codes|
  {
    if codes == [] then Ok(ScanState(None, []))
    else
      var before :- Scan(codes[..|codes| - 1]);
      ScanStep(before, codes[|codes| - 1])
  }

  /**
   * `parse_codes_with_countries`, with the generator collected into a list; when a code raises,
   * the whole result is that error.
   */
  method ParseCodesWithCountries(codes: seq<string>) returns (r: Result<seq<string>>)
    ensures Scan(codes).Ok? ==> r == Ok(Scan(codes).value.out)
    ensures Scan(codes).Err? ==> r == Err(Scan(codes).error)
  {
    var current: Option<Country> := None;
    var out: seq<string> := [];
    var i := 0;
    while i < |codes|
      invariant 0 <= i <= |codes|
      invariant Scan(codes[..i]) == Ok(ScanState(current, out))
    {
      assert codes[..i + 1][..i] == codes[..i];
      var splitResult := SplitCountry(codes[i], true);
      if splitResult.Err? {
        ScanFails(codes, i + 1);
        return Err(splitResult.error);
      }
      var split := splitResult.value;
      if split.bare == [] {
        current := if split.country != Some(Germany) then split.country else None;
      } else if split.representation == NoPrefix {
        var flag := if current.Some? then Flag(current.value) else "";
        out := out + [flag + split.bare];
      } else {
        var compatible := CompatibleFormat(split.country, split.bare, split.representation);
        if compatible.Err? {
          ScanFails(codes, i + 1);
          return Err(compatible.error);
        }
        out := out + [compatible.value];
      }
      i := i + 1;
    }
    assert codes[..i] == codes;
    return Ok(out);
  }

  /** Once a prefix of the codes fails, the whole scan fails with the same error. */
  lemma {:induction false} ScanFails(codes: seq<string>, n: nat)
    requires n <= |codes| && Scan(codes[..n]).Err?
    ensures Scan(codes).Err? && Scan(codes).error == Scan(codes[..n]).error
    decreases |codes| - n
  {
    if n < |codes| {
      assert codes[..n + 1][..n] == codes[..n];
      ScanFails(codes, n + 1);
    } else {
      assert codes[..n] == codes;
    }
  }

  /** The scan never yields more codes than it reads. */
  lemma {:induction false} ScanNeverLonger(codes: seq<string>)
    ensures Scan(codes).Ok? ==> |Scan(codes).value.out| <= |codes|
    decreases |codes|
  {
    if codes != [] {
      ScanNeverLonger(codes[..|codes| - 1]);
    }
  }

  /** A code that `country_from_code` classes as unprefixed is not shortened by `strip_country` either. */
  lemma NoPrefixKeepsCode(code: string)
    requires CountryFromCode(code).Ok? && CountryFromCode(code).value.Some?
    requires CountryFromCode(code).value.value.representation == NoPrefix
    ensures StripCountry(code, true) == code
  {
    var up := Upper(code);
    assert forall i :: 0 <= i < |code| && 0 <= i < 7 ==> up[i] == UpperChar(code[i]);
  }

  /**
   * A bare flag followed by an unprefixed code yields that code under the flag's country, or
   * bare for Germany: the flag only selects the current country.
   */
  lemma FlagThenCode(c: Country, code: string)
    requires code != []
    requires CountryFromCode(code) == Ok(Some(Classification(Some(Germany), NoPrefix)))
    ensures Scan([Flag(c), code]) == Ok(ScanState(Selected(Some(c)), [if c == Germany then code else Flag(c) + code]))
  {
    var f := Flag(c);
    SplitFlag(c);
    SplitUnprefixed(code);
    var first := ScanState(Selected(Some(c)), []);
    assert ScanStep(ScanState(None, []), f) == Ok(first);
    ScanPair(f, code);
    assert Scan([f, code]) == ScanStep(first, code);
    var flag := if first.current.Some? then Flag(first.current.value) else [];
    assert ScanStep(first, code) == Ok(ScanState(first.current, [flag + code]));
    if c == Germany {
      assert flag + code == code;
    }
  }

  lemma SplitUnprefixed(code: string)
    requires CountryFromCode(code) == Ok(Some(Classification(Some(Germany), NoPrefix)))
    ensures SplitCountry(code, true) == Ok(SplitCode(Some(Germany), code, NoPrefix))
  {
    NoPrefixKeepsCode(code);
  }

  /** A bare flag splits into its country and an empty code. */
  lemma SplitFlag(c: Country)
    ensures SplitCountry(Flag(c), true) == Ok(SplitCode(Some(c), [], FlagPrefix))
  {
    var f := Flag(c);
    assert Upper(f) == f;
    FlagRoundTrip(c, f);
    assert f[..2] == f;
    assert !StartsWith(f, "X") && !StartsWith(f, "Z") && !StartsWith(f, ":");
    assert CountryFromCode(f) == Ok(Some(Classification(Some(c), FlagPrefix)));
    assert StripCountry(f, true) == [];
  }

  lemma ScanPair(a: string, b: string)
    ensures Scan([a, b]) == match ScanStep(ScanState(None, []), a)
      case Ok(st) => ScanStep(st, b)
      case Err(e) => Err(e)
  {
    var none: seq<string> := [];
    assert [a, b][..1] == [a];
    assert [a][..0] == none;
    assert Scan(none) == Ok(ScanState(None, []));
    assert Scan([a]) == ScanStep(ScanState(None, []), a);
  }
}
