/**
 * British stations (`importers/uk_stations.py`): one TIPLOC record, a dictionary of text fields,
 * becomes a station when it has both a UIC number and a TIPLOC code.
 */
module UkStations {
  import opened Wrappers
  import opened Text
  import opened Stations
  import opened Countries

  /** A TIPLOC record; reading an absent key is a KeyError. */
  type Entry = map<string, string>

  function Field(entry: Entry, key: string): (r: Result<string>)
    ensures r.Ok? <==> key in entry
    ensures r.Ok? ==> r.value == entry[key]
    ensures r.Err? ==> r.error == KeyError
  {
    if key in entry then Ok(entry[key]) else Err(KeyError)
  }

  /**
   * The prefix the importer writes before each code: the four UTF-8 bytes of each regional
   * indicator of the British flag, read back one character per byte as Windows-1252.
   */
  const WrittenPrefix: string := "\U{f0}\U{178}\U{2021}\U{ac}\U{f0}\U{178}\U{2021}\U{a7}"

  /** The prefix meant: the British flag. */
  function BritishFlag(): string
  {
    Flag(UnitedKingdom)
  }

  /**
   * `deserialize` with the code prefix as a parameter: the codes are (prefix + 3ALPHA,
   * prefix + TIPLOC) when 3ALPHA is non-empty and (prefix + TIPLOC) otherwise; a record with a
   * UIC number and a TIPLOC code becomes a station of category 5 named by the title-cased
   * NLCDESC, any other record is skipped. The keys are read in the source's order.
   */
  function DeserializeWith(prefix: string, entry: Entry): (r: Result<Option<Station>>)
    ensures r.Ok? <==>
      "3ALPHA" in entry && "TIPLOC" in entry && "UIC" in entry
      && (entry["UIC"] != [] && entry["TIPLOC"] != [] ==> "NLCDESC" in entry && ParseInt(entry["UIC"]).Ok?)
    ensures r.Err? ==> r.error == KeyError || r.error == ValueError
    ensures r.Ok? ==> (r.value.Some? <==> entry["UIC"] != [] && entry["TIPLOC"] != [])
    ensures r.Ok? && r.value.Some? ==>
      var s := r.value.value;
      s.name == Some(Title(entry["NLCDESC"])) && s.number == Some(ParseInt(entry["UIC"]).value)
      && s.stationCategory == Some(5) && s.location.None?
      && s.codes == (if entry["3ALPHA"] != [] then [prefix + entry["3ALPHA"]] else []) + [prefix + entry["TIPLOC"]]
  {
    var alpha :- Field(entry, "3ALPHA");
    var tiploc :- Field(entry, "TIPLOC");
    var codes := if alpha != [] then [prefix + alpha, prefix + tiploc] else [prefix + tiploc];
    var uic :- Field(entry, "UIC");
    if uic != [] && tiploc != [] then
      var name :- Field(entry, "NLCDESC");
      var number :- ParseInt(uic);
      Ok(Some(Station(Some(Title(name)), codes, Some(number), None, None, None, Some([]), Some(5))))
    else Ok(None)
  }

  /** `UkStationsImporter.deserialize` as written, with the eight-character prefix. */
  function DeserializeAsWritten(entry: Entry): (r: Result<Option<Station>>)
    ensures r.Ok? && r.value.Some? ==> forall c :: c in r.value.value.codes ==> StartsWith(c, WrittenPrefix)
  {
    DeserializeWith(WrittenPrefix, entry)
  }

  /** The importer with the British flag as the prefix. */
  function Deserialize(entry: Entry): (r: Result<Option<Station>>)
    ensures r.Ok? && r.value.Some? ==> forall c :: c in r.value.value.codes ==> StartsWith(c, BritishFlag())
  {
    DeserializeWith(BritishFlag(), entry)
  }

  /** A code behind the written prefix has no recognised prefix, so `country_from_code` calls it German. */
  lemma WrittenPrefixIsGerman(code: string)
    ensures CountryFromCode(WrittenPrefix + code) == Ok(Some(Classification(Some(Germany), NoPrefix)))
  {
    var c := WrittenPrefix + code;
    var up := Upper(c);
    assert up[0] == '\U{f0}';
    assert !StartsWith(up, "X") && !StartsWith(up, "Z") && !StartsWith(up, ":");
    UnprefixedIsGerman(c);
  }

  /** A code behind the British flag is British, by its flag. */
  lemma FlagPrefixIsBritish(code: string)
    ensures CountryFromCode(BritishFlag() + code) == Ok(Some(Classification(Some(UnitedKingdom), FlagPrefix)))
  {
    var f := BritishFlag();
    var c := f + code;
    var up := Upper(c);
    assert up[0] == f[0] && up[1] == f[1];
    assert up[..2] == f;
    assert !StartsWith(up, "X") && !StartsWith(up, "Z");
    FlagRoundTrip(UnitedKingdom, f);
  }

  /** Every code of a station read as written is taken for a German one. */
  lemma AsWrittenCodesAreGerman(entry: Entry, c: string)
    requires DeserializeAsWritten(entry).Ok? && DeserializeAsWritten(entry).value.Some?
    requires c in DeserializeAsWritten(entry).value.value.codes
    ensures CountryFromCode(c) == Ok(Some(Classification(Some(Germany), NoPrefix)))
  {
    assert c[..|WrittenPrefix|] == WrittenPrefix;
    assert c == WrittenPrefix + c[|WrittenPrefix|..];
    WrittenPrefixIsGerman(c[|WrittenPrefix|..]);
  }

  /** Every code of a station read with the flag is British. */
  lemma CodesAreBritish(entry: Entry, c: string)
    requires Deserialize(entry).Ok? && Deserialize(entry).value.Some?
    requires c in Deserialize(entry).value.value.codes
    ensures CountryFromCode(c) == Ok(Some(Classification(Some(UnitedKingdom), FlagPrefix)))
  {
    var f := BritishFlag();
    assert c[..|f|] == f;
    assert c == f + c[|f|..];
    FlagPrefixIsBritish(c[|f|..]);
  }
}
