/**
 * Swiss operating points (`importers/ch_betriebsstellen.py`): one CSV row becomes a station named
 * by column 2, numbered by its BPUIC in column 1, with the abbreviation in column 3 as a
 * "CH:" code.
 */
module ChBetriebsstellen {
  import opened Wrappers
  import opened Text
  import opened Stations
  import opened Countries

  /**
   * `Location(latitude=float(entry[25]), longitude=float(entry[24])) if entry[25] and entry[24]
   * else None`, with the IndexError and ValueError it can raise.
   */
  function Coordinates(entry: seq<string>): (r: Result<Option<Location>>)
    ensures r.Ok? <==>
      |entry| >= 26 && (entry[25] != [] && entry[24] != [] ==> ParseReal(entry[25]).Ok? && ParseReal(entry[24]).Ok?)
    ensures r.Ok? ==> (r.value.Some? <==> entry[25] != [] && entry[24] != [])
    ensures r.Ok? && r.value.Some? ==>
      r.value.value == Location(ParseReal(entry[25]).value, ParseReal(entry[24]).value)
  {
    if |entry| < 26 then Err(IndexError)
    else if entry[25] == [] || entry[24] == [] then Ok(None)
    else
      var latitude :- ParseReal(entry[25]);
      var longitude :- ParseReal(entry[24]);
      Ok(Some(Location(latitude, longitude)))
  }

  /** The code list of a row: "CH:" and the abbreviation when there is one, then the BPUIC text. */
  function RowCodes(abbreviation: string, bpuic: string): (r: seq<string>)
    ensures bpuic in r
    ensures abbreviation != [] ==> r[0] == "CH:" + abbreviation
    ensures abbreviation == [] ==> r[0] == bpuic
  {
    var first := if abbreviation != [] then Appended([], "CH:" + abbreviation) else [];
    AppendedExtends([], "CH:" + abbreviation);
    AppendedExtends(first, bpuic);
    Appended(first, bpuic)
  }

  /**
   * `ChBetriebsstellenImporter.deserialize`. Reading column 2 fails first on a short row, then
   * `int(entry[1])`, then the coordinates; the station has no platforms and category 5.
   */
  function Deserialize(entry: seq<string>): (r: Result<Station>)
    ensures r.Ok? <==>
      |entry| >= 26 && ParseInt(entry[1]).Ok?
      && (entry[25] != [] && entry[24] != [] ==> ParseReal(entry[25]).Ok? && ParseReal(entry[24]).Ok?)
    ensures |entry| < 3 ==> r == Err(IndexError)
    ensures |entry| >= 3 && ParseInt(entry[1]).Err? ==> r == Err(ParseInt(entry[1]).error)
    ensures r.Ok? ==> r.value.name == Some(entry[2]) && r.value.number == Some(ParseInt(entry[1]).value)
    ensures r.Ok? ==> r.value.stationCategory == Some(5) && r.value.platforms == Some([])
    ensures r.Ok? ==> r.value.location == Coordinates(entry).value && r.value.codes == RowCodes(entry[3], entry[1])
  {
    if |entry| < 3 then Err(IndexError)
    else
      var number :- ParseInt(entry[1]);
      var location :- Coordinates(entry);
      Ok(Station(Some(entry[2]), RowCodes(entry[3], entry[1]), Some(number), location, None, None, Some([]), Some(5)))
  }

  /** A "CH:" code resolves to Switzerland through the ISO table. */
  lemma SwissCodeIsSwiss(abbreviation: string)
    ensures CountryFromCode("CH:" + abbreviation) == Ok(Some(Classification(Some(Switzerland), Colon)))
  {
    var code := "CH:" + abbreviation;
    var up := Upper(code);
    assert up[..3] == "CH:";
    assert up[..2] == "CH";
    assert !StartsWith(up, "X") && !StartsWith(up, "Z") && ColonMatch(up);
    ColonResolution(code);
  }

  /** A row with an abbreviation gives a station whose first code is Swiss. */
  lemma FirstCodeIsSwiss(entry: seq<string>)
    requires Deserialize(entry).Ok? && entry[3] != []
    ensures CountryFromCode(Deserialize(entry).value.codes[0]) == Ok(Some(Classification(Some(Switzerland), Colon)))
  {
    SwissCodeIsSwiss(entry[3]);
  }
}
