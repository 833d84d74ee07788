/**
 * The French station list importer (`importers/fr_stations.py`): the UIC number cut to seven
 * digits, a flag-prefixed special code for a fixed set of stations, the renaming of a few
 * station names, and the station record built from a row.
 */
module FrStations {
  import opened Wrappers
  import opened Text
  import opened Stations
  import Countries

  const FrenchFlag: string := "\U{1F1EB}\U{1F1F7}"

  /** The flag literal of the importer is the flag the country table derives for France. */
  lemma FrenchFlagIsFlag()
    ensures FrenchFlag == Countries.Flag(Countries.France)
  {
    assert Upper(Countries.Iso3166(Countries.France)) == "FR";
  }

  /** An eight-character UIC number loses its last character; any other is kept as it is. */
  function TruncateUic(uic: string): (r: string)
    ensures |r| == if |uic| == 8 then 7 else |uic|
    ensures StartsWith(uic, r)
  {
    if |uic| == 8 then uic[..7] else uic
  }

  /**
   * `special_codes`: the code the game uses for a few French stations, looked up by name. The
   * source scans the dictionary and stops at the first entry of that name; its names are
   * distinct, so that entry is the only one.
   */
  function SpecialCodeFor(name: string): Option<string>
  {
    match name
    case "Montbard" => Some("MBA") case "Mâlain" => Some("MLI") case "Blaisy-Bas" => Some("BSB")
    case "Villers-les-Pots" => Some("VLP") case "Genlis" => Some("GLS") case "Andelot" => Some("AND")
    case "Frasne" => Some("FRA") case "Labergement-Ste-Marie" => Some("LGM")
    case "Les Longevilles-Rochejean" => Some("LLR") case "Beynost" => Some("BNO")
    case "Meximieux-Pérouges" => Some("MEX") case "St-Rambert-d'Albon" => Some("SRA")
    case "Seyssel-Corbonod" => Some("SSS") case "Virieu-le-Grand-Belley" => Some("VRU")
    case "Aéroport-Charles-de-Gaulle 2-TGV" => Some("CDG") case "Lyon-St-Exupéry-TGV" => Some("SXA")
    case "Beaune" => Some("BEA") case "Nuits-St-Georges" => Some("NUI")
    case "Sennecey-le-Grand" => Some("SRD") case "Tournus" => Some("TOS")
    case "Fleurville-Pont-de-Vaux" => Some("FLV") case "Pontanevaux" => Some("PNX")
    case "Anse" => Some("ANS") case "Ruffey" => Some("RFY") case "Gemeaux" => Some("GMX")
    case "Vaux-sous-Aubigny" => Some("VXY") case "Andilly" => Some("ADY")
    case "Bourmont" => Some("BMT") case "Bariey-la-Côte" => Some("BLC") case "Liverdun" => Some("LDN")
    case "Igney-Avricourt" => Some("IA") case "Héming" => Some("HMG") case "Pompey" => Some("PPE")
    case "Ars-sur-Moselle" => Some("ASM") case "Champigny-sur-Yonne" => Some("CSY")
    case "Sens" => Some("SES") case "St-Julien-du-Sault" => Some("SJX")
    case "St-Florentin-Vergigny" => Some("SIF") case "Tonnerre" => Some("TNN")
    case "St-Clair-les-Roches" => Some("SKR") case "Le Péage-de-Roussillon" => Some("PGR")
    case "Tain-l'Hermitage-Tournon" => Some("TAI") case "Livron" => Some("LIV")
    case "Pierrelatte" => Some("PRL") case "Bollène-la-Croisière" => Some("BLN")
    case "Bédarrides" => Some("BDR") case "St-Martin-de-Crau" => Some("SMD")
    case "La Penne-sur-Huveaune" => Some("PHE") case "Aubagne" => Some("AUB")
    case "Cassis" => Some("CSI") case "Bandol" => Some("BND")
    case "St-Cyr-les-Lècques-La Cadière" => Some("SAQ") case "La Seyne-Six-Fours" => Some("LSM")
    case "Solliès-Pont" => Some("SIP") case "Vidauban" => Some("VUB")
    case "Théoule-sur-Mer" => Some("THM") case "Biot" => Some("BJO")
    case "St-Laurent-du-Var" => Some("SNV") case "Commercy" => Some("CCY") case "Oiry" => Some("OIR")
    case "Nogent-l'Artaud-Charly" => Some("NAA") case "St-Médard-d'Eyrans" => Some("SYS")
    case _ => None
  }

  /**
   * `generate_code_tuple`: the flag-prefixed special code of the station's name when there is
   * one, then the (truncated) UIC number.
   */
  function GenerateCodeTuple(entry: seq<string>): (r: Result<seq<string>>)
    ensures r.Err? <==> |entry| < 2
    ensures r.Err? ==> r.error == IndexError
  {
    if |entry| < 2 then Err(IndexError)
    else
      var special := match SpecialCodeFor(entry[1])
        case Some(code) => [FrenchFlag + code]
        case None => [];
      Ok(special + [TruncateUic(entry[0])])
  }

  /** At most one special code, flag-prefixed and first; the UIC string always last. */
  lemma CodeTupleShape(entry: seq<string>)
    requires |entry| >= 2
    ensures var codes := GenerateCodeTuple(entry).value;
      (|codes| == 1 || |codes| == 2) && codes[|codes| - 1] == TruncateUic(entry[0])
      && (|codes| == 2 <==> SpecialCodeFor(entry[1]).Some?)
      && (|codes| == 2 ==> codes[0] == FrenchFlag + SpecialCodeFor(entry[1]).value)
  {
    var codes := GenerateCodeTuple(entry).value;
  }

  /** Montbard, the first name of the table, gets its code before the UIC number. */
  lemma MontbardCode(uic: string)
    ensures GenerateCodeTuple([uic, "Montbard"]) == Ok([FrenchFlag + "MBA", TruncateUic(uic)])
  {
    var entry := [uic, "Montbard"];
    assert entry[1] == "Montbard";
    assert SpecialCodeFor(entry[1]) == Some("MBA");
    assert [FrenchFlag + "MBA"] + [TruncateUic(uic)] == [FrenchFlag + "MBA", TruncateUic(uic)];
  }

  /** `normalize_french_station_name`: the seven replacements in their order. */
  function NormalizeFrenchStationName(name: string): string
  {
    var a := Replace(name, "-Souterraine", "");
    var b := Replace(a, "-Surface", "");
    var c := Replace(b, "Lille-Europe", "Lille Europe");
    var d := Replace(c, "Dole", "Dole-Ville");
    var e := Replace(d, "Bellegarde", "Bellegarde (Ain)");
    var f := Replace(e, "Fr\U{e9}jus", "Fr\U{e9}jus-St-Rapha\U{eb}l");
    Replace(f, "Brest", "Brest (FR)")
  }

  /** A name that holds none of the seven patterns is kept. */
  lemma NormalizeKeepsOtherNames(name: string)
    requires !Contains(name, "-Souterraine") && !Contains(name, "-Surface") && !Contains(name, "Lille-Europe")
    requires !Contains(name, "Dole") && !Contains(name, "Bellegarde") && !Contains(name, "Fr\U{e9}jus")
    requires !Contains(name, "Brest")
    ensures NormalizeFrenchStationName(name) == name
  {
    ReplaceAbsent(name, "-Souterraine", "");
    ReplaceAbsent(name, "-Surface", "");
    ReplaceAbsent(name, "Lille-Europe", "Lille Europe");
    ReplaceAbsent(name, "Dole", "Dole-Ville");
    ReplaceAbsent(name, "Bellegarde", "Bellegarde (Ain)");
    ReplaceAbsent(name, "Fr\U{e9}jus", "Fr\U{e9}jus-St-Rapha\U{eb}l");
    ReplaceAbsent(name, "Brest", "Brest (FR)");
  }

  /** A pattern with a character the string lacks, or longer than the string, is not replaced. */
  lemma ReplaceMissing(s: string, pat: string, rep: string, k: nat)
    requires pat != [] && (|pat| > |s| || (k < |pat| && pat[k] !in s))
    ensures Replace(s, pat, rep) == s
  {
    ContainsParts(s, pat);
    ReplaceAbsent(s, pat, rep);
  }

  /** "Dole" becomes "Dole-Ville". */
  lemma NormalizeDole()
    ensures NormalizeFrenchStationName("Dole") == "Dole-Ville"
  {
    ReplaceMissing("Dole", "-Souterraine", "", 0);
    ReplaceMissing("Dole", "-Surface", "", 0);
    ReplaceMissing("Dole", "Lille-Europe", "Lille Europe", 0);
    ReplaceWhole("Dole", "Dole-Ville");
    var d := "Dole-Ville";
    assert 'B' !in d && 'F' !in d;
    ReplaceMissing(d, "Bellegarde", "Bellegarde (Ain)", 0);
    ReplaceMissing(d, "Fr\U{e9}jus", "Fr\U{e9}jus-St-Rapha\U{eb}l", 0);
    ReplaceMissing(d, "Brest", "Brest (FR)", 0);
  }

  /**
   * `FrStationsImporter.deserialize`: the name normalised, int(UIC) as number, the code tuple,
   * a location only when both coordinate columns are non-empty (latitude from column 14,
   * longitude from column 13), category 5 for a row marked 'O' in column 3 and -1 otherwise.
   */
  function Deserialize(entry: seq<string>): (r: Result<Station>)
    ensures r.Ok? ==> |entry| >= 14 && ParseInt(TruncateUic(entry[0])).Ok?
    ensures r.Ok? ==> r.value.number == Some(ParseInt(TruncateUic(entry[0])).value)
    ensures r.Ok? ==> (r.value.location.Some? <==> |entry| >= 15 && entry[13] != [] && entry[14] != [])
    ensures r.Ok? && r.value.location.Some? ==>
      |entry| >= 15 && ParseReal(entry[14]).Ok? && ParseReal(entry[13]).Ok?
      && r.value.location.value == Location(ParseReal(entry[14]).value, ParseReal(entry[13]).value)
    ensures r.Ok? ==> r.value.stationCategory == Some(if entry[3] == "O" then 5 else -1)
    ensures r.Ok? ==> r.value.name == Some(NormalizeFrenchStationName(entry[1]))
    ensures r.Ok? ==> r.value.codes == GenerateCodeTuple(entry).value
  {
    if |entry| < 2 then Err(IndexError)
    else
      var uic := TruncateUic(entry[0]);
      var name := NormalizeFrenchStationName(entry[1]);
      var number :- ParseInt(uic);
      var codes := GenerateCodeTuple(entry).value;
      var location :- Coordinates(entry);
      Ok(Station(Some(name), codes, Some(number), location, None, None, Some([]), Some(if entry[3] == "O" then 5 else -1)))
  }

  /**
   * `Location(latitude=float(entry[14]), longitude=float(entry[13])) if entry[13] and entry[14]
   * else None`, with the IndexError and ValueError it can raise.
   */
  function Coordinates(entry: seq<string>): (r: Result<Option<Location>>)
    ensures r.Ok? ==> |entry| >= 14
    ensures r.Ok? ==> (r.value.Some? <==> |entry| >= 15 && entry[13] != [] && entry[14] != [])
    ensures r.Ok? && r.value.Some? ==>
      ParseReal(entry[14]).Ok? && ParseReal(entry[13]).Ok?
      && r.value.value == Location(ParseReal(entry[14]).value, ParseReal(entry[13]).value)
    ensures r.Err? ==> r.error == IndexError || (|entry| >= 15 && (ParseReal(entry[14]).Err? || ParseReal(entry[13]).Err?))
  {
    if |entry| < 14 then Err(IndexError)
    else if entry[13] == [] then Ok(None)
    else if |entry| < 15 then Err(IndexError)
    else if entry[14] == [] then Ok(None)
    else
      var latitude :- ParseReal(entry[14]);
      var longitude :- ParseReal(entry[13]);
      Ok(Some(Location(latitude, longitude)))
  }
}
