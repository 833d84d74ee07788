/**
 * The importer of the DB route register (`importers/db_strecken.py`): one CSV row becomes a
 * track with its route number, length, electrification and kind. The row's speed text is read
 * with the same pattern as the route table, `RouteData.ExtractSpeed`.
 */
module DbStrecken {
  import opened Wrappers
  import opened Text
  import opened Routes
  import RouteData

  /**
   * `DbStreckenImporter.deserialize`: column 10 is read first for the upper speed, then
   * int(column 1), float(column 3), and column 8 and 13 for electrification and category.
   * Kilometres are not part of the register, so both stay None.
   */
  function Deserialize(entry: seq<string>): (r: Result<Track>)
    ensures r.Ok? ==> r.value.fromKm.None? && r.value.toKm.None?
  {
    if |entry| < 11 then Err(IndexError)
    else
      var vMax := RouteData.ExtractSpeed(entry[10]).1;
      var routeNumber :- ParseInt(entry[1]);
      var length :- ParseReal(entry[3]);
      if |entry| < 14 then Err(IndexError)
      else
        Ok(Track(Some(routeNumber), entry[8] != "nicht elektrifiziert",
                 FromSpeedCategory(vMax as real, entry[13]), length, None, None))
  }

  /** Which error a row raises, in the order the columns are read, and every field of a track. */
  lemma DeserializeMeaning(entry: seq<string>)
    ensures Deserialize(entry) == Err(IndexError) <==>
      |entry| < 11 || (ParseInt(entry[1]).Ok? && ParseReal(entry[3]).Ok? && |entry| < 14)
    ensures Deserialize(entry) == Err(ValueError) <==>
      |entry| >= 11 && (ParseInt(entry[1]).Err? || ParseReal(entry[3]).Err?)
    ensures Deserialize(entry).Ok? ==>
      var t := Deserialize(entry).value;
      t.routeNumber == Some(ParseInt(entry[1]).value) && t.length == ParseReal(entry[3]).value
      && (t.electrified <==> entry[8] != "nicht elektrifiziert")
      && t.kind == FromSpeedCategory(RouteData.ExtractSpeed(entry[10]).1 as real, entry[13])
  {
    if |entry| >= 11 {
      var n := ParseInt(entry[1]);
      var l := ParseReal(entry[3]);
      if n.Err? {
        assert n.error == ValueError;
      } else if l.Err? {
        assert l.error == ValueError;
      }
    }
  }

  /**
   * A row written from a track's own figures reads back as that track: route number `str(rn)`,
   * length `str(km)`, speed "ab X bis Y km/h".
   */
  lemma DeserializeWrittenRow(entry: seq<string>, rn: int, km: nat, x: nat, y: nat, electrified: bool, category: string)
    requires |entry| >= 14
    requires entry[1] == IntToString(rn) && entry[3] == NatToString(km)
    requires entry[8] == (if electrified then "Oberleitung" else "nicht elektrifiziert")
    requires entry[10] == "ab " + NatToString(x) + " bis " + NatToString(y) + " km/h"
    requires entry[13] == category
    ensures Deserialize(entry)
      == Ok(Track(Some(rn), electrified, FromSpeedCategory(y as real, category), km as real, None, None))
  {
    ParseIntOfString(rn);
    ParseRealOfNat(km);
    RouteData.ExtractLowerAndUpper(x, y);
  }

  /**
   * The importer and the route table agree on a row both accept: the same electrification, and
   * the table's group is the value of the importer's kind for a Haupt- or Nebenbahn.
   */
  lemma AgreesWithRouteTable(entry: seq<string>)
    requires Deserialize(entry).Ok?
    ensures RouteData.RouteRow(entry).Ok?
    ensures Deserialize(entry).value.electrified == RouteData.RouteRow(entry).value.1.0
    ensures Deserialize(entry).value.routeNumber == Some(RouteData.RouteRow(entry).value.0)
    ensures entry[13] == "Nebenbahn" || entry[13] == "Hauptbahn" ==>
      RouteData.RouteRow(entry).value.1.1 == Some(KindValue(Deserialize(entry).value.kind))
  {
    DeserializeMeaning(entry);
    if entry[13] == "Nebenbahn" || entry[13] == "Hauptbahn" {
      RouteData.RouteRowIsKindValue(entry);
    }
  }
}
