/**
 * The validator of the game's data files (`validation/__init__.py`). It adds up an issue score
 * over the station, path, train and task model records: every rule that fires adds a fixed
 * amount, 10000 for the errors that break the game, less for doubtful data. Raising one of
 * Python's exceptions aborts the whole validation, which is an `Err` here.
 */
module Validation {
  import opened Wrappers
  import opened Json
  import opened Text
  import opened Graphs
  import Expansion
  import PathGraph
  import CreateTasks

  // ---------------------------------------------------------------------------------------------
  // Sums of scores

  /** The issues a loop over `xs` adds up; the first record whose check raises aborts the loop. */
  function Sum<T>(xs: seq<T>, score: T -> Result<nat>): (r: Result<nat>)
  {
    if |xs| == 0 then Ok(0)
    else
      var before :- Sum(xs[..|xs| - 1], score);
      var last :- score(xs[|xs| - 1]);
      Ok(before + last)
  }

  /** The loop over a concatenation is the loop over the first part continued over the second: the score only grows. */
  lemma {:induction false} SumAppend<T>(xs: seq<T>, ys: seq<T>, score: T -> Result<nat>)
    ensures Sum(xs + ys, score).Ok? <==> Sum(xs, score).Ok? && Sum(ys, score).Ok?
    ensures Sum(xs + ys, score).Ok? ==> Sum(xs + ys, score).value == Sum(xs, score).value + Sum(ys, score).value
    decreases |ys|
  {
    if |ys| == 0 {
      assert xs + ys == xs;
    } else {
      var init := ys[..|ys| - 1];
      SumAppend(xs, init, score);
      assert (xs + ys)[..|xs + ys| - 1] == xs + init;
      assert (xs + ys)[|xs + ys| - 1] == ys[|ys| - 1];
    }
  }

  /** Every record's own score is part of the total, and the total is complete only when every check succeeds. */
  lemma {:induction false} SumCountsEach<T>(xs: seq<T>, score: T -> Result<nat>, i: nat)
    requires i < |xs| && Sum(xs, score).Ok?
    ensures score(xs[i]).Ok? && score(xs[i]).value <= Sum(xs, score).value
    decreases |xs|
  {
    if i < |xs| - 1 {
      SumCountsEach(xs[..|xs| - 1], score, i);
      assert xs[..|xs| - 1][i] == xs[i];
    }
  }

  /** The total is zero exactly when no record scores anything. */
  lemma {:induction false} SumZero<T>(xs: seq<T>, score: T -> Result<nat>)
    ensures Sum(xs, score) == Ok(0) <==> forall i :: 0 <= i < |xs| ==> score(xs[i]) == Ok(0)
    decreases |xs|
  {
    if |xs| > 0 {
      var init := xs[..|xs| - 1];
      SumZero(init, score);
      assert forall i :: 0 <= i < |init| ==> init[i] == xs[i];
    }
  }

  lemma {:induction false} SumErrorPersists<T>(xs: seq<T>, score: T -> Result<nat>, j: nat)
    requires j <= |xs| && Sum(xs[..j], score).Err?
    ensures Sum(xs, score) == Sum(xs[..j], score)
    decreases |xs| - j
  {
    if j < |xs| {
      assert xs[..j + 1][..j] == xs[..j];
      SumErrorPersists(xs, score, j + 1);
    } else {
      assert xs[..j] == xs;
    }
  }

  /** One pass of a scoring loop: the record's score is added, or its exception ends the loop. */
  lemma SumStep<T>(xs: seq<T>, score: T -> Result<nat>, i: nat, issues: nat, s: Result<nat>)
    requires i < |xs| && Sum(xs[..i], score) == Ok(issues) && s == score(xs[i])
    ensures s.Ok? ==> Sum(xs[..i + 1], score) == Ok(issues + s.value)
    ensures s.Err? ==> Sum(xs, score) == Err(s.error)
  {
    assert xs[..i + 1][..i] == xs[..i];
    if s.Err? {
      SumErrorPersists(xs, score, i + 1);
    }
  }

  /** A loop whose body only computes each record's score and adds it to `issues`. */
  method AddUp<T>(xs: seq<T>, score: T -> Result<nat>) returns (r: Result<nat>)
    ensures r == Sum(xs, score)
  {
    var issues := 0;
    for i := 0 to |xs|
      invariant Sum(xs[..i], score) == Ok(issues)
    {
      var s := score(xs[i]);
      SumStep(xs, score, i, issues, s);
      if s.Err? {
        return Err(s.error);
      }
      issues := issues + s.value;
    }
    assert xs[..|xs|] == xs;
    return Ok(issues);
  }

  // ---------------------------------------------------------------------------------------------
  // Comparisons and membership as Python evaluates them

  /** `v >= x` for a number `x`, when `v` is a number. */
  predicate AtLeast(v: Value, x: real)
  {
    AsNumber(v).Some? && AsNumber(v).value >= x
  }

  /** `v > x` for a number `x`, when `v` is a number. */
  predicate Above(v: Value, x: real)
  {
    AsNumber(v).Some? && AsNumber(v).value > x
  }

  /** `v in xs` for a list: some member compares equal. */
  predicate In(v: Value, xs: seq<Value>)
  {
    exists i :: 0 <= i < |xs| && PyEq(v, xs[i])
  }

  /** How many of the items are not in `known`. */
  function CountUnknown(items: seq<Value>, known: seq<Value>): (r: nat)
    ensures r <= |items|
  {
    if |items| == 0 then 0
    else CountUnknown(items[..|items| - 1], known) + if In(items[|items| - 1], known) then 0 else 1
  }

  /** The count is zero exactly when every item is known, and the full length exactly when none is. */
  lemma {:induction false} CountUnknownMeaning(items: seq<Value>, known: seq<Value>)
    ensures CountUnknown(items, known) == 0 <==> forall i :: 0 <= i < |items| ==> In(items[i], known)
    ensures CountUnknown(items, known) == |items| <==> forall i :: 0 <= i < |items| ==> !In(items[i], known)
  {
    if |items| > 0 {
      var init := items[..|items| - 1];
      CountUnknownMeaning(init, known);
      assert forall i :: 0 <= i < |init| ==> init[i] == items[i];
    }
  }

  /** The characters of a string, each as the one-character string iterating it yields. */
  function Chars(s: string): (r: seq<Value>)
    ensures |r| == |s|
    ensures forall i :: 0 <= i < |s| ==> r[i] == Str([s[i]])
  {
    seq(|s|, i requires 0 <= i < |s| => Str([s[i]]))
  }

  /**
   * `for item in v: if item not in known: ...`, counting the unknown items: a list yields its
   * items, a string its characters and a dictionary its keys; anything else is not iterable.
   */
  function UnknownCount(v: Value, known: seq<Value>): Result<nat>
  {
    match v
    case Arr(items) => Ok(CountUnknown(items, known))
    case Str(s) => Ok(CountUnknown(Chars(s), known))
    case Obj(m) => Ok(|set k | k in m && !In(Str(k), known)|)
    case _ => Err(TypeError)
  }

  lemma UnknownCountMeaning(v: Value, known: seq<Value>)
    ensures UnknownCount(v, known).Ok? <==> v.Arr? || v.Str? || v.Obj?
    ensures UnknownCount(v, known).Err? ==> UnknownCount(v, known).error == TypeError
    ensures v.Arr? ==> UnknownCount(v, known) == Ok(CountUnknown(v.items, known))
    ensures v.Str? ==> UnknownCount(v, known) == Ok(CountUnknown(Chars(v.s), known))
  {
  }

  /** The inner loop: one pass over the items, counting those that are not known. */
  method CountUnknownItems(items: seq<Value>, known: seq<Value>) returns (n: nat)
    ensures n == CountUnknown(items, known)
  {
    n := 0;
    for i := 0 to |items|
      invariant n == CountUnknown(items[..i], known)
    {
      assert items[..i + 1][..i] == items[..i];
      var found := false;
      var j := 0;
      while j < |known|
        invariant 0 <= j <= |known|
        invariant found <==> exists k :: 0 <= k < j && PyEq(items[i], known[k])
      {
        if PyEq(items[i], known[j]) {
          found := true;
        }
        j := j + 1;
      }
      if !found {
        n := n + 1;
      }
    }
    assert items[..|items|] == items;
  }

  /** `UnknownCount` as the loop computes it. */
  method UnknownItemsOf(v: Value, known: seq<Value>) returns (r: Result<nat>)
    ensures r == UnknownCount(v, known)
  {
    match v
    case Arr(items) =>
      var n := CountUnknownItems(items, known);
      r := Ok(n);
    case Str(s) =>
      var n := CountUnknownItems(Chars(s), known);
      r := Ok(n);
    case Obj(m) =>
      r := Ok(|set k | k in m && !In(Str(k), known)|);
    case _ =>
      r := Err(TypeError);
  }

  // ---------------------------------------------------------------------------------------------
  // Step 1: stations

  /**
   * A station the data set does not know scores 50 when its code belongs to Germany or
   * Switzerland, the countries whose station lists are complete, and nothing otherwise.
   */
  function StationIssue(code: Value, known: set<string>, inKnownCountry: Value -> bool): Result<nat>
  {
    if code.Str? && code.s in known then Ok(0)
    else if inKnownCountry(code) then Ok(50)
    else Ok(0)
  }

  lemma StationRule(code: Value, known: set<string>, inKnownCountry: Value -> bool)
    ensures StationIssue(code, known, inKnownCountry) == Ok(50) <==> !(code.Str? && code.s in known) && inKnownCountry(code)
    ensures StationIssue(code, known, inKnownCountry) == Ok(0) <==> (code.Str? && code.s in known) || !inKnownCountry(code)
  {
  }

  function StationCheck(known: set<string>, inKnownCountry: Value -> bool): Value -> Result<nat>
  {
    c => StationIssue(c, known, inKnownCountry)
  }

  /** The stations the data set lacks although their country's list is complete. */
  function Unlisted(codes: seq<Value>, known: set<string>, inKnownCountry: Value -> bool): (r: nat)
    ensures r <= |codes|
  {
    if |codes| == 0 then 0
    else
      var c := codes[|codes| - 1];
      Unlisted(codes[..|codes| - 1], known, inKnownCountry) + if !(c.Str? && c.s in known) && inKnownCountry(c) then 1 else 0
  }

  /**
   * The selected codes are looked up in the data set, which refuses unhashable codes; after that
   * each unlisted station scores 50.
   */
  function StationsScore(codes: seq<Value>, known: set<string>, inKnownCountry: Value -> bool): Result<nat>
  {
    if exists i :: 0 <= i < |codes| && !Hashable(codes[i]) then Err(TypeError)
    else Sum(codes, StationCheck(known, inKnownCountry))
  }

  lemma {:induction false} StationsSum(codes: seq<Value>, known: set<string>, inKnownCountry: Value -> bool)
    ensures Sum(codes, StationCheck(known, inKnownCountry)) == Ok(50 * Unlisted(codes, known, inKnownCountry))
  {
    if |codes| > 0 {
      StationsSum(codes[..|codes| - 1], known, inKnownCountry);
      StationRule(codes[|codes| - 1], known, inKnownCountry);
    }
  }

  lemma StationsRule(codes: seq<Value>, known: set<string>, inKnownCountry: Value -> bool)
    ensures StationsScore(codes, known, inKnownCountry).Err? <==> exists i :: 0 <= i < |codes| && !Hashable(codes[i])
    ensures StationsScore(codes, known, inKnownCountry).Err? ==> StationsScore(codes, known, inKnownCountry).error == TypeError
    ensures StationsScore(codes, known, inKnownCountry).Ok? ==> StationsScore(codes, known, inKnownCountry).value == 50 * Unlisted(codes, known, inKnownCountry)
  {
    StationsSum(codes, known, inKnownCountry);
  }

  /** Step 1's loop. */
  method CheckStations(codes: seq<Value>, known: set<string>, inKnownCountry: Value -> bool) returns (r: Result<nat>)
    ensures r == StationsScore(codes, known, inKnownCountry)
  {
    if exists i :: 0 <= i < |codes| && !Hashable(codes[i]) {
      return Err(TypeError);
    }
    r := AddUp(codes, StationCheck(known, inKnownCountry));
  }

  // ---------------------------------------------------------------------------------------------
  // Step 2: paths

  /** `path['group'] = 0` and `path['electrified'] = True` where they are missing; given fields are kept. */
  function WithDefaults(path: Dict): Dict
  {
    var grouped := if "group" in path then path else path["group" := Int(0)];
    if "electrified" in grouped then grouped else grouped["electrified" := Bool(true)]
  }

  lemma WithDefaultsMeaning(path: Dict)
    ensures WithDefaults(path).Keys == path.Keys + {"group", "electrified"}
    ensures forall k :: k in path ==> WithDefaults(path)[k] == path[k]
    ensures "group" !in path ==> WithDefaults(path)["group"] == Int(0)
    ensures "electrified" !in path ==> WithDefaults(path)["electrified"] == Bool(true)
  {
  }

  /** A path without a top speed or without a length is unusable: 10000 for each. */
  function MissingIssue(p: Dict): nat
  {
    (if "maxSpeed" !in p then 10000 else 0) + (if "length" !in p then 10000 else 0)
  }

  lemma MissingRule(p: Dict)
    ensures MissingIssue(p) == 0 <==> "maxSpeed" in p && "length" in p
    ensures MissingIssue(p) == 20000 <==> "maxSpeed" !in p && "length" !in p
    ensures MissingIssue(p) >= 10000 <==> "maxSpeed" !in p || "length" !in p
  {
  }

  /** 250 km/h or more outside group 2 (the high-speed lines) scores 50; a top speed that is no number raises TypeError. */
  function SpeedIssue(p: Dict): Result<nat>
    requires "group" in p
  {
    if "maxSpeed" !in p then Ok(0)
    else
      var slower :- Less(p["maxSpeed"], Int(250));
      Ok(if !slower && !Equals(p["group"], 2.0) then 50 else 0)
  }

  lemma SpeedRule(p: Dict)
    requires "group" in p
    ensures SpeedIssue(p).Err? <==> "maxSpeed" in p && AsNumber(p["maxSpeed"]).None?
    ensures SpeedIssue(p).Err? ==> SpeedIssue(p).error == TypeError
    ensures SpeedIssue(p) == Ok(50) <==> "maxSpeed" in p && AtLeast(p["maxSpeed"], 250.0) && !Equals(p["group"], 2.0)
    ensures SpeedIssue(p).Ok? ==> SpeedIssue(p).value == 0 || SpeedIssue(p).value == 50
  {
  }

  /** A high-speed line that is not electrified scores 10000. */
  function ElectrificationIssue(p: Dict): nat
    requires "group" in p && "electrified" in p
  {
    if Equals(p["group"], 2.0) && !Truthy(p["electrified"]) then 10000 else 0
  }

  lemma ElectrificationRule(p: Dict)
    requires "group" in p && "electrified" in p
    ensures ElectrificationIssue(p) == 10000 <==> Equals(p["group"], 2.0) && !Truthy(p["electrified"])
    ensures ElectrificationIssue(p) == 0 || ElectrificationIssue(p) == 10000
  {
  }

  /** Groups 2 and 3 may have long sections. */
  predicate LongSectionsAllowed(group: Value)
  {
    Equals(group, 2.0) || Equals(group, 3.0)
  }

  /**
   * Outside groups 2 and 3 a section longer than 80 km scores 45, one longer than 40 km 5; the
   * length is only read there, and reading a missing length raises KeyError.
   */
  function LengthIssue(p: Dict): Result<nat>
    requires "group" in p
  {
    if LongSectionsAllowed(p["group"]) then Ok(0)
    else if "length" !in p then Err(KeyError)
    else
      match AsNumber(p["length"])
      case None => Err(TypeError)
      case Some(km) => Ok(if km > 80.0 then 45 else if km > 40.0 then 5 else 0)
  }

  lemma LengthRule(p: Dict)
    requires "group" in p
    ensures LongSectionsAllowed(p["group"]) ==> LengthIssue(p) == Ok(0)
    ensures !LongSectionsAllowed(p["group"]) && "length" !in p ==> LengthIssue(p) == Err(KeyError)
    ensures !LongSectionsAllowed(p["group"]) && "length" in p ==> (LengthIssue(p).Err? <==> AsNumber(p["length"]).None?)
    ensures LengthIssue(p) == Ok(45) <==> !LongSectionsAllowed(p["group"]) && "length" in p && Above(p["length"], 80.0)
    ensures LengthIssue(p) == Ok(5) <==> !LongSectionsAllowed(p["group"]) && "length" in p && Above(p["length"], 40.0) && !Above(p["length"], 80.0)
  {
  }

  /** A twisting factor over 0.5 scores 5; every path must have one. */
  function TwistIssue(p: Dict): Result<nat>
  {
    if "twistingFactor" !in p then Err(KeyError)
    else
      var twisted :- Less(Float(0.5), p["twistingFactor"]);
      Ok(if twisted then 5 else 0)
  }

  lemma TwistRule(p: Dict)
    ensures "twistingFactor" !in p ==> TwistIssue(p) == Err(KeyError)
    ensures "twistingFactor" in p ==> (TwistIssue(p).Err? <==> AsNumber(p["twistingFactor"]).None?)
    ensures TwistIssue(p) == Ok(5) <==> "twistingFactor" in p && Above(p["twistingFactor"], 0.5)
    ensures TwistIssue(p).Ok? ==> TwistIssue(p).value == 0 || TwistIssue(p).value == 5
  {
  }

  /** Each end that is not a selected station code scores 10000. */
  function EndsIssue(p: Dict, codes: seq<Value>): Result<nat>
  {
    if "start" !in p then Err(KeyError)
    else
      var startIssue := if In(p["start"], codes) then 0 else 10000;
      if "end" !in p then Err(KeyError)
      else Ok(startIssue + if In(p["end"], codes) then 0 else 10000)
  }

  lemma EndsRule(p: Dict, codes: seq<Value>)
    ensures EndsIssue(p, codes).Ok? <==> "start" in p && "end" in p
    ensures EndsIssue(p, codes).Err? ==> EndsIssue(p, codes).error == KeyError
    ensures EndsIssue(p, codes).Ok? ==> (EndsIssue(p, codes).value == 0 <==> In(p["start"], codes) && In(p["end"], codes))
    ensures EndsIssue(p, codes).Ok? ==> (EndsIssue(p, codes).value == 20000 <==> !In(p["start"], codes) && !In(p["end"], codes))
    ensures EndsIssue(p, codes).Ok? ==> (EndsIssue(p, codes).value >= 10000 <==> !In(p["start"], codes) || !In(p["end"], codes))
  {
  }

  /** `sub in v`: a substring of a string, a member of a list, a key of a dictionary; other values refuse `in`. */
  function Mentions(v: Value, sub: string): Result<bool>
  {
    match v
    case Str(s) => Ok(Contains(s, sub))
    case Arr(items) => Ok(In(Str(sub), items))
    case Obj(m) => Ok(sub in m)
    case _ => Err(TypeError)
  }

  lemma MentionsMeaning(v: Value, sub: string)
    ensures Mentions(v, sub).Ok? <==> v.Str? || v.Arr? || v.Obj?
    ensures v.Str? ==> Mentions(v, sub) == Ok(Contains(v.s, sub))
    ensures v.Obj? ==> Mentions(v, sub) == Ok(sub in v.fields)
  {
  }

  /** "SFS" in the name scores 5, since the group already shows it, and 20 more when the path is not a high-speed line. */
  function NameIssue(p: Dict): Result<nat>
    requires "group" in p
  {
    if "name" !in p then Ok(0)
    else
      var sfs :- Mentions(p["name"], "SFS");
      Ok((if sfs && !Equals(p["group"], 2.0) then 20 else 0) + (if sfs then 5 else 0))
  }

  lemma NameRule(p: Dict)
    requires "group" in p
    ensures "name" !in p ==> NameIssue(p) == Ok(0)
    ensures "name" in p ==> (NameIssue(p).Ok? <==> Mentions(p["name"], "SFS").Ok?)
    ensures NameIssue(p) == Ok(25) <==> "name" in p && Mentions(p["name"], "SFS") == Ok(true) && !Equals(p["group"], 2.0)
    ensures NameIssue(p) == Ok(5) <==> "name" in p && Mentions(p["name"], "SFS") == Ok(true) && Equals(p["group"], 2.0)
    ensures NameIssue(p).Ok? ==> NameIssue(p).value == 0 || NameIssue(p).value == 5 || NameIssue(p).value == 25
  {
  }

  /** Long station names left over from an import score 800. */
  function AnnotationIssue(p: Dict): nat
  {
    if "start_long" in p || "end_long" in p then 800 else 0
  }

  lemma AnnotationRule(p: Dict)
    ensures AnnotationIssue(p) == 800 <==> "start_long" in p || "end_long" in p
    ensures AnnotationIssue(p) == 0 || AnnotationIssue(p) == 800
  {
  }

  /** Each needed equipment that no train equipment provides scores 10000. */
  function EquipmentIssue(p: Dict, equipments: seq<Value>): Result<nat>
  {
    if "neededEquipments" !in p then Ok(0)
    else
      var unknown :- UnknownCount(p["neededEquipments"], equipments);
      Ok(10000 * unknown)
  }

  lemma EquipmentRule(p: Dict, equipments: seq<Value>)
    ensures "neededEquipments" !in p ==> EquipmentIssue(p, equipments) == Ok(0)
    ensures "neededEquipments" in p ==> (EquipmentIssue(p, equipments).Ok? <==> UnknownCount(p["neededEquipments"], equipments).Ok?)
    ensures "neededEquipments" in p && EquipmentIssue(p, equipments).Ok? ==> EquipmentIssue(p, equipments).value == 10000 * UnknownCount(p["neededEquipments"], equipments).value
  {
  }

  /** The rules that break the game, each worth 10000 or more. */
  predicate Blocking(p: Dict, codes: seq<Value>, equipments: seq<Value>)
  {
    || "maxSpeed" !in p || "length" !in p
    || (Equals(Get(p, "group"), 2.0) && !Truthy(Get(p, "electrified")))
    || ("start" in p && !In(p["start"], codes))
    || ("end" in p && !In(p["end"], codes))
    || ("neededEquipments" in p && UnknownCount(p["neededEquipments"], equipments).Ok? && UnknownCount(p["neededEquipments"], equipments).value > 0)
  }

  /**
   * `print_path(path)` as far as it can fail: a name that is not a string cannot be joined to
   * " " (TypeError), and both ends are read (KeyError). The text it builds is log output.
   */
  function PrintPath(p: Dict): (r: Result<()>)
    ensures r.Ok? <==> ("name" in p ==> p["name"].Str?) && "start" in p && "end" in p
    ensures r.Err? && "name" in p && !p["name"].Str? ==> r.error == TypeError
    ensures r.Err? && ("name" in p ==> p["name"].Str?) ==> r.error == KeyError
  {
    if "name" in p && !p["name"].Str? then Err(TypeError)
    else if "start" !in p || "end" !in p then Err(KeyError)
    else Ok(())
  }

  /** A rule's outcome: a rule that fires formats its log message with `print_path` first. */
  function Reported(p: Dict, issue: Result<nat>): (r: Result<nat>)
    ensures issue.Err? ==> r == issue
    ensures issue.Ok? && issue.value > 0 && PrintPath(p).Err? ==> r == Err(PrintPath(p).error)
    ensures issue.Ok? && (issue.value == 0 || PrintPath(p).Ok?) ==> r == issue
  {
    var n :- issue;
    if n > 0 && PrintPath(p).Err? then Err(PrintPath(p).error) else Ok(n)
  }

  /**
   * One pass of the path loop: the defaults are filled in, then the rules are checked in the
   * order of the source. The ends rule logs the codes themselves, not `print_path`.
   */
  function PathScore(path: Dict, codes: seq<Value>, equipments: seq<Value>): (r: Result<nat>)
  {
    var p := WithDefaults(path);
    var missing :- Reported(p, Ok(MissingIssue(p)));
    var speed :- Reported(p, SpeedIssue(p));
    var electrification :- Reported(p, Ok(ElectrificationIssue(p)));
    var length :- Reported(p, LengthIssue(p));
    var twist :- Reported(p, TwistIssue(p));
    var ends :- EndsIssue(p, codes);
    var name :- Reported(p, NameIssue(p));
    var annotation :- Reported(p, Ok(AnnotationIssue(p)));
    var equipment :- Reported(p, EquipmentIssue(p, equipments));
    Ok(missing + speed + electrification + length + twist + ends + name + annotation + equipment)
  }

  /** A path that scores has every rule's outcome, and its score is their sum. */
  lemma PathScoreSum(path: Dict, codes: seq<Value>, equipments: seq<Value>)
    requires PathScore(path, codes, equipments).Ok?
    ensures var p := WithDefaults(path);
      && SpeedIssue(p).Ok? && LengthIssue(p).Ok? && TwistIssue(p).Ok? && EndsIssue(p, codes).Ok?
      && NameIssue(p).Ok? && EquipmentIssue(p, equipments).Ok?
      && PathScore(path, codes, equipments).value == MissingIssue(p) + SpeedIssue(p).value + ElectrificationIssue(p)
        + LengthIssue(p).value + TwistIssue(p).value + EndsIssue(p, codes).value + NameIssue(p).value
        + AnnotationIssue(p) + EquipmentIssue(p, equipments).value
  {
  }

  /**
   * When `print_path` would fail, every rule that logs with it raises once it fires, so a path
   * that still scores has a name that is not a string and scores only for its unknown ends.
   */
  lemma UnprintablePath(path: Dict, codes: seq<Value>, equipments: seq<Value>)
    requires PathScore(path, codes, equipments).Ok? && PrintPath(WithDefaults(path)).Err?
    ensures "name" in path && !path["name"].Str?
    ensures PathScore(path, codes, equipments).value == EndsIssue(WithDefaults(path), codes).value
  {
    PathScoreSum(path, codes, equipments);
    WithDefaultsMeaning(path);
    EndsRule(WithDefaults(path), codes);
  }

  /** The soft rules add at most 925 to one path, so a path scores 10000 or more exactly when a blocking rule fires. */
  lemma PathScoreBlocking(path: Dict, codes: seq<Value>, equipments: seq<Value>)
    requires PathScore(path, codes, equipments).Ok?
    ensures var p := WithDefaults(path);
      "start" in p && "end" in p
      && (PathScore(path, codes, equipments).value >= 10000 <==> Blocking(p, codes, equipments))
  {
    var p := WithDefaults(path);
    PathScoreSum(path, codes, equipments);
    WithDefaultsMeaning(path);
    MissingRule(p);
    SpeedRule(p);
    ElectrificationRule(p);
    LengthRule(p);
    TwistRule(p);
    EndsRule(p, codes);
    NameRule(p);
    AnnotationRule(p);
    EquipmentRule(p, equipments);
  }

  /** A path scores nothing exactly when no rule adds to it; `print_path` is then never reached. */
  lemma PathScoreIsZero(path: Dict, codes: seq<Value>, equipments: seq<Value>)
    ensures var p := WithDefaults(path);
      PathScore(path, codes, equipments) == Ok(0) <==>
        && MissingIssue(p) == 0 && SpeedIssue(p) == Ok(0) && ElectrificationIssue(p) == 0
        && LengthIssue(p) == Ok(0) && TwistIssue(p) == Ok(0) && EndsIssue(p, codes) == Ok(0)
        && NameIssue(p) == Ok(0) && AnnotationIssue(p) == 0 && EquipmentIssue(p, equipments) == Ok(0)
  {
  }

  /** A path scores nothing exactly when its numbers are present and within the limits, its ends are known and nothing else fires. */
  lemma PathScoreZero(path: Dict, codes: seq<Value>, equipments: seq<Value>)
    ensures var p := WithDefaults(path);
      PathScore(path, codes, equipments) == Ok(0) <==>
        && "maxSpeed" in p && "length" in p && "twistingFactor" in p && "start" in p && "end" in p
        && AsNumber(p["maxSpeed"]).Some? && AsNumber(p["twistingFactor"]).Some?
        && (AtLeast(p["maxSpeed"], 250.0) ==> Equals(p["group"], 2.0))
        && (Equals(p["group"], 2.0) ==> Truthy(p["electrified"]))
        && (!LongSectionsAllowed(p["group"]) ==> AsNumber(p["length"]).Some? && !Above(p["length"], 40.0))
        && !Above(p["twistingFactor"], 0.5)
        && In(p["start"], codes) && In(p["end"], codes)
        && ("name" in p ==> Mentions(p["name"], "SFS") == Ok(false))
        && "start_long" !in p && "end_long" !in p
        && ("neededEquipments" in p ==> UnknownCount(p["neededEquipments"], equipments) == Ok(0))
  {
    var p := WithDefaults(path);
    PathScoreIsZero(path, codes, equipments);
    WithDefaultsMeaning(path);
    MissingRule(p);
    SpeedRule(p);
    ElectrificationRule(p);
    LengthRule(p);
    TwistRule(p);
    EndsRule(p, codes);
    NameRule(p);
    AnnotationRule(p);
    EquipmentRule(p, equipments);
  }

  function PathCheck(codes: seq<Value>, equipments: seq<Value>): Dict -> Result<nat>
  {
    p => PathScore(p, codes, equipments)
  }

  /** The path loop's body: the rules as `PathScore` states them, the unknown equipments counted by the inner loop. */
  method ScorePath(path: Dict, codes: seq<Value>, equipments: seq<Value>) returns (r: Result<nat>)
    ensures r == PathScore(path, codes, equipments)
  {
    var p := WithDefaults(path);
    var issues :- Reported(p, Ok(MissingIssue(p)));
    var speed :- Reported(p, SpeedIssue(p));
    var electrification :- Reported(p, Ok(ElectrificationIssue(p)));
    issues := issues + speed + electrification;
    var length :- Reported(p, LengthIssue(p));
    var twist :- Reported(p, TwistIssue(p));
    var ends :- EndsIssue(p, codes);
    var name :- Reported(p, NameIssue(p));
    var annotation :- Reported(p, Ok(AnnotationIssue(p)));
    issues := issues + length + twist + ends + name + annotation;
    if "neededEquipments" in p {
      var unknown := UnknownItemsOf(p["neededEquipments"], equipments);
      if unknown.Err? {
        return Err(unknown.error);
      }
      if unknown.value > 0 && PrintPath(p).Err? {
        return Err(PrintPath(p).error);
      }
      issues := issues + 10000 * unknown.value;
    }
    return Ok(issues);
  }

  /** The loop over the expanded paths, each ending with `issues += issues_score`. */
  method ScorePaths(paths: seq<Dict>, codes: seq<Value>, equipments: seq<Value>) returns (r: Result<nat>)
    ensures r == Sum(paths, PathCheck(codes, equipments))
  {
    var issues := 0;
    for i := 0 to |paths|
      invariant Sum(paths[..i], PathCheck(codes, equipments)) == Ok(issues)
    {
      var s := ScoreNext(paths, codes, equipments, i, issues);
      if s.Err? {
        return s;
      }
      issues := s.value;
    }
    assert paths[..|paths|] == paths;
    return Ok(issues);
  }

  /** One turn of the path loop: the issues so far plus the next path's own. */
  method ScoreNext(paths: seq<Dict>, codes: seq<Value>, equipments: seq<Value>, i: nat, issues: nat) returns (r: Result<nat>)
    requires i < |paths| && Sum(paths[..i], PathCheck(codes, equipments)) == Ok(issues)
    ensures r.Ok? ==> Sum(paths[..i + 1], PathCheck(codes, equipments)) == r
    ensures r.Err? ==> Sum(paths, PathCheck(codes, equipments)) == r
  {
    var s := ScorePath(paths[i], codes, equipments);
    SumStep(paths, PathCheck(codes, equipments), i, issues, s);
    if s.Err? {
      return Err(s.error);
    }
    return Ok(issues + s.value);
  }

  // ---------------------------------------------------------------------------------------------
  // Step 3: the routing graph

  /** The string codes among the selected codes: the stations of the routing graph. */
  function StringCodes(codes: seq<Value>): (r: seq<string>)
    ensures forall s :: s in r <==> Str(s) in codes
  {
    if |codes| == 0 then []
    else
      var init := codes[..|codes| - 1];
      var last := codes[|codes| - 1];
      assert codes == init + [last];
      StringCodes(init) + if last.Str? then [last.s] else []
  }

  /** `path_edges`: a path between two selected stations becomes an edge carrying the path, defaults filled in. */
  function TcEdges(paths: seq<Dict>, codes: seq<Value>): (r: seq<Edge>)
    ensures |r| <= |paths|
  {
    if |paths| == 0 then []
    else
      var p := paths[|paths| - 1];
      TcEdges(paths[..|paths| - 1], codes)
        + if Joinable(p, codes) then [Edge(p["start"].s, p["end"].s, WithDefaults(p))] else []
  }

  /** A path between stations `x` and `y`, both of them selected codes. */
  predicate Connects(paths: seq<Dict>, codes: seq<Value>, x: string, y: string)
  {
    exists i :: 0 <= i < |paths| && ConnectsAt(paths[i], codes, x, y)
  }

  /** `path['start'] in selected_codes and path['end'] in selected_codes`, for string ends. */
  predicate Joinable(path: Dict, codes: seq<Value>)
  {
    "start" in path && "end" in path && path["start"].Str? && path["end"].Str?
    && In(path["start"], codes) && In(path["end"], codes)
  }

  predicate ConnectsAt(path: Dict, codes: seq<Value>, x: string, y: string)
  {
    Joinable(path, codes) && {path["start"].s, path["end"].s} == {x, y}
  }

  lemma {:induction false} TcEdgesJoin(paths: seq<Dict>, codes: seq<Value>, x: string, y: string)
    ensures Joins(TcEdges(paths, codes), x, y) <==> Connects(paths, codes, x, y)
  {
    if |paths| > 0 {
      var init := paths[..|paths| - 1];
      var last := paths[|paths| - 1];
      TcEdgesJoin(init, codes, x, y);
      var es := TcEdges(paths, codes);
      var before := TcEdges(init, codes);
      assert forall i :: 0 <= i < |before| ==> es[i] == before[i];
      assert forall i :: 0 <= i < |init| ==> init[i] == paths[i];
      if ConnectsAt(last, codes, x, y) {
        assert es[|before|] == Edge(last["start"].s, last["end"].s, WithDefaults(last));
      }
      if Joins(es, x, y) && !Joins(before, x, y) {
        assert ConnectsAt(last, codes, x, y);
      }
    }
  }

  /** `build_tc_graph(selected_codes, path_edges)`. */
  function TcGraph(codes: seq<Value>, paths: seq<Dict>): (r: Graph)
    ensures Valid(r)
  {
    PathGraph.BuildTcGraph(StringCodes(codes), TcEdges(paths, codes))
  }

  /** Every string code is a station of the graph, and two stations are adjacent exactly when a path joins them. */
  lemma TcGraphShape(codes: seq<Value>, paths: seq<Dict>, x: string, y: string)
    ensures Str(x) in codes ==> x in TcGraph(codes, paths).nodes
    ensures Adjacent(TcGraph(codes, paths), x, y) <==> Connects(paths, codes, x, y)
  {
    PathGraph.BuildTcGraphShape(StringCodes(codes), TcEdges(paths, codes), x, y);
    TcEdgesJoin(paths, codes, x, y);
  }

  /** A network that is not connected scores 10000 once. */
  function ConnectivityIssue(g: Graph, connected: Graph -> bool): nat
  {
    if connected(g) then 0 else 10000
  }

  lemma ConnectivityRule(g: Graph, connected: Graph -> bool)
    ensures ConnectivityIssue(g, connected) == 10000 <==> !connected(g)
    ensures ConnectivityIssue(g, connected) == 0 <==> connected(g)
  {
  }

  /**
   * A hidden station (group 5 or 6) must lie on a through line: a degree other than 2 scores 100.
   * A code that is not a node gives `graph.degree` a view instead of a number, which is never 2.
   */
  function DegreeIssue(g: Graph, station: Dict): Result<nat>
  {
    if "group" !in station then Err(KeyError)
    else if !(Equals(station["group"], 5.0) || Equals(station["group"], 6.0)) then Ok(0)
    else if "ril100" !in station then Err(KeyError)
    else
      var code := station["ril100"];
      Ok(if code.Str? && code.s in g.nodes && Degree(g, code.s) == 2 then 0 else 100)
  }

  lemma DegreeRule(g: Graph, station: Dict)
    ensures "group" !in station ==> DegreeIssue(g, station) == Err(KeyError)
    ensures "group" in station && !(Equals(station["group"], 5.0) || Equals(station["group"], 6.0)) ==> DegreeIssue(g, station) == Ok(0)
    ensures "group" in station && (Equals(station["group"], 5.0) || Equals(station["group"], 6.0)) ==>
      && ("ril100" !in station ==> DegreeIssue(g, station) == Err(KeyError))
      && ("ril100" in station ==>
            (DegreeIssue(g, station) == Ok(0) <==> station["ril100"].Str? && station["ril100"].s in g.nodes && Degree(g, station["ril100"].s) == 2)
            && (DegreeIssue(g, station) == Ok(100) <==> !(station["ril100"].Str? && station["ril100"].s in g.nodes && Degree(g, station["ril100"].s) == 2)))
  {
  }

  function DegreeCheck(g: Graph): Dict -> Result<nat>
  {
    s => DegreeIssue(g, s)
  }

  // ---------------------------------------------------------------------------------------------
  // Step 4: trains

  /** `[train['id'] for train in train_json.data]`. */
  function TrainIds(trains: seq<Dict>): (r: Result<seq<Value>>)
    ensures r.Ok? <==> forall i :: 0 <= i < |trains| ==> "id" in trains[i]
    ensures r.Ok? ==> |r.value| == |trains| && forall i :: 0 <= i < |trains| ==> r.value[i] == trains[i]["id"]
  {
    if |trains| == 0 then Ok([])
    else
      var before :- TrainIds(trains[..|trains| - 1]);
      var last := trains[|trains| - 1];
      if "id" !in last then Err(KeyError) else Ok(before + [last["id"]])
  }

  /** `list.sort` succeeds on numbers alone and on strings alone; two ids of which only one is a number or a string cannot be ordered. */
  predicate Sortable(ids: seq<Value>)
  {
    || |ids| <= 1
    || (forall i :: 0 <= i < |ids| ==> AsNumber(ids[i]).Some?)
    || (forall i :: 0 <= i < |ids| ==> ids[i].Str?)
  }

  /** The ids as Python compares them. */
  function Keys(ids: seq<Value>): (r: seq<Value>)
    ensures |r| == |ids|
    ensures forall i :: 0 <= i < |ids| ==> r[i] == Canonical(ids[i])
  {
    seq(|ids|, i requires 0 <= i < |ids| => Canonical(ids[i]))
  }

  /** The distinct values of a sequence. */
  function Values<T(==)>(s: seq<T>): set<T>
  {
    set x | x in s
  }

  lemma {:induction false} ValuesAppend<T>(s: seq<T>, x: T)
    ensures Values(s + [x]) == Values(s) + {x}
    ensures |Values(s + [x])| == |Values(s)| + if x in s then 0 else 1
  {
    assert forall y :: y in s + [x] <==> y in s || y == x;
  }

  lemma {:induction false} ValuesBound<T>(s: seq<T>)
    ensures |Values(s)| <= |s|
    decreases |s|
  {
    if |s| == 0 {
      assert Values(s) == {};
    } else {
      var init := s[..|s| - 1];
      assert s == init + [s[|s| - 1]];
      ValuesBound(init);
      ValuesAppend(init, s[|s| - 1]);
    }
  }

  /** The number of entries beyond the first of each distinct value. */
  function Surplus<T(==)>(s: seq<T>): nat
  {
    ValuesBound(s);
    |s| - |Values(s)|
  }

  /** Adjacent equal entries: what `zip(ids, ids[1:])` finds. */
  function AdjacentEqual<T(==)>(s: seq<T>): (r: nat)
  {
    if |s| < 2 then 0
    else AdjacentEqual(s[..|s| - 1]) + if s[|s| - 2] == s[|s| - 1] then 1 else 0
  }

  /** Equal entries stand next to each other, as they do after sorting. */
  ghost predicate Grouped<T>(s: seq<T>)
  {
    forall i, j, k :: 0 <= i < j < k < |s| && s[i] == s[k] ==> s[j] == s[i]
  }

  /** A non-decreasing sequence of numbers is grouped. */
  lemma SortedIsGrouped(s: seq<real>)
    requires forall i, j :: 0 <= i < j < |s| ==> s[i] <= s[j]
    ensures Grouped(s)
  {
  }

  lemma GroupedInit<T>(s: seq<T>)
    requires Grouped(s) && |s| > 0
    ensures Grouped(s[..|s| - 1])
  {
    var init := s[..|s| - 1];
    forall i, j, k | 0 <= i < j < k < |init| && init[i] == init[k]
      ensures init[j] == init[i]
    {
      assert s[i] == init[i] && s[j] == init[j] && s[k] == init[k];
    }
  }

  /** In a grouped sequence the last entry occurs earlier only right before it. */
  lemma GroupedLast<T>(s: seq<T>)
    requires Grouped(s) && |s| >= 2 && s[|s| - 2] != s[|s| - 1]
    ensures s[|s| - 1] !in s[..|s| - 1]
  {
  }

  /** The distinct values of a non-empty sequence: those before its last entry, plus that entry. */
  lemma ValuesLast<T>(s: seq<T>)
    requires |s| > 0
    ensures |Values(s)| == |Values(s[..|s| - 1])| + if s[|s| - 1] in s[..|s| - 1] then 0 else 1
  {
    assert s == s[..|s| - 1] + [s[|s| - 1]];
    ValuesAppend(s[..|s| - 1], s[|s| - 1]);
  }

  /** In a grouped sequence the neighbour comparison counts exactly the duplicates. */
  lemma {:induction false} GroupedAdjacentEqual<T>(s: seq<T>)
    requires Grouped(s)
    ensures AdjacentEqual(s) == Surplus(s)
    decreases |s|
  {
    if |s| == 1 {
      assert Values(s) == {s[0]};
    } else if |s| > 1 {
      var init := s[..|s| - 1];
      GroupedInit(s);
      GroupedAdjacentEqual(init);
      ValuesLast(s);
      ValuesBound(init);
      if s[|s| - 2] == s[|s| - 1] {
        assert s[|s| - 1] in init by {
          assert init[|s| - 2] == s[|s| - 1];
        }
      } else {
        GroupedLast(s);
      }
    }
  }

  /** The distinct values depend only on the multiset of entries. */
  lemma SurplusOfPermutation<T>(a: seq<T>, b: seq<T>)
    requires multiset(a) == multiset(b)
    ensures Surplus(a) == Surplus(b)
  {
    assert |a| == |multiset(a)| == |multiset(b)| == |b|;
    assert forall y :: y in a <==> y in multiset(a);
    assert forall y :: y in b <==> y in multiset(b);
    assert Values(a) == Values(b);
  }

  /** Sorting the ids and comparing neighbours scores 10000 for each id beyond the first of its value. */
  function DuplicateIdIssue(ids: seq<Value>): Result<nat>
  {
    if !Sortable(ids) then Err(TypeError)
    else Ok(10000 * Surplus(Keys(ids)))
  }

  lemma DuplicateIdRule(ids: seq<Value>)
    ensures DuplicateIdIssue(ids).Ok? <==> Sortable(ids)
    ensures DuplicateIdIssue(ids).Err? ==> DuplicateIdIssue(ids).error == TypeError
  {
  }

  /** Whatever order the sort leaves: as long as equal ids end up next to each other, the neighbour count is the score. */
  lemma DuplicateIdsFromSortedIds(ids: seq<Value>, sorted: seq<Value>)
    requires Sortable(ids)
    requires multiset(Keys(sorted)) == multiset(Keys(ids)) && Grouped(Keys(sorted))
    ensures DuplicateIdIssue(ids) == Ok(10000 * AdjacentEqual(Keys(sorted)))
  {
    GroupedAdjacentEqual(Keys(sorted));
    SurplusOfPermutation(Keys(sorted), Keys(ids));
  }

  /** Each equipment of a train that no train equipment provides scores 10000. */
  function TrainEquipmentIssue(train: Dict, equipments: seq<Value>): Result<nat>
  {
    if "equipments" !in train then Ok(0)
    else
      var unknown :- UnknownCount(train["equipments"], equipments);
      Ok(10000 * unknown)
  }

  lemma TrainEquipmentRule(train: Dict, equipments: seq<Value>)
    ensures "equipments" !in train ==> TrainEquipmentIssue(train, equipments) == Ok(0)
    ensures "equipments" in train ==> (TrainEquipmentIssue(train, equipments).Ok? <==> UnknownCount(train["equipments"], equipments).Ok?)
    ensures "equipments" in train && TrainEquipmentIssue(train, equipments).Ok? ==> TrainEquipmentIssue(train, equipments).value == 10000 * UnknownCount(train["equipments"], equipments).value
  {
  }

  function TrainEquipmentCheck(equipments: seq<Value>): Dict -> Result<nat>
  {
    t => TrainEquipmentIssue(t, equipments)
  }

  /** The train loop: equipments counted by the inner loop. */
  method ScoreTrainEquipments(trains: seq<Dict>, equipments: seq<Value>) returns (r: Result<nat>)
    ensures r == Sum(trains, TrainEquipmentCheck(equipments))
  {
    ghost var score := TrainEquipmentCheck(equipments);
    var issues := 0;
    for i := 0 to |trains|
      invariant Sum(trains[..i], score) == Ok(issues)
    {
      SumStep(trains, score, i, issues, score(trains[i]));
      var train := trains[i];
      if "equipments" in train {
        var unknown := UnknownItemsOf(train["equipments"], equipments);
        if unknown.Err? {
          return Err(unknown.error);
        }
        issues := issues + 10000 * unknown.value;
      }
    }
    assert trains[..|trains|] == trains;
    return Ok(issues);
  }

  /**
   * A train with a positive force must have operation costs of at least 5, a missing entry
   * counting as 0: otherwise 10000. A train without force raises KeyError.
   */
  function CostIssue(train: Dict): Result<nat>
  {
    var costs := if "operationCosts" in train then train["operationCosts"] else Int(0);
    if "force" !in train then Err(KeyError)
    else
      var pulls :- Less(Int(0), train["force"]);
      if !pulls then Ok(0)
      else
        var cheap :- Less(costs, Int(5));
        Ok(if cheap then 10000 else 0)
  }

  lemma CostRule(train: Dict)
    ensures "force" !in train ==> CostIssue(train) == Err(KeyError)
    ensures "force" in train && AsNumber(train["force"]).None? ==> CostIssue(train) == Err(TypeError)
    ensures "force" in train && AsNumber(train["force"]).Some? && !Above(train["force"], 0.0) ==> CostIssue(train) == Ok(0)
    ensures "force" in train && Above(train["force"], 0.0) && "operationCosts" !in train ==> CostIssue(train) == Ok(10000)
    ensures "force" in train && Above(train["force"], 0.0) && "operationCosts" in train ==>
      (CostIssue(train).Err? <==> AsNumber(train["operationCosts"]).None?)
      && (CostIssue(train) == Ok(10000) <==> AsNumber(train["operationCosts"]).Some? && AsNumber(train["operationCosts"]).value < 5.0)
  {
  }

  // ---------------------------------------------------------------------------------------------
  // Step 5: task model

  /** Each station of a task that is not a selected station code scores 10000. */
  function TaskStationIssue(task: Dict, codes: seq<Value>): Result<nat>
  {
    if "stations" !in task then Ok(0)
    else
      var unknown :- UnknownCount(task["stations"], codes);
      Ok(10000 * unknown)
  }

  lemma TaskStationRule(task: Dict, codes: seq<Value>)
    ensures "stations" !in task ==> TaskStationIssue(task, codes) == Ok(0)
    ensures "stations" in task ==> (TaskStationIssue(task, codes).Ok? <==> UnknownCount(task["stations"], codes).Ok?)
    ensures "stations" in task && TaskStationIssue(task, codes).Ok? ==> TaskStationIssue(task, codes).value == 10000 * UnknownCount(task["stations"], codes).value
  {
  }

  function TaskStationCheck(codes: seq<Value>): Dict -> Result<nat>
  {
    t => TaskStationIssue(t, codes)
  }

  /** The task loop: stations counted by the inner loop. */
  method ScoreTaskStations(tasks: seq<Dict>, codes: seq<Value>) returns (r: Result<nat>)
    ensures r == Sum(tasks, TaskStationCheck(codes))
  {
    ghost var score := TaskStationCheck(codes);
    var issues := 0;
    for i := 0 to |tasks|
      invariant Sum(tasks[..i], score) == Ok(issues)
    {
      SumStep(tasks, score, i, issues, score(tasks[i]));
      var task := tasks[i];
      if "stations" in task {
        var unknown := UnknownItemsOf(task["stations"], codes);
        if unknown.Err? {
          return Err(unknown.error);
        }
        issues := issues + 10000 * unknown.value;
      }
    }
    assert tasks[..|tasks|] == tasks;
    return Ok(issues);
  }

  // ---------------------------------------------------------------------------------------------
  // The whole validation

  // ---------------------------------------------------------------------------------------------
  // The stages

  /** Step 3: connectivity and the degrees of the hidden stations. */
  datatype RoutingIssues = RoutingIssues(connectivity: nat, degrees: nat)

  function RoutingScore(stations: seq<Dict>, codes: seq<Value>, paths: seq<Dict>, flatten: seq<Dict> -> seq<Dict>, connected: Graph -> bool): Result<RoutingIssues>
  {
    var g := TcGraph(codes, paths);
    var degrees :- Sum(flatten(stations), DegreeCheck(g));
    Ok(RoutingIssues(ConnectivityIssue(g, connected), degrees))
  }

  method CheckRouting(stations: seq<Dict>, codes: seq<Value>, paths: seq<Dict>, flatten: seq<Dict> -> seq<Dict>, connected: Graph -> bool) returns (r: Result<RoutingIssues>)
    ensures r == RoutingScore(stations, codes, paths, flatten, connected)
  {
    var g := TcGraph(codes, paths);
    var connectivity := ConnectivityIssue(g, connected);
    var degrees :- AddUp(flatten(stations), DegreeCheck(g));
    return Ok(RoutingIssues(connectivity, degrees));
  }

  /** Step 4: duplicate ids, unknown equipments, operation costs. */
  datatype TrainIssues = TrainIssues(duplicateIds: nat, equipments: nat, costs: nat)

  function TrainsScore(trains: seq<Dict>, equipments: seq<Value>): Result<TrainIssues>
  {
    var ids :- TrainIds(trains);
    var duplicates :- DuplicateIdIssue(ids);
    var unknown :- Sum(trains, TrainEquipmentCheck(equipments));
    var costs :- Sum(trains, CostIssue);
    Ok(TrainIssues(duplicates, unknown, costs))
  }

  method CheckTrains(trains: seq<Dict>, equipments: seq<Value>) returns (r: Result<TrainIssues>)
    ensures r == TrainsScore(trains, equipments)
  {
    var ids :- TrainIds(trains);
    var duplicates :- DuplicateIdIssue(ids);
    var unknown :- ScoreTrainEquipments(trains, equipments);
    var costs :- AddUp(trains, CostIssue);
    return Ok(TrainIssues(duplicates, unknown, costs));
  }

  /** Step 5: the stations of the expanded tasks. */
  function TasksScore(taskModel: seq<Dict>, codes: seq<Value>): Result<nat>
  {
    var tasks :- Expansion.Expanded(taskModel);
    Sum(tasks, TaskStationCheck(codes))
  }

  method CheckTasks(taskModel: seq<Dict>, codes: seq<Value>) returns (r: Result<nat>)
    ensures r == TasksScore(taskModel, codes)
  {
    var tasks :- Expansion.ExpandSubRecords(taskModel);
    r := ScoreTaskStations(tasks, codes);
  }

  // ---------------------------------------------------------------------------------------------
  // The whole validation

  /** The four data files the validator reads. */
  datatype Files = Files(stations: seq<Dict>, paths: seq<Dict>, trains: seq<Dict>, taskModel: seq<Dict>)

  /**
   * What the validator takes from outside the files: the codes of the stations data set, whether
   * a code belongs to Germany or Switzerland, the ids of the train equipments, `flatten_objects`,
   * and networkx's `is_connected`.
   */
  datatype Environment = Environment(
    known: set<string>,
    inKnownCountry: Value -> bool,
    trainEquipments: seq<Value>,
    flatten: seq<Dict> -> seq<Dict>,
    connected: Graph -> bool)

  /** The score stage by stage, as `validate` accumulates it. */
  datatype Stages = Stages(stations: nat, paths: nat, routing: RoutingIssues, trains: TrainIssues, taskStations: nat)

  function Total(s: Stages): nat
  {
    s.stations + s.paths + s.routing.connectivity + s.routing.degrees
    + s.trains.duplicateIds + s.trains.equipments + s.trains.costs + s.taskStations
  }

  /** Each stage in the order of `validate`; the first exception aborts the rest. */
  function Staged(files: Files, env: Environment): (r: Result<Stages>)
    ensures r.Ok? ==> CreateTasks.SelectedCodes(files.stations).Ok? && Expansion.Expanded(files.paths).Ok?
    ensures r.Ok? ==>
      var codes := CreateTasks.SelectedCodes(files.stations).value;
      && StationsScore(codes, env.known, env.inKnownCountry) == Ok(r.value.stations)
      && Sum(Expansion.Expanded(files.paths).value, PathCheck(codes, env.trainEquipments)) == Ok(r.value.paths)
      && RoutingScore(files.stations, codes, Expansion.Expanded(files.paths).value, env.flatten, env.connected) == Ok(r.value.routing)
      && TrainsScore(files.trains, env.trainEquipments) == Ok(r.value.trains)
      && TasksScore(files.taskModel, codes) == Ok(r.value.taskStations)
  {
    var codes :- CreateTasks.SelectedCodes(files.stations);
    var stations :- StationsScore(codes, env.known, env.inKnownCountry);
    var paths :- Expansion.Expanded(files.paths);
    StagedFrom(files, env, codes, stations, paths)
  }

  /** The stages after the codes, the stations and the expanded paths. */
  function StagedFrom(files: Files, env: Environment, codes: seq<Value>, stations: nat, paths: seq<Dict>): Result<Stages>
  {
    Combined(stations, Sum(paths, PathCheck(codes, env.trainEquipments)),
      RoutingScore(files.stations, codes, paths, env.flatten, env.connected),
      TrainsScore(files.trains, env.trainEquipments), TasksScore(files.taskModel, codes))
  }

  /**
   * The later stages' outcomes, taken in order: the first exception is the result. Each stage is
   * computed from the files alone, so looking at a later one only once the earlier ones have
   * succeeded gives the same result.
   */
  /** The error of the first failed stage outcome, in the order of `validate`. */
  function FirstError(paths: Result<nat>, routing: Result<RoutingIssues>, trains: Result<TrainIssues>, tasks: Result<nat>): Error
  {
    if paths.Err? then paths.error else if routing.Err? then routing.error
    else if trains.Err? then trains.error else if tasks.Err? then tasks.error else ValueError
  }

  function Combined(stations: nat, paths: Result<nat>, routing: Result<RoutingIssues>, trains: Result<TrainIssues>, tasks: Result<nat>): (r: Result<Stages>)
    ensures r.Ok? <==> paths.Ok? && routing.Ok? && trains.Ok? && tasks.Ok?
    ensures r.Ok? ==> r.value == Stages(stations, paths.value, routing.value, trains.value, tasks.value)
    ensures r.Err? ==> r.error == FirstError(paths, routing, trains, tasks)
  {
    var pathIssues :- paths;
    var routingIssues :- routing;
    var trainIssues :- trains;
    var taskStations :- tasks;
    Ok(Stages(stations, pathIssues, routingIssues, trainIssues, taskStations))
  }


  /** `validate`: the returned issue score. */
  function Score(files: Files, env: Environment): Result<nat>
  {
    var stages :- Staged(files, env);
    Ok(Total(stages))
  }

  /**
   * Step 5 as written: after the expansion it imports `has_direct_path`, which
   * `validation/shortest_paths.py` does not define, so it raises ImportError.
   */
  function TasksScoreAsWritten(taskModel: seq<Dict>, codes: seq<Value>): (r: Result<nat>)
    ensures r.Err?
    ensures Expansion.Expanded(taskModel).Ok? ==> r == Err(ImportError)
  {
    var tasks :- Expansion.Expanded(taskModel);
    Err(ImportError)
  }

  /** `validate` with step 5 as written: it never returns a score, only the first exception. */
  function ScoreAsWritten(files: Files, env: Environment): (r: Result<nat>)
    ensures r.Err?
  {
    var codes :- CreateTasks.SelectedCodes(files.stations);
    var stations :- StationsScore(codes, env.known, env.inKnownCountry);
    var paths :- Expansion.Expanded(files.paths);
    Err(FirstError(Sum(paths, PathCheck(codes, env.trainEquipments)),
      RoutingScore(files.stations, codes, paths, env.flatten, env.connected),
      TrainsScore(files.trains, env.trainEquipments), TasksScoreAsWritten(files.taskModel, codes)))
  }

  /** Every set of files that the validator scores makes the validator as written raise ImportError instead. */
  lemma ScoredFilesFailAsWritten(files: Files, env: Environment)
    requires Score(files, env).Ok?
    ensures ScoreAsWritten(files, env) == Err(ImportError)
  {
    var codes := CreateTasks.SelectedCodes(files.stations).value;
    assert TasksScore(files.taskModel, codes).Ok?;
  }

  /** Every expanded path's own score is part of the validation score, so one blocking path makes the whole score at least 10000. */
  lemma ScoreCountsEveryPath(files: Files, env: Environment, i: nat)
    requires Score(files, env).Ok?
    ensures Expansion.Expanded(files.paths).Ok? && CreateTasks.SelectedCodes(files.stations).Ok?
    ensures i < |Expansion.Expanded(files.paths).value| ==>
      var codes := CreateTasks.SelectedCodes(files.stations).value;
      var path := Expansion.Expanded(files.paths).value[i];
      && PathScore(path, codes, env.trainEquipments).Ok?
      && PathScore(path, codes, env.trainEquipments).value <= Score(files, env).value
  {
    var codes := CreateTasks.SelectedCodes(files.stations).value;
    var paths := Expansion.Expanded(files.paths).value;
    if i < |paths| {
      SumCountsEach(paths, PathCheck(codes, env.trainEquipments), i);
    }
  }

  /** A single path on which a blocking rule fires makes the validation score at least 10000. */
  lemma BlockingPathFails(files: Files, env: Environment, i: nat)
    requires Score(files, env).Ok?
    requires Expansion.Expanded(files.paths).Ok? && CreateTasks.SelectedCodes(files.stations).Ok?
    requires i < |Expansion.Expanded(files.paths).value|
    requires Blocking(WithDefaults(Expansion.Expanded(files.paths).value[i]), CreateTasks.SelectedCodes(files.stations).value, env.trainEquipments)
    ensures Score(files, env).value >= 10000
  {
    ScoreCountsEveryPath(files, env, i);
    PathScoreBlocking(Expansion.Expanded(files.paths).value[i], CreateTasks.SelectedCodes(files.stations).value, env.trainEquipments);
  }

  /** The validator: `issues` starts at 0 and each stage adds its issues to it (`Total`). */
  method Validate(files: Files, env: Environment) returns (r: Result<nat>)
    ensures r == Score(files, env)
  {
    var codes :- CreateTasks.SelectedCodes(files.stations);
    var stations :- CheckStations(codes, env.known, env.inKnownCountry);
    var paths :- Expansion.ExpandSubRecords(files.paths);
    var stages :- RunStages(files, env, codes, stations, paths);
    return Ok(Total(stages));
  }

  /** The later stages of `validate`, once the stations are checked and the paths expanded; the first exception stops it. */
  method RunStages(files: Files, env: Environment, codes: seq<Value>, stations: nat, paths: seq<Dict>) returns (r: Result<Stages>)
    ensures r == StagedFrom(files, env, codes, stations, paths)
  {
    var pathIssues := ScorePaths(paths, codes, env.trainEquipments);
    if pathIssues.Err? {
      return Err(pathIssues.error);
    }
    var routing := CheckRouting(files.stations, codes, paths, env.flatten, env.connected);
    if routing.Err? {
      return Err(routing.error);
    }
    var trains := CheckTrains(files.trains, env.trainEquipments);
    if trains.Err? {
      return Err(trains.error);
    }
    var taskStations := CheckTasks(files.taskModel, codes);
    if taskStations.Err? {
      return Err(taskStations.error);
    }
    return Ok(Stages(stations, pathIssues.value, routing.value, trains.value, taskStations.value));
  }
}
