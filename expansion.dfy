/**
 * The expansion of sub-records that `create_tasks.py` and `validation/__init__.py` both write
 * out: a record without `objects` is kept, and a record with `objects` is replaced by one copy
 * per item the `objects` value iterates, each copy updated by `dict.update` with its item.
 */
module Expansion {
  import opened Wrappers
  import opened Json
  import opened Seqs

  /** `new = parent.copy(); new.update(sub)` for a dictionary `sub`: its fields override the parent's. */
  function Override(parent: Dict, sub: Dict): (r: Dict)
    ensures r.Keys == parent.Keys + sub.Keys
    ensures forall k :: k in sub ==> r[k] == sub[k]
    ensures forall k :: k in parent && k !in sub ==> r[k] == parent[k]
  {
    map k | k in parent.Keys + sub.Keys :: if k in sub then sub[k] else parent[k]
  }

  /** The one-character strings a string iterates as. */
  function CharItems(s: string): (r: seq<Value>)
    ensures |r| == |s| && forall i :: 0 <= i < |s| ==> r[i] == Str([s[i]])
  {
    seq(|s|, i requires 0 <= i < |s| => Str([s[i]]))
  }

  /** Strings as values. */
  function StrItems(keys: seq<string>): (r: seq<Value>)
    ensures |r| == |keys| && forall i :: 0 <= i < |keys| ==> r[i] == Str(keys[i])
  {
    seq(|keys|, i requires 0 <= i < |keys| => Str(keys[i]))
  }

  /**
   * One element of a sequence of pairs given to `dict.update`: it must iterate as exactly two
   * values, the first a hashable key. A list or a string of another length is refused with
   * ValueError, a value that does not iterate and an unhashable key with TypeError. A dictionary
   * of two keys is a pair of its keys in insertion order, and a number, boolean or None key
   * makes a key that is not a string; the model cannot hold either.
   */
  function PairOf(e: Value): (r: Result<(string, Value)>)
    ensures r.Ok? ==> e.Arr? || e.Str?
    ensures (e.Arr? && |e.items| != 2) || (e.Str? && |e.s| != 2) || (e.Obj? && |e.fields| != 2) ==> r == Err(ValueError)
    ensures e.Str? && |e.s| == 2 ==> r == Ok(([e.s[0]], Str([e.s[1]])))
  {
    match e
    case Arr(xs) =>
      if |xs| != 2 then Err(ValueError)
      else
        (match xs[0]
         case Str(k) => Ok((k, xs[1]))
         case Arr(_) => Err(TypeError)
         case Obj(_) => Err(TypeError)
         case _ => Err(Unrepresented))
    case Str(s) => if |s| != 2 then Err(ValueError) else Ok(([s[0]], Str([s[1]])))
    case Obj(m) => if |m| != 2 then Err(ValueError) else Err(Unrepresented)
    case _ => Err(TypeError)
  }

  /** `d.update(pairs)` over the first `n` elements, one assignment per pair, left to right. */
  function UpdatePairs(d: Dict, pairs: seq<Value>, n: nat): (r: Result<Dict>)
    requires n <= |pairs|
    ensures r.Ok? ==> d.Keys <= r.value.Keys
  {
    if n == 0 then Ok(d)
    else
      var before :- UpdatePairs(d, pairs, n - 1);
      var kv :- PairOf(pairs[n - 1]);
      Ok(before[kv.0 := kv.1])
  }

  /**
   * `d.update(item)`: a dictionary overrides the fields; a list or a string is read as a
   * sequence of key/value pairs; other values do not iterate.
   */
  function Update(d: Dict, item: Value): (r: Result<Dict>)
    ensures r.Ok? ==> d.Keys <= r.value.Keys
    ensures item == Arr([]) || item == Str([]) || item == Obj(map[]) ==> r == Ok(d)
  {
    assert Override(d, map[]) == d;
    match item
    case Obj(m) => Ok(Override(d, m))
    case Arr(pairs) => UpdatePairs(d, pairs, |pairs|)
    case Str(s) => UpdatePairs(d, CharItems(s), |s|)
    case _ => Err(TypeError)
  }

  /** The copies of one parent for the first `n` sub-records. */
  function Copies(parent: Dict, items: seq<Value>, n: nat): (r: Result<seq<Dict>>)
    requires n <= |items|
    ensures r.Ok? ==> |r.value| == n
  {
    if n == 0 then Ok([])
    else
      var before :- Copies(parent, items, n - 1);
      var copy :- Update(parent, items[n - 1]);
      Ok(before + [copy])
  }

  /**
   * What one record expands to. `path.pop('objects')` leaves the parent without its sub-records,
   * and the `objects` value is iterated: a list by its items, a string by its characters and a
   * dictionary by its keys (`DictObjectsAsKeys`); other values are not iterable.
   */
  function ExpandOne(record: Dict): (r: Result<seq<Dict>>)
    ensures "objects" !in record ==> r == Ok([record])
  {
    if "objects" !in record then Ok([record])
    else
      var parent := Remove(record, "objects");
      match record["objects"]
      case Arr(items) => Copies(parent, items, |items|)
      case Str(s) => Copies(parent, CharItems(s), |s|)
      case Obj(m) => if m == map[] then Ok([]) else if m.Keys == {""} then Ok([parent]) else Err(ValueError)
      case _ => Err(TypeError)
  }

  /** The expanded list of the records, in order. */
  function Expanded(records: seq<Dict>): (r: Result<seq<Dict>>)
  {
    if records == [] then Ok([])
    else
      var before :- Expanded(records[..|records| - 1]);
      var last :- ExpandOne(records[|records| - 1]);
      Ok(before + last)
  }

  // ---------------------------------------------------------------------------------------------
  // `dict.update` with a sequence of pairs

  /** An update by pairs succeeds exactly when every element is a pair the model can hold. */
  lemma {:induction false} UpdatePairsOk(d: Dict, pairs: seq<Value>, n: nat)
    requires n <= |pairs|
    ensures UpdatePairs(d, pairs, n).Ok? <==> forall i :: 0 <= i < n ==> PairOf(pairs[i]).Ok?
  {
    if n > 0 {
      UpdatePairsOk(d, pairs, n - 1);
    }
  }

  /** A pair that no later pair overrides has its value in the result. */
  lemma {:induction false} UpdatePairsLastWins(d: Dict, pairs: seq<Value>, n: nat, i: nat, k: string, v: Value)
    requires i < n <= |pairs| && PairOf(pairs[i]) == Ok((k, v))
    requires forall j :: i < j < n ==> !(PairOf(pairs[j]).Ok? && PairOf(pairs[j]).value.0 == k)
    ensures UpdatePairs(d, pairs, n).Ok? ==> k in UpdatePairs(d, pairs, n).value && UpdatePairs(d, pairs, n).value[k] == v
  {
    if i < n - 1 {
      UpdatePairsLastWins(d, pairs, n - 1, i, k, v);
    }
  }

  /** A key of the parent that no pair names keeps the parent's value. */
  lemma {:induction false} UpdatePairsUntouched(d: Dict, pairs: seq<Value>, n: nat, k: string)
    requires n <= |pairs| && k in d
    requires forall j :: 0 <= j < n ==> !(PairOf(pairs[j]).Ok? && PairOf(pairs[j]).value.0 == k)
    ensures UpdatePairs(d, pairs, n).Ok? ==> UpdatePairs(d, pairs, n).value[k] == d[k]
  {
    if n > 0 {
      UpdatePairsUntouched(d, pairs, n - 1, k);
    }
  }

  /** The keys after an update by pairs: the parent's and those the pairs name, no others. */
  lemma {:induction false} UpdatePairsKeys(d: Dict, pairs: seq<Value>, n: nat, k: string)
    requires n <= |pairs| && UpdatePairs(d, pairs, n).Ok?
    ensures k in UpdatePairs(d, pairs, n).value <==>
      k in d || exists j :: 0 <= j < n && PairOf(pairs[j]).Ok? && PairOf(pairs[j]).value.0 == k
  {
    if n > 0 {
      UpdatePairsKeys(d, pairs, n - 1, k);
    }
  }

  /** Iterating a non-empty string gives strings of length 1, so updating with one raises ValueError. */
  lemma {:induction false} CharPairsRefused(d: Dict, s: string, n: nat)
    requires 0 < n <= |s|
    ensures UpdatePairs(d, CharItems(s), n) == Err(ValueError)
  {
    if n > 1 {
      CharPairsRefused(d, s, n - 1);
    }
  }

  /** A string sub-record leaves the copy as it is when empty and raises ValueError otherwise. */
  lemma StringItem(d: Dict, s: string)
    ensures Update(d, Str(s)) == if s == [] then Ok(d) else Err(ValueError)
  {
    if s != [] {
      CharPairsRefused(d, s, |s|);
    }
  }

  // ---------------------------------------------------------------------------------------------
  // Copies and the expansion of one record

  /** The copies of a list of sub-records exist exactly when every update succeeds, and each is the parent updated with its item, in order. */
  lemma {:induction false} CopiesMeaning(parent: Dict, items: seq<Value>, n: nat)
    requires n <= |items|
    ensures Copies(parent, items, n).Ok? <==> forall i :: 0 <= i < n ==> Update(parent, items[i]).Ok?
    ensures Copies(parent, items, n).Ok? ==> forall i :: 0 <= i < n ==> Copies(parent, items, n).value[i] == Update(parent, items[i]).value
  {
    if n > 0 {
      CopiesMeaning(parent, items, n - 1);
      if Copies(parent, items, n).Ok? {
        var before := Copies(parent, items, n - 1).value;
        assert Copies(parent, items, n).value == before + [Update(parent, items[n - 1]).value];
      }
    }
  }

  /** Copying fails with the error of the first failing update. */
  lemma {:induction false} CopiesFirstFailure(parent: Dict, items: seq<Value>, n: nat)
    requires n <= |items| && Copies(parent, items, n).Err?
    ensures exists i :: (0 <= i < n && Update(parent, items[i]) == Err(Copies(parent, items, n).error)
      && forall j :: 0 <= j < i ==> Update(parent, items[j]).Ok?)
  {
    CopiesMeaning(parent, items, n - 1);
    if Copies(parent, items, n - 1).Err? {
      CopiesFirstFailure(parent, items, n - 1);
    } else {
      assert Update(parent, items[n - 1]) == Err(Copies(parent, items, n).error);
    }
  }

  /** When every failing update fails with the same error, so do the copies. */
  lemma CopiesFailWith(parent: Dict, items: seq<Value>, e: Error)
    requires forall i :: 0 <= i < |items| && Update(parent, items[i]).Err? ==> Update(parent, items[i]).error == e
    requires exists i :: 0 <= i < |items| && Update(parent, items[i]).Err?
    ensures Copies(parent, items, |items|) == Err(e)
  {
    CopiesMeaning(parent, items, |items|);
    CopiesFirstFailure(parent, items, |items|);
  }

  /** A string of sub-records expands to nothing when empty and raises ValueError otherwise. */
  lemma StringObjects(record: Dict)
    requires "objects" in record && record["objects"].Str?
    ensures ExpandOne(record) == if record["objects"].s == [] then Ok([]) else Err(ValueError)
  {
    var parent, s := Remove(record, "objects"), record["objects"].s;
    if s != [] {
      var items := CharItems(s);
      forall i | 0 <= i < |items|
        ensures Update(parent, items[i]) == Err(ValueError)
      {
        StringItem(parent, [s[i]]);
      }
      assert Update(parent, items[0]).Err?;
      CopiesFailWith(parent, items, ValueError);
    }
  }

  /** Each key of a dictionary of sub-records updates like a string item. */
  lemma KeyItems(parent: Dict, keys: seq<string>)
    ensures forall i :: 0 <= i < |keys| ==> Update(parent, StrItems(keys)[i]) == if keys[i] == [] then Ok(parent) else Err(ValueError)
  {
    forall i | 0 <= i < |keys|
      ensures Update(parent, StrItems(keys)[i]) == if keys[i] == [] then Ok(parent) else Err(ValueError)
    {
      StringItem(parent, keys[i]);
    }
  }

  /** The keys of a dictionary whose only key is empty, listed once each, are that key alone. */
  lemma OnlyEmptyKey(m: Dict, keys: seq<string>)
    requires m.Keys == {""} && forall k :: k in m <==> k in keys
    requires forall i, j :: 0 <= i < j < |keys| ==> keys[i] != keys[j]
    ensures keys == [""]
  {
    assert "" in keys;
    if |keys| > 1 {
      FirstTwo(keys);
      assert false;
    }
    assert keys[0] in m;
  }

  lemma FirstIn(keys: seq<string>)
    requires keys != []
    ensures keys[0] in keys
  {
  }

  /** The first two elements of a sequence, and whether they differ. */
  lemma FirstTwo(keys: seq<string>)
    requires |keys| > 1
    ensures keys[0] in keys && keys[1] in keys
    ensures (forall i, j :: 0 <= i < j < |keys| ==> keys[i] != keys[j]) ==> keys[0] != keys[1]
  {
  }

  /** A dictionary of sub-records with a non-empty key: its keys, as string items, fail with ValueError. */
  lemma NonEmptyKeyRefused(parent: Dict, keys: seq<string>, i: nat)
    requires i < |keys| && keys[i] != []
    ensures Copies(parent, StrItems(keys), |keys|) == Err(ValueError)
  {
    var items := StrItems(keys);
    KeyItems(parent, keys);
    assert Update(parent, items[i]).Err?;
    forall j | 0 <= j < |items| && Update(parent, items[j]).Err?
      ensures Update(parent, items[j]).error == ValueError
    {
    }
    CopiesFailWith(parent, items, ValueError);
  }

  /**
   * A dictionary of sub-records is iterated by its keys, in whatever order they were inserted:
   * the expansion is that of the list of its keys as strings.
   */
  lemma DictObjectsAsKeys(record: Dict, keys: seq<string>)
    requires "objects" in record && record["objects"].Obj?
    requires forall k :: k in record["objects"].fields <==> k in keys
    requires forall i, j :: 0 <= i < j < |keys| ==> keys[i] != keys[j]
    ensures ExpandOne(record) == Copies(Remove(record, "objects"), StrItems(keys), |keys|)
  {
    var parent, m := Remove(record, "objects"), record["objects"].fields;
    if m == map[] {
      assert ExpandOne(record) == Ok([]);
      if keys != [] {
        FirstIn(keys);
        assert false;
      }
    } else if m.Keys == {""} {
      assert ExpandOne(record) == Ok([parent]);
      OnlyEmptyKey(m, keys);
      EmptyKeyCopies(parent);
    } else {
      assert ExpandOne(record) == Err(ValueError);
      var k :| k in m && k != "";
      var i :| 0 <= i < |keys| && keys[i] == k;
      NonEmptyKeyRefused(parent, keys, i);
    }
  }

  /** The copies for the single key "" are the parent alone. */
  lemma EmptyKeyCopies(parent: Dict)
    ensures Copies(parent, StrItems([""]), 1) == Ok([parent])
  {
    var items := StrItems([""]);
    assert items[0] == Str([]);
    assert Update(parent, items[0]) == Ok(parent);
    assert Copies(parent, items, 0) == Ok([]);
    assert [] + [parent] == [parent];
  }

  /** A record with no sub-records expands to itself alone; one with a list of them to one record per item. */
  lemma ExpandOneMeaning(record: Dict)
    ensures "objects" in record && record["objects"].Arr? ==>
      var items := record["objects"].items;
      && (ExpandOne(record).Ok? <==> forall i :: 0 <= i < |items| ==> Update(Remove(record, "objects"), items[i]).Ok?)
      && (ExpandOne(record).Ok? ==> |ExpandOne(record).value| == |items|)
      && (ExpandOne(record).Ok? ==> forall i :: 0 <= i < |items| ==> ExpandOne(record).value[i] == Update(Remove(record, "objects"), items[i]).value)
  {
    if "objects" in record && record["objects"].Arr? {
      var items := record["objects"].items;
      CopiesMeaning(Remove(record, "objects"), items, |items|);
    }
  }

  /** A copy never carries the parent's `objects`: a dictionary item gives it `objects` exactly when the item has them. */
  lemma CopyDropsParentObjects(record: Dict, i: nat)
    requires "objects" in record && record["objects"].Arr? && ExpandOne(record).Ok?
    requires i < |record["objects"].items|
    ensures record["objects"].items[i].Obj? ==>
      ("objects" in ExpandOne(record).value[i] <==> "objects" in record["objects"].items[i].fields)
  {
    ExpandOneMeaning(record);
  }

  // ---------------------------------------------------------------------------------------------
  // The expansion of a list of records

  /** Records without sub-records are left exactly as they are. */
  lemma {:induction false} ExpandedWithoutObjects(records: seq<Dict>)
    requires forall i :: 0 <= i < |records| ==> "objects" !in records[i]
    ensures Expanded(records) == Ok(records)
  {
    if records != [] {
      ExpandedWithoutObjects(records[..|records| - 1]);
      assert records[..|records| - 1] + [records[|records| - 1]] == records;
    }
  }

  /** The last record's expansion follows the others'. */
  lemma ExpandedLast(records: seq<Dict>, init: seq<Dict>, last: Dict)
    requires records == init + [last]
    ensures Expanded(records).Ok? <==> Expanded(init).Ok? && ExpandOne(last).Ok?
    ensures Expanded(records).Ok? ==> Expanded(records).value == Expanded(init).value + ExpandOne(last).value
  {
    assert records[..|records| - 1] == init;
  }

  /** Expansion works record by record: a concatenation expands when both parts do, to the concatenation of their lists. */
  lemma {:induction false} ExpandedAppend(xs: seq<Dict>, ys: seq<Dict>)
    ensures Expanded(xs + ys).Ok? <==> Expanded(xs).Ok? && Expanded(ys).Ok?
    ensures Expanded(xs + ys).Ok? ==> Expanded(xs + ys).value == Expanded(xs).value + Expanded(ys).value
  {
    if ys == [] {
      assert xs + ys == xs;
    } else {
      var init := ys[..|ys| - 1];
      var last := ys[|ys| - 1];
      ExpandedAppend(xs, init);
      assert xs + ys == (xs + init) + [last];
      ExpandedLast(xs + ys, xs + init, last);
      ExpandedLast(ys, init, last);
      if Expanded(xs + ys).Ok? {
        ConcatAssoc(Expanded(xs).value, Expanded(init).value, ExpandOne(last).value);
      }
    }
  }

  lemma {:induction false} ExpandedErrorPersists(records: seq<Dict>, j: nat)
    requires j <= |records| && Expanded(records[..j]).Err?
    ensures Expanded(records) == Expanded(records[..j])
    decreases |records| - j
  {
    if j < |records| {
      assert records[..j + 1][..j] == records[..j];
      ExpandedErrorPersists(records, j + 1);
    } else {
      assert records[..j] == records;
    }
  }

  // ---------------------------------------------------------------------------------------------
  // The loops

  /** The copying loop of one record: each sub-record, in order, updates a copy of the parent. */
  method CopyAll(parent: Dict, items: seq<Value>) returns (r: Result<seq<Dict>>)
    ensures r == Copies(parent, items, |items|)
  {
    var out: seq<Dict> := [];
    for i := 0 to |items|
      invariant Copies(parent, items, i) == Ok(out)
    {
      var copy := Update(parent, items[i]);
      if copy.Err? {
        CopiesErrorPersists(parent, items, i + 1);
        return Err(copy.error);
      }
      out := out + [copy.value];
    }
    return Ok(out);
  }

  lemma {:induction false} CopiesErrorPersists(parent: Dict, items: seq<Value>, j: nat)
    requires j <= |items| && Copies(parent, items, j).Err?
    ensures Copies(parent, items, |items|) == Copies(parent, items, j)
    decreases |items| - j
  {
    if j < |items| {
      CopiesErrorPersists(parent, items, j + 1);
    }
  }

  /**
   * The expansion loop: records are appended, or their copies, one record after the other. A
   * dictionary of sub-records is decided without iterating it, as `DictObjectsAsKeys` justifies.
   */
  method ExpandSubRecords(records: seq<Dict>) returns (r: Result<seq<Dict>>)
    ensures r == Expanded(records)
  {
    var out: seq<Dict> := [];
    for i := 0 to |records|
      invariant Expanded(records[..i]) == Ok(out)
    {
      assert records[..i + 1][..i] == records[..i];
      var record := records[i];
      var one: Result<seq<Dict>>;
      if "objects" !in record {
        one := Ok([record]);
      } else {
        var parent := Remove(record, "objects");
        match record["objects"]
        case Arr(items) =>
          one := CopyAll(parent, items);
        case Str(s) =>
          one := CopyAll(parent, CharItems(s));
        case Obj(m) =>
          one := if m == map[] then Ok([]) else if m.Keys == {""} then Ok([parent]) else Err(ValueError);
        case _ =>
          one := Err(TypeError);
      }
      assert one == ExpandOne(record);
      if one.Err? {
        ExpandedErrorPersists(records, i + 1);
        return Err(one.error);
      }
      out := out + one.value;
    }
    assert records[..|records|] == records;
    return Ok(out);
  }
}
