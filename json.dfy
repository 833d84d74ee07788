/**
 * JSON-like values as the toolkit handles them after `json.load`: dictionaries from string keys,
 * lists, strings, numbers, booleans and None, with Python's truthiness and the dictionary
 * operations the modelled code uses.
 */
module Json {
  import opened Wrappers

  datatype Value =
    | Null
    | Bool(b: bool)
    | Int(i: int)
    | Float(r: real)
    | Str(s: string)
    | Arr(items: seq<Value>)
    | Obj(fields: map<string, Value>)

  type Dict = map<string, Value>

  /** Python's `bool(v)`. */
  predicate Truthy(v: Value)
  {
    match v
    case Null => false
    case Bool(b) => b
    case Int(i) => i != 0
    case Float(r) => r != 0.0
    case Str(s) => s != []
    case Arr(xs) => xs != []
    case Obj(m) => m != map[]
  }

  /** `d.get(k)`: the value under `k`, or None when `k` is missing. */
  function Get(d: Dict, k: string): (r: Value)
    ensures k !in d ==> r == Null
    ensures k in d ==> r == d[k]
  {
    if k in d then d[k] else Null
  }

  /** `{k: v for k, v in d.items() if v is not None}`. */
  function WithoutNulls(d: Dict): (r: Dict)
    ensures forall k :: k in r <==> k in d && d[k] != Null
    ensures forall k :: k in r ==> r[k] == d[k]
  {
    map k | k in d && d[k] != Null :: d[k]
  }

  /** `d.pop(k, None)` when only the remaining dictionary matters. */
  function Remove(d: Dict, k: string): (r: Dict)
    ensures r.Keys == d.Keys - {k}
    ensures forall j :: j in r ==> r[j] == d[j]
  {
    map j | j in d && j != k :: d[j]
  }

  /** The numeric reading of a value in a comparison: booleans and integers promote to numbers. */
  function AsNumber(v: Value): Option<real>
  {
    match v
    case Bool(b) => Some(if b then 1.0 else 0.0)
    case Int(i) => Some(i as real)
    case Float(r) => Some(r)
    case _ => None
  }

  /** Python's `v == x` for a number `x`: booleans and integers compare by their numeric value. */
  predicate Equals(v: Value, x: real)
  {
    AsNumber(v) == Some(x)
  }

  /** The representative Python's `==` sees: numbers by their value, other values as they are. */
  function Canonical(v: Value): (r: Value)
    ensures AsNumber(v).Some? ==> r == Float(AsNumber(v).value)
    ensures AsNumber(v).None? ==> r == v
  {
    match AsNumber(v)
    case Some(x) => Float(x)
    case None => v
  }

  /** Python's `a == b`, where `1 == 1.0 == True`. */
  predicate PyEq(a: Value, b: Value)
  {
    Canonical(a) == Canonical(b)
  }

  /** Numbers are equal when their values are, whatever their type; any other value equals only itself. */
  lemma PyEqMeaning(a: Value, b: Value)
    ensures AsNumber(a).Some? ==> (PyEq(a, b) <==> AsNumber(b) == AsNumber(a))
    ensures AsNumber(a).None? ==> (PyEq(a, b) <==> a == b)
    ensures PyEq(Bool(true), Int(1)) && PyEq(Int(1), Float(1.0)) && !PyEq(Str("1"), Int(1))
  {
    assert Canonical(Str("1")) == Str("1");
  }

  /** Python's `a < b` for numbers; comparing anything else (None, a string with a number) raises TypeError. */
  function Less(a: Value, b: Value): (r: Result<bool>)
    ensures r.Ok? <==> AsNumber(a).Some? && AsNumber(b).Some?
  {
    match (AsNumber(a), AsNumber(b))
    case (Some(x), Some(y)) => Ok(x < y)
    case _ => Err(TypeError)
  }

  /** Values a set or a dictionary key can hold: lists and dictionaries are unhashable. */
  predicate Hashable(v: Value)
  {
    !v.Arr? && !v.Obj?
  }

  /** The list a value iterates as, when it is a list. */
  function ItemsOf(v: Value): seq<Value>
  {
    if v.Arr? then v.items else []
  }
}
