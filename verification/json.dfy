/**
  The Python values `json.load`/`resp.json()` produce, and the few Python
  operations on them the enrichment core uses: truthiness, `dict.get`,
  `a or b`, and `isinstance(x, list) and all(isinstance(d, str) ...)`.
 */
module Json {

  /** `None`, `bool`, `int`, `float`, `str`, `list` and `dict` with string keys. */
  datatype Json =
    | Null
    | Bool(b: bool)
    | Int(n: int)
    | Float(x: real)
    | String(s: string)
    | Array(items: seq<Json>)
    | Object(fields: map<string, Json>)

  /** Python's `bool(v)`: the zero, empty and `None` values are false. */
  predicate Truthy(v: Json) {
    match v
    case Null => false
    case Bool(b) => b
    case Int(n) => n != 0
    case Float(x) => x != 0.0
    case String(s) => s != []
    case Array(items) => items != []
    case Object(fields) => fields != map[]
  }

  /** `d.get(key)`: a missing key reads as `None`, the same value JSON `null` loads as. */
  function Get(fields: map<string, Json>, key: string): Json
  {
    if key in fields then fields[key] else Null
  }

  /** Python's `a or b`: `a` when it is truthy, otherwise `b`. The result is
      one of the operands, and it is truthy iff either operand is. */
  function Or(a: Json, b: Json): (v: Json)
    ensures v == a || v == b
    ensures Truthy(v) <==> Truthy(a) || Truthy(b)
  {
    if Truthy(a) then a else b
  }

  /** `isinstance(v, list) and all(isinstance(d, str) for d in v)` */
  predicate IsStringList(v: Json) {
    v.Array? && forall i :: 0 <= i < |v.items| ==> v.items[i].String?
  }

  /** The Python strings held by a list of strings. */
  function StringsOf(v: Json): (ds: seq<string>)
    requires IsStringList(v)
    ensures |ds| == |v.items|
    ensures forall i :: 0 <= i < |ds| ==> v.items[i] == String(ds[i])
  {
    seq(|v.items|, i requires 0 <= i < |v.items| => v.items[i].s)
  }

  /** A Python list of strings as a JSON value. */
  function FromStrings(ds: seq<string>): (v: Json)
    ensures IsStringList(v)
    ensures |v.items| == |ds|
    ensures forall i :: 0 <= i < |ds| ==> v.items[i] == String(ds[i])
  {
    Array(seq(|ds|, i requires 0 <= i < |ds| => String(ds[i])))
  }

  /** Reading the strings back out of a list of strings gives the list itself. */
  lemma StringsRoundTrip(ds: seq<string>)
    ensures StringsOf(FromStrings(ds)) == ds
  {
  }

  /** A list of strings is determined by the strings it holds. */
  lemma StringListRoundTrip(v: Json)
    requires IsStringList(v)
    ensures FromStrings(StringsOf(v)) == v
  {
    assert FromStrings(StringsOf(v)).items == v.items;
  }

}
