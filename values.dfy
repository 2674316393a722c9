/** JavaScript values as the server handles them: JSON data, plus `undefined`
    and functions. An object is a map from keys to values; the insertion
    order of its keys is not represented. */
module Values {

  datatype Value =
    | Undefined
    | Null
    | Bool(b: bool)
    | Num(n: real)
    | Str(s: string)
    | Arr(items: seq<Value>)
    | Obj(fields: map<string, Value>)
    | Func(name: string)

  /** A plain object with its own keys. */
  type Record = map<string, Value>

  /** `Boolean(v)`. NaN is not representable. */
  predicate Truthy(v: Value) {
    match v
    case Undefined => false
    case Null => false
    case Bool(b) => b
    case Num(n) => n != 0.0
    case Str(s) => s != ""
    case _ => true
  }

  /** `typeof v === 'string'` */
  predicate IsString(v: Value) {
    v.Str?
  }

  /** An integral number, as JSON schema's `integer` type. */
  predicate IsInteger(v: Value) {
    v.Num? && v.n == v.n.Floor as real
  }

  /** A JSON-schema `object`: not an array, not null. */
  predicate IsObject(v: Value) {
    v.Obj?
  }

  /** A JSON-schema `array` of `string` items. */
  predicate IsStringArray(v: Value) {
    v.Arr? && forall i :: 0 <= i < |v.items| ==> v.items[i].Str?
  }

  /** A JSON-schema `array` of `object` items. */
  predicate IsObjectArray(v: Value) {
    v.Arr? && forall i :: 0 <= i < |v.items| ==> v.items[i].Obj?
  }

  /** `r[k]`: a missing key reads as `undefined`. */
  function Get(r: Record, k: string): Value {
    if k in r then r[k] else Undefined
  }

  /** `v.k` on a value that is not `undefined` or `null`; a primitive has
      none of the keys the server reads. */
  function Prop(v: Value, k: string): Value {
    if v.Obj? then Get(v.fields, k) else Undefined
  }

  /** A key that is set to something other than `undefined`
      (JSON-schema's `required`, and `properties` only look at these). */
  predicate Present(r: Record, k: string) {
    k in r && r[k] != Undefined
  }

  /** The own keys that `Object.assign` copies from a source value. */
  function Fields(v: Value): Record {
    if v.Obj? then v.fields else map[]
  }

  /** `omitBy(r, val => val === undefined)` */
  function OmitUndefined(r: Record): (r': Record)
    ensures forall k :: k in r' <==> Present(r, k)
    ensures forall k :: k in r' ==> k in r && r'[k] == r[k]
  {
    map k | k in r && r[k] != Undefined :: r[k]
  }

  /** `omit(r, k)` */
  function Omit(r: Record, k: string): (r': Record)
    ensures r'.Keys == r.Keys - {k}
    ensures forall j :: j in r' ==> r'[j] == r[j]
  {
    r - {k}
  }

  /** `{ ...a, ...b }` and `Object.assign({}, a, b)`: keys of `b` win. */
  function Assign(a: Record, b: Record): (r: Record)
    ensures r.Keys == a.Keys + b.Keys
    ensures forall k :: k in b ==> r[k] == b[k]
    ensures forall k :: k in a && k !in b ==> r[k] == a[k]
  {
    a + b
  }

  /** Reading a key of a merge. */
  lemma GetAssign(a: Record, b: Record, k: string)
    ensures Get(Assign(a, b), k) == if k in b then b[k] else Get(a, k)
  {
  }

  /** Reading a key of a record without its `undefined` values reads the
      same as in the record. */
  lemma GetOmitUndefined(r: Record, k: string)
    ensures Get(OmitUndefined(r), k) == Get(r, k)
  {
  }

  /** `omitBy(Object.assign(base, extra, last), isUndefined)`: `last` over
      `extra` over `base`, and no `undefined` value. */
  function Merge(base: Record, extra: Record, last: Record): (r: Record)
    ensures forall k :: k in r ==> r[k] != Undefined
    ensures forall k :: k in r ==> k in base || k in extra || k in last
    ensures forall k :: Get(r, k) == if k in last then last[k] else if k in extra then extra[k] else Get(base, k)
  {
    var merged := Assign(Assign(base, extra), last);
    assert forall k :: Get(merged, k) == if k in last then last[k] else if k in extra then extra[k] else Get(base, k);
    OmitUndefined(merged)
  }
}
