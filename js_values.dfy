/**
 * A closed model of the JavaScript values that props, state, context and
 * payloads hold. Reference values carry an identity (`Obj(7)` is one
 * particular object); their contents live in a `Heap`.
 */
module JsValues {

  datatype Value =
    | Undefined
    | Null
    | Bool(b: bool)
    | Num(n: real)
    | Str(s: string)
    | BigInt(i: int)
    | Sym(sid: nat)
    | Obj(oid: nat)
    | Arr(aid: nat)
    | Fn(fid: nat)

  /** The `typeof` operator. */
  function TypeOf(v: Value): string {
    match v
    case Undefined => "undefined"
    case Null => "object"
    case Bool(_) => "boolean"
    case Num(_) => "number"
    case Str(_) => "string"
    case BigInt(_) => "bigint"
    case Sym(_) => "symbol"
    case Obj(_) => "object"
    case Arr(_) => "object"
    case Fn(_) => "function"
  }

  /** JavaScript truthiness (NaN is not modelled, so every number but 0 is truthy). */
  predicate Truthy(v: Value) {
    match v
    case Undefined => false
    case Null => false
    case Bool(b) => b
    case Num(n) => n != 0.0
    case Str(s) => s != ""
    case BigInt(i) => i != 0
    case _ => true
  }

  /** `Object.is` and `===` coincide on this model: NaN and signed zeros are not represented. */
  predicate SameValue(a: Value, b: Value) {
    a == b
  }

  /** Contents of reference values: own enumerable entries of objects, elements of arrays. */
  datatype Heap = Heap(objects: map<nat, seq<(string, Value)>>, arrays: map<nat, seq<Value>>)

  function ObjectEntries(h: Heap, oid: nat): seq<(string, Value)> {
    if oid in h.objects then h.objects[oid] else []
  }

  function ArrayItems(h: Heap, aid: nat): seq<Value> {
    if aid in h.arrays then h.arrays[aid] else []
  }

  /** `Object.keys` of a plain object. */
  function ObjectKeys(h: Heap, oid: nat): (r: seq<string>)
    ensures |r| == |ObjectEntries(h, oid)|
  {
    var es := ObjectEntries(h, oid);
    seq(|es|, i requires 0 <= i < |es| => es[i].0)
  }

  /** Decimal text of a natural number, as `Number.prototype.toString` gives it for integers. */
  function NatToString(n: nat): (r: string)
    ensures |r| >= 1
    decreases n
  {
    if n < 10 then [DigitChar(n)] else NatToString(n / 10) + [DigitChar(n % 10)]
  }

  function DigitChar(d: nat): (c: char)
    requires d < 10
    ensures '0' <= c <= '9'
  {
    ('0' as int + d) as char
  }
}
