/**
  JavaScript values as the addon handles them: option hashes, layer
  specifications, GeoJSON payloads. The payloads themselves stay opaque; only
  truthiness, property lookup and `Object.assign` matter to the reuse rules.
*/
module Json {
  import opened Wrappers

  datatype Json =
    | Undefined
    | Null
    | Bool(b: bool)
    | Num(n: int)
    | Str(s: string)
    | Arr(items: seq<Json>)
    | Obj(fields: map<string, Json>)

  /** JavaScript truthiness, as used by `if (x)`, `!x` and `a && b`. */
  predicate Truthy(v: Json)
  {
    match v
    case Undefined => false
    case Null => false
    case Bool(b) => b
    case Num(n) => n != 0
    case Str(s) => s != ""
    case Arr(_) => true
    case Obj(_) => true
  }

  /** `null` or `undefined`: the values whose property access throws. */
  predicate Nullish(v: Json)
  {
    v.Undefined? || v.Null?
  }

  /** The keys `Object.assign` and `for (k in v)` see. */
  function OwnKeys(v: Json): set<string>
  {
    if v.Obj? then v.fields.Keys else {}
  }

  /** Property access `v.k` (or `v?.k`) on a value that is not nullish, or `v?.k` on any value. */
  function Get(v: Json, k: string): (r: Json)
    ensures k in OwnKeys(v) <==> v.Obj? && k in v.fields
    ensures k !in OwnKeys(v) ==> r == Undefined
  {
    if v.Obj? && k in v.fields then v.fields[k] else Undefined
  }

  /** The own properties of an object as a table; nothing for any other value. */
  function Fields(v: Json): (m: map<string, Json>)
    ensures m.Keys == OwnKeys(v)
    ensures forall k :: k in m ==> m[k] == Get(v, k)
  {
    if v.Obj? then v.fields else map[]
  }

  /**
    `Object.assign({}, base, over)`: every own key of either argument, the value
    of `over` winning where both have the key. A `null` or `undefined` source
    contributes nothing. The addon passes only objects and nullish values
    here; the index keys JavaScript would copy from a string or an array are
    not modelled.
  */
  function Overlay(base: Json, over: Json): (r: map<string, Json>)
    ensures r.Keys == OwnKeys(base) + OwnKeys(over)
    ensures forall k :: k in OwnKeys(over) ==> r[k] == Get(over, k)
    ensures forall k :: k in OwnKeys(base) && k !in OwnKeys(over) ==> r[k] == Get(base, k)
  {
    Fields(base) + Fields(over)
  }

  /** Truthiness of an identifier argument that is a string, `null` or `undefined`. */
  predicate TruthyName(id: Option<string>)
  {
    id.Some? && id.value != ""
  }

}
