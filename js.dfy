/** JavaScript values as the strategy sees them: the values JSON.parse produces,
    which also stand for the values a caller puts in an options object, together
    with JavaScript's truthiness and property reads. An absent property (the
    value `undefined`) is `None`. */
module Js {

  datatype Option<+T> = None | Some(value: T)

  /** A JSON value. Numbers are reals: NaN, which JSON cannot express, is not
      represented. */
  datatype Json =
    | Null
    | Bool(b: bool)
    | Num(n: real)
    | Str(s: string)
    | Arr(items: seq<Json>)
    | Obj(fields: map<string, Json>)

  /** JavaScript truthiness of a property value: `undefined`, `null`, `false`,
      `0` and `""` are falsy; every other value, objects and arrays included,
      is truthy. */
  predicate Truthy(v: Option<Json>) {
    match v
    case None => false
    case Some(Null) => false
    case Some(Bool(b)) => b
    case Some(Num(n)) => n != 0.0
    case Some(Str(s)) => s != ""
    case Some(Arr(_)) => true
    case Some(Obj(_)) => true
  }

  /** The own property `key` of an object, `undefined` when it is absent. */
  function Get(m: map<string, Json>, key: string): (r: Option<Json>)
    ensures r.Some? <==> key in m
    ensures r.Some? ==> r.value == m[key]
  {
    if key in m then Some(m[key]) else None
  }

  /** `v || fallback`: the left operand when it is truthy, the right one otherwise. */
  function Or(v: Option<Json>, fallback: Json): (r: Json)
    ensures Truthy(v) ==> Some(r) == v
    ensures !Truthy(v) ==> r == fallback
  {
    if Truthy(v) then v.value else fallback
  }

  /** The property read `json.key` on a value other than `null` (reading a
      property of `null` throws, and callers handle that case first). Only an
      object has the keys the strategy reads; on any other value they read as
      `undefined`. */
  function Read(json: Json, key: string): (r: Option<Json>)
    requires json != Null
    ensures r.Some? ==> json.Obj? && key in json.fields && r.value == json.fields[key]
    ensures json.Obj? && key in json.fields ==> r.Some?
  {
    match json
    case Obj(m) => Get(m, key)
    case _ => None
  }
}
