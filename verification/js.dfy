/** The fragment of JavaScript value semantics the client relies on:
    parsed JSON values, truthiness and property reads. */
module Js {
  import opened Wrappers

  /** A JavaScript value as produced by `JSON.parse`, plus `undefined` for a
      missing property. Numbers are modelled as integers. */
  datatype Value =
    | Undefined
    | Null
    | Bool(b: bool)
    | Num(n: int)
    | Str(s: string)
    | Arr(items: seq<Value>)
    | Obj(fields: map<string, Value>)

  /** What a property read on `null` or `undefined` throws. */
  datatype TypeError = CannotReadProperty(key: string)

  predicate Nullish(v: Value) {
    v.Undefined? || v.Null?
  }

  /** JavaScript truthiness: `undefined`, `null`, `false`, `0` and `""` are
      falsy; every array and object (even an empty one) is truthy. */
  predicate Truthy(v: Value) {
    match v
    case Undefined => false
    case Null => false
    case Bool(b) => b
    case Num(n) => n != 0
    case Str(s) => s != ""
    case Arr(_) => true
    case Obj(_) => true
  }

  /** `v[key]` on a value that is not `null`/`undefined`: an own field of an
      object, and `undefined` otherwise. */
  function Field(v: Value, key: string): (r: Value)
    requires !Nullish(v)
    ensures r != Undefined ==> v.Obj? && key in v.fields && r == v.fields[key]
    ensures v.Obj? && key in v.fields ==> r == v.fields[key]
  {
    if v.Obj? && key in v.fields then v.fields[key] else Undefined
  }

  /** `v.key`: throws a TypeError exactly when `v` is `null` or `undefined`. */
  function Get(v: Value, key: string): (r: Result<Value, TypeError>)
    ensures r.Err? <==> Nullish(v)
    ensures r.Err? ==> r.error == CannotReadProperty(key)
    ensures r.Ok? ==> r.value == Field(v, key)
  {
    if Nullish(v) then Err(CannotReadProperty(key)) else Ok(Field(v, key))
  }
}
