/** The JavaScript values a parsed JSON-RPC request can hold, with the parts
    of JavaScript semantics the route relies on: truthiness, `a || b`, and
    property reads (which throw a TypeError on `null` and `undefined`). */
module JsValues {
  import opened Wrappers

  /** Numbers are reals: the route only tests them for truthiness. */
  datatype JsValue =
    | Undefined
    | Null
    | Bool(b: bool)
    | Num(n: real)
    | Str(s: string)
    | Arr(items: seq<JsValue>)
    | Obj(fields: map<string, JsValue>)

  /** `Boolean(v)`: `undefined`, `null`, `false`, `0` and `""` are falsy. */
  predicate Truthy(v: JsValue) {
    match v
    case Undefined => false
    case Null => false
    case Bool(b) => b
    case Num(n) => n != 0.0
    case Str(s) => s != ""
    case Arr(_) => true
    case Obj(_) => true
  }

  /** `v || fallback`. */
  function Or(v: JsValue, fallback: JsValue): (r: JsValue)
    ensures r == v || r == fallback
    ensures Truthy(r) <==> Truthy(v) || Truthy(fallback)
    ensures Truthy(v) ==> r == v
    ensures !Truthy(v) ==> r == fallback
  {
    if Truthy(v) then v else fallback
  }

  /** `(a || b) || c` and `a || (b || c)` pick the same value. */
  lemma OrAssociative(a: JsValue, b: JsValue, c: JsValue)
    ensures Or(Or(a, b), c) == Or(a, Or(b, c))
  {
  }

  /** `v[key]` on a value that is neither `null` nor `undefined`: an own field
      of an object, and `undefined` for every other value (none of the keys
      the route reads is a property of strings, numbers or arrays). */
  function Field(v: JsValue, key: string): JsValue {
    if v.Obj? && key in v.fields then v.fields[key] else Undefined
  }

  predicate Nullish(v: JsValue) { v.Undefined? || v.Null? }

  /** The message of the TypeError a property read on `null` raises. */
  function ReadError(v: JsValue, key: string): string {
    "Cannot read properties of " + (if v.Null? then "null" else "undefined") + " (reading '" + key + "')"
  }

  /** `v.key`, which throws on `null` and `undefined`. */
  function Read(v: JsValue, key: string): (r: Result<JsValue, string>)
    ensures r.Failure? <==> Nullish(v)
    ensures r.Success? ==> r.value == Field(v, key)
  {
    if Nullish(v) then Failure(ReadError(v, key)) else Success(Field(v, key))
  }
}
