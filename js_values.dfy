/** JavaScript values as a request body or a property bag carries them, and the
    two defaulting operators the route handlers use on them: `||` replaces every
    falsy value, `??` replaces only `undefined` and `null`. */
module JsValues {

  import opened Wrappers

  /** A JSON value as `await request.json()` yields it, plus `undefined`,
      which is what reading a missing property gives. Numbers are finite
      (JSON has no NaN). */
  datatype Value =
    | Undefined
    | Null
    | Bool(b: bool)
    | Num(n: real)
    | Str(s: string)
    | Arr(items: seq<Value>)
    | Obj(fields: map<string, Value>)

  /** JavaScript truthiness: false, 0, "", null and undefined are falsy. */
  predicate Truthy(v: Value)
  {
    match v
    case Undefined => false
    case Null => false
    case Bool(b) => b
    case Num(n) => n != 0.0
    case Str(s) => s != ""
    case Arr(_) => true
    case Obj(_) => true
  }

  predicate Nullish(v: Value)
  {
    v.Undefined? || v.Null?
  }

  /** `v || d` */
  function Or(v: Value, d: Value): (r: Value)
    ensures r == v || r == d
    ensures Truthy(v) ==> r == v
    ensures !Truthy(v) ==> r == d
  {
    if Truthy(v) then v else d
  }

  /** `v ?? d` */
  function Coalesce(v: Value, d: Value): (r: Value)
    ensures r == v || r == d
    ensures !Nullish(v) ==> r == v
    ensures Nullish(v) ==> r == d
  {
    if Nullish(v) then d else v
  }

  /** The two operators agree exactly when v is truthy, nullish, or already the
      default: they differ on `false`, `0` and `""` only. */
  lemma OrVersusCoalesce(v: Value, d: Value)
    ensures Or(v, d) == Coalesce(v, d) <==> (Truthy(v) || Nullish(v) || v == d)
    ensures Or(v, d) != Coalesce(v, d) ==> v in {Bool(false), Num(0.0), Str("")}
  {
    match v
    case Bool(b) =>
    case Num(n) =>
    case Str(s) =>
    case _ =>
  }

  /** Reading property `key` while destructuring `const { key } = body`.
      Destructuring `null` or `undefined` throws (None); any other
      non-object yields `undefined` for the keys the handlers read. */
  function Property(body: Value, key: string): (r: Option<Value>)
    ensures r.None? <==> Nullish(body)
    ensures body.Obj? && key !in body.fields ==> r == Some(Undefined)
    ensures body.Obj? && key in body.fields ==> r == Some(body.fields[key])
  {
    match body
    case Undefined => None
    case Null => None
    case Obj(fields) => if key in fields then Some(fields[key]) else Some(Undefined)
    case _ => Some(Undefined)
  }

  /** Property of a value already known to be destructurable. */
  function Get(body: Value, key: string): (r: Value)
    requires !Nullish(body)
    ensures Property(body, key) == Some(r)
  {
    Property(body, key).value
  }
}
