/**
 * Parsed JSON values and the few JavaScript operators the application applies to them:
 * property lookup, `typeof` tests and truthiness.
 */
module JsonValues {
  import opened Wrappers

  /** A value produced by `JSON.parse`. Numbers are modelled as exact reals. */
  datatype Json =
    | Null
    | Bool(b: bool)
    | Num(n: real)
    | Str(s: string)
    | Arr(items: seq<Json>)
    | Obj(fields: map<string, Json>)

  /** `typeof v === 'object' && v !== null`: arrays are objects too. */
  predicate IsObjectLike(v: Json) {
    v.Arr? || v.Obj?
  }

  /**
   * Property lookup `v.key`; `None` is `undefined`. Only plain objects carry the
   * property names the application reads (none of them is an array or string
   * built-in such as `length`).
   */
  function Get(v: Json, key: string): (r: Option<Json>)
    ensures r.Some? <==> v.Obj? && key in v.fields
    ensures r.Some? ==> r.value == v.fields[key]
  {
    if v.Obj? && key in v.fields then Some(v.fields[key]) else None
  }

  /** `typeof v === 'string'`. */
  predicate IsStr(v: Option<Json>) {
    v.Some? && v.value.Str?
  }

  /** `typeof v === 'number'`. */
  predicate IsNum(v: Option<Json>) {
    v.Some? && v.value.Num?
  }

  /** `typeof v === 'boolean'`. */
  predicate IsBool(v: Option<Json>) {
    v.Some? && v.value.Bool?
  }

  /**
   * JavaScript truthiness of a possibly-undefined value. JSON never produces NaN,
   * so a number is falsy exactly when it is zero.
   */
  predicate Truthy(v: Option<Json>) {
    match v
    case None => false
    case Some(j) =>
      match j
      case Null => false
      case Bool(b) => b
      case Num(n) => n != 0.0
      case Str(s) => s != ""
      case Arr(_) => true
      case Obj(_) => true
  }

  /** Text of a string-valued property, `""` when the property is not a string. */
  function StrOf(v: Json, key: string): (s: string)
    ensures IsStr(Get(v, key)) ==> Get(v, key) == Some(Str(s))
  {
    match Get(v, key)
    case Some(Str(s)) => s
    case _ => ""
  }

  /** `v || fallback`: the property's value when it is truthy, the fallback otherwise. */
  function OrElse(v: Option<Json>, fallback: Json): (r: Json)
    ensures Truthy(v) ==> Some(r) == v
    ensures !Truthy(v) ==> r == fallback
  {
    if Truthy(v) then v.value else fallback
  }
}
