/**
 * The few pieces of JavaScript value semantics the core relies on:
 * truthiness of an optional string, property reads on a parsed JSON value,
 * and strict equality `===`.
 */
module JsValues {
  import opened Wrappers

  /** A value produced by `JSON.parse`, plus `undefined` for a missing property. */
  datatype JsValue =
    | Undefined
    | Null
    | Bool(b: bool)
    | Num(n: real)
    | Str(s: string)
    | Arr(elems: seq<JsValue>)
    | Obj(props: map<string, JsValue>)

  /**
   * Truthiness of an optional string (a GraphQL `ID` argument or an HTTP
   * header): `undefined` and the empty string are falsy, every other string
   * is truthy.
   */
  predicate Truthy(v: Option<string>) {
    v.Some? && v.value != ""
  }

  /** Primitive values compare by value under `===`; arrays and objects by reference. */
  predicate IsPrimitive(v: JsValue) {
    !v.Arr? && !v.Obj?
  }

  /**
   * `a === b` for two values that come from two separate `JSON.parse` calls.
   * Primitives compare by value. Arrays and objects compare by reference, and
   * two separately parsed values never share a reference, so they are never
   * strictly equal, not even to a structurally identical copy.
   */
  predicate StrictEquals(a: JsValue, b: JsValue)
    ensures StrictEquals(a, b) ==> a == b && IsPrimitive(a)
  {
    match (a, b)
    case (Undefined, Undefined) => true
    case (Null, Null) => true
    case (Bool(x), Bool(y)) => x == y
    case (Num(x), Num(y)) => x == y
    case (Str(x), Str(y)) => x == y
    case _ => false
  }

  /** `===` on separately parsed values is equality restricted to primitives. */
  lemma StrictEqualsIsPrimitiveEquality(a: JsValue, b: JsValue)
    ensures StrictEquals(a, b) <==> a == b && IsPrimitive(a)
  {
  }

  /** Property reads throw a TypeError exactly on `undefined` and `null`. */
  predicate HasProperties(v: JsValue) {
    !v.Undefined? && !v.Null?
  }

  /**
   * `v[key]`, or `None` when the read throws a TypeError. An object yields
   * the property or `undefined`; any other value with properties yields
   * `undefined` (no built-in property of a primitive or an array is named
   * like the payload fields read in this model).
   */
  function GetProperty(v: JsValue, key: string): (r: Option<JsValue>)
    ensures r.None? <==> !HasProperties(v)
    ensures r.Some? && !v.Obj? ==> r.value == Undefined
    ensures v.Obj? && key in v.props ==> r == Some(v.props[key])
    ensures v.Obj? && key !in v.props ==> r == Some(Undefined)
  {
    match v
    case Undefined => None
    case Null => None
    case Obj(props) => Some(if key in props then props[key] else Undefined)
    case _ => Some(Undefined)
  }
}
