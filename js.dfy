/**
 * The few pieces of JavaScript value semantics that the login screen relies on
 * when it reads a parsed JSON response: values, truthiness, property reads and
 * the `delete` operator. The text of a thrown TypeError depends on the
 * JavaScript engine; the messages below are illustrative, and only whether an
 * evaluation throws is part of the contracts.
 */
module Js {
  /** A JSON value as `response.json()` produces it, plus `undefined`.
      Numbers are modelled as integers. */
  datatype Value =
    | Undefined
    | Null
    | Bool(b: bool)
    | Num(n: int)
    | Str(s: string)
    | Arr(items: seq<Value>)
    | Obj(props: map<string, Value>)

  /** The completion of an evaluation: a value, or a thrown error message. */
  datatype Completion<T> = Normal(value: T) | Throw(error: string)

  /** `null` and `undefined`, the two values whose properties cannot be read. */
  predicate Nullish(v: Value) {
    v.Undefined? || v.Null?
  }

  /** Truthiness, as used by `if (!v)`. */
  predicate Truthy(v: Value) {
    match v
    case Undefined => false
    case Null => false
    case Bool(b) => b
    case Num(n) => n != 0
    case Str(s) => s != ""
    case Arr(_) => true
    case Obj(_) => true
  }

  /** The value of `v.key` when `v` is not nullish: an own property of an object,
      and `undefined` otherwise (the built-in properties of primitives, such as
      `length`, are never read by the screen and are not modelled). */
  function Prop(v: Value, key: string): Value {
    match v
    case Obj(m) => if key in m then m[key] else Undefined
    case _ => Undefined
  }

  /** Evaluating `v.key`: a TypeError exactly when `v` is nullish. */
  function Get(v: Value, key: string): (r: Completion<Value>)
    ensures r.Throw? <==> Nullish(v)
    ensures r.Normal? ==> r.value == Prop(v, key)
  {
    if v.Undefined? then Throw("TypeError: Cannot read properties of undefined")
    else if v.Null? then Throw("TypeError: Cannot read properties of null")
    else Normal(Prop(v, key))
  }

  /** Evaluating `delete v.key` for its effect on `v`: a TypeError when `v` is
      nullish; an object loses the key; any other value is left as it is. */
  function Delete(v: Value, key: string): (r: Completion<Value>)
    ensures r.Throw? <==> Nullish(v)
    ensures r.Normal? ==> Prop(r.value, key) == Undefined
    ensures r.Normal? ==> forall k :: k != key ==> Prop(r.value, k) == Prop(v, k)
    ensures !Nullish(v) && !v.Obj? ==> r == Normal(v)
    ensures v.Obj? ==> r.Normal? && r.value.Obj? && r.value.props == v.props - {key}
  {
    match v
    case Undefined => Throw("TypeError: Cannot convert undefined or null to object")
    case Null => Throw("TypeError: Cannot convert undefined or null to object")
    case Obj(m) => Normal(Obj(m - {key}))
    case _ => Normal(v)
  }
}
