/** The part of JavaScript's value model that the authorization code relies
    on: records read field by field, truthiness tests and the errors raised
    by reading through `undefined` or `null`. */
module JsValues {

  /** A JSON-like JavaScript value. Numbers are integers here. */
  datatype Value =
    | Undefined
    | Null
    | Bool(b: bool)
    | Num(n: int)
    | Str(s: string)
    | Arr(elems: seq<Value>)
    | Obj(fields: map<string, Value>)

  /** JavaScript truthiness: `!v` is true exactly for the falsy values. */
  predicate Truthy(v: Value)
  {
    match v
    case Undefined => false
    case Null => false
    case Bool(b) => b
    case Num(n) => n != 0
    case Str(s) => s != ""
    case Arr(_) => true
    case Obj(_) => true
  }

  /** Reading a property of these throws a TypeError. */
  predicate Nullish(v: Value)
  {
    v.Undefined? || v.Null?
  }

  /** `v.key` for a value that is not nullish: the own field when there is
      one, `undefined` otherwise. */
  function Prop(v: Value, key: string): Value
  {
    match v
    case Obj(m) => if key in m then m[key] else Undefined
    case _ => Undefined
  }

  /** The object literal `{ k: v.k, ... }` over the keys `keys`. */
  function Project(v: Value, keys: set<string>): Value
  {
    Obj(map k | k in keys :: Prop(v, k))
  }
}
