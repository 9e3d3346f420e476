/** JavaScript values as the transaction form and the import action handle them:
    the dynamic field values of a form record, their truthiness, and the property
    key they turn into when they index an object literal. */
module JsValues {

  datatype Option<+T> = None | Some(value: T)

  /** A JSON-like value. `Compound` is an object or an array; it carries the string
      JavaScript makes of it when it is used as a property key (an array of one
      string turns into that string, any plain object into "[object Object]"). */
  datatype Value =
    | Undefined
    | Null
    | Bool(b: bool)
    | Num(n: real)
    | Str(s: string)
    | Compound(keyString: string)

  /** JavaScript truthiness: `undefined`, `null`, `false`, `0` and `''` are falsy,
      every object and array is truthy. */
  predicate Truthy(v: Value) {
    match v
    case Undefined => false
    case Null => false
    case Bool(b) => b
    case Num(n) => n != 0.0
    case Str(s) => s != ""
    case Compound(_) => true
  }

  /** The property key `v` turns into when it indexes an object. Numbers give `None`:
      their decimal forms name no entry of the taxonomy tables and no inherited member. */
  function PropertyKey(v: Value): (k: Option<string>)
    ensures v.Str? ==> k == Some(v.s)
    ensures k.None? <==> v.Num?
  {
    match v
    case Undefined => Some("undefined")
    case Null => Some("null")
    case Bool(b) => Some(if b then "true" else "false")
    case Num(_) => None
    case Str(s) => Some(s)
    case Compound(k) => Some(k)
  }

  /** The members every object literal inherits from `Object.prototype`; indexing an
      object literal with one of these names yields a function or an object, never
      `undefined`, and none of them has a `map` method. */
  const InheritedMembers: set<string> := {
    "constructor", "toString", "toLocaleString", "valueOf",
    "hasOwnProperty", "isPrototypeOf", "propertyIsEnumerable", "__proto__",
    "__defineGetter__", "__defineSetter__", "__lookupGetter__", "__lookupSetter__"
  }

  /** How a promise settles: with a value, or by rejecting (a thrown error). */
  datatype Settled<+T> = Fulfilled(value: T) | Rejected
}
