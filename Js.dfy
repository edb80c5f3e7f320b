/** JavaScript values as the TypeScript code of the clients and the Node backends sees them, and
    the two rules those programs lean on: truthiness and `||`. */
module Js {
  import opened Text

  /** A value read from JSON, a query or the environment: missing, null, a string or a number. */
  datatype JsValue = Undefined | Null | Str(s: string) | Num(n: int)

  /** JavaScript truthiness: the empty string, zero, null and undefined are falsy. */
  predicate Truthy(v: JsValue) {
    match v
    case Undefined => false
    case Null => false
    case Str(s) => s != ""
    case Num(n) => n != 0
  }

  /** The value as a template literal or `toString()` writes it. */
  function Render(v: JsValue): string {
    match v
    case Undefined => "undefined"
    case Null => "null"
    case Str(s) => s
    case Num(n) => IntToString(n)
  }

  /** The names a plain object inherits from `Object.prototype`: indexing an object literal with
      one of them finds a member even though the literal does not define it. */
  predicate InheritedName(name: string) {
    name == "constructor" || name == "toString" || name == "toLocaleString" || name == "valueOf"
    || name == "hasOwnProperty" || name == "isPrototypeOf" || name == "propertyIsEnumerable"
    || name == "__proto__" || name == "__defineGetter__" || name == "__defineSetter__"
    || name == "__lookupGetter__" || name == "__lookupSetter__"
  }

  /** `String(v)` for the member inherited under `name`: a built-in function prints as native code
      under its own name (`Object` for `constructor`), and `__proto__` is `Object.prototype`, which
      prints as "[object Object]". */
  function InheritedText(name: string): string
    requires InheritedName(name)
  {
    if name == "__proto__" then "[object Object]"
    else "function " + (if name == "constructor" then "Object" else name) + "() { [native code] }"
  }

  /** `a || b`. */
  function Or(a: JsValue, b: JsValue): (r: JsValue)
    ensures Truthy(a) ==> r == a
    ensures !Truthy(a) ==> r == b
  {
    if Truthy(a) then a else b
  }
}
