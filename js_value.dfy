/**
 * JavaScript values as the application receives them from JSON bodies, database
 * rows and `catch` clauses, and the operators the code applies to them:
 * truthiness, `typeof`, `Array.isArray`, property reads and object spread.
 *
 * An object is a map from property names to values; property order is not kept.
 * Numbers are mathematical reals (NaN and the infinities are not values here).
 * An `Error` instance is its own case, carrying `name`, `message`, `stack` and
 * its own enumerable properties (such as the `code` of a database error).
 */
module JsValue {
  import opened Wrappers
  import Text

  datatype Value =
    | Undefined
    | Null
    | Bool(b: bool)
    | Num(n: real)
    | Str(s: string)
    | Arr(items: seq<Value>)
    | Obj(fields: map<string, Value>)
    | ErrorObj(name: string, message: string, stack: Option<string>, props: map<string, Value>)

  /** `new Error(message)`: an `Error` with no extra properties; the stack text is not modelled. */
  function PlainError(message: string): (e: Value)
    ensures e.ErrorObj? && e.name == "Error" && e.message == message
  {
    ErrorObj("Error", message, None, map[])
  }

  /**
   * An instance of an `Error` subclass whose constructor assigns `this.name`,
   * which makes `name` an own enumerable property.
   */
  function NamedError(name: string, message: string): (e: Value)
    ensures e.ErrorObj? && e.name == name && e.message == message && e.props == map["name" := Str(name)]
  {
    ErrorObj(name, message, None, map["name" := Str(name)])
  }

  /** `Boolean(v)`: `undefined`, `null`, `false`, `0`, `""` are falsy; every object is truthy. */
  predicate Truthy(v: Value) {
    match v
    case Undefined => false
    case Null => false
    case Bool(b) => b
    case Num(n) => n != 0.0
    case Str(s) => s != []
    case _ => true
  }

  /** `typeof v === "object" && v !== null` */
  predicate IsObject(v: Value) {
    v.Arr? || v.Obj? || v.ErrorObj?
  }

  /** `typeof v === "object" && v !== null && !Array.isArray(v)` */
  predicate IsRecord(v: Value) {
    v.Obj? || v.ErrorObj?
  }

  /** `Number.isInteger(v)` */
  predicate IsInteger(v: Value) {
    v.Num? && v.n == v.n.Floor as real
  }

  /** `v[key]` on a value that is neither `null` nor `undefined` (those throw a TypeError). */
  function Get(v: Value, key: string): (r: Value)
    requires !v.Undefined? && !v.Null?
    ensures v.Obj? && key in v.fields ==> r == v.fields[key]
    ensures !IsRecord(v) ==> r == Undefined
  {
    match v
    case Obj(fields) => if key in fields then fields[key] else Undefined
    case ErrorObj(name, message, stack, props) =>
      if key in props then props[key]
      else if key == "name" then Str(name)
      else if key == "message" then Str(message)
      else if key == "stack" then (if stack.Some? then Str(stack.value) else Undefined)
      else Undefined
    case _ => Undefined
  }

  /** `v?.[key]`: `undefined` on `null` and `undefined`. */
  function GetOptional(v: Value, key: string): (r: Value)
    ensures (v.Undefined? || v.Null?) ==> r == Undefined
  {
    if v.Undefined? || v.Null? then Undefined else Get(v, key)
  }

  /** The decimal name of an array index, as a property key. */
  function IndexKey(i: nat): string {
    Text.NatToString(i)
  }

  /**
   * The own enumerable properties that `{ ...v }` copies: the fields of a plain
   * object, the indexes of an array or a string, the extra properties of an
   * `Error` (whose `message` and `stack` are not enumerable), and nothing for the rest.
   */
  function OwnEntries(v: Value): (r: map<string, Value>)
    ensures v.Obj? ==> r == v.fields
    ensures !IsObject(v) && !v.Str? ==> r == map[]
  {
    match v
    case Obj(fields) => fields
    case Arr(items) => map i | 0 <= i < |items| :: IndexKey(i) := items[i]
    case Str(s) => map i | 0 <= i < |s| :: IndexKey(i) := Str([s[i]])
    case ErrorObj(_, _, _, props) => props
    case _ => map[]
  }
}
