/** The slice of JavaScript's value semantics that the extension's scripts
    depend on: truthiness, property reads that may throw, and the two string
    tests the scripts use (`startsWith`, `includes`). */
module Js {

  datatype Option<+T> = None | Some(value: T)

  /** A JavaScript value. `Obj` stands for any non-array object other than a
      string wrapper; its own enumerable properties are `props`. Numbers are
      reals plus the one non-real value that matters for truthiness, NaN. */
  datatype JsValue =
    | Undefined
    | Null
    | Bool(b: bool)
    | Num(x: real)
    | NaN
    | Str(s: string)
    | Obj(props: map<string, JsValue>)

  /** ToBoolean: what `if (v)`, `v && w` and `v || w` test. */
  predicate Truthy(v: JsValue)
  {
    match v
    case Undefined => false
    case Null => false
    case Bool(b) => b
    case Num(x) => x != 0.0
    case NaN => false
    case Str(s) => s != ""
    case Obj(_) => true
  }

  /** `v || w`: the left operand when it is truthy, else the right one. */
  function Or(v: JsValue, w: JsValue): JsValue
  {
    if Truthy(v) then v else w
  }

  /** `v.name` for a name no primitive carries (the scripts read only
      "event" and "page_type"): None when the read throws a TypeError (v is
      null or undefined); Undefined when the property is absent, which for
      such a name is every primitive. Built-in properties such as a
      string's `length` are not modelled. */
  function Prop(v: JsValue, name: string): Option<JsValue>
  {
    match v
    case Undefined => None
    case Null => None
    case Obj(props) => Some(if name in props then props[name] else Undefined)
    case _ => Some(Undefined)
  }

  /** `s.startsWith(prefix)`. */
  predicate StartsWith(s: string, prefix: string)
  {
    prefix <= s
  }

  /** `s.includes(needle)`: needle occurs somewhere in s. */
  predicate Includes(s: string, needle: string)
  {
    exists i :: 0 <= i <= |s| && needle <= s[i..]
  }
}
