/** Untyped JavaScript values as they arrive in JSON bodies and `catch`
    clauses, with JavaScript's truthiness, property read and `String(v)`.
    Numbers here carry integers only. */
module Js {
  import opened Decimal

  datatype JsValue =
    | Undefined
    | Null
    | Bool(b: bool)
    | Num(n: int)
    | Str(s: string)
    | Obj(fields: map<string, JsValue>)

  /** JavaScript truthiness: undefined, null, false, 0 and "" are falsy. */
  predicate Truthy(v: JsValue)
  {
    match v
    case Undefined => false
    case Null => false
    case Bool(b) => b
    case Num(n) => n != 0
    case Str(s) => s != ""
    case Obj(_) => true
  }

  /** `v.key` on a value that is not null or undefined: an own field of an
      object, otherwise undefined. */
  function Property(v: JsValue, key: string): JsValue
  {
    if v.Obj? && key in v.fields then v.fields[key] else Undefined
  }

  /** `String(v)`, the text `new Error(v)` takes as its message. */
  function ToText(v: JsValue): string
  {
    match v
    case Undefined => "undefined"
    case Null => "null"
    case Bool(b) => if b then "true" else "false"
    case Num(n) => IntToString(n)
    case Str(s) => s
    case Obj(_) => "[object Object]"
  }

  /** A truthy value's text is never empty. */
  lemma TruthyTextNonEmpty(v: JsValue)
    requires Truthy(v)
    ensures ToText(v) != ""
  {
    if v.Num? {
      assert |IntToString(v.n)| >= 1;
    }
  }
}
