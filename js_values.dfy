/**
 * The JavaScript values an options object can carry for `ease` and
 * `duration`, with the two language rules the gallery relies on: the `||`
 * operator (truthiness) and string conversion under `+`.
 */
module JsValues {
  import Decimal

  /** Numbers are integral here; NaN is kept because it is falsy. */
  datatype JsValue = Undefined | Null | Bool(b: bool) | Num(n: int) | NaN | Str(s: string)

  /** ToBoolean: undefined, null, false, 0, NaN and "" are falsy. */
  predicate Truthy(v: JsValue) {
    match v
    case Undefined => false
    case Null => false
    case Bool(b) => b
    case Num(n) => n != 0
    case NaN => false
    case Str(s) => s != ""
  }

  /** `a || b`: the first operand when it is truthy, otherwise the second. */
  function Or(a: JsValue, b: JsValue): JsValue {
    if Truthy(a) then a else b
  }

  /** The string a value becomes when one operand of `+` is a string. */
  function ToString(v: JsValue): string {
    match v
    case Undefined => "undefined"
    case Null => "null"
    case Bool(b) => if b then "true" else "false"
    case Num(n) => Decimal.IntToString(n)
    case NaN => "NaN"
    case Str(s) => s
  }

  /** `||` returns one of its operands, is truthy when either is, and is a no-op on a truthy left side. */
  lemma OrLaws(a: JsValue, b: JsValue)
    ensures Or(a, b) == a || Or(a, b) == b
    ensures Truthy(Or(a, b)) <==> Truthy(a) || Truthy(b)
    ensures Or(Or(a, b), b) == Or(a, b)
  {
  }
}
