/** The part of JavaScript's value semantics that the store's option
    handling and its sampling test depend on: truthiness, numeric
    conversion, `x + 1` and own-property lookup. */
module Js {
  import opened Wrappers
  import opened Decimal

  /** A JavaScript value as it can appear in the store's options. Numbers
      are restricted to integers; NaN is its own case. */
  datatype JsValue = Undefined | Null | Bool(b: bool) | Num(n: int) | NaN | Str(s: string)

  /** JavaScript truthiness: false, 0, NaN, "", null and undefined are falsy. */
  predicate Truthy(v: JsValue) {
    match v
    case Undefined => false
    case Null => false
    case Bool(b) => b
    case Num(n) => n != 0
    case NaN => false
    case Str(s) => s != ""
  }

  /** Numeric conversion (`Number(v)`); None stands for NaN. A string
      converts when it is empty (to 0) or made of decimal digits only. */
  function ToNumber(v: JsValue): Option<int> {
    match v
    case Undefined => None
    case Null => Some(0)
    case Bool(b) => Some(if b then 1 else 0)
    case Num(n) => Some(n)
    case NaN => None
    case Str(s) => if s == "" then Some(0) else if AllDigits(s) then Some(ReadNat(s)) else None
  }

  /** The global `isNaN(v)`: true exactly when numeric conversion fails. */
  predicate IsNaN(v: JsValue) {
    ToNumber(v).None?
  }

  /** `v + 1`: string concatenation when `v` is a string, numeric addition
      after conversion otherwise. */
  function PlusOne(v: JsValue): JsValue {
    match v
    case Str(s) => Str(s + "1")
    case _ => match ToNumber(v)
      case Some(n) => Num(n + 1)
      case None => NaN
  }

  /** Property access `o.key` on a plain object: undefined when the object
      has no such own property (inherited properties are not modelled). */
  function Property(o: map<string, JsValue>, key: string): JsValue {
    if key in o then o[key] else Undefined
  }

  /** A decimal numeral converts to the number it writes. */
  lemma NumeralConverts(n: nat)
    ensures ToNumber(Str(ShowNat(n))) == Some(n)
  {
    ReadShowNat(n);
  }

  /** For a numeral `s`, `s + 1` appends the digit 1, so it converts to
      ten times the value of `s` plus one, not to that value plus one. */
  lemma NumeralPlusOne(s: string)
    requires s != "" && AllDigits(s)
    ensures ToNumber(PlusOne(Str(s))) == Some(10 * ReadNat(s) + 1)
  {
    var t := s + "1";
    assert AllDigits(t) by {
      forall i | 0 <= i < |t| ensures IsDigit(t[i]) {
        if i < |s| { assert t[i] == s[i]; }
      }
    }
    assert PlusOne(Str(s)) == Str(t);
    assert t[..|t| - 1] == s && t[|t| - 1] == '1';
    assert ReadNat(t) == 10 * ReadNat(s) + 1;
  }
}
