/** JavaScript numbers as far as the client code needs them: a real value or
    NaN, the comparisons (every comparison with NaN is false) and the subset
    of `parseInt` and `parseFloat` described in module Decimal. */
module JsNumbers {
  import opened Wrappers
  import opened Decimal

  datatype JsNumber = NaN | Finite(value: real)

  /** `a >= b`; false when either side is NaN. */
  predicate AtLeast(a: JsNumber, b: JsNumber)
  {
    a.Finite? && b.Finite? && a.value >= b.value
  }

  /** `a <= b`; false when either side is NaN. */
  predicate AtMost(a: JsNumber, b: JsNumber)
  {
    a.Finite? && b.Finite? && a.value <= b.value
  }

  /** `parseInt(s)` (radix 10): optional sign, then the longest run of digits;
      NaN when there is none. Trailing text is ignored. */
  function JsParseInt(s: string): JsNumber
  {
    var negative := |s| > 0 && s[0] == '-';
    var body := if |s| > 0 && (s[0] == '-' || s[0] == '+') then s[1..] else s;
    var digits := LeadingDigits(body);
    if digits == [] then NaN
    else Finite(if negative then -(DigitsValue(digits) as real) else DigitsValue(digits) as real)
  }

  /** `parseFloat(s)`: the longest prefix that is a signed decimal number;
      NaN when there is none. Trailing text is ignored. */
  function JsParseFloat(s: string): JsNumber
  {
    match ScanSigned(s)
    case Some(sc) => Finite(sc.value)
    case None => NaN
  }

  /** `parseInt` reads back the decimal text of any integer. */
  lemma JsParseIntOfInt(i: int)
    ensures JsParseInt(IntToString(i)) == Finite(i as real)
  {
    if i < 0 {
      var s := IntToString(i);
      assert s[1..] == NatToString(-i);
      LeadingDigitsOfDigits(NatToString(-i));
    } else {
      LeadingDigitsOfDigits(NatToString(i));
    }
  }

  /** `parseFloat` of a non-empty string of digits is its value. */
  lemma JsParseFloatOfDigits(s: string)
    requires s != [] && AllDigits(s)
    ensures JsParseFloat(s) == Finite(DigitsValue(s) as real)
  {
    LeadingDigitsOfDigits(s);
    assert ScanUnsigned(s) == Some(Scan(|s|, DigitsValue(s) as real));
  }

  /** `parseInt` of a non-empty string of digits, leading zeros included, is
      its value. */
  lemma JsParseIntOfDigits(s: string)
    requires s != [] && AllDigits(s)
    ensures JsParseInt(s) == Finite(DigitsValue(s) as real)
  {
    LeadingDigitsOfDigits(s);
  }
}
