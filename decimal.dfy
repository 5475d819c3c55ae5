/** Decimal text <-> numbers, as far as the modelled code uses it: Python
    `str(int)`, zero-padding, and a common subset of the number grammars of
    JavaScript `parseInt`/`parseFloat` and Python `float()` — an optional sign,
    decimal digits and an optional fraction. Whitespace, exponents, `_`
    separators, `Infinity` and `nan` spellings are outside this subset. */
module Decimal {
  import opened Wrappers
  import opened Strings

  predicate IsDigit(c: char) { '0' <= c <= '9' }

  predicate AllDigits(s: string) { forall k :: 0 <= k < |s| ==> IsDigit(s[k]) }

  function DigitValue(c: char): nat
    requires IsDigit(c)
  {
    c as int - '0' as int
  }

  function DigitChar(d: nat): (c: char)
    requires d < 10
    ensures IsDigit(c) && DigitValue(c) == d
  {
    ('0' as int + d) as char
  }

  /** The value of a string of decimal digits, most significant first. */
  function DigitsValue(s: string): nat
    requires AllDigits(s)
    decreases |s|
  {
    if s == [] then 0 else 10 * DigitsValue(s[..|s| - 1]) + DigitValue(s[|s| - 1])
  }

  function Pow10(k: nat): (p: nat)
    ensures p >= 1
  {
    if k == 0 then 1 else 10 * Pow10(k - 1)
  }

  /** The value of the digits after a decimal point. */
  function FractionValue(s: string): real
    requires AllDigits(s)
  {
    DigitsValue(s) as real / Pow10(|s|) as real
  }

  /** Canonical decimal text of a natural number (Python `str`, JavaScript
      `toString`): digits only, no leading zero, and it reads back as `n`. */
  function NatToString(n: nat): (s: string)
    ensures |s| >= 1 && AllDigits(s) && DigitsValue(s) == n
    ensures s[0] != '0' || s == "0"
  {
    if n < 10 then [DigitChar(n)]
    else
      var p := NatToString(n / 10);
      var s := p + [DigitChar(n % 10)];
      assert s[..|s| - 1] == p;
      s
  }

  /** Canonical decimal text of an integer, with a leading '-' when negative. */
  function IntToString(i: int): (s: string)
    ensures ':' !in s && '.' !in s
  {
    if i < 0 then "-" + NatToString(-i) else NatToString(i)
  }

  /** The longest prefix of `s` made of decimal digits. */
  function LeadingDigits(s: string): (p: string)
    ensures p <= s && AllDigits(p)
    ensures |p| == |s| || !IsDigit(s[|p|])
  {
    if s == [] || !IsDigit(s[0]) then "" else [s[0]] + LeadingDigits(s[1..])
  }

  /** How much of the text a number scan consumed, and the value it read. */
  datatype Scan = Scan(length: nat, value: real)

  /** Longest prefix of `s` of the form `digits`, `digits.digits?` or `.digits`
      (at least one digit in all). */
  function ScanUnsigned(s: string): (r: Option<Scan>)
    ensures r.Some? ==> 0 < r.value.length <= |s| && r.value.value >= 0.0
  {
    var ip := LeadingDigits(s);
    if |ip| < |s| && s[|ip|] == '.' then
      var fp := LeadingDigits(s[|ip| + 1..]);
      if |ip| + |fp| == 0 then None
      else Some(Scan(|ip| + 1 + |fp|, DigitsValue(ip) as real + FractionValue(fp)))
    else if ip == [] then None
    else Some(Scan(|ip|, DigitsValue(ip) as real))
  }

  /** As `ScanUnsigned`, after an optional leading '+' or '-'. */
  function ScanSigned(s: string): (r: Option<Scan>)
    ensures r.Some? ==> 0 < r.value.length <= |s|
  {
    if |s| > 0 && (s[0] == '-' || s[0] == '+') then
      match ScanUnsigned(s[1..])
      case None => None
      case Some(sc) => Some(Scan(sc.length + 1, if s[0] == '-' then -sc.value else sc.value))
    else ScanUnsigned(s)
  }

  /** Python `float(s)`: the whole text must be a number, otherwise `float`
      raises ValueError (here: None). */
  function PyFloat(s: string): Option<real>
  {
    match ScanSigned(s)
    case Some(sc) => if sc.length == |s| then Some(sc.value) else None
    case None => None
  }

  lemma {:induction false} LeadingDigitsOfDigits(s: string)
    requires AllDigits(s)
    ensures LeadingDigits(s) == s
    decreases |s|
  {
    if s != [] {
      LeadingDigitsOfDigits(s[1..]);
      assert s == [s[0]] + s[1..];
    }
  }

  lemma {:induction false} ZerosValue(k: nat)
    ensures AllDigits(Repeat('0', k)) && DigitsValue(Repeat('0', k)) == 0
  {
    if k > 0 {
      var z := Repeat('0', k);
      ZerosValue(k - 1);
      assert z[..k - 1] == Repeat('0', k - 1);
    }
  }

  /** Leading zeros do not change the value of a digit string. */
  lemma {:induction false} LeadingZerosValue(k: nat, s: string)
    requires AllDigits(s)
    ensures AllDigits(Repeat('0', k) + s)
    ensures DigitsValue(Repeat('0', k) + s) == DigitsValue(s)
    decreases |s|
  {
    ZerosValue(k);
    var z := Repeat('0', k);
    if s == [] {
      assert z + s == z;
    } else {
      var t := z + s;
      assert t[..|t| - 1] == z + s[..|s| - 1];
      LeadingZerosValue(k, s[..|s| - 1]);
    }
  }

  /** Python `float` reads back the decimal text of a natural number. */
  lemma PyFloatOfNat(n: nat)
    ensures PyFloat(NatToString(n)) == Some(n as real)
  {
    var s := NatToString(n);
    LeadingDigitsOfDigits(s);
    assert ScanUnsigned(s) == Some(Scan(|s|, n as real));
  }
}
