/** Decimal digit strings: how integers are written in the text forms the
    store handles (JSON numbers, numeric option strings). */
module Decimal {
  import opened Wrappers

  predicate IsDigit(c: char) {
    '0' <= c <= '9'
  }

  /** Every character of `s` is a decimal digit. */
  predicate AllDigits(s: string) {
    forall i :: 0 <= i < |s| ==> IsDigit(s[i])
  }

  function DigitChar(d: nat): (c: char)
    requires d < 10
    ensures IsDigit(c)
  {
    "0123456789"[d]
  }

  function DigitValue(c: char): (d: nat)
    requires IsDigit(c)
    ensures d < 10
  {
    c as int - '0' as int
  }

  /** The decimal numeral of `n`, without leading zeros. */
  function ShowNat(n: nat): (s: string)
    ensures |s| > 0 && AllDigits(s)
    ensures |s| > 1 ==> s[0] != '0'
  {
    if n < 10 then [DigitChar(n)] else ShowNat(n / 10) + [DigitChar(n % 10)]
  }

  /** The value of a digit string, most significant digit first. */
  function ReadNat(s: string): nat
    requires AllDigits(s)
  {
    if |s| == 0 then 0 else 10 * ReadNat(s[..|s| - 1]) + DigitValue(s[|s| - 1])
  }

  /** The number of leading decimal digits of `s`. */
  function DigitSpan(s: string): (k: nat)
    ensures k <= |s| && AllDigits(s[..k])
    ensures k < |s| ==> !IsDigit(s[k])
  {
    if |s| > 0 && IsDigit(s[0]) then
      var k := 1 + DigitSpan(s[1..]);
      assert s[..k] == [s[0]] + s[1..][..k - 1];
      k
    else 0
  }

  /** The numeral of an integer: a minus sign for negative values. */
  function ShowInt(i: int): (s: string)
    ensures |s| > 0 && (s[0] == '-' || IsDigit(s[0]))
  {
    if i < 0 then "-" + ShowNat(-i) else ShowNat(i)
  }

  /** Reads an optionally signed numeral at the front of `s` and returns its
      value with the text that follows; None when no digit is there. */
  function ReadInt(s: string): Option<(int, string)>
  {
    if |s| > 0 && s[0] == '-' then
      var k := DigitSpan(s[1..]);
      var v := -(ReadNat(s[1..][..k]) as int);
      if k == 0 then None else Some((v, s[1..][k..]))
    else
      var k := DigitSpan(s);
      if k == 0 then None else Some((ReadNat(s[..k]), s[k..]))
  }

  lemma {:induction false} ReadShowNat(n: nat)
    ensures ReadNat(ShowNat(n)) == n
  {
    if n >= 10 {
      var s := ShowNat(n);
      assert s[..|s| - 1] == ShowNat(n / 10);
      ReadShowNat(n / 10);
    }
  }

  lemma {:induction false} DigitSpanOfDigits(a: string, rest: string)
    requires AllDigits(a)
    requires rest == [] || !IsDigit(rest[0])
    ensures DigitSpan(a + rest) == |a|
  {
    if |a| > 0 {
      assert (a + rest)[1..] == a[1..] + rest;
      DigitSpanOfDigits(a[1..], rest);
    }
  }

  /** Reading back a written integer gives the integer and leaves exactly
      the text that followed it, provided that text does not start with a
      digit. */
  lemma ReadShowInt(i: int, rest: string)
    requires rest == [] || !IsDigit(rest[0])
    ensures ReadInt(ShowInt(i) + rest) == Some((i, rest))
  {
    var n: nat := if i < 0 then -i else i;
    var digits := ShowNat(n);
    DigitSpanOfDigits(digits, rest);
    ReadShowNat(n);
    assert (digits + rest)[..|digits|] == digits;
    assert (digits + rest)[|digits|..] == rest;
    if i < 0 {
      assert ("-" + digits + rest)[1..] == digits + rest;
    }
  }
}
