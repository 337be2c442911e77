/**
  Decimal rendering of whole numbers and left padding, the two string
  operations the time formatter is built from: JavaScript's
  `Number.prototype.toString()` on a non-negative integer below 10^21
  (larger ones are printed in exponent form, which is not modelled) and
  `String.prototype.padStart` with a one-character fill.
 */
module Decimal {

  predicate IsDigit(c: char) {
    '0' <= c <= '9'
  }

  predicate AllDigits(s: string) {
    forall i :: 0 <= i < |s| ==> IsDigit(s[i])
  }

  /** A digit string as `toString()` produces it: non-empty, no leading zero. */
  predicate Canonical(s: string) {
    |s| >= 1 && AllDigits(s) && (|s| > 1 ==> s[0] != '0')
  }

  function DigitValue(c: char): (d: nat)
    requires IsDigit(c)
    ensures d < 10
  {
    c as int - '0' as int
  }

  function DigitChar(d: nat): (c: char)
    requires d < 10
    ensures IsDigit(c) && DigitValue(c) == d
  {
    ('0' as int + d) as char
  }

  /** The decimal numeral of `n`, most significant digit first. */
  function NatToDecimal(n: nat): (s: string)
    ensures Canonical(s)
    ensures |s| == 1 <==> n < 10
    decreases n
  {
    if n < 10 then [DigitChar(n)]
    else NatToDecimal(n / 10) + [DigitChar(n % 10)]
  }

  /** The number a digit string denotes (the empty string denotes 0). */
  function DecimalValue(s: string): nat
    requires AllDigits(s)
    decreases |s|
  {
    if |s| == 0 then 0
    else 10 * DecimalValue(s[..|s| - 1]) + DigitValue(s[|s| - 1])
  }

  lemma {:induction false} DecimalValueOfSnoc(a: string, c: char)
    requires AllDigits(a) && IsDigit(c)
    ensures AllDigits(a + [c])
    ensures DecimalValue(a + [c]) == 10 * DecimalValue(a) + DigitValue(c)
  {
  }

  /** Reading the numeral of `n` gives `n` back. */
  lemma {:induction false} NatToDecimalRoundTrip(n: nat)
    ensures DecimalValue(NatToDecimal(n)) == n
    decreases n
  {
    if n >= 10 {
      NatToDecimalRoundTrip(n / 10);
      DecimalValueOfSnoc(NatToDecimal(n / 10), DigitChar(n % 10));
    }
  }

  lemma {:induction false} CanonicalLowerBound(s: string)
    requires Canonical(s)
    ensures |s| > 1 ==> DecimalValue(s) >= 10
    ensures s[0] != '0' ==> DecimalValue(s) >= 1
    decreases |s|
  {
    if |s| > 1 {
      var a := s[..|s| - 1];
      assert s == a + [s[|s| - 1]];
      assert a[0] == s[0];
      CanonicalLowerBound(a);
      DecimalValueOfSnoc(a, s[|s| - 1]);
    }
  }

  /** Every canonical numeral is the numeral of the number it denotes. */
  lemma {:induction false} DecimalValueRoundTrip(s: string)
    requires Canonical(s)
    ensures NatToDecimal(DecimalValue(s)) == s
    decreases |s|
  {
    if |s| > 1 {
      var a := s[..|s| - 1];
      var c := s[|s| - 1];
      assert s == a + [c];
      assert a[0] == s[0];
      CanonicalLowerBound(s);
      DecimalValueRoundTrip(a);
      DecimalValueOfSnoc(a, c);
    }
  }

  /** `NatToDecimal` is a bijection between naturals and canonical numerals. */
  lemma NatToDecimalInjective(m: nat, n: nat)
    ensures NatToDecimal(m) == NatToDecimal(n) <==> m == n
  {
    NatToDecimalRoundTrip(m);
    NatToDecimalRoundTrip(n);
  }

  function Repeat(c: char, k: nat): (r: string)
    ensures |r| == k
    ensures forall i :: 0 <= i < k ==> r[i] == c
    decreases k
  {
    if k == 0 then [] else [c] + Repeat(c, k - 1)
  }

  /** `s` left-padded with `fill` up to `width` characters; never truncates. */
  function PadStart(s: string, width: nat, fill: char): (r: string)
    ensures |r| == if |s| >= width then |s| else width
    ensures r[|r| - |s|..] == s
    ensures forall i :: 0 <= i < |r| - |s| ==> r[i] == fill
  {
    if |s| >= width then s else Repeat(fill, width - |s|) + s
  }

  /** Two-digit rendering of a number below 100, as the seconds field uses it. */
  lemma TwoDigitRendering(n: nat)
    requires n < 100
    ensures |PadStart(NatToDecimal(n), 2, '0')| == 2
    ensures AllDigits(PadStart(NatToDecimal(n), 2, '0'))
    ensures DecimalValue(PadStart(NatToDecimal(n), 2, '0')) == n
    ensures n < 10 <==> PadStart(NatToDecimal(n), 2, '0')[0] == '0'
  {
    var s := NatToDecimal(n);
    var r := PadStart(s, 2, '0');
    NatToDecimalRoundTrip(n);
    if n < 10 {
      assert r == ['0'] + s;
      assert r[..1] == ['0'];
      DecimalValueOfSnoc(['0'], s[0]);
      assert r == ['0'] + [s[0]];
    } else {
      assert r == s;
      assert s[0] != '0';
    }
  }
}
