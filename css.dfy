/**
 * The inline-style values the controller writes: an integer followed by
 * "px", in the decimal form JavaScript's number-to-string gives integers.
 * `ParsePx` reads such a value back, so that a written value can be shown
 * to denote exactly the number it came from.
 */
module Css {
  import opened Wrappers

  predicate IsDigit(c: char)
  {
    '0' <= c <= '9'
  }

  predicate AllDigits(s: string)
  {
    forall i :: 0 <= i < |s| ==> IsDigit(s[i])
  }

  function DigitChar(d: nat): (c: char)
    requires d < 10
    ensures IsDigit(c)
  {
    (48 + d) as char
  }

  function DigitValue(c: char): (d: nat)
    requires IsDigit(c)
    ensures d < 10
  {
    (c as int) - 48
  }

  /** The decimal digits of `n`, with no leading zero. */
  function NatToDecimal(n: nat): (s: string)
    ensures |s| > 0 && AllDigits(s)
    ensures s[0] == '0' ==> n == 0
    decreases n
  {
    if n < 10 then [DigitChar(n)] else NatToDecimal(n / 10) + [DigitChar(n % 10)]
  }

  /** The number a string of decimal digits denotes. */
  function DecimalToNat(s: string): nat
    requires AllDigits(s)
    decreases |s|
  {
    if |s| == 0 then 0 else 10 * DecimalToNat(s[..|s| - 1]) + DigitValue(s[|s| - 1])
  }

  lemma {:induction false} DecimalRoundTrip(n: nat)
    ensures DecimalToNat(NatToDecimal(n)) == n
    decreases n
  {
    if n >= 10 {
      var s := NatToDecimal(n);
      assert s[..|s| - 1] == NatToDecimal(n / 10);
      DecimalRoundTrip(n / 10);
    }
  }

  /** An integer as JavaScript writes it: a minus sign for negatives, then its digits. */
  function IntToDecimal(n: int): string
  {
    if n < 0 then "-" + NatToDecimal(-n) else NatToDecimal(n)
  }

  /** The string `n + 'px'`. */
  function Px(n: int): string
  {
    IntToDecimal(n) + "px"
  }

  /** Reads an optionally signed decimal integer followed by "px". */
  function ParsePx(s: string): Option<int>
  {
    if |s| < 2 || s[|s| - 2..] != "px" then None
    else
      var num := s[..|s| - 2];
      if |num| > 1 && num[0] == '-' && AllDigits(num[1..]) then Some(0 - DecimalToNat(num[1..]) as int)
      else if |num| > 0 && AllDigits(num) then Some(DecimalToNat(num))
      else None
  }

  /** A written pixel value denotes exactly the integer it was written from. */
  lemma PxRoundTrip(n: int)
    ensures ParsePx(Px(n)) == Some(n)
  {
    var s := Px(n);
    var d := IntToDecimal(n);
    assert s[..|s| - 2] == d;
    assert s[|s| - 2..] == "px";
    if n < 0 {
      assert d[1..] == NatToDecimal(-n);
      DecimalRoundTrip(-n);
    } else {
      assert IsDigit(d[0]);
      DecimalRoundTrip(n);
    }
  }

  /** Different integers give different pixel values. */
  lemma PxInjective(m: int, n: int)
    ensures Px(m) == Px(n) ==> m == n
  {
    PxRoundTrip(m);
    PxRoundTrip(n);
  }
}
