/** Decimal numerals, as str() writes them. */
module Numerals {

  function Digit(d: nat): char
    requires d < 10
  {
    "0123456789"[d]
  }

  predicate IsDigit(c: char) {
    c in "0123456789"
  }

  function Decimal(n: nat): string {
    if n < 10 then [Digit(n)] else Decimal(n / 10) + [Digit(n % 10)]
  }

  function DigitValue(c: char): nat
    requires IsDigit(c)
  {
    if c == '0' then 0 else if c == '1' then 1 else if c == '2' then 2 else if c == '3' then 3
    else if c == '4' then 4 else if c == '5' then 5 else if c == '6' then 6 else if c == '7' then 7
    else if c == '8' then 8 else 9
  }

  lemma DigitRoundTrip(d: nat)
    requires d < 10
    ensures IsDigit(Digit(d)) && DigitValue(Digit(d)) == d
  {
  }

  /** Different numbers have different numerals. */
  lemma {:induction false} DecimalInjective(m: nat, n: nat)
    requires Decimal(m) == Decimal(n)
    ensures m == n
    decreases m
  {
    LastDigit(m);
    LastDigit(n);
    DigitRoundTrip(m % 10);
    DigitRoundTrip(n % 10);
    assert m % 10 == n % 10;
    if m >= 10 && n >= 10 {
      assert Decimal(m) == Decimal(m / 10) + [Digit(m % 10)];
      assert Decimal(n) == Decimal(n / 10) + [Digit(n % 10)];
      assert Decimal(m / 10) == Decimal(m)[..|Decimal(m)| - 1];
      DecimalInjective(m / 10, n / 10);
    } else {
      DecimalLength(m);
      DecimalLength(n);
    }
  }

  lemma DecimalLength(n: nat)
    ensures |Decimal(n)| == 1 <==> n < 10
  {
    if n >= 10 {
      LastDigit(n / 10);
    }
  }

  lemma LastDigit(n: nat)
    ensures |Decimal(n)| > 0 && Decimal(n)[|Decimal(n)| - 1] == Digit(n % 10)
  {
  }

  lemma {:induction false} DecimalDigits(n: nat)
    ensures forall i :: 0 <= i < |Decimal(n)| ==> IsDigit(Decimal(n)[i])
  {
    DigitRoundTrip(n % 10);
    if n >= 10 {
      DecimalDigits(n / 10);
    }
  }
}
