/** Decimal numerals in text: what a run of digits is worth, and the digits of a number. */
module Numerals {

  predicate IsDigit(c: char)
  {
    '0' <= c <= '9'
  }

  predicate AllDigits(s: string)
  {
    forall i :: 0 <= i < |s| ==> IsDigit(s[i])
  }

  function DigitValue(c: char): nat
    requires IsDigit(c)
  {
    (c as int) - ('0' as int)
  }

  function DigitChar(n: nat): (c: char)
    requires n < 10
    ensures IsDigit(c) && DigitValue(c) == n
  {
    (n + '0' as int) as char
  }

  function Number(s: string): nat
    requires AllDigits(s)
  {
    if s == "" then 0 else Number(s[..|s| - 1]) * 10 + DigitValue(s[|s| - 1])
  }

  function Power10(n: nat): (p: nat)
    ensures p >= 1
  {
    if n == 0 then 1 else 10 * Power10(n - 1)
  }

  /** The `width` low digits of `n`. */
  function Digits(n: nat, width: nat): (s: string)
    ensures |s| == width && AllDigits(s)
  {
    if width == 0 then "" else Digits(n / 10, width - 1) + [DigitChar(n % 10)]
  }

  lemma {:induction false} NumberOfDigits(n: nat, width: nat)
    requires n < Power10(width)
    ensures Number(Digits(n, width)) == n
  {
    if width > 0 {
      NumberOfDigits(n / 10, width - 1);
      var s := Digits(n, width);
      assert s[..width - 1] == Digits(n / 10, width - 1);
    }
  }

  lemma {:induction false} NumberIsBounded(s: string)
    requires AllDigits(s)
    ensures Number(s) < Power10(|s|)
  {
    if s != "" { NumberIsBounded(s[..|s| - 1]); }
  }

  /** Digit strings of one length are their numbers. */
  lemma {:induction false} DigitsOfNumber(s: string)
    requires AllDigits(s)
    ensures Digits(Number(s), |s|) == s
  {
    if s != "" {
      DigitsOfNumber(s[..|s| - 1]);
      assert s == s[..|s| - 1] + [s[|s| - 1]];
      DigitOfValue(s[|s| - 1]);
    }
  }

  lemma DigitOfValue(c: char)
    requires IsDigit(c)
    ensures DigitChar(DigitValue(c)) == c
  {
  }

  /** How many digits a number needs: at least one. */
  function Width(n: nat): (w: nat)
    ensures w >= 1
  {
    if n < 10 then 1 else Width(n / 10) + 1
  }

  lemma {:induction false} WidthIsEnough(n: nat)
    ensures n < Power10(Width(n))
  {
    if n >= 10 { WidthIsEnough(n / 10); }
  }

  /** The decimal numeral of a number, with no leading zero but zero's own. */
  function Numeral(n: nat): (s: string)
    ensures |s| == Width(n) && AllDigits(s)
  {
    Digits(n, Width(n))
  }

  lemma {:induction false} NumeralsHaveNoLeadingZero(n: nat)
    ensures if n == 0 then Numeral(n) == "0" else Numeral(n)[0] != '0'
  {
    if n >= 10 {
      NumeralsHaveNoLeadingZero(n / 10);
      assert Numeral(n) == Numeral(n / 10) + [DigitChar(n % 10)];
    } else {
      assert Digits(n, 1) == Digits(n / 10, 0) + [DigitChar(n % 10)];
    }
  }

  lemma NumberOfNumeral(n: nat)
    ensures Number(Numeral(n)) == n
  {
    WidthIsEnough(n);
    NumberOfDigits(n, Width(n));
  }

  lemma {:induction false} NumberTogether(a: string, b: string)
    requires AllDigits(a) && AllDigits(b)
    ensures AllDigits(a + b) && Number(a + b) == Number(a) * Power10(|b|) + Number(b)
    decreases |b|
  {
    if b == "" {
      assert a + b == a;
    } else {
      var front := b[..|b| - 1];
      NumberTogether(a, front);
      assert (a + b)[..|a + b| - 1] == a + front;
      TimesTen(Number(a), Power10(|front|));
    }
  }

  lemma TimesTen(n: nat, p: nat)
    ensures n * (10 * p) == (n * p) * 10
  {
  }
}
