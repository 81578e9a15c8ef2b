/** Fixed-point text to scaled 64-bit integers and back (perplab/core/money.py:60-345). */
module Scaled {
  import opened Wrappers
  import opened Numerals

  const SCALE_EXP: nat := 8
  const SCALE := 100000000
  const INT64_MIN := -9223372036854775808
  const INT64_MAX := 9223372036854775807

  datatype NumberError = EmptyText | NotADecimal | TooPrecise | OutOfRange

  predicate Fits(v: int)
  {
    INT64_MIN <= v <= INT64_MAX
  }

  /** No scientific notation. */
  predicate NoExponent(s: string)
  {
    'e' !in s && 'E' !in s
  }

  /** Where the first decimal point is, or the length when there is none. */
  function Point(s: string): (p: nat)
    ensures p <= |s|
  {
    if s == "" || s[0] == '.' then 0 else 1 + Point(s[1..])
  }

  function IntPart(s: string): string
  {
    s[..Point(s)]
  }

  function FracPart(s: string): string
  {
    if Point(s) < |s| then s[Point(s) + 1..] else ""
  }

  function StripZeros(s: string): (r: string)
    ensures |r| <= |s|
    ensures AllDigits(s) ==> AllDigits(r)
  {
    if s != "" && s[|s| - 1] == '0' then StripZeros(s[..|s| - 1]) else s
  }

  function PadRight(s: string, width: nat): (r: string)
    ensures AllDigits(s) ==> AllDigits(r)
    decreases width - |s|
  {
    if |s| >= width then s else PadRight(s + "0", width)
  }

  /** `to_scaled` once the sign is off. */
  function Magnitude(u: string): Outcome<int, NumberError>
  {
    if u == "" || u[0] == '+' || u[0] == '-' then Raised(NotADecimal)
    else
      var whole, frac := IntPart(u), FracPart(u);
      if whole + frac == "" || !AllDigits(whole) || !AllDigits(frac) then Raised(NotADecimal)
      else Joined(whole, frac)
  }

  /** The two halves together, unless the decimals are too many. */
  function Joined(whole: string, frac: string): Outcome<int, NumberError>
    requires AllDigits(whole) && AllDigits(frac)
  {
    var kept := if |frac| > SCALE_EXP then StripZeros(frac) else frac;
    if |kept| > SCALE_EXP then Raised(TooPrecise)
    else Ok(Number(whole) * SCALE + Number(PadRight(kept, SCALE_EXP)))
  }

  /** `to_scaled`, on a stripped text without an exponent. */
  function ToScaled(s: string): Outcome<int, NumberError>
    requires NoExponent(s)
  {
    if s == "" then Raised(EmptyText)
    else
      var negative := s[0] == '-';
      InRange(negative, Magnitude(if negative || s[0] == '+' then s[1..] else s))
  }

  /** The sign back on, and the range check. */
  function InRange(negative: bool, m: Outcome<int, NumberError>): Outcome<int, NumberError>
  {
    if m.Raised? then Raised(m.error)
    else
      var v := if negative then -m.value else m.value;
      if Fits(v) then Ok(v) else Raised(OutOfRange)
  }

  /** The fixed-point text of `from_scaled(n)`: always eight decimals. */
  function FixedText(n: int): string
  {
    var m := if n < 0 then -n else n;
    (if n < 0 then "-" else "") + Numeral(m / SCALE) + "." + Digits(m % SCALE, SCALE_EXP)
  }

  // ----------------------------------------------------------------------- decimals

  datatype Sign = PLAIN | PLUS | MINUS

  /** A decimal literal: a sign or none, digits, and a point or none. */
  datatype Decimal = Decimal(sign: Sign, whole: string, dotted: bool, frac: string) {
    predicate Valid()
    {
      AllDigits(whole) && AllDigits(frac) && whole + frac != "" && (!dotted ==> frac == "")
    }

    function Body(): string
    {
      whole + (if dotted then "." + frac else "")
    }

    function Text(): string
    {
      (match sign case PLAIN => "" case PLUS => "+" case MINUS => "-") + Body()
    }

    /** Its value is this over ten to the number of its decimals. */
    function Numerator(): int
      requires Valid()
    {
      DigitsTogether(whole, frac);
      if sign == MINUS then -(Number(whole + frac) as int) else Number(whole + frac)
    }

    /** `v` is exactly 10^8 times its value. */
    predicate ScalesTo(v: int)
      requires Valid()
    {
      v * Power10(|frac|) == Numerator() * 100000000
    }
  }

  lemma DigitsTogether(a: string, b: string)
    requires AllDigits(a) && AllDigits(b)
    ensures AllDigits(a + b)
  {
  }

  lemma {:induction false} PointOf(whole: string, rest: string)
    requires AllDigits(whole) && (rest == "" || rest[0] == '.')
    ensures Point(whole + rest) == |whole|
  {
    if whole != "" {
      assert (whole + rest)[0] == whole[0] && (whole + rest)[1..] == whole[1..] + rest;
      PointOf(whole[1..], rest);
    }
  }

  lemma PartsOf(d: Decimal)
    requires d.Valid()
    ensures IntPart(d.Body()) == d.whole && FracPart(d.Body()) == d.frac
  {
    var rest := if d.dotted then "." + d.frac else "";
    PointOf(d.whole, rest);
    assert d.Body()[..|d.whole|] == d.whole;
    if d.dotted { assert d.Body()[|d.whole| + 1..] == d.frac; }
  }

  // ---------------------------------------------------------------------- arithmetic

  lemma {:induction false} PowersTogether(a: nat, b: nat)
    ensures Power10(a + b) == Power10(a) * Power10(b)
  {
    if a > 0 {
      PowersTogether(a - 1, b);
      Associate(Power10(a - 1), Power10(b));
    }
  }

  lemma Associate(x: nat, y: nat)
    ensures 10 * (x * y) == (10 * x) * y
  {
  }

  lemma ScaleIsAPower()
    ensures Power10(SCALE_EXP) == SCALE
  {
    assert Power10(2) == 100 && Power10(4) == 10000 && Power10(6) == 1000000;
  }

  lemma {:induction false} NumberOfPadded(s: string, width: nat)
    requires AllDigits(s) && |s| <= width
    ensures Number(PadRight(s, width)) == Number(s) * Power10(width - |s|)
    decreases width - |s|
  {
    if |s| < width {
      assert (s + "0")[..|s|] == s;
      NumberOfPadded(s + "0", width);
      Associate10(Number(s), Power10(width - |s| - 1));
    }
  }

  lemma Associate10(x: nat, y: nat)
    ensures (x * 10 + 0) * y == x * (10 * y)
  {
  }

  lemma {:induction false} NumberOfStripped(whole: string, s: string)
    requires AllDigits(whole) && AllDigits(s)
    ensures AllDigits(whole + s) && AllDigits(whole + StripZeros(s))
    ensures Number(whole + s) == Number(whole + StripZeros(s)) * Power10(|s| - |StripZeros(s)|)
  {
    if s != "" && s[|s| - 1] == '0' {
      var front := s[..|s| - 1];
      NumberOfStripped(whole, front);
      assert (whole + s)[..|whole + s| - 1] == whole + front;
      TimesTen(Number(whole + StripZeros(s)), Power10(|front| - |StripZeros(s)|));
    }
  }

  lemma {:induction false} StrippedEndsInADigit(s: string)
    ensures StripZeros(s) != "" ==> StripZeros(s)[|StripZeros(s)| - 1] != '0'
  {
    if s != "" && s[|s| - 1] == '0' { StrippedEndsInADigit(s[..|s| - 1]); }
  }

  lemma Cancel(a: int, b: int, p: nat)
    requires p >= 1
    ensures a * p == b * p <==> a == b
  {
  }

  lemma Distribute(w: int, k: int, p: int, q: int, scale: int)
    requires p * q == scale
    ensures (w * scale + k * q) * p == (w * p + k) * scale
  {
    assert (k * q) * p == k * (q * p) == k * scale;
    assert (w * scale) * p == (w * p) * scale;
  }

  /** With at most eight decimals kept, the scaled integer is exact. */
  lemma KeptIsExact(whole: string, kept: string)
    requires AllDigits(whole) && AllDigits(kept) && |kept| <= SCALE_EXP
    ensures AllDigits(whole + kept)
    ensures (Number(whole) * SCALE + Number(PadRight(kept, SCALE_EXP))) * Power10(|kept|) == Number(whole + kept) * SCALE
  {
    NumberTogether(whole, kept);
    NumberOfPadded(kept, SCALE_EXP);
    PowersTogether(|kept|, SCALE_EXP - |kept|);
    ScaleIsAPower();
    Distribute(Number(whole), Number(kept), Power10(|kept|), Power10(SCALE_EXP - |kept|), SCALE);
  }

  /** Trailing zeros carry no information. */
  lemma StrippingChangesNothing(whole: string, frac: string, v: int)
    requires AllDigits(whole) && AllDigits(frac)
    ensures AllDigits(whole + frac) && AllDigits(whole + StripZeros(frac))
    ensures v * Power10(|frac|) == Number(whole + frac) * SCALE
       <==> v * Power10(|StripZeros(frac)|) == Number(whole + StripZeros(frac)) * SCALE
  {
    var kept := StripZeros(frac);
    var z := Power10(|frac| - |kept|);
    NumberOfStripped(whole, frac);
    PowersTogether(|kept|, |frac| - |kept|);
    Regroup(v, Power10(|kept|), z, Number(whole + kept));
    Cancel(v * Power10(|kept|), Number(whole + kept) * SCALE, z);
  }

  lemma Regroup(v: int, k: int, z: int, n: int)
    ensures v * (k * z) == (v * k) * z && (n * z) * SCALE == (n * SCALE) * z
  {
  }

  lemma LastDigitDecides(s: string)
    requires AllDigits(s) && s != "" && s[|s| - 1] != '0'
    ensures Number(s) % 10 != 0
  {
    var d := DigitValue(s[|s| - 1]);
    assert 0 < d < 10;
    assert Number(s) == Number(s[..|s| - 1]) * 10 + d;
  }

  lemma TensAreMultiplesOfTen(v: int, p: nat)
    ensures (v * (10 * p)) % 10 == 0
  {
    assert v * (10 * p) == 10 * (v * p);
  }

  /** More than eight significant decimals scale to no integer. */
  lemma TooManyDecimals(whole: string, kept: string, v: int)
    requires AllDigits(whole) && AllDigits(kept) && |kept| > SCALE_EXP && kept[|kept| - 1] != '0'
    ensures AllDigits(whole + kept) && v * Power10(|kept|) != Number(whole + kept) * SCALE
  {
    DigitsTogether(whole, kept);
    var r := |kept| - SCALE_EXP;
    PowersTogether(r, SCALE_EXP);
    ScaleIsAPower();
    assert v * (Power10(r) * SCALE) == (v * Power10(r)) * SCALE;
    Cancel(v * Power10(r), Number(whole + kept), SCALE);
    LastDigitDecides(whole + kept);
    TensAreMultiplesOfTen(v, Power10(r - 1));
  }

  lemma JoinedIsExact(whole: string, frac: string, v: int)
    requires AllDigits(whole) && AllDigits(frac)
    ensures AllDigits(whole + frac)
    ensures var m := Joined(whole, frac);
            if m.Ok? then m.value * Power10(|frac|) == Number(whole + frac) * SCALE
            else m.error == TooPrecise && v * Power10(|frac|) != Number(whole + frac) * SCALE
  {
    if |frac| <= SCALE_EXP {
      KeptIsExact(whole, frac);
    } else {
      var kept := StripZeros(frac);
      if |kept| <= SCALE_EXP {
        KeptIsExact(whole, kept);
        StrippingChangesNothing(whole, frac, Joined(whole, frac).value);
      } else {
        StrippedEndsInADigit(frac);
        TooManyDecimals(whole, kept, v);
        StrippingChangesNothing(whole, frac, v);
      }
    }
  }

  /** What is read off an unsigned decimal. */
  lemma MagnitudeIsExact(d: Decimal, v: int)
    requires d.Valid()
    ensures AllDigits(d.whole + d.frac)
    ensures var m := Magnitude(d.Body());
            if m.Ok? then m.value * Power10(|d.frac|) == Number(d.whole + d.frac) * SCALE
            else m.error == TooPrecise && v * Power10(|d.frac|) != Number(d.whole + d.frac) * SCALE
  {
    DigitsTogether(d.whole, d.frac);
    PartsOf(d);
    assert d.Body() != "" && d.Body()[0] == (if d.whole != "" then d.whole[0] else '.');
    JoinedIsExact(d.whole, d.frac, v);
  }

  lemma TextHasNoExponent(d: Decimal)
    requires d.Valid()
    ensures NoExponent(d.Text())
  {
    forall i | 0 <= i < |d.Text()|
      ensures d.Text()[i] != 'e' && d.Text()[i] != 'E'
    {
    }
  }

  lemma TextOpens(d: Decimal)
    requires d.Valid()
    ensures d.Text() != ""
    ensures d.sign == PLAIN ==> d.Text() == d.Body() && d.Text()[0] != '-' && d.Text()[0] != '+'
    ensures d.sign != PLAIN ==> d.Text()[1..] == d.Body() && d.Text()[0] == (if d.sign == MINUS then '-' else '+')
  {
    assert d.Body() != "" && d.Body()[0] == (if d.whole != "" then d.whole[0] else '.');
  }

  lemma Negated(v: int, p: int, n: int)
    ensures v * p == n * SCALE <==> (-v) * p == (-n) * SCALE
  {
    assert (-v) * p == -(v * p);
  }

  lemma SignComesOff(d: Decimal)
    requires d.Valid()
    ensures NoExponent(d.Text()) && ToScaled(d.Text()) == InRange(d.sign == MINUS, Magnitude(d.Body()))
  {
    TextHasNoExponent(d);
    TextOpens(d);
  }

  lemma RangeDecides(negative: bool, m: Outcome<int, NumberError>, n: int, p: nat, v: int)
    requires p >= 1
    requires if m.Ok? then m.value * p == n * SCALE else (if negative then -v else v) * p != n * SCALE
    ensures InRange(negative, m) == Ok(v) <==> v * p == (if negative then -n else n) * SCALE && Fits(v)
  {
    var size := if negative then -v else v;
    Negated(size, p, n);
    if m.Ok? { Cancel(size, m.value, p); }
  }

  /** A decimal literal scales exactly when its value has at most eight significant decimals
      and fits, and then to exactly 10^8 times the value. */
  lemma ScalesExactlyWhenItFits(d: Decimal, v: int)
    requires d.Valid()
    ensures NoExponent(d.Text())
    ensures ToScaled(d.Text()) == Ok(v) <==> d.ScalesTo(v) && -0x8000_0000_0000_0000 <= v <= 0x7FFF_FFFF_FFFF_FFFF
  {
    SignComesOff(d);
    MagnitudeIsExact(d, if d.sign == MINUS then -v else v);
    RangeDecides(d.sign == MINUS, Magnitude(d.Body()), Number(d.whole + d.frac), Power10(|d.frac|), v);
  }

  /** And nothing else is read as a number. */
  lemma OnlyDecimalsScale(s: string)
    requires NoExponent(s) && ToScaled(s).Ok?
    ensures exists d: Decimal :: d.Valid() && d.Text() == s
  {
    var sign := if s[0] == '-' then MINUS else if s[0] == '+' then PLUS else PLAIN;
    var u := if sign == PLAIN then s else s[1..];
    var d := OnlyBodiesHaveMagnitude(u);
    SignGoesBackOn(d, sign, s);
  }

  lemma SignGoesBackOn(d: Decimal, sign: Sign, s: string)
    requires d.Valid() && s != ""
    requires match sign
             case PLAIN => d.Body() == s
             case PLUS => s[0] == '+' && d.Body() == s[1..]
             case MINUS => s[0] == '-' && d.Body() == s[1..]
    ensures d.(sign := sign).Valid() && d.(sign := sign).Text() == s
  {
    assert s == [s[0]] + s[1..];
    assert d.(sign := sign).Body() == d.Body();
  }

  lemma OnlyBodiesHaveMagnitude(u: string) returns (d: Decimal)
    requires Magnitude(u).Ok?
    ensures d.Valid() && d.Body() == u
  {
    d := Decimal(PLAIN, IntPart(u), Point(u) < |u|, FracPart(u));
    PointIsAPoint(u);
    if Point(u) < |u| {
      assert u == u[..Point(u)] + [u[Point(u)]] + u[Point(u) + 1..];
      assert d.Body() == u;
    }
  }

  lemma {:induction false} PointIsAPoint(s: string)
    ensures Point(s) < |s| ==> s[Point(s)] == '.'
  {
    if s != "" && s[0] != '.' { PointIsAPoint(s[1..]); }
  }

  // ---------------------------------------------------------------------- round trip

  /** Reading back the fixed-point text of a scaled integer gives the integer, over all of
      int64. */
  lemma RoundTrip(n: int)
    requires -0x8000_0000_0000_0000 <= n <= 0x7FFF_FFFF_FFFF_FFFF
    ensures NoExponent(FixedText(n)) && ToScaled(FixedText(n)) == Ok(n)
  {
    var m := if n < 0 then -n else n;
    var d := Decimal(if n < 0 then MINUS else PLAIN, Numeral(m / SCALE), true, Digits(m % SCALE, SCALE_EXP));
    assert d.Text() == FixedText(n);
    FixedTextHoldsTheDigits(m / SCALE, m % SCALE);
    ScaleIsAPower();
    ScalesExactlyWhenItFits(d, n);
  }

  /** The text is a sign for a negative, the whole part with no zero before it, a point and
      eight decimals. */
  lemma FixedTextIsCanonical(n: int)
    ensures var text, point := FixedText(n), if n < 0 then 1 + Width(-n / 100000000) else Width(n / 100000000);
            && |text| == point + 9 && text[point] == '.'
            && (n < 0 <==> text[0] == '-')
            && var first := if n < 0 then text[1] else text[0];
               first == '0' <==> -100000000 < n < 100000000
  {
    var m := if n < 0 then -n else n;
    NumeralsHaveNoLeadingZero(m / SCALE);
    assert FixedText(n)[if n < 0 then 1 else 0] == Numeral(m / SCALE)[0];
  }

  lemma FixedTextHoldsTheDigits(whole: nat, frac: nat)
    requires frac < SCALE
    ensures AllDigits(Numeral(whole) + Digits(frac, SCALE_EXP))
    ensures Number(Numeral(whole) + Digits(frac, SCALE_EXP)) == whole * SCALE + frac
  {
    ScaleIsAPower();
    NumberOfNumeral(whole);
    NumberOfDigits(frac, SCALE_EXP);
    NumberTogether(Numeral(whole), Digits(frac, SCALE_EXP));
  }
}
