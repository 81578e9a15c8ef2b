/** The 8-decimal quantiser of the accounting seam (perplab/core/money.py). A `Decimal`
    carried at 50 digits is an exact `real` here. */
module Money {

  const SCALE: real := 100000000.0
  const QUANTUM: real := 0.00000001
  const HALF_QUANTUM: real := 0.000000005

  /** A product under a name: the solver then keeps it as one quantity. */
  function Times(x: real, y: real): real
  {
    x * y
  }

  lemma TimesSign(x: real, y: real)
    ensures x >= 0.0 && y >= 0.0 ==> Times(x, y) >= 0.0
    ensures x <= 0.0 && y >= 0.0 ==> Times(x, y) <= 0.0
    ensures x > 0.0 && y > 0.0 ==> Times(x, y) > 0.0
    ensures x < 0.0 && y > 0.0 ==> Times(x, y) < 0.0
  {
  }

  lemma TimesLinear(x: real, y: real, z: real)
    ensures Times(x, y + z) == Times(x, y) + Times(x, z)
    ensures Times(x, y - z) == Times(x, y) - Times(x, z)
    ensures Times(x + y, z) == Times(x, z) + Times(y, z)
    ensures Times(x - y, z) == Times(x, z) - Times(y, z)
    ensures Times(-x, y) == -Times(x, y)
    ensures Times(x, -y) == -Times(x, y)
  {
  }

  lemma TimesSymmetric(x: real, y: real)
    ensures Times(x, y) == Times(y, x)
  {
  }

  lemma TimesAssociates(x: real, y: real, z: real)
    ensures Times(Times(x, y), z) == Times(x, Times(y, z)) == Times(Times(x, z), y)
  {
  }

  /** Half-even rounding to an integer: section 4.3.1 of IEEE 754-2008. */
  function HalfEven(y: real): (n: int)
  {
    var n := y.Floor;
    var frac := y - n as real;
    if frac < 0.5 then n
    else if frac > 0.5 then n + 1
    else if n % 2 == 0 then n
    else n + 1
  }

  /** `quantize_money` and `quantize_entry_price`, which are one operation. */
  function Quantize(x: real): real
  {
    HalfEven(x * SCALE) as real / SCALE
  }

  predicate OnGrid(x: real)
  {
    x * SCALE == (x * SCALE).Floor as real
  }

  /** `x` lies exactly half-way between two grid points. */
  predicate Tie(x: real)
  {
    x * SCALE - (x * SCALE).Floor as real == 0.5
  }

  /** What "half-even" means, without saying how it is computed. */
  predicate IsHalfEven(m: int, y: real)
  {
    && -0.5 <= m as real - y <= 0.5
    && (m as real - y == 0.5 || m as real - y == -0.5 ==> m % 2 == 0)
  }

  lemma HalfEvenIsTheNearest(m: int, y: real)
    ensures m == HalfEven(y) <==> IsHalfEven(m, y)
  {
    var n := y.Floor;
    assert n as real <= y < n as real + 1.0;
    if IsHalfEven(m, y) {
      assert n as real - 0.5 <= m as real < n as real + 1.5;
      assert m == n || m == n + 1;
    }
  }

  /** Rounding an integer grid: never more than half a quantum away, monotone, odd. */
  lemma QuantizeError(x: real)
    ensures OnGrid(Quantize(x))
    ensures -0.000000005 <= Quantize(x) - x <= 0.000000005
  {
    HalfEvenIsTheNearest(HalfEven(x * SCALE), x * SCALE);
    assert Quantize(x) * SCALE == HalfEven(x * SCALE) as real;
  }

  lemma QuantizeMonotone(x: real, y: real)
    requires x <= y
    ensures Quantize(x) <= Quantize(y)
  {
    var a, b := x * SCALE, y * SCALE;
    assert a <= b;
    HalfEvenIsTheNearest(HalfEven(a), a);
    HalfEvenIsTheNearest(HalfEven(b), b);
    assert HalfEven(a) <= HalfEven(b);
  }

  lemma QuantizeOdd(x: real)
    ensures Quantize(-x) == -Quantize(x)
  {
    var y := x * SCALE;
    HalfEvenIsTheNearest(HalfEven(y), y);
    HalfEvenIsTheNearest(-HalfEven(y), -y);
    assert (-x) * SCALE == -y;
  }

  lemma QuantizeFixpoint(x: real)
    ensures Quantize(x) == x <==> OnGrid(x)
  {
    if OnGrid(x) {
      HalfEvenIsTheNearest((x * SCALE).Floor, x * SCALE);
      assert Quantize(x) * SCALE == x * SCALE;
    } else {
      QuantizeError(x);
    }
  }

  /** Half-even is not shift-invariant. Moving `x` by `k` quanta moves its rounding by
      `k` quanta exactly when `x` is no tie or `k` is even. */
  lemma QuantizeShift(x: real, k: int)
    ensures Quantize(x + k as real / SCALE) == Quantize(x) + k as real / SCALE
       <==> !Tie(x) || k % 2 == 0
  {
    var y := x * SCALE;
    var s := x + k as real / SCALE;
    assert s * SCALE == y + k as real;
    assert (y + k as real).Floor == y.Floor + k;
    HalfEvenIsTheNearest(HalfEven(y), y);
    HalfEvenIsTheNearest(HalfEven(y) + k, y + k as real);
    assert Quantize(s) == HalfEven(y + k as real) as real / SCALE;
    assert Quantize(x) + k as real / SCALE == (HalfEven(y) + k) as real / SCALE;
    assert Quantize(s) == Quantize(x) + k as real / SCALE <==> HalfEven(y + k as real) == HalfEven(y) + k;
  }

  /** An odd number of quanta takes a tie to the other of its two neighbours: up by one
      quantum against the moved rounding when the lower neighbour is even, down when odd. */
  lemma OddShiftOfATie(x: real, k: int)
    requires Tie(x) && k % 2 != 0
    ensures Quantize(x + k as real / SCALE)
         == Quantize(x) + (if (x * SCALE).Floor % 2 == 0 then k + 1 else k - 1) as real / SCALE
  {
    var y, n := x * SCALE, (x * SCALE).Floor;
    var s := x + k as real / SCALE;
    assert s * SCALE == y + k as real;
    assert (y + k as real).Floor == n + k;
    HalfEvenIsTheNearest(if n % 2 == 0 then n else n + 1, y);
    HalfEvenIsTheNearest(if n % 2 == 0 then n + k + 1 else n + k, y + k as real);
  }

  lemma WholeIsOnGrid(x: real, n: int)
    requires x * SCALE == n as real
    ensures OnGrid(x)
  {
  }

  lemma GridSum(x: real, y: real)
    requires OnGrid(x) && OnGrid(y)
    ensures OnGrid(x + y) && OnGrid(x - y)
  {
    var a, b := (x * SCALE).Floor, (y * SCALE).Floor;
    WholeIsOnGrid(x + y, a + b);
    WholeIsOnGrid(x - y, a - b);
  }

  /** How many quanta an amount on the grid is. */
  function Quanta(amount: real): int
  {
    (amount * SCALE).Floor
  }

  lemma GridDifference(x: real, amount: real)
    requires OnGrid(amount)
    ensures Quantize(Quantize(x) - amount) == Quantize(x) - amount
  {
    QuantizeError(x);
    GridSum(Quantize(x), amount);
    QuantizeFixpoint(Quantize(x) - amount);
  }

  lemma GridShift(x: real, amount: real)
    requires OnGrid(amount)
    ensures Quantize(x - amount) == Quantize(x) - amount <==> !Tie(x) || Quanta(amount) % 2 == 0
  {
    var n := -Quanta(amount);
    assert n as real / SCALE == -amount;
    assert n % 2 == 0 <==> Quanta(amount) % 2 == 0;
    QuantizeShift(x, n);
  }

  /** Rounding, then taking a grid amount away and rounding again, against taking the
      amount away first. */
  lemma QuantizeTwice(x: real, amount: real)
    requires OnGrid(amount)
    ensures Quantize(Quantize(x) - amount) == Quantize(x - amount) <==> !Tie(x) || Quanta(amount) % 2 == 0
  {
    GridDifference(x, amount);
    GridShift(x, amount);
  }

  /** Taking an odd grid amount off a tie, before and after rounding. */
  lemma OddAmountOffATie(x: real, amount: real)
    requires OnGrid(amount) && Tie(x) && Quanta(amount) % 2 != 0
    ensures Quantize(x - amount)
         == Quantize(Quantize(x) - amount) + (if (x * SCALE).Floor % 2 == 0 then 1.0 else -1.0) / SCALE
  {
    var k := -Quanta(amount);
    GridDifference(x, amount);
    assert k as real / SCALE == -amount && k % 2 != 0;
    OddShiftOfATie(x, k);
  }

  // ------------------------------------------------------ rounding before and after

  /** What rounding adds to an amount. */
  function RoundedUp(x: real): real
  {
    Quantize(x) - x
  }

  /** Rounding, taking an amount away and rounding again, over taking it away first. */
  function RoundingGap(x: real, amount: real): real
  {
    Quantize(Quantize(x) - amount) - Quantize(x - amount)
  }

  /** Half-even rounding to within one of a given integer. */
  lemma HalfEvenNear(y: real, m: int)
    requires -1.0 <= y - m as real <= 1.0
    ensures HalfEven(y)
         == if y - m as real > 0.5 || (y - m as real == 0.5 && m % 2 != 0) then m + 1
            else if y - m as real < -0.5 || (y - m as real == -0.5 && m % 2 != 0) then m - 1
            else m
  {
    var d := y - m as real;
    HalfEvenIsTheNearest(if d > 0.5 || (d == 0.5 && m % 2 != 0) then m + 1
                         else if d < -0.5 || (d == -0.5 && m % 2 != 0) then m - 1 else m, y);
  }

  lemma QuantaOfQuantized(x: real)
    ensures Quanta(Quantize(x)) == HalfEven(x * SCALE)
  {
    assert Quantize(x) * SCALE == HalfEven(x * SCALE) as real;
  }

  /** The quantum two roundings carry over between them: one that adds and one that takes
      off are more than half a quantum together, or just half where what is left is odd. */
  function Carry(drift: real, odd: bool): real
  {
    if drift > HALF_QUANTUM || (drift == HALF_QUANTUM && odd) then QUANTUM
    else if drift < -HALF_QUANTUM || (drift == -HALF_QUANTUM && odd) then -QUANTUM
    else 0.0
  }

  /** For every amount, on the grid or off it. */
  lemma RoundingGapIsExact(x: real, amount: real)
    ensures RoundingGap(x, amount)
         == Carry(RoundedUp(x) - RoundedUp(x - amount), Quanta(Quantize(x - amount)) % 2 != 0)
  {
    var z, w := (x - amount) * SCALE, (Quantize(x) - amount) * SCALE;
    QuantizeError(x);
    QuantizeError(x - amount);
    QuantaOfQuantized(x - amount);
    assert w - HalfEven(z) as real == (RoundedUp(x) - RoundedUp(x - amount)) * SCALE;
    HalfEvenNear(w, HalfEven(z));
  }
}
