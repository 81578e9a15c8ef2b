/** Leverage brackets, the maintenance requirement, and the liquidation-price solver
    (perplab/core/margin.py). */
module Margin {
  import opened Money
  import opened Wrappers

  datatype LeverageBracket = LeverageBracket(
    number: int, maxLeverage: int, floor: real, cap: real, mmr: real, amount: real)

  /** What the constructor of one bracket accepts. */
  predicate BracketBuilds(b: LeverageBracket)
  {
    b.floor < b.cap && 0.0 < b.mmr < 1.0 && b.maxLeverage >= 1
  }

  predicate Next(i: int, j: int)
  {
    j == i + 1
  }

  type BracketTable = seq<LeverageBracket>

  ghost predicate Contiguous(t: BracketTable)
  {
    && |t| > 0
    && (forall i :: 0 <= i < |t| ==> BracketBuilds(t[i]))
    && (forall i, j {:trigger Next(i, j)} :: 0 <= i < j < |t| && Next(i, j) ==> t[j].floor == t[i].cap)
  }

  datatype TableError = EmptyTable | Unordered | Gap(lower: int) | Overlap(lower: int)

  /** The constructor of a table: it enforces contiguity and nothing else. */
  method CheckTable(t: BracketTable) returns (error: Option<TableError>)
    requires forall i :: 0 <= i < |t| ==> BracketBuilds(t[i])
    ensures error == None <==> Contiguous(t)
    ensures error == Some(Unordered) ==> exists i, j :: 0 <= i < j < |t| && t[i].floor > t[j].floor
    ensures error.Some? && error.value.Gap? ==>
              var k := error.value.lower; 0 <= k < |t| - 1 && t[k].cap < t[k + 1].floor
    ensures error.Some? && error.value.Overlap? ==>
              var k := error.value.lower; 0 <= k < |t| - 1 && t[k + 1].floor < t[k].cap
  {
    if |t| == 0 {
      return Some(EmptyTable);
    }
    for i := 1 to |t| {
      if t[i - 1].floor > t[i].floor {
        assert Next(i - 1, i);
        return Some(Unordered);
      }
    }
    for i := 1 to |t|
      invariant forall k, j {:trigger Next(k, j)} :: 0 <= k < j < i && Next(k, j) ==> t[j].floor == t[k].cap
    {
      assert Next(i - 1, i);
      if t[i].floor > t[i - 1].cap {
        return Some(Gap(i - 1));
      }
      if t[i].floor < t[i - 1].cap {
        return Some(Overlap(i - 1));
      }
    }
    return None;
  }

  // ------------------------------------------------------------------- resolution

  function ResolveFrom(t: BracketTable, notional: real, i: nat): (k: nat)
    requires i < |t|
    ensures i <= k < |t|
    ensures forall j :: i <= j < k ==> t[j].cap < notional
    ensures k == |t| - 1 || notional <= t[k].cap
    decreases |t| - i
  {
    if notional <= t[i].cap || i == |t| - 1 then i else ResolveFrom(t, notional, i + 1)
  }

  /** Index of the bracket that governs a notional: the first whose cap covers it, and the
      last one above every cap. */
  function Resolve(t: BracketTable, notional: real): (k: nat)
    requires |t| > 0
    ensures k < |t|
    ensures forall j :: 0 <= j < k ==> t[j].cap < notional
    ensures k == |t| - 1 || notional <= t[k].cap
  {
    ResolveFrom(t, notional, 0)
  }

  /** `resolve` refuses a notional under the first floor. */
  predicate Unresolvable(t: BracketTable, notional: real)
    requires |t| > 0
  {
    notional < 0.0 || notional < t[0].floor
  }

  predicate Continues(lower: LeverageBracket, upper: LeverageBracket)
  {
    && lower.mmr <= upper.mmr
    && upper.amount == lower.amount + Times(lower.cap, upper.mmr - lower.mmr)
  }

  /** The tables of the published schedule: rates that do not fall and deductions that make
      the requirement continuous, both starting from zero. The constructor checks neither. */
  ghost predicate Smooth(t: BracketTable)
  {
    && Contiguous(t)
    && t[0].floor == 0.0 && t[0].amount == 0.0
    && (forall i, j {:trigger Next(i, j)} :: 0 <= i < j < |t| && Next(i, j) ==> Continues(t[i], t[j]))
  }

  /** Tiers that share a number share a rate. */
  ghost predicate NumbersTellTheRates(t: BracketTable)
  {
    forall i, j {:trigger t[i].number, t[j].number} :: 0 <= i < j < |t| && t[i].number == t[j].number ==> t[i].mmr == t[j].mmr
  }

  /** No two tiers share a number. */
  ghost predicate Numbered(t: BracketTable)
  {
    forall i, j {:trigger t[i].number, t[j].number} :: 0 <= i < j < |t| ==> t[i].number != t[j].number
  }

  /** The tables the solver answers rightly on: `Convergence` proves that on a smooth table
      the second condition is exactly what it takes. */
  ghost predicate Regular(t: BracketTable)
  {
    Smooth(t) && NumbersTellTheRates(t)
  }

  /** `maintenance_margin`: the charge of one tier, clamped at zero. */
  function MaintenanceMargin(notional: real, b: LeverageBracket): real
  {
    var mm := Times(notional, b.mmr) - b.amount;
    if mm > 0.0 then mm else 0.0
  }

  /** The same charge without the clamp: a line in the notional. */
  function Line(b: LeverageBracket, notional: real): real
  {
    Times(notional, b.mmr) - b.amount
  }

  /** The requirement at a notional, charged by the tier that governs it. */
  function Requirement(t: BracketTable, notional: real): real
    requires |t| > 0
  {
    MaintenanceMargin(notional, t[Resolve(t, notional)])
  }

  lemma LineStep(t: BracketTable, i: nat, n: real)
    requires Smooth(t) && i + 1 < |t|
    ensures n <= t[i].cap ==> Line(t[i + 1], n) <= Line(t[i], n)
    ensures t[i].cap <= n ==> Line(t[i], n) <= Line(t[i + 1], n)
  {
    var d := t[i + 1].mmr - t[i].mmr;
    assert Next(i, i + 1);
    assert Continues(t[i], t[i + 1]);
    TimesLinear(n, t[i + 1].mmr, t[i].mmr);
    TimesLinear(n, t[i].cap, d);
    assert Line(t[i + 1], n) - Line(t[i], n) == Times(n - t[i].cap, d);
    TimesSign(n - t[i].cap, d);
  }

  lemma {:induction false} LinesRise(t: BracketTable, i: nat, j: nat, n: real)
    requires Smooth(t) && i <= j < |t|
    requires forall k :: i <= k < j ==> t[k].cap <= n
    ensures Line(t[i], n) <= Line(t[j], n)
    decreases j - i
  {
    if i < j {
      LineStep(t, i, n);
      LinesRise(t, i + 1, j, n);
    }
  }

  lemma {:induction false} LinesFall(t: BracketTable, j: nat, i: nat, n: real)
    requires Smooth(t) && j <= i < |t|
    requires n <= t[j].cap
    ensures Line(t[i], n) <= Line(t[j], n)
    decreases i - j
  {
    if j < i {
      LineStep(t, j, n);
      assert Next(j, j + 1);
      assert BracketBuilds(t[j + 1]);
      LinesFall(t, j + 1, i, n);
    }
  }

  lemma {:induction false} RatesAndCapsRise(t: BracketTable, i: nat, j: nat)
    requires Smooth(t) && i <= j < |t|
    ensures t[i].mmr <= t[j].mmr && t[i].cap <= t[j].cap
    ensures i < j ==> t[i].cap < t[j].cap
    decreases j - i
  {
    if i < j {
      assert Next(i, i + 1);
      assert BracketBuilds(t[i + 1]) && Continues(t[i], t[i + 1]);
      RatesAndCapsRise(t, i + 1, j);
    }
  }

  /** Tiers of one rate lie on one line. */
  lemma {:induction false} EqualRatesAreOneLine(t: BracketTable, i: nat, j: nat)
    requires Smooth(t) && i <= j < |t| && t[i].mmr == t[j].mmr
    ensures t[i].amount == t[j].amount
    decreases j - i
  {
    if i < j {
      assert Next(i, i + 1);
      assert Continues(t[i], t[i + 1]);
      RatesAndCapsRise(t, i + 1, j);
      EqualRatesAreOneLine(t, i + 1, j);
      assert Times(t[i].cap, t[i + 1].mmr - t[i].mmr) == 0.0;
    }
  }

  /** Above the caps between two tiers of different rates the upper line is strictly higher. */
  lemma {:induction false} LinesRiseStrictly(t: BracketTable, i: nat, j: nat, n: real)
    requires Smooth(t) && i < j < |t| && t[i].mmr < t[j].mmr
    requires forall k :: i <= k < j ==> t[k].cap < n
    ensures Line(t[i], n) < Line(t[j], n)
    decreases j - i
  {
    var d := t[i + 1].mmr - t[i].mmr;
    assert Next(i, i + 1);
    assert Continues(t[i], t[i + 1]);
    TimesLinear(n, t[i + 1].mmr, t[i].mmr);
    TimesLinear(n, t[i].cap, d);
    assert Line(t[i + 1], n) - Line(t[i], n) == Times(n - t[i].cap, d);
    TimesSign(n - t[i].cap, d);
    if d > 0.0 {
      LinesRise(t, i + 1, j, n);
    } else {
      LinesRiseStrictly(t, i + 1, j, n);
    }
  }

  /** The requirement is the maximum of the tier lines, and the clamp never bites. */
  lemma RequirementIsTheGreatestLine(t: BracketTable, n: real, i: nat)
    requires Smooth(t) && n >= 0.0 && i < |t|
    ensures Line(t[i], n) <= Requirement(t, n) == Line(t[Resolve(t, n)], n)
    ensures 0.0 < n ==> 0.0 < Requirement(t, n)
  {
    var k := Resolve(t, n);
    if i <= k { LinesRise(t, i, k, n); } else { LinesFall(t, k, i, n); }
    LinesRise(t, 0, k, n);
    TimesSign(n, t[0].mmr);
  }

  lemma {:induction false} AmountsAreNonNegative(t: BracketTable, i: nat)
    requires Smooth(t) && i < |t|
    ensures t[i].amount >= 0.0 && t[i].cap > 0.0
  {
    if i > 0 {
      AmountsAreNonNegative(t, i - 1);
      assert Next(i - 1, i);
      assert Continues(t[i - 1], t[i]);
      TimesSign(t[i - 1].cap, t[i].mmr - t[i - 1].mmr);
    }
  }

  lemma ResolveMonotone(t: BracketTable, m: real, n: real)
    requires |t| > 0 && m <= n
    ensures Resolve(t, m) <= Resolve(t, n)
  {
  }
}
