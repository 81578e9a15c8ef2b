/** The liquidation-price fixed point (perplab/core/margin.py:446-514) and what it means. */
module Liquidation {
  import opened Money
  import opened Wrappers
  import opened Margin

  const MAX_BRACKET_ITERATIONS: nat := 8

  function Abs(x: real): real
  {
    if x < 0.0 then -x else x
  }

  /** The isolated position a liquidation price is solved for. */
  datatype Holding = Holding(qty: real, entry: real, margin: real)

  datatype Solution = Solution(price: real, tier: nat, iterations: nat) {
    predicate Reachable()
    {
      price > 0.0
    }
  }

  datatype SolveError =
    | FlatPosition
    | NonPositiveMark
    | BelowLowestFloor
    | DegenerateDenominator
    | NotConverged

  type Solved = Outcome<Solution, SolveError>

  function Denominator(h: Holding, b: LeverageBracket): real
  {
    Times(Abs(h.qty), b.mmr) - h.qty
  }

  function TierPrice(h: Holding, b: LeverageBracket): real
    requires Denominator(h, b) != 0.0
  {
    (h.margin - Times(h.qty, h.entry) + b.amount) / Denominator(h, b)
  }

  /** Iterations `k`, `k + 1`, ..., `cap` of the loop, from the notional it holds. */
  function Iterate(h: Holding, t: BracketTable, notional: real, k: nat, cap: nat): Solved
    requires |t| > 0
    decreases cap + 1 - k
  {
    if k > cap then Raised(NotConverged)
    else if Unresolvable(t, notional) then Raised(BelowLowestFloor)
    else
      var i := Resolve(t, notional);
      if Denominator(h, t[i]) == 0.0 then Raised(DegenerateDenominator)
      else
        var price := TierPrice(h, t[i]);
        if price <= 0.0 then Ok(Solution(price, i, k))
        else if Unresolvable(t, Times(Abs(h.qty), price)) then Raised(BelowLowestFloor)
        else if t[Resolve(t, Times(Abs(h.qty), price))].number == t[i].number then Ok(Solution(price, i, k))
        else Iterate(h, t, Times(Abs(h.qty), price), k + 1, cap)
  }

  function Solve(h: Holding, mark: real, t: BracketTable): Solved
    requires |t| > 0
  {
    if h.qty == 0.0 then Raised(FlatPosition)
    else if mark <= 0.0 then Raised(NonPositiveMark)
    else Iterate(h, t, Times(Abs(h.qty), mark), 1, MAX_BRACKET_ITERATIONS)
  }

  /** `liquidation_price`: the bounded loop. */
  method LiquidationPrice(h: Holding, mark: real, t: BracketTable) returns (r: Solved)
    requires |t| > 0
    ensures r == Solve(h, mark, t)
  {
    if h.qty == 0.0 { return Raised(FlatPosition); }
    if mark <= 0.0 { return Raised(NonPositiveMark); }
    var q := Abs(h.qty);
    var notional := Times(q, mark);
    ghost var solved := Iterate(h, t, notional, 1, MAX_BRACKET_ITERATIONS);
    for iteration := 1 to MAX_BRACKET_ITERATIONS + 1
      invariant solved == Iterate(h, t, notional, iteration, MAX_BRACKET_ITERATIONS)
    {
      if Unresolvable(t, notional) { return Raised(BelowLowestFloor); }
      var bracket := Resolve(t, notional);
      if Denominator(h, t[bracket]) == 0.0 { return Raised(DegenerateDenominator); }
      var price := TierPrice(h, t[bracket]);
      if price <= 0.0 { return Ok(Solution(price, bracket, iteration)); }
      if Unresolvable(t, Times(q, price)) { return Raised(BelowLowestFloor); }
      var settled := Resolve(t, Times(q, price));
      if t[settled].number == t[bracket].number { return Ok(Solution(price, bracket, iteration)); }
      notional := Times(q, price);
    }
    return Raised(NotConverged);
  }

  /** `bankruptcy_price`. */
  function BankruptcyPrice(h: Holding): real
    requires h.qty != 0.0
  {
    h.entry - h.margin / h.qty
  }

  /** The comparison `check_liquidations` makes. */
  predicate Crossed(qty: real, mark: real, price: real)
  {
    if qty > 0.0 then mark <= price else mark >= price
  }

  predicate Triggered(h: Holding, mark: real, s: Solution)
  {
    s.Reachable() && Crossed(h.qty, mark, s.price)
  }

  /** The comparison of invariant I7, skipped when the solved price is not positive. */
  predicate OrderingHolds(qty: real, entry: real, price: real, bankruptcy: real)
  {
    price <= 0.0 || (if qty > 0.0 then bankruptcy < price < entry else entry < price < bankruptcy)
  }

  /** A solved price that is positive stands on the table, in a tier of the number of the one
      that was solved. */
  predicate Settles(h: Holding, t: BracketTable, s: Solution)
    requires |t| > 0
  {
    var notional := Times(Abs(h.qty), s.price);
    && s.tier < |t| && Denominator(h, t[s.tier]) != 0.0 && s.price == TierPrice(h, t[s.tier])
    && (s.price > 0.0 ==> notional >= t[0].floor && t[Resolve(t, notional)].number == t[s.tier].number)
  }

  /** Whatever the table, an answer settles. */
  lemma {:induction false} AnswersSettle(h: Holding, t: BracketTable, notional: real, k: nat, cap: nat)
    requires |t| > 0 && Iterate(h, t, notional, k, cap).Ok?
    ensures Settles(h, t, Iterate(h, t, notional, k, cap).value)
    decreases cap + 1 - k
  {
    var b := t[Resolve(t, notional)];
    var next := Times(Abs(h.qty), TierPrice(h, b));
    if TierPrice(h, b) > 0.0 && t[Resolve(t, next)].number != b.number { AnswersSettle(h, t, next, k + 1, cap); }
  }

  lemma {:induction false} IterateRaises(h: Holding, t: BracketTable, notional: real, k: nat, cap: nat)
    requires |t| > 0 && Iterate(h, t, notional, k, cap).Raised?
    ensures Iterate(h, t, notional, k, cap).error in {BelowLowestFloor, DegenerateDenominator, NotConverged}
    decreases cap + 1 - k
  {
    if k <= cap && !Unresolvable(t, notional) {
      var b := t[Resolve(t, notional)];
      if Denominator(h, b) != 0.0 {
        var next := Times(Abs(h.qty), TierPrice(h, b));
        if TierPrice(h, b) > 0.0 && !Unresolvable(t, next) && t[Resolve(t, next)].number != b.number {
          IterateRaises(h, t, next, k + 1, cap);
        }
      }
    }
  }

  /** Nothing to solve for, and nothing to solve at. */
  lemma SolveRefusesExactly(h: Holding, mark: real, t: BracketTable)
    requires |t| > 0
    ensures Solve(h, mark, t) == Raised(FlatPosition) <==> h.qty == 0.0
    ensures Solve(h, mark, t) == Raised(NonPositiveMark) <==> h.qty != 0.0 && mark <= 0.0
  {
    var r := Iterate(h, t, Times(Abs(h.qty), mark), 1, MAX_BRACKET_ITERATIONS);
    if r.Raised? { IterateRaises(h, t, Times(Abs(h.qty), mark), 1, MAX_BRACKET_ITERATIONS); }
  }

  // -------------------------------------------------- what the solver is about

  /** Margin balance of the position at a mark. */
  function Balance(h: Holding, mark: real): real
  {
    h.margin + Times(h.qty, mark - h.entry)
  }

  /** Margin balance over the requirement of the tier the mark resolves to. */
  function Surplus(h: Holding, t: BracketTable, mark: real): real
    requires |t| > 0
  {
    Balance(h, mark) - Requirement(t, Times(Abs(h.qty), mark))
  }

  function TierSurplus(h: Holding, b: LeverageBracket, mark: real): real
  {
    Balance(h, mark) - Line(b, Times(Abs(h.qty), mark))
  }

  /** A short whose margin would be gone even at a mark of zero. */
  predicate Overdrawn(h: Holding)
  {
    h.qty < 0.0 && h.margin - Times(h.qty, h.entry) <= 0.0
  }

  lemma DenominatorSign(h: Holding, b: LeverageBracket)
    requires h.qty != 0.0 && BracketBuilds(b)
    ensures h.qty > 0.0 ==> Denominator(h, b) < 0.0
    ensures h.qty < 0.0 ==> Denominator(h, b) > 0.0
  {
    var q := Abs(h.qty);
    TimesLinear(q, 1.0, b.mmr);
    TimesSign(q, b.mmr);
    TimesSign(q, 1.0 - b.mmr);
  }

  /** Each tier's surplus is linear in the mark, and its root is the tier's price. */
  lemma TierSurplusIsLinear(h: Holding, b: LeverageBracket, mark: real)
    requires Denominator(h, b) != 0.0
    ensures TierSurplus(h, b, mark) == Times(Denominator(h, b), TierPrice(h, b) - mark)
  {
    var d, p, q := Denominator(h, b), TierPrice(h, b), Abs(h.qty);
    var n := h.margin - Times(h.qty, h.entry) + b.amount;
    Quotient(n, d);
    TimesLinear(d, p, mark);
    TimesLinear(Times(q, b.mmr), h.qty, mark);
    TimesAssociates(q, b.mmr, mark);
    TimesLinear(h.qty, mark, h.entry);
  }

  lemma Quotient(n: real, d: real)
    requires d != 0.0
    ensures Times(d, n / d) == n
  {
  }

  /** So a tier is short of margin at a mark exactly when the mark has crossed its price. */
  lemma TierSurplusSign(h: Holding, b: LeverageBracket, mark: real)
    requires h.qty != 0.0 && BracketBuilds(b)
    ensures Denominator(h, b) != 0.0
    ensures TierSurplus(h, b, mark) <= 0.0 <==> Crossed(h.qty, mark, TierPrice(h, b))
    ensures TierSurplus(h, b, mark) == 0.0 <==> mark == TierPrice(h, b)
  {
    DenominatorSign(h, b);
    TierSurplusIsLinear(h, b, mark);
    var d, x := Denominator(h, b), TierPrice(h, b) - mark;
    TimesLinear(d, x, x);
    TimesSign(x, d);
    TimesSign(-x, -d);
    TimesSign(-x, d);
    TimesSign(x, -d);
    TimesSymmetric(d, x);
  }

  lemma SurplusIsTheLeastTierSurplus(h: Holding, t: BracketTable, mark: real, i: nat)
    requires Smooth(t) && mark >= 0.0 && i < |t|
    ensures Surplus(h, t, mark) <= TierSurplus(h, t[i], mark)
    ensures Surplus(h, t, mark) == TierSurplus(h, t[Resolve(t, Times(Abs(h.qty), mark))], mark)
    ensures Surplus(h, t, mark) <= Balance(h, mark)
    ensures h.qty != 0.0 && mark > 0.0 ==> Surplus(h, t, mark) < Balance(h, mark)
  {
    TimesSign(Abs(h.qty), mark);
    RequirementIsTheGreatestLine(t, Times(Abs(h.qty), mark), i);
  }

  /** The surplus of a long strictly rises with the mark and that of a short strictly
      falls, across every tier boundary. */
  lemma SurplusIsStrictlyMonotone(h: Holding, t: BracketTable, x: real, y: real)
    requires Smooth(t) && h.qty != 0.0 && 0.0 <= x && 0.0 <= y
    requires if h.qty > 0.0 then x < y else y < x
    ensures Surplus(h, t, x) < Surplus(h, t, y)
  {
    var i := Resolve(t, Times(Abs(h.qty), y));
    SurplusIsTheLeastTierSurplus(h, t, x, i);
    SurplusIsTheLeastTierSurplus(h, t, y, i);
    DenominatorSign(h, t[i]);
    TierSurplusIsLinear(h, t[i], x);
    TierSurplusIsLinear(h, t[i], y);
    var d, p := Denominator(h, t[i]), TierPrice(h, t[i]);
    TimesLinear(d, p - x, p - y);
    TimesSign(y - x, -d);
    TimesSign(x - y, d);
    TimesSymmetric(d, y - x);
    TimesLinear(y - x, d, d);
    TimesLinear(y - x, y, d);
  }
}
