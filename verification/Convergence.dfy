/** Theorems about the liquidation solve: it converges, its answer is the one root, and
    the trigger it feeds is exact. */
module Convergence {
  import opened Money
  import opened Wrappers
  import opened Margin
  import opened Liquidation

  function NotionalAt(h: Holding, mark: real): real
  {
    Times(Abs(h.qty), mark)
  }

  lemma NotionalsResolve(h: Holding, t: BracketTable, mark: real)
    requires Smooth(t) && mark >= 0.0
    ensures !Unresolvable(t, NotionalAt(h, mark))
  {
    TimesSign(Abs(h.qty), mark);
  }

  /** What one pass of the loop does from a mark `x`: it solves the tier governing `x`. */
  lemma OneStep(h: Holding, t: BracketTable, x: real)
    requires Smooth(t) && h.qty != 0.0 && x > 0.0
    ensures var i := Resolve(t, NotionalAt(h, x));
            && Denominator(h, t[i]) != 0.0
            && (Surplus(h, t, x) <= 0.0 <==> Crossed(h.qty, x, TierPrice(h, t[i])))
            && (TierPrice(h, t[i]) >= 0.0 ==> Surplus(h, t, TierPrice(h, t[i])) <= 0.0)
  {
    var i := Resolve(t, NotionalAt(h, x));
    TierSurplusSign(h, t[i], x);
    SurplusIsTheLeastTierSurplus(h, t, x, i);
    var p := TierPrice(h, t[i]);
    TierSurplusSign(h, t[i], p);
    if p >= 0.0 { SurplusIsTheLeastTierSurplus(h, t, p, i); }
  }

  /** A settled price is where the surplus is zero, in the tier that produced it. */
  lemma SettledPriceIsARoot(h: Holding, t: BracketTable, p: real)
    requires Smooth(t) && h.qty != 0.0 && p > 0.0
    requires var j := Resolve(t, NotionalAt(h, p)); Denominator(h, t[j]) != 0.0 && TierPrice(h, t[j]) == p
    ensures Surplus(h, t, p) == 0.0
  {
    var j := Resolve(t, NotionalAt(h, p));
    TierSurplusSign(h, t[j], p);
    SurplusIsTheLeastTierSurplus(h, t, p, j);
  }

  /** A non-positive price means an overdrawn short, or a long solvent at the mark the
      iteration started from. */
  ghost predicate Unreached(h: Holding, t: BracketTable, x: real)
    requires |t| > 0
  {
    if h.qty < 0.0 then Overdrawn(h) else Surplus(h, t, x) > 0.0
  }

  lemma NonPositivePrice(h: Holding, t: BracketTable, x: real, i: nat)
    requires Smooth(t) && h.qty != 0.0 && x > 0.0 && i == Resolve(t, NotionalAt(h, x))
    requires Denominator(h, t[i]) != 0.0 && TierPrice(h, t[i]) <= 0.0
    ensures Unreached(h, t, x)
  {
    OneStep(h, t, x);
    if h.qty < 0.0 {
      AmountsAreNonNegative(t, i);
      DenominatorSign(h, t[i]);
      var n, d := h.margin - Times(h.qty, h.entry) + t[i].amount, Denominator(h, t[i]);
      Quotient(n, d);
      TimesSymmetric(d, n / d);
      TimesSign(n / d, d);
    }
  }

  /** Two tiers of one number that charge alike. */
  predicate SameCharge(a: LeverageBracket, b: LeverageBracket)
  {
    a.number == b.number && a.mmr == b.mmr && a.amount == b.amount
  }

  lemma SharedNumbersChargeAlike(t: BracketTable, i: nat, j: nat)
    requires Regular(t) && i < |t| && j < |t| && t[i].number == t[j].number
    ensures SameCharge(t[i], t[j])
  {
    if i <= j { EqualRatesAreOneLine(t, i, j); } else { EqualRatesAreOneLine(t, j, i); }
  }

  /** Every answer of the loop, from whatever mark, iteration and cap. */
  ghost predicate Answers(h: Holding, t: BracketTable, x: real, s: Solution)
    requires |t| > 0
  {
    && s.tier < |t|
    && Denominator(h, t[s.tier]) != 0.0
    && s.price == TierPrice(h, t[s.tier])
    && (if s.Reachable()
        then SameCharge(t[s.tier], t[Resolve(t, NotionalAt(h, s.price))]) && Surplus(h, t, s.price) == 0.0
        else Unreached(h, t, x))
  }

  lemma {:induction false} IterateAnswers(h: Holding, t: BracketTable, x: real, k: nat, cap: nat)
    requires Regular(t) && h.qty != 0.0 && x > 0.0
    ensures var r := Iterate(h, t, NotionalAt(h, x), k, cap); r.Ok? ==> Answers(h, t, x, r.value)
    decreases cap + 1 - k
  {
    if k <= cap {
      NotionalsResolve(h, t, x);
      OneStep(h, t, x);
      var i := Resolve(t, NotionalAt(h, x));
      var p := TierPrice(h, t[i]);
      if p <= 0.0 {
        NonPositivePrice(h, t, x, i);
      } else {
        NotionalsResolve(h, t, p);
        var j := Resolve(t, NotionalAt(h, p));
        if t[j].number == t[i].number {
          SharedNumbersChargeAlike(t, i, j);
          SettledPriceIsARoot(h, t, p);
        } else {
          IterateAnswers(h, t, p, k + 1, cap);
        }
      }
    }
  }

  // ------------------------------------------------------------------- termination

  /** Tiers the iteration can still visit once it stands in tier `i`, having left `first`. */
  function TiersAhead(qty: real, n: nat, i: nat, first: nat): (r: int)
  {
    if qty > 0.0 then n - i - (if i < first then 1 else 0)
    else i + 1 - (if first < i then 1 else 0)
  }

  /** After the first step the solved prices only move toward the root, so the tier index
      moves one way too and never returns to the tier it started in. */
  lemma {:induction false} PricesMoveOneWay(h: Holding, t: BracketTable, x: real, k: nat, cap: nat, first: nat)
    requires Regular(t) && h.qty != 0.0 && x > 0.0 && first < |t|
    requires Denominator(h, t[first]) != 0.0 && Crossed(h.qty, TierPrice(h, t[first]), x)
    requires Surplus(h, t, x) <= 0.0
    requires var i := Resolve(t, NotionalAt(h, x));
             i != first && k + TiersAhead(h.qty, |t|, i, first) - 1 <= cap
    ensures var i := Resolve(t, NotionalAt(h, x));
            var r := Iterate(h, t, NotionalAt(h, x), k, cap);
            r.Ok? && r.value.iterations <= k + TiersAhead(h.qty, |t|, i, first) - 1
    decreases cap + 1 - k
  {
    NotionalsResolve(h, t, x);
    OneStep(h, t, x);
    var i := Resolve(t, NotionalAt(h, x));
    var p := TierPrice(h, t[i]);
    if p > 0.0 {
      NotionalsResolve(h, t, p);
      var j := Resolve(t, NotionalAt(h, p));
      if t[j].number != t[i].number {
        NextTier(h, t, x, first);
        PricesMoveOneWay(h, t, p, k + 1, cap, first);
      }
    }
  }

  lemma NextTier(h: Holding, t: BracketTable, x: real, first: nat)
    requires Smooth(t) && h.qty != 0.0 && x > 0.0 && first < |t|
    requires Denominator(h, t[first]) != 0.0 && Crossed(h.qty, TierPrice(h, t[first]), x)
    requires Surplus(h, t, x) <= 0.0
    requires var i := Resolve(t, NotionalAt(h, x));
             && i != first
             && Denominator(h, t[i]) != 0.0
             && TierPrice(h, t[i]) > 0.0
             && Resolve(t, NotionalAt(h, TierPrice(h, t[i]))) != i
    ensures var i := Resolve(t, NotionalAt(h, x));
            var p := TierPrice(h, t[i]);
            var j := Resolve(t, NotionalAt(h, p));
            && Crossed(h.qty, TierPrice(h, t[first]), p)
            && Surplus(h, t, p) <= 0.0
            && j != first
            && (if h.qty > 0.0 then i < j else j < i)
  {
    OneStep(h, t, x);
    var i := Resolve(t, NotionalAt(h, x));
    var p := TierPrice(h, t[i]);
    OneStep(h, t, p);
    NotionalsOrdered(h, t, x, p);
  }

  lemma NotionalsOrdered(h: Holding, t: BracketTable, x: real, y: real)
    requires |t| > 0
    ensures x <= y ==> Resolve(t, NotionalAt(h, x)) <= Resolve(t, NotionalAt(h, y))
    ensures y <= x ==> Resolve(t, NotionalAt(h, y)) <= Resolve(t, NotionalAt(h, x))
  {
    var q := Abs(h.qty);
    TimesLinear(q, y, x);
    TimesSign(q, y - x);
    TimesLinear(q, x, y);
    TimesSign(q, x - y);
  }

  /** The loop visits no tier twice: any cap of at least the number of tiers is enough. */
  lemma ConvergesWithinTheNumberOfTiers(h: Holding, t: BracketTable, mark: real, cap: nat)
    requires Regular(t) && h.qty != 0.0 && mark > 0.0 && |t| <= cap
    ensures var r := Iterate(h, t, NotionalAt(h, mark), 1, cap); r.Ok? && r.value.iterations <= |t|
  {
    NotionalsResolve(h, t, mark);
    OneStep(h, t, mark);
    var i := Resolve(t, NotionalAt(h, mark));
    var p := TierPrice(h, t[i]);
    if p > 0.0 {
      NotionalsResolve(h, t, p);
      var j := Resolve(t, NotionalAt(h, p));
      if t[j].number != t[i].number {
        PricesMoveOneWay(h, t, p, 2, cap, i);
      }
    }
  }

  /** `BracketConvergenceError` is never raised on a regular table of at most 8 tiers. */
  lemma SolveConverges(h: Holding, mark: real, t: BracketTable)
    requires Regular(t) && |t| <= 8 && h.qty != 0.0 && mark > 0.0
    ensures Solve(h, mark, t).Ok? && Solve(h, mark, t).value.iterations <= |t|
  {
    ConvergesWithinTheNumberOfTiers(h, t, mark, MAX_BRACKET_ITERATIONS);
  }

  // ----------------------------------------------------------------------- meaning

  /** Two marks with no surplus are one mark. */
  lemma RootIsUnique(h: Holding, t: BracketTable, x: real, y: real)
    requires Smooth(t) && h.qty != 0.0 && x >= 0.0 && y >= 0.0
    requires Surplus(h, t, x) == Surplus(h, t, y)
    ensures x == y
  {
    if x != y && (h.qty > 0.0 <==> x < y) {
      SurplusIsStrictlyMonotone(h, t, x, y);
    } else if x != y {
      SurplusIsStrictlyMonotone(h, t, y, x);
    }
  }

  /** A short that is overdrawn has no surplus at any mark, and so no positive root. */
  lemma OverdrawnShortHasNoRoot(h: Holding, t: BracketTable, x: real)
    requires Smooth(t) && Overdrawn(h) && x > 0.0
    ensures Surplus(h, t, x) < 0.0
  {
    SurplusIsTheLeastTierSurplus(h, t, x, 0);
    TimesLinear(h.qty, x, h.entry);
    TimesSymmetric(h.qty, x);
    TimesSymmetric(x, h.qty);
    TimesLinear(x, -h.qty, h.qty);
    TimesSign(x, -h.qty);
    TimesLinear(x, h.qty, h.qty);
  }

  /** The verdict at the mark is exact: triggered when, and only when, the balance at the
      mark is within the requirement at the mark, overdrawn shorts apart. */
  lemma TriggerIsExact(h: Holding, mark: real, t: BracketTable)
    requires Regular(t) && h.qty != 0.0 && mark > 0.0 && Solve(h, mark, t).Ok?
    ensures Triggered(h, mark, Solve(h, mark, t).value)
       <==> Balance(h, mark) <= Requirement(t, NotionalAt(h, mark)) && !Overdrawn(h)
  {
    IterateAnswers(h, t, mark, 1, MAX_BRACKET_ITERATIONS);
    var s := Solve(h, mark, t).value;
    if s.Reachable() {
      if Overdrawn(h) { OverdrawnShortHasNoRoot(h, t, s.price); }
      if mark != s.price {
        if h.qty > 0.0 <==> mark < s.price {
          SurplusIsStrictlyMonotone(h, t, mark, s.price);
        } else {
          SurplusIsStrictlyMonotone(h, t, s.price, mark);
        }
      }
    }
  }

  /** A positive solved price is the unique root and lies in the tier that produced it, or,
      when tiers share a number, in one that charges the same. */
  lemma SolvedPriceIsTheUniqueRoot(h: Holding, mark: real, t: BracketTable, x: real)
    requires Regular(t) && h.qty != 0.0 && mark > 0.0 && x > 0.0
    requires Solve(h, mark, t).Ok? && Solve(h, mark, t).value.Reachable()
    ensures Solve(h, mark, t).value.tier < |t|
    ensures var s := Solve(h, mark, t).value;
            && SameCharge(t[s.tier], t[Resolve(t, NotionalAt(h, s.price))])
            && (Numbered(t) ==> s.tier == Resolve(t, NotionalAt(h, s.price)))
            && (Surplus(h, t, x) == 0.0 <==> x == s.price)
  {
    IterateAnswers(h, t, mark, 1, MAX_BRACKET_ITERATIONS);
    var s := Solve(h, mark, t).value;
    if Surplus(h, t, x) == 0.0 { RootIsUnique(h, t, x, s.price); }
  }

  /** What `reachable` decides: a short is skipped when it is overdrawn, although it is
      insolvent at every mark; a long only when it is solvent at this mark. */
  lemma UnreachableMeans(h: Holding, mark: real, t: BracketTable)
    requires Regular(t) && h.qty != 0.0 && mark > 0.0 && Solve(h, mark, t).Ok?
    ensures h.qty < 0.0 ==> (!Solve(h, mark, t).value.Reachable() <==> Overdrawn(h))
    ensures h.qty > 0.0 && !Solve(h, mark, t).value.Reachable() ==> Surplus(h, t, mark) > 0.0
  {
    IterateAnswers(h, t, mark, 1, MAX_BRACKET_ITERATIONS);
    var s := Solve(h, mark, t).value;
    if s.Reachable() && Overdrawn(h) { OverdrawnShortHasNoRoot(h, t, s.price); }
  }

  // ------------------------------------------------------------------ consequences

  /** Invariant I7 cannot fire under the guard `_solve_liquidation` puts before it. */
  lemma OrderingNeverFails(h: Holding, mark: real, t: BracketTable)
    requires Regular(t) && h.qty != 0.0 && h.entry > 0.0 && mark > 0.0 && Solve(h, mark, t).Ok?
    requires var s := Solve(h, mark, t).value;
             s.tier < |t| && h.margin > MaintenanceMargin(NotionalAt(h, h.entry), t[s.tier])
    ensures OrderingHolds(h.qty, h.entry, Solve(h, mark, t).value.price, BankruptcyPrice(h))
  {
    IterateAnswers(h, t, mark, 1, MAX_BRACKET_ITERATIONS);
    var s := Solve(h, mark, t).value;
    if s.Reachable() {
      TierSurplusSign(h, t[s.tier], h.entry);
      assert Times(h.qty, h.entry - h.entry) == 0.0;
      SurplusIsTheLeastTierSurplus(h, t, s.price, s.tier);
      BalanceIsZeroAtBankruptcy(h);
      BalanceGrows(h, BankruptcyPrice(h), s.price);
    }
  }

  lemma BalanceIsZeroAtBankruptcy(h: Holding)
    requires h.qty != 0.0
    ensures Balance(h, BankruptcyPrice(h)) == 0.0
  {
    Quotient(h.margin, h.qty);
    TimesLinear(h.qty, 0.0, h.margin / h.qty);
    assert BankruptcyPrice(h) - h.entry == 0.0 - h.margin / h.qty;
  }

  lemma BalanceGrows(h: Holding, x: real, y: real)
    requires h.qty != 0.0 && Balance(h, x) < Balance(h, y)
    ensures if h.qty > 0.0 then x < y else y < x
  {
    TimesLinear(h.qty, y - h.entry, x - h.entry);
    assert Times(h.qty, y - x) > 0.0;
    TimesSymmetric(h.qty, y - x);
    TimesSign(y - x, h.qty);
    TimesSign(y - x, -h.qty);
    TimesLinear(y - x, h.qty, h.qty);
  }

  /** A long is unreachable exactly when its first tier already solves below zero. */
  lemma LongReachability(h: Holding, mark: real, t: BracketTable)
    requires Regular(t) && h.qty > 0.0 && mark > 0.0 && Solve(h, mark, t).Ok?
    ensures var i := Resolve(t, NotionalAt(h, mark));
            && Denominator(h, t[i]) != 0.0
            && (Solve(h, mark, t).value.Reachable() <==> TierPrice(h, t[i]) > 0.0)
  {
    NotionalsResolve(h, t, mark);
    OneStep(h, t, mark);
    var i := Resolve(t, NotionalAt(h, mark));
    var p := TierPrice(h, t[i]);
    if p > 0.0 {
      NotionalsResolve(h, t, p);
      var j := Resolve(t, NotionalAt(h, p));
      if t[j].number != t[i].number {
        IterateAnswers(h, t, p, 2, MAX_BRACKET_ITERATIONS);
      }
    }
  }

  lemma TierPriceFollowsTheMargin(h: Holding, more: Holding, b: LeverageBracket)
    requires BracketBuilds(b) && h.qty != 0.0
    requires more == h.(margin := more.margin) && h.margin <= more.margin
    ensures Denominator(h, b) == Denominator(more, b) != 0.0
    ensures Crossed(h.qty, TierPrice(more, b), TierPrice(h, b))
  {
    DenominatorSign(h, b);
    TierSurplusSign(more, b, TierPrice(more, b));
    TierSurplusSign(h, b, TierPrice(more, b));
  }

  lemma RootsFollowTheMargin(h: Holding, more: Holding, t: BracketTable, x: real, x': real)
    requires Smooth(t) && h.qty != 0.0 && x > 0.0 && x' > 0.0
    requires more == h.(margin := more.margin) && h.margin <= more.margin
    requires Surplus(h, t, x) == 0.0 && Surplus(more, t, x') == 0.0
    ensures Crossed(h.qty, x', x)
    ensures x == x' <==> h.margin == more.margin
  {
    assert Surplus(more, t, x) == Surplus(h, t, x) + (more.margin - h.margin);
    if x != x' {
      if h.qty > 0.0 <==> x < x' {
        SurplusIsStrictlyMonotone(more, t, x, x');
      } else {
        SurplusIsStrictlyMonotone(more, t, x', x);
      }
    }
  }

  /** The solved price is monotone in the margin: more margin moves it away from the mark
      side, less margin can only move it adversely, whatever marks the two solves began
      from; and at one mark more margin never makes the worse case reachable. */
  lemma PriceIsMonotoneInTheMargin(h: Holding, more: Holding, t: BracketTable, mark: real, mark': real)
    requires Regular(t) && h.qty != 0.0 && mark > 0.0 && mark' > 0.0
    requires more == h.(margin := more.margin) && h.margin <= more.margin
    requires Solve(h, mark, t).Ok? && Solve(more, mark', t).Ok?
    ensures var s, s' := Solve(h, mark, t).value, Solve(more, mark', t).value;
            && (s.Reachable() && s'.Reachable() ==>
                  && Crossed(h.qty, s'.price, s.price)
                  && (s.price == s'.price <==> h.margin == more.margin))
            && (h.qty < 0.0 && s.Reachable() ==> s'.Reachable())
            && (h.qty > 0.0 && mark == mark' && s'.Reachable() ==> s.Reachable())
  {
    IterateAnswers(h, t, mark, 1, MAX_BRACKET_ITERATIONS);
    IterateAnswers(more, t, mark', 1, MAX_BRACKET_ITERATIONS);
    var s, s' := Solve(h, mark, t).value, Solve(more, mark', t).value;
    if s.Reachable() && s'.Reachable() { RootsFollowTheMargin(h, more, t, s.price, s'.price); }
    if h.qty < 0.0 {
      UnreachableMeans(h, mark, t);
      UnreachableMeans(more, mark', t);
    } else if mark == mark' {
      LongReachability(h, mark, t);
      LongReachability(more, mark, t);
      TierPriceFollowsTheMargin(h, more, t[Resolve(t, NotionalAt(h, mark))]);
    }
  }

  // ---------------------------------------------------------- what the numbers decide

  /** The position, and the mark, that a shared number answers wrongly for. */
  function Misled(lower: LeverageBracket, upper: LeverageBracket): Holding
  {
    Holding(1.0, 1.0 + lower.amount + Times(upper.cap, 1.0 - lower.mmr), 1.0)
  }

  lemma MisledPrice(lower: LeverageBracket, upper: LeverageBracket)
    requires BracketBuilds(lower)
    ensures Denominator(Misled(lower, upper), lower) == lower.mmr - 1.0
    ensures TierPrice(Misled(lower, upper), lower) == upper.cap
  {
    var h := Misled(lower, upper);
    var n, d := h.margin - Times(h.qty, h.entry) + lower.amount, Denominator(h, lower);
    assert Times(1.0, h.entry) == h.entry && Times(1.0, lower.mmr) == lower.mmr;
    TimesSymmetric(d, upper.cap);
    TimesLinear(upper.cap, 0.0, 1.0 - lower.mmr);
    assert d == 0.0 - (1.0 - lower.mmr) && Times(upper.cap, 0.0) == 0.0;
    assert n == Times(d, upper.cap);
    QuotientIsUnique(n, d, upper.cap);
  }

  lemma QuotientIsUnique(n: real, d: real, x: real)
    requires d != 0.0 && n == Times(d, x)
    ensures n / d == x
  {
    Quotient(n, d);
    TimesLinear(d, n / d, x);
    TimesSymmetric(d, n / d - x);
    TimesSign(n / d - x, d);
    TimesSign(x - n / d, d);
    TimesSign(n / d - x, -d);
    TimesSign(x - n / d, -d);
    TimesLinear(n / d - x, 0.0, d);
    TimesLinear(x - n / d, d, 0.0);
    TimesSymmetric(d, x - n / d);
    TimesLinear(d, x, n / d);
  }

  lemma CapsResolve(t: BracketTable, i: nat)
    requires Smooth(t) && i < |t|
    ensures Resolve(t, t[i].cap) == i
  {
    var k := Resolve(t, t[i].cap);
    if k < i { RatesAndCapsRise(t, k, i); }
  }

  /** Two tiers of one number and different rates stop the loop after one pass, at a price
      where the position is already short of its requirement. */
  lemma SharedTierNumbersStopTheSolveEarly(t: BracketTable, i: nat, j: nat)
    requires Smooth(t) && i < j < |t| && t[i].number == t[j].number && t[i].mmr < t[j].mmr
    ensures Solve(Misled(t[i], t[j]), t[i].cap, t) == Ok(Solution(t[j].cap, i, 1))
    ensures t[i].cap > 0.0 && Surplus(Misled(t[i], t[j]), t, t[j].cap) < 0.0
  {
    var h := Misled(t[i], t[j]);
    AmountsAreNonNegative(t, i);
    AmountsAreNonNegative(t, j);
    MisledPrice(t[i], t[j]);
    CapsResolve(t, i);
    CapsResolve(t, j);
    assert Times(1.0, t[i].cap) == t[i].cap && Times(1.0, t[j].cap) == t[j].cap;
    forall k | i <= k < j ensures t[k].cap < t[j].cap { RatesAndCapsRise(t, k, j); }
    LinesRiseStrictly(t, i, j, t[j].cap);
    TierSurplusSign(h, t[i], t[j].cap);
    SurplusIsTheLeastTierSurplus(h, t, t[j].cap, j);
  }

  /** An answer is exact when a positive price is a root, and no positive price means an
      overdrawn short or a long solvent at the mark. */
  ghost predicate Exact(h: Holding, t: BracketTable, mark: real, s: Solution)
    requires |t| > 0
  {
    if s.Reachable() then Surplus(h, t, s.price) == 0.0 else Unreached(h, t, mark)
  }

  /** Whatever is solved, the answer is exact. */
  ghost predicate EverySolveIsExact(t: BracketTable)
    requires |t| > 0
  {
    forall h: Holding, mark: real ::
      h.qty != 0.0 && mark > 0.0 && Solve(h, mark, t).Ok? ==> Exact(h, t, mark, Solve(h, mark, t).value)
  }

  /** On a smooth table every solve is exact, for every position and mark, if and only if
      tiers that share a number share a rate. */
  lemma SolvesAreExactExactlyWhenNumbersTellTheRates(t: BracketTable)
    requires Smooth(t)
    ensures EverySolveIsExact(t) <==> NumbersTellTheRates(t)
  {
    if NumbersTellTheRates(t) {
      forall h: Holding, mark: real | h.qty != 0.0 && mark > 0.0 && Solve(h, mark, t).Ok?
        ensures Exact(h, t, mark, Solve(h, mark, t).value)
      {
        IterateAnswers(h, t, mark, 1, MAX_BRACKET_ITERATIONS);
      }
    }
    if EverySolveIsExact(t) {
      forall i, j | 0 <= i < j < |t| && t[i].number == t[j].number
        ensures t[i].mmr == t[j].mmr
      {
        RatesAndCapsRise(t, i, j);
        if t[i].mmr < t[j].mmr { SharedNumberIsInexact(t, i, j); }
      }
    }
  }

  lemma SharedNumberIsInexact(t: BracketTable, i: nat, j: nat)
    requires Smooth(t) && i < j < |t| && t[i].number == t[j].number && t[i].mmr < t[j].mmr
    ensures !EverySolveIsExact(t)
  {
    var h, mark := Misled(t[i], t[j]), t[i].cap;
    SharedTierNumbersStopTheSolveEarly(t, i, j);
    AmountsAreNonNegative(t, j);
    assert h.qty != 0.0 && mark > 0.0 && !Exact(h, t, mark, Solve(h, mark, t).value);
  }
}
