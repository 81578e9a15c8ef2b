/** Exactly when a fill is accepted (perplab/core/account.py:930-1101, 1680-1724). */
module FillRefusals {
  import opened Money
  import opened Wrappers
  import opened Margin
  import opened Liquidation
  import opened Positions
  import opened Ledger
  import opened LedgerInvariant
  import opened FillValue
  import opened FillTerms
  import opened SettlementTerms

  // ---------------------------------------------------------------------- tick and step

  predicate IsUnits(n: int, x: real, unit: real)
  {
    x == Times(n as real, unit)
  }

  /** A whole number of units. */
  ghost predicate WholeUnits(x: real, unit: real)
  {
    exists n :: IsUnits(n, x, unit)
  }

  lemma MultipleExactly(x: real, unit: real)
    requires unit > 0.0
    ensures Multiple(x, unit) <==> WholeUnits(x, unit)
  {
    Quotient(x, unit);
    if Multiple(x, unit) {
      TimesSymmetric(unit, x / unit);
      assert IsUnits((x / unit).Floor, x, unit);
    }
    if WholeUnits(x, unit) {
      var n :| IsUnits(n, x, unit);
      TimesSymmetric(n as real, unit);
      QuotientIs(x, unit, n as real);
    }
  }

  lemma QuotientIs(x: real, unit: real, n: real)
    requires unit > 0.0 && x == Times(unit, n)
    ensures x / unit == n
  {
  }

  /** The price is a whole number of ticks and the size of steps, where the account is
      strict and the symbol has filters. */
  ghost predicate OnFilters(c: Config, f: Fill)
  {
    c.strict && f.symbol in c.filters ==>
      var filters := c.filters[f.symbol];
      filters.tick > 0.0 && filters.step > 0.0 && WholeUnits(f.price, filters.tick) && WholeUnits(Abs(f.qty), filters.step)
  }

  lemma FiltersExactly(c: Config, f: Fill)
    ensures TickAndStep(c, f.symbol, f.price, Abs(f.qty)) == None <==> OnFilters(c, f)
  {
    if c.strict && f.symbol in c.filters && c.filters[f.symbol].tick > 0.0 && c.filters[f.symbol].step > 0.0 {
      MultipleExactly(f.price, c.filters[f.symbol].tick);
      MultipleExactly(Abs(f.qty), c.filters[f.symbol].step);
    }
  }

  // --------------------------------------------------------- without margin enforcement

  /** What a fill realises: what it closes of the position it finds, at its price. */
  function RealizedBy(held: Option<Position>, f: Fill): real
  {
    if held == None || Sign(held.value.qty) == Sign(f.qty) then 0.0
    else if Abs(f.qty) <= Abs(held.value.qty) then Times(-f.qty, f.price - held.value.entry)
    else Times(held.value.qty, f.price - held.value.entry)
  }

  /** The average entry of a position that grows does not round to nothing. */
  predicate EntryStaysPositive(held: Option<Position>, f: Fill)
  {
    held.Some? && Sign(held.value.qty) == Sign(f.qty) ==>
      var p, size := held.value, Abs(held.value.qty) + Abs(f.qty);
      Times(Abs(p.qty), p.entry) + Times(Abs(f.qty), f.price) > Times(size, HALF_QUANTUM)
  }

  lemma QuantizesAboveZero(x: real)
    ensures Quantize(x) > 0.0 <==> x > HALF_QUANTUM
  {
    var y := x * SCALE;
    HalfEvenIsTheNearest(HalfEven(y), y);
    HalfEvenIsTheNearest(0, y);
  }

  lemma EntryIsPositive(p: Position, f: Fill)
    requires p.qty != 0.0 && f.qty != 0.0 && Sign(p.qty) == Sign(f.qty)
    ensures WeightedEntry(p.qty, p.entry, f.qty, f.price) > 0.0 <==> EntryStaysPositive(Some(p), f)
  {
    var size, total := Abs(p.qty) + Abs(f.qty), Times(Abs(p.qty), p.entry) + Times(Abs(f.qty), f.price);
    QuantizesAboveZero(total / size);
    Quotient(total, size);
    TimesLinear(size, total / size, HALF_QUANTUM);
    TimesSign(size, total / size - HALF_QUANTUM);
    TimesSign(size, HALF_QUANTUM - total / size);
  }

  /** The slot can take the fill: nothing it books is refused but for money. */
  ghost predicate CanBook(c: Config, s: Ledger, f: Fill, k: Key)
  {
    && OnFilters(c, f)
    && (k !in s.positions && c.requireBrackets ==> f.symbol in c.brackets)
    && !CrossesZero(k.side, s.Qty(k), f.qty)
    && EntryStaysPositive(s.Held(k), f)
  }

  lemma BookingExactly(c: Config, s: Ledger, f: Fill, k: Key)
    requires ConfigBuilds(c) && Inv(c, s) && !c.enforceMargin && WellFormed(f) && k.symbol == f.symbol
    requires k.side.Hedged() <==> c.hedgeMode
    ensures Decide(c, s, f, k).Ok? <==> CanBook(c, s, f, k)
    ensures Decide(c, s, f, k).Ok? ==> Decide(c, s, f, k).value.realized == RealizedBy(s.Held(k), f)
  {
    FiltersExactly(c, f);
    var held := s.Held(k);
    if k in s.positions { assert PositionBuilds(k.side, s.positions[k]); }
    LeverageIsShared(c, s, k);
    FlipIsRefusedExactly(held, k.side, f.qty, f.price);
    if ThreeCases(held, k.side, f.qty, f.price).Ok? {
      BookedBuilds(held, f, k.side, LeverageFor(s, k));
    }
  }

  lemma BookedBuilds(held: Option<Position>, f: Fill, side: PositionSide, leverage: int)
    requires WellFormed(f) && leverage >= 1 && (held.Some? ==> PositionBuilds(side, held.value))
    requires ThreeCases(held, side, f.qty, f.price).Ok?
    ensures var b := ThreeCases(held, side, f.qty, f.price).value;
            && ((After(b, leverage).Some? ==> PositionBuilds(side, After(b, leverage).value)) <==> EntryStaysPositive(held, f))
            && b.realized == RealizedBy(held, f)
  {
    if held.Some? {
      var p := held.value;
      if Sign(p.qty) == Sign(f.qty) {
        EntryIsPositive(p, f);
      } else {
        SignTimesAbs(p.qty);
        assert Times(Sign(p.qty) as real, Abs(f.qty)) == -f.qty;
        ScaledStaysPositive(p.extra, p.qty, p.qty + f.qty);
      }
    }
  }

  lemma ScaledStaysPositive(x: real, size: real, left: real)
    requires x >= 0.0 && size != 0.0
    ensures Times(x, Abs(left) / Abs(size)) >= 0.0
  {
    TimesSign(x, Abs(left) / Abs(size));
  }

  /** Without margin enforcement a fill is accepted exactly when it is well formed, its side
      is one of the account's, it is not stale, its slot can take it, and it does not take a
      wallet that was not negative below zero. */
  lemma FillIsAcceptedExactly(c: Config, s: Ledger, f: Fill, k: Key)
    requires ConfigBuilds(c) && Inv(c, s) && !c.enforceMargin && MeantFor(c, f.symbol, f.side, k)
    ensures ApplyFill(c, s, f).outcome.Ok?
       <==> && WellFormed(f) && Timely(c, s, f.ts) && CanBook(c, s, f, k)
            && !Bankrupts(c, s, RealizedBy(s.Held(k), f) - Charged(c, f))
  {
    SideIsResolvedExactly(c, f.symbol, f.side);
    if WellFormed(f) && Timely(c, s, f.ts) {
      BookingExactly(c, s, f, k);
      AdmitKeeps(c, s, f);
      var s1 := Admit(c, s, f).ledger;
      DecisionIgnoresTheClock(c, s, s1.lastTs, f, k);
      if Decide(c, s, f, k).Ok? { SettleKeeps(c, s1, f, k); }
    }
  }

  // ------------------------------------------------------------------ margin enforcement

  /** The table has no tier for the position's notional. */
  predicate BelowTheTable(c: Config, k: Key, p: Option<Position>)
  {
    && p.Some? && k.symbol in c.brackets && |c.brackets[k.symbol]| > 0
    && Times(Abs(p.value.qty), p.value.entry) < c.brackets[k.symbol][0].floor
  }

  /** The tier of the position's notional does not allow its leverage. */
  predicate OverTheTier(c: Config, k: Key, p: Option<Position>)
  {
    && p.Some? && k.symbol in c.brackets && |c.brackets[k.symbol]| > 0
    && var t := c.brackets[k.symbol];
       p.value.leverage > t[Resolve(t, Times(Abs(p.value.qty), p.value.entry))].maxLeverage
  }

  /** The fill would leave less available than there was, and less than nothing; or take the
      wallet below zero. */
  ghost predicate Overdraws(s: Ledger, s': Ledger)
  {
    (Available(s') < Available(s) && Available(s') < 0.0) || (s.wallet >= 0.0 && s'.wallet < 0.0)
  }

  /** What enforcement says against the ledger a fill would leave. */
  ghost function Objection(c: Config, s: Ledger, s': Ledger, k: Key): Option<Error>
  {
    if BelowTheTable(c, k, s'.Held(k)) then Some(SolveFailed(BelowLowestFloor))
    else if OverTheTier(c, k, s'.Held(k)) || Overdraws(s, s') then Some(InsufficientMargin)
    else None
  }

  lemma RequirementIsTheObjection(c: Config, s: Ledger, s': Ledger, k: Key, before: Option<Position>, fee: real, realized: real)
    requires ConfigBuilds(c) && c.enforceMargin && (s'.Held(k).Some? ==> s'.Held(k).value.entry > 0.0)
    requires s'.wallet == s.wallet + realized - fee && Available(s') == Available(s) - Required(before, s'.Held(k), fee, realized)
    ensures RequireMargin(c, s, k.symbol, before, s'.Held(k), fee, realized) == Objection(c, s, s', k)
  {
    if s'.Held(k).Some? { TimesSign(Abs(s'.Held(k).value.qty), s'.Held(k).value.entry); }
    if k.symbol in c.brackets { assert Contiguous(c.brackets[k.symbol]); }
  }

  function Unenforced(c: Config): Config
  {
    c.(enforceMargin := false)
  }

  lemma DecisionUnderEnforcement(c: Config, s: Ledger, f: Fill, k: Key)
    requires ConfigBuilds(c) && c.enforceMargin && f.qty != 0.0 && Decide(Unenforced(c), s, f, k).Ok?
    ensures var b := Decide(Unenforced(c), s, f, k).value;
            var refused := RequireMargin(c, s, f.symbol, s.Held(k), After(b, LeverageFor(s, k)), Charged(c, f), b.realized);
            Decide(c, s, f, k) == if refused.Some? then Raised(refused.value) else Ok(b)
  {
    assert Charged(Unenforced(c), f) == Charged(c, f);
  }

  lemma SettlingIgnoresEnforcement(c: Config, s: Ledger, f: Fill, k: Key, b: Booking)
    ensures Settle(Unenforced(c), s, f, k, b) == Settle(c, s, f, k, b)
    ensures Admit(Unenforced(c), s, f) == Admit(c, s, f)
  {
    assert Charged(Unenforced(c), f) == Charged(c, f);
    assert Touch(Unenforced(c), s, f.ts) == Touch(c, s, f.ts);
    assert CheckAfterFill(Unenforced(c), Commit(s, f, k, b, Charged(c, f)), k, false)
        == CheckAfterFill(c, Commit(s, f, k, b, Charged(c, f)), k, false);
  }

  lemma InvIgnoresEnforcement(c: Config, s: Ledger)
    requires Inv(c, s)
    ensures Inv(Unenforced(c), s)
  {
    assert Slotted(Unenforced(c), s.positions);
  }

  /** What margin enforcement decides about a fill that would go through without it. */
  lemma EnforcedDecision(c: Config, s: Ledger, f: Fill, k: Key)
    requires ConfigBuilds(c) && Inv(c, s) && c.enforceMargin && MeantFor(c, f.symbol, f.side, k)
    requires ApplyFill(Unenforced(c), s, f).outcome.Ok?
    ensures Decide(Unenforced(c), s, f, k).Ok?
    ensures var objection := Objection(c, s, ApplyFill(Unenforced(c), s, f).ledger, k);
            Decide(c, s, f, k) == if objection.Some? then Raised(objection.value) else Decide(Unenforced(c), s, f, k)
  {
    var c0, free := Unenforced(c), ApplyFill(Unenforced(c), s, f);
    SideIsResolvedExactly(c0, f.symbol, f.side);
    InvIgnoresEnforcement(c, s);
    AcceptedFill(c0, s, f);
    AcceptedFillMeans(c0, s, f);
    FillMovesAvailableByItsRequirement(c0, s, f);
    DecidedMeans(c0, s, f, k);
    DecisionUnderEnforcement(c, s, f, k);
    RequirementIsTheObjection(c, s, free.ledger, k, s.Held(k), free.outcome.value.fee, free.outcome.value.realized);
  }

  /** Enforcing margin refuses exactly the fills that would otherwise overdraw or stand in a
      tier that does not take them, and changes nothing about the others. */
  lemma EnforcementRefusesExactlyWhatOverdraws(c: Config, s: Ledger, f: Fill, k: Key)
    requires ConfigBuilds(c) && Inv(c, s) && c.enforceMargin && MeantFor(c, f.symbol, f.side, k)
    requires ApplyFill(Unenforced(c), s, f).outcome.Ok?
    ensures var free := ApplyFill(Unenforced(c), s, f);
            var objection := Objection(c, s, free.ledger, k);
            if objection.Some? then ApplyFill(c, s, f).outcome == Raised(objection.value) else ApplyFill(c, s, f) == free
  {
    SideIsResolvedExactly(c, f.symbol, f.side);
    EnforcedDecision(c, s, f, k);
    AdmissionMovesTheClock(c, s, f);
    var b := Decide(Unenforced(c), s, f, k).value;
    var s1 := Admit(c, s, f).ledger;
    SettlingIgnoresEnforcement(c, s1, f, k, b);
    SettlingIgnoresEnforcement(c, s, f, k, b);
    DecisionIgnoresTheClock(c, s, s1.lastTs, f, k);
    DecisionIgnoresTheClock(Unenforced(c), s, s1.lastTs, f, k);
  }

  /** And what is refused without it is refused with it. */
  lemma EnforcementAcceptsNothingMore(c: Config, s: Ledger, f: Fill)
    requires ConfigBuilds(c) && c.enforceMargin && ApplyFill(c, s, f).outcome.Ok?
    ensures ApplyFill(Unenforced(c), s, f) == ApplyFill(c, s, f)
  {
    AdmissionMovesTheClock(c, s, f);
    var k, s1 := Admit(c, s, f).outcome.value, Admit(c, s, f).ledger;
    SettlingIgnoresEnforcement(c, s1, f, k, Decide(c, s1, f, k).value);
    SettlingIgnoresEnforcement(c, s, f, k, Decide(c, s1, f, k).value);
    assert Charged(Unenforced(c), f) == Charged(c, f);
  }
}
