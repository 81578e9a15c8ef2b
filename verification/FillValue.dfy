/** What a fill does to the money: equity at the fill price, the margin it must find, and
    what a refusal leaves behind. */
module FillValue {
  import opened Money
  import opened Wrappers
  import opened Sums
  import opened Liquidation
  import opened Positions
  import opened Ledger
  import opened LedgerInvariant

  function ValueAt(p: Option<Position>, price: real): real
  {
    if p.Some? then p.value.UnrealizedPnl(price) else 0.0
  }

  /** Account equity with one side valued at `price` and every other at its own mark. */
  ghost function EquityValuing(s: Ledger, k: Key, price: real): real
  {
    s.wallet + MapSum(Unrealizeds(s) - {k}) + ValueAt(s.Held(k), price)
  }

  /** The fill grows a position that is already open: case A away from flat. */
  predicate Increases(held: Option<Position>, qty: real)
  {
    held.Some? && Sign(qty) == Sign(held.value.qty)
  }

  // ------------------------------------------------------------- value of one booking

  lemma SignTimesAbs(x: real)
    ensures Times(Sign(x) as real, Abs(x)) == x
    ensures Times(-Sign(x) as real, Abs(x)) == -x
  {
  }

  lemma AbsOfSum(x: real, y: real)
    requires Sign(x) == Sign(y)
    ensures Abs(x + y) == Abs(x) + Abs(y)
  {
  }

  /** Case A keeps the value within half a quantum per unit held. */
  lemma IncreaseValue(held: real, entry: real, qty: real, price: real)
    requires held != 0.0 && Sign(qty) == Sign(held)
    ensures var e := WeightedEntry(held, entry, qty, price);
            var drift := Times(held + qty, e) - (Times(held, entry) + Times(qty, price));
            -Times(Abs(held + qty), HALF_QUANTUM) <= drift <= Times(Abs(held + qty), HALF_QUANTUM)
  {
    var n := Abs(held) + Abs(qty);
    var a := Times(Abs(held), entry) + Times(Abs(qty), price);
    var e := WeightedEntry(held, entry, qty, price);
    AbsOfSum(held, qty);
    Quotient(a, n);
    QuantizeError(a / n);
    TimesLinear(n, e, a / n);
    Bounded(n, e - a / n, HALF_QUANTUM);
    if held < 0.0 {
      TimesLinear(n, e, 0.0);
      TimesLinear(Abs(held), entry, 0.0);
      TimesLinear(Abs(qty), price, 0.0);
    }
  }

  lemma Bounded(n: real, x: real, b: real)
    requires n >= 0.0 && -b <= x <= b
    ensures -Times(n, b) <= Times(n, x) <= Times(n, b)
  {
    TimesSign(n, b - x);
    TimesSign(n, b + x);
    TimesLinear(n, b, x);
  }

  /** Cases open, B and C lose exactly nothing to value; case A up to rounding. */
  lemma BookingValue(held: Option<Position>, side: PositionSide, qty: real, price: real, leverage: int)
    requires qty != 0.0 && (held.Some? ==> held.value.qty != 0.0)
    requires ThreeCases(held, side, qty, price).Ok?
    ensures var b := ThreeCases(held, side, qty, price).value;
            var gain := b.realized + ValueAt(After(b, leverage), price) - ValueAt(held, price);
            var slack := if Increases(held, qty) then Times(Abs(b.qty), HALF_QUANTUM) else 0.0;
            -slack <= gain <= slack
  {
    var b := ThreeCases(held, side, qty, price).value;
    TimesLinear(b.qty, price, price);
    if held.Some? {
      var p := held.value;
      if Increases(held, qty) {
        IncreaseValue(p.qty, p.entry, qty, price);
        TimesLinear(b.qty, price, b.entry.value);
        TimesLinear(p.qty, price, p.entry);
        TimesLinear(p.qty, qty, price);
      } else if Abs(qty) <= Abs(p.qty) {
        ReduceValue(p.qty, qty, price - p.entry);
      } else {
        SignTimesAbs(p.qty);
      }
    }
  }

  lemma ReduceValue(held: real, qty: real, move: real)
    requires held != 0.0 && qty != 0.0 && Sign(qty) != Sign(held)
    ensures Times(Times(Sign(held) as real, Abs(qty)), move) + Times(held + qty, move) == Times(held, move)
  {
    assert Times(Sign(held) as real, Abs(qty)) == -qty;
    TimesLinear(held, qty, move);
    TimesLinear(qty, held, move);
  }

  // --------------------------------------------------------------- value of one fill

  lemma OtherSidesAreUntouched(s: Ledger, s': Ledger, k: Key)
    requires s'.marks == s.marks && s'.positions - {k} == s.positions - {k}
    ensures Unrealizeds(s') - {k} == Unrealizeds(s) - {k}
    ensures Reserves(s'.positions) - {k} == Reserves(s.positions) - {k}
  {
    assert forall j :: j in s.positions && j != k ==> j in s.positions - {k};
    assert forall j :: j in s'.positions && j != k ==> j in s'.positions - {k};
    forall j | j in s.positions && j != k
      ensures j in s'.positions && s'.positions[j] == s.positions[j]
    {
      assert (s.positions - {k})[j] == (s'.positions - {k})[j];
    }
  }

  lemma DecisionIgnoresTheClock(c: Config, s: Ledger, ts: int, f: Fill, k: Key)
    requires ConfigBuilds(c) && f.qty != 0.0
    ensures Decide(c, s.(lastTs := ts), f, k) == Decide(c, s, f, k)
    ensures LeverageFor(s.(lastTs := ts), k) == LeverageFor(s, k)
  {
    LeverageIgnoresTheClock(s, ts, k);
    var b := ThreeCases(s.Held(k), k.side, f.qty, f.price);
    if b.Ok? {
      MarginIgnoresTheClock(c, s, ts, f.symbol, s.Held(k), After(b.value, LeverageFor(s, k)), Charged(c, f), b.value.realized);
    }
  }

  lemma LeverageIgnoresTheClock(s: Ledger, ts: int, k: Key)
    ensures LeverageFor(s.(lastTs := ts), k) == LeverageFor(s, k)
    ensures s.(lastTs := ts).Held(k) == s.Held(k)
  {
    assert OpenSides(s.(lastTs := ts), k.symbol) == OpenSides(s, k.symbol);
  }

  lemma MarginIgnoresTheClock(c: Config, s: Ledger, ts: int, symbol: string, before: Option<Position>,
                              after: Option<Position>, fee: real, realized: real)
    requires ConfigBuilds(c)
    ensures RequireMargin(c, s.(lastTs := ts), symbol, before, after, fee, realized)
         == RequireMargin(c, s, symbol, before, after, fee, realized)
  {
    assert Available(s.(lastTs := ts)) == Available(s);
  }

  lemma AdmissionMovesTheClock(c: Config, s: Ledger, f: Fill)
    ensures var d := Admit(c, s, f);
            && d.ledger == s.(lastTs := d.ledger.lastTs)
            && (d.outcome.Ok? ==>
                  && f.qty != 0.0 && ResolveSide(c, f.side).Ok?
                  && d.outcome.value == Key(f.symbol, ResolveSide(c, f.side).value)
                  && (d.outcome.value.side.Hedged() <==> c.hedgeMode))
  {
  }

  lemma SettlementIsTheCommit(c: Config, s: Ledger, f: Fill, k: Key, b: Booking)
    ensures var d := Settle(c, s, f, k, b);
            && d.ledger == Commit(s, f, k, b, Charged(c, f)).(wasNegative := d.ledger.wasNegative)
            && (d.outcome.Ok? ==>
                  d.outcome.value == FillResult(b.realized, Charged(c, f), After(b, LeverageFor(s, k)), k.side))
  {
  }

  /** Where an accepted fill was routed, and what was decided there. */
  lemma AcceptedFill(c: Config, s: Ledger, f: Fill)
    requires ConfigBuilds(c) && ApplyFill(c, s, f).outcome.Ok?
    ensures f.qty != 0.0 && ResolveSide(c, f.side).Ok?
    ensures var k := Key(f.symbol, ResolveSide(c, f.side).value);
            && Decide(c, s, f, k).Ok?
            && (k.side.Hedged() <==> c.hedgeMode)
            && var b, d := Decide(c, s, f, k).value, ApplyFill(c, s, f);
            && d.outcome.value == FillResult(b.realized, Charged(c, f), After(b, LeverageFor(s, k)), k.side)
            && d.ledger == Commit(s, f, k, b, Charged(c, f))
                           .(lastTs := d.ledger.lastTs, wasNegative := d.ledger.wasNegative)
  {
    AdmissionMovesTheClock(c, s, f);
    var k, s1 := Admit(c, s, f).outcome.value, Admit(c, s, f).ledger;
    DecisionIgnoresTheClock(c, s, s1.lastTs, f, k);
    SettlementIsTheCommit(c, s1, f, k, Decide(c, s1, f, k).value);
  }

  /** Everything an accepted fill changes, in terms of what was decided. */
  lemma AcceptedFillMeans(c: Config, s: Ledger, f: Fill)
    requires ConfigBuilds(c) && Inv(c, s) && ApplyFill(c, s, f).outcome.Ok?
    ensures f.qty != 0.0 && ResolveSide(c, f.side).Ok?
    ensures var k := Key(f.symbol, ResolveSide(c, f.side).value);
            var d, r := ApplyFill(c, s, f), ApplyFill(c, s, f).outcome.value;
            && ThreeCases(s.Held(k), k.side, f.qty, f.price).Ok?
            && var b := ThreeCases(s.Held(k), k.side, f.qty, f.price).value;
            && r.position == After(b, LeverageFor(s, k)) && r.realized == b.realized
            && (r.position == None <==> b.qty == 0.0)
            && RequireMargin(c, s, f.symbol, s.Held(k), r.position, r.fee, r.realized) == None
            && d.ledger.positions == WithPosition(s.positions, k, r.position)
            && d.ledger.marks == s.marks
            && d.ledger.wallet == s.wallet + (r.realized - r.fee)
            && d.ledger.Held(k) == r.position
            && d.ledger.Qty(k) == b.qty
  {
    AcceptedFill(c, s, f);
    DecidedMeans(c, s, f, Key(f.symbol, ResolveSide(c, f.side).value));
  }

  lemma HeldIsNotFlat(c: Config, s: Ledger, k: Key)
    requires Slotted(c, s.positions)
    ensures s.Held(k).Some? ==> s.Held(k).value.qty != 0.0
  {
    if k in s.positions { assert PositionBuilds(k.side, s.positions[k]); }
  }

  lemma OnlyThatSideMoves(positions: map<Key, Position>, k: Key, p: Option<Position>)
    ensures WithPosition(positions, k, p) - {k} == positions - {k}
  {
  }

  /** Moving one side and the wallet moves equity by the wallet's part and that side's. */
  lemma EquityMoves(s: Ledger, s': Ledger, k: Key, price: real)
    requires s'.marks == s.marks && s'.positions - {k} == s.positions - {k}
    ensures EquityValuing(s', k, price) - EquityValuing(s, k, price)
         == s'.wallet - s.wallet + ValueAt(s'.Held(k), price) - ValueAt(s.Held(k), price)
  {
    OtherSidesAreUntouched(s, s', k);
  }

  /** A fill changes equity valued at the fill price by exactly minus its fee when it opens,
      reduces or flips, and within half a quantum a unit when it increases. */
  lemma FillChangesEquityByItsFee(c: Config, s: Ledger, f: Fill)
    requires ConfigBuilds(c) && Inv(c, s) && ApplyFill(c, s, f).outcome.Ok?
    ensures var k := Key(f.symbol, ResolveSide(c, f.side).value);
            var d := ApplyFill(c, s, f);
            var change := EquityValuing(d.ledger, k, f.price) - EquityValuing(s, k, f.price);
            var slack := if Increases(s.Held(k), f.qty) then Times(Abs(d.ledger.Qty(k)), HALF_QUANTUM) else 0.0;
            -slack <= change + d.outcome.value.fee <= slack
  {
    AcceptedFillMeans(c, s, f);
    var k := Key(f.symbol, ResolveSide(c, f.side).value);
    OnlyThatSideMoves(s.positions, k, ApplyFill(c, s, f).outcome.value.position);
    EquityMoves(s, ApplyFill(c, s, f).ledger, k, f.price);
    HeldIsNotFlat(c, s, k);
    BookingValue(s.Held(k), k.side, f.qty, f.price, LeverageFor(s, k));
  }

  // ------------------------------------------------------------------------- margin

  lemma AvailableMoves(s: Ledger, s': Ledger, k: Key)
    requires s'.marks == s.marks && s'.positions - {k} == s.positions - {k}
    ensures Available(s') - Available(s) == s'.wallet - s.wallet - (ReserveOf(s'.Held(k)) - ReserveOf(s.Held(k)))
  {
    OtherSidesAreUntouched(s, s', k);
    MapSumAway(Reserves(s.positions), Reserves(s'.positions), k);
  }

  /** The available balance moves by exactly minus the requirement. */
  lemma FillMovesAvailableByItsRequirement(c: Config, s: Ledger, f: Fill)
    requires ConfigBuilds(c) && Inv(c, s) && ApplyFill(c, s, f).outcome.Ok?
    ensures var k := Key(f.symbol, ResolveSide(c, f.side).value);
            var d, r := ApplyFill(c, s, f), ApplyFill(c, s, f).outcome.value;
            Available(d.ledger) == Available(s) - Required(s.Held(k), r.position, r.fee, r.realized)
  {
    AcceptedFillMeans(c, s, f);
    var k := Key(f.symbol, ResolveSide(c, f.side).value);
    OnlyThatSideMoves(s.positions, k, ApplyFill(c, s, f).outcome.value.position);
    AvailableMoves(s, ApplyFill(c, s, f).ledger, k);
  }

  /** With enforcement on, an accepted fill leaves available balance at or above the lesser
      of what it was and zero, and never takes a non-negative wallet negative. */
  lemma EnforcedMarginIsEnforced(c: Config, s: Ledger, f: Fill)
    requires ConfigBuilds(c) && Inv(c, s) && c.enforceMargin && ApplyFill(c, s, f).outcome.Ok?
    ensures var s' := ApplyFill(c, s, f).ledger;
            && (Available(s') >= Available(s) || Available(s') >= 0.0)
            && (s.wallet >= 0.0 ==> s'.wallet >= 0.0)
  {
    AcceptedFillMeans(c, s, f);
    FillMovesAvailableByItsRequirement(c, s, f);
  }

  /** Once decided a fill can only fail I5, and not on a solvent account that enforces. */
  lemma SettlementRaisesOnlyI5(c: Config, s: Ledger, f: Fill, k: Key)
    requires ConfigBuilds(c) && Inv(c, s) && f.qty != 0.0 && (k.side.Hedged() <==> c.hedgeMode)
    requires Decide(c, s, f, k).Ok? && Current(c, s, f.ts)
    requires Settle(c, s, f, k, Decide(c, s, f, k).value).outcome.Raised?
    ensures Settle(c, s, f, k, Decide(c, s, f, k).value).outcome.error == Violation(I5)
    ensures !(c.enforceMargin && s.wallet >= 0.0)
  {
    SettleKeeps(c, s, f, k);
    DecidedMeans(c, s, f, k);
  }

  /** Every refusal leaves everything but the clock as it was; only I5, raised after the
      booking, does not, and enforcement keeps a solvent account away from it. */
  lemma RefusedFillMovesOnlyTheClock(c: Config, s: Ledger, f: Fill)
    requires ConfigBuilds(c) && Inv(c, s) && ApplyFill(c, s, f).outcome.Raised?
    ensures var d := ApplyFill(c, s, f);
            && (d.outcome.error != Violation(I5) ==> d.ledger == s.(lastTs := d.ledger.lastTs))
            && (c.enforceMargin && s.wallet >= 0.0 ==> d.outcome.error != Violation(I5))
  {
    AdmitKeeps(c, s, f);
    var a := Admit(c, s, f);
    if a.outcome.Ok? && Decide(c, a.ledger, f, a.outcome.value).Ok? {
      SettlementRaisesOnlyI5(c, a.ledger, f, a.outcome.value);
    }
  }
}
