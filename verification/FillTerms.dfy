/** An accepted fill in its own terms: the side it reaches, the fee it pays, the position it
    leaves and the balance it ties up (perplab/core/account.py:888-1101). */
module FillTerms {
  import opened Money
  import opened Wrappers
  import opened Sums
  import opened Liquidation
  import opened Positions
  import opened Ledger
  import opened LedgerInvariant
  import opened LedgerRuns
  import opened FillValue

  /** `x` is `y` up to `slack`. */
  predicate Near(x: real, y: real, slack: real)
  {
    -slack <= x - y <= slack
  }

  // --------------------------------------------------------------------- the allocation

  /** A position is solved on its share of the entry notional, what was added to it and the
      funding it took: the leverage times the share is the notional up to that many quanta. */
  lemma AllocationIsTheShareOfTheNotional(p: Position)
    requires p.leverage >= 1
    ensures Near(Times(p.leverage as real, p.IsolatedMargin() - p.extra - p.funding), Times(Abs(p.qty), p.entry),
                 Times(p.leverage as real, QUANTUM))
  {
    var n, lev := Times(Abs(p.qty), p.entry), p.leverage as real;
    QuantizeError(n / lev);
    QuantizeError(p.BaseMargin() + p.extra + p.funding);
    ShareOf(n, lev, p.IsolatedMargin() - p.extra - p.funding, QUANTUM);
  }

  lemma ShareOf(n: real, lev: real, share: real, slack: real)
    requires lev > 0.0 && -slack <= share - n / lev <= slack
    ensures Near(Times(lev, share), n, Times(lev, slack))
  {
    Quotient(n, lev);
    TimesLinear(lev, share, n / lev);
    Bounded(lev, share - n / lev, slack);
  }

  /** What is not available is reserved by the positions: each reserves its allocation, and
      nothing when that is below zero. */
  lemma WhatIsNotAvailableIsReserved(s: Ledger)
    requires forall k :: k in s.positions ==> s.positions[k].leverage >= 1
    ensures Available(s) == s.wallet - MapSum(map k | k in s.positions :: Max(s.positions[k].IsolatedMargin(), 0.0))
  {
    assert Reserves(s.positions) == map k | k in s.positions :: Max(s.positions[k].IsolatedMargin(), 0.0);
  }

  function Max(x: real, y: real): real
  {
    if x >= y then x else y
  }

  lemma FreshReserve(p: Position)
    requires p.leverage >= 1 && p.entry > 0.0 && p.extra == 0.0 && p.funding == 0.0
    ensures Near(Times(p.leverage as real, Reserve(p)), Times(Abs(p.qty), p.entry), Times(p.leverage as real, HALF_QUANTUM))
  {
    var n, lev := Times(Abs(p.qty), p.entry), p.leverage as real;
    TimesSign(Abs(p.qty), p.entry);
    QuantizeError(n / lev);
    QuantizeFixpoint(0.0);
    QuantizeMonotone(0.0, n / lev);
    QuantizeFixpoint(p.BaseMargin());
    ShareOf(n, lev, Reserve(p), HALF_QUANTUM);
  }

  function ConfiguredLeverage(s: Ledger, symbol: string): int
  {
    if symbol in s.leverages then s.leverages[symbol] else 1
  }

  /** The fill takes its fee off the available balance and, to half a quantum per unit of
      leverage, its notional's share. */
  ghost predicate TiesUp(c: Config, s: Ledger, f: Fill, leverage: int)
    requires ConfigBuilds(c) && ApplyFill(c, s, f).outcome.Ok?
  {
    var d := ApplyFill(c, s, f);
    Near(Times(leverage as real, Available(s) - Available(d.ledger) - d.outcome.value.fee), Times(Abs(f.qty), f.price),
         Times(leverage as real, HALF_QUANTUM))
  }

  /** A fill that opens from flat ties up its share at the configured leverage. */
  lemma OpeningTiesUpItsShare(c: Config, s: Ledger, f: Fill)
    requires ConfigBuilds(c) && Inv(c, s) && OpenSides(s, f.symbol) == [] && ApplyFill(c, s, f).outcome.Ok?
    ensures ConfiguredLeverage(s, f.symbol) >= 1 && TiesUp(c, s, f, ConfiguredLeverage(s, f.symbol))
  {
    var k := Key(f.symbol, ResolveSide(c, f.side).value);
    AcceptedFillMeans(c, s, f);
    OpenSidesAreOpen(s, f.symbol, k.side);
    FillMovesAvailableByItsRequirement(c, s, f);
    AcceptedPriceIsPositive(c, s, f);
    FreshReserve(Position(f.qty, f.price, ConfiguredLeverage(s, f.symbol), 0.0, 0.0));
  }

  lemma AcceptedPriceIsPositive(c: Config, s: Ledger, f: Fill)
    requires ConfigBuilds(c) && ApplyFill(c, s, f).outcome.Ok?
    ensures f.qty != 0.0 && f.price > 0.0 && (f.fee.Some? ==> f.fee.value >= 0.0)
  {
  }

  /** None of these sets the symbol's leverage. */
  predicate LeavesLeverage(ops: seq<Op>, symbol: string)
  {
    forall i :: 0 <= i < |ops| ==> !(ops[i].DoLeverage? && ops[i].symbol == symbol)
  }

  lemma StepLeavesLeverage(c: Config, s: Ledger, op: Op, symbol: string)
    requires ConfigBuilds(c) && symbol in s.leverages && !(op.DoLeverage? && op.symbol == symbol)
    ensures symbol in Step(c, s, op).ledger.leverages && Step(c, s, op).ledger.leverages[symbol] == s.leverages[symbol]
  {
    if op.DoFill? {
      FillLeavesLeverage(c, s, op.fill);
    } else if op.DoFunding? {
      FundingLeavesLeverage(c, s, op.ts, op.symbol, op.rate, op.at);
    } else if op.DoLiquidations? {
      VisitsLeaveLeverage(c, Touch(c, s, op.ts).ledger, op.ts, op.order);
    } else if op.DoAddMargin? || op.DoRemoveMargin? {
      TransfersLeaveLeverage(c, s, op.ts, op.symbol, op.amount, op.side);
    }
  }

  lemma FillLeavesLeverage(c: Config, s: Ledger, f: Fill)
    requires ConfigBuilds(c)
    ensures ApplyFill(c, s, f).ledger.leverages == s.leverages
  {
    AdmissionMovesTheClock(c, s, f);
    var a := Admit(c, s, f);
    if a.outcome.Ok? && Decide(c, a.ledger, f, a.outcome.value).Ok? {
      SettlementIsTheCommit(c, a.ledger, f, a.outcome.value, Decide(c, a.ledger, f, a.outcome.value).value);
    }
  }

  lemma TransfersLeaveLeverage(c: Config, s: Ledger, ts: int, symbol: string, amount: real, side: Option<PositionSide>)
    ensures AddMargin(c, s, ts, symbol, amount, side).ledger.leverages == s.leverages
    ensures RemoveMargin(c, s, ts, symbol, amount, side).ledger.leverages == s.leverages
  {
  }

  lemma FundingLeavesLeverage(c: Config, s: Ledger, ts: int, symbol: string, rate: real, at: Option<real>)
    ensures ApplyFunding(c, s, ts, symbol, rate, at).ledger.leverages == s.leverages
  {
    if at.Some? || symbol in s.marks {
      SettlingLeavesLeverage(c, Touch(c, s, ts).ledger, ts, symbol, if at.Some? then at.value else s.marks[symbol], rate);
    }
  }

  lemma SettlingLeavesLeverage(c: Config, s: Ledger, ts: int, symbol: string, mark: real, rate: real)
    ensures SettleSides(c, s, ts, symbol, mark, rate).ledger.leverages == s.leverages
  {
    SidesLeaveLeverage(s, ts, symbol, OpenSides(s, symbol), mark, rate);
    CheckLeavesLeverage(c, FundSides(s, ts, symbol, OpenSides(s, symbol), mark, rate));
  }

  lemma CheckLeavesLeverage(c: Config, s: Ledger)
    ensures CheckWallet(c, s, false).ledger.leverages == s.leverages
  {
  }

  lemma {:induction false} SidesLeaveLeverage(s: Ledger, ts: int, symbol: string, sides: seq<PositionSide>, mark: real, rate: real)
    ensures FundSides(s, ts, symbol, sides, mark, rate).leverages == s.leverages
  {
    if sides != [] { SidesLeaveLeverage(s, ts, symbol, sides[..|sides| - 1], mark, rate); }
  }

  lemma {:induction false} VisitsLeaveLeverage(c: Config, s: Ledger, ts: int, order: seq<Key>)
    ensures VisitSides(c, s, ts, order).ledger.leverages == s.leverages
  {
    if order != [] {
      VisitsLeaveLeverage(c, s, ts, order[..|order| - 1]);
      VisitLeavesLeverage(c, VisitSides(c, s, ts, order[..|order| - 1]).ledger, ts, order[|order| - 1]);
    }
  }

  lemma VisitLeavesLeverage(c: Config, s: Ledger, ts: int, k: Key)
    ensures VisitSide(c, s, ts, k).ledger.leverages == s.leverages
  {
  }

  lemma {:induction false} RunLeavesLeverage(c: Config, ops: seq<Op>, rest: seq<Op>, symbol: string)
    requires ConfigBuilds(c) && symbol in Run(c, ops).leverages && LeavesLeverage(rest, symbol)
    ensures symbol in Run(c, ops + rest).leverages && Run(c, ops + rest).leverages[symbol] == Run(c, ops).leverages[symbol]
  {
    if rest == [] {
      assert ops + rest == ops;
    } else {
      var front, last := rest[..|rest| - 1], rest[|rest| - 1];
      RunLeavesLeverage(c, ops, front, symbol);
      assert (ops + rest)[..|ops + rest| - 1] == ops + front;
      StepLeavesLeverage(c, Run(c, ops + front), last, symbol);
    }
  }

  lemma LeverageIsConfigured(c: Config, ops: seq<Op>, symbol: string, leverage: int)
    requires ConfigBuilds(c) && Step(c, Run(c, ops), DoLeverage(symbol, leverage)).raised == None
    ensures var s := Run(c, ops + [DoLeverage(symbol, leverage)]); symbol in s.leverages && s.leverages[symbol] == leverage
  {
    assert (ops + [DoLeverage(symbol, leverage)])[..|ops|] == ops;
  }

  /** Over every run: after an accepted change of leverage, whatever came in between, the
      fill that opens from flat ties up its notional's share at that leverage. */
  lemma OpeningAfterALeverageChange(c: Config, ops: seq<Op>, symbol: string, leverage: int, rest: seq<Op>, f: Fill)
    requires ConfigBuilds(c) && Step(c, Run(c, ops), DoLeverage(symbol, leverage)).raised == None
    requires LeavesLeverage(rest, symbol) && f.symbol == symbol
    requires var s := Run(c, ops + [DoLeverage(symbol, leverage)] + rest);
             OpenSides(s, symbol) == [] && ApplyFill(c, s, f).outcome.Ok?
    ensures TiesUp(c, Run(c, ops + [DoLeverage(symbol, leverage)] + rest), f, leverage)
  {
    var all := ops + [DoLeverage(symbol, leverage)] + rest;
    LeverageIsConfigured(c, ops, symbol, leverage);
    RunLeavesLeverage(c, ops + [DoLeverage(symbol, leverage)], rest, symbol);
    EveryRunKeepsTheInvariant(c, all);
    OpeningTiesUpItsShare(c, Run(c, all), f);
  }

  // ----------------------------------------------------------------------------- the fee

  /** The fee is the one given, or the notional at the maker's or the taker's rate: to half
      a quantum, and it is what leaves the wallet beside the realised PnL. */
  lemma AcceptedFillPaysItsFee(c: Config, s: Ledger, f: Fill)
    requires ConfigBuilds(c) && ApplyFill(c, s, f).outcome.Ok?
    ensures var d := ApplyFill(c, s, f);
            var fee, notional := d.outcome.value.fee, Times(Abs(f.qty), f.price);
            && (f.fee.Some? ==> Near(fee, f.fee.value, HALF_QUANTUM))
            && (f.fee == None && f.isMaker ==> Near(fee, Times(notional, c.makerRate), HALF_QUANTUM))
            && (f.fee == None && !f.isMaker ==> Near(fee, Times(notional, c.takerRate), HALF_QUANTUM))
            && OnGrid(fee) && fee >= 0.0
            && d.ledger.wallet == s.wallet + d.outcome.value.realized - fee && d.ledger.fees == s.fees + fee
            && d.ledger.realized == s.realized + d.outcome.value.realized
  {
    AcceptedFill(c, s, f);
    AcceptedPriceIsPositive(c, s, f);
    var notional, rate := Times(Abs(f.qty), f.price), if f.isMaker then c.makerRate else c.takerRate;
    var due := if f.fee.Some? then f.fee.value else Times(notional, rate);
    TimesSign(Abs(f.qty), f.price);
    TimesSign(notional, rate);
    QuantizeError(due);
    QuantizeFixpoint(0.0);
    QuantizeMonotone(0.0, due);
  }

  // ---------------------------------------------------------------------------- the side

  /** The slot a fill is meant for: its leg in hedge mode, the one slot otherwise. */
  predicate MeantFor(c: Config, symbol: string, side: Option<PositionSide>, k: Key)
  {
    && k.symbol == symbol
    && if c.hedgeMode then (k.side == LONG || k.side == SHORT) && side == Some(k.side)
       else k.side == BOTH && (side == None || side == Some(BOTH))
  }

  lemma SideIsResolvedExactly(c: Config, symbol: string, side: Option<PositionSide>)
    ensures ResolveSide(c, side).Ok? <==> exists k :: MeantFor(c, symbol, side, k)
    ensures ResolveSide(c, side).Raised? ==> ResolveSide(c, side).error == WrongSide
    ensures forall k :: MeantFor(c, symbol, side, k) ==> ResolveSide(c, side) == Ok(k.side)
  {
    if ResolveSide(c, side).Ok? { assert MeantFor(c, symbol, side, Key(symbol, ResolveSide(c, side).value)); }
  }

  /** An accepted fill moves the quantity of the slot it is meant for by its own, and no
      other position. */
  lemma FillReachesItsSide(c: Config, s: Ledger, f: Fill)
    requires ConfigBuilds(c) && Inv(c, s) && ApplyFill(c, s, f).outcome.Ok?
    ensures exists k :: MeantFor(c, f.symbol, f.side, k)
    ensures forall k :: MeantFor(c, f.symbol, f.side, k) ==>
              var d := ApplyFill(c, s, f);
              && d.outcome.value.side == k.side && d.outcome.value.position == d.ledger.Held(k)
              && d.ledger.Qty(k) == s.Qty(k) + f.qty && d.ledger.positions - {k} == s.positions - {k}
  {
    SideIsResolvedExactly(c, f.symbol, f.side);
    AcceptedFill(c, s, f);
    AcceptedFillMeans(c, s, f);
    var k := Key(f.symbol, ResolveSide(c, f.side).value);
    DecidedMeans(c, s, f, k);
    OnlyThatSideMoves(s.positions, k, ApplyFill(c, s, f).outcome.value.position);
  }

  predicate WellFormed(f: Fill)
  {
    f.qty != 0.0 && f.price > 0.0 && (f.fee.Some? ==> f.fee.value >= 0.0)
  }

  /** A fill is turned away for its side exactly when nothing in this position mode is meant
      by it. */
  lemma WrongSideExactly(c: Config, s: Ledger, f: Fill)
    requires ConfigBuilds(c)
    ensures ApplyFill(c, s, f).outcome == Raised(WrongSide)
       <==> WellFormed(f) && !exists k :: MeantFor(c, f.symbol, f.side, k)
  {
    SideIsResolvedExactly(c, f.symbol, f.side);
  }

  // ------------------------------------------------------------------------ the position

  /** What an accepted fill leaves of the position it found, case by case. */
  ghost predicate Leaves(held: Option<Position>, f: Fill, leverage: int, after: Option<Position>, realized: real)
  {
    match held
    case None => after == Some(Position(f.qty, f.price, leverage, 0.0, 0.0)) && realized == 0.0
    case Some(p) =>
      if (p.qty > 0.0 && f.qty > 0.0) || (p.qty < 0.0 && f.qty < 0.0) then Grown(p, f, after, realized)
      else if Abs(f.qty) < Abs(p.qty) then Shrunk(p, f, after, realized)
      else
        && realized == Times(p.qty, f.price - p.entry)
        && after == if p.qty + f.qty == 0.0 then None else Some(Position(p.qty + f.qty, f.price, p.leverage, 0.0, 0.0))
  }

  /** The entry is the average of both legs; nothing is realised, and the margin added and
      the funding taken stay with the position. */
  ghost predicate Grown(p: Position, f: Fill, after: Option<Position>, realized: real)
  {
    && after.Some? && after.value == p.(qty := p.qty + f.qty, entry := after.value.entry) && realized == 0.0
    && OnGrid(after.value.entry)
    && var size := Abs(p.qty) + Abs(f.qty);
       Near(Times(size, after.value.entry), Times(Abs(p.qty), p.entry) + Times(Abs(f.qty), f.price), Times(size, HALF_QUANTUM))
  }

  /** What was closed is realised at the entry price, which stays; the margin added and the
      funding taken shrink with the quantity. */
  ghost predicate Shrunk(p: Position, f: Fill, after: Option<Position>, realized: real)
  {
    && after.Some? && realized == Times(-f.qty, f.price - p.entry)
    && after.value == p.(qty := p.qty + f.qty, extra := after.value.extra, funding := after.value.funding)
    && Times(Abs(p.qty), after.value.extra) == Times(Abs(after.value.qty), p.extra)
    && Times(Abs(p.qty), after.value.funding) == Times(Abs(after.value.qty), p.funding)
  }

  lemma GrowingLeaves(p: Position, f: Fill, side: PositionSide)
    requires p.qty != 0.0 && f.qty != 0.0 && Sign(f.qty) == Sign(p.qty)
    requires ThreeCases(Some(p), side, f.qty, f.price).Ok?
    ensures var b := ThreeCases(Some(p), side, f.qty, f.price).value; Grown(p, f, After(b, p.leverage), b.realized)
  {
    var size, total := Abs(p.qty) + Abs(f.qty), Times(Abs(p.qty), p.entry) + Times(Abs(f.qty), f.price);
    QuantizeError(total / size);
    ShareOf(total, size, WeightedEntry(p.qty, p.entry, f.qty, f.price), HALF_QUANTUM);
  }

  lemma ShrinkingLeaves(p: Position, f: Fill, side: PositionSide)
    requires p.qty != 0.0 && f.qty != 0.0 && Sign(f.qty) != Sign(p.qty) && Abs(f.qty) < Abs(p.qty)
    requires ThreeCases(Some(p), side, f.qty, f.price).Ok?
    ensures var b := ThreeCases(Some(p), side, f.qty, f.price).value; Shrunk(p, f, After(b, p.leverage), b.realized)
  {
    var size, left := Abs(p.qty), Abs(p.qty + f.qty);
    assert Times(Sign(p.qty) as real, Abs(f.qty)) == -f.qty;
    Proportion(size, left, p.extra);
    Proportion(size, left, p.funding);
  }

  lemma Proportion(size: real, left: real, x: real)
    requires size != 0.0
    ensures Times(size, Times(x, left / size)) == Times(left, x)
  {
    Quotient(left, size);
    TimesAssociates(size, x, left / size);
  }

  lemma BookingLeaves(held: Option<Position>, f: Fill, side: PositionSide, leverage: int)
    requires f.qty != 0.0 && (held.Some? ==> held.value.qty != 0.0 && held.value.leverage == leverage)
    requires ThreeCases(held, side, f.qty, f.price).Ok?
    ensures var b := ThreeCases(held, side, f.qty, f.price).value;
            Leaves(held, f, leverage, After(b, leverage), b.realized)
  {
    if held.Some? {
      var p := held.value;
      if Sign(f.qty) == Sign(p.qty) {
        GrowingLeaves(p, f, side);
      } else if Abs(f.qty) < Abs(p.qty) {
        ShrinkingLeaves(p, f, side);
      } else {
        SignTimesAbs(p.qty);
        assert Times(Sign(p.qty) as real, Abs(f.qty)) == -f.qty;
      }
    }
  }

  lemma AcceptedFillLeaves(c: Config, s: Ledger, f: Fill)
    requires ConfigBuilds(c) && Inv(c, s) && ApplyFill(c, s, f).outcome.Ok?
    ensures forall k :: MeantFor(c, f.symbol, f.side, k) ==>
              var d := ApplyFill(c, s, f);
              Leaves(s.Held(k), f, LeverageFor(s, k), d.ledger.Held(k), d.outcome.value.realized)
  {
    SideIsResolvedExactly(c, f.symbol, f.side);
    AcceptedFillMeans(c, s, f);
    var k := Key(f.symbol, ResolveSide(c, f.side).value);
    HeldIsNotFlat(c, s, k);
    BookingLeaves(s.Held(k), f, k.side, LeverageFor(s, k));
  }

  /** A fill is refused as a flip exactly when it would open a hedge leg against its side or
      take it across zero. */
  predicate CrossesZero(side: PositionSide, held: real, qty: real)
  {
    (side == LONG && held + qty < 0.0) || (side == SHORT && held + qty > 0.0)
  }

  lemma FlipIsRefusedExactly(held: Option<Position>, side: PositionSide, qty: real, price: real)
    requires qty != 0.0 && (held.Some? ==> PositionBuilds(side, held.value))
    ensures ThreeCases(held, side, qty, price) == Raised(HedgeFlipRefused)
       <==> CrossesZero(side, if held.Some? then held.value.qty else 0.0, qty)
    ensures ThreeCases(held, side, qty, price).Raised? ==> ThreeCases(held, side, qty, price).error == HedgeFlipRefused
  {
  }
}
