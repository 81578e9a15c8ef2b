/** What every ledger operation keeps, over every sequence of operations, and why the
    end-of-run replay of the event log never diverges. */
module LedgerInvariant {
  import opened Money
  import opened Wrappers
  import opened Sums
  import opened Positions
  import opened Ledger

  // ------------------------------------------------------------------ the event log

  datatype Replayed = Replayed(wallet: real, realized: real, fees: real, funding: real, positions: map<Key, real>)

  function Absorb(r: Replayed, e: AccountEvent): Replayed
  {
    if e.kind.MARK? then r
    else
      Replayed(r.wallet + (e.realized - e.fee + e.funding), r.realized + e.realized, r.fees + e.fee,
               r.funding + e.funding,
               if e.kind.FILL? || e.kind.LIQUIDATION? then r.positions[e.key := At(r.positions, e.key) + e.qty]
               else r.positions)
  }

  /** The ledger re-derived from its event log alone. */
  function Replay(opening: real, events: seq<AccountEvent>): Replayed
  {
    if events == [] then Replayed(opening, 0.0, 0.0, 0.0, map[])
    else Absorb(Replay(opening, events[..|events| - 1]), events[|events| - 1])
  }

  lemma ReplayOne(opening: real, events: seq<AccountEvent>, e: AccountEvent)
    ensures Replay(opening, events + [e]) == Absorb(Replay(opening, events), e)
  {
    assert (events + [e])[..|events|] == events;
  }

  /** The comparisons of `reconcile`. */
  ghost predicate Reconciles(c: Config, s: Ledger)
  {
    var r := Replay(c.opening, s.events);
    && r.wallet == s.wallet && r.realized == s.realized && r.fees == s.fees && r.funding == s.funding
    && forall k :: k in r.positions.Keys + s.positions.Keys ==> At(r.positions, k) == s.Qty(k)
  }

  /** `reconcile`: the replay, then I9. */
  ghost function Reconcile(c: Config, s: Ledger): Outcome<(), Error>
  {
    var r := Replay(c.opening, s.events);
    if !Reconciles(c, s) then Raised(Violation(I9))
    else if Equity(s) != c.opening + r.realized - r.fees + r.funding + Unrealized(s) then Raised(Violation(I9))
    else Ok(())
  }

  // ------------------------------------------------------------------ the invariant

  /** I1, and the log reproduces the money and the signed fills. */
  predicate Booked(c: Config, s: Ledger)
  {
    && s.wallet == c.opening + s.realized - s.fees + s.funding
    && Replay(c.opening, s.events) == Replayed(s.wallet, s.realized, s.fees, s.funding, s.signedFills)
  }

  /** I3, for every side. */
  ghost predicate Summed(s: Ledger)
  {
    forall k :: s.Qty(k) == At(s.signedFills, k)
  }

  /** I4 and the rest of what a position is; and each slot belongs to the position mode. */
  ghost predicate Slotted(c: Config, positions: map<Key, Position>)
  {
    forall k :: k in positions ==> PositionBuilds(k.side, positions[k]) && (k.side.Hedged() <==> c.hedgeMode)
  }

  /** The legs of one symbol share one leverage. */
  ghost predicate SharedLeverage(positions: map<Key, Position>)
  {
    forall k, j :: k in positions && j in positions && k.symbol == j.symbol ==>
      positions[k].leverage == positions[j].leverage
  }

  ghost predicate Configured(s: Ledger)
  {
    && (forall k :: k in s.leverages ==> s.leverages[k] >= 1)
    && (forall k :: k in s.marks ==> s.marks[k] > 0.0)
    && s.liquidationCost <= 0.0
  }

  /** I8. */
  ghost predicate Ordered(c: Config, s: Ledger)
  {
    c.strict ==>
      && (forall i :: 0 <= i < |s.events| ==> s.events[i].ts <= s.lastTs)
      && (forall i, j :: 0 <= i < j < |s.events| ==> s.events[i].ts <= s.events[j].ts)
  }

  /** An operation stamped `ts` has been admitted: nothing in the log is later. */
  ghost predicate Current(c: Config, s: Ledger, ts: int)
  {
    c.strict ==> ts <= s.lastTs && forall i :: 0 <= i < |s.events| ==> s.events[i].ts <= ts
  }

  ghost predicate Inv(c: Config, s: Ledger)
  {
    && Booked(c, s)
    && Summed(s)
    && Slotted(c, s.positions)
    && SharedLeverage(s.positions)
    && Configured(s)
    && Ordered(c, s)
  }

  lemma OpenedHolds(c: Config)
    ensures Inv(c, Opened(c))
  {
  }

  // ----------------------------------------------------- the pieces of the operations

  lemma TouchKeeps(c: Config, s: Ledger, ts: int)
    requires Inv(c, s)
    ensures var d := Touch(c, s, ts);
            && Inv(c, d.ledger)
            && d.ledger == s.(lastTs := d.ledger.lastTs)
            && (d.outcome.Ok? ==> Current(c, d.ledger, ts))
  {
  }

  /** Of the checks after a wallet mutation only I5 can fire. */
  lemma CheckWalletKeeps(c: Config, s: Ledger, liquidating: bool)
    requires Inv(c, s)
    ensures var d := CheckWallet(c, s, liquidating);
            && Inv(c, d.ledger)
            && d.ledger == s.(wasNegative := d.ledger.wasNegative)
            && (d.outcome.Raised? <==> c.strict && s.wallet < 0.0 && !liquidating && !s.wasNegative)
            && (d.outcome.Raised? ==> d.outcome.error == Violation(I5))
  {
  }

  lemma CheckAfterFillKeeps(c: Config, s: Ledger, k: Key, liquidating: bool)
    requires Inv(c, s)
    ensures CheckAfterFill(c, s, k, liquidating) == CheckWallet(c, s, liquidating)
  {
    CheckWalletKeeps(c, s, liquidating);
    assert s.Qty(k) == At(s.signedFills, k);
  }

  lemma AppendKeepsOrder(c: Config, s: Ledger, s': Ledger, e: AccountEvent)
    requires Ordered(c, s)
    requires s'.events == s.events + [e] && s'.lastTs == s.lastTs
    requires Current(c, s, e.ts)
    ensures Ordered(c, s') && Current(c, s', e.ts)
  {
  }

  lemma LeverageIsShared(c: Config, s: Ledger, k: Key)
    requires Slotted(c, s.positions) && SharedLeverage(s.positions) && Configured(s)
    requires k.side.Hedged() <==> c.hedgeMode
    ensures LeverageFor(s, k) >= 1
    ensures forall j :: j in s.positions && j.symbol == k.symbol ==> s.positions[j].leverage == LeverageFor(s, k)
  {
    forall j | j in s.positions && j.symbol == k.symbol
      ensures s.positions[j].leverage == LeverageFor(s, k)
    {
      if k !in s.positions {
        assert j.side in OpenSides(s, k.symbol) by { OpenSidesAreOpen(s, k.symbol, j.side); }
        OpenSidesAreOpen(s, k.symbol, OpenSides(s, k.symbol)[0]);
      }
    }
    if k !in s.positions && OpenSides(s, k.symbol) != [] {
      OpenSidesAreOpen(s, k.symbol, OpenSides(s, k.symbol)[0]);
    }
  }

  lemma OpenSidesAreOpen(s: Ledger, symbol: string, side: PositionSide)
    ensures side in OpenSides(s, symbol) <==> Key(symbol, side) in s.positions
  {
    if Key(symbol, side) in s.positions {
      match side
      case BOTH => assert OpenSides(s, symbol)[0] == BOTH;
      case LONG =>
        assert OpenSides(s, symbol)[if Key(symbol, BOTH) in s.positions then 1 else 0] == LONG;
      case SHORT => assert OpenSides(s, symbol)[|OpenSides(s, symbol)| - 1] == SHORT;
    }
  }

  /** The three cases leave the quantity the signed fill asks for. */
  lemma BookedQuantity(held: Option<Position>, side: PositionSide, qty: real, price: real, leverage: int)
    requires qty != 0.0 && (held.Some? ==> held.value.qty != 0.0)
    requires ThreeCases(held, side, qty, price).Ok?
    ensures var b := ThreeCases(held, side, qty, price).value;
            && b.qty == (if held.Some? then held.value.qty else 0.0) + qty
            && (b.entry == None <==> b.qty == 0.0)
            && (After(b, leverage) == None <==> b.qty == 0.0)
            && (After(b, leverage).Some? ==> After(b, leverage).value.qty == b.qty
                                             && After(b, leverage).value.leverage == leverage)
  {
  }

  lemma CommitKeeps(c: Config, s: Ledger, f: Fill, k: Key)
    requires ConfigBuilds(c) && Inv(c, s) && f.qty != 0.0
    requires k.side.Hedged() <==> c.hedgeMode
    requires Decide(c, s, f, k).Ok?
    requires Current(c, s, f.ts)
    ensures Inv(c, Commit(s, f, k, Decide(c, s, f, k).value, Charged(c, f)))
  {
    var b, fee := Decide(c, s, f, k).value, Charged(c, f);
    var leverage := LeverageFor(s, k);
    DecidedMeans(c, s, f, k);
    CommitBooks(c, s, f, k, b, fee);
    LeverageIsShared(c, s, k);
    SlotUpdated(c, s.positions, k, After(b, leverage), leverage);
    var s' := Commit(s, f, k, b, fee);
    QuantityMoved(s, s', k, After(b, leverage), f.qty);
    AppendKeepsOrder(c, s, s', s'.events[|s.events|]);
  }

  lemma DecidedMeans(c: Config, s: Ledger, f: Fill, k: Key)
    requires ConfigBuilds(c) && f.qty != 0.0 && Slotted(c, s.positions) && Decide(c, s, f, k).Ok?
    ensures var b, after := Decide(c, s, f, k).value, After(Decide(c, s, f, k).value, LeverageFor(s, k));
            && ThreeCases(s.Held(k), k.side, f.qty, f.price) == Ok(b)
            && b.qty == s.Qty(k) + f.qty
            && (if after.Some? then PositionBuilds(k.side, after.value) && after.value.qty == b.qty
                                    && after.value.leverage == LeverageFor(s, k)
                else b.qty == 0.0)
            && RequireMargin(c, s, f.symbol, s.Held(k), after, Charged(c, f), b.realized) == None
  {
    BookedQuantity(s.Held(k), k.side, f.qty, f.price, LeverageFor(s, k));
  }

  lemma AdmitKeeps(c: Config, s: Ledger, f: Fill)
    requires Inv(c, s)
    ensures var d := Admit(c, s, f);
            && Inv(c, d.ledger)
            && d.ledger == s.(lastTs := d.ledger.lastTs)
            && (if d.outcome.Ok?
                then && f.qty != 0.0
                     && Current(c, d.ledger, f.ts)
                     && ResolveSide(c, f.side).Ok?
                     && d.outcome.value == Key(f.symbol, ResolveSide(c, f.side).value)
                     && (d.outcome.value.side.Hedged() <==> c.hedgeMode)
                else d.outcome.error in {ZeroQuantity, NonPositivePrice, NegativeFee, WrongSide, Violation(I8)})
  {
    TouchKeeps(c, s, f.ts);
  }

  lemma SettleKeeps(c: Config, s: Ledger, f: Fill, k: Key)
    requires ConfigBuilds(c) && Inv(c, s) && f.qty != 0.0
    requires k.side.Hedged() <==> c.hedgeMode
    requires Decide(c, s, f, k).Ok?
    requires Current(c, s, f.ts)
    ensures var b := Decide(c, s, f, k).value;
            var d := Settle(c, s, f, k, b);
            var s' := Commit(s, f, k, b, Charged(c, f));
            && Inv(c, d.ledger)
            && d.ledger == s'.(wasNegative := d.ledger.wasNegative)
            && (d.outcome.Raised? <==> c.strict && s'.wallet < 0.0 && !s.wasNegative)
            && (if d.outcome.Ok?
                then d.outcome.value == FillResult(b.realized, Charged(c, f), After(b, LeverageFor(s, k)), k.side)
                else d.outcome.error == Violation(I5))
  {
    CommitKeeps(c, s, f, k);
    var s' := Commit(s, f, k, Decide(c, s, f, k).value, Charged(c, f));
    CheckAfterFillKeeps(c, s', k, false);
    CheckWalletKeeps(c, s', false);
  }

  lemma CommitBooks(c: Config, s: Ledger, f: Fill, k: Key, b: Booking, fee: real)
    requires Booked(c, s)
    ensures Booked(c, Commit(s, f, k, b, fee))
  {
    var s' := Commit(s, f, k, b, fee);
    ReplayOne(c.opening, s.events, s'.events[|s.events|]);
  }

  lemma SlotUpdated(c: Config, positions: map<Key, Position>, k: Key, after: Option<Position>, leverage: int)
    requires Slotted(c, positions) && SharedLeverage(positions)
    requires k.side.Hedged() <==> c.hedgeMode
    requires after.Some? ==> PositionBuilds(k.side, after.value) && after.value.leverage == leverage
    requires forall j :: j in positions && j.symbol == k.symbol ==> positions[j].leverage == leverage
    ensures Slotted(c, WithPosition(positions, k, after)) && SharedLeverage(WithPosition(positions, k, after))
  {
  }

  lemma QuantityMoved(s: Ledger, s': Ledger, k: Key, after: Option<Position>, qty: real)
    requires Summed(s)
    requires s'.positions == WithPosition(s.positions, k, after)
    requires s'.signedFills == s.signedFills[k := At(s.signedFills, k) + qty]
    requires (if after.Some? then after.value.qty else 0.0) == s.Qty(k) + qty
    ensures Summed(s')
  {
    forall j
      ensures s'.Qty(j) == At(s'.signedFills, j)
    {
      assert s.Qty(j) == At(s.signedFills, j);
    }
  }

  lemma FundSideKeeps(c: Config, s: Ledger, ts: int, k: Key, mark: real, rate: real)
    requires Inv(c, s) && k in s.positions
    requires Current(c, s, ts)
    ensures Inv(c, FundSide(s, ts, k, mark, rate))
    ensures Current(c, FundSide(s, ts, k, mark, rate), ts)
  {
    var s' := FundSide(s, ts, k, mark, rate);
    ReplayOne(c.opening, s.events, s'.events[|s.events|]);
    SlotUpdated(c, s.positions, k, Some(s'.positions[k]), s.positions[k].leverage);
    forall j
      ensures s'.Qty(j) == At(s'.signedFills, j)
    {
      assert s.Qty(j) == At(s.signedFills, j);
    }
    AppendKeepsOrder(c, s, s', s'.events[|s.events|]);
  }

  lemma {:induction false} FundSidesKeep(c: Config, s: Ledger, ts: int, symbol: string, sides: seq<PositionSide>,
                                         mark: real, rate: real)
    requires Inv(c, s)
    requires Current(c, s, ts)
    ensures var s' := FundSides(s, ts, symbol, sides, mark, rate);
            && Inv(c, s')
            && Current(c, s', ts)
  {
    if sides != [] {
      FundSidesKeep(c, s, ts, symbol, sides[..|sides| - 1], mark, rate);
      var s' := FundSides(s, ts, symbol, sides[..|sides| - 1], mark, rate);
      var k := Key(symbol, sides[|sides| - 1]);
      if k in s'.positions { FundSideKeeps(c, s', ts, k, mark, rate); }
    }
  }

  lemma CloseoutKeeps(c: Config, s: Ledger, ts: int, k: Key, trigger: real, loss: real, clearance: real)
    requires Inv(c, s) && k in s.positions && clearance >= 0.0 && Current(c, s, ts)
    ensures Inv(c, Closeout(s, ts, k, trigger, loss, clearance))
  {
    var p := s.positions[k];
    var s' := Closeout(s, ts, k, trigger, loss, clearance);
    ReplayOne(c.opening, s.events, s'.events[|s.events|]);
    assert s'.positions == WithPosition(s.positions, k, None);
    LeverageIsShared(c, s, k);
    SlotUpdated(c, s.positions, k, None, p.leverage);
    QuantityMoved(s, s', k, None, -p.qty);
    AppendKeepsOrder(c, s, s', s'.events[|s.events|]);
  }

  lemma LiquidatedKeeps(c: Config, s: Ledger, ts: int, k: Key, trigger: real, mark: real)
    requires ConfigBuilds(c) && Inv(c, s) && k in s.positions && Current(c, s, ts)
    ensures Inv(c, Liquidated(c, s, ts, k, trigger, mark))
  {
    var p := s.positions[k];
    var clearance := Clearance(c, p, mark);
    assert clearance >= 0.0 by { RecoveryIsWithinTheRemainder(c, p, mark); }
    CloseoutKeeps(c, s, ts, k, trigger, LiquidationLoss(c, p, mark), clearance);
  }

  /** Recovery returns between nothing and the whole remaining balance, so the clearance
      cost memo is never positive. */
  lemma RecoveryIsWithinTheRemainder(c: Config, p: Position, mark: real)
    requires ConfigBuilds(c) && p.leverage >= 1
    ensures 0.0 <= Recovered(c, p, mark) <= Confiscated(p, mark)
  {
    var x := Confiscated(p, mark);
    TimesSign(x, c.recovery);
    TimesSign(x, 1.0 - c.recovery);
    TimesLinear(x, 1.0, c.recovery);
    assert Times(x, 1.0) == x;
    QuantizeMonotone(0.0, Times(x, c.recovery));
    QuantizeMonotone(Times(x, c.recovery), x);
    QuantizeFixpoint(0.0);
    ConfiscatedOnGrid(p, mark);
    QuantizeFixpoint(x);
  }

  /** A liquidation never costs more than the allocation, and without its clearance penalty
      it is the price move, capped at the allocation. */
  lemma LiquidationNeverCostsMoreThanTheAllocation(c: Config, p: Position, mark: real)
    requires ConfigBuilds(c) && p.leverage >= 1
    ensures -p.IsolatedMargin() <= LiquidationLoss(c, p, mark) <= LiquidationLoss(c, p, mark) + Clearance(c, p, mark)
    ensures LiquidationLoss(c, p, mark) + Clearance(c, p, mark)
         == if PriceLeg(p, mark) > -p.IsolatedMargin() then PriceLeg(p, mark) else -p.IsolatedMargin()
  {
    RecoveryIsWithinTheRemainder(c, p, mark);
  }

  lemma ConfiscatedOnGrid(p: Position, mark: real)
    requires p.leverage >= 1
    ensures OnGrid(Confiscated(p, mark))
  {
    QuantizeError(p.BaseMargin() + p.extra + p.funding);
    QuantizeError(p.UnrealizedPnl(mark));
    GridSum(p.IsolatedMargin(), PriceLeg(p, mark));
  }

  lemma WithExtraKeeps(c: Config, s: Ledger, ts: int, kind: EventKind, k: Key, amount: real, extra: real)
    requires Inv(c, s) && k in s.positions && extra >= 0.0
    requires kind.MARGIN_ADDED? || kind.MARGIN_REMOVED?
    requires Current(c, s, ts)
    ensures Inv(c, WithExtra(s, ts, kind, k, amount, extra))
  {
    var s' := WithExtra(s, ts, kind, k, amount, extra);
    ReplayOne(c.opening, s.events, s'.events[|s.events|]);
    SlotUpdated(c, s.positions, k, Some(s'.positions[k]), s.positions[k].leverage);
    forall j
      ensures s'.Qty(j) == At(s'.signedFills, j)
    {
      assert s.Qty(j) == At(s.signedFills, j);
    }
    AppendKeepsOrder(c, s, s', s'.events[|s.events|]);
  }

  lemma {:induction false} MarkEventsKeep(c: Config, s: Ledger, ts: int, symbol: string, sides: seq<PositionSide>, price: real)
    requires Inv(c, s)
    requires Current(c, s, ts)
    ensures var s' := s.(events := s.events + MarkEvents(s, ts, symbol, sides, price));
            && Inv(c, s')
            && Current(c, s', ts)
  {
    if sides == [] {
      assert s.events + MarkEvents(s, ts, symbol, sides, price) == s.events;
    } else {
      MarkEventsKeep(c, s, ts, symbol, sides[..|sides| - 1], price);
      var s1 := s.(events := s.events + MarkEvents(s, ts, symbol, sides[..|sides| - 1], price));
      var e := MarkEvent(s, ts, symbol, sides[|sides| - 1], price);
      var s2 := s.(events := s.events + MarkEvents(s, ts, symbol, sides, price));
      assert s2.events == s1.events + [e];
      ReplayOne(c.opening, s1.events, e);
      AppendKeepsOrder(c, s1, s2, e);
      assert Booked(c, s2);
    }
  }
}
