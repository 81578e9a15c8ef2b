/** What each accepted operation writes to the event log (perplab/core/account.py:363-424 and
    the calls of `_append`). */
module LogTerms {
  import opened Wrappers
  import opened Sums
  import opened Positions
  import opened Ledger
  import opened LedgerInvariant
  import opened FillValue
  import opened FillTerms
  import opened SettlementTerms

  function EntryOf(s: Ledger, k: Key): Option<real>
  {
    if k in s.positions then Some(s.positions[k].entry) else None
  }

  /** A fill writes one event: what it was, what it realised and paid, and the wallet, the
      quantity and the entry price after it. */
  lemma FillIsLogged(c: Config, s: Ledger, f: Fill)
    requires ConfigBuilds(c) && Inv(c, s) && ApplyFill(c, s, f).outcome.Ok?
    ensures forall k :: MeantFor(c, f.symbol, f.side, k) ==>
              var s', r := ApplyFill(c, s, f).ledger, ApplyFill(c, s, f).outcome.value;
              s'.events == s.events + [AccountEvent(f.ts, FILL, k, f.qty, f.price, r.realized, r.fee, 0.0, s'.wallet, s'.Qty(k),
                                                    EntryOf(s', k))]
  {
    SideIsResolvedExactly(c, f.symbol, f.side);
    AcceptedFill(c, s, f);
    AcceptedFillMeans(c, s, f);
    var k := Key(f.symbol, ResolveSide(c, f.side).value);
    BookedQuantity(s.Held(k), k.side, f.qty, f.price, LeverageFor(s, k));
  }

  /** One event for a transfer: the amount stands as its price. */
  predicate TransferLogged(s: Ledger, events: seq<AccountEvent>, ts: int, kind: EventKind, k: Key, amount: real)
  {
    events == s.events + [AccountEvent(ts, kind, k, 0.0, amount, 0.0, 0.0, 0.0, s.wallet, s.Qty(k), EntryOf(s, k))]
  }

  lemma AdditionIsLogged(c: Config, s: Ledger, ts: int, symbol: string, amount: real, side: Option<PositionSide>)
    requires AddMargin(c, s, ts, symbol, amount, side).outcome.Ok?
    ensures forall k :: MeantFor(c, symbol, side, k) ==>
              TransferLogged(s, AddMargin(c, s, ts, symbol, amount, side).ledger.events, ts, MARGIN_ADDED, k, amount)
  {
    SideIsResolvedExactly(c, symbol, side);
  }

  lemma RemovalIsLogged(c: Config, s: Ledger, ts: int, symbol: string, amount: real, side: Option<PositionSide>)
    requires RemoveMargin(c, s, ts, symbol, amount, side).outcome.Ok?
    ensures forall k :: MeantFor(c, symbol, side, k) ==>
              TransferLogged(s, RemoveMargin(c, s, ts, symbol, amount, side).ledger.events, ts, MARGIN_REMOVED, k, amount)
  {
    SideIsResolvedExactly(c, symbol, side);
  }

  // ---------------------------------------------------------------------------- funding

  /** The event of the `i`-th side to settle: its own cashflow, and the wallet so far. */
  function FundingEvent(s: Ledger, ts: int, symbol: string, sides: seq<PositionSide>, i: nat, mark: real, rate: real): AccountEvent
    requires i < |sides| && Key(symbol, sides[i]) in s.positions
  {
    var k := Key(symbol, sides[i]);
    AccountEvent(ts, FUNDING, k, 0.0, mark, 0.0, 0.0, OwnTerm(s.positions[k], mark, rate),
                 s.wallet + FlowOf(s, symbol, sides[..i + 1], mark, rate), s.positions[k].qty, Some(s.positions[k].entry))
  }

  /** One event a side, in order, after what was logged before. */
  predicate FundingsLogged(s: Ledger, events: seq<AccountEvent>, ts: int, symbol: string, sides: seq<PositionSide>, mark: real, rate: real)
  {
    && |events| == |s.events| + |sides| && events[..|s.events|] == s.events
    && forall i :: 0 <= i < |sides| ==>
         Key(symbol, sides[i]) in s.positions && events[|s.events| + i] == FundingEvent(s, ts, symbol, sides, i, mark, rate)
  }

  lemma FundingsLoggedOneMore(s: Ledger, events: seq<AccountEvent>, ts: int, symbol: string, sides: seq<PositionSide>, mark: real,
                              rate: real, e: AccountEvent)
    requires sides != [] && Key(symbol, sides[|sides| - 1]) in s.positions
    requires FundingsLogged(s, events, ts, symbol, sides[..|sides| - 1], mark, rate)
    requires e == FundingEvent(s, ts, symbol, sides, |sides| - 1, mark, rate)
    ensures FundingsLogged(s, events + [e], ts, symbol, sides, mark, rate)
  {
    forall i | 0 <= i < |sides| - 1
      ensures (events + [e])[|s.events| + i] == FundingEvent(s, ts, symbol, sides, i, mark, rate)
    {
      assert sides[..|sides| - 1][..i + 1] == sides[..i + 1];
    }
  }

  lemma SideIsLogged(s: Ledger, s1: Ledger, ts: int, symbol: string, sides: seq<PositionSide>, mark: real, rate: real)
    requires sides != [] && Key(symbol, sides[|sides| - 1]) in s.positions
    requires var k := Key(symbol, sides[|sides| - 1]); k in s1.positions && s1.positions[k] == s.positions[k]
    requires s1.wallet == s.wallet + FlowOf(s, symbol, sides[..|sides| - 1], mark, rate)
    ensures FundSide(s1, ts, Key(symbol, sides[|sides| - 1]), mark, rate).events
         == s1.events + [FundingEvent(s, ts, symbol, sides, |sides| - 1, mark, rate)]
  {
    FlowOneMore(s, symbol, sides, mark, rate);
    CashflowIsTheOwnTerm(s.positions[Key(symbol, sides[|sides| - 1])], mark, rate);
    assert sides[..|sides|] == sides;
  }

  lemma {:induction false} SidesAreLogged(s: Ledger, ts: int, symbol: string, sides: seq<PositionSide>, mark: real, rate: real)
    requires Distinct(sides) && forall side :: side in sides ==> Key(symbol, side) in s.positions
    ensures FundingsLogged(s, FundSides(s, ts, symbol, sides, mark, rate).events, ts, symbol, sides, mark, rate)
  {
    if sides != [] {
      var front, side := sides[..|sides| - 1], sides[|sides| - 1];
      SidesAreLogged(s, ts, symbol, front, mark, rate);
      SidesSettle(s, ts, symbol, front, mark, rate);
      assert side !in front;
      var s1 := FundSides(s, ts, symbol, front, mark, rate);
      SideIsLogged(s, s1, ts, symbol, sides, mark, rate);
      FundingsLoggedOneMore(s, s1.events, ts, symbol, sides, mark, rate, FundingEvent(s, ts, symbol, sides, |sides| - 1, mark, rate));
    }
  }

  lemma SettlingIsLogged(c: Config, s: Ledger, ts: int, symbol: string, mark: real, rate: real)
    requires SettleSides(c, s, ts, symbol, mark, rate).outcome.Ok?
    ensures FundingsLogged(s, SettleSides(c, s, ts, symbol, mark, rate).ledger.events, ts, symbol, OpenSides(s, symbol), mark, rate)
  {
    var sides := OpenSides(s, symbol);
    forall side | side in sides ensures Key(symbol, side) in s.positions { OpenSidesAreOpen(s, symbol, side); }
    OpenSidesAddUp(s, symbol);
    SidesAreLogged(s, ts, symbol, sides, mark, rate);
    CheckMovesOnlyTheFlag(c, FundSides(s, ts, symbol, sides, mark, rate), false);
  }

  /** An accepted settlement writes one event a side, longs before shorts. */
  lemma FundingIsLogged(c: Config, s: Ledger, ts: int, symbol: string, rate: real, at: Option<real>)
    requires ApplyFunding(c, s, ts, symbol, rate, at).outcome.Ok? && SettlementMark(s, symbol, at).Some?
    ensures FundingsLogged(s, ApplyFunding(c, s, ts, symbol, rate, at).ledger.events, ts, symbol, OpenSides(s, symbol),
                           SettlementMark(s, symbol, at).value, rate)
  {
    var s1, mark, sides := Touch(c, s, ts).ledger, SettlementMark(s, symbol, at).value, OpenSides(s, symbol);
    assert s1 == s.(lastTs := s1.lastTs) && OpenSides(s1, symbol) == sides;
    if sides != [] {
      SettlingIsLogged(c, s1, ts, symbol, mark, rate);
      ClockIsNotLogged(s, s1.lastTs, ApplyFunding(c, s, ts, symbol, rate, at).ledger.events, ts, symbol, sides, mark, rate);
    }
  }

  lemma ClockIsNotLogged(s: Ledger, now: int, events: seq<AccountEvent>, ts: int, symbol: string, sides: seq<PositionSide>,
                         mark: real, rate: real)
    requires FundingsLogged(s.(lastTs := now), events, ts, symbol, sides, mark, rate)
    ensures FundingsLogged(s, events, ts, symbol, sides, mark, rate)
  {
    forall i | 0 <= i < |sides| ensures events[|s.events| + i] == FundingEvent(s, ts, symbol, sides, i, mark, rate) {
      QuantityIgnoresTheClock(s, now, symbol, sides[..i + 1]);
    }
  }

  lemma {:induction false} QuantityIgnoresTheClock(s: Ledger, now: int, symbol: string, sides: seq<PositionSide>)
    ensures QuantityOf(s.(lastTs := now), symbol, sides) == QuantityOf(s, symbol, sides)
  {
    if sides != [] { QuantityIgnoresTheClock(s, now, symbol, sides[..|sides| - 1]); }
  }

  // ------------------------------------------------------------------------ liquidation

  /** The event of one liquidation: closed at the mark, logged at the trigger. */
  function CloseEvent(ts: int, r: LiquidationResult, wallet: real): AccountEvent
  {
    AccountEvent(ts, LIQUIDATION, r.key, r.closedQty, r.trigger, r.realized, 0.0, 0.0, wallet, 0.0, None)
  }

  function ResultEvent(s: Ledger, ts: int, results: seq<LiquidationResult>, i: nat): AccountEvent
    requires i < |results|
  {
    CloseEvent(ts, results[i], s.wallet + TotalRealized(results[..i + 1]))
  }

  /** One a liquidation, in the order made, with the wallet so far. */
  predicate LiquidationsLogged(s: Ledger, events: seq<AccountEvent>, ts: int, results: seq<LiquidationResult>)
  {
    && |events| == |s.events| + |results| && events[..|s.events|] == s.events
    && forall i :: 0 <= i < |results| ==> events[|s.events| + i] == ResultEvent(s, ts, results, i)
  }

  lemma LiquidatedIsLogged(c: Config, s: Ledger, ts: int, k: Key, trigger: real, mark: real)
    requires k in s.positions && s.positions[k].leverage >= 1
    ensures var r := ResultOf(c, s.positions[k], k, trigger, mark);
            Liquidated(c, s, ts, k, trigger, mark).events == s.events + [CloseEvent(ts, r, s.wallet + r.realized)]
  {
  }

  lemma VisitIsLogged(c: Config, s: Ledger, ts: int, k: Key)
    requires VisitSide(c, s, ts, k).outcome.Ok? && VisitSide(c, s, ts, k).outcome.value.Some?
    ensures var d := VisitSide(c, s, ts, k);
            d.ledger.events == s.events + [CloseEvent(ts, d.outcome.value.value, s.wallet + d.outcome.value.value.realized)]
  {
    var p, mark := s.positions[k], s.marks[k.symbol];
    var trigger := SolveLiquidation(c, c.brackets[k.symbol], p, mark).value.price;
    LiquidatedIsLogged(c, s, ts, k, trigger, mark);
    CheckAfterMovesOnlyTheFlag(c, Liquidated(c, s, ts, k, trigger, mark), k);
  }

  lemma LoggedOneMore(s: Ledger, events: seq<AccountEvent>, ts: int, results: seq<LiquidationResult>)
    requires results != [] && LiquidationsLogged(s, events, ts, results[..|results| - 1])
    ensures LiquidationsLogged(s, events + [ResultEvent(s, ts, results, |results| - 1)], ts, results)
  {
    forall i | 0 <= i < |results| - 1
      ensures ResultEvent(s, ts, results[..|results| - 1], i) == ResultEvent(s, ts, results, i)
    {
      assert results[..|results| - 1][..i + 1] == results[..i + 1];
    }
  }

  lemma OneMoreLogged(s: Ledger, s1: Ledger, events: seq<AccountEvent>, ts: int, results: seq<LiquidationResult>, r: LiquidationResult)
    requires LiquidationsLogged(s, s1.events, ts, results) && s1.wallet == s.wallet + TotalRealized(results)
    requires events == s1.events + [CloseEvent(ts, r, s1.wallet + r.realized)]
    ensures LiquidationsLogged(s, events, ts, results + [r])
  {
    var all := results + [r];
    assert all[..|all| - 1] == results && all[..|all|] == all;
    LoggedOneMore(s, s1.events, ts, all);
  }

  lemma VisitLogsItsResult(c: Config, s: Ledger, s1: Ledger, ts: int, k: Key, results: seq<LiquidationResult>)
    requires LiquidationsLogged(s, s1.events, ts, results) && s1.wallet == s.wallet + TotalRealized(results)
    requires VisitSide(c, s1, ts, k).outcome.Ok?
    ensures LiquidationsLogged(s, VisitSide(c, s1, ts, k).ledger.events, ts, Joined(results, VisitSide(c, s1, ts, k).outcome.value))
  {
    VisitClosesOut(c, s1, ts, k);
    var d := VisitSide(c, s1, ts, k);
    if d.outcome.value.Some? {
      VisitIsLogged(c, s1, ts, k);
      OneMoreLogged(s, s1, d.ledger.events, ts, results, d.outcome.value.value);
    }
  }

  lemma {:induction false} VisitsAreLogged(c: Config, s: Ledger, ts: int, order: seq<Key>)
    requires VisitSides(c, s, ts, order).outcome.Ok?
    ensures LiquidationsLogged(s, VisitSides(c, s, ts, order).ledger.events, ts, VisitSides(c, s, ts, order).outcome.value)
  {
    if order != [] {
      var front := order[..|order| - 1];
      VisitsAreLogged(c, s, ts, front);
      VisitsCloseOut(c, s, ts, front);
      var d := VisitSides(c, s, ts, front);
      VisitLogsItsResult(c, s, d.ledger, ts, order[|order| - 1], d.outcome.value);
    }
  }

  lemma LiquidationsAreLogged(c: Config, s: Ledger, ts: int, order: seq<Key>)
    requires CheckLiquidations(c, s, ts, order).outcome.Ok?
    ensures LiquidationsLogged(s, CheckLiquidations(c, s, ts, order).ledger.events, ts, CheckLiquidations(c, s, ts, order).outcome.value)
  {
    var s1, results := Touch(c, s, ts).ledger, CheckLiquidations(c, s, ts, order).outcome.value;
    VisitsAreLogged(c, s1, ts, order);
    forall i | 0 <= i < |results| ensures ResultEvent(s1, ts, results, i) == ResultEvent(s, ts, results, i) {}
  }

  // ------------------------------------------------------------------------------ marks

  /** With mark logging on, a mark writes one event for each open side of its symbol, or one
      for the symbol when it is flat; otherwise nothing. */
  lemma MarkIsLogged(c: Config, s: Ledger, ts: int, symbol: string, price: real)
    requires Inv(c, s) && UpdateMark(c, s, ts, symbol, price).outcome.Ok?
    ensures var events, sides := UpdateMark(c, s, ts, symbol, price).ledger.events,
                                 if OpenSides(s, symbol) == [] then [BOTH] else OpenSides(s, symbol);
            if !c.logMarks then events == s.events else MarksLogged(s, events, ts, symbol, sides, price)
  {
    var s1 := Touch(c, s, ts).ledger.(marks := s.marks[symbol := price]);
    assert OpenSides(s1, symbol) == OpenSides(s, symbol);
    MarksAreLogged(s, s1, ts, symbol, if OpenSides(s, symbol) == [] then [BOTH] else OpenSides(s, symbol), price);
  }

  predicate MarksLogged(s: Ledger, events: seq<AccountEvent>, ts: int, symbol: string, sides: seq<PositionSide>, price: real)
  {
    && |events| == |s.events| + |sides| && events[..|s.events|] == s.events
    && forall i :: 0 <= i < |sides| ==>
         var k := Key(symbol, sides[i]);
         events[|s.events| + i] == AccountEvent(ts, MARK, k, 0.0, price, 0.0, 0.0, 0.0, s.wallet, s.Qty(k), EntryOf(s, k))
  }

  lemma {:induction false} MarksAreLogged(s: Ledger, s1: Ledger, ts: int, symbol: string, sides: seq<PositionSide>, price: real)
    requires s1.events == s.events && s1.wallet == s.wallet && s1.positions == s.positions
    ensures MarksLogged(s, s1.events + MarkEvents(s1, ts, symbol, sides, price), ts, symbol, sides, price)
  {
    if sides == [] {
      assert s1.events + MarkEvents(s1, ts, symbol, sides, price) == s.events;
    } else {
      var front := sides[..|sides| - 1];
      MarksAreLogged(s, s1, ts, symbol, front, price);
      var e := MarkEvent(s1, ts, symbol, sides[|sides| - 1], price);
      assert s1.events + MarkEvents(s1, ts, symbol, sides, price) == (s1.events + MarkEvents(s1, ts, symbol, front, price)) + [e];
    }
  }

  // --------------------------------------------------------------------- the end-of-run check

  /** What the logged events sum to, marks left out. */
  function Logged(events: seq<AccountEvent>, of: AccountEvent -> real): real
  {
    if events == [] then 0.0
    else
      var e := events[|events| - 1];
      Logged(events[..|events| - 1], of) + (if e.kind.MARK? then 0.0 else of(e))
  }

  function RealizedOf(e: AccountEvent): real { e.realized }

  function FeeIn(e: AccountEvent): real { e.fee }

  function FundingIn(e: AccountEvent): real { e.funding }

  /** The quantity logged as traded in a slot: by fills and liquidations. */
  function Traded(events: seq<AccountEvent>, k: Key): real
  {
    if events == [] then 0.0
    else
      var e := events[|events| - 1];
      Traded(events[..|events| - 1], k) + (if e.key == k && (e.kind.FILL? || e.kind.LIQUIDATION?) then e.qty else 0.0)
  }

  lemma {:induction false} ReplaySums(opening: real, events: seq<AccountEvent>)
    ensures var r := Replay(opening, events);
            && r.realized == Logged(events, RealizedOf) && r.fees == Logged(events, FeeIn) && r.funding == Logged(events, FundingIn)
            && r.wallet == opening + Logged(events, RealizedOf) - Logged(events, FeeIn) + Logged(events, FundingIn)
  {
    if events != [] { ReplaySums(opening, events[..|events| - 1]); }
  }

  lemma {:induction false} ReplayTrades(opening: real, events: seq<AccountEvent>, k: Key)
    ensures At(Replay(opening, events).positions, k) == Traded(events, k)
  {
    if events != [] { ReplayTrades(opening, events[..|events| - 1], k); }
  }

  /** The totals are those of the log, and every slot holds what was traded in it. */
  ghost predicate LogAgrees(c: Config, s: Ledger)
  {
    && s.realized == Logged(s.events, RealizedOf) && s.fees == Logged(s.events, FeeIn) && s.funding == Logged(s.events, FundingIn)
    && s.wallet == c.opening + s.realized - s.fees + s.funding
    && forall k :: s.Qty(k) == Traded(s.events, k)
  }

  /** On any ledger, whether a run reached it or not, `reconcile` raises exactly when the
      totals or the positions are not those of the log. */
  lemma ReconcileAcceptsExactly(c: Config, s: Ledger)
    ensures Reconcile(c, s) == Ok(()) <==> LogAgrees(c, s)
  {
    var r := Replay(c.opening, s.events);
    ReplaySums(c.opening, s.events);
    forall k ensures At(r.positions, k) == Traded(s.events, k) { ReplayTrades(c.opening, s.events, k); }
    if Reconciles(c, s) {
      forall k ensures s.Qty(k) == Traded(s.events, k) {
        if k !in r.positions.Keys + s.positions.Keys { assert At(r.positions, k) == 0.0; }
      }
    }
  }
}
