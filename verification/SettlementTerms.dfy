/** Funding, liquidation and transfers of margin in their own terms: what each moves, by how
    much, and when it is refused (perplab/core/account.py:1162-1622). */
module SettlementTerms {
  import opened Money
  import opened Wrappers
  import opened Margin
  import opened Liquidation
  import opened Convergence
  import opened Positions
  import opened Ledger
  import opened LedgerInvariant
  import opened LedgerRuns
  import opened FillValue
  import opened LiquidationSweep
  import opened FillTerms

  // ---------------------------------------------------------------------------- funding

  /** The signed quantity open in a symbol, over all its sides. */
  function NetQuantity(s: Ledger, symbol: string): real
  {
    s.Qty(Key(symbol, BOTH)) + s.Qty(Key(symbol, LONG)) + s.Qty(Key(symbol, SHORT))
  }

  /** A side is paid its own quantity's share: longs pay a positive rate, shorts receive it. */
  function OwnTerm(p: Position, mark: real, rate: real): real
  {
    -Times(Times(p.qty, mark), rate)
  }

  lemma CashflowIsTheOwnTerm(p: Position, mark: real, rate: real)
    ensures Cashflow(p.qty, mark, rate) == OwnTerm(p, mark, rate)
  {
    TimesLinear(p.qty, mark, mark);
    TimesLinear(Times(p.qty, mark), rate, rate);
  }

  /** The positions once these sides, and no others, have settled. */
  ghost predicate SidesHaveSettled(before: map<Key, Position>, after: map<Key, Position>, symbol: string,
                                   sides: seq<PositionSide>, mark: real, rate: real)
  {
    && after.Keys == before.Keys
    && forall k :: k in before ==>
         after[k] == if k.symbol == symbol && k.side in sides
                     then before[k].(funding := before[k].funding + OwnTerm(before[k], mark, rate)) else before[k]
  }

  /** And the ledger, the wallet having moved by `flow`. */
  ghost predicate HaveSettled(s: Ledger, s': Ledger, symbol: string, sides: seq<PositionSide>, mark: real, rate: real, flow: real)
  {
    && SidesHaveSettled(s.positions, s'.positions, symbol, sides, mark, rate) && s'.marks == s.marks
    && s'.wallet == s.wallet + flow && s'.funding == s.funding + flow && s'.realized == s.realized && s'.fees == s.fees
  }

  function FlowOf(s: Ledger, symbol: string, sides: seq<PositionSide>, mark: real, rate: real): real
  {
    -Times(Times(QuantityOf(s, symbol, sides), mark), rate)
  }

  function QuantityOf(s: Ledger, symbol: string, sides: seq<PositionSide>): real
  {
    if sides == [] then 0.0 else QuantityOf(s, symbol, sides[..|sides| - 1]) + s.Qty(Key(symbol, sides[|sides| - 1]))
  }

  predicate Distinct(sides: seq<PositionSide>)
  {
    forall i, j :: 0 <= i < j < |sides| ==> sides[i] != sides[j]
  }

  lemma FlowOneMore(s: Ledger, symbol: string, sides: seq<PositionSide>, mark: real, rate: real)
    requires sides != [] && Key(symbol, sides[|sides| - 1]) in s.positions
    ensures FlowOf(s, symbol, sides, mark, rate)
         == FlowOf(s, symbol, sides[..|sides| - 1], mark, rate) + OwnTerm(s.positions[Key(symbol, sides[|sides| - 1])], mark, rate)
  {
    var front, qty := QuantityOf(s, symbol, sides[..|sides| - 1]), s.positions[Key(symbol, sides[|sides| - 1])].qty;
    TimesLinear(front, qty, mark);
    TimesLinear(Times(front, mark), Times(qty, mark), rate);
  }

  lemma OneMoreSideSettles(before: map<Key, Position>, after: map<Key, Position>, symbol: string, front: seq<PositionSide>,
                           side: PositionSide, mark: real, rate: real)
    requires Key(symbol, side) in before && side !in front
    requires SidesHaveSettled(before, after, symbol, front, mark, rate)
    ensures after[Key(symbol, side)] == before[Key(symbol, side)]
    ensures var p := before[Key(symbol, side)];
            SidesHaveSettled(before, after[Key(symbol, side) := p.(funding := p.funding + OwnTerm(p, mark, rate))], symbol,
                             front + [side], mark, rate)
  {
  }

  lemma OneSideMoves(s: Ledger, ts: int, k: Key, mark: real, rate: real)
    requires k in s.positions
    ensures var s', p := FundSide(s, ts, k, mark, rate), s.positions[k];
            && s'.positions == s.positions[k := p.(funding := p.funding + OwnTerm(p, mark, rate))] && s'.marks == s.marks
            && s'.wallet == s.wallet + OwnTerm(p, mark, rate) && s'.funding == s.funding + OwnTerm(p, mark, rate)
            && s'.realized == s.realized && s'.fees == s.fees
  {
    CashflowIsTheOwnTerm(s.positions[k], mark, rate);
  }

  lemma OneMoreSettles(s: Ledger, s1: Ledger, ts: int, symbol: string, sides: seq<PositionSide>, mark: real, rate: real, flow: real)
    requires sides != [] && Distinct(sides) && Key(symbol, sides[|sides| - 1]) in s.positions
    requires HaveSettled(s, s1, symbol, sides[..|sides| - 1], mark, rate, flow)
    ensures var k := Key(symbol, sides[|sides| - 1]);
            HaveSettled(s, FundSide(s1, ts, k, mark, rate), symbol, sides, mark, rate, flow + OwnTerm(s.positions[k], mark, rate))
  {
    var front, side := sides[..|sides| - 1], sides[|sides| - 1];
    assert sides == front + [side];
    OneMoreSideSettles(s.positions, s1.positions, symbol, front, side, mark, rate);
    OneSideMoves(s1, ts, Key(symbol, side), mark, rate);
  }

  lemma {:induction false} SidesSettle(s: Ledger, ts: int, symbol: string, sides: seq<PositionSide>, mark: real, rate: real)
    requires Distinct(sides) && forall side :: side in sides ==> Key(symbol, side) in s.positions
    ensures HaveSettled(s, FundSides(s, ts, symbol, sides, mark, rate), symbol, sides, mark, rate, FlowOf(s, symbol, sides, mark, rate))
  {
    if sides == [] {
      assert Times(Times(0.0, mark), rate) == 0.0;
    } else {
      SidesSettle(s, ts, symbol, sides[..|sides| - 1], mark, rate);
      OneMoreSettles(s, FundSides(s, ts, symbol, sides[..|sides| - 1], mark, rate), ts, symbol, sides, mark, rate,
                     FlowOf(s, symbol, sides[..|sides| - 1], mark, rate));
      FlowOneMore(s, symbol, sides, mark, rate);
    }
  }

  lemma OpenSidesAddUp(s: Ledger, symbol: string)
    ensures QuantityOf(s, symbol, OpenSides(s, symbol)) == NetQuantity(s, symbol)
    ensures Distinct(OpenSides(s, symbol))
  {
    var both := if Key(symbol, BOTH) in s.positions then [BOTH] else [];
    var long := if Key(symbol, LONG) in s.positions then [LONG] else [];
    var short := if Key(symbol, SHORT) in s.positions then [SHORT] else [];
    AddingASide(s, symbol, [], BOTH);
    AddingASide(s, symbol, both, LONG);
    AddingASide(s, symbol, both + long, SHORT);
    assert [] + [BOTH] == [BOTH];
    assert both + long + short == OpenSides(s, symbol);
    assert both + long + [] == both + long && both + [] == both;
  }

  lemma AddingASide(s: Ledger, symbol: string, sides: seq<PositionSide>, side: PositionSide)
    ensures QuantityOf(s, symbol, sides + [side]) == QuantityOf(s, symbol, sides) + s.Qty(Key(symbol, side))
  {
    assert (sides + [side])[..|sides|] == sides;
  }

  /** The mark a settlement uses: the one given, or else the one recorded. */
  function SettlementMark(s: Ledger, symbol: string, at: Option<real>): Option<real>
  {
    if at.Some? then at else if symbol in s.marks then Some(s.marks[symbol]) else None
  }

  /** The whole of a settlement at `mark`: the wallet moves by the rate on the symbol's net
      signed quantity, and each open side by its own term. */
  ghost predicate SettlesAt(s: Ledger, s': Ledger, paid: map<PositionSide, real>, symbol: string, mark: real, rate: real)
  {
    && s'.wallet == s.wallet - Times(Times(NetQuantity(s, symbol), mark), rate)
    && s'.funding == s.funding - Times(Times(NetQuantity(s, symbol), mark), rate)
    && s'.realized == s.realized && s'.fees == s.fees && s'.marks == s.marks
    && s'.positions.Keys == s.positions.Keys
    && (forall k :: k in s.positions && k.symbol != symbol ==> s'.positions[k] == s.positions[k])
    && (forall side :: side in paid <==> Key(symbol, side) in s.positions)
    && forall side {:trigger paid[side]} :: side in paid ==>
         var p := s.positions[Key(symbol, side)];
         paid[side] == -Times(Times(p.qty, mark), rate) && s'.positions[Key(symbol, side)] == p.(funding := p.funding + paid[side])
  }

  lemma SettledInItsOwnTerms(s: Ledger, s': Ledger, symbol: string, sides: seq<PositionSide>, mark: real, rate: real)
    requires forall side :: side in sides <==> Key(symbol, side) in s.positions
    requires HaveSettled(s, s', symbol, sides, mark, rate, -Times(Times(NetQuantity(s, symbol), mark), rate))
    ensures SettlesAt(s, s', Settled(s, symbol, sides, mark, rate), symbol, mark, rate)
  {
    var paid := Settled(s, symbol, sides, mark, rate);
    forall side | side in paid ensures paid[side] == OwnTerm(s.positions[Key(symbol, side)], mark, rate) {
      CashflowIsTheOwnTerm(s.positions[Key(symbol, side)], mark, rate);
    }
  }

  lemma SettlingSettles(c: Config, s: Ledger, ts: int, symbol: string, mark: real, rate: real)
    requires SettleSides(c, s, ts, symbol, mark, rate).outcome.Ok?
    ensures var d := SettleSides(c, s, ts, symbol, mark, rate); SettlesAt(s, d.ledger, d.outcome.value, symbol, mark, rate)
  {
    var sides := OpenSides(s, symbol);
    forall side ensures side in sides <==> Key(symbol, side) in s.positions { OpenSidesAreOpen(s, symbol, side); }
    OpenSidesAddUp(s, symbol);
    SidesSettle(s, ts, symbol, sides, mark, rate);
    CheckMovesOnlyTheFlag(c, FundSides(s, ts, symbol, sides, mark, rate), false);
    SettledInItsOwnTerms(s, SettleSides(c, s, ts, symbol, mark, rate).ledger, symbol, sides, mark, rate);
  }

  lemma CheckMovesOnlyTheFlag(c: Config, s: Ledger, liquidating: bool)
    ensures var d := CheckWallet(c, s, liquidating); d.ledger == s.(wasNegative := d.ledger.wasNegative)
  {
  }

  lemma NothingSettles(s: Ledger, symbol: string, mark: real, rate: real)
    requires OpenSides(s, symbol) == []
    ensures SettlesAt(s, s, map[], symbol, mark, rate)
  {
    forall side ensures Key(symbol, side) !in s.positions { OpenSidesAreOpen(s, symbol, side); }
    assert Times(Times(0.0, mark), rate) == 0.0;
  }

  lemma ClockDoesNotSettle(s: Ledger, ts: int, s': Ledger, paid: map<PositionSide, real>, symbol: string, mark: real, rate: real)
    requires SettlesAt(s.(lastTs := ts), s', paid, symbol, mark, rate)
    ensures SettlesAt(s, s', paid, symbol, mark, rate)
  {
  }

  /** An accepted settlement, at the mark given or the one recorded. */
  lemma AcceptedFundingSettles(c: Config, s: Ledger, ts: int, symbol: string, rate: real, at: Option<real>)
    requires ApplyFunding(c, s, ts, symbol, rate, at).outcome.Ok?
    ensures OpenSides(s, symbol) != [] ==> SettlementMark(s, symbol, at).Some?
    ensures SettlementMark(s, symbol, at).Some? ==>
              var d := ApplyFunding(c, s, ts, symbol, rate, at);
              SettlesAt(s, d.ledger, d.outcome.value, symbol, SettlementMark(s, symbol, at).value, rate)
  {
    var s1, mark := Touch(c, s, ts).ledger, SettlementMark(s, symbol, at);
    assert s1 == s.(lastTs := s1.lastTs) && OpenSides(s1, symbol) == OpenSides(s, symbol);
    if mark.Some? {
      if OpenSides(s, symbol) == [] {
        NothingSettles(s1, symbol, mark.value, rate);
      } else {
        SettlingSettles(c, s1, ts, symbol, mark.value, rate);
      }
      var d := ApplyFunding(c, s, ts, symbol, rate, at);
      ClockDoesNotSettle(s, s1.lastTs, d.ledger, d.outcome.value, symbol, mark.value, rate);
    }
  }

  // ------------------------------------------------------------------------ liquidation

  /** The balance a close at the mark leaves of the allocation, never below zero. */
  function LeftOver(p: Position, mark: real): real
    requires p.leverage >= 1
  {
    Max(0.0, p.IsolatedMargin() + Quantize(Times(p.qty, mark - p.entry)))
  }

  /** One liquidation in its own terms: closed at the recorded mark, the fraction of the
      balance left over recovered, the allocation booked as lost but for that. */
  ghost predicate ClosesOut(c: Config, s: Ledger, r: LiquidationResult)
  {
    && r.key in s.positions && s.positions[r.key].leverage >= 1
    && r.key.symbol in s.marks && r.key.symbol in c.brackets && |c.brackets[r.key.symbol]| > 0
    && var p, mark := s.positions[r.key], s.marks[r.key.symbol];
    && r.mark == mark && r.closedQty == -p.qty
    && var solved := Solve(Isolated(p), mark, c.brackets[r.key.symbol]);
    && solved.Ok? && r.trigger == solved.value.price
    && Near(r.recovered, Times(c.recovery, LeftOver(p, mark)), HALF_QUANTUM) && OnGrid(r.recovered)
    && r.realized == r.recovered - p.IsolatedMargin() && r.marginLost == -r.realized
    && (c.recovery == 0.0 ==> r.realized == -p.IsolatedMargin())
    && (c.recovery == 1.0 ==> r.realized == Max(-p.IsolatedMargin(), Quantize(Times(p.qty, mark - p.entry))))
  }

  lemma RecoveryInItsOwnTerms(c: Config, p: Position, mark: real)
    requires p.leverage >= 1
    ensures Near(Recovered(c, p, mark), Times(c.recovery, LeftOver(p, mark)), HALF_QUANTUM) && OnGrid(Recovered(c, p, mark))
    ensures c.recovery == 0.0 ==> Recovered(c, p, mark) == 0.0
    ensures c.recovery == 1.0 ==> Recovered(c, p, mark) == LeftOver(p, mark)
  {
    assert LeftOver(p, mark) == Confiscated(p, mark);
    TimesSymmetric(c.recovery, LeftOver(p, mark));
    QuantizeError(Times(c.recovery, LeftOver(p, mark)));
    QuantizeFixpoint(0.0);
    ConfiscatedOnGrid(p, mark);
    QuantizeFixpoint(Confiscated(p, mark));
    if c.recovery == 0.0 { assert Times(0.0, LeftOver(p, mark)) == 0.0; }
    if c.recovery == 1.0 { assert Times(1.0, LeftOver(p, mark)) == LeftOver(p, mark); }
  }

  /** What the clearance keeps: the balance left over but for what is recovered. */
  function KeptOf(s: Ledger, r: LiquidationResult): real
  {
    if r.key in s.positions && s.positions[r.key].leverage >= 1 && r.key.symbol in s.marks then
      LeftOver(s.positions[r.key], s.marks[r.key.symbol]) - r.recovered
    else 0.0
  }

  lemma ResultInItsOwnTerms(c: Config, s: Ledger, k: Key)
    requires k in s.positions && s.positions[k].leverage >= 1 && k.symbol in s.marks
    requires k.symbol in c.brackets && |c.brackets[k.symbol]| > 0
    requires SolveLiquidation(c, c.brackets[k.symbol], s.positions[k], s.marks[k.symbol]).Ok?
    ensures var p, mark := s.positions[k], s.marks[k.symbol];
            ClosesOut(c, s, ResultOf(c, p, k, SolveLiquidation(c, c.brackets[k.symbol], p, mark).value.price, mark))
  {
    RecoveryInItsOwnTerms(c, s.positions[k], s.marks[k.symbol]);
  }

  lemma LiquidatedInItsOwnTerms(c: Config, s: Ledger, ts: int, k: Key, trigger: real)
    requires k in s.positions && s.positions[k].leverage >= 1 && k.symbol in s.marks
    ensures var mark := s.marks[k.symbol];
            ClosedOut(s, Liquidated(c, s, ts, k, trigger, mark), ResultOf(c, s.positions[k], k, trigger, mark))
  {
    assert LeftOver(s.positions[k], s.marks[k.symbol]) == Confiscated(s.positions[k], s.marks[k.symbol]);
  }

  lemma VisitClosesOut(c: Config, s: Ledger, ts: int, k: Key)
    requires VisitSide(c, s, ts, k).outcome.Ok?
    ensures var d := VisitSide(c, s, ts, k);
            if d.outcome.value == None then d.ledger == s
            else && ClosesOut(c, s, d.outcome.value.value) && d.outcome.value.value.key == k
                 && ClosedOut(s, d.ledger, d.outcome.value.value)
  {
    if VisitSide(c, s, ts, k).outcome.value.Some? {
      var p, mark := s.positions[k], s.marks[k.symbol];
      var trigger := SolveLiquidation(c, c.brackets[k.symbol], p, mark).value.price;
      ResultInItsOwnTerms(c, s, k);
      LiquidatedInItsOwnTerms(c, s, ts, k, trigger);
      CheckAfterMovesOnlyTheFlag(c, Liquidated(c, s, ts, k, trigger, mark), k);
    }
  }

  lemma CheckAfterMovesOnlyTheFlag(c: Config, s: Ledger, k: Key)
    ensures var d := CheckAfterFill(c, s, k, true); d.ledger == s.(wasNegative := d.ledger.wasNegative)
  {
  }

  /** The position is gone, the wallet has moved by what the result says, and the cost memo
      by what the clearance kept. */
  ghost predicate ClosedOut(s: Ledger, s': Ledger, r: LiquidationResult)
  {
    && s'.positions == s.positions - {r.key} && s'.marks == s.marks
    && s'.wallet == s.wallet + r.realized && s'.realized == s.realized + r.realized
    && s'.fees == s.fees && s'.funding == s.funding
    && s'.liquidationCost == s.liquidationCost - KeptOf(s, r) && s'.liquidations == s.liquidations + 1
  }

  function TotalRealized(results: seq<LiquidationResult>): real
  {
    if results == [] then 0.0 else TotalRealized(results[..|results| - 1]) + results[|results| - 1].realized
  }

  function TotalKept(s: Ledger, results: seq<LiquidationResult>): real
  {
    if results == [] then 0.0 else TotalKept(s, results[..|results| - 1]) + KeptOf(s, results[|results| - 1])
  }

  ghost predicate EachClosesOut(c: Config, s: Ledger, results: seq<LiquidationResult>)
  {
    forall i :: 0 <= i < |results| ==> ClosesOut(c, s, results[i])
  }

  /** The ledger after these closes. */
  ghost predicate AllClosedOut(s: Ledger, s': Ledger, results: seq<LiquidationResult>)
  {
    && s'.positions == s.positions - KeysOf(results) && s'.marks == s.marks
    && s'.wallet == s.wallet + TotalRealized(results) && s'.realized == s.realized + TotalRealized(results)
    && s'.fees == s.fees && s'.funding == s.funding && s'.liquidations == s.liquidations + |results|
    && s'.liquidationCost == s.liquidationCost - TotalKept(s, results)
  }

  lemma ClosingEarlierIsTheSame(c: Config, s: Ledger, s1: Ledger, r: LiquidationResult, gone: set<Key>)
    requires s1.positions == s.positions - gone && s1.marks == s.marks && ClosesOut(c, s1, r)
    ensures ClosesOut(c, s, r) && KeptOf(s1, r) == KeptOf(s, r)
  {
  }

  lemma OneMoreClosed(s: Ledger, s1: Ledger, s2: Ledger, results: seq<LiquidationResult>, r: LiquidationResult)
    requires AllClosedOut(s, s1, results) && ClosedOut(s1, s2, r) && KeptOf(s1, r) == KeptOf(s, r)
    ensures AllClosedOut(s, s2, results + [r])
  {
    OneMoreResult(results, Some(r));
    assert (results + [r])[..|results|] == results;
    assert (results + [r])[|results|] == r;
    assert s.positions - KeysOf(results) - {r.key} == s.positions - (KeysOf(results) + {r.key});
  }

  lemma {:induction false} VisitsCloseOut(c: Config, s: Ledger, ts: int, order: seq<Key>)
    requires VisitSides(c, s, ts, order).outcome.Ok?
    ensures var d := VisitSides(c, s, ts, order); EachClosesOut(c, s, d.outcome.value) && AllClosedOut(s, d.ledger, d.outcome.value)
  {
    if order == [] {
      assert s.positions - KeysOf([]) == s.positions;
    } else {
      var front, k := order[..|order| - 1], order[|order| - 1];
      VisitsCloseOut(c, s, ts, front);
      var d := VisitSides(c, s, ts, front);
      VisitClosesOut(c, d.ledger, ts, k);
      var e := VisitSide(c, d.ledger, ts, k);
      if e.outcome.value.Some? {
        ClosingEarlierIsTheSame(c, s, d.ledger, e.outcome.value.value, KeysOf(d.outcome.value));
        OneMoreClosed(s, d.ledger, e.ledger, d.outcome.value, e.outcome.value.value);
      }
    }
  }

  lemma {:induction false} ClockKeepsNothing(s: Ledger, s1: Ledger, results: seq<LiquidationResult>)
    requires s1.positions == s.positions && s1.marks == s.marks
    ensures TotalKept(s1, results) == TotalKept(s, results)
  {
    if results != [] { ClockKeepsNothing(s, s1, results[..|results| - 1]); }
  }

  lemma ClockClosesNothing(c: Config, s: Ledger, s1: Ledger, s2: Ledger, results: seq<LiquidationResult>)
    requires s1 == s.(lastTs := s1.lastTs) && EachClosesOut(c, s1, results) && AllClosedOut(s1, s2, results)
    ensures EachClosesOut(c, s, results) && AllClosedOut(s, s2, results)
  {
    ClockKeepsNothing(s, s1, results);
    forall i | 0 <= i < |results| ensures ClosesOut(c, s, results[i]) {
      assert s1.positions == s.positions - {};
      ClosingEarlierIsTheSame(c, s, s1, results[i], {});
    }
  }

  /** Every result of a check says what its liquidation did, and together they are all that
      it did to the money. */
  lemma CheckedLiquidationsCloseOut(c: Config, s: Ledger, ts: int, order: seq<Key>)
    requires CheckLiquidations(c, s, ts, order).outcome.Ok?
    ensures var d := CheckLiquidations(c, s, ts, order);
            EachClosesOut(c, s, d.outcome.value) && AllClosedOut(s, d.ledger, d.outcome.value)
  {
    var s1, d := Touch(c, s, ts).ledger, CheckLiquidations(c, s, ts, order);
    VisitsCloseOut(c, s1, ts, order);
    ClockClosesNothing(c, s, s1, d.ledger, d.outcome.value);
  }

  /** The price lies between the bankruptcy price and the entry, on the position's side. */
  predicate InOrder(qty: real, bankrupt: real, price: real, entry: real)
  {
    if qty > 0.0 then bankrupt < price < entry else entry < price < bankrupt
  }

  /** A positive solved price out of order, while the allocation is above the requirement of
      the solved tier at the entry. */
  predicate OutOfOrder(p: Position, t: BracketTable, bankrupt: real, solved: Solution)
    requires p.leverage >= 1
  {
    && solved.tier < |t| && solved.price > 0.0 && !InOrder(p.qty, bankrupt, solved.price, p.entry)
    && p.IsolatedMargin() > Max(0.0, Times(Times(Abs(p.qty), p.entry), t[solved.tier].mmr) - t[solved.tier].amount)
  }

  /** I7, on any table: a strict account refuses a solve exactly when it is out of order with
      the entry and with the price at which nothing is left. */
  lemma OrderingIsRefusedExactly(c: Config, t: BracketTable, p: Position, mark: real, bankrupt: real)
    requires |t| > 0 && p.leverage >= 1 && p.qty != 0.0
    requires p.IsolatedMargin() + Times(p.qty, bankrupt - p.entry) == 0.0
    ensures SolveLiquidation(c, t, p, mark) == Raised(Violation(I7))
       <==> c.strict && Solve(Isolated(p), mark, t).Ok? && OutOfOrder(p, t, bankrupt, Solve(Isolated(p), mark, t).value)
  {
    BankruptcyIsUnique(Isolated(p), bankrupt);
  }

  lemma BankruptcyIsUnique(h: Holding, bankrupt: real)
    requires h.qty != 0.0 && h.margin + Times(h.qty, bankrupt - h.entry) == 0.0
    ensures BankruptcyPrice(h) == bankrupt
  {
    QuotientIsUnique(h.margin, h.qty, h.entry - bankrupt);
  }

  // ---------------------------------------------------------------- when each is accepted

  /** Nothing admitted so far is later. */
  predicate Timely(c: Config, s: Ledger, ts: int)
  {
    c.strict ==> ts >= s.lastTs
  }

  predicate Flat(s: Ledger, symbol: string)
  {
    forall k :: k in s.positions ==> k.symbol != symbol
  }

  lemma FlatExactly(s: Ledger, symbol: string)
    ensures Flat(s, symbol) <==> OpenSides(s, symbol) == []
  {
    forall side ensures side in OpenSides(s, symbol) <==> Key(symbol, side) in s.positions { OpenSidesAreOpen(s, symbol, side); }
    if OpenSides(s, symbol) != [] { assert Key(symbol, OpenSides(s, symbol)[0]) in s.positions; }
    if !Flat(s, symbol) {
      var k :| k in s.positions && k.symbol == symbol;
      assert k == Key(symbol, k.side) && k.side in OpenSides(s, symbol);
    }
  }

  /** The settlement would take a wallet that was not negative below zero. */
  predicate Bankrupts(c: Config, s: Ledger, moved: real)
  {
    c.strict && s.wallet + moved < 0.0 && !s.wasNegative
  }

  /** A mark that is not negative, given or recorded, and a wallet that can pay. */
  predicate CanSettle(c: Config, s: Ledger, symbol: string, rate: real, mark: Option<real>)
  {
    && mark.Some? && mark.value >= 0.0
    && !Bankrupts(c, s, -Times(Times(NetQuantity(s, symbol), mark.value), rate))
  }

  lemma FundingIsAcceptedExactly(c: Config, s: Ledger, ts: int, symbol: string, rate: real, at: Option<real>)
    requires Inv(c, s)
    ensures ApplyFunding(c, s, ts, symbol, rate, at).outcome.Ok?
       <==> Timely(c, s, ts) && (Flat(s, symbol) || CanSettle(c, s, symbol, rate, SettlementMark(s, symbol, at)))
  {
    FlatExactly(s, symbol);
    TouchKeeps(c, s, ts);
    var s1, mark := Touch(c, s, ts).ledger, SettlementMark(s, symbol, at);
    assert OpenSides(s1, symbol) == OpenSides(s, symbol);
    if Timely(c, s, ts) && !Flat(s, symbol) && mark.Some? {
      SettlementIsAcceptedExactly(c, s1, ts, symbol, mark.value, rate);
    }
  }

  lemma SettlementIsAcceptedExactly(c: Config, s: Ledger, ts: int, symbol: string, mark: real, rate: real)
    requires Inv(c, s) && Current(c, s, ts)
    ensures SettleSides(c, s, ts, symbol, mark, rate).outcome.Ok?
       <==> mark >= 0.0 && !Bankrupts(c, s, -Times(Times(NetQuantity(s, symbol), mark), rate))
  {
    var sides := OpenSides(s, symbol);
    forall side ensures side in sides <==> Key(symbol, side) in s.positions { OpenSidesAreOpen(s, symbol, side); }
    OpenSidesAddUp(s, symbol);
    SidesSettle(s, ts, symbol, sides, mark, rate);
    FundSidesKeep(c, s, ts, symbol, sides, mark, rate);
    CheckWalletKeeps(c, FundSides(s, ts, symbol, sides, mark, rate), false);
    SidesLeaveTheFlag(s, ts, symbol, sides, mark, rate);
  }

  lemma {:induction false} SidesLeaveTheFlag(s: Ledger, ts: int, symbol: string, sides: seq<PositionSide>, mark: real, rate: real)
    ensures FundSides(s, ts, symbol, sides, mark, rate).wasNegative == s.wasNegative
  {
    if sides != [] { SidesLeaveTheFlag(s, ts, symbol, sides[..|sides| - 1], mark, rate); }
  }

  /** A mark is accepted exactly when it is positive and not stale, and moves nothing else. */
  lemma MarkIsAcceptedExactly(c: Config, s: Ledger, ts: int, symbol: string, price: real)
    requires Inv(c, s)
    ensures var d := UpdateMark(c, s, ts, symbol, price);
            && (d.outcome.Ok? <==> price > 0.0 && Timely(c, s, ts))
            && d.ledger.marks == (if d.outcome.Ok? then s.marks[symbol := price] else s.marks)
            && d.ledger.positions == s.positions && d.ledger.wallet == s.wallet && d.ledger.leverages == s.leverages
  {
    TouchKeeps(c, s, ts);
    if price > 0.0 && Timely(c, s, ts) { MarkedHolds(c, Touch(c, s, ts).ledger, symbol, price); }
  }

  lemma {:induction false} TopLeverageIsTheGreatest(t: BracketTable, leverage: int)
    requires |t| > 0
    ensures leverage <= TopLeverage(t) <==> exists i :: 0 <= i < |t| && leverage <= t[i].maxLeverage
  {
    if |t| > 1 {
      TopLeverageIsTheGreatest(t[..|t| - 1], leverage);
      if leverage <= TopLeverage(t[..|t| - 1]) {
        var i :| 0 <= i < |t| - 1 && leverage <= t[..|t| - 1][i].maxLeverage;
        assert leverage <= t[i].maxLeverage;
      }
      if exists i :: 0 <= i < |t| && leverage <= t[i].maxLeverage {
        var i :| 0 <= i < |t| && leverage <= t[i].maxLeverage;
        assert i < |t| - 1 ==> t[..|t| - 1][i] == t[i];
      }
    } else {
      assert leverage <= t[0].maxLeverage <==> leverage <= TopLeverage(t);
    }
  }

  /** A leverage is accepted exactly while the symbol is flat and some tier of its table, if
      it has one, allows it. */
  lemma LeverageIsAcceptedExactly(c: Config, s: Ledger, symbol: string, leverage: int)
    requires ConfigBuilds(c)
    ensures var d := SetLeverage(c, s, symbol, leverage);
            && (d.outcome.Ok? <==>
                  && leverage >= 1 && Flat(s, symbol)
                  && (symbol in c.brackets ==>
                        exists i :: 0 <= i < |c.brackets[symbol]| && leverage <= c.brackets[symbol][i].maxLeverage))
            && d.ledger == s.(leverages := if d.outcome.Ok? then s.leverages[symbol := leverage] else s.leverages)
  {
    FlatExactly(s, symbol);
    if symbol in c.brackets {
      assert Contiguous(c.brackets[symbol]);
      TopLeverageIsTheGreatest(c.brackets[symbol], leverage);
    }
  }

  // ---------------------------------------------------------------- transfers of margin

  /** What an accepted transfer leaves: the margin added to one position, and nothing else
      of the money. */
  ghost predicate Transferred(s: Ledger, s': Ledger, k: Key, amount: real)
    requires k in s.positions
  {
    && s'.positions == s.positions[k := s.positions[k].(extra := s.positions[k].extra + amount)]
    && s'.wallet == s.wallet && s'.marks == s.marks && s'.leverages == s.leverages
    && s'.realized == s.realized && s'.fees == s.fees && s'.funding == s.funding
  }

  /** Enough is available, and the allocation is not below zero. */
  ghost predicate CanAdd(c: Config, s: Ledger, k: Key, amount: real)
  {
    && k in s.positions && s.positions[k].leverage >= 1
    && (c.enforceMargin ==> amount <= Available(s) && s.positions[k].IsolatedMargin() >= 0.0)
  }

  lemma AdditionIsAcceptedExactly(c: Config, s: Ledger, ts: int, symbol: string, amount: real, side: Option<PositionSide>)
    requires Inv(c, s)
    ensures AddMargin(c, s, ts, symbol, amount, side).outcome.Ok?
       <==> amount > 0.0 && Timely(c, s, ts) && exists k :: MeantFor(c, symbol, side, k) && CanAdd(c, s, k, amount)
    ensures AddMargin(c, s, ts, symbol, amount, side).outcome.Ok? ==>
              forall k :: MeantFor(c, symbol, side, k) ==>
                k in s.positions && Transferred(s, AddMargin(c, s, ts, symbol, amount, side).ledger, k, amount)
    ensures AddMargin(c, s, ts, symbol, amount, side).outcome.Raised? ==> AddMargin(c, s, ts, symbol, amount, side).ledger == s
  {
    SideIsResolvedExactly(c, symbol, side);
    if ResolveSide(c, side).Ok? {
      var k := Key(symbol, ResolveSide(c, side).value);
      if k in s.positions {
        assert PositionBuilds(k.side, s.positions[k]);
        assert CanAdd(c, s, k, amount) <==> !AdditionRefused(c, s, s.positions[k], amount);
      }
    }
  }

  /** No more than was added, and the probe finds nothing against it. */
  ghost predicate CanRemove(c: Config, s: Ledger, k: Key, amount: real)
  {
    k in s.positions && amount <= s.positions[k].extra && RemovalRefused(c, s, k, amount) == None
  }

  lemma RemovalIsAcceptedExactly(c: Config, s: Ledger, ts: int, symbol: string, amount: real, side: Option<PositionSide>)
    requires Inv(c, s)
    ensures RemoveMargin(c, s, ts, symbol, amount, side).outcome.Ok?
       <==> amount > 0.0 && Timely(c, s, ts) && exists k :: MeantFor(c, symbol, side, k) && CanRemove(c, s, k, amount)
    ensures RemoveMargin(c, s, ts, symbol, amount, side).outcome.Ok? ==>
              forall k :: MeantFor(c, symbol, side, k) ==>
                k in s.positions && Transferred(s, RemoveMargin(c, s, ts, symbol, amount, side).ledger, k, -amount)
    ensures RemoveMargin(c, s, ts, symbol, amount, side).outcome.Raised? ==> RemoveMargin(c, s, ts, symbol, amount, side).ledger == s
  {
    SideIsResolvedExactly(c, symbol, side);
  }

  /** A transfer into or out of an allocation that is not below zero, before or after, is
      taken from or returned to the available balance, to a quantum. */
  lemma TransfersMoveTheAvailableBalance(c: Config, s: Ledger, s': Ledger, k: Key, amount: real)
    requires Inv(c, s) && k in s.positions && s.positions[k].leverage >= 1 && Transferred(s, s', k, amount)
    requires s.positions[k].IsolatedMargin() >= 0.0 && s'.positions[k].IsolatedMargin() >= 0.0
    ensures Near(Available(s) - Available(s'), amount, QUANTUM)
  {
    var p, p' := s.positions[k], s'.positions[k];
    AvailableMoves(s, s', k);
    QuantizeError(p.BaseMargin() + p.extra + p.funding);
    QuantizeError(p'.BaseMargin() + p'.extra + p'.funding);
  }
}
