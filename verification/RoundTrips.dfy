/** What each round-trip of a run has seen: what its legs realised against what they paid and
    received, and the samples its excursions come from. */
module RoundTrips {
  import opened Money
  import opened Wrappers
  import opened Liquidation
  import opened Positions
  import opened Ledger
  import opened LedgerInvariant
  import opened LedgerRuns
  import opened TradeBook
  import opened FillValue
  import opened Session

  // --------------------------------------------------------------------- the history

  /** A round-trip's life: the sizes its increases left it with, summed, and the running
      totals its samples saw. */
  datatype Life = Life(grown: real, totals: set<real>)

  const Newborn := Life(0.0, {})

  /** A round-trip that ended: its record as it last stood, and its life. */
  datatype Ended = Ended(key: Key, ts: int, reason: CloseReason, last: Open, life: Life)

  datatype History = History(live: map<Key, Life>, ended: seq<Ended>) {
    function LifeOf(k: Key): Life
    {
      if k in live then live[k] else Newborn
    }

    function Put(k: Key, life: Life): History
    {
      History(live[k := life], ended)
    }

    function End(k: Key, ts: int, reason: CloseReason, last: Open): History
    {
      History(live - {k}, ended + [Ended(k, ts, reason, last, LifeOf(k))])
    }
  }

  function WatchFill(h: History, b: Book, n: FillNote): History
  {
    if Sign(n.before) == 0 then h.Put(n.key, Newborn)
    else if Sign(n.qty) == Sign(n.before) then
      var life := h.LifeOf(n.key);
      h.Put(n.key, life.(grown := life.grown + Abs(n.after)))
    else
      var left :=
        if n.after == 0.0 || Sign(n.after) != Sign(n.before) then h.End(n.key, n.ts, SIGNAL, Struck(b, n).open[n.key]) else h;
      if Abs(n.qty) - ClosedQty(n) > 0.0 then left.Put(n.key, Newborn) else left
  }

  function WatchLiquidation(h: History, b: Book, ts: int, r: LiquidationResult): History
  {
    if r.key !in b.open then h
    else h.End(r.key, ts, LIQUIDATED, Closing(b.open[r.key], Abs(r.closedQty), r.trigger, 0.0, r.realized))
  }

  function WatchLiquidations(h: History, b: Book, ts: int, results: seq<LiquidationResult>): History
  {
    if results == [] then h
    else
      var front := results[..|results| - 1];
      WatchLiquidation(WatchLiquidations(h, b, ts, front), NoteLiquidations(b, ts, front), ts, results[|results| - 1])
  }

  function Seen(life: Life, total: real): Life
  {
    Life(life.grown, life.totals + {total})
  }

  function WatchPrice(h: History, b: Book, k: Key, unrealized: real): History
  {
    if k !in b.open then h else h.Put(k, Seen(h.LifeOf(k), b.open[k].Running() + unrealized))
  }

  function WatchPrices(h: History, b: Book, k: Key, p: Position, prices: seq<real>): History
  {
    if prices == [] then h
    else
      var front := prices[..|prices| - 1];
      WatchPrice(WatchPrices(h, b, k, p, front), NotePrices(b, k, p, front), k, p.UnrealizedPnl(prices[|prices| - 1]))
  }

  function WatchMarks(h: History, s: Ledger, b: Book, order: seq<Key>, ranges: map<string, Range>): History
  {
    if order == [] then h
    else
      var front, k := order[..|order| - 1], order[|order| - 1];
      var h' := WatchMarks(h, s, b, front, ranges);
      if k in s.positions && k.symbol in s.marks then
        WatchPrices(h', NoteMarks(s, b, front, ranges), k, s.positions[k], Prices(ranges, k.symbol, s.marks[k.symbol]))
      else h'
  }

  ghost function Watch(c: Config, h: History, x: Session, op: SessionOp): History
    requires ConfigBuilds(c)
  {
    var s, b := x.ledger, x.book;
    match op
    case Sample(order, ranges) => WatchMarks(h, s, b, order, ranges)
    case Apply(DoFill(f)) =>
      var d := ApplyFill(c, s, f);
      if d.outcome.Raised? then h else WatchFill(h, b, NoteOf(s, d.ledger, f, d.outcome.value))
    case Apply(DoLiquidations(ts, order)) =>
      var d := CheckLiquidations(c, s, ts, order);
      if d.outcome.Raised? then h else WatchLiquidations(h, b, ts, d.outcome.value)
    case Apply(other) => h
  }

  /** The history of the round-trips of a run. */
  ghost function HistoryOf(c: Config, ops: seq<SessionOp>): History
    requires ConfigBuilds(c)
  {
    if ops == [] then History(map[], [])
    else
      var front := ops[..|ops| - 1];
      if RunBoth(c, front).aborted then HistoryOf(c, front)
      else Watch(c, HistoryOf(c, front), RunBoth(c, front), ops[|ops| - 1])
  }

  // ------------------------------------------------------------- what the history tells

  /** What the legs paid and received: closing less opening notional for a long, the other
      way round for a short. */
  function Received(o: Open): real
  {
    if o.long then o.closeNotional - o.openNotional else o.openNotional - o.closeNotional
  }

  /** Realised PnL is what was received plus the cost still held, within half a quantum
      times the sizes the increases left. */
  predicate Balanced(o: Open, cost: real, grown: real)
  {
    -Times(grown, HALF_QUANTUM) <= o.realized - (Received(o) + cost) <= Times(grown, HALF_QUANTUM)
  }

  predicate IsLeast(x: real, totals: set<real>)
  {
    x in totals && forall y :: y in totals ==> x <= y
  }

  predicate IsGreatest(x: real, totals: set<real>)
  {
    x in totals && forall y :: y in totals ==> y <= x
  }

  /** The excursions on record are the extremes of the totals sampled. */
  predicate Sampled(o: Open, totals: set<real>)
  {
    if totals == {} then o.mae == None && o.mfe == None
    else o.mae.Some? && o.mfe.Some? && IsLeast(o.mae.value, totals) && IsGreatest(o.mfe.value, totals)
  }

  /** An open round-trip, the position it stands for and its life. */
  predicate Fits(o: Open, p: Position, life: Life)
  {
    match life
    case Life(grown, totals) =>
      && p.qty != 0.0 && (o.long <==> p.qty > 0.0)
      && Balanced(o, Times(p.qty, p.entry), grown)
      && Sampled(o, totals)
  }

  /** A finished trade is the rendering of its last record, of which the life tells. */
  predicate Recorded(trade: Trade, index: nat, e: Ended)
  {
    && trade == Render(e.last, e.key, Some(e.ts), e.reason, index)
    && Sampled(e.last, e.life.totals)
    && (e.reason == SIGNAL ==> Balanced(e.last, 0.0, e.life.grown))
  }

  ghost predicate LivesFit(positions: map<Key, Position>, open: map<Key, Open>, live: map<Key, Life>)
  {
    && live.Keys == open.Keys == positions.Keys
    && forall k :: k in positions ==> Fits(open[k], positions[k], live[k])
  }

  ghost predicate AllRecorded(trades: seq<Trade>, ended: seq<Ended>)
  {
    |ended| == |trades| && forall i :: 0 <= i < |trades| ==> Recorded(trades[i], i, ended[i])
  }

  ghost predicate Told(positions: map<Key, Position>, b: Book, h: History)
  {
    LivesFit(positions, b.open, h.live) && AllRecorded(b.trades, h.ended)
  }

  lemma PutFits(positions: map<Key, Position>, positions': map<Key, Position>, open: map<Key, Open>, live: map<Key, Life>,
                k: Key, o: Open, life: Life)
    requires LivesFit(positions, open, live) && k in positions' && positions' - {k} == positions - {k}
    requires Fits(o, positions'[k], life)
    ensures LivesFit(positions', open[k := o], live[k := life])
  {
    forall j | j != k
      ensures j in positions' <==> j in positions
      ensures j in positions ==> positions'[j] == positions[j]
    {
      assert j in positions' <==> j in positions' - {k};
      assert j in positions <==> j in positions - {k};
      if j in positions { assert (positions - {k})[j] == (positions' - {k})[j]; }
    }
  }

  lemma PutIsTold(positions: map<Key, Position>, positions': map<Key, Position>, b: Book, b': Book, h: History, h': History,
                  k: Key, o: Open, life: Life)
    requires Told(positions, b, h) && k in positions' && positions' - {k} == positions - {k}
    requires Fits(o, positions'[k], life)
    requires b'.open == b.open[k := o] && b'.trades == b.trades && h' == h.Put(k, life)
    ensures Told(positions', b', h')
  {
    PutFits(positions, positions', b.open, h.live, k, o, life);
  }

  lemma KeptLife(h: History, k: Key)
    requires k in h.live
    ensures h == h.Put(k, h.live[k])
  {
    assert h.live == h.live[k := h.live[k]];
  }

  lemma EndIsTold(positions: map<Key, Position>, b: Book, h: History, k: Key, ts: int, reason: CloseReason, o: Open)
    requires Told(positions, b, h) && k in positions
    requires Sampled(o, h.live[k].totals) && (reason == SIGNAL ==> Balanced(o, 0.0, h.live[k].grown))
    ensures Told(positions - {k}, Finish(b.(open := b.open[k := o]), k, Some(ts), reason), h.End(k, ts, reason, o))
  {
  }

  // --------------------------------------------------------------------------- one leg

  lemma OpeningBalances(ts: int, qty: real, price: real, fee: real, after: real)
    requires qty != 0.0
    ensures var o := Opening(Started(ts, Sign(qty)), Abs(qty), price, fee, after);
            Balanced(o, Times(qty, price), 0.0) && Sampled(o, {})
  {
    SignTimesAbs(qty);
    TimesLinear(qty, -qty, price);
  }

  lemma GrowingBalances(o: Open, p: Position, grown: real, qty: real, price: real, fee: real, after: real)
    requires p.qty != 0.0 && (o.long <==> p.qty > 0.0) && Sign(qty) == Sign(p.qty)
    requires Balanced(o, Times(p.qty, p.entry), grown)
    ensures Balanced(Opening(o, Abs(qty), price, fee, after),
                     Times(p.qty + qty, WeightedEntry(p.qty, p.entry, qty, price)), grown + Abs(p.qty + qty))
  {
    IncreaseValue(p.qty, p.entry, qty, price);
    TimesLinear(qty, -qty, price);
    TimesLinear(grown, Abs(p.qty + qty), HALF_QUANTUM);
  }

  lemma ClosingBalances(o: Open, p: Position, grown: real, qty: real, price: real, fee: real)
    requires p.qty != 0.0 && (o.long <==> p.qty > 0.0) && qty != 0.0 && Sign(qty) != Sign(p.qty)
    requires Balanced(o, Times(p.qty, p.entry), grown)
    ensures Balanced(Closing(o, Abs(qty), price, fee, Times(Times(Sign(p.qty) as real, Abs(qty)), price - p.entry)),
                     Times(p.qty + qty, p.entry), grown)
  {
    assert Times(Sign(p.qty) as real, Abs(qty)) == -qty;
    TimesLinear(-qty, price, p.entry);
    TimesLinear(qty, -qty, price);
    TimesLinear(qty, -qty, p.entry);
    TimesLinear(p.qty, qty, p.entry);
  }

  // -------------------------------------------------------------------------- one fill

  function HeldAt(positions: map<Key, Position>, k: Key): Option<Position>
  {
    if k in positions then Some(positions[k]) else None
  }

  /** The note says what the three cases did to the side it names. */
  ghost predicate Notes(n: FillNote, positions: map<Key, Position>, positions': map<Key, Position>, leverage: int)
  {
    var held := HeldAt(positions, n.key);
    && n.qty != 0.0
    && n.before == (if held.Some? then held.value.qty else 0.0)
    && ThreeCases(held, n.key.side, n.qty, n.price).Ok?
    && var booked := ThreeCases(held, n.key.side, n.qty, n.price).value;
    && n.after == booked.qty && n.realized == booked.realized
    && positions' == WithPosition(positions, n.key, After(booked, leverage))
  }

  lemma OpeningIsTold(positions: map<Key, Position>, positions': map<Key, Position>, b: Book, h: History, n: FillNote, leverage: int)
    requires Told(positions, b, h) && Notes(n, positions, positions', leverage) && n.key !in positions
    ensures Told(positions', NoteFill(b, n), WatchFill(h, b, n))
  {
    var o := Opening(Started(n.ts, Sign(n.qty)), Abs(n.qty), n.price, n.fee, n.after);
    OpeningBalances(n.ts, n.qty, n.price, n.fee, n.after);
    assert positions'[n.key].qty == n.qty && positions'[n.key].entry == n.price;
    PutIsTold(positions, positions', b, NoteFill(b, n), h, WatchFill(h, b, n), n.key, o, Newborn);
  }

  lemma GrowingIsTold(positions: map<Key, Position>, positions': map<Key, Position>, b: Book, h: History, n: FillNote, leverage: int)
    requires Told(positions, b, h) && Notes(n, positions, positions', leverage)
    requires n.key in positions && Sign(n.qty) == Sign(n.before)
    ensures Told(positions', NoteFill(b, n), WatchFill(h, b, n))
  {
    var o, p, life := b.open[n.key], positions[n.key], h.live[n.key];
    assert Fits(o, p, life);
    GrowingBalances(o, p, life.grown, n.qty, n.price, n.fee, n.after);
    assert positions'[n.key].entry == WeightedEntry(p.qty, p.entry, n.qty, n.price);
    PutIsTold(positions, positions', b, NoteFill(b, n), h, WatchFill(h, b, n), n.key,
              Opening(o, Abs(n.qty), n.price, n.fee, n.after), life.(grown := life.grown + Abs(n.after)));
  }

  lemma ReducingIsTold(positions: map<Key, Position>, positions': map<Key, Position>, b: Book, h: History, n: FillNote, leverage: int)
    requires Told(positions, b, h) && Notes(n, positions, positions', leverage)
    requires n.key in positions && Sign(n.qty) != Sign(n.before) && Abs(n.qty) <= Abs(n.before)
    ensures Told(positions', NoteFill(b, n), WatchFill(h, b, n))
  {
    var o, p, life := b.open[n.key], positions[n.key], h.live[n.key];
    assert Fits(o, p, life);
    ClosingBalances(o, p, life.grown, n.qty, n.price, n.fee);
    var o' := Closing(o, Abs(n.qty), n.price, n.fee, n.realized);
    assert Struck(b, n) == b.(open := b.open[n.key := o']);
    if n.after == 0.0 {
      assert positions' == positions - {n.key};
      EndIsTold(positions, b, h, n.key, n.ts, SIGNAL, o');
    } else {
      assert positions'[n.key].qty == n.after && positions'[n.key].entry == p.entry;
      KeptLife(h, n.key);
      PutIsTold(positions, positions', b, NoteFill(b, n), h, WatchFill(h, b, n), n.key, o', life);
    }
  }

  /** The closing half of a flip ends the round-trip. */
  lemma FlipEndsTheTrip(positions: map<Key, Position>, b: Book, h: History, n: FillNote)
    requires Told(positions, b, h) && n.key in positions && n.before == positions[n.key].qty
    requires Sign(n.qty) != Sign(n.before) && Abs(n.qty) > Abs(n.before) && n.after == n.before + n.qty
    requires n.realized == Times(Times(Sign(n.before) as real, Abs(n.before)), n.price - positions[n.key].entry)
    ensures Told(positions - {n.key}, Reduced(b, n), h.End(n.key, n.ts, SIGNAL, Struck(b, n).open[n.key]))
  {
    var o, p, life := b.open[n.key], positions[n.key], h.live[n.key];
    assert Fits(o, p, life);
    ClosingBalances(o, p, life.grown, -n.before, n.price, ClosingFee(n));
    var o' := Closing(o, ClosedQty(n), n.price, ClosingFee(n), n.realized);
    assert Struck(b, n) == b.(open := b.open[n.key := o']);
    EndIsTold(positions, b, h, n.key, n.ts, SIGNAL, o');
  }

  lemma ResidualFits(n: FillNote, p: Position)
    requires n.after == n.before + n.qty && n.after != 0.0 && Sign(n.qty) != Sign(n.before) && Abs(n.qty) > Abs(n.before)
    requires p.qty == n.after && p.entry == n.price
    ensures Fits(Residual(n), p, Newborn)
  {
    OpeningBalances(n.ts, n.after, n.price, n.fee - ClosingFee(n), n.after);
  }

  lemma FlippingIsTold(positions: map<Key, Position>, positions': map<Key, Position>, b: Book, h: History, n: FillNote, leverage: int)
    requires Told(positions, b, h) && Notes(n, positions, positions', leverage)
    requires n.key in positions && Sign(n.qty) != Sign(n.before) && Abs(n.qty) > Abs(n.before)
    ensures Told(positions', NoteFill(b, n), WatchFill(h, b, n))
  {
    assert Fits(b.open[n.key], positions[n.key], h.live[n.key]);
    FlipEndsTheTrip(positions, b, h, n);
    ResidualFits(n, positions'[n.key]);
    PutIsTold(positions - {n.key}, positions', Reduced(b, n), NoteFill(b, n),
              h.End(n.key, n.ts, SIGNAL, Struck(b, n).open[n.key]), WatchFill(h, b, n), n.key, Residual(n), Newborn);
  }

  lemma NotedFillIsTold(positions: map<Key, Position>, positions': map<Key, Position>, b: Book, h: History, n: FillNote, leverage: int)
    requires Told(positions, b, h) && Notes(n, positions, positions', leverage)
    ensures Told(positions', NoteFill(b, n), WatchFill(h, b, n))
  {
    if n.key !in positions {
      OpeningIsTold(positions, positions', b, h, n, leverage);
    } else {
      assert Fits(b.open[n.key], positions[n.key], h.live[n.key]);
      if Sign(n.qty) == Sign(n.before) {
        GrowingIsTold(positions, positions', b, h, n, leverage);
      } else if Abs(n.qty) <= Abs(n.before) {
        ReducingIsTold(positions, positions', b, h, n, leverage);
      } else {
        FlippingIsTold(positions, positions', b, h, n, leverage);
      }
    }
  }

  lemma FillIsTold(c: Config, s: Ledger, b: Book, h: History, f: Fill)
    requires ConfigBuilds(c) && Inv(c, s) && Told(s.positions, b, h) && ApplyFill(c, s, f).outcome.Ok?
    ensures var d := ApplyFill(c, s, f);
            var n := NoteOf(s, d.ledger, f, d.outcome.value);
            Told(d.ledger.positions, NoteFill(b, n), WatchFill(h, b, n))
  {
    AcceptedFill(c, s, f);
    AcceptedFillMeans(c, s, f);
    var d, k := ApplyFill(c, s, f), Key(f.symbol, ResolveSide(c, f.side).value);
    NotedFillIsTold(s.positions, d.ledger.positions, b, h, NoteOf(s, d.ledger, f, d.outcome.value), LeverageFor(s, k));
  }

  // ------------------------------------------------------------------- the other steps

  /** Quantities and entries are all the history looks at. */
  lemma SamePositionsAreTold(positions: map<Key, Position>, positions': map<Key, Position>, b: Book, h: History)
    requires Told(positions, b, h) && positions'.Keys == positions.Keys
    requires forall k :: k in positions ==> positions'[k].qty == positions[k].qty && positions'[k].entry == positions[k].entry
    ensures Told(positions', b, h)
  {
  }

  lemma MarkedFits(o: Open, p: Position, life: Life, price: real, unrealized: real)
    requires Fits(o, p, life)
    ensures Fits(Marked(o, price, unrealized), p, Seen(life, o.Running() + unrealized))
  {
  }

  lemma OpenPriceIsTold(positions: map<Key, Position>, b: Book, h: History, k: Key, price: real, unrealized: real)
    requires Told(positions, b, h) && k in b.open
    ensures Told(positions, NoteMark(b, k, price, unrealized), WatchPrice(h, b, k, unrealized))
  {
    var o, life := b.open[k], h.LifeOf(k);
    assert Fits(o, positions[k], life);
    MarkedFits(o, positions[k], life, price, unrealized);
    var o', life' := Marked(o, price, unrealized), Seen(life, o.Running() + unrealized);
    var b', h' := NoteMark(b, k, price, unrealized), WatchPrice(h, b, k, unrealized);
    assert b'.open == b.open[k := o'] && b'.trades == b.trades && h' == h.Put(k, life');
    PutIsTold(positions, positions, b, b', h, h', k, o', life');
  }

  lemma PriceIsTold(positions: map<Key, Position>, b: Book, h: History, k: Key, price: real, unrealized: real)
    requires Told(positions, b, h)
    ensures Told(positions, NoteMark(b, k, price, unrealized), WatchPrice(h, b, k, unrealized))
  {
    if k in b.open { OpenPriceIsTold(positions, b, h, k, price, unrealized); }
  }

  lemma {:induction false} PricesAreTold(positions: map<Key, Position>, b: Book, h: History, k: Key, p: Position, prices: seq<real>)
    requires Told(positions, b, h)
    ensures Told(positions, NotePrices(b, k, p, prices), WatchPrices(h, b, k, p, prices))
  {
    if prices != [] {
      var front := prices[..|prices| - 1];
      PricesAreTold(positions, b, h, k, p, front);
      PriceIsTold(positions, NotePrices(b, k, p, front), WatchPrices(h, b, k, p, front), k, prices[|prices| - 1],
                  p.UnrealizedPnl(prices[|prices| - 1]));
    }
  }

  lemma {:induction false} MarksAreTold(s: Ledger, b: Book, h: History, order: seq<Key>, ranges: map<string, Range>)
    requires Told(s.positions, b, h)
    ensures Told(s.positions, NoteMarks(s, b, order, ranges), WatchMarks(h, s, b, order, ranges))
  {
    if order != [] {
      var front, k := order[..|order| - 1], order[|order| - 1];
      MarksAreTold(s, b, h, front, ranges);
      if k in s.positions && k.symbol in s.marks {
        PricesAreTold(s.positions, NoteMarks(s, b, front, ranges), WatchMarks(h, s, b, front, ranges), k, s.positions[k],
                      Prices(ranges, k.symbol, s.marks[k.symbol]));
      }
    }
  }

  lemma FundedFits(o: Open, p: Position, life: Life, flow: real)
    requires Fits(o, p, life)
    ensures Fits(o.(funding := o.funding + flow), p, life)
  {
  }

  lemma FundedTradeIsTold(positions: map<Key, Position>, b: Book, h: History, k: Key, flow: real)
    requires Told(positions, b, h)
    ensures Told(positions, NoteFunding(b, k, flow), h)
  {
    if k in b.open {
      assert Fits(b.open[k], positions[k], h.live[k]);
      FundedFits(b.open[k], positions[k], h.live[k], flow);
      KeptLife(h, k);
      PutIsTold(positions, positions, b, NoteFunding(b, k, flow), h, h, k,
                b.open[k].(funding := b.open[k].funding + flow), h.live[k]);
    }
  }

  lemma {:induction false} FundedTradesAreTold(positions: map<Key, Position>, b: Book, h: History, symbol: string,
                                              sides: seq<PositionSide>, settled: map<PositionSide, real>)
    requires Told(positions, b, h)
    ensures Told(positions, NoteFundings(b, symbol, sides, settled), h)
  {
    if sides != [] {
      var front, side := sides[..|sides| - 1], sides[|sides| - 1];
      FundedTradesAreTold(positions, b, h, symbol, front, settled);
      if side in settled && settled[side] != 0.0 {
        FundedTradeIsTold(positions, NoteFundings(b, symbol, front, settled), h, Key(symbol, side), settled[side]);
      }
    }
  }

  lemma {:induction false} FundingKeepsTheEntries(s: Ledger, ts: int, symbol: string, sides: seq<PositionSide>, mark: real, rate: real)
    ensures SameHoldings(s, FundSides(s, ts, symbol, sides, mark, rate))
  {
    if sides != [] { FundingKeepsTheEntries(s, ts, symbol, sides[..|sides| - 1], mark, rate); }
  }

  predicate SameHoldings(s: Ledger, s': Ledger)
  {
    && s'.positions.Keys == s.positions.Keys
    && forall k :: k in s.positions ==>
         s'.positions[k].qty == s.positions[k].qty && s'.positions[k].entry == s.positions[k].entry
  }

  lemma SettlementHoldsTheSame(c: Config, s: Ledger, ts: int, symbol: string, mark: real, rate: real)
    ensures SameHoldings(s, SettleSides(c, s, ts, symbol, mark, rate).ledger)
  {
    var funded := FundSides(s, ts, symbol, OpenSides(s, symbol), mark, rate);
    FundingKeepsTheEntries(s, ts, symbol, OpenSides(s, symbol), mark, rate);
    FlagOnly(c, funded, false);
  }

  lemma FundingHoldsTheSame(c: Config, s: Ledger, ts: int, symbol: string, rate: real, at: Option<real>)
    ensures SameHoldings(s, ApplyFunding(c, s, ts, symbol, rate, at).ledger)
  {
    var s1 := Touch(c, s, ts).ledger;
    assert s1.positions == s.positions;
    if at.Some? || symbol in s.marks {
      SettlementHoldsTheSame(c, s1, ts, symbol, if at.Some? then at.value else s.marks[symbol], rate);
    }
  }

  lemma VisitIsTold(c: Config, s: Ledger, b: Book, h: History, ts: int, k: Key)
    requires Told(s.positions, b, h) && VisitSide(c, s, ts, k).outcome.Ok?
    ensures var d := VisitSide(c, s, ts, k);
            if d.outcome.value == None then d.ledger == s
            else var r := d.outcome.value.value;
                 Told(d.ledger.positions, NoteLiquidation(b, ts, r.key, r.closedQty, r.trigger, r.realized),
                      WatchLiquidation(h, b, ts, r))
  {
    VisitedSide(c, s, ts, k);
    var d := VisitSide(c, s, ts, k);
    if d.outcome.value.Some? {
      var r := d.outcome.value.value;
      assert Fits(b.open[k], s.positions[k], h.live[k]);
      EndIsTold(s.positions, b, h, k, ts, LIQUIDATED, Closing(b.open[k], Abs(r.closedQty), r.trigger, 0.0, r.realized));
    }
  }

  lemma {:induction false} VisitsAreTold(c: Config, s: Ledger, b: Book, h: History, ts: int, order: seq<Key>)
    requires Told(s.positions, b, h) && VisitSides(c, s, ts, order).outcome.Ok?
    ensures var d := VisitSides(c, s, ts, order);
            Told(d.ledger.positions, NoteLiquidations(b, ts, d.outcome.value), WatchLiquidations(h, b, ts, d.outcome.value))
  {
    if order != [] {
      var front := order[..|order| - 1];
      VisitsAreTold(c, s, b, h, ts, front);
      var d := VisitSides(c, s, ts, front);
      var results := d.outcome.value;
      VisitIsTold(c, d.ledger, NoteLiquidations(b, ts, results), WatchLiquidations(h, b, ts, results), ts, order[|order| - 1]);
      var last := VisitSide(c, d.ledger, ts, order[|order| - 1]).outcome.value;
      if last.Some? {
        assert (results + [last.value])[..|results|] == results;
      }
    }
  }

  lemma FundingIsTold(c: Config, s: Ledger, b: Book, h: History, ts: int, symbol: string, rate: real, at: Option<real>)
    requires Told(s.positions, b, h)
    ensures var d := ApplyFunding(c, s, ts, symbol, rate, at);
            && Told(d.ledger.positions, b, h)
            && (d.outcome.Ok? ==>
                  Told(d.ledger.positions, NoteFundings(b, symbol, OpenSides(s, symbol), d.outcome.value), h))
  {
    var d := ApplyFunding(c, s, ts, symbol, rate, at);
    FundingHoldsTheSame(c, s, ts, symbol, rate, at);
    SamePositionsAreTold(s.positions, d.ledger.positions, b, h);
    if d.outcome.Ok? { FundedTradesAreTold(d.ledger.positions, b, h, symbol, OpenSides(s, symbol), d.outcome.value); }
  }

  lemma LiquidationsAreTold(c: Config, s: Ledger, b: Book, h: History, ts: int, order: seq<Key>)
    requires Told(s.positions, b, h)
    ensures var d := CheckLiquidations(c, s, ts, order);
            if d.outcome.Ok? then
              Told(d.ledger.positions, NoteLiquidations(b, ts, d.outcome.value), WatchLiquidations(h, b, ts, d.outcome.value))
            else Fatal(d.outcome.error)
  {
    var s1 := Touch(c, s, ts).ledger;
    assert s1.positions == s.positions;
    if CheckLiquidations(c, s, ts, order).outcome.Ok? {
      VisitsAreTold(c, s1, b, h, ts, order);
    } else if Touch(c, s, ts).outcome.Ok? {
      SweepFailuresAreFatal(c, s1, ts, order);
    }
  }

  /** What one step of the session leaves is told, unless it aborted the run. */
  lemma WatchIsTold(c: Config, x: Session, h: History, op: SessionOp)
    requires ConfigBuilds(c) && Inv(c, x.ledger) && !x.aborted && Told(x.ledger.positions, x.book, h)
    ensures var x' := StepBoth(c, x, op); !x'.aborted ==> Told(x'.ledger.positions, x'.book, Watch(c, h, x, op))
  {
    var s, b := x.ledger, x.book;
    if op.Sample? {
      MarksAreTold(s, b, h, op.order, op.ranges);
    } else if op.op.DoFill? {
      var f := op.op.fill;
      if ApplyFill(c, s, f).outcome.Ok? { FillIsTold(c, s, b, h, f); } else { RefusedFillMovesOnlyTheClock(c, s, f); }
    } else if op.op.DoFunding? {
      FundingIsTold(c, s, b, h, op.op.ts, op.op.symbol, op.op.rate, op.op.at);
    } else if op.op.DoLiquidations? {
      LiquidationsAreTold(c, s, b, h, op.op.ts, op.op.order);
    } else {
      OtherStepsKeepTheStakes(c, s, op.op);
      SamePositionsAreTold(s.positions, Step(c, s, op.op).ledger.positions, b, h);
    }
  }

  // ------------------------------------------------------------------------- theorems

  lemma {:induction false} EveryRunIsTold(c: Config, ops: seq<SessionOp>)
    requires ConfigBuilds(c) && !RunBoth(c, ops).aborted
    ensures Told(RunBoth(c, ops).ledger.positions, RunBoth(c, ops).book, HistoryOf(c, ops))
  {
    if ops != [] {
      var front := ops[..|ops| - 1];
      EveryRunIsTold(c, front);
      EveryRunStaysInStep(c, front);
      WatchIsTold(c, RunBoth(c, front), HistoryOf(c, front), ops[|ops| - 1]);
    }
  }

  /** At all times what an open trade realised is its closing less its opening notional plus
      the cost still held, and what a trade closed by fills realised, a flip among them, is
      its closing less its opening notional: within 5e-9 times the summed sizes its
      increases left. */
  lemma FlatToFlatRealisesTheNotionals(c: Config, ops: seq<SessionOp>)
    requires ConfigBuilds(c) && !RunBoth(c, ops).aborted
    ensures var s, b, h := RunBoth(c, ops).ledger, RunBoth(c, ops).book, HistoryOf(c, ops);
            && |h.ended| == |b.trades| && b.open.Keys == s.positions.Keys == h.live.Keys
            && (forall k :: k in b.open ==>
                  Balanced(b.open[k], Times(s.positions[k].qty, s.positions[k].entry), h.live[k].grown))
            && (forall i :: 0 <= i < |b.trades| && b.trades[i].reason == SIGNAL ==>
                  && b.trades[i].realized == h.ended[i].last.realized
                  && Balanced(h.ended[i].last, 0.0, h.ended[i].life.grown))
  {
    EveryRunIsTold(c, ops);
    var s, b, h := RunBoth(c, ops).ledger, RunBoth(c, ops).book, HistoryOf(c, ops);
    forall k | k in b.open
      ensures Balanced(b.open[k], Times(s.positions[k].qty, s.positions[k].entry), h.live[k].grown)
    {
      assert Fits(b.open[k], s.positions[k], h.live[k]);
    }
    forall i | 0 <= i < |b.trades| && b.trades[i].reason == SIGNAL
      ensures b.trades[i].realized == h.ended[i].last.realized && Balanced(h.ended[i].last, 0.0, h.ended[i].life.grown)
    {
      assert Recorded(b.trades[i], i, h.ended[i]);
    }
  }

  lemma RecordedExtremes(trade: Trade, index: nat, e: Ended)
    requires Recorded(trade, index, e)
    ensures IsLeast(trade.mae, e.life.totals + {trade.NetPnl()}) && IsGreatest(trade.mfe, e.life.totals + {trade.NetPnl()})
  {
  }

  /** Every trade a run has finished reports as its worst point the least, and as its best
      the greatest, of the running totals sampled over its life and the one it ended on. */
  lemma ExcursionsAreTheExtremesSampled(c: Config, ops: seq<SessionOp>, i: nat)
    requires ConfigBuilds(c) && !RunBoth(c, ops).aborted && i < |RunBoth(c, ops).book.trades|
    ensures var trade, h := RunBoth(c, ops).book.trades[i], HistoryOf(c, ops);
            && i < |h.ended|
            && IsLeast(trade.mae, h.ended[i].life.totals + {trade.NetPnl()})
            && IsGreatest(trade.mfe, h.ended[i].life.totals + {trade.NetPnl()})
  {
    EveryRunIsTold(c, ops);
    RecordedExtremes(RunBoth(c, ops).book.trades[i], i, HistoryOf(c, ops).ended[i]);
  }
}
