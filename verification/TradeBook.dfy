/** The round-trip builder as a value, and each of its operations as a step on that value
    (perplab/analytics/trades.py). */
module TradeBook {
  import opened Money
  import opened Wrappers
  import opened Sums
  import opened Liquidation
  import opened Positions

  datatype CloseReason = SIGNAL | LIQUIDATED | STILL_OPEN

  /** A round-trip in progress. */
  datatype Open = Open(
    long: bool, entryMs: int, openQty: real, openNotional: real, closeQty: real, closeNotional: real, maxQty: real,
    realized: real, fees: real, funding: real, legs: nat,
    mae: Option<real>, mfe: Option<real>, maePrice: Option<real>, mfePrice: Option<real>)
  {
    /** What the round-trip has done to the balance so far. */
    function Running(): real
    {
      realized - fees + funding
    }
  }

  /** A completed, or still open, round-trip. */
  datatype Trade = Trade(
    index: nat, key: Key, long: bool, entryMs: int, exitMs: Option<int>, entryPrice: real, exitPrice: Option<real>,
    maxQty: real, realized: real, fees: real, funding: real, mae: real, mfe: real, maePrice: real, mfePrice: real,
    legs: nat, reason: CloseReason)
  {
    function NetPnl(): real
    {
      realized - fees + funding
    }
  }

  datatype Book = Book(
    trades: seq<Trade>,
    open: map<Key, Open>,
    closedNet: map<string, real>,
    unrealized: map<Key, real>)

  const Fresh := Book([], map[], map[], map[])

  // --------------------------------------------------------------------- internals

  function Started(ts: int, sign: int): Open
  {
    Open(sign > 0, ts, 0.0, 0.0, 0.0, 0.0, 0.0, 0.0, 0.0, 0.0, 0, None, None, None, None)
  }

  /** `_add_open_leg`, and the leg it counts as. */
  function Opening(o: Open, qty: real, price: real, fee: real, after: real): Open
  {
    o.(openQty := o.openQty + qty,
       openNotional := o.openNotional + Times(qty, price),
       fees := o.fees + fee,
       maxQty := if Abs(after) > o.maxQty then Abs(after) else o.maxQty,
       legs := o.legs + 1)
  }

  function Closing(o: Open, qty: real, price: real, fee: real, realized: real): Open
  {
    o.(closeQty := o.closeQty + qty,
       closeNotional := o.closeNotional + Times(qty, price),
       realized := o.realized + realized,
       fees := o.fees + fee,
       legs := o.legs + 1)
  }

  function Least(x: Option<real>, y: Option<real>): Option<real>
  {
    if x == None then y else if y == None || x.value <= y.value then x else y
  }

  function Greatest(x: Option<real>, y: Option<real>): Option<real>
  {
    if x == None then y else if y == None || x.value >= y.value then x else y
  }

  /** `_extreme`: the adverse or the favourable price extreme, the exit included. */
  function Extreme(o: Open, exit: Option<real>, adverse: bool): Option<real>
  {
    var recorded := if adverse then o.maePrice else o.mfePrice;
    if o.long == adverse then Least(recorded, exit) else Greatest(recorded, exit)
  }

  /** `x or fallback`: nothing and zero both fall back. */
  function OrElse(x: Option<real>, fallback: real): real
  {
    if x == None || x.value == 0.0 then fallback else x.value
  }

  function Average(notional: real, qty: real): Option<real>
  {
    if qty == 0.0 then None else Some(Quantize(notional / qty))
  }

  /** `_render`. */
  function Render(o: Open, k: Key, ts: Option<int>, reason: CloseReason, index: nat): Trade
  {
    var entry := OrElse(Average(o.openNotional, o.openQty), 0.0);
    var exit := Average(o.closeNotional, o.closeQty);
    Trade(index, k, o.long, o.entryMs, ts, entry, exit, o.maxQty, o.realized, o.fees, o.funding,
          Least(o.mae, Some(o.Running())).value, Greatest(o.mfe, Some(o.Running())).value,
          OrElse(Extreme(o, exit, true), entry), OrElse(Extreme(o, exit, false), entry), o.legs, reason)
  }

  function Filed(b: Book, k: Key, trade: Trade): Book
  {
    b.(trades := b.trades + [trade],
       open := b.open - {k},
       closedNet := b.closedNet[k.symbol := At(b.closedNet, k.symbol) + trade.NetPnl()],
       unrealized := b.unrealized - {k})
  }

  /** `_finish`. */
  function Finish(b: Book, k: Key, ts: Option<int>, reason: CloseReason): Book
  {
    if k !in b.open then b else Filed(b, k, Render(b.open[k], k, ts, reason, |b.trades|))
  }

  // -------------------------------------------------------------------- operations

  datatype FillNote = FillNote(ts: int, key: Key, qty: real, price: real, fee: real, realized: real, before: real, after: real)

  function ClosedQty(f: FillNote): real
  {
    if Abs(f.qty) <= Abs(f.before) then Abs(f.qty) else Abs(f.before)
  }

  /** The share of the commission the closing half carries. */
  function ClosingFee(f: FillNote): real
  {
    if Abs(f.qty) - ClosedQty(f) == 0.0 || Abs(f.qty) == 0.0 then f.fee
    else Quantize(Times(f.fee, ClosedQty(f)) / Abs(f.qty))
  }

  /** `fill`: the closing leg. */
  function Struck(b: Book, f: FillNote): Book
  {
    var o := if f.key in b.open then b.open[f.key] else Started(f.ts, Sign(f.before));
    b.(open := b.open[f.key := Closing(o, ClosedQty(f), f.price, ClosingFee(f), f.realized)])
  }

  /** `fill`: the reducing half, which may close the round-trip. */
  function Reduced(b: Book, f: FillNote): Book
  {
    if f.after == 0.0 || Sign(f.after) != Sign(f.before) then Finish(Struck(b, f), f.key, Some(f.ts), SIGNAL)
    else Struck(b, f)
  }

  /** `fill`: the reducing half, then the residual as a round-trip of its own. */
  function FillAgainst(b: Book, f: FillNote): Book
  {
    var finished := Reduced(b, f);
    if Abs(f.qty) - ClosedQty(f) > 0.0 then finished.(open := finished.open[f.key := Residual(f)]) else finished
  }

  /** The round-trip a flip opens. */
  function Residual(f: FillNote): Open
  {
    Opening(Started(f.ts, Sign(f.after)), Abs(f.qty) - ClosedQty(f), f.price, f.fee - ClosingFee(f), f.after)
  }

  /** `fill`. */
  function NoteFill(b: Book, f: FillNote): Book
  {
    if Sign(f.before) == 0 then
      b.(open := b.open[f.key := Opening(Started(f.ts, Sign(f.qty)), Abs(f.qty), f.price, f.fee, f.after)])
    else if Sign(f.qty) == Sign(f.before) then
      var o := if f.key in b.open then b.open[f.key] else Started(f.ts, Sign(f.before));
      b.(open := b.open[f.key := Opening(o, Abs(f.qty), f.price, f.fee, f.after)])
    else FillAgainst(b, f)
  }

  /** `liquidation`. */
  function NoteLiquidation(b: Book, ts: int, k: Key, closedQty: real, price: real, realized: real): Book
  {
    if k !in b.open then b
    else
      var o := Closing(b.open[k], Abs(closedQty), price, 0.0, realized);
      Finish(b.(open := b.open[k := o]), k, Some(ts), LIQUIDATED)
  }

  /** `funding`. */
  function NoteFunding(b: Book, k: Key, cashflow: real): Book
  {
    if k !in b.open then b
    else b.(open := b.open[k := b.open[k].(funding := b.open[k].funding + cashflow)])
  }

  function Marked(o: Open, price: real, unrealized: real): Open
  {
    var total := o.Running() + unrealized;
    var favourable := OrElse(o.mfePrice, price);
    o.(mae := Least(o.mae, Some(total)),
       mfe := Greatest(o.mfe, Some(total)),
       maePrice :=
         if o.maePrice == None then Some(price)
         else if o.long then Least(o.maePrice, Some(price)) else Greatest(o.maePrice, Some(price)),
       mfePrice :=
         if o.maePrice == None then Some(price)
         else if o.long then Greatest(Some(favourable), Some(price)) else Least(Some(favourable), Some(price)))
  }

  /** `mark`. */
  function NoteMark(b: Book, k: Key, price: real, unrealized: real): Book
  {
    if k !in b.open then b
    else b.(open := b.open[k := Marked(b.open[k], price, unrealized)], unrealized := b.unrealized[k := unrealized])
  }

  /** `snapshot`: the closed trades, then the open ones rendered in the order given. */
  function Snapshot(b: Book, order: seq<Key>): seq<Trade>
  {
    if order == [] then b.trades
    else
      var front := Snapshot(b, order[..|order| - 1]);
      var k := order[|order| - 1];
      if k in b.open then front + [Render(b.open[k], k, None, STILL_OPEN, |front|)] else front
  }

  /** The loop of `finish`, over the keys in the order given. */
  function FinishAll(b: Book, order: seq<Key>): Book
  {
    if order == [] then b
    else Finish(FinishAll(b, order[..|order| - 1]), order[|order| - 1], None, STILL_OPEN)
  }

  // -------------------------------------------------------------------- derived sums

  /** Running total of each open round-trip, without its unrealised PnL. */
  ghost function Runnings(open: map<Key, Open>): (m: map<Key, real>)
    ensures m.Keys == open.Keys
  {
    map k | k in open :: open[k].Running()
  }

  function NetOfTrades(trades: seq<Trade>): real
  {
    if trades == [] then 0.0 else NetOfTrades(trades[..|trades| - 1]) + trades[|trades| - 1].NetPnl()
  }

  function NetOfSymbol(trades: seq<Trade>, symbol: string): real
  {
    if trades == [] then 0.0
    else NetOfSymbol(trades[..|trades| - 1], symbol)
         + (if trades[|trades| - 1].key.symbol == symbol then trades[|trades| - 1].NetPnl() else 0.0)
  }

  // ---------------------------------------------------------------------- theorems

  /** The split fee of a flip is conserved and neither half is negative. */
  lemma SplitFeeIsConserved(f: FillNote)
    requires OnGrid(f.fee) && f.fee >= 0.0 && f.qty != 0.0
    ensures 0.0 <= ClosingFee(f) <= f.fee
    ensures OnGrid(ClosingFee(f)) && OnGrid(f.fee - ClosingFee(f))
  {
    var n, q := ClosedQty(f), Abs(f.qty);
    if q - n != 0.0 {
      ShareIsBounded(f.fee, n, q);
      QuantizeMonotone(0.0, Times(f.fee, n) / q);
      QuantizeMonotone(Times(f.fee, n) / q, f.fee);
      QuantizeFixpoint(0.0);
      QuantizeFixpoint(f.fee);
      QuantizeError(Times(f.fee, n) / q);
    }
    GridSum(f.fee, ClosingFee(f));
  }

  lemma ShareIsBounded(fee: real, n: real, q: real)
    requires fee >= 0.0 && 0.0 <= n <= q && q > 0.0
    ensures 0.0 <= Times(fee, n) / q <= fee
  {
    var r := Times(fee, n) / q;
    Quotient(Times(fee, n), q);
    TimesSign(fee, n);
    TimesSign(fee, q - n);
    TimesLinear(fee, q, n);
    TimesSymmetric(fee, q);
    TimesLinear(q, fee, r);
    TimesSymmetric(q, r);
    TimesSymmetric(q, fee - r);
    TimesSign(r, q);
    TimesSign(fee - r, q);
  }

  predicate NoRepeats(order: seq<Key>)
  {
    forall i, j :: 0 <= i < j < |order| ==> order[i] != order[j]
  }

  lemma {:induction false} FinishAllKeepsTheRest(b: Book, order: seq<Key>)
    ensures forall k :: k in FinishAll(b, order).open <==> k in b.open && k !in order
    ensures forall k :: k in FinishAll(b, order).open ==> FinishAll(b, order).open[k] == b.open[k]
  {
    if order != [] {
      FinishAllKeepsTheRest(b, order[..|order| - 1]);
      assert order == order[..|order| - 1] + [order[|order| - 1]];
    }
  }

  /** `snapshot` shows exactly what `finish` would return, any number of times. */
  lemma {:induction false} SnapshotIsWhatFinishWouldReturn(b: Book, order: seq<Key>)
    requires NoRepeats(order)
    ensures Snapshot(b, order) == FinishAll(b, order).trades
  {
    if order != [] {
      var front, k := order[..|order| - 1], order[|order| - 1];
      SnapshotIsWhatFinishWouldReturn(b, front);
      FinishAllKeepsTheRest(b, front);
    }
  }
}
