/** The round-trip builder as the source has it: an object holding a mutable record of each
    round-trip in progress (perplab/analytics/trades.py:173-540). Each method is proved to
    be the step of the same name in module `TradeBook`. */
module TradeBuilding {
  import opened Money
  import opened Wrappers
  import opened Sums
  import opened Liquidation
  import opened Positions
  import B = TradeBook
  import SymbolPnl

  /** `_Open`: a round-trip in progress, updated field by field. */
  class OpenTrade {
    const long: bool
    const entryMs: int
    var openQty: real
    var openNotional: real
    var closeQty: real
    var closeNotional: real
    var maxQty: real
    var realized: real
    var fees: real
    var funding: real
    var legs: nat
    var mae: Option<real>
    var mfe: Option<real>
    var maePrice: Option<real>
    var mfePrice: Option<real>

    function Value(): B.Open
      reads this
    {
      B.Open(long, entryMs, openQty, openNotional, closeQty, closeNotional, maxQty, realized, fees, funding, legs,
             mae, mfe, maePrice, mfePrice)
    }

    constructor (ts: int, sign: int)
      ensures Value() == B.Started(ts, sign)
    {
      long, entryMs := sign > 0, ts;
      openQty, openNotional, closeQty, closeNotional, maxQty := 0.0, 0.0, 0.0, 0.0, 0.0;
      realized, fees, funding, legs := 0.0, 0.0, 0.0, 0;
      mae, mfe, maePrice, mfePrice := None, None, None, None;
    }

    method AddOpenLeg(qty: real, price: real, fee: real, after: real)
      modifies this
      ensures Value() == B.Opening(old(Value()), qty, price, fee, after)
    {
      openQty := openQty + qty;
      openNotional := openNotional + Times(qty, price);
      fees := fees + fee;
      if Abs(after) > maxQty {
        maxQty := Abs(after);
      }
      legs := legs + 1;
    }

    method AddCloseLeg(qty: real, price: real, fee: real, gain: real)
      modifies this
      ensures Value() == B.Closing(old(Value()), qty, price, fee, gain)
    {
      closeQty := closeQty + qty;
      closeNotional := closeNotional + Times(qty, price);
      realized := realized + gain;
      fees := fees + fee;
      legs := legs + 1;
    }

    method AddFunding(cashflow: real)
      modifies `funding
      ensures Value() == old(Value()).(funding := old(funding) + cashflow)
    {
      funding := funding + cashflow;
    }

    method Mark(price: real, unrealized: real)
      modifies this
      ensures Value() == B.Marked(old(Value()), price, unrealized)
    {
      var running := realized - fees + funding + unrealized;
      if mae == None || running < mae.value {
        mae := Some(running);
      }
      if mfe == None || running > mfe.value {
        mfe := Some(running);
      }
      if maePrice == None {
        maePrice, mfePrice := Some(price), Some(price);
      } else if long {
        maePrice := Some(if maePrice.value <= price then maePrice.value else price);
        mfePrice := B.Greatest(Some(B.OrElse(mfePrice, price)), Some(price));
      } else {
        maePrice := Some(if maePrice.value >= price then maePrice.value else price);
        mfePrice := B.Least(Some(B.OrElse(mfePrice, price)), Some(price));
      }
    }
  }

  /** The record a growing fill adds to. */
  function Grown(b: B.Book, f: B.FillNote): B.Open
  {
    if Sign(f.before) == 0 then B.Started(f.ts, Sign(f.qty))
    else if f.key in b.open then b.open[f.key] else B.Started(f.ts, Sign(f.before))
  }

  lemma Overwritten(m: map<Key, B.Open>, k: Key, x: B.Open, y: B.Open)
    ensures m[k := x][k := y] == m[k := y]
  {
  }

  class TradeBuilder {
    var trades: seq<B.Trade>
    var open: map<Key, OpenTrade>
    var closedNet: map<string, real>
    var openUnrealized: map<Key, real>

    /** No two sides share a record. */
    ghost predicate Valid()
      reads `open
    {
      forall j, k :: j in open && k in open && j != k ==> open[j] != open[k]
    }

    ghost function InProgress(): (m: map<Key, B.Open>)
      reads `open, open.Values
      ensures m.Keys == open.Keys
    {
      map k | k in open :: open[k].Value()
    }

    ghost function Contents(): B.Book
      reads this, open.Values
    {
      B.Book(trades, InProgress(), closedNet, openUnrealized)
    }

    constructor ()
      ensures Valid() && Contents() == B.Fresh && fresh(open.Values)
    {
      trades, open, closedNet, openUnrealized := [], map[], map[], map[];
    }

    // --------------------------------------------------------------------- internals

    method Start(ts: int, k: Key, sign: int)
      requires Valid()
      modifies `open
      ensures Valid() && k in open && fresh(open[k]) && open == old(open)[k := open[k]]
      ensures InProgress() == old(InProgress())[k := B.Started(ts, sign)]
    {
      var trade := new OpenTrade(ts, sign);
      assert forall j :: j in open ==> open[j] != trade && open[j].Value() == old(open[j].Value());
      open := open[k := trade];
    }

    method AddOpenLeg(k: Key, qty: real, price: real, fee: real, after: real)
      requires Valid() && k in open
      modifies open[k]
      ensures InProgress() == old(InProgress())[k := B.Opening(old(InProgress())[k], qty, price, fee, after)]
    {
      open[k].AddOpenLeg(qty, price, fee, after);
    }

    method AddCloseLeg(k: Key, qty: real, price: real, fee: real, gain: real)
      requires Valid() && k in open
      modifies open[k]
      ensures InProgress() == old(InProgress())[k := B.Closing(old(InProgress())[k], qty, price, fee, gain)]
    {
      open[k].AddCloseLeg(qty, price, fee, gain);
    }

    /** Take a record off the book. */
    method Pop(k: Key) returns (trade: OpenTrade)
      requires Valid() && k in open
      modifies `open
      ensures Valid() && open == old(open) - {k} && trade == old(open[k])
      ensures InProgress() == old(InProgress()) - {k}
    {
      trade := open[k];
      open := open - {k};
    }

    /** Take the record off the book and keep its rendering; a closed trade has no
        unrealised anything. */
    method File(k: Key, rendered: B.Trade)
      requires Valid() && k in open
      modifies this
      ensures Valid() && open == old(open) - {k}
      ensures Contents() == B.Filed(old(Contents()), k, rendered)
    {
      var trade := Pop(k);
      Tally(k, rendered);
    }

    method Tally(k: Key, rendered: B.Trade)
      modifies `trades, `closedNet, `openUnrealized
      ensures trades == old(trades) + [rendered]
      ensures closedNet == old(closedNet)[k.symbol := At(old(closedNet), k.symbol) + rendered.NetPnl()]
      ensures openUnrealized == old(openUnrealized) - {k}
    {
      trades := trades + [rendered];
      closedNet := closedNet[k.symbol := At(closedNet, k.symbol) + rendered.NetPnl()];
      openUnrealized := openUnrealized - {k};
    }

    method Finish(k: Key, ts: Option<int>, reason: B.CloseReason)
      requires Valid()
      modifies this
      ensures Valid() && open == old(open) - {k}
      ensures Contents() == B.Finish(old(Contents()), k, ts, reason)
    {
      if k in open {
        var rendered := B.Render(open[k].Value(), k, ts, reason, |trades|);
        File(k, rendered);
      }
    }

    // ------------------------------------------------------------------------- fills

    /** The record of a side, started now if it is missing. */
    method Ensure(ts: int, k: Key, sign: int)
      requires Valid()
      modifies `open
      ensures Valid() && k in open && fresh(open.Values - old(open.Values))
      ensures InProgress() == old(InProgress())[k := if k in old(open) then old(InProgress())[k] else B.Started(ts, sign)]
    {
      if k !in open {
        Start(ts, k, sign);
      }
    }

    /** The record a fill that opens or increases adds to: a new one from flat. */
    method Begin(f: B.FillNote)
      requires Valid()
      modifies `open
      ensures Valid() && f.key in open && fresh(open.Values - old(open.Values))
      ensures InProgress() == old(InProgress())[f.key := Grown(old(Contents()), f)]
    {
      if Sign(f.before) == 0 {
        Start(f.ts, f.key, Sign(f.qty));
      } else {
        Ensure(f.ts, f.key, Sign(f.before));
      }
    }

    /** A fill that opens or increases. */
    method Grow(f: B.FillNote)
      requires Valid() && (Sign(f.before) == 0 || Sign(f.qty) == Sign(f.before))
      modifies `open, open.Values
      ensures Valid() && fresh(open.Values - old(open.Values))
      ensures Contents() == B.NoteFill(old(Contents()), f)
    {
      ghost var was := InProgress();
      Begin(f);
      ghost var trade := InProgress()[f.key];
      AddOpenLeg(f.key, Abs(f.qty), f.price, f.fee, f.after);
      Overwritten(was, f.key, trade, B.Opening(trade, Abs(f.qty), f.price, f.fee, f.after));
    }

    /** The closing leg of a fill against the position. */
    method Strike(f: B.FillNote)
      requires Valid()
      modifies `open, open.Values
      ensures Valid() && fresh(open.Values - old(open.Values))
      ensures Contents() == B.Struck(old(Contents()), f)
    {
      ghost var was := InProgress();
      Ensure(f.ts, f.key, Sign(f.before));
      ghost var trade := InProgress()[f.key];
      AddCloseLeg(f.key, B.ClosedQty(f), f.price, B.ClosingFee(f), f.realized);
      Overwritten(was, f.key, trade, B.Closing(trade, B.ClosedQty(f), f.price, B.ClosingFee(f), f.realized));
    }

    /** The reducing half of a fill, which may close the round-trip. */
    method Reduce(f: B.FillNote)
      requires Valid()
      modifies this, open.Values
      ensures Valid() && fresh(open.Values - old(open.Values))
      ensures Contents() == B.Reduced(old(Contents()), f)
    {
      Strike(f);
      if f.after == 0.0 || Sign(f.after) != Sign(f.before) {
        Finish(f.key, Some(f.ts), B.SIGNAL);
      }
    }

    /** The residual of a flip, opened as a round-trip of its own. */
    method Reopen(f: B.FillNote)
      requires Valid()
      modifies `open
      ensures Valid() && fresh(open.Values - old(open.Values))
      ensures InProgress() == old(InProgress())[f.key := B.Residual(f)]
    {
      ghost var was := InProgress();
      Start(f.ts, f.key, Sign(f.after));
      ghost var trade := InProgress()[f.key];
      AddOpenLeg(f.key, Abs(f.qty) - B.ClosedQty(f), f.price, f.fee - B.ClosingFee(f), f.after);
      Overwritten(was, f.key, trade, B.Residual(f));
    }

    /** A fill against the position: the reducing half, then what is left of a flip. */
    method FillAgainst(f: B.FillNote)
      requires Valid()
      modifies this, open.Values
      ensures Valid() && fresh(open.Values - old(open.Values))
      ensures Contents() == B.FillAgainst(old(Contents()), f)
    {
      Reduce(f);
      if Abs(f.qty) - B.ClosedQty(f) > 0.0 {
        ghost var finished := Contents();
        Reopen(f);
        assert Contents() == finished.(open := finished.open[f.key := B.Residual(f)]);
      }
    }

    method Fill(f: B.FillNote)
      requires Valid()
      modifies this, open.Values
      ensures Valid() && fresh(open.Values - old(open.Values))
      ensures Contents() == B.NoteFill(old(Contents()), f)
    {
      if Sign(f.before) == 0 || Sign(f.qty) == Sign(f.before) {
        Grow(f);
        return;
      }
      FillAgainst(f);
    }

    method Liquidation(ts: int, k: Key, closedQty: real, price: real, realized: real)
      requires Valid()
      modifies this, open.Values
      ensures Valid() && open.Values <= old(open.Values)
      ensures Contents() == B.NoteLiquidation(old(Contents()), ts, k, closedQty, price, realized)
    {
      if k in open {
        AddCloseLeg(k, Abs(closedQty), price, 0.0, realized);
        Finish(k, Some(ts), B.LIQUIDATED);
      }
    }

    method Funding(k: Key, cashflow: real)
      requires Valid()
      modifies open.Values
      ensures Valid()
      ensures Contents() == B.NoteFunding(old(Contents()), k, cashflow)
    {
      if k in open {
        open[k].AddFunding(cashflow);
        assert Contents() == B.NoteFunding(old(Contents()), k, cashflow);
      }
    }

    method Mark(k: Key, price: real, unrealized: real)
      requires Valid()
      modifies this`openUnrealized, open.Values
      ensures Valid()
      ensures Contents() == B.NoteMark(old(Contents()), k, price, unrealized)
    {
      if k in open {
        openUnrealized := openUnrealized[k := unrealized];
        open[k].Mark(price, unrealized);
      }
    }

    // ------------------------------------------------------------------------ reports

    /** `finish`, over the open keys in the order they are reported. */
    method FinishAll(order: seq<Key>)
      requires Valid()
      modifies this
      ensures Valid() && open.Values <= old(open.Values)
      ensures Contents() == B.FinishAll(old(Contents()), order)
    {
      ghost var before := Contents();
      for i := 0 to |order|
        invariant Valid() && open.Values <= old(open.Values)
        invariant Contents() == B.FinishAll(before, order[..i])
      {
        assert order[..i + 1][..i] == order[..i];
        Finish(order[i], None, B.STILL_OPEN);
      }
      assert order[..|order|] == order;
    }

    /** `snapshot`: what `FinishAll` would leave in `trades`, without popping anything. */
    method Snapshot(order: seq<Key>) returns (shown: seq<B.Trade>)
      requires B.NoRepeats(order)
      ensures shown == B.Snapshot(Contents(), order) == B.FinishAll(Contents(), order).trades
    {
      B.SnapshotIsWhatFinishWouldReturn(Contents(), order);
      shown := trades;
      for i := 0 to |order|
        invariant shown == B.Snapshot(Contents(), order[..i])
      {
        assert order[..i + 1][..i] == order[..i];
        if order[i] in open {
          shown := shown + [B.Render(open[order[i]].Value(), order[i], None, B.STILL_OPEN, |shown|)];
        }
      }
      assert order[..|order|] == order;
    }

    method NetPnlBySymbol(order: seq<Key>) returns (totals: map<string, real>)
      ensures totals == SymbolPnl.NetBySymbol(Contents(), order)
    {
      totals := closedNet;
      for i := 0 to |order|
        invariant totals == SymbolPnl.NetBySymbol(Contents(), order[..i])
      {
        var k := order[i];
        assert order[..i + 1][..i] == order[..i];
        if k in open {
          var running := open[k].realized - open[k].fees + open[k].funding + At(openUnrealized, k);
          totals := totals[k.symbol := At(totals, k.symbol) + running];
        }
      }
      assert order[..|order|] == order;
    }
  }
}
