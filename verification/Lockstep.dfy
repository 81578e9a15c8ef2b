/** The ledger and the round-trip builder driven together: two bookkeepings of one money
    that agree after every step (the driver follows perplab/engine/backtest.py). */
module Lockstep {
  import opened Money
  import opened Wrappers
  import opened Sums
  import opened Liquidation
  import opened Positions
  import opened Ledger
  import opened TradeBook

  // ------------------------------------------------------------------ the agreement

  /** An open round-trip matches the quantity held. */
  predicate Matches(o: Open, qty: real)
  {
    && o.openQty - o.closeQty == Abs(qty)
    && (o.long <==> qty > 0.0)
    && o.fees >= 0.0
  }

  ghost function Total(b: Book): real
  {
    MapSum(b.closedNet) + MapSum(Runnings(b.open))
  }

  /** Each symbol's closed total is the sum over its closed trades. */
  ghost predicate Tallied(b: Book)
  {
    && (forall symbol :: At(b.closedNet, symbol) == NetOfSymbol(b.trades, symbol))
    && MapSum(b.closedNet) == NetOfTrades(b.trades)
    && b.unrealized.Keys <= b.open.Keys
  }

  ghost predicate SidesMatch(positions: map<Key, Position>, b: Book)
  {
    && b.open.Keys == positions.Keys
    && forall k :: k in b.open ==> Matches(b.open[k], positions[k].qty)
  }

  ghost predicate InStep(opening: real, s: Ledger, b: Book)
  {
    && SidesMatch(s.positions, b)
    && Tallied(b)
    && Total(b) == s.wallet - opening
  }

  // ----------------------------------------------------------------- book primitives

  lemma PutMovesTheTotal(b: Book, k: Key, o: Open)
    ensures Total(b.(open := b.open[k := o]))
         == Total(b) + o.Running() - (if k in b.open then b.open[k].Running() else 0.0)
  {
    var b' := b.(open := b.open[k := o]);
    PutAway(b.open, k, o);
    MapSumAway(Runnings(b.open), Runnings(b'.open), k);
  }

  lemma PutAway(open: map<Key, Open>, k: Key, o: Open)
    ensures Runnings(open[k := o]) - {k} == Runnings(open) - {k}
  {
  }

  lemma RemoveAway(open: map<Key, Open>, k: Key)
    ensures Runnings(open - {k}) == Runnings(open) - {k}
  {
  }

  lemma FinishKeepsTheTotal(b: Book, k: Key, ts: Option<int>, reason: CloseReason)
    ensures Total(Finish(b, k, ts, reason)) == Total(b)
  {
    if k in b.open {
      AddToMapSum(b.closedNet, k.symbol, b.open[k].Running());
      RemoveAway(b.open, k);
      MapSumRemove(Runnings(b.open), k);
    }
  }

  lemma FinishKeepsTheTally(b: Book, k: Key, ts: Option<int>, reason: CloseReason)
    requires Tallied(b)
    ensures Tallied(Finish(b, k, ts, reason))
  {
    if k in b.open {
      var b' := Finish(b, k, ts, reason);
      var trade := Render(b.open[k], k, ts, reason, |b.trades|);
      assert b'.trades[..|b.trades|] == b.trades;
      AddToMapSum(b.closedNet, k.symbol, trade.NetPnl());
      forall symbol
        ensures At(b'.closedNet, symbol) == NetOfSymbol(b'.trades, symbol)
      {
        assert At(b.closedNet, symbol) == NetOfSymbol(b.trades, symbol);
      }
    }
  }

  /** Rewriting a round-trip and finishing it, in one. */
  lemma FinishRewritten(b: Book, k: Key, o: Open, ts: Option<int>, reason: CloseReason)
    requires Tallied(b) && k in b.open
    ensures var b' := Finish(b.(open := b.open[k := o]), k, ts, reason);
            && Tallied(b') && b'.open == b.open - {k}
            && Total(b') == Total(b) + o.Running() - b.open[k].Running()
  {
    var rewritten := b.(open := b.open[k := o]);
    PutMovesTheTotal(b, k, o);
    FinishKeepsTheTotal(rewritten, k, ts, reason);
    FinishKeepsTheTally(rewritten, k, ts, reason);
    assert rewritten.open - {k} == b.open - {k};
  }

  // ------------------------------------------------------------------ one fill noted

  /** A note that says what the ledger did on its side. */
  predicate Faithful(f: FillNote, positions: map<Key, Position>)
  {
    && f.qty != 0.0
    && f.after == f.before + f.qty
    && f.before == (if f.key in positions then positions[f.key].qty else 0.0)
    && f.fee >= 0.0 && OnGrid(f.fee)
    && (Sign(f.before) == 0 || Sign(f.qty) == Sign(f.before) ==> f.realized == 0.0)
  }

  /** The positions once the side holds `f.after`. */
  ghost predicate MovedTo(positions: map<Key, Position>, positions': map<Key, Position>, f: FillNote)
  {
    && positions' - {f.key} == positions - {f.key}
    && (f.key in positions' <==> f.after != 0.0)
    && (f.key in positions' ==> positions'[f.key].qty == f.after)
  }

  lemma SidesMatchAfterPut(positions: map<Key, Position>, positions': map<Key, Position>, b: Book, f: FillNote, o: Open)
    requires SidesMatch(positions, b) && MovedTo(positions, positions', f)
    requires f.after != 0.0 && Matches(o, f.after)
    ensures SidesMatch(positions', b.(open := b.open[f.key := o]))
  {
    forall k | k in b.open && k != f.key
      ensures k in positions' && positions'[k] == positions[k]
    {
      assert k in positions - {f.key};
      assert (positions - {f.key})[k] == (positions' - {f.key})[k];
    }
    forall k | k in positions' && k != f.key
      ensures k in positions
    {
      assert k in positions' - {f.key};
    }
  }

  lemma SidesMatchAfterRemoval(positions: map<Key, Position>, positions': map<Key, Position>, b: Book, f: FillNote)
    requires SidesMatch(positions, b) && MovedTo(positions, positions', f) && f.after == 0.0
    ensures b.open.Keys - {f.key} == positions'.Keys
    ensures forall k :: k in b.open && k != f.key ==> Matches(b.open[k], positions'[k].qty)
  {
    forall k | k in b.open && k != f.key
      ensures k in positions' && positions'[k] == positions[k]
    {
      assert k in positions - {f.key};
      assert (positions - {f.key})[k] == (positions' - {f.key})[k];
    }
    forall k | k in positions'
      ensures k in b.open && k != f.key
    {
      assert k in positions' - {f.key};
    }
  }

  /** Opening and increasing. */
  lemma GrowInStep(positions: map<Key, Position>, positions': map<Key, Position>, b: Book, f: FillNote)
    requires SidesMatch(positions, b) && Tallied(b) && Faithful(f, positions) && MovedTo(positions, positions', f)
    requires f.key in positions ==> positions[f.key].qty != 0.0
    requires Sign(f.before) == 0 || Sign(f.qty) == Sign(f.before)
    ensures var b' := NoteFill(b, f);
            SidesMatch(positions', b') && Tallied(b') && Total(b') == Total(b) + f.realized - f.fee
  {
    var o := if Sign(f.before) == 0 then Started(f.ts, Sign(f.qty)) else b.open[f.key];
    var o' := Opening(o, Abs(f.qty), f.price, f.fee, f.after);
    assert NoteFill(b, f) == b.(open := b.open[f.key := o']);
    SidesMatchAfterPut(positions, positions', b, f, o');
    PutMovesTheTotal(b, f.key, o');
  }

  /** Reducing without crossing zero, and closing. */
  lemma ReduceInStep(positions: map<Key, Position>, positions': map<Key, Position>, b: Book, f: FillNote)
    requires SidesMatch(positions, b) && Tallied(b) && Faithful(f, positions) && MovedTo(positions, positions', f)
    requires Sign(f.before) != 0 && Sign(f.qty) != Sign(f.before) && Abs(f.qty) <= Abs(f.before)
    ensures var b' := NoteFill(b, f);
            SidesMatch(positions', b') && Tallied(b') && Total(b') == Total(b) + f.realized - f.fee
  {
    var o := Closing(b.open[f.key], Abs(f.qty), f.price, f.fee, f.realized);
    var reduced := b.(open := b.open[f.key := o]);
    if f.after == 0.0 {
      assert NoteFill(b, f) == Finish(reduced, f.key, Some(f.ts), SIGNAL);
      SidesMatchAfterRemoval(positions, positions', b, f);
      FinishRewritten(b, f.key, o, Some(f.ts), SIGNAL);
    } else {
      assert NoteFill(b, f) == reduced;
      PutMovesTheTotal(b, f.key, o);
      SidesMatchAfterPut(positions, positions', b, f, o);
    }
  }

  /** Crossing zero: one round-trip closes and the residual opens another. */
  lemma FlipInStep(positions: map<Key, Position>, positions': map<Key, Position>, b: Book, f: FillNote)
    requires SidesMatch(positions, b) && Tallied(b) && Faithful(f, positions) && MovedTo(positions, positions', f)
    requires Sign(f.before) != 0 && Sign(f.qty) != Sign(f.before) && Abs(f.qty) > Abs(f.before)
    ensures var b' := NoteFill(b, f);
            SidesMatch(positions', b') && Tallied(b') && Total(b') == Total(b) + f.realized - f.fee
  {
    var o := Closing(b.open[f.key], ClosedQty(f), f.price, ClosingFee(f), f.realized);
    var finished := Finish(b.(open := b.open[f.key := o]), f.key, Some(f.ts), SIGNAL);
    FinishRewritten(b, f.key, o, Some(f.ts), SIGNAL);
    var o' := Residual(f);
    assert NoteFill(b, f) == finished.(open := finished.open[f.key := o']);
    PutMovesTheTotal(finished, f.key, o');
    ResidualMatches(f);
    SidesMatchAfterPut(positions, positions', b, f, o');
    assert finished.open[f.key := o'] == b.open[f.key := o'];
  }

  lemma ResidualMatches(f: FillNote)
    requires OnGrid(f.fee) && f.fee >= 0.0 && f.after == f.before + f.qty
    requires Sign(f.before) != 0 && Sign(f.qty) != Sign(f.before) && Abs(f.qty) > Abs(f.before)
    ensures Matches(Residual(f), f.after)
  {
    SplitFeeIsConserved(f);
  }

  lemma NoteFillInStep(positions: map<Key, Position>, positions': map<Key, Position>, b: Book, f: FillNote)
    requires SidesMatch(positions, b) && Tallied(b) && Faithful(f, positions) && MovedTo(positions, positions', f)
    requires f.key in positions ==> positions[f.key].qty != 0.0
    ensures var b' := NoteFill(b, f);
            SidesMatch(positions', b') && Tallied(b') && Total(b') == Total(b) + f.realized - f.fee
  {
    if Sign(f.before) == 0 || Sign(f.qty) == Sign(f.before) {
      GrowInStep(positions, positions', b, f);
    } else if Abs(f.qty) <= Abs(f.before) {
      ReduceInStep(positions, positions', b, f);
    } else {
      FlipInStep(positions, positions', b, f);
    }
  }

  lemma NoteLiquidationInStep(positions: map<Key, Position>, b: Book, ts: int, k: Key, price: real, realized: real)
    requires SidesMatch(positions, b) && Tallied(b) && k in positions
    ensures var b' := NoteLiquidation(b, ts, k, -positions[k].qty, price, realized);
            && SidesMatch(positions - {k}, b') && Tallied(b') && Total(b') == Total(b) + realized
  {
    var o := Closing(b.open[k], Abs(-positions[k].qty), price, 0.0, realized);
    FinishRewritten(b, k, o, Some(ts), LIQUIDATED);
  }

  lemma NoteFundingInStep(positions: map<Key, Position>, positions': map<Key, Position>, b: Book, k: Key, cashflow: real)
    requires SidesMatch(positions, b) && Tallied(b) && k in positions
    requires k in positions' && positions' == positions[k := positions'[k]] && positions'[k].qty == positions[k].qty
    ensures var b' := NoteFunding(b, k, cashflow);
            && SidesMatch(positions', b') && Tallied(b') && Total(b') == Total(b) + cashflow
  {
    PutMovesTheTotal(b, k, b.open[k].(funding := b.open[k].funding + cashflow));
  }

  lemma NoteMarkInStep(positions: map<Key, Position>, b: Book, k: Key, price: real, unrealized: real)
    requires SidesMatch(positions, b) && Tallied(b)
    ensures var b' := NoteMark(b, k, price, unrealized);
            && SidesMatch(positions, b') && Tallied(b') && Total(b') == Total(b)
  {
    if k in b.open { PutMovesTheTotal(b, k, Marked(b.open[k], price, unrealized)); }
  }
}
