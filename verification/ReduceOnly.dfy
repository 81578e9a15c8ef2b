/** What a position can become when reduce-only orders fill as well
    (perplab/core/risk.py:490-503, perplab/engine/backtest.py:3532-3566). */
module ReduceOnly {
  import opened Wrappers
  import opened Liquidation
  import opened Exposure

  function Min(x: real, y: real): real
  {
    if x <= y then x else y
  }

  /** What a reduce-only fill of this side may still take: the position it would reduce. */
  function Room(position: real, side: Side): real
  {
    Max(if side == SELL then position else -position, 0.0)
  }

  /** A working order fills in part, or a reduce-only one against the position and never
      past zero. */
  predicate CanStep(d: Desk, f: Part)
  {
    && f.order < |d.orders| && 0.0 < f.qty <= d.orders[f.order].qty
    && (d.orders[f.order].reduceOnly ==> f.qty <= Room(d.position, d.orders[f.order].side))
  }

  /** The desk after the fills in turn, if each of them is possible. */
  function Run(d: Desk, fills: seq<Part>): Option<Desk>
  {
    if fills == [] then Some(d)
    else
      var front := Run(d, fills[..|fills| - 1]);
      if front.Some? && CanStep(front.value, fills[|fills| - 1]) then Some(Fill(front.value, fills[|fills| - 1]))
      else None
  }

  /** Some interleaving of partial fills, reduce-only ones among them, takes the position
      to `p`. */
  ghost predicate CanReach(d: Desk, p: real)
  {
    exists fills :: Run(d, fills).Some? && Run(d, fills).value.position == p
  }

  lemma RunOneMore(d: Desk, fills: seq<Part>, f: Part)
    requires Run(d, fills).Some? && CanStep(Run(d, fills).value, f)
    ensures Run(d, fills + [f]) == Some(Fill(Run(d, fills).value, f))
  {
    assert (fills + [f])[..|fills|] == fills;
  }

  lemma TwoSteps(d: Desk, f: Part, g: Part)
    requires CanStep(d, f) && CanStep(Fill(d, f), g)
    ensures Run(d, [f, g]) == Some(Fill(Fill(d, f), g))
  {
    RunOneMore(d, [], f);
    assert [] + [f] == [f];
    RunOneMore(d, [f], g);
    assert [f] + [g] == [f, g];
  }

  /** Fills of working orders alone are steps, and may follow any run. */
  lemma {:induction false} WorkingFillsMayFollow(d: Desk, front: seq<Part>, fills: seq<Part>)
    requires Run(d, front).Some? && After(Run(d, front).value, fills).Some?
    ensures Run(d, front + fills) == After(Run(d, front).value, fills)
  {
    if fills == [] {
      assert front + fills == front;
    } else {
      var rest, last := fills[..|fills| - 1], fills[|fills| - 1];
      WorkingFillsMayFollow(d, front, rest);
      RunOneMore(d, front + rest, last);
      assert front + fills == front + rest + [last];
    }
  }

  // -------------------------------------------------------------------- the two ends

  /** How far towards one side the position can go: what the reduce-only orders of that
      side may close, then every working order of it. */
  function Pull(d: Desk, side: Side): real
  {
    Min(OnSide(Outstanding(d.orders, true), side), Room(d.position, side)) + OnSide(WorkingOf(d.orders), side)
  }

  function Farthest(d: Desk, side: Side): real
  {
    d.position + Signed(side, Pull(d, side))
  }

  /** No fill moves either end outwards. */
  lemma StepKeepsTheEnd(d: Desk, f: Part, side: Side)
    requires CanStep(d, f)
    ensures Signed(side, Farthest(Fill(d, f), side)) <= Signed(side, Farthest(d, side))
  {
    FillShrinksTheOutstanding(d.orders, f.order, f.qty, false);
    FillShrinksTheOutstanding(d.orders, f.order, f.qty, true);
  }

  lemma {:induction false} RunStaysWithinTheEnds(d: Desk, fills: seq<Part>)
    requires Run(d, fills).Some?
    ensures var e := Run(d, fills).value;
            Farthest(d, SELL) <= Farthest(e, SELL) <= e.position <= Farthest(e, BUY) <= Farthest(d, BUY)
  {
    if fills != [] {
      RunStaysWithinTheEnds(d, fills[..|fills| - 1]);
      StepKeepsTheEnd(Run(d, fills[..|fills| - 1]).value, fills[|fills| - 1], SELL);
      StepKeepsTheEnd(Run(d, fills[..|fills| - 1]).value, fills[|fills| - 1], BUY);
    }
  }

  /** What the reduce-only orders of one side among the first `n` may close. */
  function Closable(d: Desk, n: nat, side: Side): real
    requires n <= |d.orders|
  {
    Min(OnSide(Outstanding(d.orders[..n], true), side), Room(d.position, side))
  }

  lemma ClosableOneMore(d: Desk, n: nat, side: Side)
    requires 0 < n <= |d.orders|
    ensures var o, so := d.orders[n - 1], Closable(d, n - 1, side);
            Closable(d, n, side) == if o.reduceOnly && o.side == side && o.qty > 0.0
                                    then so + Min(o.qty, Room(d.position, side) - so) else so
  {
    assert d.orders[..n][..n - 1] == d.orders[..n - 1];
  }

  /** Those orders, filled in turn until the position is closed. */
  function Closing(d: Desk, n: nat, side: Side): seq<Part>
    requires n <= |d.orders|
  {
    if n == 0 then []
    else
      var o, left := d.orders[n - 1], Room(d.position, side) - Closable(d, n - 1, side);
      if o.reduceOnly && o.side == side && o.qty > 0.0 && left > 0.0 then
        Closing(d, n - 1, side) + [Part(n - 1, Min(o.qty, left))]
      else Closing(d, n - 1, side)
  }

  /** The desk once the closing of the first `n` orders is done. */
  ghost predicate Closed(d: Desk, n: nat, side: Side, after: Option<Desk>)
    requires n <= |d.orders|
  {
    && after.Some?
    && after.value.position == d.position + Signed(side, Closable(d, n, side))
    && |after.value.orders| == |d.orders|
    && WorkingOf(after.value.orders) == WorkingOf(d.orders)
    && forall i :: n <= i < |d.orders| ==> after.value.orders[i] == d.orders[i]
  }

  lemma ClosingFillKeeps(d: Desk, n: nat, side: Side, front: Desk, f: Part)
    requires 0 < n <= |d.orders| && Closed(d, n - 1, side, Some(front)) && f.order == n - 1
    requires d.orders[n - 1].reduceOnly && d.orders[n - 1].side == side
    requires 0.0 < f.qty == Min(d.orders[n - 1].qty, Room(d.position, side) - Closable(d, n - 1, side))
    requires Closable(d, n, side) == Closable(d, n - 1, side) + f.qty
    ensures CanStep(front, f) && Closed(d, n, side, Some(Fill(front, f)))
  {
    assert front.orders[n - 1] == d.orders[n - 1];
    FillShrinksTheOutstanding(front.orders, n - 1, f.qty, false);
  }

  lemma {:induction false} ClosingTakesWhatItMay(d: Desk, n: nat, side: Side)
    requires n <= |d.orders|
    ensures Closed(d, n, side, Run(d, Closing(d, n, side)))
  {
    if n == 0 {
      assert d.orders[..0] == [];
    } else {
      ClosingTakesWhatItMay(d, n - 1, side);
      ClosableOneMore(d, n, side);
      var o, left := d.orders[n - 1], Room(d.position, side) - Closable(d, n - 1, side);
      if o.reduceOnly && o.side == side && o.qty > 0.0 && left > 0.0 {
        var f := Part(n - 1, Min(o.qty, left));
        ClosingFillKeeps(d, n, side, Run(d, Closing(d, n - 1, side)).value, f);
        RunOneMore(d, Closing(d, n - 1, side), f);
      }
    }
  }

  lemma EachEndIsReached(d: Desk, side: Side)
    ensures CanReach(d, Farthest(d, side))
  {
    var n := |d.orders|;
    assert d.orders[..n] == d.orders;
    ClosingTakesWhatItMay(d, n, side);
    var closed := Run(d, Closing(d, n, side)).value;
    var sweep := Sweep(closed.orders, n, side);
    SweepTakesTheWholeSide(closed, n, side);
    assert closed.orders[..n] == closed.orders;
    WorkingFillsMayFollow(d, Closing(d, n, side), sweep);
    assert Run(d, Closing(d, n, side) + sweep).value.position == Farthest(d, side);
  }

  /** With every order able to fill, the positions reached lie between the two ends, and
      both ends are reached. */
  lemma ReachedPositionsLieBetweenTheEnds(d: Desk)
    ensures forall p :: CanReach(d, p) ==> Farthest(d, SELL) <= p <= Farthest(d, BUY)
    ensures CanReach(d, Farthest(d, SELL)) && CanReach(d, Farthest(d, BUY))
  {
    forall p | CanReach(d, p)
      ensures Farthest(d, SELL) <= p <= Farthest(d, BUY)
    {
      var fills :| Run(d, fills).Some? && Run(d, fills).value.position == p;
      RunStaysWithinTheEnds(d, fills);
    }
    EachEndIsReached(d, SELL);
    EachEndIsReached(d, BUY);
  }

  // ------------------------------------------------------------- when the bound fails

  /** The reduce-only orders let the far side reach further than the bound allows for. */
  predicate Outreached(position: real, w: Working, r: Working)
  {
    || (position > 0.0 && r.sell > 0.0 && w.sell + Min(r.sell, position) > position + position + w.buy)
    || (position < 0.0 && r.buy > 0.0 && w.buy + Min(r.buy, -position) > w.sell - position - position)
  }

  /** Some order of fills takes |position| beyond `projected_exposure` exactly when the
      orders of the far side, with the reduce-only ones that may close the position,
      outreach twice the position and the orders of its own side. */
  lemma TheBoundIsExceededExactlyWhenOutreached(d: Desk)
    ensures (exists p :: CanReach(d, p) && Abs(p) > ProjectedExposure(d.position, WorkingOf(d.orders)))
       <==> Outreached(d.position, WorkingOf(d.orders), Outstanding(d.orders, true))
  {
    ReachedPositionsLieBetweenTheEnds(d);
    var bound, low, high := ProjectedExposure(d.position, WorkingOf(d.orders)), Farthest(d, SELL), Farthest(d, BUY);
    assert Outreached(d.position, WorkingOf(d.orders), Outstanding(d.orders, true)) <==> Abs(low) > bound || Abs(high) > bound;
    if exists p :: CanReach(d, p) && Abs(p) > bound {
      var p :| CanReach(d, p) && Abs(p) > bound;
      assert low <= p <= high;
    }
  }

  /** A reduce-only close of `x` raises the one-way bound exactly when the orders of the
      far side reach further past zero than those of the position's own side reach on. */
  lemma WhenAReduceOnlyCloseRaisesTheBound(position: real, w: Working, x: real)
    requires 0.0 < x <= Abs(position) && w.buy >= 0.0 && w.sell >= 0.0
    ensures ProjectedExposure(if position > 0.0 then position - x else position + x, w) > ProjectedExposure(position, w)
       <==> if position > 0.0 then w.sell + x > position + position + w.buy
            else w.buy + x > w.sell - position - position
  {
  }

  /** Long 10 with a working sell of 12 and a reduce-only sell of 10: bounded by 10, and
      the two fills end short 12. The short mirror ends long 12. */
  lemma ReduceOnlyFillsCanExceedTheBound(side: Side)
    ensures var d := Desk(-Signed(side, 10.0), [Order(side, 12.0, false), Order(side, 10.0, true)]);
            && ProjectedExposure(d.position, WorkingOf(d.orders)) == 10.0
            && Run(d, [Part(1, 10.0), Part(0, 12.0)])
               == Some(Desk(Signed(side, 12.0), [Order(side, 0.0, false), Order(side, 0.0, true)]))
  {
    var d := Desk(-Signed(side, 10.0), [Order(side, 12.0, false), Order(side, 10.0, true)]);
    assert d.orders[..1][..0] == [];
    assert Outstanding(d.orders[..1], false) == Idle.Plus(side, 12.0);
    var closed := Desk(0.0, [Order(side, 12.0, false), Order(side, 0.0, true)]);
    assert Fill(d, Part(1, 10.0)) == closed;
    TwoSteps(d, Part(1, 10.0), Part(0, 12.0));
    assert Fill(closed, Part(0, 12.0)).orders == [Order(side, 0.0, false), Order(side, 0.0, true)];
  }
}
