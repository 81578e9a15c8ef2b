/** Size limits over runs of one symbol, the ledger's fills included. */
module RiskDesk {
  import opened Wrappers
  import opened Money
  import opened Liquidation
  import opened Positions
  import opened Exposure
  import opened Risk
  import ReduceOnly

  /** An order offered to the engine, a partial fill, or a cancelled remainder. */
  datatype Act = Offer(engine: Engine, request: Request) | Match(part: Part) | Drop(order: nat)

  /** The request describes this desk: one symbol, one-way, at the one price. */
  predicate Describes(r: Request, d: Desk, price: real)
  {
    && r.position == d.position && r.working == WorkingOf(d.orders) && r.price == price
    && r.positionSide == BOTH && r.otherSideExposure == 0.0
  }

  /** A desk the run can move to. An accepted order joins the book, a refused one does not. */
  ghost predicate Moves(d: Desk, limit: real, price: real, act: Act, d': Desk)
  {
    match act
    case Offer(e, r) =>
      && e.limits.maxPositionNotional == Some(limit)
      && Describes(r, d, price)
      && d' == if CheckOrder(e, r).breach == None then Desk(d.position, d.orders + [Order(r.side, r.qty, r.reduceOnly)])
               else d
    case Match(f) => CanFill(d, f) && d' == Fill(d, f)
    case Drop(i) => i < |d.orders| && d' == Desk(d.position, d.orders[..i] + d.orders[i + 1..])
  }

  ghost predicate IsRun(limit: real, price: real, acts: seq<Act>, desks: seq<Desk>)
  {
    && |desks| == |acts| + 1 && desks[0] == Desk(0.0, [])
    && forall i :: 0 <= i < |acts| ==> Moves(desks[i], limit, price, acts[i], desks[i + 1])
  }

  predicate WithinLimit(d: Desk, limit: real, price: real)
  {
    Times(ProjectedExposure(d.position, WorkingOf(d.orders)), price) <= limit
  }

  lemma TimesMonotone(x: real, y: real, price: real)
    requires x <= y && price > 0.0
    ensures Times(x, price) <= Times(y, price)
  {
    TimesSign(y - x, price);
    TimesSymmetric(y, price);
    TimesSymmetric(x, price);
    TimesLinear(price, y, x);
    TimesSymmetric(price, y - x);
  }

  lemma AcceptedIsWithinTheNotional(e: Engine, r: Request)
    requires e.limits.maxPositionNotional.Some? && !r.reduceOnly && CheckOrder(e, r).breach == None
    ensures ProjectedNotional(r) <= e.limits.maxPositionNotional.value
  {
    var rate := CheckRate(e, r.ts);
    assert rate.breach == None && SizeBreached(e.limits, r) == None;
  }

  lemma AppendedWorking(orders: seq<Order>, o: Order)
    ensures WorkingOf(orders + [o])
         == if Counts(o) then WorkingOf(orders).Plus(o.side, o.qty) else WorkingOf(orders)
  {
    assert (orders + [o])[..|orders|] == orders;
  }

  lemma {:induction false} DroppedWorking(orders: seq<Order>, i: nat)
    requires i < |orders|
    ensures var w, w' := WorkingOf(orders), WorkingOf(orders[..i] + orders[i + 1..]);
            w'.buy <= w.buy && w'.sell <= w.sell
  {
    var n := |orders| - 1;
    if i < n {
      DroppedWorking(orders[..n], i);
      var left := orders[..i] + orders[i + 1..];
      assert left[..n - 1] == orders[..n][..i] + orders[..n][i + 1..];
    } else {
      assert orders[..i] + orders[i + 1..] == orders[..n];
    }
  }

  lemma LessWorkingIsLessExposed(q: real, w: Working, w': Working)
    requires 0.0 <= w'.buy <= w.buy && 0.0 <= w'.sell <= w.sell
    ensures ProjectedExposure(q, w') <= ProjectedExposure(q, w)
  {
  }

  lemma MoveStaysWithinTheLimit(d: Desk, limit: real, price: real, act: Act, d': Desk)
    requires price > 0.0 && WithinLimit(d, limit, price) && Moves(d, limit, price, act, d')
    ensures WithinLimit(d', limit, price)
  {
    match act
    case Offer(e, r) =>
      if CheckOrder(e, r).breach == None {
        AppendedWorking(d.orders, Order(r.side, r.qty, r.reduceOnly));
        if !r.reduceOnly { AcceptedIsWithinTheNotional(e, r); }
      }
    case Match(f) =>
      FillKeepsTheBound(d, f);
      TimesMonotone(ProjectedExposure(d'.position, WorkingOf(d'.orders)), ProjectedExposure(d.position, WorkingOf(d.orders)), price);
    case Drop(i) =>
      DroppedWorking(d.orders, i);
      LessWorkingIsLessExposed(d.position, WorkingOf(d.orders), WorkingOf(d'.orders));
      TimesMonotone(ProjectedExposure(d'.position, WorkingOf(d'.orders)), ProjectedExposure(d.position, WorkingOf(d.orders)), price);
  }

  /** In every run whose orders are checked at one price and whose reduce-only orders never
      fill, no position reached exceeds the notional ceiling. */
  lemma {:induction false} NoReachedPositionExceedsTheCeiling(limit: real, price: real, acts: seq<Act>, desks: seq<Desk>, n: nat)
    requires price > 0.0 && limit > 0.0 && IsRun(limit, price, acts, desks) && n < |desks|
    ensures WithinLimit(desks[n], limit, price)
    ensures Times(Abs(desks[n].position), price) <= limit
  {
    if n == 0 {
      TimesSign(0.0, price);
    } else {
      NoReachedPositionExceedsTheCeiling(limit, price, acts, desks, n - 1);
      MoveStaysWithinTheLimit(desks[n - 1], limit, price, acts[n - 1], desks[n]);
    }
    var d := desks[n];
    PositionIsWithinTheBound(d.position, WorkingOf(d.orders));
    TimesMonotone(Abs(d.position), ProjectedExposure(d.position, WorkingOf(d.orders)), price);
  }

  // ------------------------------------------------------- reduce-only orders filling

  /** How far from flat any order of fills can take the position, reduce-only ones among
      them. */
  function FartherEnd(d: Desk): real
  {
    Max(Abs(ReduceOnly.Farthest(d, SELL)), Abs(ReduceOnly.Farthest(d, BUY)))
  }

  /** Some order of fills takes the position beyond the ceiling. */
  ghost predicate CanExceed(d: Desk, limit: real, price: real)
  {
    exists p :: ReduceOnly.CanReach(d, p) && Times(Abs(p), price) > limit
  }

  lemma CeilingIsExceededExactlyWhenTheFartherEndIs(d: Desk, limit: real, price: real)
    requires price > 0.0
    ensures CanExceed(d, limit, price) <==> Times(FartherEnd(d), price) > limit
  {
    ReduceOnly.ReachedPositionsLieBetweenTheEnds(d);
    if CanExceed(d, limit, price) {
      var p :| ReduceOnly.CanReach(d, p) && Times(Abs(p), price) > limit;
      TimesMonotone(Abs(p), FartherEnd(d), price);
    }
    if Times(FartherEnd(d), price) > limit {
      var end := if FartherEnd(d) == Abs(ReduceOnly.Farthest(d, SELL)) then SELL else BUY;
      assert ReduceOnly.CanReach(d, ReduceOnly.Farthest(d, end));
    }
  }

  /** Whatever a run of checked orders has reached, letting the reduce-only ones fill takes
      it beyond the ceiling exactly when the farther end is beyond it, and then the bound
      that was checked is outreached. */
  lemma ReduceOnlyFillsExceedTheCeilingExactly(limit: real, price: real, acts: seq<Act>, desks: seq<Desk>, n: nat)
    requires price > 0.0 && limit > 0.0 && IsRun(limit, price, acts, desks) && n < |desks|
    ensures var d := desks[n];
            && (CanExceed(d, limit, price) <==> Times(FartherEnd(d), price) > limit)
            && (CanExceed(d, limit, price) ==>
                  ReduceOnly.Outreached(d.position, WorkingOf(d.orders), Outstanding(d.orders, true)))
  {
    var d := desks[n];
    CeilingIsExceededExactlyWhenTheFartherEndIs(d, limit, price);
    if CanExceed(d, limit, price) {
      NoReachedPositionExceedsTheCeiling(limit, price, acts, desks, n);
      BeyondTheCeilingIsBeyondTheBound(d, limit, price);
    }
  }

  lemma BeyondTheCeilingIsBeyondTheBound(d: Desk, limit: real, price: real)
    requires price > 0.0 && WithinLimit(d, limit, price) && CanExceed(d, limit, price)
    ensures ReduceOnly.Outreached(d.position, WorkingOf(d.orders), Outstanding(d.orders, true))
  {
    var bound := ProjectedExposure(d.position, WorkingOf(d.orders));
    var p :| ReduceOnly.CanReach(d, p) && Times(Abs(p), price) > limit;
    if Abs(p) <= bound { TimesMonotone(Abs(p), bound, price); }
    ReduceOnly.TheBoundIsExceededExactlyWhenOutreached(d);
  }

  const CEILING := Built(Limits(Some(1000.0), None, None, None, None, None, None), 1000.0, Kill(None, None))

  function Asked(side: Side, qty: real, reduceOnly: bool, d: Desk): Act
  {
    Offer(CEILING, Request(0, side, qty, 100.0, reduceOnly, d.position, WorkingOf(d.orders), 1000.0, 0, 0.0, BOTH, 0.0))
  }

  /** Long 10, then a sell of 12 and a reduce-only sell of 10 are both let through. */
  function LetThrough(): (seq<Act>, seq<Desk>)
  {
    var d0, d1, d2 := Desk(0.0, []), Desk(0.0, [Order(BUY, 10.0, false)]), Desk(10.0, [Order(BUY, 0.0, false)]);
    var d3 := Desk(10.0, d2.orders + [Order(SELL, 12.0, false)]);
    var d4 := Desk(10.0, d3.orders + [Order(SELL, 10.0, true)]);
    ([Asked(BUY, 10.0, false, d0), Match(Part(0, 10.0)), Asked(SELL, 12.0, false, d2), Asked(SELL, 10.0, true, d3)],
     [d0, d1, d2, d3, d4])
  }

  lemma FirstWorking(o: Order)
    ensures WorkingOf([o]) == if Counts(o) then Idle.Plus(o.side, o.qty) else Idle
  {
    AppendedWorking([], o);
    assert [] + [o] == [o];
  }

  lemma SellsAreOutstanding()
    ensures var orders := LetThrough().1[4].orders;
            WorkingOf(orders) == Working(0.0, 12.0) && Outstanding(orders, true) == Working(0.0, 10.0)
  {
    var d2, d3 := LetThrough().1[2], LetThrough().1[3];
    FirstWorking(d2.orders[0]);
    AppendedWorking(d2.orders, Order(SELL, 12.0, false));
    AppendedWorking(d3.orders, Order(SELL, 10.0, true));
    assert (d3.orders + [Order(SELL, 10.0, true)])[..2] == d3.orders && d3.orders[..1] == d2.orders;
    assert Outstanding(d2.orders, true) == Idle;
  }

  lemma AskedIsLetThrough(side: Side, qty: real, reduceOnly: bool, d: Desk)
    requires reduceOnly || ProjectedExposure(d.position, WorkingOf(d.orders).Plus(side, qty)) == 10.0
    ensures Moves(d, 1000.0, 100.0, Asked(side, qty, reduceOnly, d), Desk(d.position, d.orders + [Order(side, qty, reduceOnly)]))
  {
    assert Times(10.0, 100.0) == 1000.0;
    assert CheckOrder(CEILING, Asked(side, qty, reduceOnly, d).request).breach == None;
  }

  lemma FirstTwoMoves()
    ensures var (acts, desks) := LetThrough();
            Moves(desks[0], 1000.0, 100.0, acts[0], desks[1]) && Moves(desks[1], 1000.0, 100.0, acts[1], desks[2])
  {
    AskedIsLetThrough(BUY, 10.0, false, Desk(0.0, []));
    assert [] + [Order(BUY, 10.0, false)] == [Order(BUY, 10.0, false)];
  }

  lemma LastTwoMoves()
    ensures var (acts, desks) := LetThrough();
            Moves(desks[2], 1000.0, 100.0, acts[2], desks[3]) && Moves(desks[3], 1000.0, 100.0, acts[3], desks[4])
  {
    FirstWorking(Order(BUY, 0.0, false));
    AskedIsLetThrough(SELL, 12.0, false, LetThrough().1[2]);
    AskedIsLetThrough(SELL, 10.0, true, LetThrough().1[3]);
  }

  lemma TheyAreLetThrough()
    ensures IsRun(1000.0, 100.0, LetThrough().0, LetThrough().1)
  {
    FirstTwoMoves();
    LastTwoMoves();
  }

  lemma ShortTwelveIsTheFartherEnd(d: Desk)
    requires d.position == 10.0 && WorkingOf(d.orders) == Working(0.0, 12.0) && Outstanding(d.orders, true) == Working(0.0, 10.0)
    ensures FartherEnd(d) == 12.0
  {
    assert ReduceOnly.Farthest(d, SELL) == -12.0 && ReduceOnly.Farthest(d, BUY) == 10.0;
  }

  /** So a run of checked orders can be taken beyond its ceiling: short 12 at 100 is beyond
      1000. */
  lemma CheckedOrdersCanExceedTheCeiling()
    ensures IsRun(1000.0, 100.0, LetThrough().0, LetThrough().1)
    ensures CanExceed(LetThrough().1[4], 1000.0, 100.0)
  {
    TheyAreLetThrough();
    SellsAreOutstanding();
    var d := LetThrough().1[4];
    ShortTwelveIsTheFartherEnd(d);
    CeilingIsExceededExactlyWhenTheFartherEndIs(d, 1000.0, 100.0);
    assert Times(FartherEnd(d), 100.0) == 1200.0;
  }

  // ----------------------------------------------------------------------- hedge mode

  /** The two legs of one symbol. */
  datatype Hedge = Hedge(long: Desk, short: Desk) {
    function Leg(side: PositionSide): Desk
    {
      if side == LONG then long else short
    }

    function With(side: PositionSide, d: Desk): Hedge
    {
      if side == LONG then Hedge(d, short) else Hedge(long, d)
    }
  }

  function Bound(side: PositionSide, d: Desk): real
  {
    SideProjectedExposure(side, d.position, WorkingOf(d.orders))
  }

  /** `gross_projected_exposure`: the sum of both sides. */
  function GrossBound(h: Hedge): real
  {
    Bound(LONG, h.long) + Bound(SHORT, h.short)
  }

  function Other(side: PositionSide): PositionSide
  {
    if side == LONG then SHORT else LONG
  }

  /** A hedge the run can move to. Fills may grow or shrink a leg, reduce-only or not, but
      never take it across zero. */
  ghost predicate HedgeMoves(h: Hedge, limit: real, price: real, side: PositionSide, act: Act, h': Hedge)
    requires side.Hedged()
  {
    var d := h.Leg(side);
    match act
    case Offer(e, r) =>
      && e.limits.maxPositionNotional == Some(limit)
      && r.position == d.position && r.working == WorkingOf(d.orders) && r.price == price
      && r.positionSide == side && r.otherSideExposure == Bound(Other(side), h.Leg(Other(side)))
      && h' == if CheckOrder(e, r).breach == None
               then h.With(side, Desk(d.position, d.orders + [Order(r.side, r.qty, r.reduceOnly)])) else h
    case Match(f) => LegCanFill(side, d, f) && h' == h.With(side, Fill(d, f))
    case Drop(i) => i < |d.orders| && h' == h.With(side, Desk(d.position, d.orders[..i] + d.orders[i + 1..]))
  }

  ghost predicate HedgeWithin(h: Hedge, limit: real, price: real)
  {
    h.long.position >= 0.0 && h.short.position <= 0.0 && Times(GrossBound(h), price) <= limit
  }

  lemma HedgeMoveStaysWithinTheLimit(h: Hedge, limit: real, price: real, side: PositionSide, act: Act, h': Hedge)
    requires side.Hedged() && price > 0.0 && HedgeWithin(h, limit, price) && HedgeMoves(h, limit, price, side, act, h')
    ensures HedgeWithin(h', limit, price)
  {
    var d := h.Leg(side);
    match act
    case Offer(e, r) =>
      if CheckOrder(e, r).breach == None {
        AppendedWorking(d.orders, Order(r.side, r.qty, r.reduceOnly));
        if !r.reduceOnly { AcceptedIsWithinTheNotional(e, r); }
      }
    case Match(f) =>
      LegFillKeepsTheBound(side, d, f);
      TimesMonotone(GrossBound(h'), GrossBound(h), price);
    case Drop(i) =>
      DroppedWorking(d.orders, i);
      TimesMonotone(GrossBound(h'), GrossBound(h), price);
  }

  ghost predicate IsHedgeRun(limit: real, price: real, sides: seq<PositionSide>, acts: seq<Act>, hedges: seq<Hedge>)
  {
    && |sides| == |acts| && |hedges| == |acts| + 1 && hedges[0] == Hedge(Desk(0.0, []), Desk(0.0, []))
    && forall i :: 0 <= i < |acts| ==>
         sides[i].Hedged() && HedgeMoves(hedges[i], limit, price, sides[i], acts[i], hedges[i + 1])
  }

  /** In hedge mode the ceiling holds for the two legs summed, over every run at one price,
      reduce-only fills included. */
  lemma {:induction false} NoReachedHedgeExceedsTheCeiling(
      limit: real, price: real, sides: seq<PositionSide>, acts: seq<Act>, hedges: seq<Hedge>, n: nat)
    requires price > 0.0 && limit > 0.0 && IsHedgeRun(limit, price, sides, acts, hedges) && n < |hedges|
    ensures HedgeWithin(hedges[n], limit, price)
    ensures Times(Abs(hedges[n].long.position) + Abs(hedges[n].short.position), price) <= limit
  {
    if n == 0 {
      TimesSign(0.0, price);
    } else {
      NoReachedHedgeExceedsTheCeiling(limit, price, sides, acts, hedges, n - 1);
      HedgeMoveStaysWithinTheLimit(hedges[n - 1], limit, price, sides[n - 1], acts[n - 1], hedges[n]);
    }
    var h := hedges[n];
    TimesMonotone(Abs(h.long.position) + Abs(h.short.position), GrossBound(h), price);
  }
}
