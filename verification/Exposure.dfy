/** What a position can still become while its working orders fill
    (perplab/core/risk.py:470-557, perplab/core/risk.py:1446-1460). */
module Exposure {
  import opened Wrappers
  import opened Liquidation
  import opened Positions

  datatype Side = BUY | SELL

  datatype Order = Order(side: Side, qty: real, reduceOnly: bool)

  datatype Working = Working(buy: real, sell: real) {
    function Plus(side: Side, qty: real): Working
    {
      if side == BUY then Working(buy + qty, sell) else Working(buy, sell + qty)
    }
  }

  const Idle := Working(0.0, 0.0)

  function Max(x: real, y: real): real
  {
    if x >= y then x else y
  }

  function ProjectedExposure(position: real, w: Working): real
  {
    Max(Abs(position + w.buy), Abs(position - w.sell))
  }

  function SideProjectedExposure(side: PositionSide, position: real, w: Working): real
  {
    match side
    case BOTH => ProjectedExposure(position, w)
    case LONG => Abs(position) + w.buy
    case SHORT => Abs(position) + w.sell
  }

  /** What is left to fill of the orders that are, or are not, reduce-only. */
  function Outstanding(orders: seq<Order>, reduceOnly: bool): (w: Working)
    ensures w.buy >= 0.0 && w.sell >= 0.0
  {
    if orders == [] then Idle
    else
      var o := orders[|orders| - 1];
      var w := Outstanding(orders[..|orders| - 1], reduceOnly);
      if o.reduceOnly == reduceOnly && o.qty > 0.0 then w.Plus(o.side, o.qty) else w
  }

  /** What still counts as working: not reduce-only, and something left to fill. */
  predicate Counts(o: Order)
  {
    !o.reduceOnly && o.qty > 0.0
  }

  function WorkingOf(orders: seq<Order>): (w: Working)
    ensures w.buy >= 0.0 && w.sell >= 0.0
  {
    Outstanding(orders, false)
  }

  /** `working_exposure`. */
  method WorkingExposure(orders: seq<Order>) returns (w: Working)
    ensures w == WorkingOf(orders)
  {
    w := Idle;
    for i := 0 to |orders|
      invariant w == WorkingOf(orders[..i])
    {
      assert orders[..i + 1][..i] == orders[..i];
      var o := orders[i];
      if !(o.reduceOnly || o.qty <= 0.0) {
        w := w.Plus(o.side, o.qty);
      }
    }
    assert orders[..|orders|] == orders;
  }

  // ---------------------------------------------------------------- every interleaving

  /** A position and the orders working against it. */
  datatype Desk = Desk(position: real, orders: seq<Order>)

  /** A partial fill of one working order. */
  datatype Part = Part(order: nat, qty: real)

  predicate CanFill(d: Desk, f: Part)
  {
    f.order < |d.orders| && !d.orders[f.order].reduceOnly && 0.0 < f.qty <= d.orders[f.order].qty
  }

  function Signed(side: Side, qty: real): real
  {
    if side == BUY then qty else -qty
  }

  function Fill(d: Desk, f: Part): Desk
    requires f.order < |d.orders|
  {
    var o := d.orders[f.order];
    Desk(d.position + Signed(o.side, f.qty), d.orders[f.order := o.(qty := o.qty - f.qty)])
  }

  /** The desk after the fills in turn, if each of them is possible. */
  function After(d: Desk, fills: seq<Part>): Option<Desk>
  {
    if fills == [] then Some(d)
    else
      var front := After(d, fills[..|fills| - 1]);
      if front.Some? && CanFill(front.value, fills[|fills| - 1]) then Some(Fill(front.value, fills[|fills| - 1]))
      else None
  }

  lemma AfterOneMore(d: Desk, fills: seq<Part>, f: Part)
    requires After(d, fills).Some? && CanFill(After(d, fills).value, f)
    ensures After(d, fills + [f]) == Some(Fill(After(d, fills).value, f))
  {
    assert (fills + [f])[..|fills|] == fills;
  }

  /** Some interleaving of partial fills takes the position to `p`. */
  ghost predicate Reachable(d: Desk, p: real)
  {
    exists fills :: After(d, fills).Some? && After(d, fills).value.position == p
  }

  /** A fill is taken from what is outstanding of its own kind, and of no other. */
  lemma {:induction false} FillShrinksTheOutstanding(orders: seq<Order>, i: nat, x: real, reduceOnly: bool)
    requires i < |orders| && 0.0 < x <= orders[i].qty
    ensures var w := Outstanding(orders[i := orders[i].(qty := orders[i].qty - x)], reduceOnly);
            Outstanding(orders, reduceOnly) == if orders[i].reduceOnly == reduceOnly then w.Plus(orders[i].side, x) else w
  {
    var filled := orders[i := orders[i].(qty := orders[i].qty - x)];
    var n := |orders| - 1;
    if i < n {
      FillShrinksTheOutstanding(orders[..n], i, x, reduceOnly);
      assert filled[..n] == orders[..n][i := orders[i].(qty := orders[i].qty - x)];
    } else {
      assert filled[..n] == orders[..n];
    }
  }

  lemma FillKeepsTheBound(d: Desk, f: Part)
    requires CanFill(d, f)
    ensures ProjectedExposure(Fill(d, f).position, WorkingOf(Fill(d, f).orders))
         <= ProjectedExposure(d.position, WorkingOf(d.orders))
  {
    FillShrinksTheOutstanding(d.orders, f.order, f.qty, false);
  }

  lemma PositionIsWithinTheBound(position: real, w: Working)
    requires w.buy >= 0.0 && w.sell >= 0.0
    ensures Abs(position) <= ProjectedExposure(position, w)
  {
  }

  lemma {:induction false} NoInterleavingExceedsTheBound(d: Desk, fills: seq<Part>)
    requires After(d, fills).Some?
    ensures ProjectedExposure(After(d, fills).value.position, WorkingOf(After(d, fills).value.orders))
         <= ProjectedExposure(d.position, WorkingOf(d.orders))
  {
    if fills != [] {
      NoInterleavingExceedsTheBound(d, fills[..|fills| - 1]);
      FillKeepsTheBound(After(d, fills[..|fills| - 1]).value, fills[|fills| - 1]);
    }
  }

  /** Every working order of one side among the first `n`, filled whole and in order. */
  function Sweep(orders: seq<Order>, n: nat, side: Side): seq<Part>
    requires n <= |orders|
  {
    if n == 0 then []
    else if Counts(orders[n - 1]) && orders[n - 1].side == side then
      Sweep(orders, n - 1, side) + [Part(n - 1, orders[n - 1].qty)]
    else Sweep(orders, n - 1, side)
  }

  function OnSide(w: Working, side: Side): real
  {
    if side == BUY then w.buy else w.sell
  }

  /** The desk once the sweep of the first `n` orders is done. */
  ghost predicate Swept(d: Desk, n: nat, side: Side, after: Option<Desk>)
    requires n <= |d.orders|
  {
    && after.Some?
    && after.value.position == d.position + Signed(side, OnSide(WorkingOf(d.orders[..n]), side))
    && |after.value.orders| == |d.orders|
    && forall i :: n <= i < |d.orders| ==> after.value.orders[i] == d.orders[i]
  }

  lemma {:induction false} SweepTakesTheWholeSide(d: Desk, n: nat, side: Side)
    requires n <= |d.orders|
    ensures Swept(d, n, side, After(d, Sweep(d.orders, n, side)))
  {
    if n == 0 {
      assert d.orders[..0] == [];
    } else {
      SweepTakesTheWholeSide(d, n - 1, side);
      assert d.orders[..n][..n - 1] == d.orders[..n - 1];
      if Counts(d.orders[n - 1]) && d.orders[n - 1].side == side {
        AfterOneMore(d, Sweep(d.orders, n - 1, side), Part(n - 1, d.orders[n - 1].qty));
      }
    }
  }

  /** `projected_exposure` is the least upper bound of |position| over every interleaving
      of partial fills of the working orders: none exceeds it, and one attains it. */
  lemma ProjectedExposureIsTheLeastUpperBound(d: Desk)
    ensures forall p :: Reachable(d, p) ==> Abs(p) <= ProjectedExposure(d.position, WorkingOf(d.orders))
    ensures exists p :: Reachable(d, p) && Abs(p) == ProjectedExposure(d.position, WorkingOf(d.orders))
  {
    var w := WorkingOf(d.orders);
    forall p | Reachable(d, p)
      ensures Abs(p) <= ProjectedExposure(d.position, w)
    {
      var fills :| After(d, fills).Some? && After(d, fills).value.position == p;
      NoInterleavingExceedsTheBound(d, fills);
      PositionIsWithinTheBound(p, WorkingOf(After(d, fills).value.orders));
    }
    var side := if Abs(d.position + w.buy) >= Abs(d.position - w.sell) then BUY else SELL;
    SweepTakesTheWholeSide(d, |d.orders|, side);
    assert d.orders[..|d.orders|] == d.orders;
    assert Reachable(d, After(d, Sweep(d.orders, |d.orders|, side)).value.position);
  }

  // ----------------------------------------------------------------------- hedge mode

  /** A leg cannot cross zero: what is left of a fill that would is refused. */
  predicate Holds(side: PositionSide, position: real)
  {
    match side
    case BOTH => true
    case LONG => position >= 0.0
    case SHORT => position <= 0.0
  }

  /** One step of a leg: a working order fills in part, or a reduce-only one shrinks it. */
  predicate LegCanFill(side: PositionSide, d: Desk, f: Part)
  {
    && f.order < |d.orders| && 0.0 < f.qty <= d.orders[f.order].qty
    && Holds(side, Fill(d, f).position)
    && (d.orders[f.order].reduceOnly ==> Abs(Fill(d, f).position) <= Abs(d.position))
  }

  /** The order grows the leg. */
  predicate Opens(side: PositionSide, o: Order)
  {
    o.side == if side == LONG then BUY else SELL
  }

  /** In the leg's own terms: no more than is outstanding, never across zero, and a
      reduce-only order only against the leg. */
  lemma LegCanFillExactly(side: PositionSide, d: Desk, f: Part)
    requires side.Hedged() && Holds(side, d.position) && f.order < |d.orders|
    ensures LegCanFill(side, d, f)
       <==> && 0.0 < f.qty <= d.orders[f.order].qty
            && (Opens(side, d.orders[f.order]) ==> !d.orders[f.order].reduceOnly)
            && (!Opens(side, d.orders[f.order]) ==> f.qty <= Abs(d.position))
  {
  }

  /** The one-term bound of a hedge leg never grows under a fill, growing or shrinking,
      reduce-only or not. */
  lemma LegFillKeepsTheBound(side: PositionSide, d: Desk, f: Part)
    requires side.Hedged() && Holds(side, d.position) && LegCanFill(side, d, f)
    ensures SideProjectedExposure(side, Fill(d, f).position, WorkingOf(Fill(d, f).orders))
         <= SideProjectedExposure(side, d.position, WorkingOf(d.orders))
    ensures Holds(side, Fill(d, f).position)
  {
    FillShrinksTheOutstanding(d.orders, f.order, f.qty, false);
  }
}
