/** Every trade is the sum of its legs: what the builder's running figures and the averages it
    prints are, over every sequence of calls (perplab/analytics/trades.py). */
module TradeLegs {
  import opened Money
  import opened Wrappers
  import opened Liquidation
  import opened Positions
  import opened Ledger
  import opened TradeBook
  import opened Session

  /** One call on the builder. */
  datatype Note =
    | Filled(fill: FillNote)
    | Liquidated(ts: int, key: Key, closedQty: real, price: real, realized: real)
    | Funded(key: Key, flow: real)
    | Sampled(key: Key, price: real, unrealized: real)

  function Noted(b: Book, n: Note): Book
  {
    match n
    case Filled(f) => NoteFill(b, f)
    case Liquidated(ts, k, qty, price, realized) => NoteLiquidation(b, ts, k, qty, price, realized)
    case Funded(k, flow) => NoteFunding(b, k, flow)
    case Sampled(k, price, unrealized) => NoteMark(b, k, price, unrealized)
  }

  function BookOf(notes: seq<Note>): Book
  {
    if notes == [] then Fresh else Noted(BookOf(notes[..|notes| - 1]), notes[|notes| - 1])
  }

  // ----------------------------------------------------------------------------- the legs

  /** A leg into the position, with the size it left; a leg out of it; a funding cashflow; a
      price sampled on the way. */
  datatype Leg =
    | In(ts: int, qty: real, price: real, fee: real, size: real)
    | Out(ts: int, qty: real, price: real, fee: real, realized: real)
    | Flow(amount: real)
    | Seen(price: real)
  {
    predicate Trades()
    {
      In? || Out?
    }
  }

  /** A round-trip: which way it went, and what happened to it. */
  datatype Life = Life(long: bool, legs: seq<Leg>) {
    function Then(l: Leg): Life
    {
      Life(long, legs + [l])
    }
  }

  datatype Ended = Ended(key: Key, reason: CloseReason, life: Life)

  /** The open round-trips, and those that ended. */
  datatype Story = Story(live: map<Key, Life>, ended: seq<Ended>) {
    function LifeOf(k: Key, sign: int): Life
    {
      if k in live then live[k] else Life(sign > 0, [])
    }

    function Put(k: Key, life: Life): Story
    {
      Story(live[k := life], ended)
    }

    function End(k: Key, reason: CloseReason, life: Life): Story
    {
      Story(live - {k}, ended + [Ended(k, reason, life)])
    }
  }

  function Lesser(x: real, y: real): real
  {
    if x <= y then x else y
  }

  /** The story after the closing half of a fill against the position. */
  function TellReduced(t: Story, f: FillNote): Story
  {
    var life := t.LifeOf(f.key, Sign(f.before)).Then(Out(f.ts, Lesser(Abs(f.qty), Abs(f.before)), f.price, ClosingFee(f), f.realized));
    if Sign(f.after) != Sign(f.before) then t.End(f.key, SIGNAL, life) else t.Put(f.key, life)
  }

  /** The life a fill starts with its first leg. */
  function Born(ts: int, sign: int, qty: real, price: real, fee: real, after: real): Life
  {
    Life(sign > 0, [In(ts, qty, price, fee, Abs(after))])
  }

  /** A fill from flat starts a round-trip, one the position's way is a leg in, one against
      it a leg out that ends the round-trip at or across zero; across it the rest is the
      first leg in of the next. */
  function TellFill(t: Story, f: FillNote): Story
  {
    var size, held := Abs(f.qty), Abs(f.before);
    if f.before == 0.0 then t.Put(f.key, Born(f.ts, Sign(f.qty), size, f.price, f.fee, f.after))
    else if Sign(f.qty) == Sign(f.before) then
      t.Put(f.key, t.LifeOf(f.key, Sign(f.before)).Then(In(f.ts, size, f.price, f.fee, Abs(f.after))))
    else if size > held then
      TellReduced(t, f).Put(f.key, Born(f.ts, Sign(f.after), size - held, f.price, f.fee - ClosingFee(f), f.after))
    else TellReduced(t, f)
  }

  function Tell(t: Story, n: Note): Story
  {
    match n
    case Filled(f) => TellFill(t, f)
    case Liquidated(ts, k, qty, price, realized) =>
      if k in t.live then t.End(k, LIQUIDATED, t.live[k].Then(Out(ts, Abs(qty), price, 0.0, realized))) else t
    case Funded(k, flow) => if k in t.live then t.Put(k, t.live[k].Then(Flow(flow))) else t
    case Sampled(k, price, _) => if k in t.live then t.Put(k, t.live[k].Then(Seen(price))) else t
  }

  function StoryOf(notes: seq<Note>): Story
  {
    if notes == [] then Story(map[], []) else Tell(StoryOf(notes[..|notes| - 1]), notes[|notes| - 1])
  }

  // ------------------------------------------------------------------------ what they sum to

  function Total(legs: seq<Leg>, of: Leg -> real): real
  {
    if legs == [] then 0.0 else Total(legs[..|legs| - 1], of) + of(legs[|legs| - 1])
  }

  function InQty(l: Leg): real { if l.In? then l.qty else 0.0 }

  function InNotional(l: Leg): real { if l.In? then Times(l.qty, l.price) else 0.0 }

  function OutQty(l: Leg): real { if l.Out? then l.qty else 0.0 }

  function OutNotional(l: Leg): real { if l.Out? then Times(l.qty, l.price) else 0.0 }

  function RealizedIn(l: Leg): real { if l.Out? then l.realized else 0.0 }

  function FeeOf(l: Leg): real { if l.Trades() then l.fee else 0.0 }

  function FlowIn(l: Leg): real { if l.Flow? then l.amount else 0.0 }

  function Count(l: Leg): real { if l.Trades() then 1.0 else 0.0 }

  /** The largest size any leg in has left. */
  predicate IsGreatestSize(x: real, legs: seq<Leg>)
  {
    && x >= 0.0 && (forall i :: 0 <= i < |legs| && legs[i].In? ==> legs[i].size <= x)
    && (x == 0.0 || exists i :: 0 <= i < |legs| && legs[i].In? && legs[i].size == x)
  }

  predicate IsSeen(x: real, legs: seq<Leg>)
  {
    exists i :: 0 <= i < |legs| && legs[i] == Seen(x)
  }

  predicate AllPositive(legs: seq<Leg>)
  {
    forall i :: 0 <= i < |legs| && legs[i].Seen? ==> legs[i].price > 0.0
  }

  /** `x` is the lowest, or else the highest, of the prices sampled, if there are any. */
  predicate IsExtreme(x: Option<real>, legs: seq<Leg>, low: bool)
  {
    match x
    case None => forall i :: 0 <= i < |legs| ==> !legs[i].Seen?
    case Some(v) =>
      IsSeen(v, legs) && forall i :: 0 <= i < |legs| && legs[i].Seen? ==> if low then v <= legs[i].price else legs[i].price <= v
  }

  /** The record of a round-trip is the sum of its legs, and has the extremes of its prices. */
  predicate Sums(o: Open, life: Life)
  {
    var legs := life.legs;
    && legs != [] && legs[0].Trades() && o.entryMs == legs[0].ts && o.long == life.long
    && o.openQty == Total(legs, InQty) && o.openNotional == Total(legs, InNotional)
    && o.closeQty == Total(legs, OutQty) && o.closeNotional == Total(legs, OutNotional)
    && o.realized == Total(legs, RealizedIn) && o.fees == Total(legs, FeeOf) && o.funding == Total(legs, FlowIn)
    && o.legs as real == Total(legs, Count) && IsGreatestSize(o.maxQty, legs) && Ranged(o, life)
  }

  /** The worst price of a long is its lowest, of a short its highest. */
  predicate Ranged(o: Open, life: Life)
  {
    AllPositive(life.legs) ==> IsExtreme(o.maePrice, life.legs, life.long) && IsExtreme(o.mfePrice, life.legs, !life.long)
  }

  /** A price on the grid is the notional's average over a quantity, to half a quantum. */
  predicate IsAverage(price: real, notional: real, qty: real)
  {
    OnGrid(price) && -Times(qty, HALF_QUANTUM) <= Times(qty, price) - notional <= Times(qty, HALF_QUANTUM)
  }

  /** A price the trade has been at: one sampled, or the average exit. */
  predicate WasAt(x: real, legs: seq<Leg>, exit: Option<real>)
  {
    IsSeen(x, legs) || exit == Some(x)
  }

  predicate IsOutermost(x: real, legs: seq<Leg>, exit: Option<real>, low: bool)
  {
    && WasAt(x, legs, exit) && (exit.Some? ==> if low then x <= exit.value else exit.value <= x)
    && forall i :: 0 <= i < |legs| && legs[i].Seen? ==> if low then x <= legs[i].price else legs[i].price <= x
  }

  /** The outermost price the trade has been at; the entry where there is none, or it is zero. */
  ghost predicate PrintsOutermost(price: real, entry: real, legs: seq<Leg>, exit: Option<real>, low: bool)
  {
    if exit == None && (forall i :: 0 <= i < |legs| ==> !legs[i].Seen?) then price == entry
    else exists x :: IsOutermost(x, legs, exit, low) && price == if x == 0.0 then entry else x
  }

  /** What a finished trade prints about its round-trip. */
  ghost predicate Prints(trade: Trade, index: nat, e: Ended)
  {
    var legs, long := e.life.legs, e.life.long;
    && trade.index == index && trade.key == e.key && trade.reason == e.reason && trade.long == long
    && legs != [] && legs[0].Trades() && trade.entryMs == legs[0].ts
    && legs[|legs| - 1].Out? && trade.exitMs == Some(legs[|legs| - 1].ts)
    && IsAverage(trade.entryPrice, Total(legs, InNotional), Total(legs, InQty))
    && (Total(legs, OutQty) == 0.0 ==> trade.exitPrice == None)
    && (Total(legs, OutQty) != 0.0 ==>
          trade.exitPrice.Some? && IsAverage(trade.exitPrice.value, Total(legs, OutNotional), Total(legs, OutQty)))
    && trade.realized == Total(legs, RealizedIn) && trade.fees == Total(legs, FeeOf) && trade.funding == Total(legs, FlowIn)
    && trade.legs as real == Total(legs, Count) && IsGreatestSize(trade.maxQty, legs)
    && (AllPositive(legs) ==>
          && PrintsOutermost(trade.maePrice, trade.entryPrice, legs, trade.exitPrice, long)
          && PrintsOutermost(trade.mfePrice, trade.entryPrice, legs, trade.exitPrice, !long))
  }

  /** Sizes are not negative. */
  predicate Sized(legs: seq<Leg>)
  {
    forall i :: 0 <= i < |legs| && legs[i].Trades() ==> legs[i].qty >= 0.0
  }

  lemma OneMore(legs: seq<Leg>, l: Leg, of: Leg -> real)
    ensures Total(legs + [l], of) == Total(legs, of) + of(l)
  {
    assert (legs + [l])[..|legs|] == legs;
  }

  lemma OneMoreLeg(legs: seq<Leg>, l: Leg)
    ensures Total(legs + [l], InQty) == Total(legs, InQty) + InQty(l)
    ensures Total(legs + [l], InNotional) == Total(legs, InNotional) + InNotional(l)
    ensures Total(legs + [l], OutQty) == Total(legs, OutQty) + OutQty(l)
    ensures Total(legs + [l], OutNotional) == Total(legs, OutNotional) + OutNotional(l)
    ensures Total(legs + [l], RealizedIn) == Total(legs, RealizedIn) + RealizedIn(l)
    ensures Total(legs + [l], FeeOf) == Total(legs, FeeOf) + FeeOf(l)
    ensures Total(legs + [l], FlowIn) == Total(legs, FlowIn) + FlowIn(l)
    ensures Total(legs + [l], Count) == Total(legs, Count) + Count(l)
  {
    OneMore(legs, l, InQty);
    OneMore(legs, l, InNotional);
    OneMore(legs, l, OutQty);
    OneMore(legs, l, OutNotional);
    OneMore(legs, l, RealizedIn);
    OneMore(legs, l, FeeOf);
    OneMore(legs, l, FlowIn);
    OneMore(legs, l, Count);
  }

  lemma GreatestOneMore(x: real, legs: seq<Leg>, l: Leg)
    requires IsGreatestSize(x, legs) && (l.In? ==> l.size >= 0.0)
    ensures IsGreatestSize(if l.In? && l.size > x then l.size else x, legs + [l])
  {
    var all := legs + [l];
    assert all[|legs|] == l;
    if l.In? && l.size > x {
    } else if x != 0.0 {
      var i :| 0 <= i < |legs| && legs[i].In? && legs[i].size == x;
      assert all[i] == legs[i];
    }
  }

  lemma SeenOneMore(legs: seq<Leg>, l: Leg)
    ensures forall x :: IsSeen(x, legs + [l]) <==> IsSeen(x, legs) || l == Seen(x)
    ensures AllPositive(legs + [l]) <==> AllPositive(legs) && (l.Seen? ==> l.price > 0.0)
  {
    var all := legs + [l];
    assert all[|legs|] == l && forall i :: 0 <= i < |legs| ==> all[i] == legs[i];
    forall x ensures IsSeen(x, all) <==> IsSeen(x, legs) || l == Seen(x) {
      if IsSeen(x, legs) {
        var i :| 0 <= i < |legs| && legs[i] == Seen(x);
        assert all[i] == Seen(x);
      }
    }
  }

  lemma ExtremeStands(x: Option<real>, legs: seq<Leg>, low: bool, l: Leg)
    requires IsExtreme(x, legs, low) && !l.Seen?
    ensures IsExtreme(x, legs + [l], low)
  {
    SeenOneMore(legs, l);
  }

  lemma ExtremeMoves(x: Option<real>, legs: seq<Leg>, low: bool, price: real)
    requires IsExtreme(x, legs, low)
    ensures IsExtreme(if low then Least(x, Some(price)) else Greatest(x, Some(price)), legs + [Seen(price)], low)
  {
    SeenOneMore(legs, Seen(price));
  }

  /** A leg that is no sample leaves the extremes alone. */
  lemma RangeStands(o: Open, o': Open, life: Life, l: Leg)
    requires Ranged(o, life) && !l.Seen? && o'.maePrice == o.maePrice && o'.mfePrice == o.mfePrice
    ensures Ranged(o', life.Then(l))
  {
    SeenOneMore(life.legs, l);
    if AllPositive(life.legs) {
      ExtremeStands(o.maePrice, life.legs, life.long, l);
      ExtremeStands(o.mfePrice, life.legs, !life.long, l);
    }
  }

  lemma RangeMoves(o: Open, life: Life, price: real, unrealized: real)
    requires Ranged(o, life)
    ensures o.long == life.long ==> Ranged(Marked(o, price, unrealized), life.Then(Seen(price)))
  {
    SeenOneMore(life.legs, Seen(price));
    if AllPositive(life.legs) {
      ExtremeMoves(o.maePrice, life.legs, life.long, price);
      ExtremeMoves(o.mfePrice, life.legs, !life.long, price);
    }
  }

  /** A record before its first leg. */
  predicate Blank(o: Open, ts: int, long: bool)
  {
    && o.entryMs == ts && o.openQty == 0.0 && o.openNotional == 0.0 && o.closeQty == 0.0 && o.closeNotional == 0.0
    && o.realized == 0.0 && o.fees == 0.0 && o.funding == 0.0 && o.legs == 0 && o.maxQty == 0.0
    && o.long == long && o.maePrice == None && o.mfePrice == None
  }

  predicate SumsOrBlank(o: Open, ts: int, life: Life)
  {
    if life.legs == [] then Blank(o, ts, life.long) else Sums(o, life)
  }

  lemma LegInSums(o: Open, life: Life, ts: int, qty: real, price: real, fee: real, after: real)
    requires SumsOrBlank(o, ts, life)
    ensures Sums(Opening(o, qty, price, fee, after), life.Then(In(ts, qty, price, fee, Abs(after))))
  {
    OneMoreLeg(life.legs, In(ts, qty, price, fee, Abs(after)));
    GreatestOneMore(o.maxQty, life.legs, In(ts, qty, price, fee, Abs(after)));
    RangeStands(o, Opening(o, qty, price, fee, after), life, In(ts, qty, price, fee, Abs(after)));
  }

  lemma LegOutSums(o: Open, life: Life, ts: int, qty: real, price: real, fee: real, realized: real)
    requires SumsOrBlank(o, ts, life)
    ensures Sums(Closing(o, qty, price, fee, realized), life.Then(Out(ts, qty, price, fee, realized)))
  {
    OneMoreLeg(life.legs, Out(ts, qty, price, fee, realized));
    GreatestOneMore(o.maxQty, life.legs, Out(ts, qty, price, fee, realized));
    RangeStands(o, Closing(o, qty, price, fee, realized), life, Out(ts, qty, price, fee, realized));
  }

  lemma FlowSums(o: Open, life: Life, flow: real)
    requires Sums(o, life)
    ensures Sums(o.(funding := o.funding + flow), life.Then(Flow(flow)))
  {
    OneMoreLeg(life.legs, Flow(flow));
    GreatestOneMore(o.maxQty, life.legs, Flow(flow));
    RangeStands(o, o.(funding := o.funding + flow), life, Flow(flow));
  }

  lemma SampleSums(o: Open, life: Life, price: real, unrealized: real)
    requires Sums(o, life)
    ensures Sums(Marked(o, price, unrealized), life.Then(Seen(price)))
  {
    OneMoreLeg(life.legs, Seen(price));
    GreatestOneMore(o.maxQty, life.legs, Seen(price));
    RangeMoves(o, life, price, unrealized);
  }

  lemma {:induction false} SizesAddUp(legs: seq<Leg>)
    requires Sized(legs)
    ensures Total(legs, InQty) >= 0.0 && Total(legs, OutQty) >= 0.0
  {
    if legs != [] { SizesAddUp(legs[..|legs| - 1]); }
  }

  lemma AverageIsNear(notional: real, qty: real)
    requires qty > 0.0
    ensures IsAverage(Quantize(notional / qty), notional, qty)
  {
    var exact := notional / qty;
    Quotient(notional, qty);
    QuantizeError(exact);
    TimesLinear(qty, Quantize(exact), exact);
    TimesLinear(qty, HALF_QUANTUM, Quantize(exact) - exact);
    TimesSign(qty, HALF_QUANTUM - (Quantize(exact) - exact));
    TimesSign(qty, HALF_QUANTUM + (Quantize(exact) - exact));
  }

  lemma {:induction false} NothingInHasNoNotional(legs: seq<Leg>)
    requires Sized(legs) && Total(legs, InQty) == 0.0
    ensures Total(legs, InNotional) == 0.0
  {
    if legs != [] {
      var front, l := legs[..|legs| - 1], legs[|legs| - 1];
      SizesAddUp(front);
      NothingInHasNoNotional(front);
      if l.In? { assert Times(0.0, l.price) == 0.0; }
    }
  }

  lemma EntryIsAverage(o: Open, legs: seq<Leg>)
    requires o.openQty == Total(legs, InQty) && o.openNotional == Total(legs, InNotional) && Sized(legs)
    ensures IsAverage(OrElse(Average(o.openNotional, o.openQty), 0.0), o.openNotional, o.openQty)
  {
    SizesAddUp(legs);
    if o.openQty > 0.0 {
      AverageIsNear(o.openNotional, o.openQty);
    } else {
      NothingInHasNoNotional(legs);
      QuantizeFixpoint(0.0);
      assert Times(0.0, 0.0) == 0.0 && Times(0.0, HALF_QUANTUM) == 0.0;
    }
  }

  lemma ExitIsAverage(o: Open, legs: seq<Leg>)
    requires o.closeQty == Total(legs, OutQty) && Sized(legs)
    ensures var exit := Average(o.closeNotional, o.closeQty);
            if o.closeQty == 0.0 then exit == None else exit.Some? && IsAverage(exit.value, o.closeNotional, o.closeQty)
  {
    SizesAddUp(legs);
    if o.closeQty > 0.0 { AverageIsNear(o.closeNotional, o.closeQty); }
  }

  /** An extreme of the record, with the exit, is the outermost price. */
  lemma ExtremeIsOutermost(recorded: Option<real>, legs: seq<Leg>, exit: Option<real>, low: bool, entry: real)
    requires IsExtreme(recorded, legs, low)
    ensures PrintsOutermost(OrElse(if low then Least(recorded, exit) else Greatest(recorded, exit), entry), entry, legs, exit, low)
  {
    var x := if low then Least(recorded, exit) else Greatest(recorded, exit);
    if x == None {
    } else {
      assert IsOutermost(x.value, legs, exit, low);
    }
  }

  lemma RenderedExtremes(o: Open, life: Life, exit: Option<real>, entry: real)
    requires Ranged(o, life) && AllPositive(life.legs) && o.long == life.long
    ensures PrintsOutermost(OrElse(Extreme(o, exit, true), entry), entry, life.legs, exit, life.long)
    ensures PrintsOutermost(OrElse(Extreme(o, exit, false), entry), entry, life.legs, exit, !life.long)
  {
    ExtremeIsOutermost(o.maePrice, life.legs, exit, life.long, entry);
    ExtremeIsOutermost(o.mfePrice, life.legs, exit, !life.long, entry);
  }

  /** What is rendered of a record that sums its legs prints them. */
  lemma RenderingPrints(o: Open, k: Key, life: Life, reason: CloseReason, index: nat)
    requires Sums(o, life) && Sized(life.legs) && life.legs[|life.legs| - 1].Out?
    ensures Prints(Render(o, k, Some(life.legs[|life.legs| - 1].ts), reason, index), index, Ended(k, reason, life))
  {
    EntryIsAverage(o, life.legs);
    ExitIsAverage(o, life.legs);
    if AllPositive(life.legs) {
      RenderedExtremes(o, life, Average(o.closeNotional, o.closeQty), OrElse(Average(o.openNotional, o.openQty), 0.0));
    }
  }

  // ------------------------------------------------------------------------------- every run

  ghost predicate LiveSums(open: map<Key, Open>, live: map<Key, Life>)
  {
    open.Keys == live.Keys && forall k :: k in open ==> Sums(open[k], live[k]) && Sized(live[k].legs)
  }

  ghost predicate EndedPrints(trades: seq<Trade>, ended: seq<Ended>)
  {
    |trades| == |ended| && forall i :: 0 <= i < |trades| ==> Prints(trades[i], i, ended[i])
  }

  ghost predicate Tells(b: Book, t: Story)
  {
    LiveSums(b.open, t.live) && EndedPrints(b.trades, t.ended)
  }

  lemma PutTells(b: Book, b': Book, t: Story, k: Key, o: Open, life: Life)
    requires Tells(b, t) && Sums(o, life) && Sized(life.legs) && b'.open == b.open[k := o] && b'.trades == b.trades
    ensures Tells(b', t.Put(k, life))
  {
  }

  lemma EndTells(b: Book, t: Story, k: Key, o: Open, life: Life, reason: CloseReason)
    requires Tells(b, t) && Sums(o, life) && Sized(life.legs) && life.legs[|life.legs| - 1].Out?
    ensures Tells(Finish(b.(open := b.open[k := o]), k, Some(life.legs[|life.legs| - 1].ts), reason), t.End(k, reason, life))
  {
    RenderingPrints(o, k, life, reason, |b.trades|);
    assert b.open[k := o] - {k} == b.open - {k};
  }

  lemma SizedOneMore(legs: seq<Leg>, l: Leg)
    requires Sized(legs) && (l.Trades() ==> l.qty >= 0.0)
    ensures Sized(legs + [l])
  {
  }

  lemma RecordOrBlank(b: Book, t: Story, k: Key, ts: int, sign: int)
    requires Tells(b, t)
    ensures SumsOrBlank(if k in b.open then b.open[k] else Started(ts, sign), ts, t.LifeOf(k, sign))
    ensures Sized(t.LifeOf(k, sign).legs)
  {
  }

  lemma BornSums(ts: int, sign: int, qty: real, price: real, fee: real, after: real)
    requires qty >= 0.0
    ensures Sums(Opening(Started(ts, sign), qty, price, fee, after), Born(ts, sign, qty, price, fee, after))
    ensures Sized(Born(ts, sign, qty, price, fee, after).legs)
  {
    LegInSums(Started(ts, sign), Life(sign > 0, []), ts, qty, price, fee, after);
    assert [] + [In(ts, qty, price, fee, Abs(after))] == [In(ts, qty, price, fee, Abs(after))];
  }

  lemma StartingTells(b: Book, t: Story, f: FillNote)
    requires Tells(b, t) && f.before == 0.0
    ensures Tells(NoteFill(b, f), TellFill(t, f))
  {
    BornSums(f.ts, Sign(f.qty), Abs(f.qty), f.price, f.fee, f.after);
    PutTells(b, NoteFill(b, f), t, f.key, Opening(Started(f.ts, Sign(f.qty)), Abs(f.qty), f.price, f.fee, f.after),
             Born(f.ts, Sign(f.qty), Abs(f.qty), f.price, f.fee, f.after));
  }

  lemma GrowingTells(b: Book, t: Story, f: FillNote)
    requires Tells(b, t) && f.before != 0.0 && Sign(f.qty) == Sign(f.before)
    ensures Tells(NoteFill(b, f), TellFill(t, f))
  {
    var leg, life := In(f.ts, Abs(f.qty), f.price, f.fee, Abs(f.after)), t.LifeOf(f.key, Sign(f.before));
    var o := if f.key in b.open then b.open[f.key] else Started(f.ts, Sign(f.before));
    RecordOrBlank(b, t, f.key, f.ts, Sign(f.before));
    LegInSums(o, life, f.ts, Abs(f.qty), f.price, f.fee, f.after);
    SizedOneMore(life.legs, leg);
    PutTells(b, NoteFill(b, f), t, f.key, Opening(o, Abs(f.qty), f.price, f.fee, f.after), life.Then(leg));
  }

  lemma ReducingTells(b: Book, t: Story, f: FillNote)
    requires Tells(b, t) && f.before != 0.0 && Sign(f.qty) != Sign(f.before)
    ensures Tells(Reduced(b, f), TellReduced(t, f))
  {
    var leg := Out(f.ts, Lesser(Abs(f.qty), Abs(f.before)), f.price, ClosingFee(f), f.realized);
    var life := t.LifeOf(f.key, Sign(f.before));
    var o := if f.key in b.open then b.open[f.key] else Started(f.ts, Sign(f.before));
    RecordOrBlank(b, t, f.key, f.ts, Sign(f.before));
    LegOutSums(o, life, f.ts, ClosedQty(f), f.price, ClosingFee(f), f.realized);
    SizedOneMore(life.legs, leg);
    var o' := Closing(o, ClosedQty(f), f.price, ClosingFee(f), f.realized);
    if Sign(f.after) != Sign(f.before) {
      EndTells(b, t, f.key, o', life.Then(leg), SIGNAL);
    } else {
      PutTells(b, Struck(b, f), t, f.key, o', life.Then(leg));
    }
  }

  /** The half that opens. */
  lemma ResidualTells(b: Book, t: Story, f: FillNote)
    requires Tells(b, t) && Abs(f.qty) > Abs(f.before)
    ensures Tells(b.(open := b.open[f.key := Residual(f)]),
                  t.Put(f.key, Born(f.ts, Sign(f.after), Abs(f.qty) - Abs(f.before), f.price, f.fee - ClosingFee(f), f.after)))
  {
    BornSums(f.ts, Sign(f.after), Abs(f.qty) - Abs(f.before), f.price, f.fee - ClosingFee(f), f.after);
    PutTells(b, b.(open := b.open[f.key := Residual(f)]), t, f.key, Residual(f),
             Born(f.ts, Sign(f.after), Abs(f.qty) - Abs(f.before), f.price, f.fee - ClosingFee(f), f.after));
  }

  lemma AgainstInTwoHalves(b: Book, t: Story, f: FillNote)
    requires f.before != 0.0 && Sign(f.qty) != Sign(f.before)
    ensures var reduced, told := Reduced(b, f), TellReduced(t, f);
            if Abs(f.qty) > Abs(f.before) then
              && NoteFill(b, f) == reduced.(open := reduced.open[f.key := Residual(f)])
              && TellFill(t, f)
                 == told.Put(f.key, Born(f.ts, Sign(f.after), Abs(f.qty) - Abs(f.before), f.price, f.fee - ClosingFee(f), f.after))
            else NoteFill(b, f) == reduced && TellFill(t, f) == told
  {
  }

  lemma AgainstTells(b: Book, t: Story, f: FillNote, reduced: Book, told: Story)
    requires Tells(b, t) && f.before != 0.0 && Sign(f.qty) != Sign(f.before)
    requires reduced == Reduced(b, f) && told == TellReduced(t, f)
    ensures Tells(NoteFill(b, f), TellFill(t, f))
  {
    ReducingTells(b, t, f);
    AgainstInTwoHalves(b, t, f);
    if Abs(f.qty) > Abs(f.before) { ResidualTells(reduced, told, f); }
  }

  lemma LiquidationTells(b: Book, t: Story, n: Note)
    requires Tells(b, t) && n.Liquidated?
    ensures Tells(Noted(b, n), Tell(t, n))
  {
    if n.key in b.open {
      var leg, life := Out(n.ts, Abs(n.closedQty), n.price, 0.0, n.realized), t.live[n.key];
      LegOutSums(b.open[n.key], life, n.ts, Abs(n.closedQty), n.price, 0.0, n.realized);
      SizedOneMore(life.legs, leg);
      EndTells(b, t, n.key, Closing(b.open[n.key], Abs(n.closedQty), n.price, 0.0, n.realized), life.Then(leg), LIQUIDATED);
    }
  }

  lemma FundingTells(b: Book, t: Story, n: Note)
    requires Tells(b, t) && n.Funded?
    ensures Tells(Noted(b, n), Tell(t, n))
  {
    if n.key in b.open {
      var o, life := b.open[n.key], t.live[n.key];
      FlowSums(o, life, n.flow);
      SizedOneMore(life.legs, Flow(n.flow));
      var b' := Noted(b, n);
      assert b' == b.(open := b.open[n.key := o.(funding := o.funding + n.flow)]);
      PutTells(b, b', t, n.key, o.(funding := o.funding + n.flow), life.Then(Flow(n.flow)));
    }
  }

  lemma SampleTells(b: Book, t: Story, n: Note)
    requires Tells(b, t) && n.Sampled?
    ensures Tells(Noted(b, n), Tell(t, n))
  {
    if n.key in b.open {
      var life := t.live[n.key];
      SampleSums(b.open[n.key], life, n.price, n.unrealized);
      SizedOneMore(life.legs, Seen(n.price));
      PutTells(b, Noted(b, n), t, n.key, Marked(b.open[n.key], n.price, n.unrealized), life.Then(Seen(n.price)));
    }
  }

  /** Over every sequence of calls: each open record is the sum of its legs, and each trade
      prints which way it went and why it ended, the average prices, the sums, the count and
      the greatest size of its own legs, and the outermost prices it has been at. */
  lemma {:induction false} EveryTradeIsItsLegs(notes: seq<Note>)
    ensures Tells(BookOf(notes), StoryOf(notes))
  {
    if notes != [] {
      var front, n := notes[..|notes| - 1], notes[|notes| - 1];
      EveryTradeIsItsLegs(front);
      NoteTells(BookOf(front), StoryOf(front), n);
    }
  }

  lemma NoteTells(b: Book, t: Story, n: Note)
    requires Tells(b, t)
    ensures Tells(Noted(b, n), Tell(t, n))
  {
    if n.Filled? {
      if n.fill.before == 0.0 {
        StartingTells(b, t, n.fill);
      } else if Sign(n.fill.qty) == Sign(n.fill.before) {
        GrowingTells(b, t, n.fill);
      } else {
        AgainstTells(b, t, n.fill, Reduced(b, n.fill), TellReduced(t, n.fill));
      }
    } else if n.Liquidated? {
      LiquidationTells(b, t, n);
    } else if n.Funded? {
      FundingTells(b, t, n);
    } else {
      SampleTells(b, t, n);
    }
  }

  // ------------------------------------------------------------------- the driver's calls

  function NotesOfPrices(k: Key, p: Position, prices: seq<real>): seq<Note>
  {
    if prices == [] then []
    else
      var price := prices[|prices| - 1];
      NotesOfPrices(k, p, prices[..|prices| - 1]) + [Sampled(k, price, p.UnrealizedPnl(price))]
  }

  function NotesOfMarks(s: Ledger, order: seq<Key>, ranges: map<string, Range>): seq<Note>
  {
    if order == [] then []
    else
      var front, k := NotesOfMarks(s, order[..|order| - 1], ranges), order[|order| - 1];
      if k in s.positions && k.symbol in s.marks then
        front + NotesOfPrices(k, s.positions[k], Prices(ranges, k.symbol, s.marks[k.symbol]))
      else front
  }

  function NotesOfFundings(symbol: string, sides: seq<PositionSide>, settled: map<PositionSide, real>): seq<Note>
  {
    if sides == [] then []
    else
      var front, side := NotesOfFundings(symbol, sides[..|sides| - 1], settled), sides[|sides| - 1];
      if side in settled && settled[side] != 0.0 then front + [Funded(Key(symbol, side), settled[side])] else front
  }

  function NotesOfLiquidations(ts: int, results: seq<LiquidationResult>): seq<Note>
  {
    if results == [] then []
    else
      var r := results[|results| - 1];
      NotesOfLiquidations(ts, results[..|results| - 1]) + [Note.Liquidated(ts, r.key, r.closedQty, r.trigger, r.realized)]
  }

  /** What one step of the driver tells the builder. */
  ghost function NotesOf(c: Config, x: Session, op: SessionOp): seq<Note>
    requires ConfigBuilds(c)
  {
    var s := x.ledger;
    if x.aborted then []
    else
      match op
      case Sample(order, ranges) => NotesOfMarks(s, order, ranges)
      case Apply(DoFill(f)) =>
        var d := ApplyFill(c, s, f);
        if d.outcome.Raised? then [] else [Filled(NoteOf(s, d.ledger, f, d.outcome.value))]
      case Apply(DoFunding(ts, symbol, rate, at)) =>
        var d := ApplyFunding(c, s, ts, symbol, rate, at);
        if d.outcome.Raised? then [] else NotesOfFundings(symbol, OpenSides(s, symbol), d.outcome.value)
      case Apply(DoLiquidations(ts, order)) =>
        var d := CheckLiquidations(c, s, ts, order);
        if d.outcome.Raised? then [] else NotesOfLiquidations(ts, d.outcome.value)
      case Apply(other) => []
  }

  ghost function NotesOfRun(c: Config, ops: seq<SessionOp>): seq<Note>
    requires ConfigBuilds(c)
  {
    if ops == [] then []
    else NotesOfRun(c, ops[..|ops| - 1]) + NotesOf(c, RunBoth(c, ops[..|ops| - 1]), ops[|ops| - 1])
  }

  function NotedAll(b: Book, notes: seq<Note>): Book
  {
    if notes == [] then b else Noted(NotedAll(b, notes[..|notes| - 1]), notes[|notes| - 1])
  }

  lemma {:induction false} NotedInTurn(b: Book, first: seq<Note>, second: seq<Note>)
    ensures NotedAll(b, first + second) == NotedAll(NotedAll(b, first), second)
  {
    if second == [] {
      assert first + second == first;
    } else {
      NotedInTurn(b, first, second[..|second| - 1]);
      assert (first + second)[..|first + second| - 1] == first + second[..|second| - 1];
    }
  }

  lemma NotedOneMore(b: Book, notes: seq<Note>, n: Note)
    ensures NotedAll(b, notes + [n]) == Noted(NotedAll(b, notes), n)
  {
    assert (notes + [n])[..|notes|] == notes;
  }

  lemma {:induction false} PricesAreNoted(b: Book, k: Key, p: Position, prices: seq<real>)
    ensures NotePrices(b, k, p, prices) == NotedAll(b, NotesOfPrices(k, p, prices))
  {
    if prices != [] {
      var front, price := prices[..|prices| - 1], prices[|prices| - 1];
      PricesAreNoted(b, k, p, front);
      NotedOneMore(b, NotesOfPrices(k, p, front), Sampled(k, price, p.UnrealizedPnl(price)));
    }
  }

  lemma {:induction false} MarksAreNoted(s: Ledger, b: Book, order: seq<Key>, ranges: map<string, Range>)
    ensures NoteMarks(s, b, order, ranges) == NotedAll(b, NotesOfMarks(s, order, ranges))
  {
    if order != [] {
      var front, k := order[..|order| - 1], order[|order| - 1];
      MarksAreNoted(s, b, front, ranges);
      if k in s.positions && k.symbol in s.marks {
        var prices := Prices(ranges, k.symbol, s.marks[k.symbol]);
        PricesAreNoted(NoteMarks(s, b, front, ranges), k, s.positions[k], prices);
        NotedInTurn(b, NotesOfMarks(s, front, ranges), NotesOfPrices(k, s.positions[k], prices));
      }
    }
  }

  lemma {:induction false} FundingsAreNoted(b: Book, symbol: string, sides: seq<PositionSide>, settled: map<PositionSide, real>)
    ensures NoteFundings(b, symbol, sides, settled) == NotedAll(b, NotesOfFundings(symbol, sides, settled))
  {
    if sides != [] {
      var front, side := sides[..|sides| - 1], sides[|sides| - 1];
      FundingsAreNoted(b, symbol, front, settled);
      if side in settled {
        NotedOneMore(b, NotesOfFundings(symbol, front, settled), Funded(Key(symbol, side), settled[side]));
      }
    }
  }

  lemma {:induction false} LiquidationsAreNoted(b: Book, ts: int, results: seq<LiquidationResult>)
    ensures NoteLiquidations(b, ts, results) == NotedAll(b, NotesOfLiquidations(ts, results))
  {
    if results != [] {
      var front, r := results[..|results| - 1], results[|results| - 1];
      LiquidationsAreNoted(b, ts, front);
      NotedOneMore(b, NotesOfLiquidations(ts, front), Note.Liquidated(ts, r.key, r.closedQty, r.trigger, r.realized));
    }
  }

  lemma StepIsNoted(c: Config, x: Session, op: SessionOp)
    requires ConfigBuilds(c)
    ensures StepBoth(c, x, op).book == NotedAll(x.book, NotesOf(c, x, op))
  {
    var s, b := x.ledger, x.book;
    if x.aborted {
    } else if op.Sample? {
      MarksAreNoted(s, b, op.order, op.ranges);
    } else if op.op.DoFill? {
      var d := ApplyFill(c, s, op.op.fill);
      if d.outcome.Ok? { NotedOneMore(b, [], Filled(NoteOf(s, d.ledger, op.op.fill, d.outcome.value))); }
    } else if op.op.DoFunding? {
      var d := ApplyFunding(c, s, op.op.ts, op.op.symbol, op.op.rate, op.op.at);
      if d.outcome.Ok? { FundingsAreNoted(b, op.op.symbol, OpenSides(s, op.op.symbol), d.outcome.value); }
    } else if op.op.DoLiquidations? {
      var d := CheckLiquidations(c, s, op.op.ts, op.op.order);
      if d.outcome.Ok? { LiquidationsAreNoted(b, op.op.ts, d.outcome.value); }
    }
  }

  lemma {:induction false} BookOfIsNoted(notes: seq<Note>)
    ensures BookOf(notes) == NotedAll(Fresh, notes)
  {
    if notes != [] { BookOfIsNoted(notes[..|notes| - 1]); }
  }

  lemma {:induction false} RunIsNoted(c: Config, ops: seq<SessionOp>)
    requires ConfigBuilds(c)
    ensures RunBoth(c, ops).book == NotedAll(Fresh, NotesOfRun(c, ops))
  {
    if ops != [] {
      var front := ops[..|ops| - 1];
      RunIsNoted(c, front);
      StepIsNoted(c, RunBoth(c, front), ops[|ops| - 1]);
      NotedInTurn(Fresh, NotesOfRun(c, front), NotesOf(c, RunBoth(c, front), ops[|ops| - 1]));
    }
  }

  /** So over every run of ledger and builder: each trade is the sum of the fills, cashflows
      and liquidations the ledger accepted for it. */
  lemma EveryTradeOfARunIsItsLegs(c: Config, ops: seq<SessionOp>)
    requires ConfigBuilds(c)
    ensures Tells(RunBoth(c, ops).book, StoryOf(NotesOfRun(c, ops)))
  {
    RunIsNoted(c, ops);
    BookOfIsNoted(NotesOfRun(c, ops));
    EveryTradeIsItsLegs(NotesOfRun(c, ops));
  }

  /** The fee of a fill that crosses zero is split by quantity: the closing half's share, to
      half a quantum, the rest to the half that opens. */
  lemma ClosingFeeIsItsShare(f: FillNote)
    requires f.qty != 0.0
    ensures var size, closed := Abs(f.qty), Lesser(Abs(f.qty), Abs(f.before));
            if size == closed then ClosingFee(f) == f.fee else IsAverage(ClosingFee(f), Times(f.fee, closed), size)
  {
    if Abs(f.qty) > Abs(f.before) { AverageIsNear(Times(f.fee, Abs(f.before)), Abs(f.qty)); }
  }
}
