/** The ledger object and the builder object driven together: the part of the engine that
    hands each ledger result to the round-trips (perplab/engine/backtest.py:2073-2087,
    2273-2288, 3655-3745, 3900-3925). */
module Driver {
  import opened Wrappers
  import opened Positions
  import L = Ledger
  import opened LedgerRuns
  import A = Account
  import B = TradeBook
  import T = TradeBuilding
  import opened Session

  class Engine {
    const account: A.Account
    const builder: T.TradeBuilder
    var aborted: bool

    ghost function State(): Session
      reads this, account, builder, builder.open.Values
    {
      Session(account.State(), builder.Contents(), aborted)
    }

    /** Both objects are sound. */
    ghost predicate Sound()
      reads this, account, builder
    {
      account.Valid() && builder.Valid()
    }

    constructor (config: L.Config)
      requires L.ConfigBuilds(config)
      ensures Sound() && State() == RunBoth(config, []) && account.config == config
    {
      account := new A.Account(config);
      builder := new T.TradeBuilder();
      aborted := false;
    }

    // -------------------------------------------------------------------------- fills

    /** Hand the ledger's result to the round-trips, with the quantities before and after. */
    method HandOutFill(f: L.Fill, r: L.FillResult, held: map<Key, Position>)
      requires builder.Valid()
      modifies builder, builder.open.Values
      ensures builder.Valid()
      ensures builder.Contents() == B.NoteFill(old(builder.Contents()), NoteOfHeld(account.State(), f, r, held))
    {
      var k := Key(f.symbol, r.side);
      var was := if k in held then held[k].qty else 0.0;
      var now := if k in account.positions then account.positions[k].qty else 0.0;
      builder.Fill(B.FillNote(f.ts, k, f.qty, f.price, r.fee, r.realized, was, now));
    }

    /** The round-trips' half of a fill: a failed check ends the run, any other refusal
        leaves them as they were. */
    method Follow(f: L.Fill, r: Outcome<L.FillResult, L.Error>, held: map<Key, Position>, ghost x: Session)
      requires builder.Valid() && !aborted && builder.Contents() == x.book && held == x.ledger.positions
      modifies `aborted, builder, builder.open.Values
      ensures builder.Valid() && State() == AfterFill(x, account.State(), f, r)
    {
      if r.Raised? {
        aborted := Fatal(r.error);
      } else {
        HandOutFill(f, r.value, held);
      }
    }

    /** A fill: the ledger first, then the round-trips. */
    method Fill(f: L.Fill) returns (r: Outcome<L.FillResult, L.Error>)
      requires Sound() && !aborted
      modifies this, account, builder, builder.open.Values
      ensures Sound() && L.Done(account.State(), r) == L.ApplyFill(account.config, old(account.State()), f)
      ensures State() == AfterFill(old(State()), account.State(), f, r)
    {
      var held := account.positions;
      ghost var x := State();
      r := account.ApplyFill(f);
      Follow(f, r, held, x);
    }

    // ------------------------------------------------------------------------ funding

    method HandOutFunding(symbol: string, sides: seq<PositionSide>, settled: map<PositionSide, real>)
      requires builder.Valid()
      modifies builder.open.Values
      ensures builder.Valid()
      ensures builder.Contents() == NoteFundings(old(builder.Contents()), symbol, sides, settled)
    {
      ghost var before := builder.Contents();
      for i := 0 to |sides|
        invariant builder.Valid()
        invariant builder.Contents() == NoteFundings(before, symbol, sides[..i], settled)
      {
        assert sides[..i + 1][..i] == sides[..i];
        if sides[i] in settled && settled[sides[i]] != 0.0 {
          builder.Funding(Key(symbol, sides[i]), settled[sides[i]]);
        }
      }
      assert sides[..|sides|] == sides;
    }

    method FollowFunding(symbol: string, r: Outcome<map<PositionSide, real>, L.Error>, sides: seq<PositionSide>, ghost x: Session)
      requires builder.Valid() && !aborted && builder.Contents() == x.book && sides == L.OpenSides(x.ledger, symbol)
      modifies `aborted, builder.open.Values
      ensures builder.Valid() && State() == AfterFunding(x, account.State(), symbol, r)
    {
      if r.Raised? {
        aborted := Fatal(r.error);
      } else {
        HandOutFunding(symbol, sides, r.value);
      }
    }

    method Fund(ts: int, symbol: string, rate: real, at: Option<real>)
      returns (r: Outcome<map<PositionSide, real>, L.Error>)
      requires Sound() && !aborted
      modifies this, account, builder.open.Values
      ensures Sound() && L.Done(account.State(), r) == L.ApplyFunding(account.config, old(account.State()), ts, symbol, rate, at)
      ensures State() == AfterFunding(old(State()), account.State(), symbol, r)
    {
      var sides := account.PositionsFor(symbol);
      ghost var x := State();
      r := account.ApplyFunding(ts, symbol, rate, at);
      FollowFunding(symbol, r, sides, x);
    }

    // -------------------------------------------------------------------- liquidation

    method HandOutLiquidations(ts: int, results: seq<L.LiquidationResult>)
      requires builder.Valid()
      modifies builder, builder.open.Values
      ensures builder.Valid() && builder.open.Values <= old(builder.open.Values)
      ensures builder.Contents() == NoteLiquidations(old(builder.Contents()), ts, results)
    {
      ghost var before := builder.Contents();
      for i := 0 to |results|
        invariant builder.Valid() && builder.open.Values <= old(builder.open.Values)
        invariant builder.Contents() == NoteLiquidations(before, ts, results[..i])
      {
        assert results[..i + 1][..i] == results[..i];
        var l := results[i];
        builder.Liquidation(ts, l.key, l.closedQty, l.trigger, l.realized);
      }
      assert results[..|results|] == results;
    }

    method FollowLiquidations(ts: int, r: Outcome<seq<L.LiquidationResult>, L.Error>, ghost x: Session)
      requires builder.Valid() && !aborted && builder.Contents() == x.book
      modifies `aborted, builder, builder.open.Values
      ensures builder.Valid() && State() == AfterLiquidations(x, account.State(), ts, r)
    {
      if r.Raised? {
        aborted := Fatal(r.error);
      } else {
        HandOutLiquidations(ts, r.value);
      }
    }

    method Liquidate(ts: int, order: seq<Key>) returns (r: Outcome<seq<L.LiquidationResult>, L.Error>)
      requires Sound() && !aborted
      modifies this, account, builder, builder.open.Values
      ensures Sound() && L.Done(account.State(), r) == L.CheckLiquidations(account.config, old(account.State()), ts, order)
      ensures State() == AfterLiquidations(old(State()), account.State(), ts, r)
    {
      ghost var x := State();
      r := account.CheckLiquidations(ts, order);
      FollowLiquidations(ts, r, x);
    }

    // -------------------------------------------------------------------------- marks

    /** Each price in turn to one side's round-trip. */
    method PushPrices(k: Key, p: Position, prices: seq<real>)
      requires builder.Valid()
      modifies builder`openUnrealized, builder.open.Values
      ensures builder.Valid()
      ensures builder.Contents() == NotePrices(old(builder.Contents()), k, p, prices)
    {
      ghost var before := builder.Contents();
      for i := 0 to |prices|
        invariant builder.Valid()
        invariant builder.Contents() == NotePrices(before, k, p, prices[..i])
      {
        assert prices[..i + 1][..i] == prices[..i];
        builder.Mark(k, prices[i], p.UnrealizedPnl(prices[i]));
      }
      assert prices[..|prices|] == prices;
    }

    /** One side's sample, if it is open and has a mark. */
    method SampleSide(k: Key, ranges: map<string, Range>)
      requires builder.Valid()
      modifies builder`openUnrealized, builder.open.Values
      ensures builder.Valid()
      ensures builder.Contents() == NoteSide(account.State(), old(builder.Contents()), k, ranges)
    {
      if k in account.positions && k.symbol in account.marks {
        PushPrices(k, account.positions[k], Prices(ranges, k.symbol, account.marks[k.symbol]));
      }
    }

    /** One sample of every open side: the range its mark traversed, then the mark. */
    method SampleMarks(order: seq<Key>, ranges: map<string, Range>)
      requires Sound() && !aborted
      modifies builder`openUnrealized, builder.open.Values
      ensures Sound() && State() == StepBoth(account.config, old(State()), Sample(order, ranges))
    {
      ghost var before := builder.Contents();
      for i := 0 to |order|
        invariant builder.Valid()
        invariant builder.Contents() == NoteMarks(account.State(), before, order[..i], ranges)
      {
        assert order[..i + 1][..i] == order[..i];
        SampleSide(order[i], ranges);
      }
      assert order[..|order|] == order;
    }
  }

  // ---------------------------------------------------------- what each call leaves

  function NoteOfHeld(s: L.Ledger, f: L.Fill, r: L.FillResult, held: map<Key, Position>): B.FillNote
  {
    var k := Key(f.symbol, r.side);
    B.FillNote(f.ts, k, f.qty, f.price, r.fee, r.realized, if k in held then held[k].qty else 0.0, s.Qty(k))
  }

  function AfterFill(x: Session, s: L.Ledger, f: L.Fill, r: Outcome<L.FillResult, L.Error>): Session
  {
    if r.Raised? then Session(s, x.book, Fatal(r.error))
    else Session(s, B.NoteFill(x.book, NoteOfHeld(s, f, r.value, x.ledger.positions)), false)
  }

  function AfterFunding(x: Session, s: L.Ledger, symbol: string, r: Outcome<map<PositionSide, real>, L.Error>): Session
  {
    if r.Raised? then Session(s, x.book, Fatal(r.error))
    else Session(s, NoteFundings(x.book, symbol, L.OpenSides(x.ledger, symbol), r.value), false)
  }

  function AfterLiquidations(x: Session, s: L.Ledger, ts: int, r: Outcome<seq<L.LiquidationResult>, L.Error>): Session
  {
    if r.Raised? then Session(s, x.book, Fatal(r.error)) else Session(s, NoteLiquidations(x.book, ts, r.value), false)
  }

  /** A fill through the objects is a step of the session, so the two books still agree. */
  lemma FillIsAStep(c: L.Config, x: Session, f: L.Fill, s: L.Ledger, r: Outcome<L.FillResult, L.Error>)
    requires L.ConfigBuilds(c) && Agree(c, x) && !x.aborted && L.Done(s, r) == L.ApplyFill(c, x.ledger, f)
    ensures AfterFill(x, s, f, r) == StepBoth(c, x, Apply(DoFill(f))) && Agree(c, AfterFill(x, s, f, r))
  {
    StepBothAgrees(c, x, Apply(DoFill(f)));
  }

  lemma FundingIsAStep(c: L.Config, x: Session, ts: int, symbol: string, rate: real, at: Option<real>, s: L.Ledger,
                       r: Outcome<map<PositionSide, real>, L.Error>)
    requires L.ConfigBuilds(c) && Agree(c, x) && !x.aborted
    requires L.Done(s, r) == L.ApplyFunding(c, x.ledger, ts, symbol, rate, at)
    ensures AfterFunding(x, s, symbol, r) == StepBoth(c, x, Apply(DoFunding(ts, symbol, rate, at)))
    ensures Agree(c, AfterFunding(x, s, symbol, r))
  {
    StepBothAgrees(c, x, Apply(DoFunding(ts, symbol, rate, at)));
  }

  lemma LiquidationIsAStep(c: L.Config, x: Session, ts: int, order: seq<Key>, s: L.Ledger,
                           r: Outcome<seq<L.LiquidationResult>, L.Error>)
    requires L.ConfigBuilds(c) && Agree(c, x) && !x.aborted
    requires L.Done(s, r) == L.CheckLiquidations(c, x.ledger, ts, order)
    ensures AfterLiquidations(x, s, ts, r) == StepBoth(c, x, Apply(DoLiquidations(ts, order)))
    ensures Agree(c, AfterLiquidations(x, s, ts, r))
  {
    StepBothAgrees(c, x, Apply(DoLiquidations(ts, order)));
  }
}
