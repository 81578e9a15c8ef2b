/** Every run of the driver: after each step that did not abort the run, the ledger and the
    round-trip builder agree. */
module Session {
  import opened Money
  import opened Wrappers
  import opened Sums
  import opened Liquidation
  import opened Positions
  import opened Ledger
  import opened LedgerInvariant
  import opened LedgerRuns
  import opened TradeBook
  import opened FillValue
  import opened Lockstep

  datatype Session = Session(ledger: Ledger, book: Book, aborted: bool)

  /** The extremes a symbol's mark traversed since the last sample. */
  datatype Range = Range(low: real, high: real)

  datatype SessionOp = Apply(op: Op) | Sample(order: seq<Key>, ranges: map<string, Range>)

  /** A failed check or a failed solve ends the run; every other refusal left the ledger's
      money and positions alone. */
  predicate Fatal(e: Error)
  {
    e.Violation? || e.SolveFailed?
  }

  function NoteOf(s: Ledger, s': Ledger, f: Fill, r: FillResult): FillNote
  {
    var k := Key(f.symbol, r.side);
    FillNote(f.ts, k, f.qty, f.price, r.fee, r.realized, s.Qty(k), s'.Qty(k))
  }

  /** Each side's cashflow, unless it is zero, is handed to its round-trip. */
  function NoteFundings(b: Book, symbol: string, sides: seq<PositionSide>, settled: map<PositionSide, real>): Book
  {
    if sides == [] then b
    else
      var front := NoteFundings(b, symbol, sides[..|sides| - 1], settled);
      var side := sides[|sides| - 1];
      if side in settled && settled[side] != 0.0 then NoteFunding(front, Key(symbol, side), settled[side]) else front
  }

  function NoteLiquidations(b: Book, ts: int, results: seq<LiquidationResult>): Book
  {
    if results == [] then b
    else
      var front := NoteLiquidations(b, ts, results[..|results| - 1]);
      var r := results[|results| - 1];
      NoteLiquidation(front, ts, r.key, r.closedQty, r.trigger, r.realized)
  }

  /** The prices a sample pushes: the range the mark traversed, then the mark. */
  function Prices(ranges: map<string, Range>, symbol: string, mark: real): (prices: seq<real>)
    ensures prices != [] && prices[|prices| - 1] == mark
  {
    if symbol in ranges then [ranges[symbol].low, ranges[symbol].high, mark] else [mark]
  }

  /** One side's trade sees each price in turn. */
  function NotePrices(b: Book, k: Key, p: Position, prices: seq<real>): Book
  {
    if prices == [] then b
    else
      var price := prices[|prices| - 1];
      NoteMark(NotePrices(b, k, p, prices[..|prices| - 1]), k, price, p.UnrealizedPnl(price))
  }

  /** One side's sample, if it is open and its symbol has a mark. */
  function NoteSide(s: Ledger, b: Book, k: Key, ranges: map<string, Range>): Book
  {
    if k in s.positions && k.symbol in s.marks then
      NotePrices(b, k, s.positions[k], Prices(ranges, k.symbol, s.marks[k.symbol]))
    else b
  }

  /** One sample of every open side in `order` whose symbol has a mark. */
  function NoteMarks(s: Ledger, b: Book, order: seq<Key>, ranges: map<string, Range>): Book
  {
    if order == [] then b
    else NoteSide(s, NoteMarks(s, b, order[..|order| - 1], ranges), order[|order| - 1], ranges)
  }

  function Raise(x: Session, s': Ledger, e: Error): Session
  {
    Session(s', x.book, Fatal(e))
  }

  ghost function StepBoth(c: Config, x: Session, op: SessionOp): Session
    requires ConfigBuilds(c)
  {
    if x.aborted then x
    else
      var s, b := x.ledger, x.book;
      match op
      case Sample(order, ranges) => x.(book := NoteMarks(s, b, order, ranges))
      case Apply(DoFill(f)) =>
        var d := ApplyFill(c, s, f);
        if d.outcome.Raised? then Raise(x, d.ledger, d.outcome.error)
        else Session(d.ledger, NoteFill(b, NoteOf(s, d.ledger, f, d.outcome.value)), false)
      case Apply(DoFunding(ts, symbol, rate, at)) =>
        var d := ApplyFunding(c, s, ts, symbol, rate, at);
        if d.outcome.Raised? then Raise(x, d.ledger, d.outcome.error)
        else Session(d.ledger, NoteFundings(b, symbol, OpenSides(s, symbol), d.outcome.value), false)
      case Apply(DoLiquidations(ts, order)) =>
        var d := CheckLiquidations(c, s, ts, order);
        if d.outcome.Raised? then Raise(x, d.ledger, d.outcome.error)
        else Session(d.ledger, NoteLiquidations(b, ts, d.outcome.value), false)
      case Apply(other) =>
        var d := Step(c, s, other);
        if d.raised.Some? then Raise(x, d.ledger, d.raised.value) else x.(ledger := d.ledger)
  }

  ghost function RunBoth(c: Config, ops: seq<SessionOp>): Session
    requires ConfigBuilds(c)
  {
    if ops == [] then Session(Opened(c), Fresh, false)
    else StepBoth(c, RunBoth(c, ops[..|ops| - 1]), ops[|ops| - 1])
  }

  ghost predicate Agree(c: Config, x: Session)
  {
    Inv(c, x.ledger) && (!x.aborted ==> InStep(c.opening, x.ledger, x.book))
  }

  // ------------------------------------------------------------------- what is noted

  /** Nothing the builder looks at has changed. */
  predicate SameStakes(s: Ledger, s': Ledger)
  {
    && s'.wallet == s.wallet
    && s'.positions.Keys == s.positions.Keys
    && forall k :: k in s.positions ==>
         s'.positions[k].qty == s.positions[k].qty && s'.positions[k].entry == s.positions[k].entry
  }

  lemma SameStakesStayInStep(opening: real, s: Ledger, s': Ledger, b: Book)
    requires InStep(opening, s, b) && SameStakes(s, s')
    ensures InStep(opening, s', b)
  {
  }

  lemma ChargeIsOnTheGrid(c: Config, f: Fill)
    requires ConfigBuilds(c) && Malformed(f) == None
    ensures OnGrid(Charged(c, f)) && Charged(c, f) >= 0.0
  {
    var rate := if f.isMaker then c.makerRate else c.takerRate;
    var raw := if f.fee.Some? then f.fee.value else Times(Times(Abs(f.qty), f.price), rate);
    TimesSign(Abs(f.qty), f.price);
    TimesSign(Times(Abs(f.qty), f.price), rate);
    QuantizeError(raw);
    QuantizeMonotone(0.0, raw);
    QuantizeFixpoint(0.0);
  }

  lemma AcceptedFillIsWellFormed(c: Config, s: Ledger, f: Fill)
    requires ConfigBuilds(c) && ApplyFill(c, s, f).outcome.Ok?
    ensures Malformed(f) == None
  {
  }

  lemma GrowingRealisesNothing(held: Option<Position>, side: PositionSide, qty: real, price: real)
    requires qty != 0.0 && ThreeCases(held, side, qty, price).Ok?
    requires held == None || Sign(qty) == Sign(held.value.qty)
    ensures ThreeCases(held, side, qty, price).value.realized == 0.0
  {
  }

  lemma FillNoteIsFaithful(c: Config, s: Ledger, f: Fill)
    requires ConfigBuilds(c) && Inv(c, s) && ApplyFill(c, s, f).outcome.Ok?
    ensures var d := ApplyFill(c, s, f);
            var n := NoteOf(s, d.ledger, f, d.outcome.value);
            && Faithful(n, s.positions) && MovedTo(s.positions, d.ledger.positions, n)
            && (n.key in s.positions ==> s.positions[n.key].qty != 0.0)
            && d.ledger.wallet == s.wallet + n.realized - n.fee
  {
    AcceptedFillMeans(c, s, f);
    AcceptedFill(c, s, f);
    AcceptedFillIsWellFormed(c, s, f);
    ChargeIsOnTheGrid(c, f);
    var k := Key(f.symbol, ResolveSide(c, f.side).value);
    BookedQuantity(s.Held(k), k.side, f.qty, f.price, LeverageFor(s, k));
    if s.Held(k) == None || Sign(f.qty) == Sign(s.Held(k).value.qty) {
      GrowingRealisesNothing(s.Held(k), k.side, f.qty, f.price);
    }
  }

  lemma FillStaysInStep(c: Config, s: Ledger, b: Book, f: Fill)
    requires ConfigBuilds(c) && Inv(c, s) && InStep(c.opening, s, b)
    ensures var d := ApplyFill(c, s, f);
            if d.outcome.Ok? then InStep(c.opening, d.ledger, NoteFill(b, NoteOf(s, d.ledger, f, d.outcome.value)))
            else Fatal(d.outcome.error) || InStep(c.opening, d.ledger, b)
  {
    var d := ApplyFill(c, s, f);
    if d.outcome.Ok? {
      FillNoteIsFaithful(c, s, f);
      NoteFillInStep(s.positions, d.ledger.positions, b, NoteOf(s, d.ledger, f, d.outcome.value));
    } else {
      RefusedFillMovesOnlyTheClock(c, s, f);
    }
  }

  // ------------------------------------------------------------------------- funding

  predicate Distinct(sides: seq<PositionSide>)
  {
    forall i, j :: 0 <= i < j < |sides| ==> sides[i] != sides[j]
  }

  lemma {:induction false} FundingStepsTogether(opening: real, s: Ledger, b: Book, ts: int, symbol: string,
                                                sides: seq<PositionSide>, mark: real, rate: real,
                                                settled: map<PositionSide, real>)
    requires InStep(opening, s, b) && Distinct(sides)
    requires forall side :: side in sides ==>
               && Key(symbol, side) in s.positions && side in settled
               && settled[side] == Cashflow(s.positions[Key(symbol, side)].qty, mark, rate)
    ensures InStep(opening, FundSides(s, ts, symbol, sides, mark, rate), NoteFundings(b, symbol, sides, settled))
    ensures var s' := FundSides(s, ts, symbol, sides, mark, rate);
            && s'.positions.Keys == s.positions.Keys
            && forall k :: k in s.positions ==> s'.positions[k].qty == s.positions[k].qty
  {
    if sides != [] {
      var front, side := sides[..|sides| - 1], sides[|sides| - 1];
      FundingStepsTogether(opening, s, b, ts, symbol, front, mark, rate, settled);
      var s1, b1 := FundSides(s, ts, symbol, front, mark, rate), NoteFundings(b, symbol, front, settled);
      assert side in sides;
      OneFundingStepsTogether(opening, s1, b1, ts, Key(symbol, side), mark, rate);
    }
  }

  /** What funding one side does, as far as the builder is concerned. */
  lemma FundedSide(s: Ledger, ts: int, k: Key, mark: real, rate: real)
    requires k in s.positions
    ensures var s', flow := FundSide(s, ts, k, mark, rate), Cashflow(s.positions[k].qty, mark, rate);
            && s'.wallet == s.wallet + flow
            && s'.positions == s.positions[k := s.positions[k].(funding := s.positions[k].funding + flow)]
  {
  }

  lemma OneFundingStepsTogether(opening: real, s: Ledger, b: Book, ts: int, k: Key, mark: real, rate: real)
    requires InStep(opening, s, b) && k in s.positions
    ensures var s', flow := FundSide(s, ts, k, mark, rate), Cashflow(s.positions[k].qty, mark, rate);
            && InStep(opening, s', if flow != 0.0 then NoteFunding(b, k, flow) else b)
            && s'.positions.Keys == s.positions.Keys
            && forall j :: j in s.positions ==> s'.positions[j].qty == s.positions[j].qty
  {
    FundedSide(s, ts, k, mark, rate);
    FundingNoted(opening, s, FundSide(s, ts, k, mark, rate), b, k, Cashflow(s.positions[k].qty, mark, rate));
  }

  lemma FundingNoted(opening: real, s: Ledger, s': Ledger, b: Book, k: Key, flow: real)
    requires InStep(opening, s, b) && k in s.positions && s'.wallet == s.wallet + flow
    requires s'.positions == s.positions[k := s.positions[k].(funding := s.positions[k].funding + flow)]
    ensures InStep(opening, s', if flow != 0.0 then NoteFunding(b, k, flow) else b)
  {
    if flow != 0.0 { NoteFundingInStep(s.positions, s'.positions, b, k, flow); }
  }

  lemma SettledCoversTheSides(s: Ledger, symbol: string, mark: real, rate: real)
    ensures var sides := OpenSides(s, symbol);
            var settled := Settled(s, symbol, sides, mark, rate);
            && Distinct(sides)
            && forall side :: side in sides ==>
                 && Key(symbol, side) in s.positions && side in settled
                 && settled[side] == Cashflow(s.positions[Key(symbol, side)].qty, mark, rate)
  {
    SidesAreOpen(s, symbol);
  }

  lemma FlagOnly(c: Config, s: Ledger, liquidating: bool)
    ensures SameStakes(s, CheckWallet(c, s, liquidating).ledger)
    ensures CheckWallet(c, s, liquidating).outcome.Raised? ==> CheckWallet(c, s, liquidating).outcome.error.Violation?
  {
  }

  lemma SettlementStaysInStep(c: Config, s: Ledger, b: Book, ts: int, symbol: string, mark: real, rate: real)
    requires InStep(c.opening, s, b)
    ensures var d := SettleSides(c, s, ts, symbol, mark, rate);
            if d.outcome.Ok? then InStep(c.opening, d.ledger, NoteFundings(b, symbol, OpenSides(s, symbol), d.outcome.value))
            else Fatal(d.outcome.error) || d.ledger == s
  {
    var sides := OpenSides(s, symbol);
    var s' := FundSides(s, ts, symbol, sides, mark, rate);
    var settled := Settled(s, symbol, sides, mark, rate);
    var b' := NoteFundings(b, symbol, sides, settled);
    assert InStep(c.opening, s', b') by {
      SettledCoversTheSides(s, symbol, mark, rate);
      FundingStepsTogether(c.opening, s, b, ts, symbol, sides, mark, rate, settled);
    }
    CheckedSettlementStaysInStep(c, s, b', ts, symbol, mark, rate);
  }

  lemma CheckedSettlementStaysInStep(c: Config, s: Ledger, b: Book, ts: int, symbol: string, mark: real, rate: real)
    requires InStep(c.opening, FundSides(s, ts, symbol, OpenSides(s, symbol), mark, rate), b)
    ensures var d := SettleSides(c, s, ts, symbol, mark, rate);
            if d.outcome.Ok? then
              InStep(c.opening, d.ledger, b) && d.outcome.value == Settled(s, symbol, OpenSides(s, symbol), mark, rate)
            else Fatal(d.outcome.error) || d.ledger == s
  {
    var s' := FundSides(s, ts, symbol, OpenSides(s, symbol), mark, rate);
    FlagOnly(c, s', false);
    SameStakesStayInStep(c.opening, s', CheckWallet(c, s', false).ledger, b);
  }

  lemma FundingStaysInStep(c: Config, s: Ledger, b: Book, ts: int, symbol: string, rate: real, at: Option<real>)
    requires InStep(c.opening, s, b)
    ensures var d := ApplyFunding(c, s, ts, symbol, rate, at);
            if d.outcome.Ok? then InStep(c.opening, d.ledger, NoteFundings(b, symbol, OpenSides(s, symbol), d.outcome.value))
            else Fatal(d.outcome.error) || InStep(c.opening, d.ledger, b)
  {
    var touched := Touch(c, s, ts);
    var s1 := touched.ledger;
    TouchMovesNoStakes(c, s, ts, symbol);
    SameStakesStayInStep(c.opening, s, s1, b);
    if touched.outcome.Raised? {
      assert ApplyFunding(c, s, ts, symbol, rate, at).ledger == s;
    } else if OpenSides(s, symbol) == [] {
      assert ApplyFunding(c, s, ts, symbol, rate, at) == Done(s1, Ok(map[]));
    } else if at == None && symbol !in s.marks {
      assert ApplyFunding(c, s, ts, symbol, rate, at) == Done(s1, Raised(NoMark));
    } else {
      var mark := if at.Some? then at.value else s.marks[symbol];
      assert ApplyFunding(c, s, ts, symbol, rate, at) == SettleSides(c, s1, ts, symbol, mark, rate);
      SettlementStaysInStep(c, s1, b, ts, symbol, mark, rate);
    }
  }

  lemma TouchMovesNoStakes(c: Config, s: Ledger, ts: int, symbol: string)
    ensures var s1 := Touch(c, s, ts).ledger;
            SameStakes(s, s1) && s1.marks == s.marks && OpenSides(s1, symbol) == OpenSides(s, symbol)
  {
  }

  lemma SidesAreOpen(s: Ledger, symbol: string)
    ensures Distinct(OpenSides(s, symbol))
    ensures forall side :: side in OpenSides(s, symbol) ==> Key(symbol, side) in s.positions
  {
    forall side | side in OpenSides(s, symbol)
      ensures Key(symbol, side) in s.positions
    {
      OpenSidesAreOpen(s, symbol, side);
    }
  }

  // --------------------------------------------------------------------- liquidation

  lemma VisitStepsTogether(c: Config, s: Ledger, b: Book, ts: int, k: Key)
    requires ConfigBuilds(c) && InStep(c.opening, s, b)
    requires VisitSide(c, s, ts, k).outcome.Ok?
    ensures var d := VisitSide(c, s, ts, k);
            var r := d.outcome.value;
            InStep(c.opening, d.ledger,
                   if r.Some? then NoteLiquidation(b, ts, r.value.key, r.value.closedQty, r.value.trigger, r.value.realized)
                   else b)
  {
    VisitedSide(c, s, ts, k);
    var d := VisitSide(c, s, ts, k);
    if d.outcome.value.Some? {
      LiquidationNoted(c.opening, s, d.ledger, b, ts, d.outcome.value.value);
    }
  }

  lemma LiquidationNoted(opening: real, s: Ledger, s': Ledger, b: Book, ts: int, r: LiquidationResult)
    requires InStep(opening, s, b) && r.key in s.positions && r.closedQty == -s.positions[r.key].qty
    requires s'.positions == s.positions - {r.key} && s'.wallet == s.wallet + r.realized
    ensures InStep(opening, s', NoteLiquidation(b, ts, r.key, r.closedQty, r.trigger, r.realized))
  {
    NoteLiquidationInStep(s.positions, b, ts, r.key, r.trigger, r.realized);
  }

  lemma VisitedSide(c: Config, s: Ledger, ts: int, k: Key)
    requires VisitSide(c, s, ts, k).outcome.Ok?
    ensures var d := VisitSide(c, s, ts, k);
            if d.outcome.value.Some?
            then && k in s.positions
                 && d.outcome.value.value.key == k
                 && d.outcome.value.value.closedQty == -s.positions[k].qty
                 && d.ledger.positions == s.positions - {k}
                 && d.ledger.wallet == s.wallet + d.outcome.value.value.realized
            else d.ledger == s
  {
    var d := VisitSide(c, s, ts, k);
    if d.outcome.value.Some? {
      var p, mark := s.positions[k], s.marks[k.symbol];
      var price := SolveLiquidation(c, c.brackets[k.symbol], p, mark).value.price;
      ChecksRaiseViolations(c, Liquidated(c, s, ts, k, price, mark), k, true);
    }
  }

  lemma {:induction false} SweepStepsTogether(c: Config, s: Ledger, b: Book, ts: int, order: seq<Key>)
    requires ConfigBuilds(c) && InStep(c.opening, s, b)
    requires VisitSides(c, s, ts, order).outcome.Ok?
    ensures var d := VisitSides(c, s, ts, order); InStep(c.opening, d.ledger, NoteLiquidations(b, ts, d.outcome.value))
  {
    if order != [] {
      var front, k := order[..|order| - 1], order[|order| - 1];
      SweepStepsTogether(c, s, b, ts, front);
      var d := VisitSides(c, s, ts, front);
      var b1 := NoteLiquidations(b, ts, d.outcome.value);
      VisitStepsTogether(c, d.ledger, b1, ts, k);
      NoteOneMore(b, ts, d.outcome.value, VisitSide(c, d.ledger, ts, k).outcome.value);
    }
  }

  lemma NoteOneMore(b: Book, ts: int, results: seq<LiquidationResult>, last: Option<LiquidationResult>)
    ensures NoteLiquidations(b, ts, Joined(results, last))
         == (var b1 := NoteLiquidations(b, ts, results);
             if last.Some?
             then NoteLiquidation(b1, ts, last.value.key, last.value.closedQty, last.value.trigger, last.value.realized)
             else b1)
  {
    if last.Some? {
      assert (results + [last.value])[..|results|] == results;
    }
  }

  lemma LiquidationsStayInStep(c: Config, s: Ledger, b: Book, ts: int, order: seq<Key>)
    requires ConfigBuilds(c) && InStep(c.opening, s, b)
    ensures var d := CheckLiquidations(c, s, ts, order);
            if d.outcome.Ok? then InStep(c.opening, d.ledger, NoteLiquidations(b, ts, d.outcome.value))
            else Fatal(d.outcome.error)
  {
    var s1 := Touch(c, s, ts).ledger;
    SameStakesStayInStep(c.opening, s, s1, b);
    if CheckLiquidations(c, s, ts, order).outcome.Ok? {
      SweepStepsTogether(c, s1, b, ts, order);
    } else {
      SweepFailuresAreFatal(c, s1, ts, order);
    }
  }

  lemma {:induction false} SweepFailuresAreFatal(c: Config, s: Ledger, ts: int, order: seq<Key>)
    ensures var d := VisitSides(c, s, ts, order); d.outcome.Raised? ==> Fatal(d.outcome.error)
  {
    if order != [] {
      SweepFailuresAreFatal(c, s, ts, order[..|order| - 1]);
      VisitFailuresAreFatal(c, VisitSides(c, s, ts, order[..|order| - 1]).ledger, ts, order[|order| - 1]);
    }
  }

  lemma VisitFailuresAreFatal(c: Config, s: Ledger, ts: int, k: Key)
    ensures var d := VisitSide(c, s, ts, k); d.outcome.Raised? ==> Fatal(d.outcome.error)
  {
    var d := VisitSide(c, s, ts, k);
    if d.outcome.Raised? {
      var p, mark := s.positions[k], s.marks[k.symbol];
      var solved := SolveLiquidation(c, c.brackets[k.symbol], p, mark);
      if solved.Ok? { ChecksRaiseViolations(c, Liquidated(c, s, ts, k, solved.value.price, mark), k, true); }
    }
  }

  lemma ChecksRaiseViolations(c: Config, s: Ledger, k: Key, liquidating: bool)
    ensures var d := CheckAfterFill(c, s, k, liquidating); d.outcome.Raised? ==> d.outcome.error.Violation?
    ensures CheckAfterFill(c, s, k, liquidating).ledger
         == s.(wasNegative := CheckAfterFill(c, s, k, liquidating).ledger.wasNegative)
  {
  }

  // ------------------------------------------------------------------ the other steps

  lemma {:induction false} PricesKeepStep(opening: real, s: Ledger, b: Book, k: Key, p: Position, prices: seq<real>)
    requires InStep(opening, s, b)
    ensures InStep(opening, s, NotePrices(b, k, p, prices))
  {
    if prices != [] {
      var front, price := prices[..|prices| - 1], prices[|prices| - 1];
      PricesKeepStep(opening, s, b, k, p, front);
      NoteMarkInStep(s.positions, NotePrices(b, k, p, front), k, price, p.UnrealizedPnl(price));
    }
  }

  lemma {:induction false} SampleKeepsStep(opening: real, s: Ledger, b: Book, order: seq<Key>, ranges: map<string, Range>)
    requires InStep(opening, s, b)
    ensures InStep(opening, s, NoteMarks(s, b, order, ranges))
  {
    if order != [] {
      var front, k := order[..|order| - 1], order[|order| - 1];
      SampleKeepsStep(opening, s, b, front, ranges);
      if k in s.positions && k.symbol in s.marks {
        PricesKeepStep(opening, s, NoteMarks(s, b, front, ranges), k, s.positions[k],
                       Prices(ranges, k.symbol, s.marks[k.symbol]));
      }
    }
  }

  lemma MarkKeepsTheStakes(c: Config, s: Ledger, ts: int, symbol: string, price: real)
    ensures SameStakes(s, UpdateMark(c, s, ts, symbol, price).ledger)
  {
  }

  lemma PostingKeepsTheStakes(c: Config, s: Ledger, ts: int, kind: EventKind, k: Key, amount: real, extra: real)
    requires k in s.positions
    ensures SameStakes(s, Posted(c, s, ts, kind, k, amount, extra).ledger)
  {
  }

  lemma AdditionKeepsTheStakes(c: Config, s: Ledger, ts: int, k: Key, amount: real)
    requires k in s.positions
    ensures SameStakes(s, AddMarginAt(c, s, ts, k, amount).ledger)
  {
    if !AdditionRefused(c, s, s.positions[k], amount) {
      PostingKeepsTheStakes(c, s, ts, MARGIN_ADDED, k, amount, s.positions[k].extra + amount);
    }
  }

  lemma RemovalKeepsTheStakes(c: Config, s: Ledger, ts: int, k: Key, amount: real)
    requires k in s.positions
    ensures SameStakes(s, RemoveMarginAt(c, s, ts, k, amount).ledger)
  {
    if amount <= s.positions[k].extra && RemovalRefused(c, s, k, amount) == None {
      PostingKeepsTheStakes(c, s, ts, MARGIN_REMOVED, k, amount, s.positions[k].extra - amount);
    }
  }

  lemma MarginKeepsTheStakes(c: Config, s: Ledger, ts: int, symbol: string, amount: real, side: Option<PositionSide>)
    ensures SameStakes(s, AddMargin(c, s, ts, symbol, amount, side).ledger)
    ensures SameStakes(s, RemoveMargin(c, s, ts, symbol, amount, side).ledger)
  {
    var r := ResolveSide(c, side);
    if r.Ok? && Key(symbol, r.value) in s.positions {
      AdditionKeepsTheStakes(c, s, ts, Key(symbol, r.value), amount);
      RemovalKeepsTheStakes(c, s, ts, Key(symbol, r.value), amount);
    }
  }

  lemma OtherStepsKeepTheStakes(c: Config, s: Ledger, op: Op)
    requires ConfigBuilds(c) && !op.DoFill? && !op.DoFunding? && !op.DoLiquidations?
    ensures SameStakes(s, Step(c, s, op).ledger)
  {
    if op.DoMark? {
      MarkKeepsTheStakes(c, s, op.ts, op.symbol, op.price);
    } else if op.DoAddMargin? || op.DoRemoveMargin? {
      MarginKeepsTheStakes(c, s, op.ts, op.symbol, op.amount, op.side);
    }
  }

  lemma StepBothAgrees(c: Config, x: Session, op: SessionOp)
    requires ConfigBuilds(c) && Agree(c, x)
    ensures Agree(c, StepBoth(c, x, op))
  {
    if !x.aborted {
      var s, b := x.ledger, x.book;
      if op.Sample? {
        SampleKeepsStep(c.opening, s, b, op.order, op.ranges);
      } else {
        StepKeeps(c, s, op.op);
        if op.op.DoFill? {
          FillStaysInStep(c, s, b, op.op.fill);
        } else if op.op.DoFunding? {
          FundingStaysInStep(c, s, b, op.op.ts, op.op.symbol, op.op.rate, op.op.at);
        } else if op.op.DoLiquidations? {
          LiquidationsStayInStep(c, s, b, op.op.ts, op.op.order);
        } else {
          OtherStepsKeepTheStakes(c, s, op.op);
          SameStakesStayInStep(c.opening, s, Step(c, s, op.op).ledger, b);
        }
      }
    }
  }

  // ----------------------------------------------------------------------- theorems

  lemma {:induction false} EveryRunStaysInStep(c: Config, ops: seq<SessionOp>)
    requires ConfigBuilds(c)
    ensures Agree(c, RunBoth(c, ops))
  {
    if ops == [] {
      OpenedHolds(c);
      assert Runnings(Fresh.open) == map[];
    } else {
      EveryRunStaysInStep(c, ops[..|ops| - 1]);
      StepBothAgrees(c, RunBoth(c, ops[..|ops| - 1]), ops[|ops| - 1]);
    }
  }

  /** At all times: open trades are the open positions, each holds the quantity its legs
      leave, and the trades' net PnL is what the wallet has moved by. */
  lemma TheTwoBookkeepingsAgree(c: Config, ops: seq<SessionOp>)
    requires ConfigBuilds(c) && !RunBoth(c, ops).aborted
    ensures var x := RunBoth(c, ops);
            && x.book.open.Keys == x.ledger.positions.Keys
            && (forall k :: k in x.book.open ==>
                  && x.book.open[k].openQty - x.book.open[k].closeQty == Abs(x.ledger.positions[k].qty)
                  && (x.book.open[k].long <==> x.ledger.positions[k].qty > 0.0))
            && NetOfTrades(x.book.trades) + MapSum(Runnings(x.book.open)) == x.ledger.wallet - c.opening
  {
    EveryRunStaysInStep(c, ops);
  }
}
