/** What moving margin does to a liquidation price, and exactly when margin that was accepted
    out of a position is followed by its liquidation. */
module MarginMoves {
  import opened Money
  import opened Wrappers
  import opened Margin
  import opened Liquidation
  import opened Convergence
  import opened Positions
  import opened Ledger
  import opened LedgerInvariant
  import opened LiquidationSweep

  /** The allocation before it is rounded to the grid. */
  function RawAllocation(p: Position): real
    requires p.leverage >= 1
  {
    p.BaseMargin() + p.extra + p.funding
  }

  /** What `remove_margin` solves for: the rounded allocation less the amount, rounded. */
  function Tested(p: Position, amount: real): Holding
    requires p.leverage >= 1
  {
    p.AsHolding(Quantize(p.IsolatedMargin() - amount))
  }

  /** What it leaves, whose raw allocation the next solve rounds once. */
  function Remaining(p: Position, amount: real): Position
  {
    p.(extra := p.extra - amount)
  }

  /** What was tested over what is left. */
  function Gap(p: Position, amount: real): real
    requires p.leverage >= 1
  {
    Tested(p, amount).margin - Remaining(p, amount).IsolatedMargin()
  }

  /** For every amount: what was tested is what is left, but for the quantum that the
      rounding of the raw allocation and the rounding of what is left carry over between
      them. */
  lemma ShrinkTestIsExact(p: Position, amount: real)
    requires p.leverage >= 1
    ensures Gap(p, amount)
         == Carry(RoundedUp(RawAllocation(p)) - RoundedUp(RawAllocation(Remaining(p, amount))),
                  Quanta(Remaining(p, amount).IsolatedMargin()) % 2 != 0)
  {
    GapIsTheRoundingGap(p, amount);
    RawAllocationShrinks(p, amount);
    RoundingGapIsExact(RawAllocation(p), amount);
  }

  lemma GapIsAtMostAQuantum(p: Position, amount: real)
    requires p.leverage >= 1
    ensures Gap(p, amount) in {-QUANTUM, 0.0, QUANTUM}
  {
    ShrinkTestIsExact(p, amount);
  }

  lemma GapIsTheRoundingGap(p: Position, amount: real)
    requires p.leverage >= 1
    ensures Gap(p, amount) == RoundingGap(RawAllocation(p), amount)
  {
    RawAllocationShrinks(p, amount);
  }

  /** For an amount on the grid that is a tie and an odd number of quanta. */
  lemma ShrinkTestOnTheGrid(p: Position, amount: real)
    requires p.leverage >= 1 && OnGrid(amount)
    ensures Gap(p, amount) == 0.0 <==> !Tie(RawAllocation(p)) || Quanta(amount) % 2 == 0
  {
    GapIsTheRoundingGap(p, amount);
    QuantizeTwice(RawAllocation(p), amount);
  }

  lemma RawAllocationShrinks(p: Position, amount: real)
    requires p.leverage >= 1
    ensures RawAllocation(Remaining(p, amount)) == RawAllocation(p) - amount
  {
  }

  lemma GridIsNoTie(p: Position)
    requires p.leverage >= 1 && OnGrid(p.extra) && OnGrid(p.funding)
    ensures !Tie(RawAllocation(p))
  {
    QuantizeError(p.EntryNotional() / p.leverage as real);
    GridSum(p.BaseMargin(), p.extra);
    GridSum(p.BaseMargin() + p.extra, p.funding);
  }

  /** An accepted removal that leaves what was tested is never followed by a liquidation at
      the same mark, on any bracket table. */
  lemma RemovedMarginIsNotLiquidatedAtOnce(c: Config, s: Ledger, ts: int, symbol: string, amount: real,
                                           side: Option<PositionSide>, ts': int)
    requires ConfigBuilds(c) && Inv(c, s) && c.enforceMargin
    requires RemoveMargin(c, s, ts, symbol, amount, side).outcome.Ok?
    requires var k := Key(symbol, ResolveSide(c, side).value); Gap(s.positions[k], amount) == 0.0
    ensures var k := Key(symbol, ResolveSide(c, side).value);
            var s' := RemoveMargin(c, s, ts, symbol, amount, side).ledger;
            VisitSide(c, s', ts', k).ledger == s'
  {
    var k := Key(symbol, ResolveSide(c, side).value);
    AcceptedRemoval(c, s, ts, symbol, amount, side);
    if symbol in c.brackets && symbol in s.marks {
      ShrunkIsSkipped(c, RemoveMargin(c, s, ts, symbol, amount, side).ledger, ts', k, s.positions[k], amount);
    }
  }

  lemma ShrunkIsSkipped(c: Config, s: Ledger, ts: int, k: Key, p: Position, amount: real)
    requires k in s.positions && p.leverage >= 1 && s.positions[k] == Remaining(p, amount) && Gap(p, amount) == 0.0
    requires k.symbol in c.brackets && k.symbol in s.marks && |c.brackets[k.symbol]| > 0
    requires ShrinkRefused(c, c.brackets[k.symbol], p, s.marks[k.symbol], amount) == None
    ensures VisitSide(c, s, ts, k).ledger == s
  {
    assert Tested(p, amount) == Isolated(s.positions[k]);
    UntriggeredIsSkipped(c, s, ts, k);
  }

  lemma AcceptedRemoval(c: Config, s: Ledger, ts: int, symbol: string, amount: real, side: Option<PositionSide>)
    requires ConfigBuilds(c) && Slotted(c, s.positions) && c.enforceMargin
    requires RemoveMargin(c, s, ts, symbol, amount, side).outcome.Ok?
    ensures var k := Key(symbol, ResolveSide(c, side).value);
            var s' := RemoveMargin(c, s, ts, symbol, amount, side).ledger;
            && k in s.positions && s.positions[k].leverage >= 1
            && k in s'.positions && s'.positions[k] == s.positions[k].(extra := s.positions[k].extra - amount)
            && s'.marks == s.marks
            && (symbol in c.brackets && symbol in s.marks ==>
                  && |c.brackets[symbol]| > 0
                  && ShrinkRefused(c, c.brackets[symbol], s.positions[k], s.marks[symbol], amount) == None)
  {
    var k := Key(symbol, ResolveSide(c, side).value);
    assert PositionBuilds(k.side, s.positions[k]);
  }

  lemma UntriggeredIsSkipped(c: Config, s: Ledger, ts: int, k: Key)
    requires k in s.positions && k.symbol in c.brackets && k.symbol in s.marks && s.positions[k].leverage >= 1
    requires |c.brackets[k.symbol]| > 0
    requires var p := s.positions[k];
             var r := Solve(p.AsHolding(p.IsolatedMargin()), s.marks[k.symbol], c.brackets[k.symbol]);
             r.Ok? && !Triggered(p.AsHolding(p.IsolatedMargin()), s.marks[k.symbol], r.value)
    ensures VisitSide(c, s, ts, k).ledger == s
  {
  }

  // -------------------------------------------------------------------- on a tie

  /** The grid point below the raw allocation is an even number of quanta. */
  predicate RoundsDown(p: Position)
    requires p.leverage >= 1
  {
    (RawAllocation(p) * SCALE).Floor % 2 == 0
  }

  /** On a tie an odd amount leaves one quantum more than was tested when the tie rounded
      down, and one quantum less when it rounded up. */
  lemma OddRemovalOnATie(p: Position, amount: real)
    requires p.leverage >= 1 && OnGrid(amount) && Tie(RawAllocation(p)) && Quanta(amount) % 2 != 0
    ensures Gap(p, amount) == if RoundsDown(p) then -QUANTUM else QUANTUM
  {
    GapIsTheRoundingGap(p, amount);
    OddAmountOffATie(RawAllocation(p), amount);
  }

  // ----------------------------------------------- when an accepted removal is taken

  /** The solve answers, and does not trigger. */
  ghost predicate Untriggered(h: Holding, t: BracketTable, mark: real)
    requires |t| > 0
  {
    Solve(h, mark, t).Ok? && !Triggered(h, mark, Solve(h, mark, t).value)
  }

  lemma UntriggeredExactly(h: Holding, t: BracketTable, mark: real)
    requires Regular(t) && |t| <= MAX_BRACKET_ITERATIONS && mark > 0.0 && h.qty != 0.0
    ensures Untriggered(h, t, mark) <==> Surplus(h, t, mark) > 0.0 || Overdrawn(h)
  {
    SolveConverges(h, mark, t);
    TriggerIsExact(h, mark, t);
  }

  /** The surplus moves one for one with the margin. */
  lemma SurplusFollowsTheMargin(h: Holding, g: Holding, t: BracketTable, mark: real)
    requires |t| > 0 && g == h.(margin := g.margin)
    ensures Surplus(g, t, mark) == Surplus(h, t, mark) + (g.margin - h.margin)
  {
  }

  /** What was tested had no more surplus than the gap, and no overdrawn short is left. */
  predicate WithinTheGap(p: Position, t: BracketTable, mark: real, amount: real)
    requires |t| > 0 && p.leverage >= 1
  {
    Surplus(Tested(p, amount), t, mark) <= Gap(p, amount) && !Overdrawn(Isolated(Remaining(p, amount)))
  }

  /** An untriggered test is followed by a trigger at the same mark exactly then. */
  lemma RemovalTriggersExactlyWithinTheGap(p: Position, t: BracketTable, mark: real, amount: real)
    requires Regular(t) && |t| <= MAX_BRACKET_ITERATIONS && mark > 0.0 && p.qty != 0.0 && p.leverage >= 1
    requires Untriggered(Tested(p, amount), t, mark)
    ensures !Untriggered(Isolated(Remaining(p, amount)), t, mark) <==> WithinTheGap(p, t, mark, amount)
  {
    var tested, left := Tested(p, amount), Isolated(Remaining(p, amount));
    UntriggeredExactly(left, t, mark);
    SurplusFollowsTheMargin(tested, left, t, mark);
  }

  /** A quantum less is left, and what was tested had a quantum of surplus at most. */
  predicate LosesItsLastQuantum(p: Position, t: BracketTable, mark: real, amount: real)
    requires |t| > 0 && p.leverage >= 1
  {
    && Gap(p, amount) == QUANTUM && Surplus(Tested(p, amount), t, mark) <= QUANTUM
    && !Overdrawn(Isolated(Remaining(p, amount)))
  }

  /** A quantum more is left, which takes an overdrawn short back within reach of the solve. */
  predicate ComesBackWithinReach(p: Position, t: BracketTable, mark: real, amount: real)
    requires |t| > 0 && p.leverage >= 1
  {
    && Gap(p, amount) == -QUANTUM && Surplus(Tested(p, amount), t, mark) <= -QUANTUM
    && Overdrawn(Tested(p, amount)) && !Overdrawn(Isolated(Remaining(p, amount)))
  }

  /** So there are two ways, and no others. */
  lemma TwoWaysToTrigger(p: Position, t: BracketTable, mark: real, amount: real)
    requires Regular(t) && |t| <= MAX_BRACKET_ITERATIONS && mark > 0.0 && p.qty != 0.0 && p.leverage >= 1
    requires Untriggered(Tested(p, amount), t, mark)
    ensures !Untriggered(Isolated(Remaining(p, amount)), t, mark)
       <==> LosesItsLastQuantum(p, t, mark, amount) || ComesBackWithinReach(p, t, mark, amount)
  {
    RemovalTriggersExactlyWithinTheGap(p, t, mark, amount);
    UntriggeredExactly(Tested(p, amount), t, mark);
    ShrinkTestIsExact(p, amount);
  }

  lemma ChecksMoveNoPositions(c: Config, s: Ledger, k: Key)
    ensures CheckAfterFill(c, s, k, true).ledger.positions == s.positions
  {
  }

  /** One visit takes a side exactly when its solve triggers. */
  lemma VisitTakesTheTriggered(c: Config, s: Ledger, ts: int, k: Key)
    requires Priced(c, s, k) && PositionBuilds(k.side, s.positions[k]) && s.marks[k.symbol] > 0.0
    ensures k !in VisitSide(c, s, ts, k).ledger.positions
       <==> !Untriggered(Isolated(s.positions[k]), c.brackets[k.symbol], s.marks[k.symbol])
  {
    var p, mark, t := s.positions[k], s.marks[k.symbol], c.brackets[k.symbol];
    SolveLiquidationSucceeds(c, t, p, mark);
    ChecksMoveNoPositions(c, Liquidated(c, s, ts, k, SolveLiquidation(c, t, p, mark).value.price, mark), k);
  }

  /** Over `remove_margin` and the check after it, on regular tables: an accepted removal of
      any amount is followed by the liquidation at the same mark exactly when the surplus
      tested was within the gap and no overdrawn short is left. */
  lemma RemovedMarginIsLiquidatedAtOnceExactlyWithinTheGap(c: Config, s: Ledger, ts: int, symbol: string, amount: real,
                                                          side: Option<PositionSide>, ts': int)
    requires ConfigBuilds(c) && Inv(c, s) && c.enforceMargin
    requires RemoveMargin(c, s, ts, symbol, amount, side).outcome.Ok?
    requires Priced(c, s, Key(symbol, ResolveSide(c, side).value))
    ensures var k := Key(symbol, ResolveSide(c, side).value);
            && s.positions[k].leverage >= 1
            && (k in VisitSide(c, RemoveMargin(c, s, ts, symbol, amount, side).ledger, ts', k).ledger.positions
                <==> !WithinTheGap(s.positions[k], c.brackets[symbol], s.marks[symbol], amount))
  {
    var k := Key(symbol, ResolveSide(c, side).value);
    var p, s' := s.positions[k], RemoveMargin(c, s, ts, symbol, amount, side).ledger;
    assert PositionBuilds(k.side, p) && s.marks[symbol] > 0.0;
    AcceptedRemoval(c, s, ts, symbol, amount, side);
    assert Untriggered(Tested(p, amount), c.brackets[symbol], s.marks[symbol]);
    RemovalTriggersExactlyWithinTheGap(p, c.brackets[symbol], s.marks[symbol], amount);
    RemovalLeavesASoundPosition(c, s, ts, symbol, amount, side);
    VisitTakesTheTriggered(c, s', ts', k);
  }

  lemma RemovalLeavesASoundPosition(c: Config, s: Ledger, ts: int, symbol: string, amount: real, side: Option<PositionSide>)
    requires ConfigBuilds(c) && Inv(c, s) && RemoveMargin(c, s, ts, symbol, amount, side).outcome.Ok?
    ensures var k := Key(symbol, ResolveSide(c, side).value);
            var s' := RemoveMargin(c, s, ts, symbol, amount, side).ledger;
            k in s'.positions && PositionBuilds(k.side, s'.positions[k])
  {
    var k := Key(symbol, ResolveSide(c, side).value);
    assert PositionBuilds(k.side, s.positions[k]);
  }

  // ------------------------------------------------------- an overdrawn allocation

  /** The profit at the mark does not cover the requirement and what the allocation lacks,
      and the position is no short overdrawn at every mark. */
  predicate FallsShort(p: Position, t: BracketTable, mark: real)
    requires |t| > 0 && p.leverage >= 1
  {
    p.UnrealizedPnl(mark) <= Requirement(t, NotionalAt(Isolated(p), mark)) - p.IsolatedMargin() && !Overdrawn(Isolated(p))
  }

  /** `add_margin` refuses a position whose allocation is below zero as one the next check
      takes. The check takes it exactly when its profit falls short. */
  lemma RefusedOverdraftIsTakenExactlyWhenItsProfitFallsShort(c: Config, s: Ledger, ts: int, symbol: string, amount: real,
                                                             side: Option<PositionSide>, ts': int)
    requires Inv(c, s) && c.enforceMargin && amount > 0.0 && ResolveSide(c, side).Ok?
    requires Priced(c, s, Key(symbol, ResolveSide(c, side).value))
    requires var p := s.positions[Key(symbol, ResolveSide(c, side).value)]; p.leverage >= 1 && p.IsolatedMargin() < 0.0
    ensures AddMargin(c, s, ts, symbol, amount, side) == Done(s, Raised(InsufficientMargin))
    ensures var k := Key(symbol, ResolveSide(c, side).value);
            k in VisitSide(c, s, ts', k).ledger.positions <==> !FallsShort(s.positions[k], c.brackets[symbol], s.marks[symbol])
  {
    var k := Key(symbol, ResolveSide(c, side).value);
    assert PositionBuilds(k.side, s.positions[k]) && s.marks[symbol] > 0.0;
    VisitTakesTheTriggered(c, s, ts', k);
    FallingShortIsTriggering(s.positions[k], c.brackets[symbol], s.marks[symbol]);
  }

  lemma FallingShortIsTriggering(p: Position, t: BracketTable, mark: real)
    requires Regular(t) && |t| <= MAX_BRACKET_ITERATIONS && mark > 0.0 && p.qty != 0.0 && p.leverage >= 1
    ensures FallsShort(p, t, mark) <==> !Untriggered(Isolated(p), t, mark)
  {
    UntriggeredExactly(Isolated(p), t, mark);
  }

  // --------------------------------------------------------------- the price follows

  /** Where the two solves of one position stand to each other once its allocation grew. */
  ghost predicate MovedAway(qty: real, before: Solution, after: Solution)
  {
    && (before.Reachable() && after.Reachable() ==> Crossed(qty, after.price, before.price))
    && (qty > 0.0 && after.Reachable() ==> before.Reachable())
    && (qty < 0.0 && before.Reachable() ==> after.Reachable())
  }

  lemma MoreAllocationMovesThePriceAway(t: BracketTable, p: Position, p': Position, mark: real)
    requires Regular(t) && |t| <= MAX_BRACKET_ITERATIONS && mark > 0.0
    requires p.qty != 0.0 && p.leverage >= 1 && p' == p.(extra := p'.extra, funding := p'.funding)
    requires p.extra + p.funding <= p'.extra + p'.funding
    ensures p.IsolatedMargin() <= p'.IsolatedMargin()
    ensures Solve(Isolated(p), mark, t).Ok? && Solve(Isolated(p'), mark, t).Ok?
    ensures MovedAway(p.qty, Solve(Isolated(p), mark, t).value, Solve(Isolated(p'), mark, t).value)
  {
    MarginFollowsTheAllocation(p, p');
    MoreMarginMovesThePriceAway(t, Isolated(p), Isolated(p'), mark);
  }

  lemma MarginFollowsTheAllocation(p: Position, p': Position)
    requires p.leverage >= 1 && p' == p.(extra := p'.extra, funding := p'.funding)
    requires p.extra + p.funding <= p'.extra + p'.funding
    ensures p.IsolatedMargin() <= p'.IsolatedMargin()
  {
    QuantizeMonotone(RawAllocation(p), RawAllocation(p'));
  }

  lemma MoreMarginMovesThePriceAway(t: BracketTable, h: Holding, more: Holding, mark: real)
    requires Regular(t) && |t| <= MAX_BRACKET_ITERATIONS && mark > 0.0
    requires h.qty != 0.0 && more == h.(margin := more.margin) && h.margin <= more.margin
    ensures Solve(h, mark, t).Ok? && Solve(more, mark, t).Ok?
    ensures MovedAway(h.qty, Solve(h, mark, t).value, Solve(more, mark, t).value)
  {
    SolveConverges(h, mark, t);
    SolveConverges(more, mark, t);
    PriceIsMonotoneInTheMargin(h, more, t, mark, mark);
  }

  ghost predicate Priced(c: Config, s: Ledger, k: Key)
  {
    && k in s.positions && k.symbol in c.brackets && k.symbol in s.marks
    && Regular(c.brackets[k.symbol]) && |c.brackets[k.symbol]| <= MAX_BRACKET_ITERATIONS
  }

  ghost function SolvedAt(c: Config, s: Ledger, k: Key): Solved
    requires Priced(c, s, k) && s.positions[k].leverage >= 1
  {
    Solve(Isolated(s.positions[k]), s.marks[k.symbol], c.brackets[k.symbol])
  }

  /** Added margin only moves the liquidation price away. */
  lemma AddedMarginMovesThePriceAway(c: Config, s: Ledger, ts: int, symbol: string, amount: real, side: Option<PositionSide>)
    requires Inv(c, s) && AddMargin(c, s, ts, symbol, amount, side).outcome.Ok?
    requires Priced(c, s, Key(symbol, ResolveSide(c, side).value))
    ensures var k := Key(symbol, ResolveSide(c, side).value);
            var s' := AddMargin(c, s, ts, symbol, amount, side).ledger;
            && Priced(c, s', k) && s.positions[k].leverage == s'.positions[k].leverage >= 1
            && SolvedAt(c, s, k).Ok? && SolvedAt(c, s', k).Ok?
            && MovedAway(s.positions[k].qty, SolvedAt(c, s, k).value, SolvedAt(c, s', k).value)
  {
    var k := Key(symbol, ResolveSide(c, side).value);
    var s' := AddMargin(c, s, ts, symbol, amount, side).ledger;
    assert s'.positions[k] == s.positions[k].(extra := s.positions[k].extra + amount);
    MoreAllocationMovesThePriceAway(c.brackets[symbol], s.positions[k], s'.positions[k], s.marks[symbol]);
  }

  /** A funding payment only moves the liquidation price of the side that paid adversely,
      and a receipt only moves it away. */
  lemma FundingMovesThePrice(c: Config, s: Ledger, ts: int, k: Key, mark: real, rate: real)
    requires Inv(c, s) && Priced(c, s, k)
    ensures var s' := FundSide(s, ts, k, mark, rate);
            && Priced(c, s', k) && s.positions[k].leverage == s'.positions[k].leverage >= 1
            && SolvedAt(c, s, k).Ok? && SolvedAt(c, s', k).Ok?
            && var flow, q := Cashflow(s.positions[k].qty, mark, rate), s.positions[k].qty;
            && (flow <= 0.0 ==> MovedAway(q, SolvedAt(c, s', k).value, SolvedAt(c, s, k).value))
            && (flow >= 0.0 ==> MovedAway(q, SolvedAt(c, s, k).value, SolvedAt(c, s', k).value))
  {
    var p := s.positions[k];
    var flow := Cashflow(p.qty, mark, rate);
    var p' := p.(funding := p.funding + flow);
    FundedSolves(c.brackets[k.symbol], p, p', s.marks[k.symbol]);
    assert FundSide(s, ts, k, mark, rate).positions[k] == p';
  }

  lemma FundedSolves(t: BracketTable, p: Position, p': Position, mark: real)
    requires Regular(t) && |t| <= MAX_BRACKET_ITERATIONS && mark > 0.0
    requires p.qty != 0.0 && p.leverage >= 1 && p' == p.(funding := p'.funding)
    ensures Solve(Isolated(p), mark, t).Ok? && Solve(Isolated(p'), mark, t).Ok?
    ensures p'.funding <= p.funding ==> MovedAway(p.qty, Solve(Isolated(p'), mark, t).value, Solve(Isolated(p), mark, t).value)
    ensures p'.funding >= p.funding ==> MovedAway(p.qty, Solve(Isolated(p), mark, t).value, Solve(Isolated(p'), mark, t).value)
  {
    if p'.funding <= p.funding {
      MoreAllocationMovesThePriceAway(t, p', p, mark);
    }
    if p'.funding >= p.funding {
      MoreAllocationMovesThePriceAway(t, p, p', mark);
    }
  }
}
