/** Runs of the ledger in which moving margin goes wrong: an accepted removal liquidated at
    the same mark, and an addition refused to a position the next check leaves alone
    (perplab/core/account.py:1470-1622). */
module MarginRuns {
  import opened Money
  import opened Wrappers
  import opened Sums
  import opened Margin
  import opened Liquidation
  import opened Positions
  import opened Ledger
  import opened LedgerRuns
  import opened FillValue
  import opened MarginMoves
  import opened OverdrawnRun

  const HALF_RATE := LeverageBracket(1, 125, 0.0, 1000000.0, 0.5, 0.0)
  const BUY_ONE := Fill(0, "X", 1.0, 100.0, None, false, Some(0.0))

  /** A one-way account of at least 1000 that enforces margin, filters no prices and has one
      tier for the symbol. */
  ghost predicate Enforcing(c: Config)
  {
    && ConfigBuilds(c) && !c.hedgeMode && c.enforceMargin && c.filters == map[] && c.opening >= 1000.0
    && "X" in c.brackets && c.brackets["X"] == [HALF_RATE]
  }

  function Holds(extra: real, funding: real): Position
  {
    Position(1.0, 100.0, 2, extra, funding)
  }

  /** One unit bought at 100 with leverage 2, and nothing else. */
  ghost predicate HoldsOne(s: Ledger, ts: int, mark: real, extra: real, funding: real)
  {
    && s.positions == map[SLOT := Holds(extra, funding)] && s.marks == map["X" := mark]
    && s.lastTs == ts && s.wallet >= 900.0
  }

  // --------------------------------------------------------------------- the steps

  lemma LeverageIsSet(c: Config)
    requires Enforcing(c)
    ensures SetLeverage(c, Opened(c), "X", 2) == Done(Opened(c).(leverages := map["X" := 2]), Ok(()))
  {
    assert TopLeverage([HALF_RATE]) == 125;
    assert map[]["X" := 2] == map["X" := 2];
  }

  lemma PurchaseIsDecided(c: Config, s: Ledger)
    requires Enforcing(c) && s == Opened(c).(leverages := map["X" := 2], lastTs := 0)
    ensures Decide(c, s, BUY_ONE, SLOT) == Ok(Booking(1.0, Some(100.0), 0.0, 0.0, 0.0))
    ensures LeverageFor(s, SLOT) == 2 && Charged(c, BUY_ONE) == 0.0
  {
    QuantizeFixpoint(0.0);
    BaseIsHalf();
    assert Reserves(s.positions) == map[];
    assert RequireMargin(c, s, "X", None, Some(Holds(0.0, 0.0)), 0.0, 0.0) == None;
  }

  lemma BaseIsHalf()
    ensures Holds(0.0, 0.0).EntryNotional() == 100.0 && Holds(0.0, 0.0).BaseMargin() == 50.0
    ensures Holds(0.0, 0.0).IsolatedMargin() == 50.0
  {
    WholeIsOnGrid(50.0, 5000000000);
    QuantizeFixpoint(50.0);
  }

  lemma UnitIsBought(c: Config, s: Ledger)
    requires Enforcing(c) && s == Opened(c).(leverages := map["X" := 2])
    ensures var d := ApplyFill(c, s, BUY_ONE).ledger;
            && d.positions == map[SLOT := Holds(0.0, 0.0)] && d.marks == map[]
            && d.lastTs == 0 && d.wallet == c.opening
  {
    var s1 := s.(lastTs := 0);
    assert Admit(c, s, BUY_ONE) == Done(s1, Ok(SLOT));
    PurchaseIsDecided(c, s1);
    SettlementIsTheCommit(c, s1, BUY_ONE, SLOT, Booking(1.0, Some(100.0), 0.0, 0.0, 0.0));
  }

  lemma MarkIsRecorded(c: Config, s: Ledger, mark: real)
    requires s.positions == map[SLOT := Holds(0.0, 0.0)] && s.marks == map[] && s.lastTs == 0 && s.wallet >= 1000.0
    requires mark > 0.0
    ensures HoldsOne(UpdateMark(c, s, 1, "X", mark).ledger, 1, mark, 0.0, 0.0)
    ensures UpdateMark(c, s, 1, "X", mark).ledger.wallet >= 1000.0
  {
    assert s.marks["X" := mark] == map["X" := mark];
  }

  lemma MarginIsAdded(c: Config, s: Ledger, ts: int, mark: real, amount: real)
    requires Enforcing(c) && HoldsOne(s, ts, mark, 0.0, 0.0) && 0.0 < amount <= 1.0
    ensures HoldsOne(AddMargin(c, s, ts + 1, "X", amount, None).ledger, ts + 1, mark, amount, 0.0)
    ensures AddMargin(c, s, ts + 1, "X", amount, None).ledger.wallet == s.wallet
  {
    BaseIsHalf();
    assert Reserves(s.positions) == map[][SLOT := 50.0];
    MapSumInsert(map[], SLOT, 50.0);
    assert !AdditionRefused(c, s, s.positions[SLOT], amount);
  }

  lemma FundingIsPaid(c: Config, s: Ledger, ts: int, mark: real, extra: real, rate: real)
    requires HoldsOne(s, ts, mark, extra, 0.0) && s.wallet >= 900.0 + 100.0 * rate
    ensures HoldsOne(ApplyFunding(c, s, ts + 1, "X", rate, Some(100.0)).ledger, ts + 1, mark, extra, -100.0 * rate)
  {
    var s1 := Touch(c, s, ts + 1).ledger;
    assert OpenSides(s1, "X") == [BOTH] && [BOTH][..0] == [];
    assert FundSides(s1, ts + 1, "X", [], 100.0, rate) == s1;
    assert FundSides(s1, ts + 1, "X", [BOTH], 100.0, rate) == FundSide(s1, ts + 1, SLOT, 100.0, rate);
    assert Times(-1.0, 100.0) == -100.0;
    assert Cashflow(1.0, 100.0, rate) == -100.0 * rate;
  }

  // ---------------------------------------------------------------------- the runs

  /** Leverage, a purchase and a mark. */
  function Bought(mark: real): seq<Op>
  {
    [DoLeverage("X", 2), DoFill(BUY_ONE), DoMark(1, "X", mark)]
  }

  lemma BoughtHoldsOne(c: Config, mark: real)
    requires Enforcing(c) && mark > 0.0
    ensures HoldsOne(Run(c, Bought(mark)), 1, mark, 0.0, 0.0) && Run(c, Bought(mark)).wallet >= 1000.0
  {
    var a, b, d := DoLeverage("X", 2), DoFill(BUY_ONE), DoMark(1, "X", mark);
    RunOneMore(c, [], a);
    assert [] + [a] == [a];
    LeverageIsSet(c);
    RunOneMore(c, [a], b);
    assert [a] + [b] == [a, b];
    UnitIsBought(c, Run(c, [a]));
    RunOneMore(c, [a, b], d);
    assert [a, b] + [d] == Bought(mark);
    MarkIsRecorded(c, Run(c, [a, b]), mark);
  }

  // -------------------------------------------------- a removal and what follows it

  lemma SolvedAtHalf(margin: real, mark: real)
    requires margin < 100.0 && mark > 0.0
    ensures Solve(Holding(1.0, 100.0, margin), mark, [HALF_RATE]) == Ok(Solution(2.0 * (100.0 - margin), 0, 1))
  {
    var h := Holding(1.0, 100.0, margin);
    assert Times(1.0, 100.0) == 100.0 && Times(1.0, 0.5) == 0.5;
    assert TierPrice(h, HALF_RATE) == 2.0 * (100.0 - margin);
    assert Resolve([HALF_RATE], Times(1.0, mark)) == 0;
    assert Resolve([HALF_RATE], Times(1.0, 2.0 * (100.0 - margin))) == 0;
  }

  /** More than 50 is tested, and 50 is left. */
  predicate LeavesTheLine(extra: real, funding: real, amount: real)
  {
    && 0.0 < amount <= extra
    && 50.0 < Tested(Holds(extra, funding), amount).margin < 100.0
    && Holds(extra - amount, funding).IsolatedMargin() == 50.0
  }

  lemma RemovalIsAccepted(c: Config, s: Ledger, ts: int, extra: real, funding: real, amount: real)
    requires Enforcing(c) && HoldsOne(s, ts, 100.0, extra, funding) && LeavesTheLine(extra, funding, amount)
    ensures var d := RemoveMargin(c, s, ts + 1, "X", amount, None);
            d.outcome.Ok? && HoldsOne(d.ledger, ts + 1, 100.0, extra - amount, funding)
  {
    SolvedAtHalf(Tested(Holds(extra, funding), amount).margin, 100.0);
    assert ShrinkRefused(c, [HALF_RATE], Holds(extra, funding), 100.0, amount) == None;
    assert RemovalRefused(c, s, SLOT, amount) == None;
  }

  lemma LineIsTaken(c: Config, s: Ledger, ts: int, extra: real, funding: real)
    requires Enforcing(c) && HoldsOne(s, ts, 100.0, extra, funding) && Holds(extra, funding).IsolatedMargin() == 50.0
    ensures CheckLiquidations(c, s, ts + 1, [SLOT]).ledger.positions == map[]
  {
    var s1 := Touch(c, s, ts + 1).ledger;
    SolvedAtHalf(50.0, 100.0);
    assert Times(1.0, 100.0) == 100.0 && Times(100.0, 0.5) == 50.0;
    assert SolveLiquidation(c, [HALF_RATE], Holds(extra, funding), 100.0) == Ok(Solution(100.0, 0, 1));
    ChecksMoveNoPositions(c, Liquidated(c, s1, ts + 1, SLOT, 100.0, 100.0), SLOT);
    assert VisitSide(c, s1, ts + 1, SLOT).ledger.positions == map[];
    OneVisit(c, s1, ts + 1, SLOT);
  }

  lemma OneVisit(c: Config, s: Ledger, ts: int, k: Key)
    ensures VisitSides(c, s, ts, [k]).ledger == VisitSide(c, s, ts, k).ledger
  {
    assert [k][..0] == [];
    assert VisitSides(c, s, ts, []) == Done(s, Ok([]));
  }

  /** The removal is accepted and moves neither the mark nor the position out of its slot. */
  ghost predicate Accepts(c: Config, ops: seq<Op>, removal: Op)
    requires ConfigBuilds(c)
  {
    && Step(c, Run(c, ops), removal).raised == None
    && SLOT in Run(c, ops + [removal]).positions && Run(c, ops + [removal]).marks == Run(c, ops).marks
  }

  /** The run accepts the removal, and the check after it, at the same mark, takes the
      position. */
  ghost predicate TakenAtOnce(c: Config, ops: seq<Op>, ts: int, amount: real)
    requires ConfigBuilds(c)
  {
    var removal, check := DoRemoveMargin(ts, "X", amount, None), DoLiquidations(ts + 1, [SLOT]);
    Accepts(c, ops, removal) && Run(c, ops + [removal] + [check]).positions == map[]
  }

  lemma RemovedInTheRun(c: Config, ops: seq<Op>, ts: int, extra: real, funding: real, amount: real)
    requires Enforcing(c) && HoldsOne(Run(c, ops), ts, 100.0, extra, funding) && LeavesTheLine(extra, funding, amount)
    ensures Accepts(c, ops, DoRemoveMargin(ts + 1, "X", amount, None))
    ensures HoldsOne(Run(c, ops + [DoRemoveMargin(ts + 1, "X", amount, None)]), ts + 1, 100.0, extra - amount, funding)
  {
    RemovalIsAccepted(c, Run(c, ops), ts, extra, funding, amount);
    RunOneMore(c, ops, DoRemoveMargin(ts + 1, "X", amount, None));
  }

  lemma LineIsTakenInTheRun(c: Config, ops: seq<Op>, ts: int, extra: real, funding: real, amount: real)
    requires Enforcing(c) && HoldsOne(Run(c, ops), ts, 100.0, extra, funding) && LeavesTheLine(extra, funding, amount)
    ensures TakenAtOnce(c, ops, ts + 1, amount)
  {
    var removal := DoRemoveMargin(ts + 1, "X", amount, None);
    RemovedInTheRun(c, ops, ts, extra, funding, amount);
    CheckTakesTheLine(c, ops + [removal], ts + 1, extra - amount, funding);
    assert Accepts(c, ops, removal);
  }

  lemma CheckTakesTheLine(c: Config, ops: seq<Op>, ts: int, extra: real, funding: real)
    requires Enforcing(c) && HoldsOne(Run(c, ops), ts, 100.0, extra, funding) && Holds(extra, funding).IsolatedMargin() == 50.0
    ensures Run(c, ops + [DoLiquidations(ts + 1, [SLOT])]).positions == map[]
  {
    LineIsTaken(c, Run(c, ops), ts, extra, funding);
    RunOneMore(c, ops, DoLiquidations(ts + 1, [SLOT]));
  }

  // ------------------------------------------------------------------- the witnesses

  /** An amount off the grid: 0.6 of a quantum was added and 0.2 is taken out again. */
  lemma OffTheGrid()
    ensures LeavesTheLine(0.000000006, 0.0, 0.000000002)
  {
    BaseIsHalf();
    HalfEvenIsTheNearest(5000000001, 50.000000006 * SCALE);
    HalfEvenIsTheNearest(5000000001, 50.000000008 * SCALE);
    HalfEvenIsTheNearest(5000000000, 50.000000004 * SCALE);
  }

  /** A quantum, off a tie that half a quantum of funding paid has left. */
  lemma OnATie()
    ensures LeavesTheLine(0.00000002, -0.000000005, 0.00000001)
  {
    BaseIsHalf();
    HalfEvenIsTheNearest(5000000002, 50.000000015 * SCALE);
    HalfEvenIsTheNearest(5000000001, 50.00000001 * SCALE);
    HalfEvenIsTheNearest(5000000000, 50.000000005 * SCALE);
  }

  lemma AddedInTheRun(c: Config, ops: seq<Op>, ts: int, mark: real, amount: real)
    requires Enforcing(c) && HoldsOne(Run(c, ops), ts, mark, 0.0, 0.0) && 0.0 < amount <= 1.0
    ensures HoldsOne(Run(c, ops + [DoAddMargin(ts + 1, "X", amount, None)]), ts + 1, mark, amount, 0.0)
    ensures Run(c, ops + [DoAddMargin(ts + 1, "X", amount, None)]).wallet == Run(c, ops).wallet
  {
    RunOneMore(c, ops, DoAddMargin(ts + 1, "X", amount, None));
    MarginIsAdded(c, Run(c, ops), ts, mark, amount);
  }

  lemma FundedInTheRun(c: Config, ops: seq<Op>, ts: int, mark: real, extra: real, rate: real)
    requires Enforcing(c) && HoldsOne(Run(c, ops), ts, mark, extra, 0.0)
    requires Run(c, ops).wallet >= 1000.0 && rate <= 1.0
    ensures HoldsOne(Run(c, ops + [DoFunding(ts + 1, "X", rate, Some(100.0))]), ts + 1, mark, extra, -100.0 * rate)
  {
    RunOneMore(c, ops, DoFunding(ts + 1, "X", rate, Some(100.0)));
    FundingIsPaid(c, Run(c, ops), ts, mark, extra, rate);
  }

  /** On every such account a run that takes out an amount off the grid ends so. */
  lemma AcceptedRemovalIsLiquidatedAtOnce(c: Config)
    requires Enforcing(c)
    ensures TakenAtOnce(c, Bought(100.0) + [DoAddMargin(2, "X", 0.000000006, None)], 3, 0.000000002)
  {
    BoughtHoldsOne(c, 100.0);
    AddedInTheRun(c, Bought(100.0), 1, 100.0, 0.000000006);
    OffTheGrid();
    LineIsTakenInTheRun(c, Bought(100.0) + [DoAddMargin(2, "X", 0.000000006, None)], 2, 0.000000006, 0.0, 0.000000002);
  }

  /** And one that takes a whole quantum off a tie. */
  lemma AcceptedQuantumIsLiquidatedAtOnce(c: Config)
    requires Enforcing(c)
    ensures TakenAtOnce(c, Bought(100.0) + [DoAddMargin(2, "X", 0.00000002, None)]
                           + [DoFunding(3, "X", 0.00000000005, Some(100.0))], 4, 0.00000001)
  {
    var ops := Bought(100.0) + [DoAddMargin(2, "X", 0.00000002, None)];
    BoughtHoldsOne(c, 100.0);
    AddedInTheRun(c, Bought(100.0), 1, 100.0, 0.00000002);
    FundedInTheRun(c, ops, 2, 100.0, 0.00000002, 0.00000000005);
    OnATie();
    LineIsTakenInTheRun(c, ops + [DoFunding(3, "X", 0.00000000005, Some(100.0))], 3, 0.00000002, -0.000000005, 0.00000001);
  }

  // ------------------------------------------------------- an overdrawn allocation

  lemma OverdraftIsRefused(c: Config, s: Ledger, ts: int, amount: real)
    requires Enforcing(c) && HoldsOne(s, ts, 300.0, 0.0, -51.0) && amount > 0.0
    ensures Holds(0.0, -51.0).IsolatedMargin() == -1.0
    ensures AddMargin(c, s, ts + 1, "X", amount, None) == Done(s, Raised(InsufficientMargin))
  {
    BaseIsHalf();
    WholeIsOnGrid(-1.0, -100000000);
    QuantizeFixpoint(-1.0);
  }

  lemma ProfitIsLeftAlone(c: Config, s: Ledger, ts: int)
    requires Enforcing(c) && HoldsOne(s, ts, 300.0, 0.0, -51.0) && Holds(0.0, -51.0).IsolatedMargin() == -1.0
    ensures CheckLiquidations(c, s, ts + 1, [SLOT]).ledger.positions == s.positions
  {
    var s1 := Touch(c, s, ts + 1).ledger;
    SolvedAtHalf(-1.0, 300.0);
    UntriggeredIsSkipped(c, s1, ts + 1, SLOT);
    OneVisit(c, s1, ts + 1, SLOT);
  }

  /** The run holds a position with an overdrawn allocation, is refused margin for it, and
      the check after that leaves it alone. */
  ghost predicate RefusedAndLeftAlone(c: Config, ops: seq<Op>, ts: int, amount: real)
    requires ConfigBuilds(c)
  {
    var addition, check := DoAddMargin(ts, "X", amount, None), DoLiquidations(ts, [SLOT]);
    && SLOT in Run(c, ops).positions
    && Run(c, ops).positions[SLOT].leverage >= 1 && Run(c, ops).positions[SLOT].IsolatedMargin() < 0.0
    && Step(c, Run(c, ops), addition).raised == Some(InsufficientMargin)
    && Run(c, ops + [addition] + [check]).positions == Run(c, ops).positions
  }

  lemma OverdraftInTheRun(c: Config, ops: seq<Op>, ts: int, amount: real)
    requires Enforcing(c) && HoldsOne(Run(c, ops), ts, 300.0, 0.0, -51.0) && amount > 0.0
    ensures RefusedAndLeftAlone(c, ops, ts + 1, amount)
  {
    RefusedInTheRun(c, ops, ts, amount);
    LeftAloneInTheRun(c, ops + [DoAddMargin(ts + 1, "X", amount, None)], ts);
  }

  lemma RefusedInTheRun(c: Config, ops: seq<Op>, ts: int, amount: real)
    requires Enforcing(c) && HoldsOne(Run(c, ops), ts, 300.0, 0.0, -51.0) && amount > 0.0
    ensures Holds(0.0, -51.0).IsolatedMargin() == -1.0
    ensures Step(c, Run(c, ops), DoAddMargin(ts + 1, "X", amount, None)).raised == Some(InsufficientMargin)
    ensures Run(c, ops + [DoAddMargin(ts + 1, "X", amount, None)]) == Run(c, ops)
  {
    OverdraftIsRefused(c, Run(c, ops), ts, amount);
    RunOneMore(c, ops, DoAddMargin(ts + 1, "X", amount, None));
  }

  lemma LeftAloneInTheRun(c: Config, ops: seq<Op>, ts: int)
    requires Enforcing(c) && HoldsOne(Run(c, ops), ts, 300.0, 0.0, -51.0) && Holds(0.0, -51.0).IsolatedMargin() == -1.0
    ensures Run(c, ops + [DoLiquidations(ts + 1, [SLOT])]).positions == Run(c, ops).positions
  {
    ProfitIsLeftAlone(c, Run(c, ops), ts);
    RunOneMore(c, ops, DoLiquidations(ts + 1, [SLOT]));
  }

  /** On every such account: a long in profit, its allocation drained below zero by funding,
      is refused margin, and the next check leaves it alone. */
  lemma OverdrawnLongInProfitIsRefusedAndLeftAlone(c: Config)
    requires Enforcing(c)
    ensures RefusedAndLeftAlone(c, Bought(300.0) + [DoFunding(2, "X", 0.51, Some(100.0))], 3, 1.0)
  {
    BoughtHoldsOne(c, 300.0);
    FundedInTheRun(c, Bought(300.0), 1, 300.0, 0.0, 0.51);
    OverdraftInTheRun(c, Bought(300.0) + [DoFunding(2, "X", 0.51, Some(100.0))], 2, 1.0);
  }
}
