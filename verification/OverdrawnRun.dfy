/** A run of the ledger that ends in an overdrawn short: the one position no mark makes
    solvent and no check liquidates (perplab/core/account.py:1162-1266). */
module OverdrawnRun {
  import opened Money
  import opened Wrappers
  import opened Liquidation
  import opened Positions
  import opened Ledger
  import opened LedgerRuns
  import opened FillValue
  import opened LiquidationSweep

  const SLOT := Key("X", BOTH)
  const SELL_ONE := Fill(0, "X", -1.0, 100.0, None, false, Some(0.0))

  /** A one-way account that neither enforces margin nor filters prices. */
  ghost predicate Plain(c: Config)
  {
    ConfigBuilds(c) && !c.hedgeMode && !c.enforceMargin && !c.requireBrackets && c.filters == map[]
  }

  lemma ShortIsAdmitted(c: Config)
    requires Plain(c)
    ensures Admit(c, Opened(c), SELL_ONE) == Done(Opened(c).(lastTs := 0), Ok(SLOT))
  {
  }

  lemma ShortIsDecided(c: Config)
    requires Plain(c)
    ensures Decide(c, Opened(c).(lastTs := 0), SELL_ONE, SLOT) == Ok(Booking(-1.0, Some(100.0), 0.0, 0.0, 0.0))
  {
    assert LeverageFor(Opened(c).(lastTs := 0), SLOT) == 1;
  }

  lemma ShortIsOpened(c: Config)
    requires Plain(c)
    ensures var d := ApplyFill(c, Opened(c), SELL_ONE);
            && d.ledger.positions == map[SLOT := Position(-1.0, 100.0, 1, 0.0, 0.0)]
            && d.ledger.lastTs == 0
  {
    ShortIsAdmitted(c);
    ShortIsDecided(c);
    var s, b := Opened(c).(lastTs := 0), Booking(-1.0, Some(100.0), 0.0, 0.0, 0.0);
    SettlementIsTheCommit(c, s, SELL_ONE, SLOT, b);
    assert LeverageFor(s, SLOT) == 1;
  }

  lemma PaymentOverdraws(p: Position)
    requires p == Position(-1.0, 100.0, 1, 0.0, -200.0)
    ensures Overdrawn(p.AsHolding(p.IsolatedMargin()))
  {
    assert p.EntryNotional() == 100.0;
    WholeIsOnGrid(100.0, 10000000000);
    WholeIsOnGrid(-100.0, -10000000000);
    QuantizeFixpoint(100.0);
    QuantizeFixpoint(-100.0);
    assert Times(p.qty, p.entry) == -100.0;
  }

  lemma FundedShort(c: Config, s: Ledger)
    requires s.positions == map[SLOT := Position(-1.0, 100.0, 1, 0.0, 0.0)] && s.lastTs == 0
    ensures ApplyFunding(c, s, 1, "X", -2.0, Some(100.0)).ledger.positions == map[SLOT := Position(-1.0, 100.0, 1, 0.0, -200.0)]
  {
    var s1 := Touch(c, s, 1).ledger;
    assert Touch(c, s, 1).outcome.Ok? && s1.positions == s.positions;
    assert OpenSides(s1, "X") == [BOTH];
    assert [BOTH][..0] == [];
    assert FundSides(s1, 1, "X", [], 100.0, -2.0) == s1;
    assert FundSides(s1, 1, "X", [BOTH], 100.0, -2.0) == FundSide(s1, 1, SLOT, 100.0, -2.0);
    assert Cashflow(-1.0, 100.0, -2.0) == -200.0 by { assert Times(1.0, 100.0) == 100.0; }
  }

  lemma RunOneMore(c: Config, ops: seq<Op>, op: Op)
    requires ConfigBuilds(c)
    ensures Run(c, ops + [op]) == Step(c, Run(c, ops), op).ledger
  {
    assert (ops + [op])[..|ops|] == ops;
  }

  /** On any such account a sale and one funding payment leave an overdrawn short. */
  lemma FundingAloneOverdrawsAShort(c: Config)
    requires Plain(c)
    ensures var s := Run(c, [DoFill(SELL_ONE), DoFunding(1, "X", -2.0, Some(100.0))]);
            SLOT in s.positions && s.positions[SLOT].leverage >= 1 && Overdrawn(Isolated(s.positions[SLOT]))
  {
    var sale, payment := DoFill(SELL_ONE), DoFunding(1, "X", -2.0, Some(100.0));
    RunOneMore(c, [], sale);
    assert [] + [sale] == [sale];
    ShortIsOpened(c);
    RunOneMore(c, [sale], payment);
    assert [sale] + [payment] == [sale, payment];
    FundedShort(c, Run(c, [sale]));
    PaymentOverdraws(Position(-1.0, 100.0, 1, 0.0, -200.0));
  }
}
