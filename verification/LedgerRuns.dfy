/** The invariant over every sequence of ledger operations, in either position mode. */
module LedgerRuns {
  import opened Wrappers
  import opened Sums
  import opened Positions
  import opened Ledger
  import opened LedgerInvariant

  datatype Op =
    | DoFill(fill: Fill)
    | DoFunding(ts: int, symbol: string, rate: real, at: Option<real>)
    | DoMark(ts: int, symbol: string, price: real)
    | DoLiquidations(ts: int, order: seq<Key>)
    | DoLeverage(symbol: string, leverage: int)
    | DoAddMargin(ts: int, symbol: string, amount: real, side: Option<PositionSide>)
    | DoRemoveMargin(ts: int, symbol: string, amount: real, side: Option<PositionSide>)

  /** The ledger an operation leaves, and what it raised if it raised. */
  datatype Stepped = Stepped(ledger: Ledger, raised: Option<Error>)

  function Strip<T>(d: Done<T>): Stepped
  {
    Stepped(d.ledger, if d.outcome.Ok? then None else Some(d.outcome.error))
  }

  ghost function Step(c: Config, s: Ledger, op: Op): Stepped
    requires ConfigBuilds(c)
  {
    match op
    case DoFill(f) => Strip(ApplyFill(c, s, f))
    case DoFunding(ts, symbol, rate, at) => Strip(ApplyFunding(c, s, ts, symbol, rate, at))
    case DoMark(ts, symbol, price) => Strip(UpdateMark(c, s, ts, symbol, price))
    case DoLiquidations(ts, order) => Strip(CheckLiquidations(c, s, ts, order))
    case DoLeverage(symbol, leverage) => Strip(SetLeverage(c, s, symbol, leverage))
    case DoAddMargin(ts, symbol, amount, side) => Strip(AddMargin(c, s, ts, symbol, amount, side))
    case DoRemoveMargin(ts, symbol, amount, side) => Strip(RemoveMargin(c, s, ts, symbol, amount, side))
  }

  /** A run carries on after an operation that raises, from the ledger it left behind. */
  ghost function Run(c: Config, ops: seq<Op>): Ledger
    requires ConfigBuilds(c)
  {
    if ops == [] then Opened(c) else Step(c, Run(c, ops[..|ops| - 1]), ops[|ops| - 1]).ledger
  }

  /** Conservation checks that must never fire. I5, I6 and I8 answer for the input (an
      overdrawing charge, an off-grid fill, a stale timestamp), I7 for the table. */
  predicate Forbidden(e: Error)
  {
    e in {Violation(I1), Violation(I2), Violation(I3), Violation(I4), Violation(I9)}
  }

  ghost predicate Kept(c: Config, r: Stepped)
  {
    Inv(c, r.ledger) && (r.raised.Some? ==> !Forbidden(r.raised.value))
  }

  // ---------------------------------------------------------------- each operation

  lemma FillKeeps(c: Config, s: Ledger, f: Fill)
    requires ConfigBuilds(c) && Inv(c, s)
    ensures Kept(c, Strip(ApplyFill(c, s, f)))
  {
    AdmitKeeps(c, s, f);
    var a := Admit(c, s, f);
    if a.outcome.Ok? {
      if Decide(c, a.ledger, f, a.outcome.value).Ok? {
        SettleKeeps(c, a.ledger, f, a.outcome.value);
      } else {
        RefusalsAreNotViolations(c, a.ledger, f, a.outcome.value);
      }
    }
  }

  lemma RefusalsAreNotViolations(c: Config, s: Ledger, f: Fill, k: Key)
    requires ConfigBuilds(c) && f.qty != 0.0 && Decide(c, s, f, k).Raised?
    ensures !Forbidden(Decide(c, s, f, k).error) && Decide(c, s, f, k).error != Violation(I5)
  {
  }

  lemma FundingKeeps(c: Config, s: Ledger, ts: int, symbol: string, rate: real, at: Option<real>)
    requires Inv(c, s)
    ensures Kept(c, Strip(ApplyFunding(c, s, ts, symbol, rate, at)))
  {
    TouchKeeps(c, s, ts);
    if Touch(c, s, ts).outcome.Ok? && (at.Some? || symbol in s.marks) {
      SettleSidesKeeps(c, Touch(c, s, ts).ledger, ts, symbol, if at.Some? then at.value else s.marks[symbol], rate);
    }
  }

  lemma SettleSidesKeeps(c: Config, s: Ledger, ts: int, symbol: string, mark: real, rate: real)
    requires Inv(c, s) && Current(c, s, ts)
    ensures Kept(c, Strip(SettleSides(c, s, ts, symbol, mark, rate)))
  {
    FundSidesKeep(c, s, ts, symbol, OpenSides(s, symbol), mark, rate);
    CheckWalletKeeps(c, FundSides(s, ts, symbol, OpenSides(s, symbol), mark, rate), false);
  }

  lemma MarkKeeps(c: Config, s: Ledger, ts: int, symbol: string, price: real)
    requires Inv(c, s)
    ensures Kept(c, Strip(UpdateMark(c, s, ts, symbol, price)))
  {
    TouchKeeps(c, s, ts);
    if price > 0.0 && Touch(c, s, ts).outcome.Ok? {
      var s1 := Touch(c, s, ts).ledger;
      var s2 := s1.(marks := s1.marks[symbol := price]);
      MarkedHolds(c, s1, symbol, price);
      var sides := if OpenSides(s2, symbol) == [] then [BOTH] else OpenSides(s2, symbol);
      MarkEventsKeep(c, s2, ts, symbol, sides, price);
    }
  }

  lemma MarkedHolds(c: Config, s: Ledger, symbol: string, price: real)
    requires Inv(c, s) && price > 0.0
    ensures var s' := s.(marks := s.marks[symbol := price]);
            && Inv(c, s') && !CarriesAFlatPosition(s')
            && forall ts :: Current(c, s, ts) ==> Current(c, s', ts)
  {
    var s' := s.(marks := s.marks[symbol := price]);
    forall j
      ensures s'.Qty(j) == At(s'.signedFills, j)
    {
      assert s.Qty(j) == At(s.signedFills, j);
    }
  }

  lemma VisitSideKeeps(c: Config, s: Ledger, ts: int, k: Key)
    requires ConfigBuilds(c) && Inv(c, s) && Current(c, s, ts)
    ensures var d := VisitSide(c, s, ts, k); Kept(c, Strip(d)) && Current(c, d.ledger, ts)
  {
    if VisitSide(c, s, ts, k).ledger != s {
      var p, mark := s.positions[k], s.marks[k.symbol];
      var price := SolveLiquidation(c, c.brackets[k.symbol], p, mark).value.price;
      LiquidatedKeeps(c, s, ts, k, price, mark);
      CheckAfterFillKeeps(c, Liquidated(c, s, ts, k, price, mark), k, true);
      CheckWalletKeeps(c, Liquidated(c, s, ts, k, price, mark), true);
    }
  }

  lemma {:induction false} VisitSidesKeep(c: Config, s: Ledger, ts: int, order: seq<Key>)
    requires ConfigBuilds(c) && Inv(c, s) && Current(c, s, ts)
    ensures var d := VisitSides(c, s, ts, order); Kept(c, Strip(d)) && Current(c, d.ledger, ts)
  {
    if order != [] {
      VisitSidesKeep(c, s, ts, order[..|order| - 1]);
      var d := VisitSides(c, s, ts, order[..|order| - 1]);
      VisitSideKeeps(c, d.ledger, ts, order[|order| - 1]);
    }
  }

  lemma LiquidationsKeep(c: Config, s: Ledger, ts: int, order: seq<Key>)
    requires ConfigBuilds(c) && Inv(c, s)
    ensures Kept(c, Strip(CheckLiquidations(c, s, ts, order)))
  {
    TouchKeeps(c, s, ts);
    if Touch(c, s, ts).outcome.Ok? { VisitSidesKeep(c, Touch(c, s, ts).ledger, ts, order); }
  }

  lemma LeverageKeeps(c: Config, s: Ledger, symbol: string, leverage: int)
    requires Inv(c, s)
    ensures Kept(c, Strip(SetLeverage(c, s, symbol, leverage)))
  {
    var s' := SetLeverage(c, s, symbol, leverage).ledger;
    forall j
      ensures s'.Qty(j) == At(s'.signedFills, j)
    {
      assert s.Qty(j) == At(s.signedFills, j);
    }
  }

  lemma ExtraStepKeeps(c: Config, s: Ledger, r: Stepped, ts: int, kind: EventKind, k: Key, amount: real, extra: real)
    requires Inv(c, s)
    requires kind.MARGIN_ADDED? || kind.MARGIN_REMOVED?
    requires if r.raised.Some? then r.ledger == s && !Forbidden(r.raised.value)
             else && Touch(c, s, ts).outcome.Ok? && k in s.positions && extra >= 0.0
                  && r.ledger == WithExtra(Touch(c, s, ts).ledger, ts, kind, k, amount, extra)
    ensures Kept(c, r)
  {
    if r.raised == None {
      TouchKeeps(c, s, ts);
      WithExtraKeeps(c, Touch(c, s, ts).ledger, ts, kind, k, amount, extra);
    }
  }

  lemma AddMarginKeeps(c: Config, s: Ledger, ts: int, symbol: string, amount: real, side: Option<PositionSide>)
    requires Inv(c, s)
    ensures Kept(c, Strip(AddMargin(c, s, ts, symbol, amount, side)))
  {
    var r := Strip(AddMargin(c, s, ts, symbol, amount, side));
    var k := Key(symbol, if ResolveSide(c, side).Ok? then ResolveSide(c, side).value else BOTH);
    var extra := if k in s.positions then s.positions[k].extra else 0.0;
    assert r.raised == None ==> PositionBuilds(k.side, s.positions[k]);
    ExtraStepKeeps(c, s, r, ts, MARGIN_ADDED, k, amount, extra + amount);
  }

  lemma RemoveMarginKeeps(c: Config, s: Ledger, ts: int, symbol: string, amount: real, side: Option<PositionSide>)
    requires Inv(c, s)
    ensures Kept(c, Strip(RemoveMargin(c, s, ts, symbol, amount, side)))
  {
    var r := Strip(RemoveMargin(c, s, ts, symbol, amount, side));
    var k := Key(symbol, if ResolveSide(c, side).Ok? then ResolveSide(c, side).value else BOTH);
    var extra := if k in s.positions then s.positions[k].extra else 0.0;
    ExtraStepKeeps(c, s, r, ts, MARGIN_REMOVED, k, amount, extra - amount);
  }

  lemma StepKeeps(c: Config, s: Ledger, op: Op)
    requires ConfigBuilds(c) && Inv(c, s)
    ensures Kept(c, Step(c, s, op))
  {
    if op.DoFill? {
      FillKeeps(c, s, op.fill);
    } else if op.DoFunding? {
      FundingKeeps(c, s, op.ts, op.symbol, op.rate, op.at);
    } else if op.DoMark? {
      MarkKeeps(c, s, op.ts, op.symbol, op.price);
    } else if op.DoLiquidations? {
      LiquidationsKeep(c, s, op.ts, op.order);
    } else if op.DoLeverage? {
      LeverageKeeps(c, s, op.symbol, op.leverage);
    } else if op.DoAddMargin? {
      AddMarginKeeps(c, s, op.ts, op.symbol, op.amount, op.side);
    } else {
      RemoveMarginKeeps(c, s, op.ts, op.symbol, op.amount, op.side);
    }
  }

  // ------------------------------------------------------------------------- runs

  /** Over every run the conservation invariants hold, whatever was refused on the way. */
  lemma {:induction false} EveryRunKeepsTheInvariant(c: Config, ops: seq<Op>)
    requires ConfigBuilds(c)
    ensures Inv(c, Run(c, ops))
  {
    if ops == [] {
      OpenedHolds(c);
    } else {
      EveryRunKeepsTheInvariant(c, ops[..|ops| - 1]);
      StepKeeps(c, Run(c, ops[..|ops| - 1]), ops[|ops| - 1]);
    }
  }

  /** No step of any run raises I1, I2, I3 or I4. */
  lemma NoConservationCheckEverFires(c: Config, ops: seq<Op>, op: Op)
    requires ConfigBuilds(c)
    ensures var r := Step(c, Run(c, ops), op); r.raised.Some? ==> !Forbidden(r.raised.value)
  {
    EveryRunKeepsTheInvariant(c, ops);
    StepKeeps(c, Run(c, ops), op);
  }

  /** The end-of-run replay reproduces the wallet, the totals and every position. */
  lemma ReconcileNeverRaises(c: Config, ops: seq<Op>)
    requires ConfigBuilds(c)
    ensures Reconcile(c, Run(c, ops)) == Ok(())
  {
    EveryRunKeepsTheInvariant(c, ops);
    var s := Run(c, ops);
    assert forall k :: s.Qty(k) == At(s.signedFills, k);
  }

  /** Hedge legs keep their sign; one-way slots are BOTH; one leverage a symbol. */
  lemma HedgeLegsKeepTheirSign(c: Config, ops: seq<Op>, k: Key, j: Key)
    requires ConfigBuilds(c)
    requires k in Run(c, ops).positions && j in Run(c, ops).positions
    ensures var p := Run(c, ops).positions;
            && p[k].qty != 0.0 && p[k].entry > 0.0
            && (c.hedgeMode ==> (k.side == LONG && p[k].qty > 0.0) || (k.side == SHORT && p[k].qty < 0.0))
            && (!c.hedgeMode ==> k.side == BOTH)
            && (k.symbol == j.symbol ==> p[k].leverage == p[j].leverage)
  {
    EveryRunKeepsTheInvariant(c, ops);
  }
}
