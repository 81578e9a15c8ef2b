/** What the clock, the liquidation count and the negative-wallet flag of a run mean
    (perplab/core/account.py:1755-1820). */
module RunCounters {
  import opened Wrappers
  import opened Positions
  import opened Ledger
  import opened LedgerInvariant
  import opened LedgerRuns
  import opened FillValue

  // --------------------------------------------------------------------------- the clock

  function StampOf(op: Op): Option<int>
  {
    if op.DoFill? then Some(op.fill.ts) else if op.DoLeverage? then None else Some(op.ts)
  }

  /** The clock after an operation: where it was, or at the operation's stamp if that is
      later; an accepted operation is never ahead of it, and on a strict account not behind. */
  predicate Ticks(strict: bool, before: int, stamp: Option<int>, after: int, accepted: bool)
  {
    && (after == before || (stamp == Some(after) && after > before))
    && (accepted && stamp.Some? ==> stamp.value <= after && (strict ==> stamp.value == after))
  }

  lemma FillTicks(c: Config, s: Ledger, f: Fill)
    requires ConfigBuilds(c)
    ensures var d := ApplyFill(c, s, f); Ticks(c.strict, s.lastTs, Some(f.ts), d.ledger.lastTs, d.outcome.Ok?)
  {
    AdmissionMovesTheClock(c, s, f);
    var a := Admit(c, s, f);
    if a.outcome.Ok? && Decide(c, a.ledger, f, a.outcome.value).Ok? {
      SettlementIsTheCommit(c, a.ledger, f, a.outcome.value, Decide(c, a.ledger, f, a.outcome.value).value);
    }
  }

  lemma {:induction false} SidesKeepTheTime(s: Ledger, ts: int, symbol: string, sides: seq<PositionSide>, mark: real, rate: real)
    ensures var s' := FundSides(s, ts, symbol, sides, mark, rate);
            s'.lastTs == s.lastTs && s'.wasNegative == s.wasNegative && s'.liquidations == s.liquidations
    ensures Liquidations(FundSides(s, ts, symbol, sides, mark, rate).events) == Liquidations(s.events)
  {
    if sides != [] {
      var s1 := FundSides(s, ts, symbol, sides[..|sides| - 1], mark, rate);
      SidesKeepTheTime(s, ts, symbol, sides[..|sides| - 1], mark, rate);
      var k := Key(symbol, sides[|sides| - 1]);
      if k in s1.positions { OneMoreEvent(s1.events, FundSide(s1, ts, k, mark, rate).events[|s1.events|]); }
    }
  }

  lemma CheckKeepsTheTime(c: Config, s: Ledger, liquidating: bool)
    ensures var s' := CheckWallet(c, s, liquidating).ledger; s' == s.(wasNegative := s'.wasNegative)
  {
  }

  lemma SettlingKeepsTheTime(c: Config, s: Ledger, ts: int, symbol: string, mark: real, rate: real)
    ensures SettleSides(c, s, ts, symbol, mark, rate).ledger.lastTs == s.lastTs
  {
    SidesKeepTheTime(s, ts, symbol, OpenSides(s, symbol), mark, rate);
    CheckKeepsTheTime(c, FundSides(s, ts, symbol, OpenSides(s, symbol), mark, rate), false);
  }

  lemma FundingTicks(c: Config, s: Ledger, ts: int, symbol: string, rate: real, at: Option<real>)
    ensures var d := ApplyFunding(c, s, ts, symbol, rate, at); Ticks(c.strict, s.lastTs, Some(ts), d.ledger.lastTs, d.outcome.Ok?)
  {
    if at.Some? || symbol in s.marks {
      SettlingKeepsTheTime(c, Touch(c, s, ts).ledger, ts, symbol, if at.Some? then at.value else s.marks[symbol], rate);
    }
  }

  lemma VisitKeepsTheTime(c: Config, s: Ledger, ts: int, k: Key)
    ensures VisitSide(c, s, ts, k).ledger.lastTs == s.lastTs
  {
  }

  lemma {:induction false} VisitsKeepTheTime(c: Config, s: Ledger, ts: int, order: seq<Key>)
    ensures VisitSides(c, s, ts, order).ledger.lastTs == s.lastTs
  {
    if order != [] {
      VisitsKeepTheTime(c, s, ts, order[..|order| - 1]);
      VisitKeepsTheTime(c, VisitSides(c, s, ts, order[..|order| - 1]).ledger, ts, order[|order| - 1]);
    }
  }

  lemma PostedTicks(c: Config, s: Ledger, ts: int, kind: EventKind, k: Key, amount: real, extra: real)
    requires k in s.positions
    ensures var d := Posted(c, s, ts, kind, k, amount, extra);
            && Ticks(c.strict, s.lastTs, Some(ts), d.ledger.lastTs, d.outcome.Ok?)
            && (d.outcome == Raised(Violation(I8)) ==> c.strict && ts < s.lastTs)
  {
  }

  lemma AdditionTicks(c: Config, s: Ledger, ts: int, symbol: string, amount: real, side: Option<PositionSide>)
    ensures var d := AddMargin(c, s, ts, symbol, amount, side);
            && Ticks(c.strict, s.lastTs, Some(ts), d.ledger.lastTs, d.outcome.Ok?)
            && (d.outcome == Raised(Violation(I8)) ==> c.strict && ts < s.lastTs)
  {
    if ResolveSide(c, side).Ok? {
      var k := Key(symbol, ResolveSide(c, side).value);
      if k in s.positions { PostedTicks(c, s, ts, MARGIN_ADDED, k, amount, s.positions[k].extra + amount); }
    }
  }

  lemma RemovalTicks(c: Config, s: Ledger, ts: int, symbol: string, amount: real, side: Option<PositionSide>)
    ensures var d := RemoveMargin(c, s, ts, symbol, amount, side);
            && Ticks(c.strict, s.lastTs, Some(ts), d.ledger.lastTs, d.outcome.Ok?)
            && (d.outcome == Raised(Violation(I8)) ==> c.strict && ts < s.lastTs)
  {
    if ResolveSide(c, side).Ok? {
      var k := Key(symbol, ResolveSide(c, side).value);
      if k in s.positions { PostedTicks(c, s, ts, MARGIN_REMOVED, k, amount, s.positions[k].extra - amount); }
    }
  }

  lemma MarkTicks(c: Config, s: Ledger, ts: int, symbol: string, price: real)
    ensures var d := UpdateMark(c, s, ts, symbol, price); Ticks(c.strict, s.lastTs, Some(ts), d.ledger.lastTs, d.outcome.Ok?)
    ensures UpdateMark(c, s, ts, symbol, price).outcome == Raised(Violation(I8)) ==> c.strict && ts < s.lastTs
  {
  }

  lemma StepTicks(c: Config, s: Ledger, op: Op)
    requires ConfigBuilds(c)
    ensures var r := Step(c, s, op); Ticks(c.strict, s.lastTs, StampOf(op), r.ledger.lastTs, r.raised == None)
  {
    if op.DoFill? {
      FillTicks(c, s, op.fill);
    } else if op.DoFunding? {
      FundingTicks(c, s, op.ts, op.symbol, op.rate, op.at);
    } else if op.DoMark? {
      MarkTicks(c, s, op.ts, op.symbol, op.price);
    } else if op.DoLiquidations? {
      VisitsKeepTheTime(c, Touch(c, s, op.ts).ledger, op.ts, op.order);
    } else if op.DoAddMargin? {
      AdditionTicks(c, s, op.ts, op.symbol, op.amount, op.side);
    } else if op.DoRemoveMargin? {
      RemovalTicks(c, s, op.ts, op.symbol, op.amount, op.side);
    }
  }

  /** Some operation among these bears the stamp. */
  ghost predicate Stamped(ops: seq<Op>, ts: int)
  {
    exists i :: 0 <= i < |ops| && StampOf(ops[i]) == Some(ts)
  }

  ghost predicate AcceptedAt(c: Config, ops: seq<Op>, i: int)
    requires ConfigBuilds(c) && 0 <= i < |ops|
  {
    Step(c, Run(c, ops[..i]), ops[i]).raised == None
  }

  /** The clock of a run is before all time or at the stamp of one of its operations, and no
      accepted one is later. */
  lemma {:induction false} TheClockIsTheLatestStamp(c: Config, ops: seq<Op>)
    requires ConfigBuilds(c)
    ensures var now := Run(c, ops).lastTs; now >= -1 && (now == -1 || Stamped(ops, now))
    ensures forall i :: 0 <= i < |ops| && AcceptedAt(c, ops, i) && StampOf(ops[i]).Some? ==>
              StampOf(ops[i]).value <= Run(c, ops).lastTs
  {
    if ops != [] {
      var front, op := ops[..|ops| - 1], ops[|ops| - 1];
      TheClockIsTheLatestStamp(c, front);
      StepTicks(c, Run(c, front), op);
      if Stamped(front, Run(c, ops).lastTs) {
        var i :| 0 <= i < |front| && StampOf(front[i]) == Some(Run(c, ops).lastTs);
        assert StampOf(ops[i]) == Some(Run(c, ops).lastTs);
      }
      forall i | 0 <= i < |ops| && AcceptedAt(c, ops, i) && StampOf(ops[i]).Some?
        ensures StampOf(ops[i]).value <= Run(c, ops).lastTs
      {
        if i < |front| {
          assert front[..i] == ops[..i] && front[i] == ops[i];
          assert AcceptedAt(c, front, i);
        }
      }
    }
  }

  /** So on a strict account the stamps of what was accepted never go back. */
  lemma AcceptedStampsNeverGoBack(c: Config, ops: seq<Op>, i: int, j: int)
    requires ConfigBuilds(c) && c.strict && 0 <= i < j < |ops| && AcceptedAt(c, ops, i) && AcceptedAt(c, ops, j)
    requires StampOf(ops[i]).Some? && StampOf(ops[j]).Some?
    ensures StampOf(ops[i]).value <= StampOf(ops[j]).value
  {
    TheClockIsTheLatestStamp(c, ops[..j]);
    assert ops[..j][..i] == ops[..i] && ops[..j][i] == ops[i];
    assert AcceptedAt(c, ops[..j], i);
    StepTicks(c, Run(c, ops[..j]), ops[j]);
  }

  /** And an operation is turned away as stale only where an earlier one bears a later stamp,
      or its own is before all time. */
  lemma StaleOnlyAfterALaterStamp(c: Config, ops: seq<Op>, op: Op)
    requires ConfigBuilds(c) && Step(c, Run(c, ops), op).raised == Some(Violation(I8))
    ensures c.strict && StampOf(op).Some?
    ensures StampOf(op).value < -1 || exists i :: 0 <= i < |ops| && StampOf(ops[i]).Some? && StampOf(ops[i]).value > StampOf(op).value
  {
    TheClockIsTheLatestStamp(c, ops);
    OnlyTheStaleAreStale(c, Run(c, ops), op);
    var now := Run(c, ops).lastTs;
    if now != -1 {
      var i :| 0 <= i < |ops| && StampOf(ops[i]) == Some(now);
      assert StampOf(ops[i]).value > StampOf(op).value;
    }
  }

  lemma OnlyTheStaleAreStale(c: Config, s: Ledger, op: Op)
    requires ConfigBuilds(c) && Step(c, s, op).raised == Some(Violation(I8))
    ensures c.strict && StampOf(op).Some? && StampOf(op).value < s.lastTs
  {
    if op.DoFill? {
      SettledFillIsNotStale(c, s, op.fill);
    } else if op.DoFunding? {
      SettledFundingIsNotStale(c, s, op.ts, op.symbol, op.rate, op.at);
    } else if op.DoMark? {
      MarkTicks(c, s, op.ts, op.symbol, op.price);
    } else if op.DoLiquidations? {
      VisitsAreNeverStale(c, Touch(c, s, op.ts).ledger, op.ts, op.order);
    } else if op.DoAddMargin? {
      AdditionTicks(c, s, op.ts, op.symbol, op.amount, op.side);
    } else if op.DoRemoveMargin? {
      RemovalTicks(c, s, op.ts, op.symbol, op.amount, op.side);
    }
  }

  lemma SettledFillIsNotStale(c: Config, s: Ledger, f: Fill)
    requires ConfigBuilds(c) && ApplyFill(c, s, f).outcome == Raised(Violation(I8))
    ensures c.strict && f.ts < s.lastTs
  {
    var a := Admit(c, s, f);
    if a.outcome.Ok? { DecisionsAreNeverStale(c, a.ledger, f, a.outcome.value); }
  }

  lemma DecisionsAreNeverStale(c: Config, s: Ledger, f: Fill, k: Key)
    requires ConfigBuilds(c) && f.qty != 0.0
    ensures Decide(c, s, f, k).Raised? ==> Decide(c, s, f, k).error != Violation(I8)
    ensures Decide(c, s, f, k).Ok? ==> Settle(c, s, f, k, Decide(c, s, f, k).value).outcome != Raised(Violation(I8))
  {
  }

  lemma SettledFundingIsNotStale(c: Config, s: Ledger, ts: int, symbol: string, rate: real, at: Option<real>)
    requires ApplyFunding(c, s, ts, symbol, rate, at).outcome == Raised(Violation(I8))
    ensures c.strict && ts < s.lastTs
  {
  }

  lemma {:induction false} VisitsAreNeverStale(c: Config, s: Ledger, ts: int, order: seq<Key>)
    ensures VisitSides(c, s, ts, order).outcome != Raised(Violation(I8))
  {
    if order != [] {
      VisitsAreNeverStale(c, s, ts, order[..|order| - 1]);
      VisitIsNeverStale(c, VisitSides(c, s, ts, order[..|order| - 1]).ledger, ts, order[|order| - 1]);
    }
  }

  lemma VisitIsNeverStale(c: Config, s: Ledger, ts: int, k: Key)
    ensures VisitSide(c, s, ts, k).outcome != Raised(Violation(I8))
  {
  }

  // ------------------------------------------------------------- the count and the flag

  function Liquidations(events: seq<AccountEvent>): nat
  {
    if events == [] then 0
    else Liquidations(events[..|events| - 1]) + (if events[|events| - 1].kind.LIQUIDATION? then 1 else 0)
  }

  lemma OneMoreEvent(events: seq<AccountEvent>, e: AccountEvent)
    ensures Liquidations(events + [e]) == Liquidations(events) + (if e.kind.LIQUIDATION? then 1 else 0)
  {
    assert (events + [e])[..|events|] == events;
  }

  /** The count is that of the logged liquidations, and the flag is up only on a strict
      account whose wallet is below zero. */
  predicate Counted(c: Config, s: Ledger)
  {
    s.liquidations == Liquidations(s.events) && (s.wasNegative ==> c.strict && s.wallet < 0.0)
  }

  /** Whatever moved the wallet, the check after it leaves the flag right. */
  lemma CheckedFlagIsRight(c: Config, s: Ledger, liquidating: bool)
    requires Inv(c, s) && (s.wasNegative ==> c.strict) && s.liquidations == Liquidations(s.events)
    ensures Counted(c, CheckWallet(c, s, liquidating).ledger)
  {
    CheckWalletKeeps(c, s, liquidating);
  }

  lemma SettledFillCounts(c: Config, s: Ledger, f: Fill, k: Key, b: Booking)
    requires Inv(c, Commit(s, f, k, b, Charged(c, f))) && Counted(c, s)
    ensures Counted(c, Settle(c, s, f, k, b).ledger)
  {
    var s' := Commit(s, f, k, b, Charged(c, f));
    OneMoreEvent(s.events, s'.events[|s.events|]);
    CheckAfterFillKeeps(c, s', k, false);
    CheckedFlagIsRight(c, s', false);
  }

  lemma FillCounts(c: Config, s: Ledger, f: Fill)
    requires ConfigBuilds(c) && Inv(c, s) && Counted(c, s)
    ensures Counted(c, ApplyFill(c, s, f).ledger)
  {
    AdmitKeeps(c, s, f);
    var a := Admit(c, s, f);
    if a.outcome.Ok? && Decide(c, a.ledger, f, a.outcome.value).Ok? {
      CommitKeeps(c, a.ledger, f, a.outcome.value);
      SettledFillCounts(c, a.ledger, f, a.outcome.value, Decide(c, a.ledger, f, a.outcome.value).value);
    }
  }

  lemma FundingCounts(c: Config, s: Ledger, ts: int, symbol: string, rate: real, at: Option<real>)
    requires Inv(c, s) && Counted(c, s)
    ensures Counted(c, ApplyFunding(c, s, ts, symbol, rate, at).ledger)
  {
    TouchKeeps(c, s, ts);
    if Touch(c, s, ts).outcome.Ok? && (at.Some? || symbol in s.marks) {
      SettlingCounts(c, Touch(c, s, ts).ledger, ts, symbol, if at.Some? then at.value else s.marks[symbol], rate);
    }
  }

  lemma SettlingCounts(c: Config, s: Ledger, ts: int, symbol: string, mark: real, rate: real)
    requires Inv(c, s) && Counted(c, s) && Current(c, s, ts)
    ensures Counted(c, SettleSides(c, s, ts, symbol, mark, rate).ledger)
  {
    SidesKeepTheTime(s, ts, symbol, OpenSides(s, symbol), mark, rate);
    FundSidesKeep(c, s, ts, symbol, OpenSides(s, symbol), mark, rate);
    CheckedFlagIsRight(c, FundSides(s, ts, symbol, OpenSides(s, symbol), mark, rate), false);
  }

  lemma VisitCounts(c: Config, s: Ledger, ts: int, k: Key)
    requires ConfigBuilds(c) && Inv(c, s) && Counted(c, s) && Current(c, s, ts)
    ensures Counted(c, VisitSide(c, s, ts, k).ledger)
  {
    if VisitSide(c, s, ts, k).ledger != s {
      var p, mark := s.positions[k], s.marks[k.symbol];
      var s' := Liquidated(c, s, ts, k, SolveLiquidation(c, c.brackets[k.symbol], p, mark).value.price, mark);
      LiquidatedKeeps(c, s, ts, k, SolveLiquidation(c, c.brackets[k.symbol], p, mark).value.price, mark);
      OneMoreEvent(s.events, s'.events[|s.events|]);
      CheckAfterFillKeeps(c, s', k, true);
      CheckedFlagIsRight(c, s', true);
    }
  }

  lemma {:induction false} VisitsCount(c: Config, s: Ledger, ts: int, order: seq<Key>)
    requires ConfigBuilds(c) && Inv(c, s) && Counted(c, s) && Current(c, s, ts)
    ensures Counted(c, VisitSides(c, s, ts, order).ledger)
  {
    if order != [] {
      VisitsCount(c, s, ts, order[..|order| - 1]);
      VisitSidesKeep(c, s, ts, order[..|order| - 1]);
      VisitCounts(c, VisitSides(c, s, ts, order[..|order| - 1]).ledger, ts, order[|order| - 1]);
    }
  }

  lemma {:induction false} MarksCount(s: Ledger, ts: int, symbol: string, sides: seq<PositionSide>, price: real)
    ensures Liquidations(s.events + MarkEvents(s, ts, symbol, sides, price)) == Liquidations(s.events)
  {
    if sides == [] {
      assert s.events + MarkEvents(s, ts, symbol, sides, price) == s.events;
    } else {
      var front, e := MarkEvents(s, ts, symbol, sides[..|sides| - 1], price), MarkEvent(s, ts, symbol, sides[|sides| - 1], price);
      MarksCount(s, ts, symbol, sides[..|sides| - 1], price);
      OneMoreEvent(s.events + front, e);
      assert s.events + MarkEvents(s, ts, symbol, sides, price) == s.events + front + [e];
    }
  }

  lemma MarkCounts(c: Config, s: Ledger, ts: int, symbol: string, price: real)
    requires Counted(c, s)
    ensures Counted(c, UpdateMark(c, s, ts, symbol, price).ledger)
  {
    var s1 := Touch(c, s, ts).ledger.(marks := s.marks[symbol := price]);
    MarksCount(s1, ts, symbol, if OpenSides(s1, symbol) == [] then [BOTH] else OpenSides(s1, symbol), price);
  }

  lemma PostedCounts(c: Config, s: Ledger, ts: int, kind: EventKind, k: Key, amount: real, extra: real)
    requires k in s.positions && Counted(c, s) && !kind.LIQUIDATION?
    ensures Counted(c, Posted(c, s, ts, kind, k, amount, extra).ledger)
  {
    var p := s.positions[k].(extra := extra);
    OneMoreEvent(s.events, MarginEvent(s, ts, kind, k, amount, p));
  }

  lemma AdditionCounts(c: Config, s: Ledger, ts: int, symbol: string, amount: real, side: Option<PositionSide>)
    requires Counted(c, s)
    ensures Counted(c, AddMargin(c, s, ts, symbol, amount, side).ledger)
  {
    if ResolveSide(c, side).Ok? {
      var k := Key(symbol, ResolveSide(c, side).value);
      if k in s.positions { PostedCounts(c, s, ts, MARGIN_ADDED, k, amount, s.positions[k].extra + amount); }
    }
  }

  lemma RemovalCounts(c: Config, s: Ledger, ts: int, symbol: string, amount: real, side: Option<PositionSide>)
    requires Counted(c, s)
    ensures Counted(c, RemoveMargin(c, s, ts, symbol, amount, side).ledger)
  {
    if ResolveSide(c, side).Ok? {
      var k := Key(symbol, ResolveSide(c, side).value);
      if k in s.positions { PostedCounts(c, s, ts, MARGIN_REMOVED, k, amount, s.positions[k].extra - amount); }
    }
  }

  lemma StepCounts(c: Config, s: Ledger, op: Op)
    requires ConfigBuilds(c) && Inv(c, s) && Counted(c, s)
    ensures Counted(c, Step(c, s, op).ledger)
  {
    if op.DoFill? {
      FillCounts(c, s, op.fill);
    } else if op.DoFunding? {
      FundingCounts(c, s, op.ts, op.symbol, op.rate, op.at);
    } else if op.DoMark? {
      MarkCounts(c, s, op.ts, op.symbol, op.price);
    } else if op.DoLiquidations? {
      TouchKeeps(c, s, op.ts);
      if Touch(c, s, op.ts).outcome.Ok? { VisitsCount(c, Touch(c, s, op.ts).ledger, op.ts, op.order); }
    } else if op.DoAddMargin? {
      AdditionCounts(c, s, op.ts, op.symbol, op.amount, op.side);
    } else if op.DoRemoveMargin? {
      RemovalCounts(c, s, op.ts, op.symbol, op.amount, op.side);
    }
  }

  /** Over every run: the count and the flag mean what they say, so that a wallet which was
      never below zero is never exempt from I5. */
  lemma {:induction false} EveryRunCounts(c: Config, ops: seq<Op>)
    requires ConfigBuilds(c)
    ensures Counted(c, Run(c, ops))
  {
    if ops != [] {
      EveryRunCounts(c, ops[..|ops| - 1]);
      EveryRunKeepsTheInvariant(c, ops[..|ops| - 1]);
      StepCounts(c, Run(c, ops[..|ops| - 1]), ops[|ops| - 1]);
    }
  }
}
