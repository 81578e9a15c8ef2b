/** What one call of `check_liquidations` does to the whole ledger: every triggered side
    is liquidated once, nothing else moves, and no visiting order is preferred. */
module LiquidationSweep {
  import opened Wrappers
  import opened Sums
  import opened Margin
  import opened Liquidation
  import opened Convergence
  import opened Positions
  import opened Ledger
  import opened LedgerInvariant
  import opened LedgerRuns

  /** Tables on which the solve is proved to converge. */
  ghost predicate RegularTables(c: Config)
  {
    forall s {:trigger c.brackets[s]} :: s in c.brackets ==>
      Regular(c.brackets[s]) && |c.brackets[s]| <= MAX_BRACKET_ITERATIONS
  }

  /** The trigger stated without the solver: balance within the requirement at the mark,
      for a position the solver does not skip as overdrawn. */
  ghost predicate Due(c: Config, s: Ledger, k: Key)
  {
    && k in s.positions && k.symbol in c.brackets && k.symbol in s.marks
    && s.positions[k].leverage >= 1 && |c.brackets[k.symbol]| > 0
    && var h, t := Isolated(s.positions[k]), c.brackets[k.symbol];
    && Balance(h, s.marks[k.symbol]) <= Requirement(t, NotionalAt(h, s.marks[k.symbol]))
    && !Overdrawn(h)
  }

  function Isolated(p: Position): Holding
    requires p.leverage >= 1
  {
    p.AsHolding(p.IsolatedMargin())
  }

  /** On regular tables the solve never raises and I7 never fires. */
  lemma SolveLiquidationSucceeds(c: Config, t: BracketTable, p: Position, mark: real)
    requires Regular(t) && |t| <= MAX_BRACKET_ITERATIONS
    requires p.qty != 0.0 && p.entry > 0.0 && p.leverage >= 1 && mark > 0.0
    ensures Solve(Isolated(p), mark, t).Ok?
    ensures SolveLiquidation(c, t, p, mark) == Ok(Solve(Isolated(p), mark, t).value)
    ensures Triggered(Isolated(p), mark, SolveLiquidation(c, t, p, mark).value)
       <==> Balance(Isolated(p), mark) <= Requirement(t, NotionalAt(Isolated(p), mark)) && !Overdrawn(Isolated(p))
  {
    var h := Isolated(p);
    SolveConverges(h, mark, t);
    TriggerIsExact(h, mark, t);
    var s := Solve(h, mark, t).value;
    if s.tier < |t| && h.margin > MaintenanceMargin(p.EntryNotional(), t[s.tier]) {
      OrderingNeverFails(h, mark, t);
    }
  }

  // ----------------------------------------------------------------- the end state

  /** The wallet's move for each side that could be liquidated now, and what the clearance
      would keep of it. */
  ghost function LossTable(c: Config, s: Ledger): map<Key, real>
  {
    map k | k in s.positions && s.positions[k].leverage >= 1 && k.symbol in s.marks ::
      LiquidationLoss(c, s.positions[k], s.marks[k.symbol])
  }

  ghost function ClearanceTable(c: Config, s: Ledger): map<Key, real>
  {
    map k | k in s.positions && s.positions[k].leverage >= 1 && k.symbol in s.marks ::
      Clearance(c, s.positions[k], s.marks[k.symbol])
  }

  ghost function AllDue(c: Config, s: Ledger): set<Key>
  {
    set k | k in s.positions && Due(c, s, k)
  }

  function Only(m: map<Key, real>, keys: set<Key>): map<Key, real>
  {
    map k | k in m && k in keys :: m[k]
  }

  /** The signed fills of a side that was closed sum to nothing. */
  function Zeroed(keys: set<Key>): map<Key, real>
  {
    map k | k in keys :: 0.0
  }

  function ClearedBy(s: Ledger, strict: bool, keys: set<Key>, loss: real, kept: real, fills: map<Key, real>,
                     events: seq<AccountEvent>): Ledger
  {
    s.(wallet := s.wallet + loss,
       realized := s.realized + loss,
       liquidationCost := s.liquidationCost - kept,
       liquidations := s.liquidations + |keys|,
       positions := s.positions - keys,
       signedFills := fills,
       events := events,
       wasNegative := if strict && keys != {} then s.wallet + loss < 0.0 else s.wasNegative)
  }

  /** The ledger after the sides in `keys` are gone, written without any order. */
  ghost function Cleared(s: Ledger, strict: bool, keys: set<Key>, loss: map<Key, real>, kept: map<Key, real>,
                         events: seq<AccountEvent>): Ledger
  {
    ClearedBy(s, strict, keys, MapSum(Only(loss, keys)), MapSum(Only(kept, keys)), s.signedFills + Zeroed(keys), events)
  }

  // ------------------------------------------------------- one side of a sweep

  /** Mentioned where a side's trigger and prices are to be looked up. */
  predicate Look(k: Key)
  {
    true
  }

  ghost predicate ForeseenAt(c: Config, s: Ledger, k: Key, due: set<Key>, loss: map<Key, real>, kept: map<Key, real>)
  {
    && (k in due <==> Due(c, s, k))
    && (Due(c, s, k) ==>
          && k in loss && loss[k] == LiquidationLoss(c, s.positions[k], s.marks[k.symbol])
          && k in kept && kept[k] == Clearance(c, s.positions[k], s.marks[k.symbol]))
  }

  ghost predicate Foreseen(c: Config, s: Ledger, due: set<Key>, loss: map<Key, real>, kept: map<Key, real>)
  {
    forall k {:trigger Look(k)} :: Look(k) ==> ForeseenAt(c, s, k, due, loss, kept)
  }

  lemma TablesForesee(c: Config, s: Ledger)
    ensures Foreseen(c, s, AllDue(c, s), LossTable(c, s), ClearanceTable(c, s))
  {
    forall k | Look(k)
      ensures ForeseenAt(c, s, k, AllDue(c, s), LossTable(c, s), ClearanceTable(c, s))
    {
      TableForesees(c, s, k);
    }
  }

  lemma TableForesees(c: Config, s: Ledger, k: Key)
    ensures ForeseenAt(c, s, k, AllDue(c, s), LossTable(c, s), ClearanceTable(c, s))
  {
  }

  /** Whether a side is due does not depend on what was cleared before it. */
  lemma ForesightIsLocal(c: Config, s: Ledger, s': Ledger, k: Key, due: set<Key>, loss: map<Key, real>, kept: map<Key, real>)
    requires s'.marks == s.marks && s'.Held(k) == s.Held(k)
    requires ForeseenAt(c, s, k, due, loss, kept)
    ensures ForeseenAt(c, s', k, due, loss, kept)
  {
  }

  function Flagged(s: Ledger, strict: bool, before: bool): Ledger
  {
    s.(wasNegative := if strict then s.wallet < 0.0 else before)
  }

  lemma VisitOne(c: Config, s: Ledger, ts: int, k: Key, due: set<Key>, loss: map<Key, real>, kept: map<Key, real>)
    requires ConfigBuilds(c) && RegularTables(c) && Inv(c, s) && Current(c, s, ts)
    requires ForeseenAt(c, s, k, due, loss, kept)
    ensures var d := VisitSide(c, s, ts, k);
            && d.outcome.Ok?
            && (if k in due
                then && k in s.positions && k in loss && k in kept
                     && d.outcome.value.Some? && d.outcome.value.value.key == k
                     && d.ledger == Flagged(Closeout(s, ts, k, d.outcome.value.value.trigger, loss[k], kept[k]),
                                            c.strict, s.wasNegative)
                else d.outcome.value == None && d.ledger == s)
  {
    if k in s.positions && k.symbol in c.brackets && k.symbol in s.marks {
      var p, mark, t := s.positions[k], s.marks[k.symbol], c.brackets[k.symbol];
      SolveLiquidationSucceeds(c, t, p, mark);
      if k in due {
        var price := SolveLiquidation(c, t, p, mark).value.price;
        LiquidatedKeeps(c, s, ts, k, price, mark);
        CheckAfterFillKeeps(c, Liquidated(c, s, ts, k, price, mark), k, true);
      }
    }
  }

  // -------------------------------------------------------------- a whole sweep

  lemma NothingCleared(s: Ledger, strict: bool, loss: map<Key, real>, kept: map<Key, real>)
    ensures Cleared(s, strict, {}, loss, kept, s.events) == s
  {
    assert Only(loss, {}) == map[];
    assert Only(kept, {}) == map[];
    assert s.signedFills + Zeroed({}) == s.signedFills;
    assert s.positions - {} == s.positions;
  }

  lemma OneMore(m: map<Key, real>, keys: set<Key>, k: Key)
    requires k in m && k !in keys
    ensures MapSum(Only(m, keys + {k})) == MapSum(Only(m, keys)) + m[k]
  {
    assert Only(m, keys + {k}) == Only(m, keys)[k := m[k]];
    MapSumInsert(Only(m, keys), k, m[k]);
  }

  lemma OneMoreFill(fills: map<Key, real>, keys: set<Key>, k: Key)
    ensures (fills + Zeroed(keys))[k := 0.0] == fills + Zeroed(keys + {k})
  {
  }

  lemma ClearedByOneMore(s: Ledger, strict: bool, keys: set<Key>, k: Key, loss: real, kept: real, fills: map<Key, real>,
                         events: seq<AccountEvent>, ts: int, trigger: real, l: real, x: real)
    requires k !in keys && k in s.positions && At(fills, k) == s.positions[k].qty
    ensures var s1 := ClearedBy(s, strict, keys, loss, kept, fills, events);
            && k in s1.positions
            && var s2 := Flagged(Closeout(s1, ts, k, trigger, l, x), strict, s1.wasNegative);
            s2 == ClearedBy(s, strict, keys + {k}, loss + l, kept + x, fills[k := 0.0], s2.events)
  {
    assert s.positions - keys - {k} == s.positions - (keys + {k});
  }

  lemma ClearOneMore(s: Ledger, strict: bool, keys: set<Key>, k: Key, loss: map<Key, real>, kept: map<Key, real>,
                     ts: int, trigger: real, events: seq<AccountEvent>)
    requires k !in keys && k in s.positions && k in loss && k in kept
    requires Summed(Cleared(s, strict, keys, loss, kept, events))
    ensures var s1 := Cleared(s, strict, keys, loss, kept, events);
            && k in s1.positions
            && var s2 := Flagged(Closeout(s1, ts, k, trigger, loss[k], kept[k]), strict, s1.wasNegative);
            s2 == Cleared(s, strict, keys + {k}, loss, kept, s2.events)
  {
    var s1 := Cleared(s, strict, keys, loss, kept, events);
    assert s1.Qty(k) == At(s1.signedFills, k);
    OneMore(loss, keys, k);
    OneMore(kept, keys, k);
    OneMoreFill(s.signedFills, keys, k);
    ClearedByOneMore(s, strict, keys, k, MapSum(Only(loss, keys)), MapSum(Only(kept, keys)), s.signedFills + Zeroed(keys),
                     events, ts, trigger, loss[k], kept[k]);
  }

  lemma SweepStep(c: Config, s: Ledger, ts: int, keys: set<Key>, k: Key, s1: Ledger,
                  due: set<Key>, loss: map<Key, real>, kept: map<Key, real>)
    requires ConfigBuilds(c) && RegularTables(c) && Inv(c, s1) && Current(c, s1, ts)
    requires k !in keys && Foreseen(c, s, due, loss, kept)
    requires s1 == Cleared(s, c.strict, keys, loss, kept, s1.events)
    ensures var e := VisitSide(c, s1, ts, k);
            && e.outcome.Ok?
            && (if k in due
                then && e.outcome.value.Some? && e.outcome.value.value.key == k
                     && e.ledger == Cleared(s, c.strict, keys + {k}, loss, kept, e.ledger.events)
                else e.outcome.value == None && e.ledger == s1)
  {
    assert Look(k);
    assert s1.Held(k) == s.Held(k);
    ForesightIsLocal(c, s, s1, k, due, loss, kept);
    VisitOne(c, s1, ts, k, due, loss, kept);
    if k in due {
      ClearOneMore(s, c.strict, keys, k, loss, kept, ts, VisitSide(c, s1, ts, k).outcome.value.value.trigger, s1.events);
    }
  }

  function KeysOf(results: seq<LiquidationResult>): set<Key>
  {
    if results == [] then {} else KeysOf(results[..|results| - 1]) + {results[|results| - 1].key}
  }

  lemma OneMoreResult(results: seq<LiquidationResult>, last: Option<LiquidationResult>)
    ensures KeysOf(Joined(results, last)) == KeysOf(results) + (if last.Some? then {last.value.key} else {})
  {
    if last.Some? {
      assert (results + [last.value])[..|results|] == results;
    }
  }

  function Among(order: seq<Key>, due: set<Key>): set<Key>
  {
    set k | k in order && k in due
  }

  predicate NoRepeats(order: seq<Key>)
  {
    forall i, j :: 0 <= i < j < |order| ==> order[i] != order[j]
  }

  lemma AmongOneMore(order: seq<Key>, due: set<Key>)
    requires order != [] && NoRepeats(order)
    ensures var front, k := order[..|order| - 1], order[|order| - 1];
            && NoRepeats(front)
            && k !in Among(front, due)
            && Among(order, due) == Among(front, due) + (if k in due then {k} else {})
  {
    assert order == order[..|order| - 1] + [order[|order| - 1]];
  }

  lemma {:induction false} SweepClearsTheDue(c: Config, s: Ledger, ts: int, order: seq<Key>,
                                             due: set<Key>, loss: map<Key, real>, kept: map<Key, real>)
    requires ConfigBuilds(c) && RegularTables(c) && Inv(c, s) && Current(c, s, ts) && NoRepeats(order)
    requires Foreseen(c, s, due, loss, kept)
    ensures var d := VisitSides(c, s, ts, order);
            && d.outcome.Ok?
            && d.ledger == Cleared(s, c.strict, Among(order, due), loss, kept, d.ledger.events)
            && |d.outcome.value| == |Among(order, due)|
            && KeysOf(d.outcome.value) == Among(order, due)
  {
    if order == [] {
      assert Among(order, due) == {};
      NothingCleared(s, c.strict, loss, kept);
    } else {
      var front, k := order[..|order| - 1], order[|order| - 1];
      AmongOneMore(order, due);
      SweepClearsTheDue(c, s, ts, front, due, loss, kept);
      VisitSidesKeep(c, s, ts, front);
      var d := VisitSides(c, s, ts, front);
      SweepStep(c, s, ts, Among(front, due), k, d.ledger, due, loss, kept);
      OneMoreResult(d.outcome.value, VisitSide(c, d.ledger, ts, k).outcome.value);
    }
  }

  // --------------------------------------------------------------------- theorems

  ghost predicate Enumerates(order: seq<Key>, positions: map<Key, Position>)
  {
    NoRepeats(order) && forall k :: k in order <==> k in positions
  }

  /** The ledger once the call has been admitted at `ts`. */
  function Admitted(c: Config, s: Ledger, ts: int): Ledger
  {
    Touch(c, s, ts).ledger
  }

  lemma CheckClears(c: Config, s: Ledger, ts: int, order: seq<Key>, due: set<Key>, loss: map<Key, real>, kept: map<Key, real>)
    requires ConfigBuilds(c) && RegularTables(c) && Inv(c, s)
    requires Touch(c, s, ts).outcome.Ok? && Enumerates(order, s.positions)
    requires due <= s.positions.Keys && Foreseen(c, Admitted(c, s, ts), due, loss, kept)
    ensures var d := CheckLiquidations(c, s, ts, order);
            && d.outcome.Ok?
            && |d.outcome.value| == |due|
            && KeysOf(d.outcome.value) == due
            && d.ledger == Cleared(Admitted(c, s, ts), c.strict, due, loss, kept, d.ledger.events)
  {
    TouchKeeps(c, s, ts);
    SweepClearsTheDue(c, Admitted(c, s, ts), ts, order, due, loss, kept);
    DueAreVisited(order, s.positions, due);
  }

  lemma DueAreVisited(order: seq<Key>, positions: map<Key, Position>, due: set<Key>)
    requires Enumerates(order, positions) && due <= positions.Keys
    ensures Among(order, due) == due
  {
  }

  /** Every due side is liquidated once and the rest of the ledger is what it was: the
      wallet moves by the sum of recovered minus isolated margin. */
  lemma CheckLiquidationsClearsTheDue(c: Config, s: Ledger, ts: int, order: seq<Key>)
    requires ConfigBuilds(c) && RegularTables(c) && Inv(c, s)
    requires Touch(c, s, ts).outcome.Ok? && Enumerates(order, s.positions)
    ensures var d, s1 := CheckLiquidations(c, s, ts, order), Admitted(c, s, ts);
            && d.outcome.Ok?
            && |d.outcome.value| == |AllDue(c, s1)|
            && KeysOf(d.outcome.value) == AllDue(c, s1)
            && d.ledger == Cleared(s1, c.strict, AllDue(c, s1), LossTable(c, s1), ClearanceTable(c, s1), d.ledger.events)
  {
    var s1 := Admitted(c, s, ts);
    TablesForesee(c, s1);
    CheckClears(c, s, ts, order, AllDue(c, s1), LossTable(c, s1), ClearanceTable(c, s1));
  }

  lemma Forecast(c: Config, s: Ledger) returns (due: set<Key>, loss: map<Key, real>, kept: map<Key, real>)
    ensures Foreseen(c, s, due, loss, kept) && due <= s.positions.Keys
  {
    TablesForesee(c, s);
    due, loss, kept := AllDue(c, s), LossTable(c, s), ClearanceTable(c, s);
  }

  lemma ClearedAlike(s: Ledger, strict: bool, keys: set<Key>, loss: map<Key, real>, kept: map<Key, real>, d: Ledger, d': Ledger)
    requires d == Cleared(s, strict, keys, loss, kept, d.events) && d' == Cleared(s, strict, keys, loss, kept, d'.events)
    ensures d' == d.(events := d'.events)
  {
  }

  /** The outcome does not depend on the order the sides are visited in. */
  lemma VisitingOrderDoesNotMatter(c: Config, s: Ledger, ts: int, order: seq<Key>, order': seq<Key>)
    requires ConfigBuilds(c) && RegularTables(c) && Inv(c, s) && Touch(c, s, ts).outcome.Ok?
    requires Enumerates(order, s.positions) && Enumerates(order', s.positions)
    ensures var d, d' := CheckLiquidations(c, s, ts, order), CheckLiquidations(c, s, ts, order');
            && d.outcome.Ok? && d'.outcome.Ok?
            && KeysOf(d.outcome.value) == KeysOf(d'.outcome.value)
            && d'.ledger == d.ledger.(events := d'.ledger.events)
  {
    var due, loss, kept := Forecast(c, Admitted(c, s, ts));
    CheckClears(c, s, ts, order, due, loss, kept);
    CheckClears(c, s, ts, order', due, loss, kept);
    ClearedAlike(Admitted(c, s, ts), c.strict, due, loss, kept, CheckLiquidations(c, s, ts, order).ledger,
                 CheckLiquidations(c, s, ts, order').ledger);
  }

  lemma NoneDueAfterwards(c: Config, s: Ledger, s': Ledger, due: set<Key>, loss: map<Key, real>, kept: map<Key, real>)
    requires Foreseen(c, s, due, loss, kept)
    requires s'.marks == s.marks && s'.positions == s.positions - due
    ensures Foreseen(c, s', {}, loss, kept)
  {
    forall k | Look(k)
      ensures ForeseenAt(c, s', k, {}, loss, kept)
    {
      assert ForeseenAt(c, s, k, due, loss, kept);
      if k in s'.positions { DueIsLocal(c, s, s', k); }
    }
  }

  lemma DueIsLocal(c: Config, s: Ledger, s': Ledger, k: Key)
    requires s'.marks == s.marks && s'.Held(k) == s.Held(k)
    ensures Due(c, s', k) <==> Due(c, s, k)
  {
  }

  /** A second call at the same marks liquidates nothing. */
  lemma SecondCheckDoesNothing(c: Config, s: Ledger, ts: int, order: seq<Key>, ts': int, order': seq<Key>)
    requires ConfigBuilds(c) && RegularTables(c) && Inv(c, s)
    requires Touch(c, s, ts).outcome.Ok? && Enumerates(order, s.positions)
    requires var d := CheckLiquidations(c, s, ts, order).ledger;
             Touch(c, d, ts').outcome.Ok? && Enumerates(order', d.positions)
    ensures var d := CheckLiquidations(c, s, ts, order).ledger;
            CheckLiquidations(c, d, ts', order') == Done(Admitted(c, d, ts'), Ok([]))
  {
    var due, loss, kept := Forecast(c, Admitted(c, s, ts));
    CheckClears(c, s, ts, order, due, loss, kept);
    LiquidationsKeep(c, s, ts, order);
    var d := CheckLiquidations(c, s, ts, order).ledger;
    TouchKeeps(c, d, ts');
    NoneDueAfterwards(c, Admitted(c, s, ts), Admitted(c, d, ts'), due, loss, kept);
    NothingDueNothingDone(c, Admitted(c, d, ts'), ts', order', loss, kept);
  }

  lemma {:induction false} NothingDueNothingDone(c: Config, s: Ledger, ts: int, order: seq<Key>,
                                                 loss: map<Key, real>, kept: map<Key, real>)
    requires ConfigBuilds(c) && RegularTables(c) && Inv(c, s) && Current(c, s, ts)
    requires Foreseen(c, s, {}, loss, kept)
    ensures VisitSides(c, s, ts, order) == Done(s, Ok([]))
  {
    if order != [] {
      var front, k := order[..|order| - 1], order[|order| - 1];
      NothingDueNothingDone(c, s, ts, front, loss, kept);
      assert Look(k);
      VisitOne(c, s, ts, k, {}, loss, kept);
    }
  }
}
