/** The ledger as the source has it: one object whose methods update its fields in place
    (perplab/core/account.py). Each method is proved to be the step of the same name in
    module `Ledger`, and to keep the invariant of module `LedgerInvariant`. */
module Account {
  import opened Money
  import opened Wrappers
  import opened Sums
  import opened Margin
  import opened Liquidation
  import opened Positions
  import L = Ledger
  import opened LedgerInvariant
  import opened LedgerRuns

  type Raising<T> = Outcome<T, L.Error>

  class Account {
    const config: L.Config
    var wallet: real
    var positions: map<Key, Position>
    var marks: map<string, real>
    var leverages: map<string, int>
    var events: seq<L.AccountEvent>
    var totalRealized: real
    var totalFees: real
    var totalFunding: real
    var totalLiquidationCost: real
    var liquidations: nat
    var signedFills: map<Key, real>
    var lastTs: int
    var walletWasNegative: bool

    /** The fields as one value. */
    ghost function State(): L.Ledger
      reads this
    {
      L.Ledger(wallet, positions, marks, leverages, events, totalRealized, totalFees, totalFunding,
               totalLiquidationCost, liquidations, signedFills, lastTs, walletWasNegative)
    }

    ghost predicate Valid()
      reads this
    {
      L.ConfigBuilds(config) && Inv(config, State())
    }

    constructor (config: L.Config)
      requires L.ConfigBuilds(config)
      ensures this.config == config && State() == L.Opened(config) && Valid()
    {
      this.config := config;
      wallet := config.opening;
      positions, marks, leverages, events := map[], map[], map[], [];
      totalRealized, totalFees, totalFunding, totalLiquidationCost := 0.0, 0.0, 0.0, 0.0;
      liquidations, signedFills, lastTs, walletWasNegative := 0, map[], -1, false;
      new;
      OpenedHolds(config);
    }

    // ------------------------------------------------------------------ derived state

    method AllocatedMargin() returns (total: real)
      requires forall k :: k in positions ==> positions[k].leverage >= 1
      ensures total == L.Allocated(State())
    {
      total := 0.0;
      var todo := positions.Keys;
      ghost var rest := L.Reserves(positions);
      while todo != {}
        invariant todo <= positions.Keys && rest.Keys == todo
        invariant forall k :: k in todo ==> rest[k] == L.Reserve(positions[k])
        invariant total + MapSum(rest) == L.Allocated(State())
        decreases |todo|
      {
        var k :| k in todo;
        total := total + positions[k].ReservedMargin();
        MapSumRemove(rest, k);
        rest := rest - {k};
        todo := todo - {k};
      }
    }

    method AvailableBalance() returns (free: real)
      requires forall k :: k in positions ==> positions[k].leverage >= 1
      ensures free == L.Available(State())
    {
      var reserved := AllocatedMargin();
      free := wallet - reserved;
    }

    method UnrealizedPnl() returns (total: real)
      ensures total == L.Unrealized(State())
    {
      total := 0.0;
      var todo := positions.Keys;
      ghost var all := L.Unrealizeds(State());
      ghost var rest := all;
      while todo != {}
        invariant rest.Keys == todo <= all.Keys && forall k :: k in todo ==> rest[k] == all[k]
        invariant total + MapSum(rest) == MapSum(all)
        decreases |todo|
      {
        var k :| k in todo;
        total := total + positions[k].UnrealizedPnl(L.ValuationMark(marks, k, positions[k]));
        MapSumRemove(rest, k);
        rest := rest - {k};
        todo := todo - {k};
      }
    }

    method Equity() returns (equity: real)
      ensures equity == L.Equity(State())
    {
      var unrealized := UnrealizedPnl();
      equity := wallet + unrealized;
    }

    // ------------------------------------------------------------------------- checks

    /** Invariant I2, computed twice over: the two sums are never apart. */
    method CheckEquity() returns (violated: bool)
      ensures violated <==> L.CarriesAFlatPosition(State())
    {
      var equity := Equity();
      var total := wallet;
      var todo := positions.Keys;
      ghost var all := L.Unrealizeds(State());
      ghost var rest := all;
      while todo != {}
        invariant rest.Keys == todo <= all.Keys && forall k :: k in todo ==> rest[k] == all[k]
        invariant forall k :: k in positions && k !in todo ==> positions[k].qty != 0.0
        invariant total + MapSum(rest) == L.Equity(State())
        decreases |todo|
      {
        var k :| k in todo;
        if positions[k].qty == 0.0 {
          return true;
        }
        total := total + positions[k].UnrealizedPnl(L.ValuationMark(marks, k, positions[k]));
        MapSumRemove(rest, k);
        rest := rest - {k};
        todo := todo - {k};
      }
      violated := equity != total;
    }

    method Touch(ts: int) returns (r: Raising<()>)
      modifies `lastTs
      ensures L.Done(State(), r) == L.Touch(config, old(State()), ts)
    {
      if config.strict && ts < lastTs {
        return Raised(L.Violation(L.I8));
      }
      lastTs := if ts > lastTs then ts else lastTs;
      return Ok(());
    }

    method CheckWallet(liquidating: bool) returns (r: Raising<()>)
      modifies `walletWasNegative
      ensures L.Done(State(), r) == L.CheckWallet(config, old(State()), liquidating)
    {
      if !config.strict {
        return Ok(());
      }
      if wallet != config.opening + totalRealized - totalFees + totalFunding {
        return Raised(L.Violation(L.I1));
      }
      if wallet < 0.0 && !(liquidating || walletWasNegative) {
        return Raised(L.Violation(L.I5));
      }
      walletWasNegative := wallet < 0.0;
      return Ok(());
    }

    method CheckAfterFill(k: Key, liquidating: bool) returns (r: Raising<()>)
      modifies `walletWasNegative
      ensures L.Done(State(), r) == L.CheckAfterFill(config, old(State()), k, liquidating)
    {
      if !config.strict {
        return Ok(());
      }
      r := CheckWallet(liquidating);
      if r.Raised? {
        return;
      }
      var qty := if k in positions then positions[k].qty else 0.0;
      if qty != At(signedFills, k) {
        return Raised(L.Violation(L.I3));
      }
      if k in positions && qty == 0.0 {
        return Raised(L.Violation(L.I4));
      }
      if marks != map[] {
        var violated := CheckEquity();
        if violated {
          return Raised(L.Violation(L.I2));
        }
      }
    }

    method RequireMargin(symbol: string, before: Option<Position>, after: Option<Position>, fee: real, realized: real)
      returns (refused: Option<L.Error>)
      requires L.ConfigBuilds(config)
      requires forall k :: k in positions ==> positions[k].leverage >= 1
      ensures refused == L.RequireMargin(config, State(), symbol, before, after, fee, realized)
    {
      if !config.enforceMargin {
        return None;
      }
      if after.Some? && symbol in config.brackets {
        var table := config.brackets[symbol];
        var notional := after.value.EntryNotional();
        if Unresolvable(table, notional) {
          return Some(L.SolveFailed(BelowLowestFloor));
        }
        if after.value.leverage > table[Resolve(table, notional)].maxLeverage {
          return Some(L.InsufficientMargin);
        }
      }
      if wallet >= 0.0 && wallet + realized - fee < 0.0 {
        return Some(L.InsufficientMargin);
      }
      var required := L.ReserveOf(after) - L.ReserveOf(before) + fee - realized;
      if required <= 0.0 {
        return None;
      }
      var available := AvailableBalance();
      if required > available {
        return Some(L.InsufficientMargin);
      }
      return None;
    }

    // -------------------------------------------------------------------------- fills

    /** The three cases of `apply_fill`, assigned branch by branch. */
    static method Cases(held: Option<Position>, side: PositionSide, qty: real, price: real) returns (r: Raising<L.Booking>)
      requires qty != 0.0
      ensures r == L.ThreeCases(held, side, qty, price)
    {
      var newQty, newEntry, realized, extra, funding := qty, Some(price), 0.0, 0.0, 0.0;
      if held == None {
        if side.OpeningSign() != 0 && Sign(qty) != side.OpeningSign() {
          return Raised(L.HedgeFlipRefused);
        }
      } else {
        var p := held.value;
        newQty := p.qty + qty;
        if Sign(qty) == Sign(p.qty) {
          extra, funding := p.extra, p.funding;
          newEntry := Some(L.WeightedEntry(p.qty, p.entry, qty, price));
        } else if Abs(qty) <= Abs(p.qty) {
          extra, funding := p.extra, p.funding;
          realized := Times(Times(Sign(p.qty) as real, Abs(qty)), price - p.entry);
          if newQty != 0.0 {
            newEntry := Some(p.entry);
            var factor := Abs(newQty) / Abs(p.qty);
            extra, funding := Times(p.extra, factor), Times(p.funding, factor);
          } else {
            newEntry := None;
          }
        } else if side.Hedged() {
          return Raised(L.HedgeFlipRefused);
        } else {
          realized := Times(Times(Sign(p.qty) as real, Abs(p.qty)), price - p.entry);
        }
      }
      return Ok(L.Booking(newQty, newEntry, realized, extra, funding));
    }

    method Decide(f: L.Fill, k: Key) returns (r: Raising<L.Booking>)
      requires L.ConfigBuilds(config) && f.qty != 0.0
      requires forall j :: j in positions ==> positions[j].leverage >= 1
      ensures r == L.Decide(config, State(), f, k)
    {
      var bad := L.TickAndStep(config, f.symbol, f.price, Abs(f.qty));
      if bad.Some? {
        return Raised(bad.value);
      }
      if k !in positions && config.requireBrackets && f.symbol !in config.brackets {
        return Raised(L.NoBrackets);
      }
      var existing := if k in positions then Some(positions[k]) else None;
      var leverage := LeverageFor(k);
      var charged := L.Charged(config, f);
      r := Cases(existing, k.side, f.qty, f.price);
      if r.Raised? {
        return;
      }
      var updated := L.After(r.value, leverage);
      if updated.Some? && !PositionBuilds(k.side, updated.value) {
        return Raised(L.BadPosition);
      }
      var refused := RequireMargin(f.symbol, existing, updated, charged, r.value.realized);
      if refused.Some? {
        return Raised(refused.value);
      }
    }

    method LeverageFor(k: Key) returns (leverage: int)
      ensures leverage == L.LeverageFor(State(), k)
    {
      if k in positions {
        return positions[k].leverage;
      }
      var sides := PositionsFor(k.symbol);
      if sides != [] {
        return positions[Key(k.symbol, sides[0])].leverage;
      }
      if k.symbol in leverages {
        return leverages[k.symbol];
      }
      return L.DEFAULT_LEVERAGE;
    }

    /** `positions_for`: the open sides of a symbol, longs before shorts. */
    method PositionsFor(symbol: string) returns (sides: seq<PositionSide>)
      ensures sides == L.OpenSides(State(), symbol)
    {
      sides := [];
      if Key(symbol, BOTH) in positions { sides := sides + [BOTH]; }
      if Key(symbol, LONG) in positions { sides := sides + [LONG]; }
      if Key(symbol, SHORT) in positions { sides := sides + [SHORT]; }
    }

    method Hold(k: Key, updated: Option<Position>)
      modifies `positions
      ensures positions == L.WithPosition(old(positions), k, updated)
    {
      if updated == None {
        positions := positions - {k};
      } else {
        positions := positions[k := updated.value];
      }
    }

    /** The money and the signed quantity of a fill. */
    method Move(k: Key, qty: real, realized: real, charged: real)
      modifies this
      ensures State() == old(State()).(wallet := old(wallet) + (realized - charged),
                                       realized := old(totalRealized) + realized,
                                       fees := old(totalFees) + charged,
                                       signedFills := old(signedFills)[k := At(old(signedFills), k) + qty])
    {
      wallet := wallet + (realized - charged);
      totalRealized := totalRealized + realized;
      totalFees := totalFees + charged;
      signedFills := signedFills[k := At(signedFills, k) + qty];
    }

    /** Book the fill: wallet, totals, signed fills, position, log. */
    method Commit(f: L.Fill, k: Key, b: L.Booking, charged: real, updated: Option<Position>)
      requires updated == L.After(b, L.LeverageFor(State(), k))
      modifies this
      ensures State() == L.Commit(old(State()), f, k, b, charged)
    {
      Move(k, f.qty, b.realized, charged);
      Hold(k, updated);
      events := events + [L.AccountEvent(f.ts, L.FILL, k, f.qty, f.price, b.realized, charged, 0.0, wallet, b.qty, b.entry)];
    }

    method Settle(f: L.Fill, k: Key, b: L.Booking) returns (r: Raising<L.FillResult>)
      modifies this
      ensures L.Done(State(), r) == L.Settle(config, old(State()), f, k, b)
    {
      var leverage := LeverageFor(k);
      var charged, updated := L.Charged(config, f), L.After(b, leverage);
      Commit(f, k, b, charged, updated);
      var checked := CheckAfterFill(k, false);
      if checked.Raised? {
        return Raised(checked.error);
      }
      return Ok(L.FillResult(b.realized, charged, updated, k.side));
    }

    method ApplyFill(f: L.Fill) returns (r: Raising<L.FillResult>)
      requires Valid()
      modifies this
      ensures Valid()
      ensures L.Done(State(), r) == L.ApplyFill(config, old(State()), f)
    {
      FillKeeps(config, State(), f);
      AdmitKeeps(config, State(), f);
      if f.qty == 0.0 { return Raised(L.ZeroQuantity); }
      if f.price <= 0.0 { return Raised(L.NonPositivePrice); }
      if f.fee.Some? && f.fee.value < 0.0 { return Raised(L.NegativeFee); }
      var side := L.ResolveSide(config, f.side);
      if side.Raised? { return Raised(side.error); }
      var touched := Touch(f.ts);
      if touched.Raised? { return Raised(touched.error); }
      var k := Key(f.symbol, side.value);
      var decided := Decide(f, k);
      if decided.Raised? { return Raised(decided.error); }
      r := Settle(f, k, decided.value);
    }

    // ------------------------------------------------------------------------ funding

    method FundSide(ts: int, k: Key, mark: real, rate: real) returns (flow: real)
      requires k in positions
      modifies this
      ensures State() == L.FundSide(old(State()), ts, k, mark, rate)
      ensures flow == L.Cashflow(old(positions[k].qty), mark, rate)
    {
      var p := positions[k];
      flow := L.Cashflow(p.qty, mark, rate);
      wallet := wallet + flow;
      totalFunding := totalFunding + flow;
      positions := positions[k := p.(funding := p.funding + flow)];
      events := events + [L.AccountEvent(ts, L.FUNDING, k, 0.0, mark, 0.0, 0.0, flow, wallet, p.qty, Some(p.entry))];
    }

    /** The loop of `apply_funding_by_side`: every open side settles on its own quantity. */
    method FundSides(ts: int, symbol: string, sides: seq<PositionSide>, mark: real, rate: real)
      returns (settled: map<PositionSide, real>)
      requires forall side :: side in sides ==> Key(symbol, side) in positions
      modifies this
      ensures State() == L.FundSides(old(State()), ts, symbol, sides, mark, rate)
      ensures settled == L.Settled(old(State()), symbol, sides, mark, rate)
    {
      ghost var before := State();
      settled := map[];
      for i := 0 to |sides|
        invariant State() == L.FundSides(before, ts, symbol, sides[..i], mark, rate)
        invariant SameQuantities(before.positions, positions)
        invariant settled == L.Settled(before, symbol, sides[..i], mark, rate)
      {
        FundOneMore(before, ts, symbol, sides, i, mark, rate);
        SettledOneMore(before, symbol, sides, i, mark, rate);
        var flow := FundSide(ts, Key(symbol, sides[i]), mark, rate);
        settled := settled[sides[i] := flow];
      }
      assert sides[..|sides|] == sides;
    }

    method SettleSides(ts: int, symbol: string, mark: real, rate: real) returns (r: Raising<map<PositionSide, real>>)
      modifies this
      ensures L.Done(State(), r) == L.SettleSides(config, old(State()), ts, symbol, mark, rate)
    {
      if mark < 0.0 {
        return Raised(L.NegativeMark);
      }
      var sides := PositionsFor(symbol);
      forall side | side in sides ensures Key(symbol, side) in positions {
        OpenSidesAreOpen(State(), symbol, side);
      }
      var settled := FundSides(ts, symbol, sides, mark, rate);
      var checked := CheckWallet(false);
      if checked.Raised? {
        return Raised(checked.error);
      }
      return Ok(settled);
    }

    method ApplyFunding(ts: int, symbol: string, rate: real, mark: Option<real>) returns (r: Raising<map<PositionSide, real>>)
      requires Valid()
      modifies this
      ensures Valid()
      ensures L.Done(State(), r) == L.ApplyFunding(config, old(State()), ts, symbol, rate, mark)
    {
      FundingKeeps(config, State(), ts, symbol, rate, mark);
      var touched := Touch(ts);
      if touched.Raised? {
        return Raised(touched.error);
      }
      var sides := PositionsFor(symbol);
      if sides == [] {
        return Ok(map[]);
      }
      if mark == None && symbol !in marks {
        return Raised(L.NoMark);
      }
      r := SettleSides(ts, symbol, if mark.Some? then mark.value else marks[symbol], rate);
    }

    // -------------------------------------------------------------------------- marks

    method LogMark(ts: int, symbol: string, price: real)
      modifies `events
      ensures var s := old(State());
              var sides := if L.OpenSides(s, symbol) == [] then [BOTH] else L.OpenSides(s, symbol);
              State() == s.(events := s.events + L.MarkEvents(s, ts, symbol, sides, price))
    {
      var sides := PositionsFor(symbol);
      LogSides(ts, symbol, if sides == [] then [BOTH] else sides, price);
    }

    method LogSides(ts: int, symbol: string, sides: seq<PositionSide>, price: real)
      modifies `events
      ensures State() == old(State()).(events := old(events) + L.MarkEvents(old(State()), ts, symbol, sides, price))
    {
      ghost var s := State();
      for i := 0 to |sides|
        invariant events == s.events + L.MarkEvents(s, ts, symbol, sides[..i], price)
      {
        assert sides[..i + 1][..i] == sides[..i];
        var k := Key(symbol, sides[i]);
        events := events + [L.AccountEvent(ts, L.MARK, k, 0.0, price, 0.0, 0.0, 0.0, wallet,
                                           if k in positions then positions[k].qty else 0.0,
                                           if k in positions then Some(positions[k].entry) else None)];
      }
      assert sides[..|sides|] == sides;
    }

    /** The mark, and invariant I2 at it. */
    method Remark(symbol: string, price: real) returns (violated: bool)
      modifies `marks
      ensures State() == old(State()).(marks := old(marks)[symbol := price])
      ensures violated <==> config.strict && L.CarriesAFlatPosition(State())
    {
      marks := marks[symbol := price];
      if !config.strict { return false; }
      violated := CheckEquity();
    }

    method UpdateMark(ts: int, symbol: string, price: real) returns (r: Raising<()>)
      requires Valid()
      modifies this
      ensures Valid()
      ensures L.Done(State(), r) == L.UpdateMark(config, old(State()), ts, symbol, price)
    {
      MarkKeeps(config, State(), ts, symbol, price);
      if price <= 0.0 {
        return Raised(L.NonPositivePrice);
      }
      r := Touch(ts);
      if r.Raised? {
        return;
      }
      var violated := Remark(symbol, price);
      if violated {
        return Raised(L.Violation(L.I2));
      }
      if config.logMarks {
        LogMark(ts, symbol, price);
      }
    }

    // -------------------------------------------------------------------- liquidation

    method SolveFor(k: Key) returns (r: Raising<Solution>)
      requires Valid() && k in positions && k.symbol in config.brackets && k.symbol in marks
      ensures positions[k].leverage >= 1 && |config.brackets[k.symbol]| > 0
      ensures r == L.SolveLiquidation(config, config.brackets[k.symbol], positions[k], marks[k.symbol])
    {
      var p, table := positions[k], config.brackets[k.symbol];
      var h := p.AsHolding(p.IsolatedMargin());
      var solved := LiquidationPrice(h, marks[k.symbol], table);
      if solved.Raised? {
        return Raised(L.SolveFailed(solved.error));
      }
      var s := solved.value;
      if config.strict && s.tier < |table| && h.qty != 0.0
         && h.margin > MaintenanceMargin(p.EntryNotional(), table[s.tier]) {
        if !OrderingHolds(h.qty, h.entry, s.price, BankruptcyPrice(h)) {
          return Raised(L.Violation(L.I7));
        }
      }
      return Ok(s);
    }

    /** The close at the mark and the forfeit of the rest, booked as one realised figure. */
    method Closeout(ts: int, k: Key, trigger: real, loss: real, penalty: real)
      requires k in positions
      modifies this
      ensures State() == L.Closeout(old(State()), ts, k, trigger, loss, -penalty)
    {
      var p := positions[k];
      totalLiquidationCost := totalLiquidationCost + penalty;
      Move(k, -p.qty, loss, 0.0);
      Hold(k, None);
      liquidations := liquidations + 1;
      events := events + [L.AccountEvent(ts, L.LIQUIDATION, k, -p.qty, trigger, loss, 0.0, 0.0, wallet, 0.0, None)];
    }

    /** `_liquidate` up to its checks. */
    method Close(ts: int, k: Key, trigger: real, mark: real) returns (recovered: real, loss: real)
      requires k in positions && positions[k].leverage >= 1
      modifies this
      ensures State() == L.Liquidated(config, old(State()), ts, k, trigger, mark)
      ensures recovered == L.Recovered(config, old(positions[k]), mark)
      ensures loss == L.LiquidationLoss(config, old(positions[k]), mark)
    {
      var p := positions[k];
      var margin := p.IsolatedMargin();
      var leg := Quantize(Times(p.qty, mark - p.entry));
      var remaining := margin + leg;
      var confiscated := if remaining > 0.0 then remaining else 0.0;
      recovered := Quantize(Times(confiscated, config.recovery));
      var penalty := -(confiscated - recovered);
      loss := recovered - margin;
      Closeout(ts, k, trigger, loss, penalty);
    }

    method Liquidate(ts: int, k: Key, trigger: real, mark: real) returns (r: Raising<L.LiquidationResult>)
      requires k in positions && positions[k].leverage >= 1
      modifies this
      ensures var checked := L.CheckAfterFill(config, L.Liquidated(config, old(State()), ts, k, trigger, mark), k, true);
              && State() == checked.ledger
              && r == (if checked.outcome.Raised? then Raised(checked.outcome.error)
                       else Ok(L.ResultOf(config, old(positions[k]), k, trigger, mark)))
    {
      var p := positions[k];
      var recovered, loss := Close(ts, k, trigger, mark);
      var checked := CheckAfterFill(k, true);
      if checked.Raised? {
        return Raised(checked.error);
      }
      return Ok(L.LiquidationResult(k, trigger, mark, p.IsolatedMargin() - recovered, recovered, -p.qty, loss));
    }

    method VisitSide(ts: int, k: Key) returns (r: Raising<Option<L.LiquidationResult>>)
      requires Valid()
      modifies this
      ensures L.Done(State(), r) == L.VisitSide(config, old(State()), ts, k)
    {
      if k !in positions || k.symbol !in config.brackets || k.symbol !in marks {
        return Ok(None);
      }
      var mark, qty := marks[k.symbol], positions[k].qty;
      var solved := SolveFor(k);
      if solved.Raised? {
        return Raised(solved.error);
      }
      if !solved.value.Reachable() {
        return Ok(None);
      }
      var triggered := if qty > 0.0 then mark <= solved.value.price else mark >= solved.value.price;
      if !triggered {
        return Ok(None);
      }
      var done := Liquidate(ts, k, solved.value.price, mark);
      if done.Raised? {
        return Raised(done.error);
      }
      return Ok(Some(done.value));
    }

    method VisitSides(ts: int, order: seq<Key>) returns (r: Raising<seq<L.LiquidationResult>>)
      requires Valid() && Current(config, State(), ts)
      modifies this
      ensures L.Done(State(), r) == L.VisitSides(config, old(State()), ts, order)
    {
      ghost var before := State();
      var results := [];
      for i := 0 to |order|
        invariant Valid()
        invariant L.VisitSides(config, before, ts, order[..i]) == L.Done(State(), Ok(results))
      {
        VisitSidesKeep(config, before, ts, order[..i + 1]);
        VisitOneMore(config, before, ts, order, i);
        var visited := VisitSide(ts, order[i]);
        if visited.Raised? {
          VisitSidesStop(config, before, ts, order, i + 1);
          return Raised(visited.error);
        }
        if visited.value.Some? {
          results := results + [visited.value.value];
        }
      }
      assert order[..|order|] == order;
      return Ok(results);
    }

    method CheckLiquidations(ts: int, order: seq<Key>) returns (r: Raising<seq<L.LiquidationResult>>)
      requires Valid()
      modifies this
      ensures Valid()
      ensures L.Done(State(), r) == L.CheckLiquidations(config, old(State()), ts, order)
    {
      LiquidationsKeep(config, State(), ts, order);
      TouchKeeps(config, State(), ts);
      var touched := Touch(ts);
      if touched.Raised? {
        return Raised(touched.error);
      }
      r := VisitSides(ts, order);
    }

    // ------------------------------------------------------------------------- margin

    method PostExtra(ts: int, kind: L.EventKind, k: Key, amount: real, extra: real) returns (p: Position)
      requires k in positions
      modifies this
      ensures State() == L.WithExtra(old(State()), ts, kind, k, amount, extra)
      ensures k in positions && p == positions[k]
    {
      p := positions[k].(extra := extra);
      positions := positions[k := p];
      events := events + [L.AccountEvent(ts, kind, k, 0.0, amount, 0.0, 0.0, 0.0, wallet, p.qty, Some(p.entry))];
    }

    method Post(ts: int, kind: L.EventKind, k: Key, amount: real, extra: real) returns (r: Raising<Position>)
      requires k in positions
      modifies this
      ensures L.Done(State(), r) == L.Posted(config, old(State()), ts, kind, k, amount, extra)
    {
      var touched := Touch(ts);
      if touched.Raised? { return Raised(touched.error); }
      var updated := PostExtra(ts, kind, k, amount, extra);
      return Ok(updated);
    }

    method AdditionRefused(p: Position, amount: real) returns (refused: bool)
      requires Valid() && p.leverage >= 1
      ensures refused <==> L.AdditionRefused(config, State(), p, amount)
    {
      if !config.enforceMargin { return false; }
      var free := AvailableBalance();
      return amount > free || p.IsolatedMargin() < 0.0;
    }

    method AddMarginAt(ts: int, k: Key, amount: real) returns (r: Raising<Position>)
      requires Valid() && k in positions
      modifies this
      ensures L.Done(State(), r) == L.AddMarginAt(config, old(State()), ts, k, amount)
    {
      assert PositionBuilds(k.side, positions[k]);
      var refused := AdditionRefused(positions[k], amount);
      if refused { return Raised(L.InsufficientMargin); }
      r := Post(ts, L.MARGIN_ADDED, k, amount, positions[k].extra + amount);
    }

    method AddMargin(ts: int, symbol: string, amount: real, side: Option<PositionSide>) returns (r: Raising<Position>)
      requires Valid()
      modifies this
      ensures Valid()
      ensures L.Done(State(), r) == L.AddMargin(config, old(State()), ts, symbol, amount, side)
    {
      AddMarginKeeps(config, State(), ts, symbol, amount, side);
      if amount <= 0.0 { return Raised(L.BadAmount); }
      var resolved := L.ResolveSide(config, side);
      if resolved.Raised? { return Raised(resolved.error); }
      var k := Key(symbol, resolved.value);
      if k !in positions { return Raised(L.NoPosition); }
      r := AddMarginAt(ts, k, amount);
    }

    method ShrinkRefused(k: Key, amount: real) returns (refused: Option<L.Error>)
      requires Valid() && k in positions && k.symbol in config.brackets && k.symbol in marks
      ensures positions[k].leverage >= 1 && |config.brackets[k.symbol]| > 0
      ensures refused == L.ShrinkRefused(config, config.brackets[k.symbol], positions[k], marks[k.symbol], amount)
    {
      assert PositionBuilds(k.side, positions[k]) && Contiguous(config.brackets[k.symbol]);
      refused := Probe(positions[k], marks[k.symbol], config.brackets[k.symbol], amount);
    }

    /** Would the position be liquidated at once with that much less? */
    method Probe(p: Position, mark: real, t: BracketTable, amount: real) returns (refused: Option<L.Error>)
      requires p.leverage >= 1 && |t| > 0
      ensures refused == L.ShrinkRefused(config, t, p, mark, amount)
    {
      var h := p.AsHolding(Quantize(p.IsolatedMargin() - amount));
      var solved := LiquidationPrice(h, mark, t);
      if solved.Raised? { return Some(L.SolveFailed(solved.error)); }
      if Triggered(h, mark, solved.value) { return Some(L.InsufficientMargin); }
      return None;
    }

    method RemovalRefused(k: Key, amount: real) returns (refused: Option<L.Error>)
      requires Valid() && k in positions
      ensures refused == L.RemovalRefused(config, State(), k, amount)
    {
      assert PositionBuilds(k.side, positions[k]);
      if config.enforceMargin && k.symbol in config.brackets && k.symbol in marks {
        refused := ShrinkRefused(k, amount);
      } else {
        refused := None;
      }
    }

    method RemoveMarginAt(ts: int, k: Key, amount: real) returns (r: Raising<Position>)
      requires Valid() && k in positions
      modifies this
      ensures L.Done(State(), r) == L.RemoveMarginAt(config, old(State()), ts, k, amount)
    {
      if amount > positions[k].extra { return Raised(L.InsufficientMargin); }
      var refused := RemovalRefused(k, amount);
      if refused.Some? { return Raised(refused.value); }
      r := Post(ts, L.MARGIN_REMOVED, k, amount, positions[k].extra - amount);
    }

    method RemoveMargin(ts: int, symbol: string, amount: real, side: Option<PositionSide>) returns (r: Raising<Position>)
      requires Valid()
      modifies this
      ensures Valid()
      ensures L.Done(State(), r) == L.RemoveMargin(config, old(State()), ts, symbol, amount, side)
    {
      RemoveMarginKeeps(config, State(), ts, symbol, amount, side);
      if amount <= 0.0 { return Raised(L.BadAmount); }
      var resolved := L.ResolveSide(config, side);
      if resolved.Raised? { return Raised(resolved.error); }
      var k := Key(symbol, resolved.value);
      if k !in positions { return Raised(L.NoPosition); }
      r := RemoveMarginAt(ts, k, amount);
    }

    method SetLeverage(symbol: string, leverage: int) returns (r: Raising<()>)
      requires Valid()
      modifies this
      ensures Valid()
      ensures L.Done(State(), r) == L.SetLeverage(config, old(State()), symbol, leverage)
    {
      LeverageKeeps(config, State(), symbol, leverage);
      if leverage < 1 { return Raised(L.BadLeverage); }
      var sides := PositionsFor(symbol);
      if sides != [] { return Raised(L.PositionOpen); }
      if symbol in config.brackets {
        var top := MaxLeverage(config.brackets[symbol]);
        if leverage > top { return Raised(L.BadLeverage); }
      }
      leverages := leverages[symbol := leverage];
      return Ok(());
    }

    static method MaxLeverage(table: BracketTable) returns (top: int)
      requires |table| > 0
      ensures top == L.TopLeverage(table)
    {
      top := table[0].maxLeverage;
      for i := 1 to |table|
        invariant top == L.TopLeverage(table[..i])
      {
        assert table[..i + 1][..i] == table[..i];
        if table[i].maxLeverage > top {
          top := table[i].maxLeverage;
        }
      }
      assert table[..|table|] == table;
    }

    // ------------------------------------------------------------------------ closing

    /** The event log walked from the opening balance. */
    method ReplayLog() returns (r: Replayed)
      ensures r == Replay(config.opening, events)
    {
      var balance, realized, fees, funding := config.opening, 0.0, 0.0, 0.0;
      var quantities: map<Key, real> := map[];
      for i := 0 to |events|
        invariant Replayed(balance, realized, fees, funding, quantities) == Replay(config.opening, events[..i])
      {
        var e := events[i];
        assert events[..i + 1][..i] == events[..i];
        if !e.kind.MARK? {
          realized := realized + e.realized;
          fees := fees + e.fee;
          funding := funding + e.funding;
          balance := balance + (e.realized - e.fee + e.funding);
          if e.kind.FILL? || e.kind.LIQUIDATION? {
            quantities := quantities[e.key := At(quantities, e.key) + e.qty];
          }
        }
      }
      assert events[..|events|] == events;
      return Replayed(balance, realized, fees, funding, quantities);
    }

    /** `reconcile`: never raises, on any account its own methods have built. */
    method Reconcile() returns (r: Raising<()>)
      requires Valid()
      ensures r == LedgerInvariant.Reconcile(config, State()) == Ok(())
    {
      ReconcilesAlways(config, State());
      var log := ReplayLog();
      var diverged := log.wallet != wallet || log.realized != totalRealized
                      || log.fees != totalFees || log.funding != totalFunding;
      var todo := log.positions.Keys + positions.Keys;
      while todo != {}
        invariant todo <= log.positions.Keys + positions.Keys
        invariant !diverged
        decreases |todo|
      {
        var k :| k in todo;
        var held := if k in positions then positions[k].qty else 0.0;
        if At(log.positions, k) != held {
          diverged := true;
        }
        todo := todo - {k};
      }
      if diverged {
        return Raised(L.Violation(L.I9));
      }
      var equity := Equity();
      var unrealized := UnrealizedPnl();
      if equity != config.opening + log.realized - log.fees + log.funding + unrealized {
        return Raised(L.Violation(L.I9));
      }
      return Ok(());
    }

    /** `attribution`: the columns add up to the net PnL, and the clearance penalty is
        never a gain. */
    method Attribution() returns (a: Columns)
      requires Valid()
      ensures a.price + a.funding - a.fees + a.liquidationCost == a.net == L.Equity(State()) - config.opening
      ensures a.liquidationCost <= 0.0
      ensures a == Columns(totalRealized + L.Unrealized(State()) - totalLiquidationCost, totalRealized,
                           L.Unrealized(State()), totalFunding, totalFees, totalLiquidationCost, a.net)
    {
      var unrealized := UnrealizedPnl();
      var equity := Equity();
      a := Columns(totalRealized + unrealized - totalLiquidationCost, totalRealized, unrealized, totalFunding,
                   totalFees, totalLiquidationCost, equity - config.opening);
    }
  }

  datatype Columns = Columns(
    price: real, realized: real, unrealized: real, funding: real, fees: real, liquidationCost: real, net: real)

  ghost predicate SameQuantities(before: map<Key, Position>, after: map<Key, Position>)
  {
    after.Keys == before.Keys && forall k :: k in after ==> after[k].qty == before[k].qty
  }

  lemma VisitOneMore(c: L.Config, s: L.Ledger, ts: int, order: seq<Key>, i: nat)
    requires i < |order| && L.VisitSides(c, s, ts, order[..i]).outcome.Ok?
    ensures var front := L.VisitSides(c, s, ts, order[..i]);
            var last := L.VisitSide(c, front.ledger, ts, order[i]);
            L.VisitSides(c, s, ts, order[..i + 1])
            == L.Done(last.ledger,
                      if last.outcome.Raised? then Raised(last.outcome.error)
                      else Ok(L.Joined(front.outcome.value, last.outcome.value)))
  {
    assert order[..i + 1][..i] == order[..i];
  }

  lemma FundOneMore(s: L.Ledger, ts: int, symbol: string, sides: seq<PositionSide>, i: nat, mark: real, rate: real)
    requires i < |sides| && Key(symbol, sides[i]) in L.FundSides(s, ts, symbol, sides[..i], mark, rate).positions
    ensures L.FundSides(s, ts, symbol, sides[..i + 1], mark, rate)
         == L.FundSide(L.FundSides(s, ts, symbol, sides[..i], mark, rate), ts, Key(symbol, sides[i]), mark, rate)
  {
    assert sides[..i + 1][..i] == sides[..i];
  }

  lemma SettledOneMore(s: L.Ledger, symbol: string, sides: seq<PositionSide>, i: nat, mark: real, rate: real)
    requires i < |sides| && Key(symbol, sides[i]) in s.positions
    ensures L.Settled(s, symbol, sides[..i + 1], mark, rate)
         == L.Settled(s, symbol, sides[..i], mark, rate)
              [sides[i] := L.Cashflow(s.positions[Key(symbol, sides[i])].qty, mark, rate)]
  {
    assert sides[..i + 1] == sides[..i] + [sides[i]];
  }

  /** A visit that raises is where the whole loop stops. */
  lemma VisitSidesStop(c: L.Config, s: L.Ledger, ts: int, order: seq<Key>, i: nat)
    requires i <= |order| && L.VisitSides(c, s, ts, order[..i]).outcome.Raised?
    ensures L.VisitSides(c, s, ts, order) == L.VisitSides(c, s, ts, order[..i])
    decreases |order|
  {
    if i < |order| {
      assert order[..|order| - 1][..i] == order[..i];
      VisitSidesStop(c, s, ts, order[..|order| - 1], i);
    } else {
      assert order[..i] == order;
    }
  }

  lemma ReconcilesAlways(c: L.Config, s: L.Ledger)
    requires Inv(c, s)
    ensures Reconciles(c, s) && Reconcile(c, s) == Ok(())
  {
    assert forall k :: s.Qty(k) == At(s.signedFills, k);
  }
}
