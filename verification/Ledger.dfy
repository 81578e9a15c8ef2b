/** The ledger as a value, and each operation of `Account` as a step on that value
    (perplab/core/account.py, with the checks of perplab/core/invariants.py). */
module Ledger {
  import opened Money
  import opened Wrappers
  import opened Sums
  import opened Margin
  import opened Liquidation
  import opened Positions

  // ----------------------------------------------------------------- configuration

  datatype Filters = Filters(tick: real, step: real)

  datatype Config = Config(
    opening: real,
    makerRate: real,
    takerRate: real,
    brackets: map<string, BracketTable>,
    filters: map<string, Filters>,
    recovery: real,
    enforceMargin: bool,
    requireBrackets: bool,
    hedgeMode: bool,
    strict: bool,
    logMarks: bool)

  /** What the constructors of the fee schedule, the tables and the account accept. */
  ghost predicate ConfigBuilds(c: Config)
  {
    && c.opening >= 0.0
    && 0.0 <= c.makerRate < 1.0 && 0.0 <= c.takerRate < 1.0
    && 0.0 <= c.recovery <= 1.0
    && forall s {:trigger c.brackets[s]} :: s in c.brackets ==> Contiguous(c.brackets[s])
  }

  const DEFAULT_LEVERAGE := 1

  // ------------------------------------------------------------------------- state

  datatype EventKind = FILL | FUNDING | LIQUIDATION | MARGIN_ADDED | MARGIN_REMOVED | MARK

  datatype AccountEvent = AccountEvent(
    ts: int, kind: EventKind, key: Key, qty: real, price: real, realized: real, fee: real,
    funding: real, wallet: real, position: real, entry: Option<real>)

  datatype Ledger = Ledger(
    wallet: real,
    positions: map<Key, Position>,
    marks: map<string, real>,
    leverages: map<string, int>,
    events: seq<AccountEvent>,
    realized: real,
    fees: real,
    funding: real,
    liquidationCost: real,
    liquidations: nat,
    signedFills: map<Key, real>,
    lastTs: int,
    wasNegative: bool)
  {
    function Qty(k: Key): real
    {
      if k in positions then positions[k].qty else 0.0
    }

    function Held(k: Key): Option<Position>
    {
      if k in positions then Some(positions[k]) else None
    }
  }

  function Opened(c: Config): Ledger
  {
    Ledger(c.opening, map[], map[], map[], [], 0.0, 0.0, 0.0, 0.0, 0, map[], -1, false)
  }

  datatype Invariant = I1 | I2 | I3 | I4 | I5 | I6 | I7 | I8 | I9

  datatype Error =
    | ZeroQuantity
    | NonPositivePrice
    | NegativeFee
    | NegativeMark
    | BadAmount
    | BadLeverage
    | BadFilters
    | BadPosition
    | WrongSide
    | NoBrackets
    | NoMark
    | NoPosition
    | PositionOpen
    | HedgeFlipRefused
    | InsufficientMargin
    | SolveFailed(why: SolveError)
    | Violation(check: Invariant)

  /** A step: the ledger it leaves behind, and what it returned or raised. */
  datatype Done<+T> = Done(ledger: Ledger, outcome: Outcome<T, Error>)

  // ----------------------------------------------------------------- derived state

  /** The margins reserved by the open positions, one entry a position. */
  ghost function Reserves(positions: map<Key, Position>): (m: map<Key, real>)
    ensures m.Keys == positions.Keys
  {
    map k | k in positions :: Reserve(positions[k])
  }

  function Reserve(p: Position): real
  {
    if p.leverage >= 1 then p.ReservedMargin() else 0.0
  }

  ghost function Allocated(s: Ledger): real
  {
    MapSum(Reserves(s.positions))
  }

  ghost function Available(s: Ledger): real
  {
    s.wallet - Allocated(s)
  }

  /** The recorded mark, or the entry price while there is none. */
  function ValuationMark(marks: map<string, real>, k: Key, p: Position): real
  {
    if k.symbol in marks then marks[k.symbol] else p.entry
  }

  ghost function Unrealizeds(s: Ledger): (m: map<Key, real>)
    ensures m.Keys == s.positions.Keys
  {
    map k | k in s.positions :: s.positions[k].UnrealizedPnl(ValuationMark(s.marks, k, s.positions[k]))
  }

  ghost function Unrealized(s: Ledger): real
  {
    MapSum(Unrealizeds(s))
  }

  ghost function Equity(s: Ledger): real
  {
    s.wallet + Unrealized(s)
  }

  // -------------------------------------------------------------------- addressing

  function ResolveSide(c: Config, side: Option<PositionSide>): Outcome<PositionSide, Error>
  {
    if c.hedgeMode then
      if side == None || side == Some(BOTH) then Raised(WrongSide) else Ok(side.value)
    else
      if side == None || side == Some(BOTH) then Ok(BOTH) else Raised(WrongSide)
  }

  /** The open sides of a symbol, in the order of `_SIDE_ORDER`. */
  function OpenSides(s: Ledger, symbol: string): seq<PositionSide>
  {
    (if Key(symbol, BOTH) in s.positions then [BOTH] else [])
    + (if Key(symbol, LONG) in s.positions then [LONG] else [])
    + (if Key(symbol, SHORT) in s.positions then [SHORT] else [])
  }

  /** `_leverage_for`: the position's own, else another side's, else the configured one. */
  function LeverageFor(s: Ledger, k: Key): int
  {
    if k in s.positions then s.positions[k].leverage
    else if OpenSides(s, k.symbol) != [] then s.positions[Key(k.symbol, OpenSides(s, k.symbol)[0])].leverage
    else if k.symbol in s.leverages then s.leverages[k.symbol]
    else DEFAULT_LEVERAGE
  }

  // ------------------------------------------------------------------------ checks

  /** `_touch`: invariant I8, and the clock. */
  function Touch(c: Config, s: Ledger, ts: int): Done<()>
  {
    if c.strict && ts < s.lastTs then Done(s, Raised(Violation(I8)))
    else Done(s.(lastTs := if ts > s.lastTs then ts else s.lastTs), Ok(()))
  }

  predicate Multiple(x: real, unit: real)
    requires unit > 0.0
  {
    x / unit == (x / unit).Floor as real
  }

  /** `_check_tick_and_step`: invariant I6. */
  function TickAndStep(c: Config, symbol: string, price: real, qty: real): Option<Error>
  {
    if !c.strict || symbol !in c.filters then None
    else
      var f := c.filters[symbol];
      if f.tick <= 0.0 || f.step <= 0.0 then Some(BadFilters)
      else if !Multiple(price, f.tick) || !Multiple(qty, f.step) then Some(Violation(I6))
      else None
  }

  /** `_check_wallet`: I1, I5 and the flag that exempts a wallet already negative. */
  function CheckWallet(c: Config, s: Ledger, liquidating: bool): Done<()>
  {
    if !c.strict then Done(s, Ok(()))
    else if s.wallet != c.opening + s.realized - s.fees + s.funding then Done(s, Raised(Violation(I1)))
    else if s.wallet < 0.0 && !liquidating && !s.wasNegative then Done(s, Raised(Violation(I5)))
    else Done(s.(wasNegative := s.wallet < 0.0), Ok(()))
  }

  /** I2 refuses a flat position; its equation is two computations of one sum. */
  predicate CarriesAFlatPosition(s: Ledger)
  {
    exists k :: k in s.positions && s.positions[k].qty == 0.0
  }

  /** `_check_after_fill`: I1, I5, then I3, I4 and I2 for the side that moved. */
  function CheckAfterFill(c: Config, s: Ledger, k: Key, liquidating: bool): Done<()>
  {
    if !c.strict then Done(s, Ok(()))
    else
      var w := CheckWallet(c, s, liquidating);
      if w.outcome.Raised? then w
      else if s.Qty(k) != At(s.signedFills, k) then Done(w.ledger, Raised(Violation(I3)))
      else if k in s.positions && s.Qty(k) == 0.0 then Done(w.ledger, Raised(Violation(I4)))
      else if s.marks != map[] && CarriesAFlatPosition(s) then Done(w.ledger, Raised(Violation(I2)))
      else w
  }

  // ------------------------------------------------------------------------- fills

  datatype Fill = Fill(
    ts: int, symbol: string, qty: real, price: real, side: Option<PositionSide>, isMaker: bool, fee: Option<real>)

  datatype FillResult = FillResult(realized: real, fee: real, position: Option<Position>, side: PositionSide)

  function Charged(c: Config, f: Fill): real
  {
    Quantize(if f.fee.Some? then f.fee.value
             else Times(Times(Abs(f.qty), f.price), if f.isMaker then c.makerRate else c.takerRate))
  }

  /** What the three cases decide, before any of it is booked. */
  datatype Booking = Booking(qty: real, entry: Option<real>, realized: real, extra: real, funding: real)

  /** Case A: the quantity-weighted average of the two legs. */
  function WeightedEntry(held: real, entry: real, qty: real, price: real): real
    requires Abs(held) + Abs(qty) != 0.0
  {
    Quantize((Times(Abs(held), entry) + Times(Abs(qty), price)) / (Abs(held) + Abs(qty)))
  }

  function ThreeCases(held: Option<Position>, side: PositionSide, qty: real, price: real): Outcome<Booking, Error>
    requires qty != 0.0
  {
    match held
    case None =>
      if side.OpeningSign() != 0 && Sign(qty) != side.OpeningSign() then Raised(HedgeFlipRefused)
      else Ok(Booking(qty, Some(price), 0.0, 0.0, 0.0))
    case Some(p) =>
      var total := p.qty + qty;
      if Sign(qty) == Sign(p.qty) then
        Ok(Booking(total, Some(WeightedEntry(p.qty, p.entry, qty, price)), 0.0, p.extra, p.funding))
      else if Abs(qty) <= Abs(p.qty) then
        var realized := Times(Times(Sign(p.qty) as real, Abs(qty)), price - p.entry);
        if total == 0.0 then Ok(Booking(total, None, realized, p.extra, p.funding))
        else
          var factor := Abs(total) / Abs(p.qty);
          Ok(Booking(total, Some(p.entry), realized, Times(p.extra, factor), Times(p.funding, factor)))
      else if side.Hedged() then Raised(HedgeFlipRefused)
      else
        Ok(Booking(total, Some(price), Times(Times(Sign(p.qty) as real, Abs(p.qty)), price - p.entry), 0.0, 0.0))
  }

  function After(b: Booking, leverage: int): Option<Position>
  {
    if b.qty == 0.0 || b.entry == None then None
    else Some(Position(b.qty, b.entry.value, leverage, b.extra, b.funding))
  }

  function ReserveOf(p: Option<Position>): real
  {
    if p.Some? then Reserve(p.value) else 0.0
  }

  /** `_require_margin`'s requirement: margin posted, plus the fee, less what is realised. */
  function Required(before: Option<Position>, after: Option<Position>, fee: real, realized: real): real
  {
    ReserveOf(after) - ReserveOf(before) + fee - realized
  }

  ghost function RequireMargin(c: Config, s: Ledger, symbol: string, before: Option<Position>, after: Option<Position>,
                               fee: real, realized: real): Option<Error>
    requires ConfigBuilds(c)
  {
    if !c.enforceMargin then None
    else if after.Some? && symbol in c.brackets && Unresolvable(c.brackets[symbol], after.value.EntryNotional()) then
      Some(SolveFailed(BelowLowestFloor))
    else if after.Some? && symbol in c.brackets && after.value.leverage > MaxLeverageFor(c, symbol, after.value) then
      Some(InsufficientMargin)
    else if s.wallet >= 0.0 && s.wallet + realized - fee < 0.0 then Some(InsufficientMargin)
    else if Required(before, after, fee, realized) <= 0.0 then None
    else if Required(before, after, fee, realized) > Available(s) then Some(InsufficientMargin)
    else None
  }

  ghost function MaxLeverageFor(c: Config, symbol: string, p: Position): int
    requires ConfigBuilds(c) && symbol in c.brackets
  {
    var t := c.brackets[symbol];
    t[Resolve(t, p.EntryNotional())].maxLeverage
  }

  /** The refusals that come before the clock moves. */
  function Malformed(f: Fill): Option<Error>
  {
    if f.qty == 0.0 then Some(ZeroQuantity)
    else if f.price <= 0.0 then Some(NonPositivePrice)
    else if f.fee.Some? && f.fee.value < 0.0 then Some(NegativeFee)
    else None
  }

  /** What a fill would book on the side it was routed to, or why it is refused. */
  ghost function Decide(c: Config, s: Ledger, f: Fill, k: Key): Outcome<Booking, Error>
    requires ConfigBuilds(c) && f.qty != 0.0
  {
    var bad := TickAndStep(c, f.symbol, f.price, Abs(f.qty));
    if bad.Some? then Raised(bad.value)
    else if k !in s.positions && c.requireBrackets && f.symbol !in c.brackets then Raised(NoBrackets)
    else
      var booked := ThreeCases(s.Held(k), k.side, f.qty, f.price);
      if booked.Raised? then booked
      else
        var after := After(booked.value, LeverageFor(s, k));
        if after.Some? && !PositionBuilds(k.side, after.value) then Raised(BadPosition)
        else
          var refused := RequireMargin(c, s, f.symbol, s.Held(k), after, Charged(c, f), booked.value.realized);
          if refused.Some? then Raised(refused.value) else booked
  }

  function WithPosition(positions: map<Key, Position>, k: Key, p: Option<Position>): map<Key, Position>
  {
    if p.Some? then positions[k := p.value] else positions - {k}
  }

  /** The booked fill, before the checks that follow it. */
  function Commit(s: Ledger, f: Fill, k: Key, b: Booking, fee: real): Ledger
  {
    var wallet := s.wallet + (b.realized - fee);
    s.(wallet := wallet,
       realized := s.realized + b.realized,
       fees := s.fees + fee,
       signedFills := s.signedFills[k := At(s.signedFills, k) + f.qty],
       positions := WithPosition(s.positions, k, After(b, LeverageFor(s, k))),
       events := s.events + [AccountEvent(f.ts, FILL, k, f.qty, f.price, b.realized, fee, 0.0, wallet, b.qty, b.entry)])
  }

  /** The refusals before the clock moves, then the clock; yields the slot routed to. */
  function Admit(c: Config, s: Ledger, f: Fill): Done<Key>
  {
    if Malformed(f).Some? then Done(s, Raised(Malformed(f).value))
    else
      var side := ResolveSide(c, f.side);
      if side.Raised? then Done(s, Raised(side.error))
      else
        var touched := Touch(c, s, f.ts);
        if touched.outcome.Raised? then Done(s, Raised(touched.outcome.error))
        else Done(touched.ledger, Ok(Key(f.symbol, side.value)))
  }

  /** The booking and the checks after it. */
  function Settle(c: Config, s: Ledger, f: Fill, k: Key, b: Booking): Done<FillResult>
  {
    var fee := Charged(c, f);
    var checked := CheckAfterFill(c, Commit(s, f, k, b, fee), k, false);
    if checked.outcome.Raised? then Done(checked.ledger, Raised(checked.outcome.error))
    else Done(checked.ledger, Ok(FillResult(b.realized, fee, After(b, LeverageFor(s, k)), k.side)))
  }

  /** `apply_fill`. */
  ghost function ApplyFill(c: Config, s: Ledger, f: Fill): Done<FillResult>
    requires ConfigBuilds(c)
  {
    var admitted := Admit(c, s, f);
    if admitted.outcome.Raised? then Done(admitted.ledger, Raised(admitted.outcome.error))
    else
      var k := admitted.outcome.value;
      var decided := Decide(c, admitted.ledger, f, k);
      if decided.Raised? then Done(admitted.ledger, Raised(decided.error))
      else Settle(c, admitted.ledger, f, k, decided.value)
  }

  // ----------------------------------------------------------------------- funding

  /** `funding_cashflow`: signed, added to the wallet as it is. */
  function Cashflow(qty: real, mark: real, rate: real): real
  {
    Times(Times(-qty, mark), rate)
  }

  function FundSide(s: Ledger, ts: int, k: Key, mark: real, rate: real): Ledger
    requires k in s.positions
  {
    var p := s.positions[k];
    var flow := Cashflow(p.qty, mark, rate);
    s.(wallet := s.wallet + flow,
       funding := s.funding + flow,
       positions := s.positions[k := p.(funding := p.funding + flow)],
       events := s.events
         + [AccountEvent(ts, FUNDING, k, 0.0, mark, 0.0, 0.0, flow, s.wallet + flow, p.qty, Some(p.entry))])
  }

  function FundSides(s: Ledger, ts: int, symbol: string, sides: seq<PositionSide>, mark: real, rate: real): Ledger
  {
    if sides == [] then s
    else
      var s' := FundSides(s, ts, symbol, sides[..|sides| - 1], mark, rate);
      var k := Key(symbol, sides[|sides| - 1]);
      if k in s'.positions then FundSide(s', ts, k, mark, rate) else s'
  }

  function Settled(s: Ledger, symbol: string, sides: seq<PositionSide>, mark: real, rate: real): map<PositionSide, real>
  {
    map side | side in sides && Key(symbol, side) in s.positions ::
      Cashflow(s.positions[Key(symbol, side)].qty, mark, rate)
  }

  function SettleSides(c: Config, s: Ledger, ts: int, symbol: string, mark: real, rate: real): Done<map<PositionSide, real>>
  {
    if mark < 0.0 then Done(s, Raised(NegativeMark))
    else
      var sides := OpenSides(s, symbol);
      var checked := CheckWallet(c, FundSides(s, ts, symbol, sides, mark, rate), false);
      if checked.outcome.Raised? then Done(checked.ledger, Raised(checked.outcome.error))
      else Done(checked.ledger, Ok(Settled(s, symbol, sides, mark, rate)))
  }

  /** `apply_funding_by_side`. */
  function ApplyFunding(c: Config, s: Ledger, ts: int, symbol: string, rate: real, mark: Option<real>)
    : Done<map<PositionSide, real>>
  {
    var touched := Touch(c, s, ts);
    if touched.outcome.Raised? then Done(s, Raised(touched.outcome.error))
    else if OpenSides(s, symbol) == [] then Done(touched.ledger, Ok(map[]))
    else if mark == None && symbol !in s.marks then Done(touched.ledger, Raised(NoMark))
    else SettleSides(c, touched.ledger, ts, symbol, if mark.Some? then mark.value else s.marks[symbol], rate)
  }

  // ------------------------------------------------------------------------- marks

  function MarkEvent(s: Ledger, ts: int, symbol: string, side: PositionSide, price: real): AccountEvent
  {
    var k := Key(symbol, side);
    AccountEvent(ts, MARK, k, 0.0, price, 0.0, 0.0, 0.0, s.wallet, s.Qty(k),
                 if k in s.positions then Some(s.positions[k].entry) else None)
  }

  function MarkEvents(s: Ledger, ts: int, symbol: string, sides: seq<PositionSide>, price: real): seq<AccountEvent>
  {
    if sides == [] then []
    else MarkEvents(s, ts, symbol, sides[..|sides| - 1], price) + [MarkEvent(s, ts, symbol, sides[|sides| - 1], price)]
  }

  /** `update_mark`. */
  function UpdateMark(c: Config, s: Ledger, ts: int, symbol: string, price: real): Done<()>
  {
    if price <= 0.0 then Done(s, Raised(NonPositivePrice))
    else
      var touched := Touch(c, s, ts);
      if touched.outcome.Raised? then touched
      else
        var s := touched.ledger.(marks := s.marks[symbol := price]);
        if c.strict && CarriesAFlatPosition(s) then Done(s, Raised(Violation(I2)))
        else if !c.logMarks then Done(s, Ok(()))
        else
          var sides := if OpenSides(s, symbol) == [] then [BOTH] else OpenSides(s, symbol);
          Done(s.(events := s.events + MarkEvents(s, ts, symbol, sides, price)), Ok(()))
  }

  // ------------------------------------------------------------------- liquidation

  datatype LiquidationResult = LiquidationResult(
    key: Key, trigger: real, mark: real, marginLost: real, recovered: real, closedQty: real, realized: real)

  /** `_solve_liquidation`: the solve, and invariant I7 while the position is solvent. */
  function SolveLiquidation(c: Config, t: BracketTable, p: Position, mark: real): Outcome<Solution, Error>
    requires |t| > 0 && p.leverage >= 1
  {
    var h := p.AsHolding(p.IsolatedMargin());
    var r := Solve(h, mark, t);
    if r.Raised? then Raised(SolveFailed(r.error))
    else if c.strict && r.value.tier < |t| && h.qty != 0.0
            && h.margin > MaintenanceMargin(p.EntryNotional(), t[r.value.tier])
            && !OrderingHolds(h.qty, h.entry, r.value.price, BankruptcyPrice(h)) then
      Raised(Violation(I7))
    else Ok(r.value)
  }

  function PriceLeg(p: Position, mark: real): real
  {
    Quantize(p.UnrealizedPnl(mark))
  }

  /** The margin balance the close leaves, never below zero: what the clearance takes. */
  function Confiscated(p: Position, mark: real): real
    requires p.leverage >= 1
  {
    var remaining := p.IsolatedMargin() + PriceLeg(p, mark);
    if remaining > 0.0 then remaining else 0.0
  }

  function Recovered(c: Config, p: Position, mark: real): real
    requires p.leverage >= 1
  {
    Quantize(Times(Confiscated(p, mark), c.recovery))
  }

  /** What the wallet moves by when the position is liquidated. */
  function LiquidationLoss(c: Config, p: Position, mark: real): real
    requires p.leverage >= 1
  {
    Recovered(c, p, mark) - p.IsolatedMargin()
  }

  /** What the clearance keeps of the remaining balance. */
  function Clearance(c: Config, p: Position, mark: real): real
    requires p.leverage >= 1
  {
    Confiscated(p, mark) - Recovered(c, p, mark)
  }

  function Closeout(s: Ledger, ts: int, k: Key, trigger: real, loss: real, clearance: real): Ledger
    requires k in s.positions
  {
    var qty := s.positions[k].qty;
    s.(wallet := s.wallet + loss,
       realized := s.realized + loss,
       liquidationCost := s.liquidationCost + -clearance,
       signedFills := s.signedFills[k := At(s.signedFills, k) - qty],
       positions := s.positions - {k},
       liquidations := s.liquidations + 1,
       events := s.events
         + [AccountEvent(ts, LIQUIDATION, k, -qty, trigger, loss, 0.0, 0.0, s.wallet + loss, 0.0, None)])
  }

  /** `_liquidate`, before its checks. */
  function Liquidated(c: Config, s: Ledger, ts: int, k: Key, trigger: real, mark: real): Ledger
    requires k in s.positions && s.positions[k].leverage >= 1
  {
    Closeout(s, ts, k, trigger, LiquidationLoss(c, s.positions[k], mark), Clearance(c, s.positions[k], mark))
  }

  function ResultOf(c: Config, p: Position, k: Key, trigger: real, mark: real): LiquidationResult
    requires p.leverage >= 1
  {
    LiquidationResult(k, trigger, mark, p.IsolatedMargin() - Recovered(c, p, mark), Recovered(c, p, mark), -p.qty,
                      LiquidationLoss(c, p, mark))
  }

  /** One pass of the loop of `check_liquidations`. */
  function VisitSide(c: Config, s: Ledger, ts: int, k: Key): Done<Option<LiquidationResult>>
  {
    if k !in s.positions || k.symbol !in c.brackets || k.symbol !in s.marks
       || s.positions[k].leverage < 1 || |c.brackets[k.symbol]| == 0 then Done(s, Ok(None))
    else
      var p, mark := s.positions[k], s.marks[k.symbol];
      var solved := SolveLiquidation(c, c.brackets[k.symbol], p, mark);
      if solved.Raised? then Done(s, Raised(solved.error))
      else if !Triggered(p.AsHolding(p.IsolatedMargin()), mark, solved.value) then Done(s, Ok(None))
      else
        var checked := CheckAfterFill(c, Liquidated(c, s, ts, k, solved.value.price, mark), k, true);
        if checked.outcome.Raised? then Done(checked.ledger, Raised(checked.outcome.error))
        else Done(checked.ledger, Ok(Some(ResultOf(c, p, k, solved.value.price, mark))))
  }

  function Joined(results: seq<LiquidationResult>, last: Option<LiquidationResult>): seq<LiquidationResult>
  {
    if last.Some? then results + [last.value] else results
  }

  /** The loop, over the keys in the order they are visited. */
  function VisitSides(c: Config, s: Ledger, ts: int, order: seq<Key>): Done<seq<LiquidationResult>>
  {
    if order == [] then Done(s, Ok([]))
    else
      var rest := VisitSides(c, s, ts, order[..|order| - 1]);
      if rest.outcome.Raised? then rest
      else
        var last := VisitSide(c, rest.ledger, ts, order[|order| - 1]);
        if last.outcome.Raised? then Done(last.ledger, Raised(last.outcome.error))
        else Done(last.ledger, Ok(Joined(rest.outcome.value, last.outcome.value)))
  }

  /** `check_liquidations`. The source visits the keys sorted; here in any given order. */
  function CheckLiquidations(c: Config, s: Ledger, ts: int, order: seq<Key>): Done<seq<LiquidationResult>>
  {
    var touched := Touch(c, s, ts);
    if touched.outcome.Raised? then Done(s, Raised(touched.outcome.error))
    else VisitSides(c, touched.ledger, ts, order)
  }

  // ------------------------------------------------------------------------ margin

  function MarginEvent(s: Ledger, ts: int, kind: EventKind, k: Key, amount: real, p: Position): AccountEvent
  {
    AccountEvent(ts, kind, k, 0.0, amount, 0.0, 0.0, 0.0, s.wallet, p.qty, Some(p.entry))
  }

  function WithExtra(s: Ledger, ts: int, kind: EventKind, k: Key, amount: real, extra: real): Ledger
    requires k in s.positions
  {
    var p := s.positions[k].(extra := extra);
    s.(positions := s.positions[k := p], events := s.events + [MarginEvent(s, ts, kind, k, amount, p)])
  }

  /** The clock, then the position with its new added margin. */
  function Posted(c: Config, s: Ledger, ts: int, kind: EventKind, k: Key, amount: real, extra: real): Done<Position>
    requires k in s.positions
  {
    var touched := Touch(c, s, ts);
    if touched.outcome.Raised? then Done(s, Raised(touched.outcome.error))
    else
      var s' := WithExtra(touched.ledger, ts, kind, k, amount, extra);
      Done(s', Ok(s'.positions[k]))
  }

  /** `add_margin` finds too little available, or an allocation already below zero. */
  ghost predicate AdditionRefused(c: Config, s: Ledger, p: Position, amount: real)
  {
    c.enforceMargin && (amount > Available(s) || (p.leverage >= 1 && p.IsolatedMargin() < 0.0))
  }

  /** The transfer, once the position is found. */
  ghost function AddMarginAt(c: Config, s: Ledger, ts: int, k: Key, amount: real): Done<Position>
    requires k in s.positions
  {
    if AdditionRefused(c, s, s.positions[k], amount) then Done(s, Raised(InsufficientMargin))
    else Posted(c, s, ts, MARGIN_ADDED, k, amount, s.positions[k].extra + amount)
  }

  /** `add_margin`. */
  ghost function AddMargin(c: Config, s: Ledger, ts: int, symbol: string, amount: real, side: Option<PositionSide>): Done<Position>
  {
    if amount <= 0.0 then Done(s, Raised(BadAmount))
    else
      var resolved := ResolveSide(c, side);
      if resolved.Raised? then Done(s, Raised(resolved.error))
      else
        var k := Key(symbol, resolved.value);
        if k !in s.positions then Done(s, Raised(NoPosition)) else AddMarginAt(c, s, ts, k, amount)
  }

  /** Why `remove_margin` would refuse to shrink the allocation at the recorded mark. */
  function ShrinkRefused(c: Config, t: BracketTable, p: Position, mark: real, amount: real): Option<Error>
    requires |t| > 0 && p.leverage >= 1
  {
    var h := p.AsHolding(Quantize(p.IsolatedMargin() - amount));
    var r := Solve(h, mark, t);
    if r.Raised? then Some(SolveFailed(r.error))
    else if Triggered(h, mark, r.value) then Some(InsufficientMargin)
    else None
  }

  /** The probe, where margin is enforced and the symbol has a table and a mark. */
  function RemovalRefused(c: Config, s: Ledger, k: Key, amount: real): Option<Error>
    requires k in s.positions
  {
    var p := s.positions[k];
    if c.enforceMargin && k.symbol in c.brackets && k.symbol in s.marks && p.leverage >= 1 && |c.brackets[k.symbol]| > 0 then
      ShrinkRefused(c, c.brackets[k.symbol], p, s.marks[k.symbol], amount)
    else None
  }

  /** The transfer, once the position is found. */
  function RemoveMarginAt(c: Config, s: Ledger, ts: int, k: Key, amount: real): Done<Position>
    requires k in s.positions
  {
    var p := s.positions[k];
    if amount > p.extra then Done(s, Raised(InsufficientMargin))
    else if RemovalRefused(c, s, k, amount).Some? then Done(s, Raised(RemovalRefused(c, s, k, amount).value))
    else Posted(c, s, ts, MARGIN_REMOVED, k, amount, p.extra - amount)
  }

  /** `remove_margin`. */
  function RemoveMargin(c: Config, s: Ledger, ts: int, symbol: string, amount: real, side: Option<PositionSide>): Done<Position>
  {
    if amount <= 0.0 then Done(s, Raised(BadAmount))
    else
      var resolved := ResolveSide(c, side);
      if resolved.Raised? then Done(s, Raised(resolved.error))
      else
        var k := Key(symbol, resolved.value);
        if k !in s.positions then Done(s, Raised(NoPosition)) else RemoveMarginAt(c, s, ts, k, amount)
  }

  // ---------------------------------------------------------------------- leverage

  function TopLeverage(t: BracketTable): int
    requires |t| > 0
  {
    if |t| == 1 then t[0].maxLeverage
    else
      var rest := TopLeverage(t[..|t| - 1]);
      if t[|t| - 1].maxLeverage > rest then t[|t| - 1].maxLeverage else rest
  }

  /** `set_leverage`. */
  function SetLeverage(c: Config, s: Ledger, symbol: string, leverage: int): Done<()>
  {
    if leverage < 1 then Done(s, Raised(BadLeverage))
    else if OpenSides(s, symbol) != [] then Done(s, Raised(PositionOpen))
    else if symbol in c.brackets && |c.brackets[symbol]| > 0 && leverage > TopLeverage(c.brackets[symbol]) then
      Done(s, Raised(BadLeverage))
    else Done(s.(leverages := s.leverages[symbol := leverage]), Ok(()))
  }
}
