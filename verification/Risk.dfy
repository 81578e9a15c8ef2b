/** The risk engine as a value, and each of its operations as a step on that value
    (perplab/core/risk.py:563-1284). */
module Risk {
  import opened Wrappers
  import opened Money
  import opened Positions
  import opened Exposure

  const MS_PER_DAY := 86400000
  const MS_PER_MINUTE := 60000
  const MAX_BREACHES: nat := 1000

  /** The limits this model reads; `None` switches one off. */
  datatype Limits = Limits(
    maxPositionNotional: Option<real>,
    maxLeverage: Option<real>,
    maxDailyLossPct: Option<real>,
    maxDrawdownPct: Option<real>,
    minEquityPct: Option<real>,
    maxOpenOrders: Option<int>,
    maxOrdersPerMinute: Option<int>)

  predicate Positive(x: Option<real>)
  {
    x.Some? ==> x.value > 0.0
  }

  predicate Fraction(x: Option<real>)
  {
    x.Some? ==> 0.0 < x.value <= 1.0
  }

  predicate Count(x: Option<int>)
  {
    x.Some? ==> x.value > 0
  }

  /** What the constructor of the limits accepts. */
  predicate LimitsBuild(l: Limits)
  {
    && Positive(l.maxPositionNotional) && Positive(l.maxLeverage)
    && Fraction(l.maxDailyLossPct) && Fraction(l.maxDrawdownPct) && Fraction(l.minEquityPct)
    && Count(l.maxOpenOrders) && Count(l.maxOrdersPerMinute)
  }

  datatype Limit =
    | HALTED | MAX_ORDERS_PER_MINUTE | MAX_OPEN_ORDERS | MAX_POSITION_NOTIONAL | MAX_LEVERAGE
    | MIN_EQUITY | MAX_DAILY_LOSS | MAX_DRAWDOWN
    | OTHER(name: string)

  datatype RiskAction = REJECT | HALT

  datatype Breach = Breach(limit: Limit, action: RiskAction, ts: int)

  /** The kill switch: when it tripped and on what. */
  datatype Kill = Kill(trippedAt: Option<int>, trigger: Option<Limit>)

  function Trip(k: Kill, ts: int, trigger: Limit): Kill
  {
    if k.trippedAt.Some? then k else Kill(Some(ts), Some(trigger))
  }

  datatype Engine = Engine(
    limits: Limits,
    starting: real,
    kill: Kill,
    peak: real,
    dayKey: Option<int>,
    dayOpen: real,
    halted: bool,
    haltBreach: Option<Breach>,
    breaches: seq<Breach>,
    dropped: nat,
    rejected: nat,
    submissions: seq<int>,
    lastEquity: Option<real>,
    lastEquityMs: Option<int>)

  function Built(limits: Limits, starting: real, kill: Kill): Engine
  {
    Engine(limits, starting, kill, starting, None, starting, false, None, [], 0, 0, [], None, None)
  }

  datatype Verdict = Verdict(engine: Engine, breach: Option<Breach>)

  // -------------------------------------------------------------------- book-keeping

  /** `_record`: keep the breach while there is room, count it after that. */
  function Record(e: Engine, b: Breach): Engine
  {
    var e' := if b.action == REJECT then e.(rejected := e.rejected + 1) else e;
    if |e.breaches| < MAX_BREACHES then e'.(breaches := e.breaches + [b]) else e'.(dropped := e.dropped + 1)
  }

  function Reject(e: Engine, limit: Limit, ts: int): Verdict
  {
    Verdict(Record(e, Breach(limit, REJECT, ts)), Some(Breach(limit, REJECT, ts)))
  }

  /** `_halt`: record the first halt and ignore the rest. */
  function Halt(e: Engine, b: Breach, trigger: Option<Limit>): Verdict
  {
    if e.halted then Verdict(e, Some(b))
    else
      Verdict(Record(e, b).(halted := true, haltBreach := Some(b),
                            kill := Trip(e.kill, b.ts, if trigger.Some? then trigger.value else b.limit)),
              Some(b))
  }

  // -------------------------------------------------------------- pre-submission checks

  datatype Request = Request(
    ts: int, side: Side, qty: real, price: real, reduceOnly: bool, position: real, working: Working, equity: real,
    openOrders: int, otherNotional: real, positionSide: PositionSide, otherSideExposure: real)

  /** Drop the stamps that have aged out, from the front. */
  function Pruned(stamps: seq<int>, cutoff: int): seq<int>
  {
    if stamps != [] && stamps[0] <= cutoff then Pruned(stamps[1..], cutoff) else stamps
  }

  /** `_check_rate`. */
  function CheckRate(e: Engine, ts: int): Verdict
  {
    if e.limits.maxOrdersPerMinute == None then Verdict(e, None)
    else
      var e' := e.(submissions := Pruned(e.submissions, ts - MS_PER_MINUTE));
      if |e'.submissions| >= e.limits.maxOrdersPerMinute.value then Reject(e', MAX_ORDERS_PER_MINUTE, ts)
      else Verdict(e', None)
  }

  /** The notional the order could produce, counting everything already working. */
  function ProjectedNotional(r: Request): real
  {
    Times(SideProjectedExposure(r.positionSide, r.position, r.working.Plus(r.side, r.qty)) + r.otherSideExposure, r.price)
  }

  /** The checks on count and size, in the order the source makes them. */
  function SizeBreached(l: Limits, r: Request): Option<Limit>
  {
    if l.maxOpenOrders.Some? && r.openOrders >= l.maxOpenOrders.value then Some(MAX_OPEN_ORDERS)
    else if l.maxPositionNotional.Some? && ProjectedNotional(r) > l.maxPositionNotional.value then
      Some(MAX_POSITION_NOTIONAL)
    else if l.maxLeverage.Some?
            && (r.equity <= 0.0 || (ProjectedNotional(r) + r.otherNotional) / r.equity > l.maxLeverage.value) then
      Some(MAX_LEVERAGE)
    else None
  }

  function Noted(e: Engine, ts: int): Engine
  {
    e.(submissions := e.submissions + [ts])
  }

  /** `check_order`. */
  function CheckOrder(e: Engine, r: Request): Verdict
  {
    if e.halted then Reject(e, HALTED, r.ts)
    else if r.reduceOnly then Verdict(Noted(e, r.ts), None)
    else
      var rate := CheckRate(e, r.ts);
      if rate.breach.Some? then rate
      else if SizeBreached(e.limits, r).Some? then Reject(rate.engine, SizeBreached(e.limits, r).value, r.ts)
      else Verdict(Noted(rate.engine, r.ts), None)
  }

  // -------------------------------------------------------------------- account state

  datatype Sample = Sample(ts: int, equity: real, high: Option<real>) {
    /** The best point of the sample's band; its equity is the worst. */
    function Crest(): real
    {
      if high == None then equity else Max(high.value, equity)
    }

    function Day(): int
    {
      ts / MS_PER_DAY
    }
  }

  /** `_roll_day`. */
  function RollDay(e: Engine, s: Sample): Engine
  {
    var rolled :=
      if e.dayKey == None then e.(dayKey := Some(s.Day()), dayOpen := s.equity)
      else if s.Day() > e.dayKey.value then
        e.(dayKey := Some(s.Day()), dayOpen := if e.lastEquity == None then s.equity else e.lastEquity.value)
      else e;
    if e.lastEquityMs == None || s.ts >= e.lastEquityMs.value then
      rolled.(lastEquityMs := Some(s.ts), lastEquity := Some(s.equity))
    else rolled
  }

  /** The equity limits, in the order the source checks them. */
  function EquityBreached(l: Limits, starting: real, dayOpen: real, peak: real, equity: real): Option<Limit>
  {
    if l.minEquityPct.Some? && equity <= Times(starting, l.minEquityPct.value) then Some(MIN_EQUITY)
    else if l.maxDailyLossPct.Some? && dayOpen - equity >= Times(starting, l.maxDailyLossPct.value) then
      Some(MAX_DAILY_LOSS)
    else if l.maxDrawdownPct.Some? && peak > 0.0 && (peak - equity) / peak >= l.maxDrawdownPct.value then
      Some(MAX_DRAWDOWN)
    else None
  }

  function Raised(e: Engine, s: Sample): Engine
  {
    if s.Crest() > e.peak then e.(peak := s.Crest()) else e
  }

  /** `observe_equity`. */
  function ObserveEquity(e: Engine, s: Sample): Verdict
  {
    var seen := Raised(RollDay(e, s), s);
    if seen.halted then Verdict(seen, None)
    else
      var hit := EquityBreached(seen.limits, seen.starting, seen.dayOpen, seen.peak, s.equity);
      if hit.Some? then Halt(seen, Breach(hit.value, HALT, s.ts), None) else Verdict(seen, None)
  }
}
