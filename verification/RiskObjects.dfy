/** The risk engine as the source has it: an object and the kill switch it shares. */
module RiskObjects {
  import opened Wrappers
  import opened Money
  import opened Exposure
  import R = Risk

  class KillSwitch {
    var trippedAt: Option<int>
    var trigger: Option<R.Limit>

    function State(): R.Kill
      reads this
    {
      R.Kill(trippedAt, trigger)
    }

    constructor ()
      ensures State() == R.Kill(None, None)
    {
      trippedAt, trigger := None, None;
    }

    /** First trigger wins. */
    method Trip(ts: int, trigger: R.Limit) returns (first: bool)
      modifies this
      ensures State() == R.Trip(old(State()), ts, trigger)
      ensures first <==> old(trippedAt) == None
    {
      if trippedAt.Some? {
        return false;
      }
      this.trippedAt, this.trigger := Some(ts), Some(trigger);
      return true;
    }
  }

  class RiskEngine {
    const limits: R.Limits
    const starting: real
    const killSwitch: KillSwitch
    var peak: real
    var dayKey: Option<int>
    var dayOpen: real
    var halted: bool
    var haltBreach: Option<R.Breach>
    var breaches: seq<R.Breach>
    var dropped: nat
    var rejected: nat
    var submissions: seq<int>
    var lastEquity: Option<real>
    var lastEquityMs: Option<int>

    ghost function State(): R.Engine
      reads this, killSwitch
    {
      R.Engine(limits, starting, killSwitch.State(), peak, dayKey, dayOpen, halted, haltBreach, breaches, dropped,
               rejected, submissions, lastEquity, lastEquityMs)
    }

    constructor (limits: R.Limits, starting: real, killSwitch: KillSwitch)
      requires R.LimitsBuild(limits) && starting > 0.0
      ensures this.killSwitch == killSwitch && State() == R.Built(limits, starting, killSwitch.State())
    {
      this.limits, this.starting, this.killSwitch := limits, starting, killSwitch;
      peak, dayKey, dayOpen, halted, haltBreach := starting, None, starting, false, None;
      breaches, dropped, rejected, submissions := [], 0, 0, [];
      lastEquity, lastEquityMs := None, None;
    }

    method Record(b: R.Breach)
      modifies `rejected, `breaches, `dropped
      ensures State() == R.Record(old(State()), b)
    {
      if b.action == R.REJECT {
        rejected := rejected + 1;
      }
      if |breaches| < R.MAX_BREACHES {
        breaches := breaches + [b];
      } else {
        dropped := dropped + 1;
      }
    }

    method Reject(limit: R.Limit, ts: int) returns (b: Option<R.Breach>)
      modifies `rejected, `breaches, `dropped
      ensures R.Verdict(State(), b) == R.Reject(old(State()), limit, ts)
    {
      var breach := R.Breach(limit, R.REJECT, ts);
      Record(breach);
      return Some(breach);
    }

    method Halt(b: R.Breach, trigger: Option<R.Limit>) returns (r: Option<R.Breach>)
      modifies this, killSwitch
      ensures R.Verdict(State(), r) == R.Halt(old(State()), b, trigger)
    {
      if halted {
        return Some(b);
      }
      Record(b);
      halted, haltBreach := true, Some(b);
      var _ := killSwitch.Trip(b.ts, if trigger.Some? then trigger.value else b.limit);
      return Some(b);
    }

    method CheckRate(ts: int) returns (r: Option<R.Breach>)
      modifies `submissions, `rejected, `breaches, `dropped
      ensures R.Verdict(State(), r) == R.CheckRate(old(State()), ts)
    {
      if limits.maxOrdersPerMinute == None {
        return None;
      }
      var cutoff := ts - R.MS_PER_MINUTE;
      while submissions != [] && submissions[0] <= cutoff
        modifies `submissions
        invariant R.Pruned(submissions, cutoff) == R.Pruned(old(submissions), cutoff)
        decreases |submissions|
      {
        submissions := submissions[1..];
      }
      if |submissions| >= limits.maxOrdersPerMinute.value {
        r := Reject(R.MAX_ORDERS_PER_MINUTE, ts);
        return;
      }
      return None;
    }

    method CheckOrder(q: R.Request) returns (r: Option<R.Breach>)
      modifies `submissions, `rejected, `breaches, `dropped
      ensures R.Verdict(State(), r) == R.CheckOrder(old(State()), q)
    {
      if halted {
        r := Reject(R.HALTED, q.ts);
        return;
      }
      if q.reduceOnly {
        submissions := submissions + [q.ts];
        return None;
      }
      r := CheckRate(q.ts);
      if r.Some? {
        return;
      }
      if limits.maxOpenOrders.Some? && q.openOrders >= limits.maxOpenOrders.value {
        r := Reject(R.MAX_OPEN_ORDERS, q.ts);
        return;
      }
      var projected := SideProjectedExposure(q.positionSide, q.position, q.working.Plus(q.side, q.qty)) + q.otherSideExposure;
      var notional := Times(projected, q.price);
      if limits.maxPositionNotional.Some? && notional > limits.maxPositionNotional.value {
        r := Reject(R.MAX_POSITION_NOTIONAL, q.ts);
        return;
      }
      if limits.maxLeverage.Some? {
        if q.equity <= 0.0 {
          r := Reject(R.MAX_LEVERAGE, q.ts);
          return;
        }
        if (notional + q.otherNotional) / q.equity > limits.maxLeverage.value {
          r := Reject(R.MAX_LEVERAGE, q.ts);
          return;
        }
      }
      submissions := submissions + [q.ts];
      return None;
    }

    method RollDay(s: R.Sample)
      modifies `dayKey, `dayOpen, `lastEquity, `lastEquityMs
      ensures State() == R.RollDay(old(State()), s)
    {
      var key := s.ts / R.MS_PER_DAY;
      if dayKey == None {
        dayKey, dayOpen := Some(key), s.equity;
      } else if key > dayKey.value {
        dayKey := Some(key);
        dayOpen := if lastEquity == None then s.equity else lastEquity.value;
      }
      if lastEquityMs == None || s.ts >= lastEquityMs.value {
        lastEquityMs, lastEquity := Some(s.ts), Some(s.equity);
      }
    }

    method ObserveEquity(s: R.Sample) returns (r: Option<R.Breach>)
      modifies this, killSwitch
      ensures R.Verdict(State(), r) == R.ObserveEquity(old(State()), s)
    {
      RollDay(s);
      var crest := s.Crest();
      if crest > peak {
        peak := crest;
      }
      if halted {
        return None;
      }
      if limits.minEquityPct.Some? && s.equity <= Times(starting, limits.minEquityPct.value) {
        r := Halt(R.Breach(R.MIN_EQUITY, R.HALT, s.ts), None);
        return;
      }
      if limits.maxDailyLossPct.Some? && dayOpen - s.equity >= Times(starting, limits.maxDailyLossPct.value) {
        r := Halt(R.Breach(R.MAX_DAILY_LOSS, R.HALT, s.ts), None);
        return;
      }
      if limits.maxDrawdownPct.Some? && peak > 0.0 && (peak - s.equity) / peak >= limits.maxDrawdownPct.value {
        r := Halt(R.Breach(R.MAX_DRAWDOWN, R.HALT, s.ts), None);
        return;
      }
      return None;
    }

    /** The rate row of `usage`: a count that pops nothing. */
    method RecentSubmissions(ts: int) returns (recent: nat)
      ensures recent == |StampsAfter(submissions, ts - R.MS_PER_MINUTE)|
    {
      var cutoff := ts - R.MS_PER_MINUTE;
      recent := 0;
      for i := 0 to |submissions|
        invariant recent == |StampsAfter(submissions[..i], cutoff)|
      {
        assert submissions[..i + 1][..i] == submissions[..i];
        if submissions[i] > cutoff {
          recent := recent + 1;
        }
      }
      assert submissions[..|submissions|] == submissions;
    }
  }

  /** The stamps later than `cutoff`, in order. */
  function StampsAfter(stamps: seq<int>, cutoff: int): seq<int>
  {
    if stamps == [] then []
    else if stamps[|stamps| - 1] > cutoff then StampsAfter(stamps[..|stamps| - 1], cutoff) + [stamps[|stamps| - 1]]
    else StampsAfter(stamps[..|stamps| - 1], cutoff)
  }
}
