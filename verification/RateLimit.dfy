/** The runaway-loop guard over every run whose order checks arrive in time order. */
module RateLimit {
  import opened Wrappers
  import opened Sequences
  import opened Money
  import opened Liquidation
  import opened Exposure
  import opened Risk
  import opened RiskObjects
  import opened RiskRuns

  /** How many stamps fall in `(low, high]`. */
  function CountIn(stamps: seq<int>, low: int, high: int): nat
  {
    if stamps == [] then 0
    else
      CountIn(stamps[..|stamps| - 1], low, high) + (if low < stamps[|stamps| - 1] <= high then 1 else 0)
  }

  /** Submissions accepted in the rolling minute that ends at `t`. */
  function InMinute(stamps: seq<int>, t: int): nat
  {
    CountIn(stamps, t - 60000, t)
  }

  /** The timestamps of the submissions a run accepted. */
  function Accepted(e: Engine, ops: seq<Op>): seq<int>
  {
    if ops == [] then []
    else
      var front, op := ops[..|ops| - 1], ops[|ops| - 1];
      if op.Check? && Step(Run(e, front), op).breach == None then Accepted(e, front) + [op.request.ts] else Accepted(e, front)
  }

  /** The order checks of the run never go back in time, and none is after `now`. */
  ghost predicate Clocked(ops: seq<Op>, now: int)
  {
    && (forall i :: 0 <= i < |ops| && ops[i].Check? ==> ops[i].request.ts <= now)
    && (forall i, j :: 0 <= i < j < |ops| && ops[i].Check? && ops[j].Check? ==> ops[i].request.ts <= ops[j].request.ts)
  }

  /** The engine's window is the tail of what was accepted, and what it lacks is too old to
      matter from `now` on. */
  ghost predicate Windowed(window: seq<int>, all: seq<int>, now: int)
  {
    && |window| <= |all| && window == all[|all| - |window|..]
    && Ascending(all)
    && (forall i :: 0 <= i < |all| ==> all[i] <= now)
    && (forall i :: 0 <= i < |all| - |window| ==> all[i] <= now - MS_PER_MINUTE)
  }

  lemma {:induction false} PrunedIsTheTail(window: seq<int>, all: seq<int>, cutoff: int)
    requires |window| <= |all| && window == all[|all| - |window|..]
    requires forall i :: 0 <= i < |all| - |window| ==> all[i] <= cutoff
    ensures var p := Pruned(window, cutoff);
            && |p| <= |window| && p == all[|all| - |p|..]
            && (forall i :: 0 <= i < |all| - |p| ==> all[i] <= cutoff)
            && (p != [] ==> p[0] > cutoff)
    decreases |window|
  {
    if window != [] && window[0] <= cutoff {
      assert window[1..] == all[|all| - |window| + 1..];
      PrunedIsTheTail(window[1..], all, cutoff);
    }
  }

  lemma {:induction false} CountOfTheTail(all: seq<int>, n: nat, low: int, high: int)
    requires n <= |all|
    requires forall i :: 0 <= i < |all| ==> (i < n <==> all[i] <= low) && all[i] <= high
    ensures CountIn(all, low, high) == |all| - n
  {
    if all != [] {
      var front := all[..|all| - 1];
      assert forall i :: 0 <= i < |front| ==> front[i] == all[i];
      CountOfTheTail(front, if n == |all| then n - 1 else n, low, high);
    }
  }

  /** The pruned window holds exactly the accepted submissions of the last minute. */
  lemma PrunedCountsTheMinute(window: seq<int>, all: seq<int>, now: int, t: int)
    requires Windowed(window, all, now) && now <= t
    ensures var p := Pruned(window, t - MS_PER_MINUTE);
            Windowed(p, all, t) && InMinute(all, t) == |p|
  {
    PrunedIsTheTail(window, all, t - MS_PER_MINUTE);
    var p := Pruned(window, t - MS_PER_MINUTE);
    assert p != [] ==> p[0] == all[|all| - |p|];
    CountOfTheTail(all, |all| - |p|, t - MS_PER_MINUTE, t);
  }

  /** `usage` counts, without popping, what the guard would be left with after popping. */
  lemma {:induction false} UsageCountsThePrunedWindow(stamps: seq<int>, cutoff: int)
    requires Ascending(stamps)
    ensures StampsAfter(stamps, cutoff) == Pruned(stamps, cutoff)
  {
    if stamps == [] {
    } else if stamps[0] <= cutoff {
      UsageCountsThePrunedWindow(stamps[1..], cutoff);
      DropTheFirst(stamps, cutoff);
    } else {
      AllAfter(stamps, cutoff);
    }
  }

  lemma {:induction false} DropTheFirst(stamps: seq<int>, cutoff: int)
    requires stamps != [] && stamps[0] <= cutoff
    ensures StampsAfter(stamps, cutoff) == StampsAfter(stamps[1..], cutoff)
  {
    if |stamps| > 1 {
      DropTheFirst(stamps[..|stamps| - 1], cutoff);
      assert stamps[1..][..|stamps| - 2] == stamps[..|stamps| - 1][1..];
    }
  }

  lemma {:induction false} AllAfter(stamps: seq<int>, cutoff: int)
    requires forall i :: 0 <= i < |stamps| ==> stamps[i] > cutoff
    ensures StampsAfter(stamps, cutoff) == stamps
  {
    if stamps != [] {
      AllAfter(stamps[..|stamps| - 1], cutoff);
      assert stamps == stamps[..|stamps| - 1] + [stamps[|stamps| - 1]];
    }
  }

  // ------------------------------------------------------------------------- runs

  lemma LaterIsStillWindowed(window: seq<int>, all: seq<int>, now: int, t: int)
    requires Windowed(window, all, now) && now <= t
    ensures Windowed(window, all, t)
  {
  }

  lemma AppendKeepsWindowed(window: seq<int>, all: seq<int>, t: int)
    requires Windowed(window, all, t)
    ensures Windowed(window + [t], all + [t], t)
  {
    var w, a := window + [t], all + [t];
    assert a[|a| - |w|..] == w;
  }

  /** What an order check leaves in the window. */
  lemma CheckKeepsWindowed(e: Engine, all: seq<int>, now: int, r: Request)
    requires Windowed(e.submissions, all, now) && now <= r.ts
    ensures var v := CheckOrder(e, r);
            && v.engine.limits == e.limits
            && Windowed(v.engine.submissions, if v.breach == None then all + [r.ts] else all, r.ts)
  {
    var v, pruned := CheckOrder(e, r), Pruned(e.submissions, r.ts - MS_PER_MINUTE);
    CheckLeaves(e, r);
    var window := if v.breach.Some? then v.engine.submissions
                  else if v.engine.submissions == e.submissions + [r.ts] then e.submissions else pruned;
    assert Windowed(window, all, r.ts) by {
      if window == e.submissions {
        LaterIsStillWindowed(e.submissions, all, now, r.ts);
      } else {
        PrunedCountsTheMinute(e.submissions, all, now, r.ts);
      }
    }
    if v.breach == None {
      AppendKeepsWindowed(window, all, r.ts);
    }
  }

  /** What the acceptance of an order that is not reduce-only means. */
  lemma AcceptanceCountsTheMinute(e: Engine, all: seq<int>, now: int, r: Request)
    requires Windowed(e.submissions, all, now) && now <= r.ts
    requires CheckOrder(e, r).breach == None && !r.reduceOnly && e.limits.maxOrdersPerMinute.Some?
    ensures InMinute(all, r.ts) < e.limits.maxOrdersPerMinute.value
  {
    CheckLeaves(e, r);
    PrunedCountsTheMinute(e.submissions, all, now, r.ts);
  }

  /** Which window a check leaves: the one it had, or what is left after pruning, and the
      stamp when it was accepted. */
  lemma CheckLeaves(e: Engine, r: Request)
    ensures var v, pruned := CheckOrder(e, r), Pruned(e.submissions, r.ts - MS_PER_MINUTE);
            && v.engine.limits == e.limits
            && (v.breach == None ==>
                  v.engine.submissions == e.submissions + [r.ts] || v.engine.submissions == pruned + [r.ts])
            && (v.breach.Some? ==> v.engine.submissions == e.submissions || v.engine.submissions == pruned)
            && (v.breach == None && !r.reduceOnly && e.limits.maxOrdersPerMinute.Some? ==>
                  |pruned| < e.limits.maxOrdersPerMinute.value)
  {
  }

  lemma OtherStepsKeepTheWindow(e: Engine, op: Op)
    requires !op.Check?
    ensures Step(e, op).engine.submissions == e.submissions && Step(e, op).engine.limits == e.limits
  {
  }

  lemma ClockedFront(ops: seq<Op>, now: int)
    requires ops != [] && Clocked(ops, now)
    ensures Clocked(ops[..|ops| - 1], if ops[|ops| - 1].Check? then ops[|ops| - 1].request.ts else now)
  {
  }

  lemma StepKeepsWindowed(e: Engine, all: seq<int>, op: Op, now: int)
    requires Windowed(e.submissions, all, if op.Check? then op.request.ts else now)
    requires op.Check? ==> op.request.ts <= now
    ensures var v := Step(e, op);
            && v.engine.limits == e.limits
            && Windowed(v.engine.submissions, if op.Check? && v.breach == None then all + [op.request.ts] else all, now)
  {
    var v := Step(e, op);
    if op.Check? {
      CheckKeepsWindowed(e, all, op.request.ts, op.request);
      LaterIsStillWindowed(v.engine.submissions, if v.breach == None then all + [op.request.ts] else all, op.request.ts, now);
    } else {
      OtherStepsKeepTheWindow(e, op);
    }
  }

  lemma AcceptedGrows(e: Engine, ops: seq<Op>)
    requires ops != []
    ensures var front, op := ops[..|ops| - 1], ops[|ops| - 1];
            Accepted(e, ops) == if op.Check? && Step(Run(e, front), op).breach == None
                                then Accepted(e, front) + [op.request.ts] else Accepted(e, front)
  {
  }

  lemma {:induction false} RunsStayWindowed(limits: Limits, starting: real, kill: Kill, ops: seq<Op>, now: int)
    requires Clocked(ops, now)
    ensures var b := Built(limits, starting, kill);
            Run(b, ops).limits == limits && Windowed(Run(b, ops).submissions, Accepted(b, ops), now)
  {
    if ops != [] {
      var b, front, op := Built(limits, starting, kill), ops[..|ops| - 1], ops[|ops| - 1];
      ClockedFront(ops, now);
      RunsStayWindowed(limits, starting, kill, front, if op.Check? then op.request.ts else now);
      AcceptedGrows(b, ops);
      StepKeepsWindowed(Run(b, front), Accepted(b, front), op, now);
    }
  }

  lemma {:induction false} CountOneMore(stamps: seq<int>, t: int, low: int, high: int)
    ensures CountIn(stamps + [t], low, high) == CountIn(stamps, low, high) + (if low < t <= high then 1 else 0)
  {
    assert (stamps + [t])[..|stamps|] == stamps;
  }

  /** Whenever an order that is not reduce-only is accepted, the minute ending at it holds
      at most the limit's submissions, it and the reduce-only ones included. */
  lemma AcceptanceIsWithinTheRate(limits: Limits, starting: real, kill: Kill, ops: seq<Op>, r: Request)
    requires limits.maxOrdersPerMinute.Some? && Clocked(ops, r.ts) && !r.reduceOnly
    requires CheckOrder(Run(Built(limits, starting, kill), ops), r).breach == None
    ensures InMinute(Accepted(Built(limits, starting, kill), ops) + [r.ts], r.ts) <= limits.maxOrdersPerMinute.value
  {
    var b := Built(limits, starting, kill);
    RunsStayWindowed(limits, starting, kill, ops, r.ts);
    AcceptanceCountsTheMinute(Run(b, ops), Accepted(b, ops), r.ts, r);
    CountOneMore(Accepted(b, ops), r.ts, r.ts - MS_PER_MINUTE, r.ts);
  }

  lemma {:induction false} AnEarlierMinuteHoldsNoMore(stamps: seq<int>, last: int, t: int)
    requires last <= t && forall i :: 0 <= i < |stamps| ==> stamps[i] <= last
    ensures InMinute(stamps, t) <= InMinute(stamps, last)
  {
    if stamps != [] {
      AnEarlierMinuteHoldsNoMore(stamps[..|stamps| - 1], last, t);
    }
  }

  /** One more accepted stamp leaves every minute within the limit, if the minute it ends
      is and every minute was. */
  lemma OneMoreStampIsWithinTheRate(stamps: seq<int>, ts: int, t: int, limit: int)
    requires forall i :: 0 <= i < |stamps| ==> stamps[i] <= ts
    requires InMinute(stamps, t) <= limit && InMinute(stamps + [ts], ts) <= limit
    ensures InMinute(stamps + [ts], t) <= limit
  {
    if ts <= t {
      AnEarlierMinuteHoldsNoMore(stamps + [ts], ts, t);
    } else {
      CountOneMore(stamps, ts, t - MS_PER_MINUTE, t);
    }
  }

  predicate NoneReduceOnly(ops: seq<Op>)
  {
    forall i :: 0 <= i < |ops| && ops[i].Check? ==> !ops[i].request.reduceOnly
  }

  lemma AcceptedStepIsWithinTheRate(limits: Limits, starting: real, kill: Kill, front: seq<Op>, r: Request, t: int)
    requires limits.maxOrdersPerMinute.Some? && Clocked(front, r.ts) && !r.reduceOnly
    requires CheckOrder(Run(Built(limits, starting, kill), front), r).breach == None
    requires InMinute(Accepted(Built(limits, starting, kill), front), t) <= limits.maxOrdersPerMinute.value
    ensures InMinute(Accepted(Built(limits, starting, kill), front) + [r.ts], t) <= limits.maxOrdersPerMinute.value
  {
    RunsStayWindowed(limits, starting, kill, front, r.ts);
    AcceptanceIsWithinTheRate(limits, starting, kill, front, r);
    OneMoreStampIsWithinTheRate(Accepted(Built(limits, starting, kill), front), r.ts, t, limits.maxOrdersPerMinute.value);
  }

  /** Without reduce-only orders no rolling minute ever holds more than the limit. */
  lemma {:induction false} NoMinuteExceedsTheRate(limits: Limits, starting: real, kill: Kill, ops: seq<Op>, now: int, t: int)
    requires LimitsBuild(limits) && limits.maxOrdersPerMinute.Some? && Clocked(ops, now) && NoneReduceOnly(ops)
    ensures InMinute(Accepted(Built(limits, starting, kill), ops), t) <= limits.maxOrdersPerMinute.value
  {
    if ops != [] {
      var b, front, op := Built(limits, starting, kill), ops[..|ops| - 1], ops[|ops| - 1];
      ClockedFront(ops, now);
      NoMinuteExceedsTheRate(limits, starting, kill, front, if op.Check? then op.request.ts else now, t);
      AcceptedGrows(b, ops);
      if op.Check? && Step(Run(b, front), op).breach == None {
        AcceptedStepIsWithinTheRate(limits, starting, kill, front, op.request, t);
      }
    }
  }

  predicate WithinTheRate(e: Engine, r: Request)
  {
    e.limits.maxOrdersPerMinute.Some? ==>
      |StampsAfter(e.submissions, r.ts - 60000)| + 1 <= e.limits.maxOrdersPerMinute.value
  }

  /** What is working on each side once the order joins. */
  function Buying(r: Request): real
  {
    r.working.buy + (if r.side == BUY then r.qty else 0.0)
  }

  function Selling(r: Request): real
  {
    r.working.sell + (if r.side == SELL then r.qty else 0.0)
  }

  /** The furthest those orders could take the position; of a leg, away from zero. */
  function FurthestWith(r: Request): real
  {
    match r.positionSide
    case BOTH => Max(Abs(r.position + Buying(r)), Abs(r.position - Selling(r)))
    case LONG => Abs(r.position) + Buying(r)
    case SHORT => Abs(r.position) + Selling(r)
  }

  function NotionalWith(r: Request): real
  {
    Times(FurthestWith(r) + r.otherSideExposure, r.price)
  }

  predicate WithinTheSizes(l: Limits, r: Request)
  {
    && (l.maxOpenOrders.Some? ==> r.openOrders + 1 <= l.maxOpenOrders.value)
    && (l.maxPositionNotional.Some? ==> NotionalWith(r) <= l.maxPositionNotional.value)
    && (l.maxLeverage.Some? ==>
          r.equity > 0.0 && NotionalWith(r) + r.otherNotional <= Times(l.maxLeverage.value, r.equity))
  }

  lemma ProjectedIsTheNotional(r: Request)
    ensures ProjectedNotional(r) == NotionalWith(r)
  {
  }

  /** No size is breached exactly within all three. */
  lemma SizesExactly(l: Limits, r: Request)
    ensures SizeBreached(l, r) == None <==> WithinTheSizes(l, r)
  {
    ProjectedIsTheNotional(r);
    if l.maxLeverage.Some? && r.equity > 0.0 {
      FractionExceeded(NotionalWith(r) + r.otherNotional, r.equity, l.maxLeverage.value);
    }
  }

  lemma FractionExceeded(x: real, y: real, f: real)
    requires y > 0.0
    ensures x / y > f <==> x > Times(f, y)
  {
    Quotient(x, y);
    TimesSymmetric(f, y);
    TimesLinear(y, x / y, f);
    TimesSign(y, x / y - f);
    TimesSign(y, f - x / y);
  }

  /** The rate refuses exactly at the limit, by the count `usage` reports. */
  lemma RateExactly(e: Engine, r: Request)
    requires Ascending(e.submissions)
    ensures CheckRate(e, r.ts).breach == None <==> WithinTheRate(e, r)
  {
    UsageCountsThePrunedWindow(e.submissions, r.ts - MS_PER_MINUTE);
  }

  lemma RateLeavesTheLimits(e: Engine, ts: int)
    ensures CheckRate(e, ts).breach == None ==> CheckRate(e, ts).engine.limits == e.limits
  {
  }

  /** While the run is not halted a reduce-only order always passes, and any other exactly
      when one more submission, one more open order, its notional and its leverage are all
      within their limits, by the count `usage` reports. */
  lemma AcceptedExactlyWithinEveryLimit(e: Engine, r: Request)
    requires Ascending(e.submissions)
    ensures CheckOrder(e, r).breach == None
       <==> !e.halted && (r.reduceOnly || (WithinTheRate(e, r) && WithinTheSizes(e.limits, r)))
  {
    RateExactly(e, r);
    RateLeavesTheLimits(e, r.ts);
    SizesExactly(e.limits, r);
  }
}
