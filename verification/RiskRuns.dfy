/** What the risk engine guarantees over every run, whatever the order its samples arrive
    in. */
module RiskRuns {
  import opened Money
  import opened Wrappers
  import opened Liquidation
  import opened Risk

  /** An order check, an equity sample, or any other trigger that halts the run. */
  datatype Op = Check(request: Request) | Observe(sample: Sample) | Trigger(breach: Breach, trigger: Option<Limit>)

  function Step(e: Engine, op: Op): Verdict
  {
    match op
    case Check(r) => CheckOrder(e, r)
    case Observe(s) => ObserveEquity(e, s)
    case Trigger(b, trigger) => Halt(e, b, trigger)
  }

  function Run(e: Engine, ops: seq<Op>): Engine
  {
    if ops == [] then e else Step(Run(e, ops[..|ops| - 1]), ops[|ops| - 1]).engine
  }

  /** The equity samples of a run, in the order they arrived. */
  function Samples(ops: seq<Op>): seq<Sample>
  {
    if ops == [] then []
    else
      var front, op := ops[..|ops| - 1], ops[|ops| - 1];
      if op.Observe? then Samples(front) + [op.sample] else Samples(front)
  }

  // ----------------------------------------------------------------------- the halt

  lemma StepKeepsAHalt(e: Engine, op: Op)
    requires e.halted
    ensures var e' := Step(e, op).engine; e'.halted && e'.haltBreach == e.haltBreach && e'.kill == e.kill
    ensures op.Check? ==> Step(e, op).breach == Some(Breach(HALTED, REJECT, op.request.ts))
  {
  }

  /** The switch keeps the first trigger it tripped on. */
  predicate Tripped(before: Kill, ts: int, trigger: Limit, after: Kill)
  {
    after == if before.trippedAt.Some? then before else Kill(Some(ts), Some(trigger))
  }

  /** Any other trigger halts a run that is not halted: on its breach, which is recorded, and
      under its own name for the switch or else the limit's. */
  lemma TriggersHalt(e: Engine, b: Breach, trigger: Option<Limit>)
    requires !e.halted
    ensures var v := Halt(e, b, trigger);
            && v.breach == Some(b) && v.engine.halted && v.engine.haltBreach == Some(b)
            && Tripped(e.kill, b.ts, if trigger.Some? then trigger.value else b.limit, v.engine.kill)
            && v.engine.breaches == (if |e.breaches| < 1000 then e.breaches + [b] else e.breaches)
            && v.engine.dropped == (if |e.breaches| < 1000 then e.dropped else e.dropped + 1)
  {
  }

  /** Once halted, nothing changes the halt record or the kill switch, and every order is
      refused. */
  lemma {:induction false} AHaltIsForGood(e: Engine, ops: seq<Op>, r: Request)
    requires e.halted
    ensures var e' := Run(e, ops); e'.halted && e'.haltBreach == e.haltBreach && e'.kill == e.kill
    ensures CheckOrder(Run(e, ops), r).breach == Some(Breach(HALTED, REJECT, r.ts))
  {
    if ops != [] {
      AHaltIsForGood(e, ops[..|ops| - 1], r);
      StepKeepsAHalt(Run(e, ops[..|ops| - 1]), ops[|ops| - 1]);
    }
    StepKeepsAHalt(Run(e, ops), Check(r));
  }

  /** The breaches kept are the first thousand recorded, the rest are counted, and refusals
      are counted whether kept or not. */
  ghost predicate KeepsTheFirst(e: Engine, all: seq<Breach>)
  {
    && (if |all| <= 1000 then e.breaches == all && e.dropped == 0
        else e.breaches == all[..1000] && e.dropped == |all| - 1000)
    && e.rejected == Refusals(all)
  }

  function Refusals(all: seq<Breach>): nat
  {
    if all == [] then 0 else Refusals(all[..|all| - 1]) + (if all[|all| - 1].action == REJECT then 1 else 0)
  }

  lemma RecordKeepsTheFirst(e: Engine, all: seq<Breach>, b: Breach)
    requires KeepsTheFirst(e, all)
    ensures KeepsTheFirst(Record(e, b), all + [b])
  {
    assert (all + [b])[..|all|] == all;
    if |all| >= MAX_BREACHES {
      assert (all + [b])[..MAX_BREACHES] == all[..MAX_BREACHES];
    }
  }

  /** Everything a run recorded: each refusal, and each trigger before the halt. */
  function Recorded(e: Engine, op: Op): seq<Breach>
  {
    var v := Step(e, op);
    if v.breach.Some? && (op.Check? || !e.halted) then [v.breach.value] else []
  }

  function AllRecorded(e: Engine, ops: seq<Op>): seq<Breach>
  {
    if ops == [] then []
    else AllRecorded(e, ops[..|ops| - 1]) + Recorded(Run(e, ops[..|ops| - 1]), ops[|ops| - 1])
  }

  lemma StepRecords(e: Engine, op: Op)
    ensures var v := Step(e, op);
            && |Recorded(e, op)| <= 1
            && (if Recorded(e, op) == [] then e else Record(e, Recorded(e, op)[0])).breaches == v.engine.breaches
            && (if Recorded(e, op) == [] then e else Record(e, Recorded(e, op)[0])).dropped == v.engine.dropped
            && (if Recorded(e, op) == [] then e else Record(e, Recorded(e, op)[0])).rejected == v.engine.rejected
  {
  }

  lemma StepKeepsTheFirst(e: Engine, all: seq<Breach>, op: Op)
    requires KeepsTheFirst(e, all)
    ensures KeepsTheFirst(Step(e, op).engine, all + Recorded(e, op))
  {
    var noted := Recorded(e, op);
    StepRecords(e, op);
    if noted == [] {
      assert all + noted == all;
    } else {
      RecordKeepsTheFirst(e, all, noted[0]);
      assert noted == [noted[0]];
    }
  }

  lemma {:induction false} TheFirstBreachesAreKept(limits: Limits, starting: real, kill: Kill, ops: seq<Op>)
    ensures var e := Built(limits, starting, kill); KeepsTheFirst(Run(e, ops), AllRecorded(e, ops))
  {
    var e := Built(limits, starting, kill);
    if ops != [] {
      TheFirstBreachesAreKept(limits, starting, kill, ops[..|ops| - 1]);
      StepKeepsTheFirst(Run(e, ops[..|ops| - 1]), AllRecorded(e, ops[..|ops| - 1]), ops[|ops| - 1]);
    }
  }

  // -------------------------------------------------------------------- peak and day

  /** One of the points of a sample: its equity, or the high of its band. */
  predicate IsPoint(s: Sample, x: real)
  {
    x == s.equity || s.high == Some(x)
  }

  /** `p` is the greatest point seen, or the starting equity. */
  ghost predicate IsPeak(starting: real, samples: seq<Sample>, p: real)
  {
    && starting <= p && (forall j, x :: 0 <= j < |samples| && IsPoint(samples[j], x) ==> x <= p)
    && (p == starting || exists j :: 0 <= j < |samples| && IsPoint(samples[j], p))
  }

  /** Sample `l` is the latest by timestamp, the last to arrive among equals. */
  ghost predicate IsLatest(samples: seq<Sample>, l: int)
  {
    && 0 <= l < |samples|
    && (forall j :: 0 <= j < |samples| ==> samples[j].ts <= samples[l].ts)
    && (forall j :: l < j < |samples| ==> samples[j].ts < samples[l].ts)
  }

  /** The latest sample by timestamp read `x` at `ms`. */
  ghost predicate LatestReads(samples: seq<Sample>, ms: int, x: real)
  {
    exists l :: IsLatest(samples, l) && samples[l].ts == ms && samples[l].equity == x
  }

  /** The UTC day a timestamp in milliseconds falls on. */
  function DayOf(ts: int): int
  {
    ts / 86400000
  }

  /** Sample `i` is the arrival that last advanced the UTC day. */
  ghost predicate IsAdvance(samples: seq<Sample>, i: int)
  {
    && 0 <= i < |samples|
    && (forall j :: 0 <= j < i ==> DayOf(samples[j].ts) < DayOf(samples[i].ts))
    && (forall j :: i <= j < |samples| ==> DayOf(samples[j].ts) <= DayOf(samples[i].ts))
  }

  /** The baseline a day advanced by sample `i` opens at: the latest sample seen before it,
      or its own equity when it is the first. */
  ghost predicate OpensAt(samples: seq<Sample>, i: int, x: real)
    requires 0 <= i < |samples|
  {
    if i == 0 then x == samples[0].equity else exists ms :: LatestReads(samples[..i], ms, x)
  }

  /** `day` is the latest day seen and `x` its baseline. */
  ghost predicate IsDay(samples: seq<Sample>, day: int, x: real)
  {
    exists i :: IsAdvance(samples, i) && DayOf(samples[i].ts) == day && OpensAt(samples, i, x)
  }

  ghost predicate TracksLatest(e: Engine, samples: seq<Sample>)
  {
    if samples == [] then e.lastEquity == None && e.lastEquityMs == None
    else e.lastEquity.Some? && e.lastEquityMs.Some? && LatestReads(samples, e.lastEquityMs.value, e.lastEquity.value)
  }

  ghost predicate TracksDay(e: Engine, samples: seq<Sample>)
  {
    if samples == [] then e.dayKey == None && e.dayOpen == e.starting
    else e.dayKey.Some? && IsDay(samples, e.dayKey.value, e.dayOpen)
  }

  lemma CrestIsTheGreatestPoint(s: Sample)
    ensures IsPoint(s, s.Crest()) && forall x :: IsPoint(s, x) ==> x <= s.Crest()
  {
  }

  lemma PeakFollows(e: Engine, samples: seq<Sample>, s: Sample)
    requires IsPeak(e.starting, samples, e.peak)
    ensures IsPeak(e.starting, samples + [s], Risk.Raised(e, s).peak)
  {
    var all := samples + [s];
    CrestIsTheGreatestPoint(s);
    assert all[|samples|] == s;
    if s.Crest() > e.peak {
      assert IsPoint(all[|samples|], s.Crest());
    } else if e.peak != e.starting {
      var j :| 0 <= j < |samples| && IsPoint(samples[j], e.peak);
      assert all[j] == samples[j];
    }
  }

  lemma LatestFollows(e: Engine, samples: seq<Sample>, s: Sample)
    requires TracksLatest(e, samples)
    ensures TracksLatest(RollDay(e, s), samples + [s])
  {
    var all := samples + [s];
    if samples == [] {
      assert IsLatest(all, 0);
    } else {
      var l :| IsLatest(samples, l) && samples[l].ts == e.lastEquityMs.value && samples[l].equity == e.lastEquity.value;
      if s.ts >= samples[l].ts {
        assert IsLatest(all, |samples|);
      } else {
        assert IsLatest(all, l);
      }
    }
  }

  lemma AdvanceFollows(samples: seq<Sample>, i: int, s: Sample)
    requires IsAdvance(samples, i)
    ensures IsAdvance(samples + [s], if s.Day() > samples[i].Day() then |samples| else i)
  {
  }

  lemma DayAdvances(samples: seq<Sample>, i: int, s: Sample, ms: int, x: real)
    requires IsAdvance(samples, i) && s.Day() > samples[i].Day() && LatestReads(samples, ms, x)
    ensures IsDay(samples + [s], s.Day(), x)
  {
    var all := samples + [s];
    AdvanceFollows(samples, i, s);
    assert all[..|samples|] == samples;
    assert OpensAt(all, |samples|, x);
  }

  lemma DayStays(samples: seq<Sample>, i: int, s: Sample, x: real)
    requires IsAdvance(samples, i) && s.Day() <= samples[i].Day() && OpensAt(samples, i, x)
    ensures IsDay(samples + [s], samples[i].Day(), x)
  {
    var all := samples + [s];
    AdvanceFollows(samples, i, s);
    assert all[..i] == samples[..i] && all[i] == samples[i];
    assert OpensAt(all, i, x);
  }

  lemma DayFollows(e: Engine, samples: seq<Sample>, s: Sample)
    requires TracksLatest(e, samples) && TracksDay(e, samples)
    ensures TracksDay(RollDay(e, s), samples + [s])
  {
    if samples == [] {
      assert IsAdvance([s], 0) && OpensAt([s], 0, s.equity);
      assert samples + [s] == [s];
    } else {
      var i :| IsAdvance(samples, i) && DayOf(samples[i].ts) == e.dayKey.value && OpensAt(samples, i, e.dayOpen);
      assert s.Day() == DayOf(s.ts) && samples[i].Day() == DayOf(samples[i].ts);
      if s.Day() > samples[i].Day() {
        DayAdvances(samples, i, s, e.lastEquityMs.value, e.lastEquity.value);
      } else {
        DayStays(samples, i, s, e.dayOpen);
      }
    }
  }

  lemma OtherStepsLeaveTheSamples(e: Engine, op: Op)
    requires !op.Observe?
    ensures var e' := Step(e, op).engine;
            && e'.starting == e.starting && e'.limits == e.limits && e'.peak == e.peak
            && e'.dayKey == e.dayKey && e'.dayOpen == e.dayOpen
            && e'.lastEquity == e.lastEquity && e'.lastEquityMs == e.lastEquityMs
  {
  }

  lemma SamplesMatter(e: Engine, s: Sample)
    ensures var e', r := ObserveEquity(e, s).engine, RollDay(e, s);
            && e'.starting == e.starting && e'.limits == e.limits && e'.peak == Risk.Raised(e, s).peak
            && e'.dayKey == r.dayKey && e'.dayOpen == r.dayOpen
            && e'.lastEquity == r.lastEquity && e'.lastEquityMs == r.lastEquityMs
  {
  }

  lemma SamplesGrow(ops: seq<Op>)
    requires ops != []
    ensures var op := ops[|ops| - 1];
            Samples(ops) == if op.Observe? then Samples(ops[..|ops| - 1]) + [op.sample] else Samples(ops[..|ops| - 1])
  {
  }

  ghost predicate Tracks(e: Engine, samples: seq<Sample>)
  {
    IsPeak(e.starting, samples, e.peak) && TracksLatest(e, samples) && TracksDay(e, samples)
  }

  lemma StepTracks(e: Engine, samples: seq<Sample>, op: Op)
    requires Tracks(e, samples)
    ensures Tracks(Step(e, op).engine, if op.Observe? then samples + [op.sample] else samples)
  {
    if op.Observe? {
      SamplesMatter(e, op.sample);
      PeakFollows(e, samples, op.sample);
      LatestFollows(e, samples, op.sample);
      DayFollows(e, samples, op.sample);
    } else {
      OtherStepsLeaveTheSamples(e, op);
    }
  }

  /** In every run, whatever the arrival order: the peak is the greatest crest seen, the day
      is the latest seen, and its baseline is the latest-by-timestamp sample seen before the
      arrival that advanced the day (initially the first sample's own equity). */
  lemma {:induction false} SamplesAreTracked(limits: Limits, starting: real, kill: Kill, ops: seq<Op>)
    ensures var e := Run(Built(limits, starting, kill), ops);
            && e.limits == limits && e.starting == starting
            && IsPeak(starting, Samples(ops), e.peak)
            && (Samples(ops) != [] ==> e.dayKey.Some? && IsDay(Samples(ops), e.dayKey.value, e.dayOpen))
            && Tracks(e, Samples(ops))
  {
    if ops != [] {
      var front, op := ops[..|ops| - 1], ops[|ops| - 1];
      SamplesAreTracked(limits, starting, kill, front);
      SamplesGrow(ops);
      var e := Run(Built(limits, starting, kill), front);
      StepTracks(e, Samples(front), op);
      if op.Observe? { SamplesMatter(e, op.sample); } else { OtherStepsLeaveTheSamples(e, op); }
    }
  }

  lemma StepNeverTakesTheDayBack(e: Engine, op: Op)
    requires e.dayKey.Some?
    ensures Step(e, op).engine.dayKey.Some? && Step(e, op).engine.dayKey.value >= e.dayKey.value
  {
    if op.Observe? { SamplesMatter(e, op.sample); } else { OtherStepsLeaveTheSamples(e, op); }
  }

  /** Over a run the day key, once set, never goes back, whatever the order of the samples. */
  lemma {:induction false} DayNeverGoesBack(e: Engine, ops: seq<Op>, n: nat)
    requires n <= |ops| && Run(e, ops[..n]).dayKey.Some?
    ensures Run(e, ops).dayKey.Some? && Run(e, ops).dayKey.value >= Run(e, ops[..n]).dayKey.value
  {
    if n == |ops| {
      assert ops[..n] == ops;
    } else {
      var front := ops[..|ops| - 1];
      assert front[..n] == ops[..n];
      DayNeverGoesBack(e, front, n);
      StepNeverTakesTheDayBack(Run(e, front), ops[|ops| - 1]);
    }
  }

  // ------------------------------------------------------------- the first limit met

  /** The last sample is at the floor: the starting equity's fraction, or below it. */
  predicate AtTheFloor(l: Limits, starting: real, samples: seq<Sample>)
    requires samples != []
  {
    l.minEquityPct.Some? && samples[|samples| - 1].equity <= Times(starting, l.minEquityPct.value)
  }

  /** Since its day opened the account has lost that fraction of the starting equity. */
  ghost predicate LostOnTheDay(l: Limits, starting: real, samples: seq<Sample>)
    requires samples != []
  {
    && l.maxDailyLossPct.Some?
    && exists day, base :: IsDay(samples, day, base)
                           && base - samples[|samples| - 1].equity >= Times(starting, l.maxDailyLossPct.value)
  }

  /** It has fallen that fraction of a positive peak below the peak. */
  ghost predicate DrawnDown(l: Limits, starting: real, samples: seq<Sample>)
    requires samples != []
  {
    && l.maxDrawdownPct.Some?
    && exists peak :: IsPeak(starting, samples, peak) && peak > 0.0
                      && peak - samples[|samples| - 1].equity >= Times(l.maxDrawdownPct.value, peak)
  }

  /** Equity limit `hit` is the one the last of the samples meets, judged on all of them:
      the floor before the day's loss, and that before the drawdown. */
  ghost predicate Meets(l: Limits, starting: real, samples: seq<Sample>, hit: Limit)
  {
    && samples != []
    && match hit
       case MIN_EQUITY => AtTheFloor(l, starting, samples)
       case MAX_DAILY_LOSS => !AtTheFloor(l, starting, samples) && LostOnTheDay(l, starting, samples)
       case MAX_DRAWDOWN =>
         !AtTheFloor(l, starting, samples) && !LostOnTheDay(l, starting, samples) && DrawnDown(l, starting, samples)
       case _ => false
  }

  lemma PeakIsUnique(starting: real, samples: seq<Sample>, p: real, q: real)
    requires IsPeak(starting, samples, p) && IsPeak(starting, samples, q)
    ensures p == q
  {
  }

  lemma LatestIsUnique(samples: seq<Sample>, m: int, x: real, n: int, y: real)
    requires LatestReads(samples, m, x) && LatestReads(samples, n, y)
    ensures x == y
  {
    var l :| IsLatest(samples, l) && samples[l].ts == m && samples[l].equity == x;
    var k :| IsLatest(samples, k) && samples[k].ts == n && samples[k].equity == y;
    assert samples[l].ts <= samples[k].ts <= samples[l].ts;
  }

  lemma AdvanceIsUnique(samples: seq<Sample>, i: int, j: int)
    requires IsAdvance(samples, i) && IsAdvance(samples, j)
    ensures i == j
  {
    assert DayOf(samples[i].ts) <= DayOf(samples[j].ts) <= DayOf(samples[i].ts);
  }

  lemma OpeningIsUnique(samples: seq<Sample>, i: int, x: real, y: real)
    requires 0 <= i < |samples| && OpensAt(samples, i, x) && OpensAt(samples, i, y)
    ensures x == y
  {
    if i > 0 {
      var m :| LatestReads(samples[..i], m, x);
      var n :| LatestReads(samples[..i], n, y);
      LatestIsUnique(samples[..i], m, x, n, y);
    }
  }

  lemma DayIsUnique(samples: seq<Sample>, day: int, x: real, other: int, y: real)
    requires IsDay(samples, day, x) && IsDay(samples, other, y)
    ensures x == y
  {
    var i :| IsAdvance(samples, i) && DayOf(samples[i].ts) == day && OpensAt(samples, i, x);
    var j :| IsAdvance(samples, j) && DayOf(samples[j].ts) == other && OpensAt(samples, j, y);
    AdvanceIsUnique(samples, i, j);
    OpeningIsUnique(samples, i, x, y);
  }

  /** The day's loss and the drawdown are what the tracked baseline and peak say. */
  lemma TrackedFiguresDecide(e: Engine, samples: seq<Sample>)
    requires Tracks(e, samples) && samples != []
    ensures var equity := samples[|samples| - 1].equity;
            && (LostOnTheDay(e.limits, e.starting, samples)
                <==> e.limits.maxDailyLossPct.Some? && e.dayOpen - equity >= Times(e.starting, e.limits.maxDailyLossPct.value))
            && (DrawnDown(e.limits, e.starting, samples)
                <==> e.limits.maxDrawdownPct.Some? && e.peak > 0.0 && e.peak - equity >= Times(e.limits.maxDrawdownPct.value, e.peak))
  {
    var equity := samples[|samples| - 1].equity;
    if LostOnTheDay(e.limits, e.starting, samples) {
      var day, base :| IsDay(samples, day, base) && base - equity >= Times(e.starting, e.limits.maxDailyLossPct.value);
      DayIsUnique(samples, day, base, e.dayKey.value, e.dayOpen);
    }
    if DrawnDown(e.limits, e.starting, samples) {
      var peak :| IsPeak(e.starting, samples, peak) && peak > 0.0 && peak - equity >= Times(e.limits.maxDrawdownPct.value, peak);
      PeakIsUnique(e.starting, samples, peak, e.peak);
    }
  }

  lemma FractionOf(x: real, y: real, f: real)
    requires y > 0.0
    ensures x / y >= f <==> x >= Times(f, y)
  {
    var r := x / y;
    Quotient(x, y);
    TimesSymmetric(f, y);
    TimesLinear(y, r, f);
    TimesSign(y, r - f);
    TimesSign(y, f - r);
  }

  lemma MeetsIsWhatTheEngineSees(e: Engine, samples: seq<Sample>, hit: Limit)
    requires Tracks(e, samples) && samples != []
    ensures Meets(e.limits, e.starting, samples, hit)
       <==> EquityBreached(e.limits, e.starting, e.dayOpen, e.peak, samples[|samples| - 1].equity) == Some(hit)
  {
    TrackedFiguresDecide(e, samples);
    if e.peak > 0.0 && e.limits.maxDrawdownPct.Some? {
      FractionOf(e.peak - samples[|samples| - 1].equity, e.peak, e.limits.maxDrawdownPct.value);
    }
  }

  /** The limit sample `j` meets when it arrives. */
  ghost predicate MeetsAt(l: Limits, starting: real, samples: seq<Sample>, j: int, hit: Limit)
  {
    0 <= j < |samples| && Meets(l, starting, samples[..j + 1], hit)
  }

  /** Sample `i` is the first to meet an equity limit, and `hit` is the limit. */
  ghost predicate FirstMet(l: Limits, starting: real, samples: seq<Sample>, i: int, hit: Limit)
  {
    MeetsAt(l, starting, samples, i, hit) && forall j, h :: j < i ==> !MeetsAt(l, starting, samples, j, h)
  }

  ghost predicate NoneMet(l: Limits, starting: real, samples: seq<Sample>)
  {
    forall j, h :: !MeetsAt(l, starting, samples, j, h)
  }

  /** What the halt record must be after the samples. */
  ghost predicate HaltsRightly(e: Engine, kill: Kill, samples: seq<Sample>)
  {
    if e.halted then
      exists i, hit :: FirstMet(e.limits, e.starting, samples, i, hit)
                       && e.haltBreach == Some(Breach(hit, HALT, samples[i].ts))
                       && Tripped(kill, samples[i].ts, hit, e.kill)
    else NoneMet(e.limits, e.starting, samples) && e.kill == kill && e.haltBreach == None
  }

  lemma EarlierMeetingsStand(l: Limits, starting: real, samples: seq<Sample>, s: Sample, j: int, hit: Limit)
    requires j < |samples|
    ensures MeetsAt(l, starting, samples + [s], j, hit) <==> MeetsAt(l, starting, samples, j, hit)
  {
    if 0 <= j { assert (samples + [s])[..j + 1] == samples[..j + 1]; }
  }

  lemma FirstStaysFirst(l: Limits, starting: real, samples: seq<Sample>, s: Sample, i: int, hit: Limit)
    requires FirstMet(l, starting, samples, i, hit)
    ensures FirstMet(l, starting, samples + [s], i, hit)
  {
    EarlierMeetingsStand(l, starting, samples, s, i, hit);
    forall j, h | j < i
      ensures !MeetsAt(l, starting, samples + [s], j, h)
    {
      EarlierMeetingsStand(l, starting, samples, s, j, h);
    }
  }

  lemma OneMoreSample(l: Limits, starting: real, samples: seq<Sample>, s: Sample, met: Option<Limit>)
    requires NoneMet(l, starting, samples)
    requires forall h :: Meets(l, starting, samples + [s], h) <==> met == Some(h)
    ensures if met.Some? then FirstMet(l, starting, samples + [s], |samples|, met.value)
            else NoneMet(l, starting, samples + [s])
  {
    var all := samples + [s];
    assert all[..|samples| + 1] == all;
    forall j, h | j < |samples|
      ensures !MeetsAt(l, starting, all, j, h)
    {
      EarlierMeetingsStand(l, starting, samples, s, j, h);
    }
  }

  /** The engine at the moment the limits are checked, and what the check finds. */
  lemma SampleVerdict(e: Engine, s: Sample, seen: Engine)
    requires seen == Risk.Raised(RollDay(e, s), s)
    ensures var met := EquityBreached(e.limits, e.starting, seen.dayOpen, seen.peak, s.equity);
            var e' := ObserveEquity(e, s).engine;
            && e'.limits == e.limits && e'.starting == e.starting
            && (e.halted || met == None ==> e'.halted == e.halted && e'.haltBreach == e.haltBreach && e'.kill == e.kill)
            && (!e.halted && met.Some? ==>
                  && e'.halted && e'.haltBreach == Some(Breach(met.value, HALT, s.ts))
                  && Tripped(e.kill, s.ts, met.value, e'.kill))
  {
  }

  lemma SeenTracks(e: Engine, samples: seq<Sample>, s: Sample, seen: Engine)
    requires Tracks(e, samples) && seen == Risk.Raised(RollDay(e, s), s)
    ensures Tracks(seen, samples + [s]) && seen.limits == e.limits && seen.starting == e.starting
  {
    var rolled := RollDay(e, s);
    assert IsPeak(seen.starting, samples + [s], seen.peak) by { PeakFollows(e, samples, s); }
    assert TracksLatest(rolled, samples + [s]) by { LatestFollows(e, samples, s); }
    assert TracksDay(rolled, samples + [s]) by { DayFollows(e, samples, s); }
    PeakIsApart(rolled, seen.peak, samples + [s]);
  }

  lemma PeakIsApart(e: Engine, peak: real, samples: seq<Sample>)
    ensures TracksLatest(e.(peak := peak), samples) <==> TracksLatest(e, samples)
    ensures TracksDay(e.(peak := peak), samples) <==> TracksDay(e, samples)
  {
  }

  lemma SampleMeets(e: Engine, samples: seq<Sample>, s: Sample, seen: Engine)
    requires Tracks(e, samples) && seen == Risk.Raised(RollDay(e, s), s)
    ensures var met := EquityBreached(e.limits, e.starting, seen.dayOpen, seen.peak, s.equity);
            forall h :: Meets(e.limits, e.starting, samples + [s], h) <==> met == Some(h)
  {
    SeenTracks(e, samples, s, seen);
    forall h
      ensures Meets(e.limits, e.starting, samples + [s], h)
         <==> EquityBreached(e.limits, e.starting, seen.dayOpen, seen.peak, s.equity) == Some(h)
    {
      MeetsIsWhatTheEngineSees(seen, samples + [s], h);
    }
  }

  lemma SampleHaltsRightly(e: Engine, kill: Kill, samples: seq<Sample>, s: Sample)
    requires Tracks(e, samples) && HaltsRightly(e, kill, samples)
    ensures HaltsRightly(ObserveEquity(e, s).engine, kill, samples + [s])
  {
    var seen := Risk.Raised(RollDay(e, s), s);
    SampleVerdict(e, s, seen);
    if e.halted {
      var i, hit :| FirstMet(e.limits, e.starting, samples, i, hit)
                    && e.haltBreach == Some(Breach(hit, HALT, samples[i].ts)) && Tripped(kill, samples[i].ts, hit, e.kill);
      FirstStaysFirst(e.limits, e.starting, samples, s, i, hit);
    } else {
      var met := EquityBreached(e.limits, e.starting, seen.dayOpen, seen.peak, s.equity);
      SampleMeets(e, samples, s, seen);
      OneMoreSample(e.limits, e.starting, samples, s, met);
    }
  }

  lemma ChecksHaltNothing(e: Engine, kill: Kill, samples: seq<Sample>, r: Request)
    requires HaltsRightly(e, kill, samples)
    ensures HaltsRightly(CheckOrder(e, r).engine, kill, samples)
  {
    var e' := CheckOrder(e, r).engine;
    assert e'.halted == e.halted && e'.haltBreach == e.haltBreach && e'.kill == e.kill;
    assert e'.limits == e.limits && e'.starting == e.starting;
  }

  lemma NothingIsMetBeforeASample(l: Limits, starting: real)
    ensures NoneMet(l, starting, [])
  {
  }

  /** With no other trigger the run halts at the first sample that meets an equity limit,
      on that limit, and not before. */
  lemma {:induction false} HaltsAtTheFirstLimitMet(limits: Limits, starting: real, kill: Kill, ops: seq<Op>)
    requires forall i :: 0 <= i < |ops| ==> !ops[i].Trigger?
    ensures HaltsRightly(Run(Built(limits, starting, kill), ops), kill, Samples(ops))
  {
    if ops == [] {
      NothingIsMetBeforeASample(limits, starting);
    } else {
      var front, op := ops[..|ops| - 1], ops[|ops| - 1];
      HaltsAtTheFirstLimitMet(limits, starting, kill, front);
      SamplesAreTracked(limits, starting, kill, front);
      SamplesGrow(ops);
      var e := Run(Built(limits, starting, kill), front);
      if op.Observe? {
        SampleHaltsRightly(e, kill, Samples(front), op.sample);
      } else {
        ChecksHaltNothing(e, kill, Samples(front), op.request);
      }
    }
  }
}
