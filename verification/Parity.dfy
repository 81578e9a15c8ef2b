/** Matching the fills of two logs (perplab/analytics/parity.py:216-278,
    perplab/analytics/parity.py:594-766, perplab/analytics/parity.py:818-882). */
module Parity {
  import opened Wrappers
  import opened Liquidation
  import opened Exposure

  const FILL_MATCH_WINDOW_MS := 2000
  const BPS := 10000.0

  datatype Identity = Identity(orderId: string, fillNo: nat)

  datatype FillRecord = FillRecord(
    ts: int, seqNo: int, symbol: string, side: Side, qty: real, price: real, orderId: string, fillNo: nat,
    tag: Option<string>)
  {
    /** The engine's own name for the fill, if the log recorded one. */
    function Name(): Option<Identity>
    {
      if orderId == "" then None else Some(Identity(orderId, fillNo))
    }

    function OrderKey(): (string, Side, Option<string>)
    {
      (symbol, side, tag)
    }

    function MatchKey(): (string, Side, real)
    {
      (symbol, side, qty)
    }
  }

  predicate Forwards(log: seq<FillRecord>)
  {
    forall i, j :: 0 <= i < j < |log| ==> log[i].ts <= log[j].ts
  }

  predicate Priced(log: seq<FillRecord>)
  {
    forall f :: f in log ==> f.price > 0.0
  }

  // ------------------------------------------------------------------ reading a log

  /** A `FILL` line as it is read, before its increment is known. */
  datatype Line = Line(
    ts: int, seqNo: int, symbol: string, side: Side, qty: real, price: real, orderId: string, tag: Option<string>)

  datatype ReadError = NonPositivePrice | Backwards

  /** How many of the lines so far belong to the order. */
  function Increments(lines: seq<Line>, orderId: string): nat
  {
    if lines == [] then 0
    else Increments(lines[..|lines| - 1], orderId) + (if lines[|lines| - 1].orderId == orderId then 1 else 0)
  }

  function RecordOf(lines: seq<Line>, i: nat): FillRecord
    requires i < |lines|
  {
    var l := lines[i];
    FillRecord(l.ts, l.seqNo, l.symbol, l.side, l.qty, l.price, l.orderId, Increments(lines[..i], l.orderId), l.tag)
  }

  /** The lines of an order among the first `n`. */
  function LinesOf(lines: seq<Line>, n: nat, orderId: string): set<int>
    requires n <= |lines|
  {
    set j | 0 <= j < n && lines[j].orderId == orderId
  }

  lemma {:induction false} IncrementsCountTheLines(lines: seq<Line>, n: nat, orderId: string)
    requires n <= |lines|
    ensures Increments(lines[..n], orderId) == |LinesOf(lines, n, orderId)|
  {
    if n == 0 {
      assert LinesOf(lines, 0, orderId) == {};
    } else {
      IncrementsCountTheLines(lines, n - 1, orderId);
      assert lines[..n][..n - 1] == lines[..n - 1];
      var before := LinesOf(lines, n - 1, orderId);
      assert LinesOf(lines, n, orderId) == if lines[n - 1].orderId == orderId then before + {n - 1} else before;
    }
  }

  /** A record carries its line, numbered by the earlier lines of its order. */
  lemma RecordCarriesItsLine(lines: seq<Line>, i: nat)
    requires i < |lines|
    ensures var r, l := RecordOf(lines, i), lines[i];
            && r.ts == l.ts && r.seqNo == l.seqNo && r.symbol == l.symbol && r.side == l.side && r.qty == l.qty
            && r.price == l.price && r.orderId == l.orderId && r.tag == l.tag
            && r.fillNo == |LinesOf(lines, i, l.orderId)|
  {
    IncrementsCountTheLines(lines, i, lines[i].orderId);
  }

  /** Two fills are named alike exactly when both carry one order id, at one increment. */
  lemma NamedAlikeExactly(f: FillRecord, g: FillRecord)
    ensures f.Name().Some? && f.Name() == g.Name() <==> f.orderId != "" && f.orderId == g.orderId && f.fillNo == g.fillNo
  {
  }

  /** No two named fills of a log share an identity. */
  predicate UniqueNames(log: seq<FillRecord>)
  {
    forall i, j :: 0 <= i < j < |log| && log[i].Name().Some? ==> log[i].Name() != log[j].Name()
  }

  lemma {:induction false} IncrementsGrow(lines: seq<Line>, i: nat, j: nat, orderId: string)
    requires i <= j <= |lines|
    ensures Increments(lines[..i], orderId) <= Increments(lines[..j], orderId)
    ensures i < j && lines[i].orderId == orderId ==> Increments(lines[..i], orderId) < Increments(lines[..j], orderId)
    decreases j
  {
    if i < j {
      IncrementsGrow(lines, i, j - 1, orderId);
      assert lines[..j][..j - 1] == lines[..j - 1];
    }
  }

  /** Numbering the increments makes every identity unique within its log. */
  lemma NumberedNamesAreUnique(lines: seq<Line>, log: seq<FillRecord>)
    requires |log| == |lines| && forall i :: 0 <= i < |lines| ==> log[i] == RecordOf(lines, i)
    ensures UniqueNames(log)
  {
    forall i, j | 0 <= i < j < |log| && log[i].Name().Some?
      ensures log[i].Name() != log[j].Name()
    {
      IncrementsGrow(lines, i, j, lines[i].orderId);
    }
  }

  /** Every price is positive and time never runs backwards. */
  predicate Readable(lines: seq<Line>)
  {
    && (forall i :: 0 <= i < |lines| ==> lines[i].price > 0.0)
    && forall i, j :: 0 <= i < j < |lines| ==> lines[i].ts <= lines[j].ts
  }

  /** The first `n` lines are read into `log`, and `increments` counts them by order. */
  ghost predicate ReadUpTo(lines: seq<Line>, n: nat, log: seq<FillRecord>, increments: map<string, nat>)
    requires n <= |lines|
  {
    && |log| == n && (forall i :: 0 <= i < n ==> log[i] == RecordOf(lines, i))
    && Readable(lines[..n])
    && forall id :: (if id in increments then increments[id] else 0) == Increments(lines[..n], id)
  }

  lemma ReadableOneMore(lines: seq<Line>, n: nat)
    requires n < |lines| && Readable(lines[..n]) && lines[n].price > 0.0 && (n > 0 ==> lines[n].ts >= lines[n - 1].ts)
    ensures Readable(lines[..n + 1])
  {
    var front := lines[..n];
    assert forall i :: 0 <= i < n ==> lines[..n + 1][i] == front[i];
    assert n > 0 ==> front[n - 1] == lines[n - 1];
  }

  lemma IncrementsOneMore(lines: seq<Line>, n: nat, id: string)
    requires n < |lines|
    ensures Increments(lines[..n + 1], id) == Increments(lines[..n], id) + (if lines[n].orderId == id then 1 else 0)
  {
    assert lines[..n + 1][..n] == lines[..n];
  }

  lemma ReadOneMore(lines: seq<Line>, n: nat, log: seq<FillRecord>, increments: map<string, nat>)
    requires n < |lines| && ReadUpTo(lines, n, log, increments)
    requires lines[n].price > 0.0 && (n > 0 ==> lines[n].ts >= log[n - 1].ts)
    ensures var id := lines[n].orderId;
            var fillNo := if id in increments then increments[id] else 0;
            fillNo == Increments(lines[..n], id) && ReadUpTo(lines, n + 1, log + [RecordOf(lines, n)], increments[id := fillNo + 1])
  {
    ReadableOneMore(lines, n);
    forall id
      ensures Increments(lines[..n + 1], id) == Increments(lines[..n], id) + (if lines[n].orderId == id then 1 else 0)
    {
      IncrementsOneMore(lines, n, id);
    }
  }

  lemma UnreadableFrom(lines: seq<Line>, n: nat)
    requires n < |lines| && (lines[n].price <= 0.0 || (n > 0 && lines[n].ts < lines[n - 1].ts))
    ensures !Readable(lines)
  {
  }

  /** `_iter_fills` with `_fill_record`: refuses a log that runs backwards, and numbers the
      increments of each order. */
  method ReadFills(lines: seq<Line>) returns (r: Outcome<seq<FillRecord>, ReadError>)
    ensures r.Ok? <==> Readable(lines)
    ensures r.Ok? ==> |r.value| == |lines| && forall i :: 0 <= i < |lines| ==> r.value[i] == RecordOf(lines, i)
    ensures r.Ok? ==> Forwards(r.value) && Priced(r.value) && UniqueNames(r.value)
  {
    var log: seq<FillRecord> := [];
    var increments: map<string, nat> := map[];
    for n := 0 to |lines|
      invariant ReadUpTo(lines, n, log, increments)
    {
      var l := lines[n];
      if l.price <= 0.0 {
        UnreadableFrom(lines, n);
        return Raised(NonPositivePrice);
      }
      var fillNo := if l.orderId in increments then increments[l.orderId] else 0;
      if n > 0 && l.ts < log[n - 1].ts {
        UnreadableFrom(lines, n);
        return Raised(Backwards);
      }
      ReadOneMore(lines, n, log, increments);
      increments := increments[l.orderId := fillNo + 1];
      log := log + [FillRecord(l.ts, l.seqNo, l.symbol, l.side, l.qty, l.price, l.orderId, fillNo, l.tag)];
    }
    assert lines[..|lines|] == lines;
    NumberedNamesAreUnique(lines, log);
    return Ok(log);
  }

  // ----------------------------------------------------- fills that carry no identity

  /** The quadratic definition: same key, at most the window apart. */
  predicate Rival(p: FillRecord, s: FillRecord)
  {
    p.MatchKey() == s.MatchKey() && p.ts - FILL_MATCH_WINDOW_MS <= s.ts <= p.ts + FILL_MATCH_WINDOW_MS
  }

  /** The same symbol, side and quantity, and at most two seconds between them. */
  lemma RivalsExactly(p: FillRecord, s: FillRecord)
    ensures Rival(p, s)
       <==> p.symbol == s.symbol && p.side == s.side && p.qty == s.qty && -2000 <= p.ts - s.ts <= 2000
  {
  }

  /** Each is the other's only candidate. */
  ghost predicate Mutual(paper: seq<FillRecord>, shadow: seq<FillRecord>, i: int, j: int)
  {
    && 0 <= i < |paper| && 0 <= j < |shadow| && Rival(paper[i], shadow[j])
    && (forall k :: 0 <= k < |shadow| && Rival(paper[i], shadow[k]) ==> k == j)
    && (forall k :: 0 <= k < |paper| && Rival(paper[k], shadow[j]) ==> k == i)
  }

  /** The rivals of a paper fill among the first `n` shadow fills, in order. */
  function RivalsOf(p: FillRecord, shadow: seq<FillRecord>, n: nat): seq<nat>
    requires n <= |shadow|
    decreases n
  {
    if n == 0 then []
    else if Rival(p, shadow[n - 1]) then RivalsOf(p, shadow, n - 1) + [n - 1]
    else RivalsOf(p, shadow, n - 1)
  }

  /** How many of the first `n` paper fills claim a shadow fill. */
  function ClaimsOn(s: FillRecord, paper: seq<FillRecord>, n: nat): nat
    requires n <= |paper|
    decreases n
  {
    if n == 0 then 0 else ClaimsOn(s, paper, n - 1) + (if Rival(paper[n - 1], s) then 1 else 0)
  }

  lemma {:induction false} RivalsAreTheRivals(p: FillRecord, shadow: seq<FillRecord>, n: nat)
    requires n <= |shadow|
    ensures var r := RivalsOf(p, shadow, n);
            && (forall k :: k in r <==> 0 <= k < n && Rival(p, shadow[k]))
            && (forall a :: 0 <= a < |r| ==> r[a] < n && Rival(p, shadow[r[a]]))
            && (forall a, b :: 0 <= a < b < |r| ==> r[a] < r[b])
    decreases n
  {
    if n > 0 { RivalsAreTheRivals(p, shadow, n - 1); }
  }

  lemma {:induction false} OneClaim(s: FillRecord, paper: seq<FillRecord>, n: nat, i: nat)
    requires i < n <= |paper| && Rival(paper[i], s)
    ensures ClaimsOn(s, paper, n) >= 1
    ensures ClaimsOn(s, paper, n) == 1 <==> forall k :: 0 <= k < n && Rival(paper[k], s) ==> k == i
    decreases n
  {
    if i < n - 1 {
      OneClaim(s, paper, n - 1, i);
    } else {
      NoClaim(s, paper, n - 1);
    }
  }

  lemma {:induction false} NoClaim(s: FillRecord, paper: seq<FillRecord>, n: nat)
    requires n <= |paper|
    ensures ClaimsOn(s, paper, n) == 0 <==> forall k :: 0 <= k < n ==> !Rival(paper[k], s)
    decreases n
  {
    if n > 0 { NoClaim(s, paper, n - 1); }
  }

  lemma {:induction false} NoRivals(p: FillRecord, shadow: seq<FillRecord>, m: nat, n: nat)
    requires m <= n <= |shadow|
    requires forall k :: m <= k < n ==> !Rival(p, shadow[k])
    ensures RivalsOf(p, shadow, n) == RivalsOf(p, shadow, m)
  {
    if m < n { NoRivals(p, shadow, m, n - 1); }
  }

  /** What the matcher takes for paper fill `i`. */
  function Chosen(paper: seq<FillRecord>, shadow: seq<FillRecord>, i: nat): (c: Option<nat>)
    requires i < |paper|
    ensures c.Some? ==> c.value < |shadow|
  {
    var c := RivalsOf(paper[i], shadow, |shadow|);
    RivalsAreTheRivals(paper[i], shadow, |shadow|);
    if |c| == 1 && ClaimsOn(shadow[c[0]], paper, |paper|) == 1 then Some(c[0]) else None
  }

  lemma ChosenMeansMutual(paper: seq<FillRecord>, shadow: seq<FillRecord>, i: nat, j: nat)
    requires i < |paper| && Chosen(paper, shadow, i) == Some(j)
    ensures Mutual(paper, shadow, i, j)
  {
    var c := RivalsOf(paper[i], shadow, |shadow|);
    RivalsAreTheRivals(paper[i], shadow, |shadow|);
    assert c == [j] && j in c;
    OneClaim(shadow[j], paper, |paper|, i);
    assert forall k :: k in c ==> k == j;
  }

  lemma MutualIsChosen(paper: seq<FillRecord>, shadow: seq<FillRecord>, i: nat, j: nat)
    requires Mutual(paper, shadow, i, j)
    ensures Chosen(paper, shadow, i) == Some(j)
  {
    var c := RivalsOf(paper[i], shadow, |shadow|);
    RivalsAreTheRivals(paper[i], shadow, |shadow|);
    assert j in c;
    assert c[0] == j == c[|c| - 1];
    OneClaim(shadow[j], paper, |paper|, i);
  }

  /** The matcher takes exactly the pairs that are each other's only candidate. */
  lemma ChosenExactlyWhenMutual(paper: seq<FillRecord>, shadow: seq<FillRecord>, i: nat, j: nat)
    requires i < |paper|
    ensures Chosen(paper, shadow, i) == Some(j) <==> Mutual(paper, shadow, i, j)
  {
    if Chosen(paper, shadow, i) == Some(j) { ChosenMeansMutual(paper, shadow, i, j); }
    if Mutual(paper, shadow, i, j) { MutualIsChosen(paper, shadow, i, j); }
  }

  /** The pairs taken from the first `n` unnamed paper fills, in order. */
  function Taken(paper: seq<FillRecord>, shadow: seq<FillRecord>, n: nat): seq<Pair>
    requires n <= |paper|
    decreases n
  {
    if n == 0 then []
    else
      var c := Chosen(paper, shadow, n - 1);
      if c.Some? then Taken(paper, shadow, n - 1) + [Pair(paper[n - 1], shadow[c.value])] else Taken(paper, shadow, n - 1)
  }

  function LeftInPaper(paper: seq<FillRecord>, shadow: seq<FillRecord>, n: nat): seq<FillRecord>
    requires n <= |paper|
    decreases n
  {
    if n == 0 then []
    else if Chosen(paper, shadow, n - 1).Some? then LeftInPaper(paper, shadow, n - 1)
    else LeftInPaper(paper, shadow, n - 1) + [paper[n - 1]]
  }

  function TakenFrom(paper: seq<FillRecord>, shadow: seq<FillRecord>, n: nat): set<nat>
    requires n <= |paper|
    decreases n
  {
    if n == 0 then {}
    else
      var c := Chosen(paper, shadow, n - 1);
      if c.Some? then TakenFrom(paper, shadow, n - 1) + {c.value} else TakenFrom(paper, shadow, n - 1)
  }

  /** The shadow fills among the first `n` that no index in `taken` names. */
  function LeftInShadow(shadow: seq<FillRecord>, taken: set<nat>, n: nat): seq<FillRecord>
    requires n <= |shadow|
    decreases n
  {
    if n == 0 then []
    else if n - 1 in taken then LeftInShadow(shadow, taken, n - 1)
    else LeftInShadow(shadow, taken, n - 1) + [shadow[n - 1]]
  }

  datatype Pair = Pair(paper: FillRecord, shadow: FillRecord)

  function Papers(pairs: seq<Pair>): seq<FillRecord>
  {
    seq(|pairs|, i requires 0 <= i < |pairs| => pairs[i].paper)
  }

  function Shadows(pairs: seq<Pair>): seq<FillRecord>
  {
    seq(|pairs|, i requires 0 <= i < |pairs| => pairs[i].shadow)
  }

  /** `_score`: the deviation of one pair, signed against the trader. */
  function Deviation(p: Pair): real
    requires p.paper.price > 0.0
  {
    (p.shadow.price - p.paper.price) / p.paper.price * BPS * (if p.paper.side == BUY then 1.0 else -1.0)
  }

  /** The deviation is what the shadow fill cost the trader over the paper fill, in hundredths
      of a percent of the paper price: positive when a purchase was dearer or a sale cheaper. */
  lemma DeviationIsAgainstTheTrader(p: Pair)
    requires p.paper.price > 0.0
    ensures var worse := if p.paper.side == BUY then p.shadow.price - p.paper.price else p.paper.price - p.shadow.price;
            Deviation(p) * p.paper.price == worse * 10000.0
  {
    var move := p.shadow.price - p.paper.price;
    assert move / p.paper.price * p.paper.price == move;
  }

  function DeviationSum(pairs: seq<Pair>): real
    requires forall p :: p in pairs ==> p.paper.price > 0.0
  {
    if pairs == [] then 0.0 else DeviationSum(pairs[..|pairs| - 1]) + Deviation(pairs[|pairs| - 1])
  }

  function AbsDeviationSum(pairs: seq<Pair>): real
    requires forall p :: p in pairs ==> p.paper.price > 0.0
  {
    if pairs == [] then 0.0 else AbsDeviationSum(pairs[..|pairs| - 1]) + Abs(Deviation(pairs[|pairs| - 1]))
  }

  function Deviations(pairs: seq<Pair>): (xs: seq<real>)
    requires forall p :: p in pairs ==> p.paper.price > 0.0
  {
    seq(|pairs|, i requires 0 <= i < |pairs| => Deviation(pairs[i]))
  }

  function SumOf(xs: seq<real>): real
  {
    if xs == [] then 0.0 else SumOf(xs[..|xs| - 1]) + xs[|xs| - 1]
  }

  function Sizes(xs: seq<real>): seq<real>
  {
    seq(|xs|, i requires 0 <= i < |xs| => Abs(xs[i]))
  }

  /** The average of `n` figures is within the bounds. */
  predicate Averages(sum: real, n: nat, low: real, high: real)
  {
    n as real * low <= sum <= n as real * high
  }

  lemma OneMoreAverages(sum: real, n: nat, low: real, high: real, x: real)
    requires Averages(sum, n, low, high) && low <= x <= high
    ensures Averages(sum + x, n + 1, low, high)
  {
  }

  lemma {:induction false} SumIsWithin(xs: seq<real>, low: real, high: real)
    requires forall i :: 0 <= i < |xs| ==> low <= xs[i] <= high
    ensures Averages(SumOf(xs), |xs|, low, high)
  {
    if xs != [] {
      SumIsWithin(xs[..|xs| - 1], low, high);
      OneMoreAverages(SumOf(xs[..|xs| - 1]), |xs| - 1, low, high, xs[|xs| - 1]);
    }
  }

  /** The running figures are the sum of the deviations and of their sizes. */
  lemma {:induction false} FiguresAreSums(pairs: seq<Pair>)
    requires forall p :: p in pairs ==> p.paper.price > 0.0
    ensures DeviationSum(pairs) == SumOf(Deviations(pairs)) && AbsDeviationSum(pairs) == SumOf(Sizes(Deviations(pairs)))
  {
    if pairs != [] {
      var front, all := pairs[..|pairs| - 1], Deviations(pairs);
      FiguresAreSums(front);
      assert all[..|all| - 1] == Deviations(front);
      assert Sizes(all)[..|all| - 1] == Sizes(Deviations(front));
    }
  }

  /** So what bounds every deviation bounds their average, */
  lemma AverageIsWithinTheDeviations(pairs: seq<Pair>, low: real, high: real)
    requires forall p :: p in pairs ==> p.paper.price > 0.0
    requires var xs := Deviations(pairs); forall i :: 0 <= i < |xs| ==> low <= xs[i] <= high
    ensures Averages(DeviationSum(pairs), |pairs|, low, high)
  {
    FiguresAreSums(pairs);
    SumIsWithin(Deviations(pairs), low, high);
  }

  /** and what bounds every size that of the sizes. */
  lemma AverageIsWithinTheSizes(pairs: seq<Pair>, most: real)
    requires forall p :: p in pairs ==> p.paper.price > 0.0
    requires var xs := Sizes(Deviations(pairs)); forall i :: 0 <= i < |xs| ==> xs[i] <= most
    ensures Averages(AbsDeviationSum(pairs), |pairs|, 0.0, most)
  {
    var xs := Sizes(Deviations(pairs));
    FiguresAreSums(pairs);
    SumIsWithin(xs, 0.0, most);
  }

  // ------------------------------------------------------------- what the matcher keeps

  /** How often a record occurs. */
  function Occurs(f: FillRecord, log: seq<FillRecord>): nat
  {
    if log == [] then 0 else Occurs(f, log[..|log| - 1]) + (if log[|log| - 1] == f then 1 else 0)
  }

  lemma OccursOneMore(f: FillRecord, log: seq<FillRecord>, g: FillRecord)
    ensures Occurs(f, log + [g]) == Occurs(f, log) + (if f == g then 1 else 0)
  {
    assert (log + [g])[..|log|] == log;
  }

  lemma OneMorePair(f: FillRecord, pairs: seq<Pair>, p: Pair)
    ensures Occurs(f, Papers(pairs + [p])) == Occurs(f, Papers(pairs)) + (if f == p.paper then 1 else 0)
    ensures Occurs(f, Shadows(pairs + [p])) == Occurs(f, Shadows(pairs)) + (if f == p.shadow then 1 else 0)
  {
    assert Papers(pairs + [p]) == Papers(pairs) + [p.paper];
    assert Shadows(pairs + [p]) == Shadows(pairs) + [p.shadow];
    OccursOneMore(f, Papers(pairs), p.paper);
    OccursOneMore(f, Shadows(pairs), p.shadow);
  }

  /** What one more paper fill adds to the pairs, to the leftovers and to the fills taken. */
  lemma TakenOneMore(paper: seq<FillRecord>, shadow: seq<FillRecord>, n: nat)
    requires 0 < n <= |paper|
    ensures var c, pairs := Chosen(paper, shadow, n - 1), Taken(paper, shadow, n - 1);
            Taken(paper, shadow, n) == if c.Some? then pairs + [Pair(paper[n - 1], shadow[c.value])] else pairs
    ensures var c, left := Chosen(paper, shadow, n - 1), LeftInPaper(paper, shadow, n - 1);
            LeftInPaper(paper, shadow, n) == if c.Some? then left else left + [paper[n - 1]]
    ensures var c, taken := Chosen(paper, shadow, n - 1), TakenFrom(paper, shadow, n - 1);
            TakenFrom(paper, shadow, n) == if c.Some? then taken + {c.value} else taken
  {
  }

  lemma CountOneMorePair(f: FillRecord, pairs: seq<Pair>, pairs': seq<Pair>, p: FillRecord, shadow: seq<FillRecord>, c: Option<nat>)
    requires c.Some? ==> c.value < |shadow|
    requires pairs' == if c.Some? then pairs + [Pair(p, shadow[c.value])] else pairs
    ensures Occurs(f, Papers(pairs')) == Occurs(f, Papers(pairs)) + (if c.Some? && f == p then 1 else 0)
    ensures Occurs(f, Shadows(pairs')) == Occurs(f, Shadows(pairs)) + (if c.Some? && f == shadow[c.value] then 1 else 0)
  {
    if c.Some? { OneMorePair(f, pairs, Pair(p, shadow[c.value])); }
  }

  /** One more paper fill goes to the pairs or to the leftovers. */
  lemma OneMorePaper(f: FillRecord, paper: seq<FillRecord>, shadow: seq<FillRecord>, n: nat)
    requires 0 < n <= |paper|
    ensures Occurs(f, Papers(Taken(paper, shadow, n))) + Occurs(f, LeftInPaper(paper, shadow, n))
         == Occurs(f, Papers(Taken(paper, shadow, n - 1))) + Occurs(f, LeftInPaper(paper, shadow, n - 1))
            + (if f == paper[n - 1] then 1 else 0)
  {
    var c := Chosen(paper, shadow, n - 1);
    TakenOneMore(paper, shadow, n);
    CountOneMorePair(f, Taken(paper, shadow, n - 1), Taken(paper, shadow, n), paper[n - 1], shadow, c);
    if c == None { OccursOneMore(f, LeftInPaper(paper, shadow, n - 1), paper[n - 1]); }
  }

  lemma OccursOneLonger(f: FillRecord, log: seq<FillRecord>, n: nat)
    requires 0 < n <= |log|
    ensures Occurs(f, log[..n]) == Occurs(f, log[..n - 1]) + (if f == log[n - 1] then 1 else 0)
  {
    assert log[..n][..n - 1] == log[..n - 1];
  }

  lemma {:induction false} PaperIsPartitioned(f: FillRecord, paper: seq<FillRecord>, shadow: seq<FillRecord>, n: nat)
    requires n <= |paper|
    ensures Occurs(f, paper[..n]) == Occurs(f, Papers(Taken(paper, shadow, n))) + Occurs(f, LeftInPaper(paper, shadow, n))
    decreases n
  {
    if n > 0 {
      PaperIsPartitioned(f, paper, shadow, n - 1);
      OccursOneLonger(f, paper, n);
      OneMorePaper(f, paper, shadow, n);
    }
  }

  lemma {:induction false} WhoTook(paper: seq<FillRecord>, shadow: seq<FillRecord>, n: nat, j: nat) returns (i: nat)
    requires n <= |paper| && j in TakenFrom(paper, shadow, n)
    ensures i < n && Chosen(paper, shadow, i) == Some(j)
    decreases n
  {
    if n == 0 {
      assert false;
    } else {
      TakenOneMore(paper, shadow, n);
      if Chosen(paper, shadow, n - 1) == Some(j) { return n - 1; }
      i := WhoTook(paper, shadow, n - 1, j);
    }
  }

  /** No shadow fill is taken twice. */
  lemma NothingIsTakenTwice(paper: seq<FillRecord>, shadow: seq<FillRecord>, n: nat)
    requires 0 < n <= |paper| && Chosen(paper, shadow, n - 1).Some?
    ensures Chosen(paper, shadow, n - 1).value !in TakenFrom(paper, shadow, n - 1)
  {
    var j := Chosen(paper, shadow, n - 1).value;
    ChosenMeansMutual(paper, shadow, n - 1, j);
    if j in TakenFrom(paper, shadow, n - 1) {
      var i := WhoTook(paper, shadow, n - 1, j);
      ChosenMeansMutual(paper, shadow, i, j);
      assert false;
    }
  }

  /** How often a record is left among the first `n` shadow fills. */
  function Untaken(f: FillRecord, shadow: seq<FillRecord>, taken: set<nat>, n: nat): nat
    requires n <= |shadow|
    decreases n
  {
    if n == 0 then 0
    else Untaken(f, shadow, taken, n - 1) + (if n - 1 !in taken && shadow[n - 1] == f then 1 else 0)
  }

  lemma {:induction false} LeftIsUntaken(f: FillRecord, shadow: seq<FillRecord>, taken: set<nat>, n: nat)
    requires n <= |shadow|
    ensures Occurs(f, LeftInShadow(shadow, taken, n)) == Untaken(f, shadow, taken, n)
    decreases n
  {
    if n > 0 {
      LeftIsUntaken(f, shadow, taken, n - 1);
      OccursOneMore(f, LeftInShadow(shadow, taken, n - 1), shadow[n - 1]);
    }
  }

  lemma {:induction false} TakingOneMore(
      f: FillRecord, shadow: seq<FillRecord>, taken: set<nat>, more: set<nat>, j: nat, n: nat)
    requires j < |shadow| && j !in taken && n <= |shadow| && more == taken + {j}
    ensures Untaken(f, shadow, taken, n) == Untaken(f, shadow, more, n) + (if j < n && shadow[j] == f then 1 else 0)
    decreases n
  {
    if n > 0 {
      TakingOneMore(f, shadow, taken, more, j, n - 1);
    }
  }

  lemma {:induction false} NothingTaken(shadow: seq<FillRecord>, n: nat)
    requires n <= |shadow|
    ensures LeftInShadow(shadow, {}, n) == shadow[..n]
    decreases n
  {
    if n > 0 { NothingTaken(shadow, n - 1); }
  }

  /** Taking one more shadow fill moves it from the leftovers to the pairs. */
  lemma OneMoreTaken(f: FillRecord, paper: seq<FillRecord>, shadow: seq<FillRecord>, n: nat)
    requires 0 < n <= |paper|
    ensures Occurs(f, Shadows(Taken(paper, shadow, n)))
            + Occurs(f, LeftInShadow(shadow, TakenFrom(paper, shadow, n), |shadow|))
         == Occurs(f, Shadows(Taken(paper, shadow, n - 1)))
            + Occurs(f, LeftInShadow(shadow, TakenFrom(paper, shadow, n - 1), |shadow|))
  {
    var c, taken, more := Chosen(paper, shadow, n - 1), TakenFrom(paper, shadow, n - 1), TakenFrom(paper, shadow, n);
    TakenOneMore(paper, shadow, n);
    CountOneMorePair(f, Taken(paper, shadow, n - 1), Taken(paper, shadow, n), paper[n - 1], shadow, c);
    LeftIsUntaken(f, shadow, taken, |shadow|);
    LeftIsUntaken(f, shadow, more, |shadow|);
    if c.Some? {
      NothingIsTakenTwice(paper, shadow, n);
      TakingOneMore(f, shadow, taken, more, c.value, |shadow|);
    }
  }

  lemma {:induction false} ShadowIsPartitioned(f: FillRecord, paper: seq<FillRecord>, shadow: seq<FillRecord>, n: nat)
    requires n <= |paper|
    ensures Occurs(f, shadow)
         == Occurs(f, Shadows(Taken(paper, shadow, n)))
            + Occurs(f, LeftInShadow(shadow, TakenFrom(paper, shadow, n), |shadow|))
    decreases n
  {
    if n == 0 {
      NothingTaken(shadow, |shadow|);
      assert shadow[..|shadow|] == shadow;
    } else {
      ShadowIsPartitioned(f, paper, shadow, n - 1);
      OneMoreTaken(f, paper, shadow, n);
    }
  }
}
