/** The fill comparison as the source runs it: a state object two matchers write to, a
    two-pointer window scan, and a dictionary of names (perplab/analytics/parity.py:594-766). */
module ParityObjects {
  import opened Wrappers
  import opened Liquidation
  import opened Exposure
  import opened Parity
  import opened ParityMatching

  class FillComparison {
    var paperCount: nat
    var shadowCount: nat
    var matched: nat
    var bpsSum: real
    var absBpsSum: real
    var paperOnly: seq<FillRecord>
    var shadowOnly: seq<FillRecord>
    ghost var pairs: seq<Pair>

    /** The running figures are those of the pairs scored so far. */
    ghost predicate Valid()
      reads this
    {
      && matched == |pairs|
      && (forall p :: p in pairs ==> p.paper.price > 0.0)
      && bpsSum == DeviationSum(pairs) && absBpsSum == AbsDeviationSum(pairs)
    }

    constructor ()
      ensures Valid() && pairs == [] && paperOnly == [] && shadowOnly == [] && paperCount == 0 && shadowCount == 0
    {
      paperCount, shadowCount, matched, bpsSum, absBpsSum := 0, 0, 0, 0.0, 0.0;
      paperOnly, shadowOnly, pairs := [], [], [];
    }

    method Score(paper: FillRecord, shadow: FillRecord)
      requires Valid() && paper.price > 0.0
      modifies `matched, `bpsSum, `absBpsSum, `pairs
      ensures Valid() && pairs == old(pairs) + [Pair(paper, shadow)]
    {
      var deviation := (shadow.price - paper.price) / paper.price * BPS * (if paper.side == BUY then 1.0 else -1.0);
      matched := matched + 1;
      bpsSum := bpsSum + deviation;
      absBpsSum := absBpsSum + Abs(deviation);
      assert (pairs + [Pair(paper, shadow)])[..|pairs|] == pairs;
      pairs := pairs + [Pair(paper, shadow)];
    }
  }

  /** The shadow fills behind `low` are behind every window from paper fill `n` on. */
  ghost predicate Behind(paper: seq<FillRecord>, shadow: seq<FillRecord>, low: nat, n: nat)
    requires low <= |shadow|
  {
    forall i, j :: 0 <= j < low && n <= i < |paper| ==> shadow[j].ts < paper[i].ts - FILL_MATCH_WINDOW_MS
  }

  /** The scan of one paper fill's window: its rivals, each of which it claims. */
  method ScanWindow(fill: FillRecord, shadow: seq<FillRecord>, low: nat, claims: array<nat>) returns (found: seq<nat>)
    requires Forwards(shadow) && low <= |shadow| == claims.Length
    requires forall j :: 0 <= j < low ==> shadow[j].ts < fill.ts - FILL_MATCH_WINDOW_MS
    requires low < |shadow| ==> shadow[low].ts >= fill.ts - FILL_MATCH_WINDOW_MS
    modifies claims
    ensures found == RivalsOf(fill, shadow, |shadow|)
    ensures forall j :: 0 <= j < |shadow| ==> claims[j] == old(claims[j]) + (if Rival(fill, shadow[j]) then 1 else 0)
  {
    found := [];
    var cursor := low;
    NoRivals(fill, shadow, 0, low);
    while cursor < |shadow| && shadow[cursor].ts <= fill.ts + FILL_MATCH_WINDOW_MS
      invariant low <= cursor <= |shadow|
      invariant found == RivalsOf(fill, shadow, cursor)
      invariant forall j :: 0 <= j < cursor ==> claims[j] == old(claims[j]) + (if Rival(fill, shadow[j]) then 1 else 0)
      invariant forall j :: cursor <= j < |shadow| ==> claims[j] == old(claims[j])
    {
      assert shadow[low].ts <= shadow[cursor].ts;
      if shadow[cursor].MatchKey() == fill.MatchKey() {
        found := found + [cursor];
        claims[cursor] := claims[cursor] + 1;
      }
      cursor := cursor + 1;
    }
    NoRivals(fill, shadow, cursor, |shadow|);
  }

  /** Move `low` up to the window of paper fill `index`. */
  method Advance(paper: seq<FillRecord>, shadow: seq<FillRecord>, low: nat, index: nat) returns (moved: nat)
    requires Forwards(paper) && index < |paper| && low <= |shadow| && Behind(paper, shadow, low, index)
    ensures low <= moved <= |shadow| && Behind(paper, shadow, moved, index)
    ensures moved < |shadow| ==> shadow[moved].ts >= paper[index].ts - FILL_MATCH_WINDOW_MS
  {
    moved := low;
    while moved < |shadow| && shadow[moved].ts < paper[index].ts - FILL_MATCH_WINDOW_MS
      invariant low <= moved <= |shadow| && Behind(paper, shadow, moved, index)
    {
      moved := moved + 1;
    }
  }

  /** The two-pointer scan: every candidate list and claim count of the quadratic
      definition, with `low` only ever advancing. */
  method FindCandidates(paper: seq<FillRecord>, shadow: seq<FillRecord>)
    returns (candidates: array<seq<nat>>, claims: array<nat>)
    requires Forwards(paper) && Forwards(shadow)
    ensures candidates.Length == |paper| && claims.Length == |shadow|
    ensures forall i :: 0 <= i < |paper| ==> candidates[i] == RivalsOf(paper[i], shadow, |shadow|)
    ensures forall j :: 0 <= j < |shadow| ==> claims[j] == ClaimsOn(shadow[j], paper, |paper|)
  {
    candidates := new seq<nat>[|paper|](_ => []);
    claims := new nat[|shadow|](_ => 0);
    var low := 0;
    for index := 0 to |paper|
      invariant low <= |shadow| && Behind(paper, shadow, low, index)
      invariant forall i :: 0 <= i < index ==> candidates[i] == RivalsOf(paper[i], shadow, |shadow|)
      invariant forall j :: 0 <= j < |shadow| ==> claims[j] == ClaimsOn(shadow[j], paper, index)
    {
      low := Advance(paper, shadow, low, index);
      var found := ScanWindow(paper[index], shadow, low, claims);
      candidates[index] := found;
    }
  }

  /** The pairs of one index: scored when neither side has another candidate. */
  method Decide(state: FillComparison, paper: seq<FillRecord>, shadow: seq<FillRecord>, index: nat, chosen: seq<nat>,
                claims: array<nat>) returns (taken: Option<nat>)
    requires state.Valid() && Priced(paper) && index < |paper| && claims.Length == |shadow|
    requires chosen == RivalsOf(paper[index], shadow, |shadow|)
    requires forall j :: 0 <= j < |shadow| ==> claims[j] == ClaimsOn(shadow[j], paper, |paper|)
    modifies state`matched, state`bpsSum, state`absBpsSum, state`pairs, state`paperOnly
    ensures state.Valid() && taken == Chosen(paper, shadow, index)
    ensures if taken.Some? then state.pairs == old(state.pairs) + [Pair(paper[index], shadow[taken.value])]
                                && state.paperOnly == old(state.paperOnly)
            else state.pairs == old(state.pairs) && state.paperOnly == old(state.paperOnly) + [paper[index]]
  {
    RivalsAreTheRivals(paper[index], shadow, |shadow|);
    if |chosen| == 1 && claims[chosen[0]] == 1 {
      assert paper[index] in paper;
      state.Score(paper[index], shadow[chosen[0]]);
      return Some(chosen[0]);
    }
    state.paperOnly := state.paperOnly + [paper[index]];
    return None;
  }

  /** The comparison once the first `n` unnamed paper fills are decided, from where it was. */
  ghost predicate DecidedUpTo(state: FillComparison, paper: seq<FillRecord>, shadow: seq<FillRecord>, n: nat, taken: set<nat>,
                              pairs: seq<Pair>, paperOnly: seq<FillRecord>)
    requires n <= |paper|
    reads state
  {
    && state.Valid() && taken == TakenFrom(paper, shadow, n)
    && state.pairs == pairs + Taken(paper, shadow, n)
    && state.paperOnly == paperOnly + LeftInPaper(paper, shadow, n)
  }

  method DecideNext(state: FillComparison, paper: seq<FillRecord>, shadow: seq<FillRecord>, index: nat, chosen: seq<nat>,
                    claims: array<nat>, taken: set<nat>, ghost pairs: seq<Pair>, ghost paperOnly: seq<FillRecord>)
    returns (more: set<nat>)
    requires Priced(paper) && index < |paper| && claims.Length == |shadow|
    requires chosen == RivalsOf(paper[index], shadow, |shadow|)
    requires forall j :: 0 <= j < |shadow| ==> claims[j] == ClaimsOn(shadow[j], paper, |paper|)
    requires DecidedUpTo(state, paper, shadow, index, taken, pairs, paperOnly)
    modifies state`matched, state`bpsSum, state`absBpsSum, state`pairs, state`paperOnly
    ensures DecidedUpTo(state, paper, shadow, index + 1, more, pairs, paperOnly)
  {
    TakenOneMore(paper, shadow, index + 1);
    var c := Decide(state, paper, shadow, index, chosen, claims);
    more := taken;
    if c.Some? {
      more := taken + {c.value};
    }
  }

  method DecideAll(state: FillComparison, paper: seq<FillRecord>, shadow: seq<FillRecord>) returns (taken: set<nat>)
    requires state.Valid() && Forwards(paper) && Forwards(shadow) && Priced(paper)
    modifies state`matched, state`bpsSum, state`absBpsSum, state`pairs, state`paperOnly
    ensures state.Valid() && taken == TakenFrom(paper, shadow, |paper|)
    ensures state.pairs == old(state.pairs) + Taken(paper, shadow, |paper|)
    ensures state.paperOnly == old(state.paperOnly) + LeftInPaper(paper, shadow, |paper|)
  {
    var candidates, claims := FindCandidates(paper, shadow);
    taken := {};
    for index := 0 to |paper|
      modifies state`matched, state`bpsSum, state`absBpsSum, state`pairs, state`paperOnly
      invariant DecidedUpTo(state, paper, shadow, index, taken, old(state.pairs), old(state.paperOnly))
    {
      taken := DecideNext(state, paper, shadow, index, candidates[index], claims, taken, old(state.pairs), old(state.paperOnly));
    }
  }

  method MatchUnnamed(state: FillComparison, paper: seq<FillRecord>, shadow: seq<FillRecord>)
    requires state.Valid() && Forwards(paper) && Forwards(shadow) && Priced(paper)
    modifies state`matched, state`bpsSum, state`absBpsSum, state`pairs, state`paperOnly, state`shadowOnly
    ensures state.Valid()
    ensures state.pairs == old(state.pairs) + Taken(paper, shadow, |paper|)
    ensures state.paperOnly == old(state.paperOnly) + LeftInPaper(paper, shadow, |paper|)
    ensures state.shadowOnly
         == old(state.shadowOnly) + LeftInShadow(shadow, TakenFrom(paper, shadow, |paper|), |shadow|)
  {
    var taken := DecideAll(state, paper, shadow);
    for cursor := 0 to |shadow|
      modifies state`shadowOnly
      invariant state.shadowOnly == old(state.shadowOnly) + LeftInShadow(shadow, taken, cursor)
    {
      if cursor !in taken {
        state.shadowOnly := state.shadowOnly + [shadow[cursor]];
      }
    }
  }

  // -------------------------------------------------------------------- named fills

  /** The shadow pass: index the named fills, set the rest aside. */
  method IndexShadow(state: FillComparison, shadow: seq<FillRecord>) returns (index: Index)
    requires state.shadowOnly == [] && state.shadowCount == 0
    modifies state`shadowCount, state`shadowOnly
    ensures index == Indexed(shadow)
    ensures state.shadowCount == |shadow| && state.shadowOnly == index.duplicates
  {
    var byName: map<Identity, FillRecord>, names: seq<Identity>, unnamed: seq<FillRecord> := map[], [], [];
    for n := 0 to |shadow|
      invariant state.shadowCount == n
      invariant Index(byName, names, state.shadowOnly, unnamed) == Indexed(shadow[..n])
    {
      var record := shadow[n];
      assert shadow[..n + 1][..n] == shadow[..n];
      state.shadowCount := state.shadowCount + 1;
      if record.Name() == None {
        unnamed := unnamed + [record];
      } else if record.Name().value in byName {
        state.shadowOnly := state.shadowOnly + [record];
      } else {
        byName := byName[record.Name().value := record];
        names := names + [record.Name().value];
      }
    }
    assert shadow[..|shadow|] == shadow;
    return Index(byName, names, state.shadowOnly, unnamed);
  }

  /** The paper pass against the index. */
  method MatchNamed(state: FillComparison, paper: seq<FillRecord>, byName: map<Identity, FillRecord>)
    returns (names: set<Identity>, unnamed: seq<FillRecord>)
    requires state.Valid() && Priced(paper) && state.pairs == [] && state.paperOnly == [] && state.paperCount == 0
    modifies state`matched, state`bpsSum, state`absBpsSum, state`pairs, state`paperOnly, state`paperCount
    ensures state.Valid() && state.paperCount == |paper|
    ensures Sorted(state.pairs, state.paperOnly, names, unnamed) == SortedOut(paper, byName)
  {
    names, unnamed := {}, [];
    for n := 0 to |paper|
      invariant state.Valid() && state.paperCount == n
      invariant Sorted(state.pairs, state.paperOnly, names, unnamed) == SortedOut(paper[..n], byName)
    {
      var record := paper[n];
      assert paper[..n + 1][..n] == paper[..n] && record in paper;
      state.paperCount := state.paperCount + 1;
      if record.Name() == None {
        unnamed := unnamed + [record];
      } else if record.Name().value !in byName || byName[record.Name().value].OrderKey() != record.OrderKey() {
        state.paperOnly := state.paperOnly + [record];
      } else {
        names := names + {record.Name().value};
        state.Score(record, byName[record.Name().value]);
      }
    }
    assert paper[..|paper|] == paper;
  }

  method AddUnclaimed(state: FillComparison, names: seq<Identity>, byName: map<Identity, FillRecord>, matched: set<Identity>)
    modifies state`shadowOnly
    ensures state.shadowOnly == old(state.shadowOnly) + Unclaimed(names, byName, matched, |names|)
  {
    for n := 0 to |names|
      invariant state.shadowOnly == old(state.shadowOnly) + Unclaimed(names, byName, matched, n)
    {
      if names[n] !in matched && names[n] in byName {
        state.shadowOnly := state.shadowOnly + [byName[names[n]]];
      }
    }
  }

  lemma {:induction false} UnnamedRunForwards(log: seq<FillRecord>, byName: map<Identity, FillRecord>)
    requires Forwards(log)
    ensures Forwards(SortedOut(log, byName).unnamed) && Forwards(Indexed(log).unnamed)
    ensures forall f :: f in SortedOut(log, byName).unnamed ==> f in log
    ensures forall f :: f in Indexed(log).unnamed ==> f in log
  {
    if log != [] {
      var front, last := log[..|log| - 1], log[|log| - 1];
      UnnamedRunForwards(front, byName);
      forall f | f in front ensures f.ts <= last.ts {}
      LastRunsForwards(SortedOut(front, byName).unnamed, front, last);
      LastRunsForwards(Indexed(front).unnamed, front, last);
    }
  }

  lemma LastRunsForwards(some: seq<FillRecord>, front: seq<FillRecord>, last: FillRecord)
    requires Forwards(some) && (forall f :: f in some ==> f in front) && forall f :: f in front ==> f.ts <= last.ts
    ensures Forwards(some + [last])
  {
    forall i | 0 <= i < |some|
      ensures some[i].ts <= last.ts
    {
      assert some[i] in some;
    }
  }

  lemma UnnamedPapersRunForwards(log: seq<FillRecord>, byName: map<Identity, FillRecord>)
    requires Forwards(log) && Priced(log)
    ensures Forwards(SortedOut(log, byName).unnamed) && Priced(SortedOut(log, byName).unnamed)
  {
    UnnamedRunForwards(log, byName);
  }

  lemma UnnamedShadowsRunForwards(log: seq<FillRecord>)
    requires Forwards(log)
    ensures Forwards(Indexed(log).unnamed)
  {
    UnnamedRunForwards(log, map[]);
  }

  /** Both matchers, before the lists are put in order. */
  method Gather(state: FillComparison, paper: seq<FillRecord>, shadow: seq<FillRecord>)
    requires Forwards(paper) && Forwards(shadow) && Priced(paper)
    requires state.Valid() && state.pairs == [] && state.paperOnly == [] && state.shadowOnly == []
    requires state.paperCount == 0 && state.shadowCount == 0
    modifies state
    ensures state.Valid() && state.paperCount == |paper| && state.shadowCount == |shadow|
    ensures state.pairs == PairsOf(paper, shadow)
    ensures state.paperOnly == PaperOnly(paper, shadow)
    ensures state.shadowOnly == ShadowOnly(paper, shadow)
  {
    var index := IndexShadow(state, shadow);
    var names, unnamed := MatchNamed(state, paper, index.byName);
    UnnamedPapersRunForwards(paper, index.byName);
    UnnamedShadowsRunForwards(shadow);
    MatchUnnamed(state, unnamed, index.unnamed);
    AddUnclaimed(state, index.names, index.byName, names);
  }

  /** `_compare_fills`. */
  method CompareFills(paper: seq<FillRecord>, shadow: seq<FillRecord>) returns (state: FillComparison)
    requires Forwards(paper) && Forwards(shadow) && Priced(paper)
    ensures fresh(state) && state.Valid()
    ensures state.paperCount == |paper| && state.shadowCount == |shadow|
    ensures state.pairs == PairsOf(paper, shadow)
    ensures state.paperOnly == Chronological(PaperOnly(paper, shadow))
    ensures state.shadowOnly == Chronological(ShadowOnly(paper, shadow))
  {
    state := new FillComparison();
    Gather(state, paper, shadow);
    state.paperOnly := Chronological(state.paperOnly);
    state.shadowOnly := Chronological(state.shadowOnly);
  }

  /** Reading both logs and comparing them: every fill of either log is counted once, as one
      half of a pair or on its unmatched list, and the lists come out in order. */
  method CompareLogs(paperLines: seq<Line>, shadowLines: seq<Line>) returns (r: Outcome<FillComparison, ReadError>)
    ensures r.Ok? ==>
              && r.value.paperCount == |paperLines| == r.value.matched + |r.value.paperOnly|
              && r.value.shadowCount == |shadowLines| == r.value.matched + |r.value.shadowOnly|
              && InOrder(r.value.paperOnly) && InOrder(r.value.shadowOnly)
              && (forall f :: Occurs(f, RecordsOf(paperLines))
                              == Occurs(f, Papers(r.value.pairs)) + Occurs(f, r.value.paperOnly))
              && (forall f :: Occurs(f, RecordsOf(shadowLines))
                              == Occurs(f, Shadows(r.value.pairs)) + Occurs(f, r.value.shadowOnly))
  {
    var paper := ReadFills(paperLines);
    if paper.Raised? {
      return Raised(paper.error);
    }
    var shadow := ReadFills(shadowLines);
    if shadow.Raised? {
      return Raised(shadow.error);
    }
    var state := CompareFills(paper.value, shadow.value);
    assert paper.value == RecordsOf(paperLines) && shadow.value == RecordsOf(shadowLines);
    NothingIsLost(paper.value, shadow.value);
    return Ok(state);
  }

  function RecordsOf(lines: seq<Line>): seq<FillRecord>
  {
    seq(|lines|, i requires 0 <= i < |lines| => RecordOf(lines, i))
  }

  lemma NothingIsLost(paper: seq<FillRecord>, shadow: seq<FillRecord>)
    requires UniqueNames(paper)
    ensures var paperOnly, shadowOnly := Chronological(PaperOnly(paper, shadow)), Chronological(ShadowOnly(paper, shadow));
            && |paper| == |PairsOf(paper, shadow)| + |paperOnly|
            && |shadow| == |PairsOf(paper, shadow)| + |shadowOnly|
            && InOrder(paperOnly) && InOrder(shadowOnly)
            && (forall f :: Occurs(f, paper) == Occurs(f, Papers(PairsOf(paper, shadow))) + Occurs(f, paperOnly))
            && (forall f :: Occurs(f, shadow) == Occurs(f, Shadows(PairsOf(paper, shadow))) + Occurs(f, shadowOnly))
  {
    UniqueNamesMatchOnce(paper, Indexed(shadow).byName);
    ShadowCountsAgreeExactlyWhenMatchedOnce(paper, shadow);
    forall f
      ensures Occurs(f, paper)
           == Occurs(f, Papers(PairsOf(paper, shadow))) + Occurs(f, Chronological(PaperOnly(paper, shadow)))
      ensures Occurs(f, shadow)
           == Occurs(f, Shadows(PairsOf(paper, shadow))) + Occurs(f, Chronological(ShadowOnly(paper, shadow)))
    {
      PaperIsAccountedFor(f, paper, shadow);
      ShadowIsAccountedFor(f, paper, shadow);
      ChronologicalKeeps(PaperOnly(paper, shadow), f);
      ChronologicalKeeps(ShadowOnly(paper, shadow), f);
    }
    var any := FillRecord(0, 0, "", BUY, 0.0, 0.0, "", 0, None);
    PaperIsAccountedFor(any, paper, shadow);
    ChronologicalKeeps(PaperOnly(paper, shadow), any);
    ChronologicalKeeps(ShadowOnly(paper, shadow), any);
  }
}
