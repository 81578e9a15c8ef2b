/** The funding record: the intervals it implies and the settlements a window is due
    (perplab/core/funding.py:96-192). */
module Funding {
  import opened Sequences

  // ----------------------------------------------------------------- sorting the times

  function CountOf(x: int, s: seq<int>): nat
  {
    if s == [] then 0 else CountOf(x, s[..|s| - 1]) + (if s[|s| - 1] == x then 1 else 0)
  }

  function Insert(s: seq<int>, x: int): seq<int>
  {
    if s == [] || s[|s| - 1] <= x then s + [x] else Insert(s[..|s| - 1], x) + [s[|s| - 1]]
  }

  function Sort(s: seq<int>): seq<int>
  {
    if s == [] then [] else Insert(Sort(s[..|s| - 1]), s[|s| - 1])
  }

  lemma CountOneMore(x: int, s: seq<int>, y: int)
    ensures CountOf(x, s + [y]) == CountOf(x, s) + (if x == y then 1 else 0)
  {
    assert (s + [y])[..|s|] == s;
  }

  lemma {:induction false} InsertKeeps(s: seq<int>, x: int, y: int)
    requires Ascending(s)
    ensures Ascending(Insert(s, x)) && |Insert(s, x)| == |s| + 1
    ensures CountOf(y, Insert(s, x)) == CountOf(y, s) + (if x == y then 1 else 0)
  {
    if s == [] || s[|s| - 1] <= x {
      CountOneMore(y, s, x);
    } else {
      var front, last := s[..|s| - 1], s[|s| - 1];
      InsertKeeps(front, x, y);
      CountOneMore(y, Insert(front, x), last);
      InsertBelow(front, x, last);
    }
  }

  lemma {:induction false} InsertBelow(s: seq<int>, x: int, top: int)
    requires x <= top && forall i :: 0 <= i < |s| ==> s[i] <= top
    ensures forall i :: 0 <= i < |Insert(s, x)| ==> Insert(s, x)[i] <= top
  {
    if s != [] && s[|s| - 1] > x { InsertBelow(s[..|s| - 1], x, top); }
  }

  lemma {:induction false} SortKeeps(s: seq<int>, y: int)
    ensures Ascending(Sort(s)) && |Sort(s)| == |s| && CountOf(y, Sort(s)) == CountOf(y, s)
  {
    if s != [] {
      SortKeeps(s[..|s| - 1], y);
      InsertKeeps(Sort(s[..|s| - 1]), s[|s| - 1], y);
    }
  }

  // -------------------------------------------------------------------- the segments

  function Gaps(ordered: seq<int>): (gaps: seq<int>)
    requires |ordered| > 0
  {
    seq(|ordered| - 1, i requires 0 <= i < |ordered| - 1 => ordered[i + 1] - ordered[i])
  }

  function Distance(x: int, y: int): int
  {
    if x < y then y - x else x - y
  }

  datatype Segment = Segment(start: int, end: int, interval: int, settlements: nat)

  /** The gap seen most often among the first `n`, counted over the window; the earliest
      among equals. */
  function Modal(window: seq<int>, n: nat): int
    requires 0 < n <= |window|
  {
    if n == 1 then window[0]
    else
      var best := Modal(window, n - 1);
      if CountOf(window[n - 1], window) > CountOf(best, window) then window[n - 1] else best
  }

  /** Element `k` is the first, among the first `n`, of those seen most often. */
  ghost predicate FirstOfTheMost(window: seq<int>, n: nat, k: nat)
    requires n <= |window|
  {
    && k < n
    && (forall j :: 0 <= j < n ==> CountOf(window[j], window) <= CountOf(window[k], window))
    && (forall j :: 0 <= j < k ==> CountOf(window[j], window) < CountOf(window[k], window))
  }

  lemma {:induction false} ModalIsTheMostCommon(window: seq<int>, n: nat) returns (k: nat)
    requires 0 < n <= |window|
    ensures FirstOfTheMost(window, n, k) && window[k] == Modal(window, n)
    decreases n
  {
    if n == 1 {
      k := 0;
    } else {
      k := ModalIsTheMostCommon(window, n - 1);
      if CountOf(window[n - 1], window) > CountOf(window[k], window) { k := n - 1; }
    }
  }

  /** `interval` is the most common gap of a window, and among equals the one seen first. */
  ghost predicate IsModal(window: seq<int>, interval: int)
  {
    exists k :: 0 <= k < |window| && FirstOfTheMost(window, |window|, k) && window[k] == interval
  }

  /** Segment `s` stands for gaps `i` to `j`. */
  ghost predicate Covers(ordered: seq<int>, s: Segment, i: nat, j: nat, tolerance: int)
    requires |ordered| > 0
  {
    var gaps := Gaps(ordered);
    && i < j <= |gaps|
    && s.start == ordered[i] && s.end == ordered[j] && s.settlements == j - i + 1
    && IsModal(gaps[i..j], s.interval)
    && forall k :: i < k < j ==> Distance(gaps[k], gaps[i]) <= tolerance
  }

  /** Piece `c` of a cutting is covered by its segment. */
  ghost predicate Piece(ordered: seq<int>, segments: seq<Segment>, cuts: seq<nat>, c: nat, tolerance: int)
    requires |ordered| > 0 && |cuts| == |segments| + 1
  {
    c < |segments| ==> Covers(ordered, segments[c], cuts[c], cuts[c + 1], tolerance)
  }

  /** Pieces `c` and `c + 1` differ by a change of schedule. */
  ghost predicate Changes(gaps: seq<int>, cuts: seq<nat>, c: nat, tolerance: int)
  {
    c + 2 < |cuts| ==> cuts[c] < |gaps| && cuts[c + 1] < |gaps| && Distance(gaps[cuts[c + 1]], gaps[cuts[c]]) > tolerance
  }

  /** The segments cut the record at `cuts`, and each cut is a change of schedule. */
  ghost predicate CutAt(ordered: seq<int>, segments: seq<Segment>, cuts: seq<nat>, tolerance: int)
    requires |ordered| > 0
  {
    && |cuts| == |segments| + 1 && cuts[0] == 0
    && (forall c: nat :: Piece(ordered, segments, cuts, c, tolerance))
    && (forall c: nat :: Changes(Gaps(ordered), cuts, c, tolerance))
  }

  ghost predicate Tiles(ordered: seq<int>, segments: seq<Segment>, tolerance: int)
    requires |ordered| > 0
  {
    exists cuts :: CutAt(ordered, segments, cuts, tolerance) && cuts[|cuts| - 1] == |ordered| - 1
  }

  method FlushSegment(ordered: seq<int>, gaps: seq<int>, i: nat, j: nat, ghost tolerance: int) returns (s: Segment)
    requires |ordered| > 0 && gaps == Gaps(ordered) && i < j <= |gaps|
    requires forall k :: i < k < j ==> Distance(gaps[k], gaps[i]) <= tolerance
    ensures Covers(ordered, s, i, j, tolerance)
  {
    var window := gaps[i..j];
    ghost var k := ModalIsTheMostCommon(window, |window|);
    assert FirstOfTheMost(window, |window|, k) && window[k] == Modal(window, |window|);
    s := Segment(ordered[i], ordered[j], Modal(window, |window|), j - i + 1);
  }

  lemma OneMoreCut(ordered: seq<int>, segments: seq<Segment>, cuts: seq<nat>, s: Segment, j: nat, tolerance: int)
    requires |ordered| > 0 && CutAt(ordered, segments, cuts, tolerance)
    requires Covers(ordered, s, cuts[|cuts| - 1], j, tolerance)
    requires |cuts| > 1 ==> Apart(Gaps(ordered), cuts[|cuts| - 2], cuts[|cuts| - 1], tolerance)
    ensures CutAt(ordered, segments + [s], cuts + [j], tolerance)
  {
    var more, last := segments + [s], cuts + [j];
    forall c: nat
      ensures Piece(ordered, more, last, c, tolerance)
    {
      assert Piece(ordered, segments, cuts, c, tolerance);
    }
    forall c: nat
      ensures Changes(Gaps(ordered), last, c, tolerance)
    {
      assert Changes(Gaps(ordered), cuts, c, tolerance);
    }
  }

  /** Two gaps further apart than the tolerance. */
  ghost predicate Apart(gaps: seq<int>, i: nat, j: nat, tolerance: int)
  {
    i < |gaps| && j < |gaps| && Distance(gaps[j], gaps[i]) > tolerance
  }

  /** `interval_segments`, on sorted times: the loop and its flushes. */
  method SegmentsOf(ordered: seq<int>, tolerance: int) returns (segments: seq<Segment>)
    requires |ordered| >= 2
    ensures Tiles(ordered, segments, tolerance)
  {
    var gaps := Gaps(ordered);
    segments := [];
    ghost var cuts: seq<nat> := [0];
    var start, current := 0, gaps[0];
    for i := 0 to |gaps|
      invariant 0 <= start <= i && (i > 0 ==> start < i) && current == gaps[start]
      invariant CutAt(ordered, segments, cuts, tolerance) && cuts[|cuts| - 1] == start
      invariant |cuts| > 1 ==> Apart(gaps, cuts[|cuts| - 2], start, tolerance)
      invariant forall k :: start < k < i ==> Distance(gaps[k], gaps[start]) <= tolerance
    {
      if Distance(gaps[i], current) > tolerance {
        if start < i {
          var s := FlushSegment(ordered, gaps, start, i, tolerance);
          OneMoreCut(ordered, segments, cuts, s, i, tolerance);
          segments, cuts := segments + [s], cuts + [i];
        }
        start, current := i, gaps[i];
      }
    }
    var s := FlushSegment(ordered, gaps, start, |gaps|, tolerance);
    OneMoreCut(ordered, segments, cuts, s, |gaps|, tolerance);
    segments, cuts := segments + [s], cuts + [|gaps|];
  }

  /** `interval_segments`. */
  method IntervalSegments(times: seq<int>, tolerance: int) returns (segments: seq<Segment>)
    ensures |times| < 2 ==> segments == []
    ensures |times| >= 2 ==> |Sort(times)| == |times| && Tiles(Sort(times), segments, tolerance)
  {
    if |times| < 2 {
      return [];
    }
    SortKeeps(times, 0);
    segments := SegmentsOf(Sort(times), tolerance);
  }

  function Spans(segments: seq<Segment>): int
  {
    if segments == [] then 0 else Spans(segments[..|segments| - 1]) + segments[|segments| - 1].settlements - 1
  }

  lemma {:induction false} SpansReachTheCut(ordered: seq<int>, segments: seq<Segment>, cuts: seq<nat>, tolerance: int, n: nat)
    requires |ordered| > 0 && CutAt(ordered, segments, cuts, tolerance) && n <= |segments|
    ensures Spans(segments[..n]) == cuts[n]
  {
    if n > 0 {
      SpansReachTheCut(ordered, segments, cuts, tolerance, n - 1);
      assert segments[..n][..n - 1] == segments[..n - 1];
      assert Piece(ordered, segments, cuts, n - 1, tolerance);
    }
  }

  lemma SegmentEnds(ordered: seq<int>, segments: seq<Segment>, cuts: seq<nat>, tolerance: int, c: nat)
    requires |ordered| > 0 && CutAt(ordered, segments, cuts, tolerance) && c < |segments|
    ensures cuts[c] < cuts[c + 1] < |ordered|
    ensures segments[c].start == ordered[cuts[c]] && segments[c].end == ordered[cuts[c + 1]]
  {
    assert Piece(ordered, segments, cuts, c, tolerance);
  }

  /** The segments tile the record: neighbours share an endpoint, the first and last times
      are covered, and the gaps they hold add up to all the gaps there are. */
  lemma SegmentsTileTheRecord(ordered: seq<int>, segments: seq<Segment>, tolerance: int)
    requires |ordered| >= 2 && Tiles(ordered, segments, tolerance)
    ensures segments != []
    ensures segments[0].start == ordered[0] && segments[|segments| - 1].end == ordered[|ordered| - 1]
    ensures forall c :: 0 < c < |segments| ==> segments[c].start == segments[c - 1].end
    ensures Spans(segments) == |ordered| - 1
  {
    var cuts :| CutAt(ordered, segments, cuts, tolerance) && cuts[|cuts| - 1] == |ordered| - 1;
    var n := |segments|;
    SegmentEnds(ordered, segments, cuts, tolerance, 0);
    SegmentEnds(ordered, segments, cuts, tolerance, n - 1);
    forall c | 0 < c < n
      ensures segments[c].start == segments[c - 1].end
    {
      SegmentEnds(ordered, segments, cuts, tolerance, c);
      SegmentEnds(ordered, segments, cuts, tolerance, c - 1);
    }
    SpansReachTheCut(ordered, segments, cuts, tolerance, n);
    assert segments[..n] == segments;
  }

  // ---------------------------------------------------------- in the times' own terms

  /** The time from settlement `k` to the next. */
  function GapAt(ordered: seq<int>, k: int): int
    requires 0 <= k < |ordered| - 1
  {
    ordered[k + 1] - ordered[k]
  }

  /** From settlement `i` to settlement `j` no gap strays from the first by more than the
      tolerance. */
  predicate Steady(ordered: seq<int>, i: nat, j: nat, tolerance: int)
    requires i < j < |ordered|
  {
    forall k :: i < k < j ==> -tolerance <= GapAt(ordered, k) - GapAt(ordered, i) <= tolerance
  }

  /** How many of the gaps between settlements `i` and `j` last `gap`. */
  function HowMany(ordered: seq<int>, i: nat, j: nat, gap: int): nat
    requires i <= j < |ordered|
  {
    |set k | i <= k < j && GapAt(ordered, k) == gap|
  }

  /** Gap `k` is the first of those seen most often between settlements `i` and `j`. */
  ghost predicate FirstMostCommon(ordered: seq<int>, i: nat, j: nat, k: int)
    requires i < j < |ordered|
  {
    && i <= k < j
    && (forall m :: i <= m < j ==> HowMany(ordered, i, j, GapAt(ordered, m)) <= HowMany(ordered, i, j, GapAt(ordered, k)))
    && (forall m :: i <= m < k ==> HowMany(ordered, i, j, GapAt(ordered, m)) < HowMany(ordered, i, j, GapAt(ordered, k)))
  }

  ghost predicate MostCommon(ordered: seq<int>, i: nat, j: nat, interval: int)
    requires i < j < |ordered|
  {
    exists k :: FirstMostCommon(ordered, i, j, k) && GapAt(ordered, k) == interval
  }

  /** Piece `c` of a cutting: where it starts and ends, that it is steady, and its interval. */
  ghost predicate SteadyPiece(ordered: seq<int>, s: Segment, i: nat, j: nat, tolerance: int)
  {
    && i < j < |ordered| && s.start == ordered[i] && s.end == ordered[j] && s.settlements == j - i + 1
    && Steady(ordered, i, j, tolerance) && MostCommon(ordered, i, j, s.interval)
  }

  /** The gap a piece starts with is further than the tolerance from the one before it did. */
  predicate Breaks(ordered: seq<int>, i: nat, j: nat, tolerance: int)
  {
    && i + 1 < |ordered| && j + 1 < |ordered|
    && (GapAt(ordered, j) - GapAt(ordered, i) > tolerance || GapAt(ordered, i) - GapAt(ordered, j) > tolerance)
  }

  ghost predicate SteadyCuts(ordered: seq<int>, segments: seq<Segment>, cuts: seq<nat>, tolerance: int)
  {
    && |cuts| == |segments| + 1 && cuts[0] == 0 && cuts[|cuts| - 1] == |ordered| - 1
    && (forall c :: 0 <= c < |segments| ==> SteadyPiece(ordered, segments[c], cuts[c], cuts[c + 1], tolerance))
    && (forall c :: 0 <= c < |segments| - 1 ==> Breaks(ordered, cuts[c], cuts[c + 1], tolerance))
  }

  lemma HowManyOneMore(ordered: seq<int>, i: nat, j: nat, gap: int)
    requires i < j < |ordered|
    ensures HowMany(ordered, i, j, gap) == HowMany(ordered, i, j - 1, gap) + (if GapAt(ordered, j - 1) == gap then 1 else 0)
  {
    var before := set k | i <= k < j - 1 && GapAt(ordered, k) == gap;
    assert (set k | i <= k < j && GapAt(ordered, k) == gap) == if GapAt(ordered, j - 1) == gap then before + {j - 1} else before;
  }

  lemma {:induction false} CountIsHowMany(ordered: seq<int>, i: nat, n: nat, gap: int)
    requires i + n < |ordered|
    ensures CountOf(gap, Gaps(ordered)[i..i + n]) == HowMany(ordered, i, i + n, gap)
  {
    var gaps := Gaps(ordered);
    if n > 0 {
      CountIsHowMany(ordered, i, n - 1, gap);
      assert gaps[i..i + n] == gaps[i..i + n - 1] + [gaps[i + n - 1]];
      CountOneMore(gap, gaps[i..i + n - 1], gaps[i + n - 1]);
      HowManyOneMore(ordered, i, i + n, gap);
    }
  }

  lemma WindowCounts(ordered: seq<int>, i: nat, j: nat, m: int)
    requires i <= m < j < |ordered|
    ensures var window := Gaps(ordered)[i..j];
            window[m - i] == GapAt(ordered, m) && CountOf(window[m - i], window) == HowMany(ordered, i, j, GapAt(ordered, m))
  {
    CountIsHowMany(ordered, i, j - i, GapAt(ordered, m));
  }

  lemma ModalIsMostCommon(ordered: seq<int>, i: nat, j: nat, interval: int)
    requires i < j < |ordered| && IsModal(Gaps(ordered)[i..j], interval)
    ensures MostCommon(ordered, i, j, interval)
  {
    var window := Gaps(ordered)[i..j];
    var k :| 0 <= k < |window| && FirstOfTheMost(window, |window|, k) && window[k] == interval;
    WindowCounts(ordered, i, j, i + k);
    forall m | i <= m < j
      ensures HowMany(ordered, i, j, GapAt(ordered, m)) <= HowMany(ordered, i, j, interval)
      ensures m < i + k ==> HowMany(ordered, i, j, GapAt(ordered, m)) < HowMany(ordered, i, j, interval)
    {
      WindowCounts(ordered, i, j, m);
    }
    assert FirstMostCommon(ordered, i, j, i + k);
  }

  lemma CoveredIsSteady(ordered: seq<int>, s: Segment, i: nat, j: nat, tolerance: int)
    requires |ordered| > 0 && Covers(ordered, s, i, j, tolerance)
    ensures SteadyPiece(ordered, s, i, j, tolerance)
  {
    ModalIsMostCommon(ordered, i, j, s.interval);
    var gaps := Gaps(ordered);
    forall k | i < k < j
      ensures -tolerance <= GapAt(ordered, k) - GapAt(ordered, i) <= tolerance
    {
      assert Distance(gaps[k], gaps[i]) <= tolerance;
    }
  }

  /** Each segment is a stretch of settlements whose gaps stay within the tolerance of its
      first, with the first of its most common gaps as its interval; each next one starts at
      a gap that does not. */
  lemma SegmentsAreSteady(ordered: seq<int>, segments: seq<Segment>, tolerance: int)
    requires |ordered| >= 2 && Tiles(ordered, segments, tolerance)
    ensures exists cuts :: SteadyCuts(ordered, segments, cuts, tolerance)
  {
    var cuts :| CutAt(ordered, segments, cuts, tolerance) && cuts[|cuts| - 1] == |ordered| - 1;
    forall c | 0 <= c < |segments| ensures SteadyPiece(ordered, segments[c], cuts[c], cuts[c + 1], tolerance) {
      assert Piece(ordered, segments, cuts, c, tolerance);
      CoveredIsSteady(ordered, segments[c], cuts[c], cuts[c + 1], tolerance);
    }
    forall c | 0 <= c < |segments| - 1 ensures Breaks(ordered, cuts[c], cuts[c + 1], tolerance) {
      assert Changes(Gaps(ordered), cuts, c, tolerance);
    }
    assert SteadyCuts(ordered, segments, cuts, tolerance);
  }

  // --------------------------------------------------------------------- what is due

  datatype Settlement = Settlement(ts: int, rate: real, mark: real)

  /** What the constructor of the schedule accepts. */
  predicate ScheduleBuilds(settlements: seq<Settlement>)
  {
    forall i, j :: 0 <= i < j < |settlements| ==> settlements[i].ts < settlements[j].ts
  }

  /** The comprehension of `due`: the half-open window. */
  function Due(settlements: seq<Settlement>, start: int, end: int): seq<Settlement>
  {
    if settlements == [] then []
    else
      var front, last := Due(settlements[..|settlements| - 1], start, end), settlements[|settlements| - 1];
      if start <= last.ts < end then front + [last] else front
  }

  function Occurrences(x: Settlement, s: seq<Settlement>): nat
  {
    if s == [] then 0 else Occurrences(x, s[..|s| - 1]) + (if s[|s| - 1] == x then 1 else 0)
  }

  lemma {:induction false} NothingIsDue(settlements: seq<Settlement>, start: int, end: int)
    requires forall i :: 0 <= i < |settlements| ==> !(start <= settlements[i].ts < end)
    ensures Due(settlements, start, end) == []
  {
    if settlements != [] { NothingIsDue(settlements[..|settlements| - 1], start, end); }
  }

  /** Consecutive windows concatenate: nothing is settled twice and nothing is missed. */
  lemma {:induction false} WindowsConcatenate(settlements: seq<Settlement>, a: int, b: int, c: int)
    requires ScheduleBuilds(settlements) && a <= b <= c
    ensures Due(settlements, a, b) + Due(settlements, b, c) == Due(settlements, a, c)
  {
    if settlements != [] {
      var front, last := settlements[..|settlements| - 1], settlements[|settlements| - 1];
      WindowsConcatenate(front, a, b, c);
      if a <= last.ts < b {
        NothingIsDue(front, b, c);
      }
    }
  }

  /** What an event loop collects over the windows between `bounds`. */
  function Collected(settlements: seq<Settlement>, bounds: seq<int>): seq<Settlement>
  {
    if |bounds| < 2 then []
    else Collected(settlements, bounds[..|bounds| - 1]) + Due(settlements, bounds[|bounds| - 2], bounds[|bounds| - 1])
  }

  lemma {:induction false} StepsCollectTheWholeWindow(settlements: seq<Settlement>, bounds: seq<int>)
    requires ScheduleBuilds(settlements) && Ascending(bounds) && |bounds| >= 1
    ensures Collected(settlements, bounds) == Due(settlements, bounds[0], bounds[|bounds| - 1])
  {
    var n := |bounds|;
    if n == 1 {
      NothingIsDue(settlements, bounds[0], bounds[0]);
    } else {
      StepsCollectTheWholeWindow(settlements, bounds[..n - 1]);
      WindowsConcatenate(settlements, bounds[0], bounds[n - 2], bounds[n - 1]);
    }
  }

  lemma OccurrencesOneMore(x: Settlement, s: seq<Settlement>, y: Settlement)
    ensures Occurrences(x, s + [y]) == Occurrences(x, s) + (if y == x then 1 else 0)
  {
    assert (s + [y])[..|s|] == s;
  }

  lemma LastSettlementIsNew(settlements: seq<Settlement>)
    requires ScheduleBuilds(settlements) && settlements != []
    ensures var front, last := settlements[..|settlements| - 1], settlements[|settlements| - 1];
            ScheduleBuilds(front) && last !in front && forall x :: x in settlements <==> x in front || x == last
  {
    var front, last := settlements[..|settlements| - 1], settlements[|settlements| - 1];
    assert settlements == front + [last];
    forall i | 0 <= i < |front|
      ensures front[i] != last
    {
      assert settlements[i].ts < settlements[|front|].ts;
    }
  }

  lemma {:induction false} DueOnce(settlements: seq<Settlement>, start: int, end: int, x: Settlement)
    requires ScheduleBuilds(settlements)
    ensures Occurrences(x, Due(settlements, start, end))
         == if x in settlements && start <= x.ts < end then 1 else 0
  {
    if settlements != [] {
      var front, last := settlements[..|settlements| - 1], settlements[|settlements| - 1];
      LastSettlementIsNew(settlements);
      DueOnce(front, start, end, x);
      OccurrencesOneMore(x, Due(front, start, end), last);
    }
  }

  /** Stepping through consecutive half-open windows settles each settlement between the
      first bound and the last exactly once. */
  lemma EachSettlementOnce(settlements: seq<Settlement>, bounds: seq<int>, x: Settlement)
    requires ScheduleBuilds(settlements) && Ascending(bounds) && |bounds| >= 1
    ensures Occurrences(x, Collected(settlements, bounds))
         == if x in settlements && bounds[0] <= x.ts < bounds[|bounds| - 1] then 1 else 0
  {
    StepsCollectTheWholeWindow(settlements, bounds);
    DueOnce(settlements, bounds[0], bounds[|bounds| - 1], x);
  }
}
