/** Comparing two logs: the two matchers together, and what the comparison accounts for
    (perplab/analytics/parity.py:594-766). */
module ParityMatching {
  import opened Wrappers
  import opened Parity

  // ------------------------------------------------------------------- named fills

  /** The shadow log indexed by identity: the first fill of each name, the names in the
      order they appeared, and what could not be indexed. */
  datatype Index = Index(
    byName: map<Identity, FillRecord>, names: seq<Identity>, duplicates: seq<FillRecord>, unnamed: seq<FillRecord>)

  /** One more shadow fill. */
  function IndexMore(x: Index, f: FillRecord): Index
  {
    if f.Name() == None then x.(unnamed := x.unnamed + [f])
    else if f.Name().value in x.byName then x.(duplicates := x.duplicates + [f])
    else x.(byName := x.byName[f.Name().value := f], names := x.names + [f.Name().value])
  }

  function Indexed(shadow: seq<FillRecord>): Index
  {
    if shadow == [] then Index(map[], [], [], []) else IndexMore(Indexed(shadow[..|shadow| - 1]), shadow[|shadow| - 1])
  }

  /** The shadow fill a named paper fill is believed to be. */
  function Partner(f: FillRecord, byName: map<Identity, FillRecord>): Option<FillRecord>
  {
    if f.Name().Some? && f.Name().value in byName && byName[f.Name().value].OrderKey() == f.OrderKey() then
      Some(byName[f.Name().value])
    else None
  }

  /** The paper log sorted out against the index. */
  datatype Sorted = Sorted(pairs: seq<Pair>, left: seq<FillRecord>, names: set<Identity>, unnamed: seq<FillRecord>)

  function SortedOut(paper: seq<FillRecord>, byName: map<Identity, FillRecord>): Sorted
  {
    if paper == [] then Sorted([], [], {}, [])
    else
      var front, f := SortedOut(paper[..|paper| - 1], byName), paper[|paper| - 1];
      if f.Name() == None then front.(unnamed := front.unnamed + [f])
      else if Partner(f, byName) == None then front.(left := front.left + [f])
      else front.(pairs := front.pairs + [Pair(f, Partner(f, byName).value)], names := front.names + {f.Name().value})
  }

  /** The indexed shadow fills, among the first `n` names, that no paper fill matched. */
  function Unclaimed(names: seq<Identity>, byName: map<Identity, FillRecord>, matched: set<Identity>, n: nat): seq<FillRecord>
    requires n <= |names|
    decreases n
  {
    if n == 0 then []
    else if names[n - 1] in matched || names[n - 1] !in byName then Unclaimed(names, byName, matched, n - 1)
    else Unclaimed(names, byName, matched, n - 1) + [byName[names[n - 1]]]
  }

  // ---------------------------------------------------------------- reporting order

  predicate Before(f: FillRecord, g: FillRecord)
  {
    f.ts < g.ts || (f.ts == g.ts && f.seqNo <= g.seqNo)
  }

  function Place(log: seq<FillRecord>, f: FillRecord): seq<FillRecord>
  {
    if log == [] || Before(log[|log| - 1], f) then log + [f]
    else Place(log[..|log| - 1], f) + [log[|log| - 1]]
  }

  /** The stable sort on `(ts, seqNo)`. */
  function Chronological(log: seq<FillRecord>): seq<FillRecord>
  {
    if log == [] then [] else Place(Chronological(log[..|log| - 1]), log[|log| - 1])
  }

  predicate InOrder(log: seq<FillRecord>)
  {
    forall i, j :: 0 <= i < j < |log| ==> Before(log[i], log[j])
  }

  lemma {:induction false} PlaceCounts(log: seq<FillRecord>, f: FillRecord, g: FillRecord)
    ensures Occurs(g, Place(log, f)) == Occurs(g, log) + (if f == g then 1 else 0)
    ensures |Place(log, f)| == |log| + 1
    decreases |log|
  {
    if log == [] || Before(log[|log| - 1], f) {
      OccursOneMore(g, log, f);
    } else {
      var front, last := log[..|log| - 1], log[|log| - 1];
      PlaceCounts(front, f, g);
      OccursOneMore(g, Place(front, f), last);
    }
  }

  lemma {:induction false} PlaceKeepsOrder(log: seq<FillRecord>, f: FillRecord)
    requires InOrder(log)
    ensures InOrder(Place(log, f))
    decreases |log|
  {
    if log != [] && !Before(log[|log| - 1], f) {
      var front, last := log[..|log| - 1], log[|log| - 1];
      PlaceKeepsOrder(front, f);
      PlaceBefore(front, f, last);
    }
  }

  lemma {:induction false} PlaceBefore(log: seq<FillRecord>, f: FillRecord, last: FillRecord)
    requires Before(f, last) && forall i :: 0 <= i < |log| ==> Before(log[i], last)
    ensures forall i :: 0 <= i < |Place(log, f)| ==> Before(Place(log, f)[i], last)
    decreases |log|
  {
    if log != [] && !Before(log[|log| - 1], f) { PlaceBefore(log[..|log| - 1], f, last); }
  }

  /** Sorting the unmatched lists neither loses nor invents a fill. */
  lemma {:induction false} ChronologicalKeeps(log: seq<FillRecord>, g: FillRecord)
    ensures Occurs(g, Chronological(log)) == Occurs(g, log)
    ensures |Chronological(log)| == |log| && InOrder(Chronological(log))
  {
    if log != [] {
      ChronologicalKeeps(log[..|log| - 1], g);
      PlaceCounts(Chronological(log[..|log| - 1]), log[|log| - 1], g);
      PlaceKeepsOrder(Chronological(log[..|log| - 1]), log[|log| - 1]);
    }
  }

  // ----------------------------------------------------------------- the comparison

  function PairsOf(paper: seq<FillRecord>, shadow: seq<FillRecord>): seq<Pair>
  {
    var index := Indexed(shadow);
    var sorted := SortedOut(paper, index.byName);
    sorted.pairs + Taken(sorted.unnamed, index.unnamed, |sorted.unnamed|)
  }

  function PaperOnly(paper: seq<FillRecord>, shadow: seq<FillRecord>): seq<FillRecord>
  {
    var index := Indexed(shadow);
    var sorted := SortedOut(paper, index.byName);
    sorted.left + LeftInPaper(sorted.unnamed, index.unnamed, |sorted.unnamed|)
  }

  function ShadowOnly(paper: seq<FillRecord>, shadow: seq<FillRecord>): seq<FillRecord>
  {
    var index := Indexed(shadow);
    var sorted := SortedOut(paper, index.byName);
    index.duplicates
    + LeftInShadow(index.unnamed, TakenFrom(sorted.unnamed, index.unnamed, |sorted.unnamed|), |index.unnamed|)
    + Unclaimed(index.names, index.byName, sorted.names, |index.names|)
  }

  /** The names are the domain, each once, and each fill is filed under its own. */
  ghost predicate Sound(x: Index)
  {
    && (forall k :: 0 <= k < |x.names| ==> x.names[k] in x.byName)
    && (forall j, k :: 0 <= j < k < |x.names| ==> x.names[j] != x.names[k])
    && (forall id :: id in x.byName ==> id in x.names && x.byName[id].Name() == Some(id))
  }

  lemma IndexMoreIsSound(x: Index, f: FillRecord)
    requires Sound(x)
    ensures Sound(IndexMore(x, f))
  {
    var y := IndexMore(x, f);
    assert |y.names| > |x.names| ==> y.names[|x.names|] == f.Name().value;
    forall id | id in x.names
      ensures id in y.names
    {
      var k :| 0 <= k < |x.names| && x.names[k] == id;
      assert y.names[k] == id;
    }
  }

  lemma {:induction false} IndexIsSound(shadow: seq<FillRecord>)
    ensures Sound(Indexed(shadow))
  {
    if shadow != [] {
      IndexIsSound(shadow[..|shadow| - 1]);
      IndexMoreIsSound(Indexed(shadow[..|shadow| - 1]), shadow[|shadow| - 1]);
    }
  }

  /** The index holds, under each name the shadow log has, the first fill of that name. */
  lemma {:induction false} IndexHoldsTheFirst(shadow: seq<FillRecord>, id: Identity)
    ensures id in Indexed(shadow).byName <==> exists j :: 0 <= j < |shadow| && shadow[j].Name() == Some(id)
    ensures id in Indexed(shadow).byName ==>
              exists j :: 0 <= j < |shadow| && shadow[j] == Indexed(shadow).byName[id]
                          && forall k :: 0 <= k < j ==> shadow[k].Name() != Some(id)
  {
    if shadow != [] {
      var front := shadow[..|shadow| - 1];
      IndexHoldsTheFirst(front, id);
      if id in Indexed(front).byName {
        var j :| 0 <= j < |front| && front[j] == Indexed(front).byName[id]
                 && forall k :: 0 <= k < j ==> front[k].Name() != Some(id);
        IndexIsSound(front);
        assert shadow[j] == front[j] && forall k :: 0 <= k < j ==> shadow[k] == front[k];
      } else {
        assert forall j :: 0 <= j < |front| ==> shadow[j] == front[j];
      }
    }
  }

  // -------------------------------------------------------------- nothing is lost

  lemma OccursTogether(f: FillRecord, a: seq<FillRecord>, b: seq<FillRecord>)
    ensures Occurs(f, a + b) == Occurs(f, a) + Occurs(f, b)
    decreases |b|
  {
    if b == [] {
      assert a + b == a;
    } else {
      OccursTogether(f, a, b[..|b| - 1]);
      assert a + b == (a + b[..|b| - 1]) + [b[|b| - 1]];
      OccursOneMore(f, a + b[..|b| - 1], b[|b| - 1]);
    }
  }

  lemma {:induction false} PaperIsSortedOut(f: FillRecord, paper: seq<FillRecord>, byName: map<Identity, FillRecord>)
    ensures var s := SortedOut(paper, byName);
            && Occurs(f, paper) == Occurs(f, Papers(s.pairs)) + Occurs(f, s.left) + Occurs(f, s.unnamed)
            && |paper| == |s.pairs| + |s.left| + |s.unnamed|
  {
    if paper != [] {
      var front, last := paper[..|paper| - 1], paper[|paper| - 1];
      PaperIsSortedOut(f, front, byName);
      var s := SortedOut(front, byName);
      if last.Name() == None {
        OccursOneMore(f, s.unnamed, last);
      } else if Partner(last, byName) == None {
        OccursOneMore(f, s.left, last);
      } else {
        OneMorePair(f, s.pairs, Pair(last, Partner(last, byName).value));
      }
    }
  }

  /** How often a record occurs among the indexed, the duplicate and the unnamed fills. */
  function IndexOccurs(f: FillRecord, x: Index): nat
  {
    UnclaimedOccurs(f, x.names, x.byName, {}, |x.names|) + Occurs(f, x.duplicates) + Occurs(f, x.unnamed)
  }

  lemma NamesAreIndexed(shadow: seq<FillRecord>)
    ensures var x := Indexed(shadow); forall k :: 0 <= k < |x.names| ==> x.names[k] in x.byName
  {
    IndexIsSound(shadow);
  }

  lemma IndexingCountsOnce(f: FillRecord, x: Index, last: FillRecord)
    requires forall k :: 0 <= k < |x.names| ==> x.names[k] in x.byName
    ensures IndexOccurs(f, IndexMore(x, last)) == IndexOccurs(f, x) + (if last == f then 1 else 0)
  {
    if last.Name() == None {
      OccursOneMore(f, x.unnamed, last);
    } else if last.Name().value in x.byName {
      OccursOneMore(f, x.duplicates, last);
    } else {
      OneMoreName(f, x.names, x.byName, last, |x.names|);
    }
  }

  lemma {:induction false} ShadowIsIndexed(f: FillRecord, shadow: seq<FillRecord>)
    ensures Occurs(f, shadow) == IndexOccurs(f, Indexed(shadow))
  {
    if shadow != [] {
      var front := shadow[..|shadow| - 1];
      ShadowIsIndexed(f, front);
      NamesAreIndexed(front);
      IndexingCountsOnce(f, Indexed(front), shadow[|shadow| - 1]);
    }
  }

  lemma {:induction false} ShadowIsCounted(shadow: seq<FillRecord>)
    ensures var x := Indexed(shadow); |shadow| == |x.names| + |x.duplicates| + |x.unnamed|
  {
    if shadow != [] { ShadowIsCounted(shadow[..|shadow| - 1]); }
  }

  /** How often a record is unclaimed among the first `n` names. */
  function UnclaimedOccurs(f: FillRecord, names: seq<Identity>, byName: map<Identity, FillRecord>, matched: set<Identity>, n: nat): nat
    requires n <= |names|
    decreases n
  {
    if n == 0 then 0
    else
      UnclaimedOccurs(f, names, byName, matched, n - 1)
      + (if names[n - 1] !in matched && names[n - 1] in byName && byName[names[n - 1]] == f then 1 else 0)
  }

  lemma {:induction false} UnclaimedIsCounted(f: FillRecord, names: seq<Identity>, byName: map<Identity, FillRecord>,
                                              matched: set<Identity>, n: nat)
    requires n <= |names|
    ensures Occurs(f, Unclaimed(names, byName, matched, n)) == UnclaimedOccurs(f, names, byName, matched, n)
    decreases n
  {
    if n > 0 {
      UnclaimedIsCounted(f, names, byName, matched, n - 1);
      if names[n - 1] in byName {
        OccursOneMore(f, Unclaimed(names, byName, matched, n - 1), byName[names[n - 1]]);
      }
    }
  }

  lemma {:induction false} OneMoreName(f: FillRecord, names: seq<Identity>, byName: map<Identity, FillRecord>, last: FillRecord, n: nat)
    requires n <= |names| && last.Name().Some? && last.Name().value !in byName
    requires forall k :: 0 <= k < |names| ==> names[k] in byName
    ensures var id := last.Name().value;
            && UnclaimedOccurs(f, names + [id], byName[id := last], {}, n) == UnclaimedOccurs(f, names, byName, {}, n)
            && UnclaimedOccurs(f, names + [id], byName[id := last], {}, |names| + 1)
               == UnclaimedOccurs(f, names + [id], byName[id := last], {}, |names|) + (if last == f then 1 else 0)
    decreases n
  {
    if n > 0 { OneMoreName(f, names, byName, last, n - 1); }
  }

  predicate Distinct(names: seq<Identity>)
  {
    forall j, k :: 0 <= j < k < |names| ==> names[j] != names[k]
  }

  /** One more name matched is one more record claimed. */
  lemma {:induction false} ClaimOneMore(f: FillRecord, names: seq<Identity>, byName: map<Identity, FillRecord>,
                                        matched: set<Identity>, more: set<Identity>, i: nat, n: nat)
    requires i < |names| && names[i] in byName && names[i] !in matched && Distinct(names) && n <= |names|
    requires forall id :: id in more <==> id in matched || id == names[i]
    ensures UnclaimedOccurs(f, names, byName, matched, n)
         == UnclaimedOccurs(f, names, byName, more, n) + (if i < n && byName[names[i]] == f then 1 else 0)
    decreases n
  {
    if n > 0 { ClaimOneMore(f, names, byName, matched, more, i, n - 1); }
  }

  lemma {:induction false} ClaimOneFewer(names: seq<Identity>, byName: map<Identity, FillRecord>,
                                         matched: set<Identity>, more: set<Identity>, i: nat, n: nat)
    requires i < |names| && names[i] in byName && names[i] !in matched && Distinct(names) && n <= |names|
    requires forall id :: id in more <==> id in matched || id == names[i]
    ensures |Unclaimed(names, byName, matched, n)| == |Unclaimed(names, byName, more, n)| + (if i < n then 1 else 0)
    decreases n
  {
    if n > 0 { ClaimOneFewer(names, byName, matched, more, i, n - 1); }
  }

  /** No two matched paper fills share a name. */
  predicate MatchedOnce(paper: seq<FillRecord>, byName: map<Identity, FillRecord>)
  {
    forall i, j :: 0 <= i < j < |paper| && Partner(paper[i], byName).Some? && Partner(paper[j], byName).Some? ==>
      paper[i].Name() != paper[j].Name()
  }

  lemma {:induction false} MatchedNames(paper: seq<FillRecord>, byName: map<Identity, FillRecord>)
    ensures var s := SortedOut(paper, byName);
            forall id :: id in s.names <==>
              exists i :: 0 <= i < |paper| && Partner(paper[i], byName).Some? && paper[i].Name() == Some(id)
  {
    if paper != [] { MatchedNames(paper[..|paper| - 1], byName); }
  }

  lemma MatchedOnceGrows(paper: seq<FillRecord>, byName: map<Identity, FillRecord>)
    requires paper != []
    ensures var front, last := paper[..|paper| - 1], paper[|paper| - 1];
            MatchedOnce(paper, byName)
            <==> && MatchedOnce(front, byName)
                 && (Partner(last, byName).Some? ==> last.Name().value !in SortedOut(front, byName).names)
  {
    var front, last := paper[..|paper| - 1], paper[|paper| - 1];
    MatchedNames(front, byName);
    assert forall i :: 0 <= i < |front| ==> paper[i] == front[i];
    if Partner(last, byName).Some? && last.Name().value in SortedOut(front, byName).names {
      var i :| 0 <= i < |front| && Partner(front[i], byName).Some? && front[i].Name() == last.Name();
      assert paper[i] == front[i];
    }
  }

  /** As many names are matched as pairs are made, exactly when none is matched twice. */
  lemma {:induction false} PairsAgainstNames(paper: seq<FillRecord>, byName: map<Identity, FillRecord>)
    ensures var s := SortedOut(paper, byName);
            |s.names| <= |s.pairs| && (|s.names| == |s.pairs| <==> MatchedOnce(paper, byName))
  {
    if paper != [] {
      var front, last := paper[..|paper| - 1], paper[|paper| - 1];
      PairsAgainstNames(front, byName);
      MatchedOnceGrows(paper, byName);
      if Partner(last, byName).Some? && last.Name().value in SortedOut(front, byName).names {
        assert SortedOut(paper, byName).names == SortedOut(front, byName).names;
      }
    }
  }

  /** What the named matches claim of the index, when no name is matched twice. */
  lemma {:induction false} MatchesClaim(f: FillRecord, paper: seq<FillRecord>, names: seq<Identity>, byName: map<Identity, FillRecord>)
    requires MatchedOnce(paper, byName) && Distinct(names) && forall id :: id in byName ==> id in names
    ensures var s := SortedOut(paper, byName);
            UnclaimedOccurs(f, names, byName, {}, |names|)
            == Occurs(f, Shadows(s.pairs)) + UnclaimedOccurs(f, names, byName, s.names, |names|)
  {
    if paper != [] {
      var front, last := paper[..|paper| - 1], paper[|paper| - 1];
      MatchesClaim(f, front, names, byName);
      MatchedNames(front, byName);
      var s := SortedOut(front, byName);
      if Partner(last, byName).Some? {
        var id := last.Name().value;
        var i :| 0 <= i < |names| && names[i] == id;
        ClaimOneMore(f, names, byName, s.names, SortedOut(paper, byName).names, i, |names|);
        OneMorePair(f, s.pairs, Pair(last, byName[id]));
      }
    }
  }

  lemma {:induction false} MatchesLeave(paper: seq<FillRecord>, names: seq<Identity>, byName: map<Identity, FillRecord>)
    requires Distinct(names) && forall id :: id in byName ==> id in names
    ensures var s := SortedOut(paper, byName);
            |Unclaimed(names, byName, {}, |names|)| == |s.names| + |Unclaimed(names, byName, s.names, |names|)|
  {
    if paper != [] {
      var front, last := paper[..|paper| - 1], paper[|paper| - 1];
      MatchesLeave(front, names, byName);
      var s := SortedOut(front, byName);
      if Partner(last, byName).Some? && last.Name().value !in s.names {
        var i :| 0 <= i < |names| && names[i] == last.Name().value;
        ClaimOneFewer(names, byName, s.names, SortedOut(paper, byName).names, i, |names|);
      } else if Partner(last, byName).Some? {
        assert SortedOut(paper, byName).names == s.names;
      }
    }
  }

  // ---------------------------------------------------------------------- theorems

  /** Every paper fill is in exactly one pair or on the paper-only list, as often as the log
      holds it. */
  lemma PaperIsAccountedFor(f: FillRecord, paper: seq<FillRecord>, shadow: seq<FillRecord>)
    ensures Occurs(f, paper) == Occurs(f, Papers(PairsOf(paper, shadow))) + Occurs(f, PaperOnly(paper, shadow))
    ensures |paper| == |PairsOf(paper, shadow)| + |PaperOnly(paper, shadow)|
  {
    var x := Indexed(shadow);
    var s := SortedOut(paper, x.byName);
    var n := |s.unnamed|;
    PaperIsSortedOut(f, paper, x.byName);
    PaperIsPartitioned(f, s.unnamed, x.unnamed, n);
    assert s.unnamed[..n] == s.unnamed;
    PapersTogether(f, s.pairs, Taken(s.unnamed, x.unnamed, n));
    OccursTogether(f, s.left, LeftInPaper(s.unnamed, x.unnamed, n));
    PaperSizes(s.unnamed, x.unnamed, n);
  }

  lemma PapersTogether(f: FillRecord, a: seq<Pair>, b: seq<Pair>)
    ensures Occurs(f, Papers(a + b)) == Occurs(f, Papers(a)) + Occurs(f, Papers(b))
    ensures Occurs(f, Shadows(a + b)) == Occurs(f, Shadows(a)) + Occurs(f, Shadows(b))
  {
    assert Papers(a + b) == Papers(a) + Papers(b);
    assert Shadows(a + b) == Shadows(a) + Shadows(b);
    OccursTogether(f, Papers(a), Papers(b));
    OccursTogether(f, Shadows(a), Shadows(b));
  }

  lemma {:induction false} PaperSizes(paper: seq<FillRecord>, shadow: seq<FillRecord>, n: nat)
    requires n <= |paper|
    ensures |Taken(paper, shadow, n)| + |LeftInPaper(paper, shadow, n)| == n
    decreases n
  {
    if n > 0 { PaperSizes(paper, shadow, n - 1); }
  }

  lemma {:induction false} ShadowSizes(paper: seq<FillRecord>, shadow: seq<FillRecord>, n: nat)
    requires n <= |paper|
    ensures |Taken(paper, shadow, n)| + |LeftInShadow(shadow, TakenFrom(paper, shadow, n), |shadow|)| == |shadow|
    decreases n
  {
    if n == 0 {
      NothingTaken(shadow, |shadow|);
    } else {
      ShadowSizes(paper, shadow, n - 1);
      var c := Chosen(paper, shadow, n - 1);
      if c.Some? {
        NothingIsTakenTwice(paper, shadow, n);
        TakingShortens(shadow, TakenFrom(paper, shadow, n - 1), TakenFrom(paper, shadow, n), c.value, |shadow|);
      }
    }
  }

  lemma {:induction false} TakingShortens(shadow: seq<FillRecord>, taken: set<nat>, more: set<nat>, j: nat, n: nat)
    requires j < |shadow| && j !in taken && n <= |shadow|
    requires forall k :: k in more <==> k in taken || k == j
    ensures |LeftInShadow(shadow, taken, n)| == |LeftInShadow(shadow, more, n)| + (if j < n then 1 else 0)
    decreases n
  {
    if n > 0 { TakingShortens(shadow, taken, more, j, n - 1); }
  }

  /** The same for the shadow log, as long as no name was matched twice. */
  lemma ShadowIsAccountedFor(f: FillRecord, paper: seq<FillRecord>, shadow: seq<FillRecord>)
    requires MatchedOnce(paper, Indexed(shadow).byName)
    ensures Occurs(f, shadow) == Occurs(f, Shadows(PairsOf(paper, shadow))) + Occurs(f, ShadowOnly(paper, shadow))
  {
    var x := Indexed(shadow);
    var s := SortedOut(paper, x.byName);
    var n := |s.unnamed|;
    IndexIsSound(shadow);
    ShadowIsIndexed(f, shadow);
    MatchesClaim(f, paper, x.names, x.byName);
    UnclaimedIsCounted(f, x.names, x.byName, s.names, |x.names|);
    ShadowIsPartitioned(f, s.unnamed, x.unnamed, n);
    PapersTogether(f, s.pairs, Taken(s.unnamed, x.unnamed, n));
    var rest := LeftInShadow(x.unnamed, TakenFrom(s.unnamed, x.unnamed, n), |x.unnamed|);
    var unclaimed := Unclaimed(x.names, x.byName, s.names, |x.names|);
    OccursTogether(f, x.duplicates + rest, unclaimed);
    OccursTogether(f, x.duplicates, rest);
  }

  lemma {:induction false} AllUnclaimed(names: seq<Identity>, byName: map<Identity, FillRecord>, n: nat)
    requires n <= |names| && forall k :: 0 <= k < |names| ==> names[k] in byName
    ensures |Unclaimed(names, byName, {}, n)| == n
    decreases n
  {
    if n > 0 { AllUnclaimed(names, byName, n - 1); }
  }

  /** The shadow counts add up exactly when no shadow fill was matched by two paper fills of
      one name. */
  lemma ShadowCountsAgreeExactlyWhenMatchedOnce(paper: seq<FillRecord>, shadow: seq<FillRecord>)
    ensures |shadow| == |PairsOf(paper, shadow)| + |ShadowOnly(paper, shadow)|
       <==> MatchedOnce(paper, Indexed(shadow).byName)
  {
    var x := Indexed(shadow);
    var s := SortedOut(paper, x.byName);
    IndexIsSound(shadow);
    ShadowIsCounted(shadow);
    AllUnclaimed(x.names, x.byName, |x.names|);
    MatchesLeave(paper, x.names, x.byName);
    PairsAgainstNames(paper, x.byName);
    ShadowSizes(s.unnamed, x.unnamed, |s.unnamed|);
  }

  /** A log as `ReadFills` numbers it never has a name matched twice. */
  lemma UniqueNamesMatchOnce(paper: seq<FillRecord>, byName: map<Identity, FillRecord>)
    requires UniqueNames(paper)
    ensures MatchedOnce(paper, byName)
  {
  }

  /** What a pair means: one name and one order, or no names and nothing else either could
      have been paired with. */
  ghost predicate Believed(p: Pair, paper: seq<FillRecord>, shadow: seq<FillRecord>)
  {
    if p.paper.Name().Some? then p.shadow.Name() == p.paper.Name() && p.shadow.OrderKey() == p.paper.OrderKey()
    else exists i, j :: Mutual(paper, shadow, i, j) && p == Pair(paper[i], shadow[j])
  }

  lemma {:induction false} NamedPairsAreBelieved(paper: seq<FillRecord>, index: Index, p: Pair)
    requires forall id :: id in index.byName ==> index.byName[id].Name() == Some(id)
    requires p in SortedOut(paper, index.byName).pairs
    ensures p.paper.Name().Some? && p.shadow.Name() == p.paper.Name() && p.shadow.OrderKey() == p.paper.OrderKey()
  {
    var front := paper[..|paper| - 1];
    if p in SortedOut(front, index.byName).pairs { NamedPairsAreBelieved(front, index, p); }
  }

  lemma {:induction false} TakenPairsAreMutual(paper: seq<FillRecord>, shadow: seq<FillRecord>, n: nat, p: Pair)
    requires n <= |paper| && p in Taken(paper, shadow, n)
    ensures exists i, j :: Mutual(paper, shadow, i, j) && p == Pair(paper[i], shadow[j])
    decreases n
  {
    if p in Taken(paper, shadow, n - 1) {
      TakenPairsAreMutual(paper, shadow, n - 1, p);
    } else {
      ChosenMeansMutual(paper, shadow, n - 1, Chosen(paper, shadow, n - 1).value);
    }
  }

  lemma {:induction false} UnnamedHaveNoName(paper: seq<FillRecord>, byName: map<Identity, FillRecord>)
    ensures forall f :: f in SortedOut(paper, byName).unnamed ==> f.Name() == None
  {
    if paper != [] { UnnamedHaveNoName(paper[..|paper| - 1], byName); }
  }

  lemma EveryPairIsBelieved(paper: seq<FillRecord>, shadow: seq<FillRecord>, p: Pair)
    requires p in PairsOf(paper, shadow)
    ensures Believed(p, SortedOut(paper, Indexed(shadow).byName).unnamed, Indexed(shadow).unnamed)
  {
    var x := Indexed(shadow);
    var s := SortedOut(paper, x.byName);
    IndexIsSound(shadow);
    UnnamedHaveNoName(paper, x.byName);
    if p in s.pairs {
      NamedPairsAreBelieved(paper, x, p);
    } else {
      TakenPairsAreMutual(s.unnamed, x.unnamed, |s.unnamed|, p);
      var i, j :| Mutual(s.unnamed, x.unnamed, i, j) && p == Pair(s.unnamed[i], x.unnamed[j]);
      assert s.unnamed[i] in s.unnamed;
    }
  }
}
