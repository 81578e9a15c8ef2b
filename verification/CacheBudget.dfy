/** The shared disk budget of the replay cache (perplab/resources.py:328-395): one registry,
    any number of processes, each of which may die at any moment. */
module CacheBudget {
  import opened Wrappers

  type Path = string
  type Token = nat
  type Process = nat

  /** A cached file, as the registry last saw it. */
  datatype File = File(size: nat, touched: int)

  /** A reservation: who holds it, for how much, and the file it is for. */
  datatype Write = Write(owner: Process, quota: nat, target: Option<Path>)

  datatype Registry = Registry(files: map<Path, File>, writes: map<Token, Write>)

  function SizeOf(f: File): nat
  {
    f.size
  }

  function QuotaOf(w: Write): nat
  {
    w.quota
  }

  ghost function Sum<K, V>(m: map<K, V>, weight: V -> nat): nat
    decreases |m|
  {
    if m == map[] then 0
    else
      var k :| k in m;
      weight(m[k]) + Sum(m - {k}, weight)
  }

  lemma {:induction false} SumRemove<K, V>(m: map<K, V>, weight: V -> nat, k: K)
    requires k in m
    ensures Sum(m, weight) == weight(m[k]) + Sum(m - {k}, weight)
    decreases |m|
  {
    var j :| j in m && Sum(m, weight) == weight(m[j]) + Sum(m - {j}, weight);
    if j != k {
      SumRemove(m - {j}, weight, k);
      SumRemove(m - {k}, weight, j);
      assert m - {j} - {k} == m - {k} - {j};
    }
  }

  lemma SumPut<K, V>(m: map<K, V>, weight: V -> nat, k: K, v: V)
    ensures Sum(m[k := v], weight) == Sum(m - {k}, weight) + weight(v)
  {
    SumRemove(m[k := v], weight, k);
    assert m[k := v] - {k} == m - {k};
  }

  lemma SumWithout<K, V>(m: map<K, V>, weight: V -> nat, k: K)
    ensures Sum(m - {k}, weight) <= Sum(m, weight)
  {
    if k in m { SumRemove(m, weight, k); } else { assert m - {k} == m; }
  }

  /** `small` is part of `large`. */
  ghost predicate Part(small: map<Path, File>, large: map<Path, File>)
  {
    small.Keys <= large.Keys && forall p :: p in small ==> small[p] == large[p]
  }

  lemma {:induction false} SumSplits(small: map<Path, File>, large: map<Path, File>)
    requires Part(small, large)
    ensures Sum(large, SizeOf) == Sum(small, SizeOf) + Sum(large - small.Keys, SizeOf)
    decreases |small|
  {
    if small == map[] {
      assert large - small.Keys == large;
    } else {
      var p :| p in small;
      SumSplits(small - {p}, large - {p});
      SumRemove(small, SizeOf, p);
      SumRemove(large, SizeOf, p);
      assert large - {p} - (small - {p}).Keys == large - small.Keys;
    }
  }

  /** Bytes the registry holds in cached files, and bytes it has promised to writers. */
  ghost function Cached(r: Registry): nat
  {
    Sum(r.files, SizeOf)
  }

  ghost function Promised(r: Registry): nat
  {
    Sum(r.writes, QuotaOf)
  }

  ghost predicate Within(r: Registry, budget: nat)
  {
    Cached(r) + Promised(r) <= budget
  }

  // ------------------------------------------------------- abandoned writers' leases

  function Alive(writes: map<Token, Write>, living: set<Process>): map<Token, Write>
  {
    map t | t in writes && writes[t].owner in living :: writes[t]
  }

  /** The files dead writers left behind, where there is one. */
  function Abandoned(writes: map<Token, Write>, living: set<Process>, disk: map<Path, File>): (left: map<Path, File>)
  {
    map p | p in disk && IsAbandoned(writes, living, p) :: disk[p]
  }

  predicate IsAbandoned(writes: map<Token, Write>, living: set<Process>, p: Path)
  {
    exists t :: t in writes && writes[t].owner !in living && writes[t].target == Some(p)
  }

  /** Release what the dead hold, index what they left, index a root seen for the first
      time. */
  function Recovered(r: Registry, living: set<Process>, disk: map<Path, File>, found: map<Path, File>): Registry
  {
    Registry(r.files + Abandoned(r.writes, living, disk) + found, Alive(r.writes, living))
  }

  // ------------------------------------------------------------------------ eviction

  /** Oldest first: the registry's own query order. */
  ghost predicate OldestFirst(order: seq<Path>, files: map<Path, File>)
  {
    && (forall p :: p in order <==> p in files)
    && (forall i, j :: 0 <= i < j < |order| ==> order[i] != order[j])
    && (forall i, j :: 0 <= i < j < |order| && order[i] in files && order[j] in files ==>
          files[order[i]].touched <= files[order[j]].touched)
  }

  /** What cannot be deleted: cached files, and cached files whose `.json` sidecars cannot. */
  datatype Faults = Faults(locked: set<Path>, stuck: set<Path>) {
    /** What `used` goes on counting. */
    function Held(): set<Path>
    {
      locked + stuck
    }
  }

  /** The files `used` still counts once the oldest `n` have been considered for eviction: a
      file is taken off it after the file, its row and its sidecar are gone. `wanted` is what
      must be left free of cached bytes. */
  ghost function Counted(files: map<Path, File>, order: seq<Path>, n: nat, held: set<Path>, budget: nat, wanted: nat): map<Path, File>
    requires n <= |order|
    decreases n
  {
    if n == 0 then files
    else
      var rest := Counted(files, order, n - 1, held, budget, wanted);
      if Sum(rest, SizeOf) + wanted <= budget || order[n - 1] in held then rest else rest - {order[n - 1]}
  }

  /** The loop goes on while what is counted does not fit. */
  ghost predicate Over(files: map<Path, File>, order: seq<Path>, n: nat, faults: Faults, budget: nat, wanted: nat)
    requires n <= |order|
  {
    Sum(Counted(files, order, n, faults.Held(), budget, wanted), SizeOf) + wanted > budget
  }

  /** The files whose rows are left by then, which are those left on disk. */
  ghost function Evicted(files: map<Path, File>, order: seq<Path>, n: nat, faults: Faults, budget: nat, wanted: nat): map<Path, File>
    requires n <= |order|
    decreases n
  {
    if n == 0 then files
    else
      var left := Evicted(files, order, n - 1, faults, budget, wanted);
      if Over(files, order, n - 1, faults, budget, wanted) && order[n - 1] !in faults.locked then left - {order[n - 1]}
      else left
  }

  lemma {:induction false} CountingOnlyRemoves(files: map<Path, File>, order: seq<Path>, n: nat, held: set<Path>, budget: nat, wanted: nat)
    requires n <= |order|
    ensures var rest := Counted(files, order, n, held, budget, wanted);
            && Part(rest, files)
            && (forall p :: p in files && p !in order[..n] ==> p in rest)
            && (forall p :: p in files && p in held ==> p in rest)
    decreases n
  {
    if n > 0 {
      CountingOnlyRemoves(files, order, n - 1, held, budget, wanted);
      assert order[..n] == order[..n - 1] + [order[n - 1]];
    }
  }

  lemma {:induction false} EvictionOnlyRemoves(files: map<Path, File>, order: seq<Path>, n: nat, faults: Faults, budget: nat, wanted: nat)
    requires n <= |order|
    ensures var left := Evicted(files, order, n, faults, budget, wanted);
            && Part(left, files) && left.Keys <= Counted(files, order, n, faults.Held(), budget, wanted).Keys
            && (forall p :: p in files && p !in order[..n] ==> p in left)
            && (forall p :: p in files && p in faults.locked ==> p in left)
    decreases n
  {
    if n > 0 {
      EvictionOnlyRemoves(files, order, n - 1, faults, budget, wanted);
      assert order[..n] == order[..n - 1] + [order[n - 1]];
    }
  }

  /** Once what is counted fits nothing more is evicted. */
  lemma {:induction false} EvictionStops(files: map<Path, File>, order: seq<Path>, m: nat, n: nat, faults: Faults, budget: nat, wanted: nat)
    requires m <= n <= |order| && !Over(files, order, m, faults, budget, wanted)
    ensures Evicted(files, order, n, faults, budget, wanted) == Evicted(files, order, m, faults, budget, wanted)
    ensures Counted(files, order, n, faults.Held(), budget, wanted) == Counted(files, order, m, faults.Held(), budget, wanted)
    decreases n
  {
    if m < n { EvictionStops(files, order, m, n - 1, faults, budget, wanted); }
  }

  /** The files among the oldest `n` that are gone and still counted, if the loop comes so
      far. */
  ghost function Overstated(files: map<Path, File>, order: seq<Path>, n: nat, faults: Faults): map<Path, File>
    requires n <= |order|
  {
    map p | p in files && p in order[..n] && p in faults.stuck && p !in faults.locked :: files[p]
  }

  lemma LeftIsCounted(files: map<Path, File>, order: seq<Path>, n: nat, faults: Faults, budget: nat, wanted: nat)
    requires n <= |order|
    ensures Sum(Evicted(files, order, n, faults, budget, wanted), SizeOf)
         <= Sum(Counted(files, order, n, faults.Held(), budget, wanted), SizeOf)
  {
    CountingOnlyRemoves(files, order, n, faults.Held(), budget, wanted);
    EvictionOnlyRemoves(files, order, n, faults, budget, wanted);
    SumSplits(Evicted(files, order, n, faults, budget, wanted), Counted(files, order, n, faults.Held(), budget, wanted));
  }

  /** So far everything older that could go has gone. */
  ghost predicate OlderAreGone(files: map<Path, File>, order: seq<Path>, i: nat, faults: Faults, left: map<Path, File>, rest: map<Path, File>)
    requires i <= |order|
  {
    && (forall p :: p in left <==> p in files && (p in order[..i] ==> p in faults.locked))
    && (forall p :: p in rest <==> p in files && (p in order[..i] ==> p in faults.Held()))
  }

  lemma OneMoreIsGone(files: map<Path, File>, order: seq<Path>, i: nat, faults: Faults,
                      left: map<Path, File>, rest: map<Path, File>, left': map<Path, File>, rest': map<Path, File>)
    requires 0 < i <= |order| && OlderAreGone(files, order, i - 1, faults, left, rest)
    requires left' == if order[i - 1] !in faults.locked then left - {order[i - 1]} else left
    requires rest' == if order[i - 1] in faults.Held() then rest else rest - {order[i - 1]}
    ensures OlderAreGone(files, order, i, faults, left', rest')
  {
    var seen, before, last := order[..i], order[..i - 1], order[i - 1];
    assert seen == before + [last];
    assert forall p :: p in seen <==> p in before || p == last;
  }

  lemma OverBefore(files: map<Path, File>, order: seq<Path>, i: nat, faults: Faults, budget: nat, wanted: nat)
    requires 0 < i <= |order| && Over(files, order, i, faults, budget, wanted)
    ensures Over(files, order, i - 1, faults, budget, wanted)
    ensures var left, rest := Evicted(files, order, i - 1, faults, budget, wanted),
                              Counted(files, order, i - 1, faults.Held(), budget, wanted);
            && Evicted(files, order, i, faults, budget, wanted)
               == (if order[i - 1] !in faults.locked then left - {order[i - 1]} else left)
            && Counted(files, order, i, faults.Held(), budget, wanted)
               == (if order[i - 1] in faults.Held() then rest else rest - {order[i - 1]})
  {
    SumWithout(Counted(files, order, i - 1, faults.Held(), budget, wanted), SizeOf, order[i - 1]);
  }

  lemma {:induction false} WhileOverOlderAreGone(files: map<Path, File>, order: seq<Path>, i: nat, faults: Faults, budget: nat, wanted: nat)
    requires OldestFirst(order, files) && i <= |order| && Over(files, order, i, faults, budget, wanted)
    ensures OlderAreGone(files, order, i, faults, Evicted(files, order, i, faults, budget, wanted),
                         Counted(files, order, i, faults.Held(), budget, wanted))
    decreases i
  {
    if i > 0 {
      OverBefore(files, order, i, faults, budget, wanted);
      WhileOverOlderAreGone(files, order, i - 1, faults, budget, wanted);
      OneMoreIsGone(files, order, i, faults, Evicted(files, order, i - 1, faults, budget, wanted),
                    Counted(files, order, i - 1, faults.Held(), budget, wanted),
                    Evicted(files, order, i, faults, budget, wanted), Counted(files, order, i, faults.Held(), budget, wanted));
    }
  }

  /** While it goes on, `used` is what is left and what is gone with its sidecar stuck. */
  lemma UsedIsOverstated(files: map<Path, File>, order: seq<Path>, i: nat, faults: Faults, budget: nat, wanted: nat)
    requires OldestFirst(order, files) && i <= |order| && Over(files, order, i, faults, budget, wanted)
    ensures Sum(Counted(files, order, i, faults.Held(), budget, wanted), SizeOf)
         == Sum(Evicted(files, order, i, faults, budget, wanted), SizeOf) + Sum(Overstated(files, order, i, faults), SizeOf)
  {
    var left, gone := Evicted(files, order, i, faults, budget, wanted), Overstated(files, order, i, faults);
    var rest := Counted(files, order, i, faults.Held(), budget, wanted);
    WhileOverOlderAreGone(files, order, i, faults, budget, wanted);
    CountingOnlyRemoves(files, order, i, faults.Held(), budget, wanted);
    EvictionOnlyRemoves(files, order, i, faults, budget, wanted);
    assert rest - left.Keys == gone;
    SumSplits(left, rest);
  }

  /** Each evicted file was evicted because, with every older file already gone that could
      go, what was left and what was gone with its sidecar stuck did not fit with the
      request. */
  lemma EvictedOnlyWhileNeeded(files: map<Path, File>, order: seq<Path>, i: nat, faults: Faults, budget: nat, wanted: nat)
    requires OldestFirst(order, files) && i < |order|
    requires order[i] !in Evicted(files, order, |order|, faults, budget, wanted)
    ensures Sum(Evicted(files, order, i, faults, budget, wanted), SizeOf) + Sum(Overstated(files, order, i, faults), SizeOf)
          + wanted > budget
    ensures faults.stuck == {} ==> Sum(Evicted(files, order, i, faults, budget, wanted), SizeOf) + wanted > budget
    ensures order[i] in Evicted(files, order, i, faults, budget, wanted) && order[i] !in faults.locked
    ensures forall j :: 0 <= j < i && order[j] !in faults.locked ==> order[j] !in Evicted(files, order, i, faults, budget, wanted)
  {
    NextIsStillThere(files, order, i, faults, budget, wanted);
    EvictionOnlyRemoves(files, order, |order|, faults, budget, wanted);
    if Over(files, order, i, faults, budget, wanted) {
      WhileOverOlderAreGone(files, order, i, faults, budget, wanted);
      UsedIsOverstated(files, order, i, faults, budget, wanted);
      assert faults.stuck == {} ==> Overstated(files, order, i, faults) == map[];
      forall j | 0 <= j < i ensures order[j] in order[..i] { assert order[..i][j] == order[j]; }
    } else {
      EvictionStops(files, order, i, |order|, faults, budget, wanted);
    }
  }

  /** The files among these paths. */
  ghost function Among(files: map<Path, File>, paths: set<Path>): map<Path, File>
  {
    map p | p in files && p in paths :: files[p]
  }

  /** The paths from the `i`-th on. */
  ghost function ToCome(order: seq<Path>, i: nat): set<Path>
    requires i <= |order|
  {
    set p | p in order[i..]
  }

  lemma EachIsSeenOrToCome(files: map<Path, File>, order: seq<Path>, i: nat, p: Path)
    requires OldestFirst(order, files) && i <= |order| && p in files
    ensures p in order[..i] <==> p !in ToCome(order, i)
  {
    assert order == order[..i] + order[i..];
  }

  lemma WhatIsGoneByThen(files: map<Path, File>, order: seq<Path>, i: nat, faults: Faults, left: map<Path, File>, rest: map<Path, File>)
    requires OldestFirst(order, files) && i <= |order| && OlderAreGone(files, order, i, faults, left, rest)
    requires Part(left, files) && Part(rest, files)
    ensures left == Among(files, ToCome(order, i) + faults.locked) && rest == Among(files, ToCome(order, i) + faults.Held())
  {
    forall p | p in files ensures p in order[..i] <==> p !in ToCome(order, i) { EachIsSeenOrToCome(files, order, i, p); }
  }

  lemma WhileOverWhatIsLeft(files: map<Path, File>, order: seq<Path>, i: nat, faults: Faults, budget: nat, wanted: nat)
    requires OldestFirst(order, files) && i <= |order| && Over(files, order, i, faults, budget, wanted)
    ensures Evicted(files, order, i, faults, budget, wanted) == Among(files, ToCome(order, i) + faults.locked)
    ensures Counted(files, order, i, faults.Held(), budget, wanted) == Among(files, ToCome(order, i) + faults.Held())
  {
    WhileOverOlderAreGone(files, order, i, faults, budget, wanted);
    CountingOnlyRemoves(files, order, i, faults.Held(), budget, wanted);
    EvictionOnlyRemoves(files, order, i, faults, budget, wanted);
    WhatIsGoneByThen(files, order, i, faults, Evicted(files, order, i, faults, budget, wanted),
                     Counted(files, order, i, faults.Held(), budget, wanted));
  }

  /** The loop is still going at the `i`-th file exactly when the request does not fit beside
      that file, the younger ones and what cannot be deleted. */
  lemma OverExactly(files: map<Path, File>, order: seq<Path>, i: nat, faults: Faults, budget: nat, wanted: nat)
    requires OldestFirst(order, files) && i <= |order|
    ensures Over(files, order, i, faults, budget, wanted)
       <==> Sum(Among(files, ToCome(order, i) + faults.Held()), SizeOf) + wanted > budget
  {
    var rest, due := Counted(files, order, i, faults.Held(), budget, wanted), Among(files, ToCome(order, i) + faults.Held());
    if Over(files, order, i, faults, budget, wanted) {
      WhileOverWhatIsLeft(files, order, i, faults, budget, wanted);
    } else {
      CountingOnlyRemoves(files, order, i, faults.Held(), budget, wanted);
      forall p | p in due ensures p in rest { EachIsSeenOrToCome(files, order, i, p); }
      SumSplits(due, rest);
    }
  }

  /** Which files are evicted, without following the loop. */
  lemma EvictedExactlyWhen(files: map<Path, File>, order: seq<Path>, i: nat, faults: Faults, budget: nat, wanted: nat)
    requires OldestFirst(order, files) && i < |order|
    ensures order[i] !in Evicted(files, order, |order|, faults, budget, wanted)
       <==> order[i] !in faults.locked && Sum(Among(files, ToCome(order, i) + faults.Held()), SizeOf) + wanted > budget
  {
    OverExactly(files, order, i, faults, budget, wanted);
    NextIsStillThere(files, order, i, faults, budget, wanted);
    EvictionOnlyRemoves(files, order, |order|, faults, budget, wanted);
    if Over(files, order, i, faults, budget, wanted) && order[i] !in faults.locked {
      EvictedStaysSo(files, order, i + 1, |order|, faults, budget, wanted, order[i]);
    } else if order[i] !in faults.locked {
      EvictionStops(files, order, i, |order|, faults, budget, wanted);
    }
  }

  lemma {:induction false} EvictedStaysSo(files: map<Path, File>, order: seq<Path>, m: nat, n: nat, faults: Faults, budget: nat, wanted: nat, p: Path)
    requires m <= n <= |order| && p !in Evicted(files, order, m, faults, budget, wanted)
    ensures p !in Evicted(files, order, n, faults, budget, wanted)
    decreases n
  {
    if m < n { EvictedStaysSo(files, order, m, n - 1, faults, budget, wanted, p); }
  }

  /** A file goes although the request fits what is left exactly when it fits beside that
      file, the younger ones and the locked ones, but not beside the stuck ones as well. */
  lemma EvictedNeedlesslyExactlyWhen(files: map<Path, File>, order: seq<Path>, i: nat, faults: Faults, budget: nat, wanted: nat)
    requires OldestFirst(order, files) && i < |order| && order[i] !in faults.locked
    ensures (&& order[i] !in Evicted(files, order, |order|, faults, budget, wanted)
             && Sum(Evicted(files, order, i, faults, budget, wanted), SizeOf) + wanted <= budget)
       <==> && Sum(Among(files, ToCome(order, i) + faults.locked), SizeOf) + wanted <= budget
            && Sum(Among(files, ToCome(order, i) + faults.Held()), SizeOf) + wanted > budget
  {
    EvictedExactlyWhen(files, order, i, faults, budget, wanted);
    OverExactly(files, order, i, faults, budget, wanted);
    if Over(files, order, i, faults, budget, wanted) {
      WhileOverWhatIsLeft(files, order, i, faults, budget, wanted);
    }
  }

  /** A request is refused exactly when it would not fit beside the locked files and those
      whose sidecars are stuck, whether these are gone or not. */
  lemma RefusedExactlyWhenHeldFilesAreInTheWay(files: map<Path, File>, order: seq<Path>, faults: Faults, budget: nat, wanted: nat)
    requires OldestFirst(order, files)
    ensures Over(files, order, |order|, faults, budget, wanted) <==> Sum(Among(files, faults.Held()), SizeOf) + wanted > budget
  {
    OverExactly(files, order, |order|, faults, budget, wanted);
    assert ToCome(order, |order|) + faults.Held() == faults.Held();
  }

  /** A request is refused although it fits what is left exactly when it would fit beside
      the locked files alone. */
  lemma RefusedThoughItFitsExactly(files: map<Path, File>, order: seq<Path>, faults: Faults, budget: nat, wanted: nat)
    requires OldestFirst(order, files) && Over(files, order, |order|, faults, budget, wanted)
    ensures Sum(Evicted(files, order, |order|, faults, budget, wanted), SizeOf) + wanted <= budget
       <==> Sum(Among(files, faults.locked), SizeOf) + wanted <= budget
  {
    WhileOverWhatIsLeft(files, order, |order|, faults, budget, wanted);
    assert ToCome(order, |order|) + faults.locked == faults.locked;
  }

  /** One prepared file of the whole budget whose sidecar is stuck: the file goes, and any
      request for what it held is refused. */
  lemma StuckSidecarRefusesWhatFits(p: Path, budget: nat, wanted: nat)
    requires 0 < wanted <= budget
    ensures var files := map[p := File(budget, 0)];
            && OldestFirst([p], files) && Over(files, [p], 1, Faults({}, {p}), budget, wanted)
            && Evicted(files, [p], 1, Faults({}, {p}), budget, wanted) == map[]
  {
    var files := map[p := File(budget, 0)];
    SumRemove(files, SizeOf, p);
    assert Counted(files, [p], 0, {} + {p}, budget, wanted) == files && files - {p} == map[];
    assert Over(files, [p], 0, Faults({}, {p}), budget, wanted);
  }

  lemma SumOfTwo(p: Path, q: Path, f: File, g: File)
    requires p != q
    ensures Sum(map[q := g], SizeOf) == g.size && Sum(map[p := f, q := g], SizeOf) == f.size + g.size
  {
    SumRemove(map[q := g], SizeOf, q);
    SumRemove(map[p := f, q := g], SizeOf, p);
    assert map[q := g] - {q} == map[] && map[p := f, q := g] - {p} == map[q := g];
  }

  lemma HeldOfTwo(p: Path, q: Path, f: File, g: File)
    requires p != q && f.touched <= g.touched
    ensures var files, faults := map[p := f, q := g], Faults({}, {p});
            && OldestFirst([p, q], files)
            && Sum(Among(files, ToCome([p, q], 1) + faults.locked), SizeOf) == g.size
            && Sum(Among(files, ToCome([p, q], 1) + faults.Held()), SizeOf) == f.size + g.size
            && Sum(Among(files, faults.Held()), SizeOf) == f.size
  {
    var files, faults := map[p := f, q := g], Faults({}, {p});
    SumOfTwo(p, q, f, g);
    SumOfTwo(q, p, g, f);
    assert ToCome([p, q], 1) == {q};
    assert Among(files, {q}) == map[q := g] && Among(files, {p}) == map[p := f] && Among(files, {q} + {p}) == files;
    assert faults.Held() == {p} && {q} + faults.locked == {q};
  }

  /** The last file goes, the request fits, and it fitted before. */
  ghost predicate LastGoesNeedlessly(files: map<Path, File>, order: seq<Path>, faults: Faults, budget: nat, wanted: nat)
    requires |order| > 0
  {
    && OldestFirst(order, files) && !Over(files, order, |order|, faults, budget, wanted)
    && order[|order| - 1] !in Evicted(files, order, |order|, faults, budget, wanted)
    && Sum(Evicted(files, order, |order| - 1, faults, budget, wanted), SizeOf) + wanted <= budget
  }

  lemma LastGoesNeedlesslyWhen(files: map<Path, File>, order: seq<Path>, faults: Faults, budget: nat, wanted: nat)
    requires OldestFirst(order, files) && |order| > 0 && order[|order| - 1] !in faults.locked
    requires Sum(Among(files, faults.Held()), SizeOf) + wanted <= budget
    requires Sum(Among(files, ToCome(order, |order| - 1) + faults.locked), SizeOf) + wanted <= budget
    requires Sum(Among(files, ToCome(order, |order| - 1) + faults.Held()), SizeOf) + wanted > budget
    ensures LastGoesNeedlessly(files, order, faults, budget, wanted)
  {
    EvictedNeedlesslyExactlyWhen(files, order, |order| - 1, faults, budget, wanted);
    RefusedExactlyWhenHeldFilesAreInTheWay(files, order, faults, budget, wanted);
  }

  /** An old prepared file of all the budget but one byte, its sidecar stuck, and a younger
      file of that byte: one byte asked for takes both. */
  lemma StuckSidecarTakesTheNextFileToo(p: Path, q: Path, budget: nat)
    requires p != q && budget >= 2
    ensures LastGoesNeedlessly(map[p := File(budget - 1, 0), q := File(1, 1)], [p, q], Faults({}, {p}), budget, 1)
  {
    HeldOfTwo(p, q, File(budget - 1, 0), File(1, 1));
    LastGoesNeedlesslyWhen(map[p := File(budget - 1, 0), q := File(1, 1)], [p, q], Faults({}, {p}), budget, 1);
  }

  // ------------------------------------------------------------------- one transaction

  datatype Refusal = LimitExceeded

  function QuotaFor(desired: nat, budget: nat): nat
  {
    if desired <= budget then desired else budget
  }

  /** A lease is for what was asked, or for the whole budget when that is less. */
  lemma QuotaIsTheLesser(desired: nat, budget: nat)
    ensures QuotaFor(desired, budget) <= desired && QuotaFor(desired, budget) <= budget
    ensures QuotaFor(desired, budget) == desired || QuotaFor(desired, budget) == budget
  {
  }

  /** What is left in the registry's file table once the transaction has evicted. */
  ghost function Kept(r: Registry, order: seq<Path>, faults: Faults, budget: nat, quota: nat): map<Path, File>
  {
    Evicted(r.files, order, |order|, faults, budget, Promised(r) + quota)
  }

  /** The transaction of `cache_reservation`, after recovery: it commits a registry in which
      the request fits, or is rolled back. */
  ghost function Reserve(r: Registry, order: seq<Path>, faults: Faults, budget: nat, token: Token, w: Write): Outcome<Registry, Refusal>
  {
    if Over(r.files, order, |order|, faults, budget, Promised(r) + w.quota) then Raised(LimitExceeded)
    else Ok(Registry(Kept(r, order, faults, budget, w.quota), r.writes[token := w]))
  }

  /** The release: the lease goes, the file is indexed at the size it reached. */
  function Release(r: Registry, token: Token, disk: map<Path, File>): Registry
    requires token in r.writes
  {
    var target := r.writes[token].target;
    Registry(if target.Some? && target.value in disk then r.files[target.value := disk[target.value]] else r.files,
             r.writes - {token})
  }

  /** The rows the loop has not come to yet, and those of the living it has passed. */
  ghost function Remaining(writes: map<Token, Write>, todo: set<Token>, living: set<Process>): map<Token, Write>
  {
    map t | t in writes && (t in todo || writes[t].owner in living) :: writes[t]
  }

  ghost function Seen(writes: map<Token, Write>, todo: set<Token>): map<Token, Write>
  {
    map t | t in writes && t !in todo :: writes[t]
  }

  lemma OneMoreRow(writes: map<Token, Write>, todo: set<Token>, living: set<Process>, t: Token)
    requires t in todo && t in writes
    ensures Remaining(writes, todo - {t}, living)
         == if writes[t].owner in living then Remaining(writes, todo, living) else Remaining(writes, todo, living) - {t}
    ensures t !in Seen(writes, todo) && Seen(writes, todo - {t}) == Seen(writes, todo)[t := writes[t]]
  {
  }

  lemma FirstAndLastRows(writes: map<Token, Write>, living: set<Process>)
    ensures Remaining(writes, writes.Keys, living) == writes && Seen(writes, writes.Keys) == map[]
    ensures Remaining(writes, {}, living) == Alive(writes, living) && Seen(writes, {}) == writes
  {
  }

  /** How far the recovery has come when the rows in `todo` are still to be visited. */
  ghost predicate Progress(r: Registry, living: set<Process>, disk: map<Path, File>, todo: set<Token>,
                           files: map<Path, File>, writes: map<Token, Write>, active: nat)
  {
    && writes == Remaining(r.writes, todo, living)
    && files == r.files + Abandoned(Seen(r.writes, todo), living, disk)
    && active == Sum(Alive(Seen(r.writes, todo), living), QuotaOf)
  }

  lemma ProgressStarts(r: Registry, living: set<Process>, disk: map<Path, File>)
    ensures Progress(r, living, disk, r.writes.Keys, r.files, r.writes, 0)
  {
    FirstAndLastRows(r.writes, living);
    NothingSeen(living, disk);
  }

  lemma ProgressEnds(r: Registry, living: set<Process>, disk: map<Path, File>,
                     files: map<Path, File>, writes: map<Token, Write>, active: nat)
    requires Progress(r, living, disk, {}, files, writes, active)
    ensures files == r.files + Abandoned(r.writes, living, disk)
    ensures writes == Alive(r.writes, living) && active == Sum(writes, QuotaOf)
  {
    FirstAndLastRows(r.writes, living);
  }

  lemma ProgressIsMade(r: Registry, living: set<Process>, disk: map<Path, File>, todo: set<Token>,
                       files: map<Path, File>, writes: map<Token, Write>, active: nat, t: Token,
                       files': map<Path, File>, writes': map<Token, Write>, active': nat)
    requires t in todo && t in r.writes && Progress(r, living, disk, todo, files, writes, active)
    requires var w := r.writes[t];
             && active' == active + (if w.owner in living then w.quota else 0)
             && writes' == (if w.owner in living then writes else writes - {t})
             && files' == (if w.owner !in living && w.target.Some? && w.target.value in disk
                           then files[w.target.value := disk[w.target.value]] else files)
    ensures Progress(r, living, disk, todo - {t}, files', writes', active')
  {
    OneMoreRow(r.writes, todo, living, t);
    SeenOneMore(Seen(r.writes, todo), living, disk, t, r.writes[t]);
    var seen := Seen(r.writes, todo);
    if r.writes[t].target.Some? && r.writes[t].target.value in disk {
      PutLast(r.files, Abandoned(seen, living, disk), r.writes[t].target.value, disk[r.writes[t].target.value]);
    }
  }

  lemma PutLast(m: map<Path, File>, n: map<Path, File>, p: Path, f: File)
    ensures m + n[p := f] == (m + n)[p := f]
  {
  }

  /** The recovery loop: the rows of the dead are dropped and their files indexed, the quotas
      of the living added up. */
  method RecoverWriters(r: Registry, living: set<Process>, disk: map<Path, File>)
    returns (files: map<Path, File>, writes: map<Token, Write>, active: nat)
    ensures files == r.files + Abandoned(r.writes, living, disk)
    ensures writes == Alive(r.writes, living)
    ensures active == Sum(writes, QuotaOf)
  {
    files, writes, active := r.files, r.writes, 0;
    var todo := r.writes.Keys;
    ProgressStarts(r, living, disk);
    while todo != {}
      invariant todo <= r.writes.Keys
      invariant Progress(r, living, disk, todo, files, writes, active)
      decreases |todo|
    {
      var t :| t in todo;
      var files', writes', active' := RecoverOne(files, writes, active, t, r.writes[t], living, disk);
      ProgressIsMade(r, living, disk, todo, files, writes, active, t, files', writes', active');
      files, writes, active, todo := files', writes', active', todo - {t};
    }
    ProgressEnds(r, living, disk, files, writes, active);
  }

  method RecoverOne(files: map<Path, File>, writes: map<Token, Write>, active: nat, t: Token, w: Write,
                    living: set<Process>, disk: map<Path, File>)
    returns (files': map<Path, File>, writes': map<Token, Write>, active': nat)
    ensures active' == active + (if w.owner in living then w.quota else 0)
    ensures writes' == if w.owner in living then writes else writes - {t}
    ensures files' == if w.owner !in living && w.target.Some? && w.target.value in disk
                      then files[w.target.value := disk[w.target.value]] else files
  {
    files', writes', active' := files, writes, active;
    if w.owner in living {
      active' := active + w.quota;
    } else {
      if w.target.Some? && w.target.value in disk {
        files' := files[w.target.value := disk[w.target.value]];
      }
      writes' := writes - {t};
    }
  }

  lemma NothingSeen(living: set<Process>, disk: map<Path, File>)
    ensures Abandoned(map[], living, disk) == map[] && Alive(map[], living) == map[]
  {
  }

  lemma SeenOneMore(seen: map<Token, Write>, living: set<Process>, disk: map<Path, File>, t: Token, w: Write)
    requires t !in seen
    ensures Sum(Alive(seen[t := w], living), QuotaOf)
         == Sum(Alive(seen, living), QuotaOf) + (if w.owner in living then w.quota else 0)
    ensures Abandoned(seen[t := w], living, disk)
         == if w.owner !in living && w.target.Some? && w.target.value in disk
            then Abandoned(seen, living, disk)[w.target.value := disk[w.target.value]]
            else Abandoned(seen, living, disk)
  {
    var a, b := Alive(seen, living), Alive(seen[t := w], living);
    if w.owner in living {
      assert b == a[t := w];
      SumPut(a, QuotaOf, t, w);
      assert a - {t} == a;
    } else {
      assert b == a;
    }
    forall p
      ensures IsAbandoned(seen[t := w], living, p)
         <==> IsAbandoned(seen, living, p) || (w.owner !in living && w.target == Some(p))
    {
      AbandonedOneMore(seen, living, t, w, p);
    }
  }

  lemma AbandonedOneMore(seen: map<Token, Write>, living: set<Process>, t: Token, w: Write, p: Path)
    requires t !in seen
    ensures IsAbandoned(seen[t := w], living, p)
       <==> IsAbandoned(seen, living, p) || (w.owner !in living && w.target == Some(p))
  {
    var more := seen[t := w];
    if IsAbandoned(seen, living, p) {
      var u :| u in seen && seen[u].owner !in living && seen[u].target == Some(p);
      assert u in more && more[u] == seen[u];
    }
    if w.owner !in living && w.target == Some(p) {
      assert t in more && more[t] == w;
    }
  }

  method TotalSize(files: map<Path, File>) returns (used: nat)
    ensures used == Sum(files, SizeOf)
  {
    used := 0;
    var todo := files;
    while todo != map[]
      invariant used + Sum(todo, SizeOf) == Sum(files, SizeOf)
      decreases |todo|
    {
      var p :| p in todo;
      SumRemove(todo, SizeOf, p);
      used := used + todo[p].size;
      todo := todo - {p};
    }
  }

  lemma NextIsStillThere(files: map<Path, File>, order: seq<Path>, i: nat, faults: Faults, budget: nat, wanted: nat)
    requires OldestFirst(order, files) && i < |order|
    ensures order[i] in Evicted(files, order, i, faults, budget, wanted)
    ensures order[i] in Counted(files, order, i, faults.Held(), budget, wanted)
    ensures Counted(files, order, i, faults.Held(), budget, wanted)[order[i]] == files[order[i]]
  {
    CountingOnlyRemoves(files, order, i, faults.Held(), budget, wanted);
    EvictionOnlyRemoves(files, order, i, faults, budget, wanted);
    assert order[i] !in order[..i];
  }

  /** The total of the table, the eviction loop over its rows oldest first, and the check
      after it. */
  method EvictUntilItFits(files: map<Path, File>, order: seq<Path>, faults: Faults, budget: nat, active: nat, quota: nat)
    returns (kept: map<Path, File>, fits: bool)
    requires OldestFirst(order, files)
    ensures kept == Evicted(files, order, |order|, faults, budget, active + quota)
    ensures fits <==> !Over(files, order, |order|, faults, budget, active + quota)
  {
    var counted := TotalSize(files);
    kept := files;
    for i := 0 to |order|
      invariant kept == Evicted(files, order, i, faults, budget, active + quota)
      invariant counted == Sum(Counted(files, order, i, faults.Held(), budget, active + quota), SizeOf)
    {
      if counted + active + quota <= budget {
        EvictionStops(files, order, i, |order|, faults, budget, active + quota);
        break;
      }
      if order[i] !in faults.locked {
        NextIsStillThere(files, order, i, faults, budget, active + quota);
        kept := kept - {order[i]};
        if order[i] !in faults.stuck {
          SumRemove(Counted(files, order, i, faults.Held(), budget, active + quota), SizeOf, order[i]);
          counted := counted - files[order[i]].size;
        }
      }
    }
    fits := counted + active + quota <= budget;
  }

  /** The half of the transaction after recovery. */
  method ReserveIn(r: Registry, active: nat, order: seq<Path>, faults: Faults, budget: nat, token: Token, w: Write)
    returns (result: Outcome<Registry, Refusal>)
    requires OldestFirst(order, r.files) && active == Promised(r)
    ensures result == Reserve(r, order, faults, budget, token, w)
  {
    var kept, fits := EvictUntilItFits(r.files, order, faults, budget, active, w.quota);
    assert kept == Kept(r, order, faults, budget, w.quota);
    result := if fits then Ok(Registry(kept, r.writes[token := w])) else Raised(LimitExceeded);
  }

  /** `cache_reservation` up to its yield, as one transaction. `order` is the file table by
      age once recovery and indexing are done. */
  method Transact(r: Registry, living: set<Process>, disk: map<Path, File>, found: map<Path, File>, order: seq<Path>,
                  faults: Faults, budget: nat, token: Token, w: Write) returns (result: Outcome<Registry, Refusal>)
    requires OldestFirst(order, Recovered(r, living, disk, found).files)
    ensures result == Reserve(Recovered(r, living, disk, found), order, faults, budget, token, w)
  {
    var files, writes, active := RecoverWriters(r, living, disk);
    var recovered := Registry(files + found, writes);
    assert recovered == Recovered(r, living, disk, found);
    result := ReserveIn(recovered, active, order, faults, budget, token, w);
  }

  // ------------------------------------------------------------------------ every run

  /** The registry, the files of the indexed roots as they are on disk, and who is alive. */
  datatype System = System(registry: Registry, disk: map<Path, File>, living: set<Process>)

  datatype Step =
    | Acquire(token: Token, owner: Process, desired: nat, target: Option<Path>, found: map<Path, File>,
              order: seq<Path>, faults: Faults)
    | Grow(token: Token, file: File)
    | Finish(token: Token)
    | Die(process: Process)
    | Start(process: Process)
    | Remove(path: Path)

  function Lease(owner: Process, desired: nat, target: Option<Path>, budget: nat): Write
  {
    Write(owner, QuotaFor(desired, budget), target)
  }

  /** What the transaction leaves, from the recovered registry `r`: committed, or rolled back
      with the files it deleted still gone. */
  ghost predicate Commits(s: System, a: Step, r: Registry, w: Write, s': System, budget: nat)
    requires a.Acquire?
  {
    var result := Reserve(r, a.order, a.faults, budget, a.token, w);
    var gone := r.files.Keys - Kept(r, a.order, a.faults, budget, w.quota).Keys;
    && s'.living == s.living
    && (if result.Ok? then s'.registry == result.value && s'.disk == (s.disk + a.found) - gone
        else s'.registry == s.registry && s'.disk == s.disk - gone)
  }

  ghost predicate Acquires(s: System, a: Step, s': System, budget: nat)
    requires a.Acquire?
  {
    var r := Recovered(s.registry, s.living, s.disk, a.found);
    && a.owner in s.living && a.token !in s.registry.writes
    && OldestFirst(a.order, r.files)
    && (forall p :: p in a.found && p in s.disk ==> a.found[p] == s.disk[p])
    && Commits(s, a, r, Lease(a.owner, a.desired, a.target, budget), s', budget)
  }

  ghost predicate Moves(s: System, step: Step, s': System, budget: nat)
  {
    match step
    case Acquire(_, _, _, _, _, _, _) => Acquires(s, step, s', budget)
    case Grow(token, file) =>
      && token in s.registry.writes && s.registry.writes[token].owner in s.living
      && s.registry.writes[token].target.Some? && file.size <= s.registry.writes[token].quota
      && s' == s.(disk := s.disk[s.registry.writes[token].target.value := file])
    case Finish(token) =>
      && token in s.registry.writes && s.registry.writes[token].owner in s.living
      && WithinItsQuota(s.registry.writes[token], s.disk)
      && s' == s.(registry := Release(s.registry, token, s.disk))
    case Die(p) => s' == s.(living := s.living - {p})
    case Start(p) => s' == s.(living := s.living + {p})
    case Remove(p) => s' == s.(disk := s.disk - {p})
  }

  /** What a writer leaves behind is within what it was promised. */
  predicate WithinItsQuota(w: Write, disk: map<Path, File>)
  {
    w.target.Some? && w.target.value in disk ==> disk[w.target.value].size <= w.quota
  }

  /** Every file on disk is accounted for: by its row, or by a lease for writing it. */
  ghost predicate Accounted(r: Registry, p: Path, f: File)
  {
    || (p in r.files && f.size <= r.files[p].size)
    || exists t :: t in r.writes && r.writes[t].target == Some(p) && f.size <= r.writes[t].quota
  }

  ghost predicate Safe(s: System, budget: nat)
  {
    && Within(s.registry, budget)
    && forall p :: p in s.disk ==> Accounted(s.registry, p, s.disk[p])
  }

  lemma LeasedOnceMore(writes: map<Token, Write>, token: Token, w: Write)
    requires token !in writes
    ensures Sum(writes[token := w], QuotaOf) == Sum(writes, QuotaOf) + w.quota
  {
    SumPut(writes, QuotaOf, token, w);
    assert writes - {token} == writes;
  }

  /** After every successful reservation the table and the leases fit the budget together. */
  lemma ReservationFits(r: Registry, order: seq<Path>, faults: Faults, budget: nat, token: Token, w: Write)
    requires token !in r.writes && Reserve(r, order, faults, budget, token, w).Ok?
    ensures Within(Reserve(r, order, faults, budget, token, w).value, budget)
  {
    var kept := Kept(r, order, faults, budget, w.quota);
    assert Sum(kept, SizeOf) + (Promised(r) + w.quota) <= budget by {
      LeftIsCounted(r.files, order, |order|, faults, budget, Promised(r) + w.quota);
    }
    LeasedOnceMore(r.writes, token, w);
  }

  /** A release never takes more than the lease it gives up. */
  lemma ReleaseFits(r: Registry, token: Token, disk: map<Path, File>, budget: nat)
    requires Within(r, budget) && token in r.writes && WithinItsQuota(r.writes[token], disk)
    ensures Within(Release(r, token, disk), budget)
  {
    var w := r.writes[token];
    SumRemove(r.writes, QuotaOf, token);
    if w.target.Some? && w.target.value in disk {
      SumPut(r.files, SizeOf, w.target.value, disk[w.target.value]);
      SumWithout(r.files, SizeOf, w.target.value);
    }
  }

  /** Recovery and indexing leave nothing on disk unaccounted for. */
  lemma RecoveryAccounts(s: System, found: map<Path, File>, p: Path)
    requires p in s.disk + found
    requires forall p :: p in found && p in s.disk ==> found[p] == s.disk[p]
    requires p in s.disk ==> Accounted(s.registry, p, s.disk[p])
    ensures Accounted(Recovered(s.registry, s.living, s.disk, found), p, (s.disk + found)[p])
  {
    var r := Recovered(s.registry, s.living, s.disk, found);
    if p !in found && !(p in s.registry.files && s.disk[p].size <= s.registry.files[p].size) {
      var t :| t in s.registry.writes && s.registry.writes[t].target == Some(p) && s.disk[p].size <= s.registry.writes[t].quota;
      if s.registry.writes[t].owner in s.living {
        assert t in r.writes && r.writes[t] == s.registry.writes[t];
      } else {
        assert IsAbandoned(s.registry.writes, s.living, p);
      }
    }
  }

  lemma EvictionAccounts(r: Registry, kept: map<Path, File>, token: Token, w: Write, p: Path, f: File)
    requires Accounted(r, p, f) && token !in r.writes
    requires kept.Keys <= r.files.Keys && (forall q :: q in kept ==> kept[q] == r.files[q])
    requires p !in r.files.Keys - kept.Keys
    ensures Accounted(Registry(kept, r.writes[token := w]), p, f)
  {
    if !(p in r.files && f.size <= r.files[p].size) {
      var t :| t in r.writes && r.writes[t].target == Some(p) && f.size <= r.writes[t].quota;
      assert r.writes[token := w][t] == r.writes[t];
    }
  }

  lemma CommitAccounts(s: System, a: Step, r: Registry, w: Write, s': System, budget: nat, p: Path)
    requires a.Acquire? && Commits(s, a, r, w, s', budget) && a.token !in r.writes && p in s'.disk
    requires Reserve(r, a.order, a.faults, budget, a.token, w).Ok?
    requires p in s.disk + a.found && Accounted(r, p, (s.disk + a.found)[p])
    ensures Accounted(s'.registry, p, s'.disk[p])
  {
    EvictionOnlyRemoves(r.files, a.order, |a.order|, a.faults, budget, Promised(r) + w.quota);
    EvictionAccounts(r, Kept(r, a.order, a.faults, budget, w.quota), a.token, w, p, (s.disk + a.found)[p]);
  }

  lemma CommitIsSafe(s: System, a: Step, r: Registry, w: Write, s': System, budget: nat)
    requires a.Acquire? && Safe(s, budget) && Commits(s, a, r, w, s', budget) && a.token !in r.writes
    requires forall p :: p in s.disk + a.found ==> Accounted(r, p, (s.disk + a.found)[p])
    ensures Safe(s', budget)
  {
    if Reserve(r, a.order, a.faults, budget, a.token, w).Ok? {
      ReservationFits(r, a.order, a.faults, budget, a.token, w);
      forall p | p in s'.disk
        ensures Accounted(s'.registry, p, s'.disk[p])
      {
        CommitAccounts(s, a, r, w, s', budget, p);
      }
    }
  }

  /** An acquisition leaves everyone alive, takes off the disk the files it evicted and no
      others, and leaves the registry as it was when it is refused. */
  lemma AcquisitionTakesWhatItEvicts(s: System, a: Step, s': System, budget: nat)
    requires a.Acquire? && Acquires(s, a, s', budget)
    ensures s'.living == s.living
    ensures var files := Recovered(s.registry, s.living, s.disk, a.found).files;
            var quota := Lease(a.owner, a.desired, a.target, budget).quota;
            var kept := Kept(Recovered(s.registry, s.living, s.disk, a.found), a.order, a.faults, budget, quota);
            && (forall p :: p in s.disk ==> (p in s'.disk <==> !(p in files && p !in kept)))
            && (forall p :: p in s.disk && p in s'.disk ==> s'.disk[p] == s.disk[p])
            && (a.token in s'.registry.writes || s'.registry == s.registry)
  {
  }

  lemma AcquireIsSafe(s: System, a: Step, s': System, budget: nat)
    requires a.Acquire? && Safe(s, budget) && Acquires(s, a, s', budget)
    ensures Safe(s', budget)
  {
    var r := Recovered(s.registry, s.living, s.disk, a.found);
    forall p | p in s.disk + a.found
      ensures Accounted(r, p, (s.disk + a.found)[p])
    {
      RecoveryAccounts(s, a.found, p);
    }
    CommitIsSafe(s, a, r, Lease(a.owner, a.desired, a.target, budget), s', budget);
  }

  lemma ReleaseAccounts(s: System, token: Token, p: Path)
    requires token in s.registry.writes && p in s.disk && Accounted(s.registry, p, s.disk[p])
    ensures Accounted(Release(s.registry, token, s.disk), p, s.disk[p])
  {
    var r, r' := s.registry, Release(s.registry, token, s.disk);
    if r.writes[token].target != Some(p) && !(p in r.files && s.disk[p].size <= r.files[p].size) {
      var t :| t in r.writes && r.writes[t].target == Some(p) && s.disk[p].size <= r.writes[t].quota;
      assert t in r'.writes && r'.writes[t] == r.writes[t];
    }
  }

  lemma StepIsSafe(s: System, step: Step, s': System, budget: nat)
    requires Safe(s, budget) && Moves(s, step, s', budget)
    ensures Safe(s', budget)
  {
    match step
    case Acquire(_, _, _, _, _, _, _) => AcquireIsSafe(s, step, s', budget);
    case Grow(token, file) =>
      assert s.registry.writes[token].target == Some(s.registry.writes[token].target.value);
    case Finish(token) =>
      ReleaseFits(s.registry, token, s.disk, budget);
      forall p | p in s.disk ensures Accounted(s'.registry, p, s.disk[p]) { ReleaseAccounts(s, token, p); }
    case Die(_) =>
    case Start(_) =>
    case Remove(_) =>
  }

  ghost predicate IsRun(steps: seq<Step>, systems: seq<System>, budget: nat)
  {
    && |systems| == |steps| + 1 && systems[0] == System(Registry(map[], map[]), map[], {})
    && forall i :: 0 <= i < |steps| ==> Moves(systems[i], steps[i], systems[i + 1], budget)
  }

  /** What the rows and the leases account for bounds what is on disk. */
  lemma {:induction false} AccountedIsBounded(files: map<Path, File>, writes: map<Token, Write>, disk: map<Path, File>)
    requires forall p :: p in disk ==> Accounted(Registry(files, writes), p, disk[p])
    ensures Sum(disk, SizeOf) <= Sum(files, SizeOf) + Sum(writes, QuotaOf)
    decreases |disk|
  {
    if disk != map[] {
      var p :| p in disk;
      var rest := disk - {p};
      SumRemove(disk, SizeOf, p);
      assert Accounted(Registry(files, writes), p, disk[p]);
      if p in files && disk[p].size <= files[p].size {
        SumRemove(files, SizeOf, p);
        forall q | q in rest ensures Accounted(Registry(files - {p}, writes), q, rest[q]) {
          assert Accounted(Registry(files, writes), q, disk[q]);
        }
        AccountedIsBounded(files - {p}, writes, rest);
      } else {
        var t :| t in writes && writes[t].target == Some(p) && disk[p].size <= writes[t].quota;
        SumRemove(writes, QuotaOf, t);
        forall q | q in rest ensures Accounted(Registry(files, writes - {t}), q, rest[q]) {
          OtherLeasesAccount(files, writes, t, p, q, disk[q]);
        }
        AccountedIsBounded(files, writes - {t}, rest);
      }
    }
  }

  lemma OtherLeasesAccount(files: map<Path, File>, writes: map<Token, Write>, t: Token, p: Path, q: Path, f: File)
    requires t in writes && writes[t].target == Some(p) && p != q && Accounted(Registry(files, writes), q, f)
    ensures Accounted(Registry(files, writes - {t}), q, f)
  {
    if !(q in files && f.size <= files[q].size) {
      var u :| u in writes && writes[u].target == Some(q) && f.size <= writes[u].quota;
      assert u in writes - {t};
    }
  }

  /** Over every interleaving of reservations, writes, releases and deaths by any number of
      processes, the cached bytes and the outstanding leases stay within the budget, and so
      does everything on disk. */
  lemma {:induction false} BudgetIsNeverExceeded(steps: seq<Step>, systems: seq<System>, budget: nat, n: nat)
    requires IsRun(steps, systems, budget) && n < |systems|
    ensures Safe(systems[n], budget)
    ensures Cached(systems[n].registry) + Promised(systems[n].registry) <= budget
    ensures Sum(systems[n].disk, SizeOf) <= budget
  {
    if n > 0 {
      BudgetIsNeverExceeded(steps, systems, budget, n - 1);
      StepIsSafe(systems[n - 1], steps[n - 1], systems[n], budget);
    }
    var r := systems[n].registry;
    AccountedIsBounded(r.files, r.writes, systems[n].disk);
  }
}
