/** `net_pnl_by_symbol`: what each symbol has done for the account, and what the symbols
    sum to. */
module SymbolPnl {
  import opened Sums
  import opened Positions
  import opened Ledger
  import opened TradeBook
  import opened Lockstep
  import opened Session

  /** The running total of an open round-trip, with the unrealised PnL it last saw. */
  function Standing(b: Book, k: Key): real
    requires k in b.open
  {
    b.open[k].Running() + At(b.unrealized, k)
  }

  /** The loop of `net_pnl_by_symbol`, over the open keys in the order given. */
  function NetBySymbol(b: Book, order: seq<Key>): map<string, real>
  {
    if order == [] then b.closedNet
    else
      var totals, k := NetBySymbol(b, order[..|order| - 1]), order[|order| - 1];
      if k in b.open then totals[k.symbol := At(totals, k.symbol) + Standing(b, k)] else totals
  }

  ghost function Standings(b: Book, keys: set<Key>): (m: map<Key, real>)
  {
    map k | k in keys && k in b.open :: Standing(b, k)
  }

  ghost function StandingsOf(b: Book, keys: set<Key>, symbol: string): (m: map<Key, real>)
  {
    map k | k in keys && k in b.open && k.symbol == symbol :: Standing(b, k)
  }

  function Elements(order: seq<Key>): set<Key>
  {
    set k | k in order
  }

  lemma StandingsGrow(b: Book, keys: set<Key>, k: Key)
    requires k in b.open && k !in keys
    ensures MapSum(Standings(b, keys + {k})) == MapSum(Standings(b, keys)) + Standing(b, k)
  {
    assert Standings(b, keys + {k}) == Standings(b, keys)[k := Standing(b, k)];
    MapSumInsert(Standings(b, keys), k, Standing(b, k));
  }

  lemma StandingsOfGrow(b: Book, keys: set<Key>, k: Key, symbol: string)
    requires k in b.open && k !in keys
    ensures MapSum(StandingsOf(b, keys + {k}, symbol))
         == MapSum(StandingsOf(b, keys, symbol)) + (if k.symbol == symbol then Standing(b, k) else 0.0)
  {
    if k.symbol == symbol {
      assert StandingsOf(b, keys + {k}, symbol) == StandingsOf(b, keys, symbol)[k := Standing(b, k)];
      MapSumInsert(StandingsOf(b, keys, symbol), k, Standing(b, k));
    } else {
      assert StandingsOf(b, keys + {k}, symbol) == StandingsOf(b, keys, symbol);
    }
  }

  lemma ElementsGrow(order: seq<Key>)
    requires order != [] && NoRepeats(order)
    ensures var front, k := order[..|order| - 1], order[|order| - 1];
            NoRepeats(front) && k !in Elements(front) && Elements(order) == Elements(front) + {k}
  {
    assert order == order[..|order| - 1] + [order[|order| - 1]];
  }

  /** Each symbol's figure: its closed trades plus its open ones at their last mark. */
  lemma {:induction false} EachSymbolIsItsTrades(b: Book, order: seq<Key>, symbol: string)
    requires NoRepeats(order) && forall k :: k in order ==> k in b.open
    ensures At(NetBySymbol(b, order), symbol)
         == At(b.closedNet, symbol) + MapSum(StandingsOf(b, Elements(order), symbol))
  {
    if order == [] {
      assert StandingsOf(b, Elements(order), symbol) == map[];
    } else {
      ElementsGrow(order);
      var front, k := order[..|order| - 1], order[|order| - 1];
      EachSymbolIsItsTrades(b, front, symbol);
      StandingsOfGrow(b, Elements(front), k, symbol);
    }
  }

  lemma OneMoreSide(b: Book, order: seq<Key>)
    requires order != [] && order[|order| - 1] in b.open
    ensures MapSum(NetBySymbol(b, order))
         == MapSum(NetBySymbol(b, order[..|order| - 1])) + Standing(b, order[|order| - 1])
  {
    var front, k := NetBySymbol(b, order[..|order| - 1]), order[|order| - 1];
    assert NetBySymbol(b, order) == front[k.symbol := At(front, k.symbol) + Standing(b, k)];
    AddToMapSum(front, k.symbol, Standing(b, k));
  }

  lemma {:induction false} SymbolsSumToTheStandings(b: Book, order: seq<Key>)
    requires NoRepeats(order) && forall k :: k in order ==> k in b.open
    ensures MapSum(NetBySymbol(b, order)) == MapSum(b.closedNet) + MapSum(Standings(b, Elements(order)))
  {
    if order == [] {
      assert Standings(b, Elements(order)) == map[];
    } else {
      ElementsGrow(order);
      var front, k := order[..|order| - 1], order[|order| - 1];
      SymbolsSumToTheStandings(b, front);
      StandingsGrow(b, Elements(front), k);
      OneMoreSide(b, order);
    }
  }

  lemma {:induction false} SumOfSums(m: map<Key, real>, n: map<Key, real>, both: map<Key, real>)
    requires n.Keys <= m.Keys == both.Keys && forall k :: k in both ==> both[k] == m[k] + At(n, k)
    ensures MapSum(both) == MapSum(m) + MapSum(n)
    decreases |m|
  {
    if m == map[] {
      assert n == map[] && both == map[];
    } else {
      var k :| k in m;
      SumOfSums(m - {k}, n - {k}, both - {k});
      MapSumRemove(m, k);
      MapSumRemove(both, k);
      if k in n { MapSumRemove(n, k); } else { assert n - {k} == n; }
    }
  }

  /** Summed across symbols the figures are the net PnL of all trades plus the unrealised
      PnL the open ones last saw. */
  lemma SymbolsSumToTheBook(b: Book, order: seq<Key>)
    requires Tallied(b) && NoRepeats(order) && forall k :: k in order <==> k in b.open
    ensures MapSum(NetBySymbol(b, order)) == Total(b) + MapSum(b.unrealized)
  {
    SymbolsSumToTheStandings(b, order);
    AllStandings(b, order);
    SumOfSums(Runnings(b.open), b.unrealized, Standings(b, b.open.Keys));
  }

  lemma AllStandings(b: Book, order: seq<Key>)
    requires forall k :: k in order <==> k in b.open
    ensures Standings(b, Elements(order)) == Standings(b, b.open.Keys)
    ensures Standings(b, b.open.Keys).Keys == b.open.Keys
  {
  }

  // --------------------------------------------------------- at the last mark sample

  lemma {:induction false} LastPriceIsRecorded(b: Book, k: Key, p: Position, prices: seq<real>)
    requires k in b.open
    ensures var b' := NotePrices(b, k, p, prices);
            && b'.open.Keys == b.open.Keys
            && b'.unrealized == if prices == [] then b.unrealized
                                else b.unrealized[k := p.UnrealizedPnl(prices[|prices| - 1])]
  {
    if prices != [] {
      var front := prices[..|prices| - 1];
      LastPriceIsRecorded(b, k, p, front);
    }
  }

  lemma {:induction false} SampleRecordsTheUnrealised(s: Ledger, b: Book, order: seq<Key>, ranges: map<string, Range>)
    requires s.positions.Keys == b.open.Keys && b.unrealized.Keys <= b.open.Keys
    requires forall k :: k in s.positions ==> k.symbol in s.marks
    ensures var b' := NoteMarks(s, b, order, ranges);
            && b'.open.Keys == b.open.Keys && b'.unrealized.Keys <= b'.open.Keys
            && (forall k :: k in order && k in s.positions ==>
                  && k in b'.unrealized && b'.unrealized[k] == s.positions[k].UnrealizedPnl(s.marks[k.symbol]))
  {
    if order != [] {
      var front, k := order[..|order| - 1], order[|order| - 1];
      SampleRecordsTheUnrealised(s, b, front, ranges);
      assert order == front + [k];
      if k in s.positions {
        LastPriceIsRecorded(NoteMarks(s, b, front, ranges), k, s.positions[k], Prices(ranges, k.symbol, s.marks[k.symbol]));
      }
    }
  }

  lemma SampledBookShowsTheUnrealised(s: Ledger, b: Book, order: seq<Key>, ranges: map<string, Range>)
    requires s.positions.Keys == b.open.Keys && b.unrealized.Keys <= b.open.Keys
    requires forall k :: k in s.positions ==> k.symbol in s.marks && k in order
    ensures NoteMarks(s, b, order, ranges).unrealized == Unrealizeds(s)
  {
    SampleRecordsTheUnrealised(s, b, order, ranges);
  }

  /** Right after every open side was sampled, the symbols' figures sum to the account's
      own PnL: equity less the opening balance. */
  lemma SampledSymbolsSumToTheAccountPnl(c: Config, ops: seq<SessionOp>, order: seq<Key>, ranges: map<string, Range>)
    requires ConfigBuilds(c) && !RunBoth(c, ops).aborted && NoRepeats(order)
    requires forall k :: k in order <==> k in RunBoth(c, ops).ledger.positions
    requires forall k :: k in order ==> k.symbol in RunBoth(c, ops).ledger.marks
    ensures var s := RunBoth(c, ops).ledger;
            var b := NoteMarks(s, RunBoth(c, ops).book, order, ranges);
            MapSum(NetBySymbol(b, order)) == Equity(s) - c.opening
  {
    EveryRunStaysInStep(c, ops);
    var s, b := RunBoth(c, ops).ledger, RunBoth(c, ops).book;
    SampleKeepsStep(c.opening, s, b, order, ranges);
    SampledBookShowsTheUnrealised(s, b, order, ranges);
    SymbolsSumToTheBook(NoteMarks(s, b, order, ranges), order);
  }
}
