/**
 * Cross-screener aggregation: the symbols that at least two of the three
 * screeners report, each consolidated into one record that says where it was
 * found.
 */
module Aggregation {
  import opened Wrappers
  import opened Trend
  import opened Stocks

  /** The set of symbols among a screener's records. */
  function SymbolsOf(stocks: seq<Stock>): set<string> {
    set s | s in stocks :: s.symbol
  }

  /** How many of the three sets contain `x`. */
  function Hits(x: string, a: set<string>, b: set<string>, c: set<string>): (n: nat)
    ensures n <= 3
  {
    (if x in a then 1 else 0) + (if x in b then 1 else 0) + (if x in c then 1 else 0)
  }

  /** The reference definition: the symbols contained in at least two of the three sets. */
  function InAtLeastTwo(a: set<string>, b: set<string>, c: set<string>): set<string> {
    set x | x in a + b + c && Hits(x, a, b, c) >= 2
  }

  /**
   * The union the scanner builds: all three, then each pair without the
   * third. Python's `a & b - c` groups as `a & (b - c)`.
   */
  function PairwiseUnion(a: set<string>, b: set<string>, c: set<string>): set<string> {
    (a * b * c) + (a * (b - c)) + (a * (c - b)) + (b * (c - a))
  }

  /** The pairwise union is exactly the symbols in at least two sets; one set alone never suffices. */
  lemma PairwiseUnionIsAtLeastTwo(a: set<string>, b: set<string>, c: set<string>)
    ensures PairwiseUnion(a, b, c) == InAtLeastTwo(a, b, c)
  {
    forall x | x in InAtLeastTwo(a, b, c)
      ensures x in PairwiseUnion(a, b, c)
    {
    }
  }

  /** A symbol reported by a single screener is not combined. */
  lemma SingleScreenerExcluded(x: string, a: set<string>, b: set<string>, c: set<string>)
    requires x in a && x !in b && x !in c
    ensures x !in InAtLeastTwo(a, b, c) && x !in InAtLeastTwo(b, a, c) && x !in InAtLeastTwo(b, c, a)
  {
  }

  /** The three screeners' records in the order the scanner visits them. */
  function AllStocks(screeners: map<Screener, seq<Stock>>): seq<Stock>
    requires HasSlots(screeners)
  {
    screeners[PriceCrossover] + screeners[OneHourRsi] + screeners[FiveMinRsi]
  }

  /** The records with symbol `x`, in order. */
  function Occurrences(stocks: seq<Stock>, x: string): (r: seq<Stock>)
    ensures |r| <= |stocks|
  {
    if stocks == [] then []
    else
      var s := stocks[|stocks| - 1];
      Occurrences(stocks[..|stocks| - 1], x) + (if s.symbol == x then [s] else [])
  }

  lemma {:induction false} OccurrencesAppend(a: seq<Stock>, b: seq<Stock>, x: string)
    ensures Occurrences(a + b, x) == Occurrences(a, x) + Occurrences(b, x)
    decreases |b|
  {
    if b == [] {
      assert a + b == a;
    } else {
      var b' := b[..|b| - 1];
      assert (a + b)[..|a + b| - 1] == a + b';
      assert (a + b)[|a + b| - 1] == b[|b| - 1];
      OccurrencesAppend(a, b', x);
    }
  }

  /** A symbol occurs in a list exactly when it is among the list's symbols. */
  lemma {:induction false} OccurrencesNonEmpty(stocks: seq<Stock>, x: string)
    ensures Occurrences(stocks, x) != [] <==> x in SymbolsOf(stocks)
  {
    if stocks != [] {
      var init := stocks[..|stocks| - 1];
      var s := stocks[|stocks| - 1];
      OccurrencesNonEmpty(init, x);
      assert stocks == init + [s];
      assert SymbolsOf(stocks) == SymbolsOf(init) + {s.symbol};
    }
  }

  /** Every occurrence of `x` has symbol `x` and is a record of the list. */
  lemma {:induction false} OccurrencesMembers(stocks: seq<Stock>, x: string)
    ensures forall s :: s in Occurrences(stocks, x) <==> s in stocks && s.symbol == x
  {
    if stocks != [] {
      var init := stocks[..|stocks| - 1];
      OccurrencesMembers(init, x);
      assert stocks == init + [stocks[|stocks| - 1]];
    }
  }

  /**
   * The first occurrence is the first record with that symbol: it sits at
   * some index `i` and no record before `i` has the symbol.
   */
  lemma {:induction false} FirstOccurrence(stocks: seq<Stock>, x: string)
    requires Occurrences(stocks, x) != []
    ensures exists i :: 0 <= i < |stocks| && stocks[i] == Occurrences(stocks, x)[0]
              && forall j :: 0 <= j < i ==> stocks[j].symbol != x
  {
    var init := stocks[..|stocks| - 1];
    if Occurrences(init, x) != [] {
      FirstOccurrence(init, x);
      var i :| 0 <= i < |init| && init[i] == Occurrences(init, x)[0]
               && forall j :: 0 <= j < i ==> init[j].symbol != x;
      assert stocks[i] == init[i];
      assert forall j :: 0 <= j < i ==> stocks[j] == init[j];
    } else {
      OccurrencesMembers(init, x);
      var i := |stocks| - 1;
      assert forall j :: 0 <= j < i ==> stocks[j] in init;
    }
  }

  /** A symbol in at least two of the three screeners occurs at least twice in all their records. */
  lemma AtLeastTwoOccurrences(screeners: map<Screener, seq<Stock>>, x: string)
    requires HasSlots(screeners)
    requires x in InAtLeastTwo(SymbolsOf(screeners[PriceCrossover]), SymbolsOf(screeners[OneHourRsi]),
                               SymbolsOf(screeners[FiveMinRsi]))
    ensures |Occurrences(AllStocks(screeners), x)| >= 2
  {
    var a, b, c := screeners[PriceCrossover], screeners[OneHourRsi], screeners[FiveMinRsi];
    OccurrencesAppend(a + b, c, x);
    OccurrencesAppend(a, b, x);
    OccurrencesNonEmpty(a, x);
    OccurrencesNonEmpty(b, x);
    OccurrencesNonEmpty(c, x);
  }

  /** A consolidated entry of `combined_stocks`. */
  datatype CombinedStock = CombinedStock(
    symbol: string,
    price: real,
    change: real,
    volume: int,
    stockTrend: Direction,
    marketBias: Direction,
    screenersFoundIn: seq<string>,
    matchCount: nat)

  /** The `screener_type` of each record, in order. */
  function ScreenerTypes(stocks: seq<Stock>): (r: seq<string>)
    ensures |r| == |stocks|
    ensures forall i :: 0 <= i < |stocks| ==> r[i] == stocks[i].screenerType
  {
    if stocks == [] then [] else ScreenerTypes(stocks[..|stocks| - 1]) + [stocks[|stocks| - 1].screenerType]
  }

  /**
   * The entry for `symbol` built from its records `instances`: base fields
   * from the first, provenance from all of them.
   */
  function Consolidate(symbol: string, instances: seq<Stock>): (e: CombinedStock)
    requires instances != [] && instances[0].marketBias.Some?
    reads instances[0]
    ensures e.symbol == symbol
    ensures e.matchCount == |e.screenersFoundIn| == |instances|
  {
    var base := instances[0];
    var found := ScreenerTypes(instances);
    CombinedStock(symbol, base.price, base.change, base.volume, base.stockTrend,
                  base.marketBias.value, found, |found|)
  }

  /** Every record held in one of the slots. */
  ghost function RecordsOf(screeners: map<Screener, seq<Stock>>): set<Stock> {
    set k, s | k in screeners && s in screeners[k] :: s
  }

  /** Every record of the three screeners carries a market bias. */
  predicate Stamped(screeners: map<Screener, seq<Stock>>)
    requires HasSlots(screeners)
    reads RecordsOf(screeners)
  {
    forall s :: s in AllStocks(screeners) ==> s.marketBias.Some?
  }

  /** `index` maps each symbol of `seen` to its occurrences there, and has no other keys. */
  predicate Indexes(index: map<string, seq<Stock>>, seen: seq<Stock>) {
    && index.Keys == SymbolsOf(seen)
    && forall x :: x in index ==> index[x] == Occurrences(seen, x)
  }

  /**
   * The symbol index the scanner builds: for each symbol, its records in
   * screener order and, within a screener, in list order.
   */
  method IndexBySymbol(screeners: map<Screener, seq<Stock>>) returns (index: map<string, seq<Stock>>)
    requires HasSlots(screeners)
    ensures Indexes(index, AllStocks(screeners))
  {
    index := map[];
    ghost var seen: seq<Stock> := [];
    index := IndexScreener(index, seen, screeners[PriceCrossover]);
    seen := seen + screeners[PriceCrossover];
    index := IndexScreener(index, seen, screeners[OneHourRsi]);
    seen := seen + screeners[OneHourRsi];
    index := IndexScreener(index, seen, screeners[FiveMinRsi]);
    seen := seen + screeners[FiveMinRsi];
    assert seen == AllStocks(screeners);
  }

  /** The inner loop: adds one screener's records to the index, in list order. */
  method IndexScreener(index: map<string, seq<Stock>>, ghost seen: seq<Stock>, stocksList: seq<Stock>)
    returns (next: map<string, seq<Stock>>)
    requires Indexes(index, seen)
    ensures Indexes(next, seen + stocksList)
  {
    next := index;
    assert seen + stocksList[..0] == seen;
    for j := 0 to |stocksList|
      invariant Indexes(next, seen + stocksList[..j])
    {
      var stock := stocksList[j];
      ghost var before := next;
      if stock.symbol !in next {
        next := next[stock.symbol := []];
      }
      next := next[stock.symbol := next[stock.symbol] + [stock]];
      IndexStep(before, seen + stocksList[..j], stock, next);
      assert seen + stocksList[..j + 1] == seen + stocksList[..j] + [stock];
    }
    assert stocksList[..|stocksList|] == stocksList;
  }

  /** Appending one record to its symbol's entry keeps the index equal to the occurrences of what was seen. */
  lemma IndexStep(index: map<string, seq<Stock>>, seen: seq<Stock>, stock: Stock, next: map<string, seq<Stock>>)
    requires Indexes(index, seen)
    requires next == index[stock.symbol := (if stock.symbol in index then index[stock.symbol] else []) + [stock]]
    ensures Indexes(next, seen + [stock])
  {
    var grown := seen + [stock];
    assert grown[..|seen|] == seen;
    OccurrencesNonEmpty(seen, stock.symbol);
    assert SymbolsOf(grown) == SymbolsOf(seen) + {stock.symbol};
  }

  /** The symbols of the combined entries. */
  function EntrySymbols(combined: seq<CombinedStock>): set<string> {
    set e | e in combined :: e.symbol
  }

  /**
   * A well-formed entry for the records `all`: its symbol occurs at least
   * twice, and the entry consolidates all of its occurrences.
   */
  predicate EntryOf(all: seq<Stock>, e: CombinedStock)
    reads if Occurrences(all, e.symbol) != [] then {Occurrences(all, e.symbol)[0]} else {}
  {
    var occurrences := Occurrences(all, e.symbol);
    && |occurrences| >= 2
    && occurrences[0].marketBias.Some?
    && e == Consolidate(e.symbol, occurrences)
    && e.matchCount >= 2
  }

  /** No symbol has two entries. */
  predicate DistinctSymbols(combined: seq<CombinedStock>) {
    forall i, j :: 0 <= i < j < |combined| ==> combined[i].symbol != combined[j].symbol
  }

  /**
   * `find_stocks_in_multiple_screeners`: one entry per symbol found in at
   * least two screeners, built from all of that symbol's records in screener
   * order; no symbol gets two entries.
   */
  method FindStocksInMultipleScreeners(screeners: map<Screener, seq<Stock>>) returns (combined: seq<CombinedStock>)
    requires HasSlots(screeners)
    requires Stamped(screeners)
    ensures EntrySymbols(combined) == InAtLeastTwo(SymbolsOf(screeners[PriceCrossover]),
                                                   SymbolsOf(screeners[OneHourRsi]),
                                                   SymbolsOf(screeners[FiveMinRsi]))
    ensures DistinctSymbols(combined)
    ensures forall e :: e in combined ==> EntryOf(AllStocks(screeners), e)
  {
    var combinedSymbols := CombinedSymbols(SymbolsOf(screeners[PriceCrossover]),
                                           SymbolsOf(screeners[OneHourRsi]),
                                           SymbolsOf(screeners[FiveMinRsi]));
    var index := IndexBySymbol(screeners);
    forall x | x in combinedSymbols
      ensures IndexedTwice(index, AllStocks(screeners), x)
    {
      CombinedSymbolIndexed(screeners, index, x);
    }
    combined := ConsolidateAll(index, AllStocks(screeners), combinedSymbols);
  }

  /** The symbol sets of the three screeners united pair by pair, as the scanner does. */
  method CombinedSymbols(priceCrossover: set<string>, oneHourRsi: set<string>, fiveMinRsi: set<string>)
    returns (combinedSymbols: set<string>)
    ensures combinedSymbols == InAtLeastTwo(priceCrossover, oneHourRsi, fiveMinRsi)
  {
    combinedSymbols := {};
    combinedSymbols := combinedSymbols + priceCrossover * oneHourRsi * fiveMinRsi;
    combinedSymbols := combinedSymbols + priceCrossover * (oneHourRsi - fiveMinRsi);
    combinedSymbols := combinedSymbols + priceCrossover * (fiveMinRsi - oneHourRsi);
    combinedSymbols := combinedSymbols + oneHourRsi * (fiveMinRsi - priceCrossover);
    PairwiseUnionIsAtLeastTwo(priceCrossover, oneHourRsi, fiveMinRsi);
  }

  /** What the index holds for each combined symbol: all its records, at least two, the first stamped. */
  predicate IndexedTwice(index: map<string, seq<Stock>>, all: seq<Stock>, x: string)
    reads if x in index && index[x] != [] then {index[x][0]} else {}
  {
    && x in index && index[x] == Occurrences(all, x)
    && |index[x]| >= 2 && index[x][0].marketBias.Some?
  }

  /** One consolidated entry per combined symbol, looked up in the index. */
  method ConsolidateAll(index: map<string, seq<Stock>>, ghost all: seq<Stock>, combinedSymbols: set<string>)
    returns (combined: seq<CombinedStock>)
    requires forall x :: x in combinedSymbols ==> IndexedTwice(index, all, x)
    ensures EntrySymbols(combined) == combinedSymbols
    ensures DistinctSymbols(combined)
    ensures forall e :: e in combined ==> EntryOf(all, e)
  {
    combined := [];
    var remaining := combinedSymbols;
    while remaining != {}
      invariant remaining <= combinedSymbols
      invariant EntrySymbols(combined) == combinedSymbols - remaining
      invariant DistinctSymbols(combined)
      invariant forall e :: e in combined ==> EntryOf(all, e)
      decreases remaining
    {
      var symbol :| symbol in remaining;
      var instances := if symbol in index then index[symbol] else [];
      if instances != [] {
        var entry := Consolidate(symbol, instances);
        EntriesSnoc(all, combined, entry);
        combined := combined + [entry];
      }
      remaining := remaining - {symbol};
    }
  }

  /**
   * A combined symbol is a key of the index, and its records there occur at
   * least twice, the first of them stamped with a market bias.
   */
  lemma CombinedSymbolIndexed(screeners: map<Screener, seq<Stock>>, index: map<string, seq<Stock>>, x: string)
    requires HasSlots(screeners)
    requires Stamped(screeners)
    requires Indexes(index, AllStocks(screeners))
    requires x in InAtLeastTwo(SymbolsOf(screeners[PriceCrossover]), SymbolsOf(screeners[OneHourRsi]),
                               SymbolsOf(screeners[FiveMinRsi]))
    ensures x in index && index[x] == Occurrences(AllStocks(screeners), x)
    ensures |index[x]| >= 2 && index[x][0].marketBias.Some?
  {
    var all := AllStocks(screeners);
    AtLeastTwoOccurrences(screeners, x);
    OccurrencesNonEmpty(all, x);
    OccurrencesMembers(all, x);
    assert Occurrences(all, x)[0] in Occurrences(all, x);
  }

  /** Appending an entry for a new symbol keeps the entries well-formed and their symbols distinct. */
  lemma EntriesSnoc(all: seq<Stock>, combined: seq<CombinedStock>, entry: CombinedStock)
    requires DistinctSymbols(combined)
    requires forall e :: e in combined ==> EntryOf(all, e)
    requires entry.symbol !in EntrySymbols(combined)
    requires EntryOf(all, entry)
    ensures EntrySymbols(combined + [entry]) == EntrySymbols(combined) + {entry.symbol}
    ensures DistinctSymbols(combined + [entry])
    ensures forall e :: e in combined + [entry] ==> EntryOf(all, e)
  {
    var next := combined + [entry];
    forall i | 0 <= i < |combined|
      ensures next[i].symbol != entry.symbol
    {
      assert next[i] == combined[i];
    }
  }

  /**
   * An entry takes its base fields from the first record with its symbol in
   * screener order, and lists the screener of every record with that symbol.
   */
  lemma EntryFromFirstOccurrence(all: seq<Stock>, e: CombinedStock)
    requires EntryOf(all, e)
    ensures exists i :: 0 <= i < |all| && all[i].symbol == e.symbol
              && (forall j :: 0 <= j < i ==> all[j].symbol != e.symbol)
              && e.price == all[i].price && e.change == all[i].change && e.volume == all[i].volume
              && e.stockTrend == all[i].stockTrend && all[i].marketBias == Some(e.marketBias)
    ensures e.screenersFoundIn == ScreenerTypes(Occurrences(all, e.symbol))
  {
    var occurrences := Occurrences(all, e.symbol);
    FirstOccurrence(all, e.symbol);
    OccurrencesMembers(all, e.symbol);
    assert occurrences[0] in occurrences;
  }

  /** When every record carries the same bias, so does every entry built from them. */
  lemma EntriesCarryBias(all: seq<Stock>, combined: seq<CombinedStock>, bias: Direction)
    requires forall s :: s in all ==> s.marketBias == Some(bias)
    requires forall e :: e in combined ==> EntryOf(all, e)
    ensures forall e :: e in combined ==> e.marketBias == bias
  {
    forall e | e in combined
      ensures e.marketBias == bias
    {
      EntryFromFirstOccurrence(all, e);
    }
  }
}
