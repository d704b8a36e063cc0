/**
 * The alignment filter: every record of a screener is stamped with the
 * market bias, and only the records whose own trend agrees with it are kept,
 * in their original order.
 */
module Alignment {
  import opened Wrappers
  import opened Trend
  import opened Sequences
  import opened Stocks

  /**
   * Whether a stock with trend `trend` is kept under market bias `bias`:
   * bullish with bullish, bearish with bearish, anything in a neutral
   * market, nothing in an unknown one.
   */
  predicate Keeps(bias: Direction, trend: Direction) {
    || (bias == Bullish && trend == Bullish)
    || (bias == Bearish && trend == Bearish)
    || bias == Neutral
  }

  /** The records the filter keeps under `bias`, in their original order. */
  function Aligned(stocks: seq<Stock>, bias: Direction): (r: seq<Stock>)
    ensures |r| <= |stocks|
  {
    if stocks == [] then []
    else
      var s := stocks[|stocks| - 1];
      Aligned(stocks[..|stocks| - 1], bias) + (if Keeps(bias, s.stockTrend) then [s] else [])
  }

  /** Filtering distributes over concatenation. */
  lemma {:induction false} AlignedAppend(a: seq<Stock>, b: seq<Stock>, bias: Direction)
    ensures Aligned(a + b, bias) == Aligned(a, bias) + Aligned(b, bias)
    decreases |b|
  {
    if b == [] {
      assert a + b == a;
    } else {
      var b' := b[..|b| - 1];
      assert (a + b)[..|a + b| - 1] == a + b';
      assert (a + b)[|a + b| - 1] == b[|b| - 1];
      AlignedAppend(a, b', bias);
    }
  }

  /** A record is kept exactly when it is in the input and its trend agrees with the bias. */
  lemma {:induction false} AlignedMembers(stocks: seq<Stock>, bias: Direction, s: Stock)
    ensures s in Aligned(stocks, bias) <==> s in stocks && Keeps(bias, s.stockTrend)
  {
    if stocks != [] {
      var init := stocks[..|stocks| - 1];
      AlignedMembers(init, bias, s);
      assert stocks == init + [stocks[|stocks| - 1]];
    }
  }

  /** The kept records are an order-preserving selection of the input. */
  lemma {:induction false} AlignedSubsequence(stocks: seq<Stock>, bias: Direction)
    ensures IsSubsequence(Aligned(stocks, bias), stocks)
  {
    if stocks != [] {
      var init := stocks[..|stocks| - 1];
      var s := stocks[|stocks| - 1];
      var kept := Aligned(init, bias);
      AlignedSubsequence(init, bias);
      assert stocks == init + [s];
      if Keeps(bias, s.stockTrend) {
        assert Aligned(stocks, bias) == kept + [s];
        SubsequenceAppendBoth(kept, init, s);
      } else {
        assert Aligned(stocks, bias) == kept;
        SubsequenceExtend(kept, init, s);
      }
    }
  }

  /** A neutral market keeps every stock. */
  lemma {:induction false} AlignedNeutral(stocks: seq<Stock>)
    ensures Aligned(stocks, Neutral) == stocks
  {
    if stocks != [] {
      AlignedNeutral(stocks[..|stocks| - 1]);
    }
  }

  /** An unknown market keeps no stock. */
  lemma {:induction false} AlignedUnknown(stocks: seq<Stock>)
    ensures Aligned(stocks, Unknown) == []
  {
    if stocks != [] {
      AlignedUnknown(stocks[..|stocks| - 1]);
    }
  }

  /** Filtering twice under the same bias is filtering once. */
  lemma {:induction false} AlignedIdempotent(stocks: seq<Stock>, bias: Direction)
    ensures Aligned(Aligned(stocks, bias), bias) == Aligned(stocks, bias)
  {
    if stocks != [] {
      var init := stocks[..|stocks| - 1];
      var s := stocks[|stocks| - 1];
      AlignedIdempotent(init, bias);
      var kept := if Keeps(bias, s.stockTrend) then [s] else [];
      AlignedAppend(Aligned(init, bias), kept, bias);
      if kept != [] {
        assert kept[..0] == [];
      }
    }
  }

  /**
   * On records built from validated rows, a bullish market keeps only rising stocks and a
   * bearish market only those whose change is zero or negative.
   */
  lemma AlignedChangeSign(stocks: seq<Stock>)
    requires forall s :: s in stocks ==> ValidQuote(s.AsQuote())
    ensures forall s :: s in Aligned(stocks, Bullish) ==> s.change > 0.0
    ensures forall s :: s in Aligned(stocks, Bearish) ==> s.change <= 0.0
  {
    forall s | s in Aligned(stocks, Bullish)
      ensures s.change > 0.0
    {
      AlignedMembers(stocks, Bullish, s);
    }
    forall s | s in Aligned(stocks, Bearish)
      ensures s.change <= 0.0
    {
      AlignedMembers(stocks, Bearish, s);
    }
  }

  /** The filter on values: the quotes whose trend `bias` keeps, in order. */
  function KeptQuotes(qs: seq<Quote>, bias: Direction): (r: seq<Quote>)
    ensures |r| <= |qs|
  {
    if qs == [] then []
    else
      var q := qs[|qs| - 1];
      KeptQuotes(qs[..|qs| - 1], bias) + (if Keeps(bias, q.stockTrend) then [q] else [])
  }

  /** The records the filter keeps carry exactly the quotes the value-level filter keeps. */
  lemma {:induction false} AlignedQuotes(stocks: seq<Stock>, bias: Direction)
    ensures Quotes(Aligned(stocks, bias)) == KeptQuotes(Quotes(stocks), bias)
  {
    if stocks != [] {
      var init := stocks[..|stocks| - 1];
      var s := stocks[|stocks| - 1];
      AlignedQuotes(init, bias);
      assert Quotes(stocks)[..|stocks| - 1] == Quotes(init);
      if Keeps(bias, s.stockTrend) {
        QuotesSnoc(Aligned(init, bias), s);
      } else {
        assert Aligned(stocks, bias) == Aligned(init, bias);
      }
    }
  }

  /** A quote is kept exactly when it is among the input and its trend agrees with the bias. */
  lemma {:induction false} KeptQuotesMembers(qs: seq<Quote>, bias: Direction, q: Quote)
    ensures q in KeptQuotes(qs, bias) <==> q in qs && Keeps(bias, q.stockTrend)
  {
    if qs != [] {
      var init := qs[..|qs| - 1];
      KeptQuotesMembers(init, bias, q);
      assert qs == init + [qs[|qs| - 1]];
    }
  }

  /**
   * `filter_stocks_by_market_trend`: stamps `bias` on every record (kept or
   * not) and returns the records the bias keeps, in input order.
   */
  method FilterStocksByMarketTrend(stocks: seq<Stock>, bias: Direction) returns (filtered: seq<Stock>)
    modifies set s | s in stocks
    ensures forall s :: s in stocks ==> s.marketBias == Some(bias)
    ensures filtered == Aligned(stocks, bias)
  {
    if stocks == [] {
      return [];
    }
    filtered := [];
    var i := 0;
    while i < |stocks|
      invariant 0 <= i <= |stocks|
      invariant forall j :: 0 <= j < i ==> stocks[j].marketBias == Some(bias)
      invariant filtered == Aligned(stocks[..i], bias)
    {
      var stock := stocks[i];
      stock.marketBias := Some(bias);
      assert stocks[..i + 1][..i] == stocks[..i];
      if bias == Bullish && stock.stockTrend == Bullish {
        filtered := filtered + [stock];
      } else if bias == Bearish && stock.stockTrend == Bearish {
        filtered := filtered + [stock];
      } else if bias == Neutral {
        filtered := filtered + [stock];
      }
      i := i + 1;
    }
    assert stocks[..i] == stocks;
  }
}
