/**
 * Direction labels: a single stock's trend from its percentage change, and
 * the market bias from the two index probes (bullish and bearish screens).
 */
module Trend {
  import opened Wrappers
  import Text

  /** The labels "bullish", "bearish", "neutral" and "unknown". */
  datatype Direction = Bullish | Bearish | Neutral | Unknown

  /** Bullish and bearish swapped; neutral and unknown stay. */
  function Mirror(d: Direction): Direction {
    match d
    case Bullish => Bearish
    case Bearish => Bullish
    case Neutral => Neutral
    case Unknown => Unknown
  }

  /** What `determine_stock_trend` may be handed: a number, a string, or anything else. */
  datatype ChangeValue = Number(x: real) | TextValue(text: string) | NoValue

  /** The number a `ChangeValue` denotes, if any: strings go through `float()`. */
  function NumericValue(c: ChangeValue): Option<real> {
    match c
    case Number(x) => Some(x)
    case TextValue(t) => Text.ParseFloat(t)
    case NoValue => None
  }

  /**
   * `determine_stock_trend`: strictly positive change is bullish, any other
   * number (zero included) bearish, and a value that is not a number unknown.
   */
  function DetermineStockTrend(change: ChangeValue): (r: Direction)
    ensures r != Neutral
    ensures r == Unknown <==> NumericValue(change).None?
    ensures r == Bullish <==> NumericValue(change).Some? && NumericValue(change).value > 0.0
    ensures r == Bearish <==> NumericValue(change).Some? && NumericValue(change).value <= 0.0
  {
    match change
    case Number(x) => if x > 0.0 then Bullish else Bearish
    case TextValue(t) =>
      (match Text.ParseFloat(t)
       case Some(x) => if x > 0.0 then Bullish else Bearish
       case None => Unknown)
    case NoValue => Unknown
  }

  /** Zero change counts as bearish, by the strict `> 0` rule. */
  lemma ZeroChangeIsBearish()
    ensures DetermineStockTrend(Number(0.0)) == Bearish
    ensures DetermineStockTrend(TextValue("0")) == Bearish
  {
    Text.ParseRoundTrip(0);
    assert Text.NatToDigits(0) == "0";
  }

  /** The percent sign is not stripped here: the text "1.5%" is not a number, so unknown. */
  lemma PercentTextIsUnknown()
    ensures DetermineStockTrend(TextValue("1.5%")) == Unknown
  {
    var t := "1.5%";
    Text.ParseFloatUnpadded(t);
    assert Text.Unsigned(t) == t;
    Text.IndexOfAt(t, '.', 1);
    Text.UnsignedDecimalBadFraction(t, 1, 1);
  }

  /** The three indices whose presence decides the market bias. */
  const KEY_INDICES: seq<string> := ["NIFTY", "BANKNIFTY", "NIFTYFINSERVICE"]

  /** How many of `keys` occur in `indices` (`sum(1 for idx in keys if idx in indices)`). */
  function CountPresent(keys: seq<string>, indices: seq<string>): (n: nat)
    ensures n <= |keys|
    ensures n == 0 <==> forall k :: k in keys ==> k !in indices
    ensures n == |keys| <==> forall k :: k in keys ==> k in indices
  {
    if keys == [] then 0
    else
      assert forall k :: k in keys <==> k == keys[0] || k in keys[1..];
      (if keys[0] in indices then 1 else 0) + CountPresent(keys[1..], indices)
  }

  /** No key is listed twice. */
  predicate Distinct(keys: seq<string>) {
    forall i, j :: 0 <= i < j < |keys| ==> keys[i] != keys[j]
  }

  /** Over distinct keys, the count is the number of keys the screen lists. */
  lemma {:induction false} CountPresentIsSize(keys: seq<string>, indices: seq<string>)
    requires Distinct(keys)
    ensures CountPresent(keys, indices) == |set k | k in keys && k in indices|
  {
    if keys != [] {
      DistinctTail(keys);
      CountPresentIsSize(keys[1..], indices);
      ListedSplit(keys, indices);
    }
  }

  /** The tail of distinct keys is distinct and does not hold the head. */
  lemma DistinctTail(keys: seq<string>)
    requires keys != [] && Distinct(keys)
    ensures Distinct(keys[1..]) && keys[0] !in keys[1..]
  {
    var rest := keys[1..];
    forall i | 0 <= i < |rest|
      ensures rest[i] == keys[i + 1]
    {
    }
  }

  /** The listed keys are the head, if listed, and the listed keys of the tail. */
  lemma ListedSplit(keys: seq<string>, indices: seq<string>)
    requires keys != [] && keys[0] !in keys[1..]
    ensures |set k | k in keys && k in indices|
            == (if keys[0] in indices then 1 else 0) + |set k | k in keys[1..] && k in indices|
  {
    var found := set k | k in keys && k in indices;
    var foundRest := set k | k in keys[1..] && k in indices;
    assert forall k :: k in keys <==> k == keys[0] || k in keys[1..];
    if keys[0] in indices {
      assert found == foundRest + {keys[0]};
    } else {
      assert found == foundRest;
    }
  }

  /** The bias rule's count is the number of distinct key indices a screen lists. */
  lemma KeyIndicesCount(indices: seq<string>)
    ensures CountPresent(KEY_INDICES, indices) == |set k | k in KEY_INDICES && k in indices|
  {
    CountPresentIsSize(KEY_INDICES, indices);
  }

  /**
   * The bias rule: more key indices on the bullish screen than on the bearish
   * one is bullish, the mirrored case bearish, a tie neutral.
   */
  function MarketBias(bullishIndices: seq<string>, bearishIndices: seq<string>): (bias: Direction)
    ensures bias != Unknown
  {
    var bullishCount := CountPresent(KEY_INDICES, bullishIndices);
    var bearishCount := CountPresent(KEY_INDICES, bearishIndices);
    if bullishCount > bearishCount then Bullish
    else if bearishCount > bullishCount then Bearish
    else Neutral
  }

  /** Swapping the two screens swaps bullish and bearish. */
  lemma MarketBiasSymmetric(bullishIndices: seq<string>, bearishIndices: seq<string>)
    ensures MarketBias(bearishIndices, bullishIndices) == Mirror(MarketBias(bullishIndices, bearishIndices))
  {
  }

  /** All three keys bullish and not all of them bearish is a bullish market. */
  lemma AllKeysBullish(bullishIndices: seq<string>, bearishIndices: seq<string>)
    requires forall k :: k in KEY_INDICES ==> k in bullishIndices
    requires exists k :: k in KEY_INDICES && k !in bearishIndices
    ensures MarketBias(bullishIndices, bearishIndices) == Bullish
  {
  }

  /** Neither screen listing any key index is a neutral market, never "unknown". */
  lemma NoKeysIsNeutral(bullishIndices: seq<string>, bearishIndices: seq<string>)
    requires forall k :: k in KEY_INDICES ==> k !in bullishIndices && k !in bearishIndices
    ensures MarketBias(bullishIndices, bearishIndices) == Neutral
  {
  }

  /** One key index bullish and two bearish is a bearish market. */
  lemma OneBullishTwoBearish()
    ensures MarketBias(["NIFTY", "SENSEX"], ["BANKNIFTY", "NIFTYFINSERVICE"]) == Bearish
  {
    assert "BANKNIFTY" !in ["NIFTY", "SENSEX"];
    assert "NIFTY" !in ["BANKNIFTY", "NIFTYFINSERVICE"];
  }

  /** What loading, scanning and reading one index screen produced. */
  datatype ProbeOutcome = ProbeOutcome(loadOk: bool, scanOk: bool, symbols: seq<string>)

  /** The market-trend snapshot written each cycle. */
  datatype MarketTrend = MarketTrend(
    timestamp: string,
    marketBias: Direction,
    bullishIndices: seq<string>,
    bearishIndices: seq<string>)

  /** The symbols a probe contributes: none unless both the page load and the scan succeeded. */
  function ProbeIndices(probe: ProbeOutcome): (indices: seq<string>)
    ensures probe.loadOk && probe.scanOk ==> indices == probe.symbols
    ensures !(probe.loadOk && probe.scanOk) ==> indices == []
  {
    if probe.loadOk && probe.scanOk then probe.symbols else []
  }

  /** `check_market_trend` over the two probes' outcomes. */
  function CheckMarketTrend(bullish: ProbeOutcome, bearish: ProbeOutcome, timestamp: string): (t: MarketTrend)
    ensures t.timestamp == timestamp
    ensures t.bullishIndices == ProbeIndices(bullish) && t.bearishIndices == ProbeIndices(bearish)
    ensures t.marketBias == MarketBias(t.bullishIndices, t.bearishIndices)
    ensures t.marketBias != Unknown
    ensures !(bullish.loadOk && bullish.scanOk) && !(bearish.loadOk && bearish.scanOk)
            ==> t.marketBias == Neutral
  {
    var bullishIndices := ProbeIndices(bullish);
    var bearishIndices := ProbeIndices(bearish);
    MarketTrend(timestamp, MarketBias(bullishIndices, bearishIndices), bullishIndices, bearishIndices)
  }
}
