/**
 * The scanner's state and its cycle: the results record that is persisted
 * between cycles, one screener run updating its slot, the cycle body that
 * records the market bias and timestamp, runs the three screeners and
 * recomputes the combined stocks, and the trading-hours gate in front of it.
 */
module Scanner {
  import opened Wrappers
  import opened Trend
  import opened Stocks
  import opened Alignment
  import opened Aggregation

  /** What loading a screener page, running its scan and reading its table produced. */
  datatype ScreenOutcome = ScreenOutcome(loadOk: bool, scanOk: bool, table: Option<seq<RawRow>>)

  /** Whether a screener run replaces its slot: only when both the page load and the scan succeeded. */
  predicate Scanned(outcome: ScreenOutcome) {
    outcome.loadOk && outcome.scanOk
  }

  /**
   * A slot filled by a successful scan: records of that screener holding
   * exactly the kept quotes of the table, in row order.
   */
  predicate Fills(slot: seq<Stock>, screenerType: string, table: Option<seq<RawRow>>, bias: Direction) {
    && Quotes(slot) == KeptQuotes(if table.Some? then ParseRows(table.value) else [], bias)
    && forall s :: s in slot ==> s.screenerType == screenerType
  }

  /** The slot a screener run leaves behind: the old one when the load or scan failed, else a filled one. */
  predicate SlotAfter(before: seq<Stock>, after: seq<Stock>, screenerType: string,
                      outcome: ScreenOutcome, bias: Direction)
  {
    if Scanned(outcome) then Fills(after, screenerType, outcome.table, bias) else after == before
  }

  /** Every record of a slot is stamped with `bias`. */
  ghost predicate StampedWith(slot: seq<Stock>, bias: Direction)
    reads set s | s in slot
  {
    forall s :: s in slot ==> s.marketBias == Some(bias)
  }

  /** The day of the week (0 is Monday) and the wall-clock time in the exchange's zone. */
  datatype Clock = Clock(weekday: nat, hour: nat, minute: nat, second: nat, microsecond: nat)

  /** `datetime.replace(hour=…, minute=…, second=…)`: the microseconds and the date stay. */
  function Replace(c: Clock, hour: nat, minute: nat, second: nat): Clock {
    Clock(c.weekday, hour, minute, second, c.microsecond)
  }

  /** Position within the day in microseconds, which orders two times of the same date. */
  function TimeOfDay(c: Clock): int {
    ((c.hour * 60 + c.minute) * 60 + c.second) * 1000000 + c.microsecond
  }

  /** The last whole second of the window, 23:59:00, in seconds since midnight. */
  const WINDOW_END: nat := 23 * 3600 + 59 * 60

  /**
   * `is_market_hours`: closed at the weekend; otherwise open from midnight up
   * to 23:59:00 of the same microsecond, so the whole-second time of day
   * decides.
   */
  function IsMarketHours(c: Clock): (open: bool)
    ensures open <==> c.weekday < 5 && c.hour * 3600 + c.minute * 60 + c.second <= WINDOW_END
  {
    if c.weekday >= 5 then false
    else
      var marketStart := Replace(c, 0, 0, 0);
      var marketEnd := Replace(c, 23, 59, 0);
      TimeOfDay(marketStart) <= TimeOfDay(c) <= TimeOfDay(marketEnd)
  }

  /**
   * The screener loop's progress for screener `k`: once its position is
   * passed it has run, before that it still holds its old slot.
   */
  predicate SlotProgress(i: nat, k: Screener, before: map<Screener, seq<Stock>>, after: map<Screener, seq<Stock>>,
                         outcomes: map<Screener, ScreenOutcome>, bias: Direction)
  {
    && k in before && k in after && k in outcomes
    && if Rank(k) < i then SlotAfter(before[k], after[k], ScreenerName(k), outcomes[k], bias)
       else after[k] == before[k]
  }

  /** The screener loop's progress: the screeners before position `i` have run, the others not yet. */
  predicate RanUpTo(i: nat, before: map<Screener, seq<Stock>>, after: map<Screener, seq<Stock>>,
                    outcomes: map<Screener, ScreenOutcome>, bias: Direction)
  {
    && SlotProgress(i, PriceCrossover, before, after, outcomes, bias)
    && SlotProgress(i, OneHourRsi, before, after, outcomes, bias)
    && SlotProgress(i, FiveMinRsi, before, after, outcomes, bias)
  }

  /** After the loop every screener has run: each slot is what its own run left behind. */
  lemma RanAll(before: map<Screener, seq<Stock>>, after: map<Screener, seq<Stock>>,
               outcomes: map<Screener, ScreenOutcome>, bias: Direction)
    requires RanUpTo(|SCREENER_ORDER|, before, after, outcomes, bias)
    ensures HasSlots(before) && HasSlots(after) && HasSlots(outcomes)
    ensures forall k: Screener :: SlotAfter(before[k], after[k], ScreenerName(k), outcomes[k], bias)
  {
    forall k: Screener
      ensures k in before && k in after && k in outcomes
      ensures SlotAfter(before[k], after[k], ScreenerName(k), outcomes[k], bias)
    {
      assert SlotProgress(|SCREENER_ORDER|, k, before, after, outcomes, bias) by {
        match k
        case PriceCrossover =>
        case OneHourRsi =>
        case FiveMinRsi =>
      }
    }
  }

  /** Running the screener at position `i` advances the loop's progress by one. */
  lemma RanStep(i: nat, before: map<Screener, seq<Stock>>, mid: map<Screener, seq<Stock>>,
                after: map<Screener, seq<Stock>>, outcomes: map<Screener, ScreenOutcome>, bias: Direction)
    requires i < |SCREENER_ORDER| && RanUpTo(i, before, mid, outcomes, bias)
    requires SCREENER_ORDER[i] in after && after == mid[SCREENER_ORDER[i] := after[SCREENER_ORDER[i]]]
    requires SlotAfter(mid[SCREENER_ORDER[i]], after[SCREENER_ORDER[i]], ScreenerName(SCREENER_ORDER[i]),
                       outcomes[SCREENER_ORDER[i]], bias)
    ensures RanUpTo(i + 1, before, after, outcomes, bias)
  {
    var screener := SCREENER_ORDER[i];
    assert Rank(screener) == i;
  }

  /**
   * The records of every slot refreshed so far (the screeners before
   * position `i` whose load and scan succeeded) carry `bias`.
   */
  ghost predicate RefreshedStamped(i: nat, slots: map<Screener, seq<Stock>>,
                                   outcomes: map<Screener, ScreenOutcome>, bias: Direction)
    reads RecordsOf(slots)
  {
    forall k: Screener, s: Stock :: k in slots && k in outcomes && Rank(k) < i && Scanned(outcomes[k]) && s in slots[k]
      ==> s.marketBias == Some(bias)
  }

  /** When every screener's load and scan succeeded, every stored record carries the cycle's bias. */
  lemma AllRefreshed(slots: map<Screener, seq<Stock>>, outcomes: map<Screener, ScreenOutcome>, bias: Direction)
    requires HasSlots(slots) && HasSlots(outcomes)
    requires RefreshedStamped(|SCREENER_ORDER|, slots, outcomes, bias)
    requires forall k: Screener :: Scanned(outcomes[k])
    ensures forall s :: s in AllStocks(slots) ==> s.marketBias == Some(bias)
  {
    forall s | s in AllStocks(slots)
      ensures s.marketBias == Some(bias)
    {
      assert Rank(PriceCrossover) < 3 && Rank(OneHourRsi) < 3 && Rank(FiveMinRsi) < 3;
      assert s in slots[PriceCrossover] || s in slots[OneHourRsi] || s in slots[FiveMinRsi];
    }
  }

  /**
   * After a cycle in which every screener's load and scan succeeded, every
   * combined entry carries that cycle's bias.
   */
  lemma CycleEntriesCarryBias(slots: map<Screener, seq<Stock>>, outcomes: map<Screener, ScreenOutcome>,
                              combined: seq<CombinedStock>, bias: Direction)
    requires HasSlots(slots) && HasSlots(outcomes)
    requires RefreshedStamped(|SCREENER_ORDER|, slots, outcomes, bias)
    requires forall k: Screener :: Scanned(outcomes[k])
    requires forall e :: e in combined ==> EntryOf(AllStocks(slots), e)
    ensures forall e :: e in combined ==> e.marketBias == bias
  {
    AllRefreshed(slots, outcomes, bias);
    EntriesCarryBias(AllStocks(slots), combined, bias);
  }

  /** Replacing one slot by stamped records keeps every record stamped. */
  lemma StampedUpdate(screeners: map<Screener, seq<Stock>>, screener: Screener, slot: seq<Stock>)
    requires HasSlots(screeners) && Stamped(screeners)
    requires forall s :: s in slot ==> s.marketBias.Some?
    ensures Stamped(screeners[screener := slot])
  {
    var next := screeners[screener := slot];
    forall s | s in AllStocks(next)
      ensures s.marketBias.Some?
    {
      if s !in slot {
        assert s in AllStocks(screeners);
      }
    }
  }

  /**
   * The part of `run_screener` after a successful load and scan: the
   * extracted records filtered by `bias`, or none when nothing was extracted.
   */
  method ScanSlot(table: Option<seq<RawRow>>, screenerType: string, bias: Direction) returns (slot: seq<Stock>)
    ensures Fills(slot, screenerType, table, bias)
    ensures StampedWith(slot, bias)
    ensures forall s :: s in slot ==> fresh(s)
  {
    var allStockData := ExtractStockData(table, screenerType);
    if allStockData != [] {
      slot := FilterStocksByMarketTrend(allStockData, bias);
      AlignedQuotes(allStockData, bias);
      forall s | s in slot
        ensures s in allStockData
      {
        AlignedMembers(allStockData, bias, s);
      }
    } else {
      slot := [];
    }
  }

  /** The results record: last update, market bias, the three screener slots and the combined stocks. */
  class ResultsData {
    var lastUpdate: string
    var marketBias: Direction
    var screeners: map<Screener, seq<Stock>>
    var combinedStocks: seq<CombinedStock>

    /** Exactly the three slots, and every record in them stamped with a market bias. */
    ghost predicate Valid()
      reads this, RecordsOf(screeners)
    {
      && HasSlots(screeners)
      && Stamped(screeners)
    }

    /** The default results value: no update yet, unknown bias, three empty slots, nothing combined. */
    constructor ()
      ensures Valid()
      ensures lastUpdate == "" && marketBias == Unknown && combinedStocks == []
      ensures screeners == map[PriceCrossover := [], OneHourRsi := [], FiveMinRsi := []]
    {
      lastUpdate := "";
      marketBias := Unknown;
      screeners := map[PriceCrossover := [], OneHourRsi := [], FiveMinRsi := []];
      combinedStocks := [];
      new;
      forall k: Screener
        ensures k in screeners
      {
        assert Rank(k) < 3;
      }
    }

    /**
     * `run_screener`: on a successful load and scan the slot becomes the
     * aligned records extracted from the table (none when nothing was
     * extracted); otherwise it is left as it was. Nothing else changes.
     */
    method RunScreener(screener: Screener, outcome: ScreenOutcome, bias: Direction)
      requires Valid()
      modifies this
      ensures Valid()
      ensures lastUpdate == old(lastUpdate) && marketBias == old(marketBias)
      ensures combinedStocks == old(combinedStocks)
      ensures screeners == old(screeners)[screener := screeners[screener]]
      ensures SlotAfter(old(screeners[screener]), screeners[screener], ScreenerName(screener), outcome, bias)
      ensures Scanned(outcome) ==> StampedWith(screeners[screener], bias)
      ensures Scanned(outcome) ==> forall s :: s in screeners[screener] ==> fresh(s)
    {
      if outcome.loadOk {
        if outcome.scanOk {
          var slot := ScanSlot(outcome.table, ScreenerName(screener), bias);
          assert forall s :: s in slot ==> s.marketBias.Some?;
          StampedUpdate(screeners, screener, slot);
          screeners := screeners[screener := slot];
        }
      }
    }

    /** The screener loop of a cycle: every screener run once, in `SCREENER_ORDER`, under the same bias. */
    method RunScreeners(outcomes: map<Screener, ScreenOutcome>, bias: Direction)
      requires Valid() && HasSlots(outcomes)
      modifies this
      ensures Valid()
      ensures lastUpdate == old(lastUpdate) && marketBias == old(marketBias)
      ensures combinedStocks == old(combinedStocks)
      ensures RanUpTo(|SCREENER_ORDER|, old(screeners), screeners, outcomes, bias)
      ensures RefreshedStamped(|SCREENER_ORDER|, screeners, outcomes, bias)
    {
      for i := 0 to |SCREENER_ORDER|
        invariant Valid()
        invariant lastUpdate == old(lastUpdate) && marketBias == old(marketBias) && combinedStocks == old(combinedStocks)
        invariant RanUpTo(i, old(screeners), screeners, outcomes, bias)
        invariant RefreshedStamped(i, screeners, outcomes, bias)
      {
        var screener := SCREENER_ORDER[i];
        ghost var mid := screeners;
        RunScreener(screener, outcomes[screener], bias);
        RanStep(i, old(screeners), mid, screeners, outcomes, bias);
      }
    }

    /**
     * The cycle body of the main loop: the market trend from the two index
     * probes, then bias and timestamp recorded, then the three screeners in
     * order, then the combined stocks recomputed from the new slots.
     */
    method RunCycle(bullishProbe: ProbeOutcome, bearishProbe: ProbeOutcome, trendTime: string, updateTime: string,
                    outcomes: map<Screener, ScreenOutcome>)
      returns (trend: MarketTrend)
      requires Valid() && HasSlots(outcomes)
      modifies this
      ensures Valid()
      ensures trend == CheckMarketTrend(bullishProbe, bearishProbe, trendTime)
      ensures marketBias == trend.marketBias && lastUpdate == updateTime
      ensures RanUpTo(|SCREENER_ORDER|, old(screeners), screeners, outcomes, trend.marketBias)
      ensures EntrySymbols(combinedStocks) == InAtLeastTwo(SymbolsOf(screeners[PriceCrossover]),
                                                           SymbolsOf(screeners[OneHourRsi]),
                                                           SymbolsOf(screeners[FiveMinRsi]))
      ensures DistinctSymbols(combinedStocks)
      ensures forall e :: e in combinedStocks ==> EntryOf(AllStocks(screeners), e)
      ensures RefreshedStamped(|SCREENER_ORDER|, screeners, outcomes, trend.marketBias)
    {
      trend := CheckMarketTrend(bullishProbe, bearishProbe, trendTime);
      var bias := trend.marketBias;
      marketBias := bias;
      lastUpdate := updateTime;
      RunScreeners(outcomes, bias);
      UpdateCombined();
    }

    /** The last step of a cycle: the combined stocks recomputed from the current slots. */
    method UpdateCombined()
      requires Valid()
      modifies this
      ensures Valid()
      ensures screeners == old(screeners) && lastUpdate == old(lastUpdate) && marketBias == old(marketBias)
      ensures EntrySymbols(combinedStocks) == InAtLeastTwo(SymbolsOf(screeners[PriceCrossover]),
                                                           SymbolsOf(screeners[OneHourRsi]),
                                                           SymbolsOf(screeners[FiveMinRsi]))
      ensures DistinctSymbols(combinedStocks)
      ensures forall e :: e in combinedStocks ==> EntryOf(AllStocks(screeners), e)
    {
      combinedStocks := FindStocksInMultipleScreeners(screeners);
    }

    /**
     * One turn of the main loop at time `now`: outside market hours nothing
     * changes and no trend is produced; inside, one cycle runs.
     */
    method Tick(now: Clock, bullishProbe: ProbeOutcome, bearishProbe: ProbeOutcome, trendTime: string,
                updateTime: string, outcomes: map<Screener, ScreenOutcome>)
      returns (trend: Option<MarketTrend>)
      requires Valid() && HasSlots(outcomes)
      modifies this
      ensures Valid()
      ensures trend.None? <==> !IsMarketHours(now)
      ensures !IsMarketHours(now) ==> unchanged(this)
      ensures trend.Some? ==> trend.value == CheckMarketTrend(bullishProbe, bearishProbe, trendTime)
                              && marketBias == trend.value.marketBias && lastUpdate == updateTime
      ensures trend.Some? ==> RanUpTo(|SCREENER_ORDER|, old(screeners), screeners, outcomes, trend.value.marketBias)
      ensures trend.Some? ==> RefreshedStamped(|SCREENER_ORDER|, screeners, outcomes, trend.value.marketBias)
      ensures trend.Some? ==> EntrySymbols(combinedStocks) == InAtLeastTwo(SymbolsOf(screeners[PriceCrossover]),
                                                                           SymbolsOf(screeners[OneHourRsi]),
                                                                           SymbolsOf(screeners[FiveMinRsi]))
      ensures trend.Some? ==> DistinctSymbols(combinedStocks)
      ensures trend.Some? ==> forall e :: e in combinedStocks ==> EntryOf(AllStocks(screeners), e)
    {
      if !IsMarketHours(now) {
        return None;
      }
      var t := RunCycle(bullishProbe, bearishProbe, trendTime, updateTime, outcomes);
      trend := Some(t);
    }
  }
}
