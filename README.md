# Combined ChartInk scanner: a Dafny model of its decision engine

The combined scanner polls three ChartInk stock screeners: a 200-price
crossover, a one-hour RSI screen and a five-minute RSI screen. Before each
cycle it probes two index screens, one bullish and one bearish, and derives a
market bias from them. Then it:

- reads each screener's result table into stock records;
- keeps only the records whose own trend agrees with the bias, stamping the
  bias onto every record;
- stores the survivors per screener;
- lists the stocks that at least two screeners report, each with its
  provenance.

This project models that engine in Dafny and proves its contracts.

The model is organised as the program is:

- **Text** (`text.dfy`): the subset of Python string handling the program relies on (`str.strip`, `str.replace(c, '')`, `int()` and `float()` on plain decimal text). The parsers come with round-trip lemmas against a printer of naturals.
- **Trend** (`trend.dfy`):
  - `determine_stock_trend`;
  - the market-bias rule: counting the three key indices on each probe;
  - `check_market_trend` over abstract probe outcomes.
- **Stocks** (`stocks.dfy`):
  - the three screeners;
  - `validate_stock_data`;
  - the body of the row loop of `extract_stock_data`, as a function from the raw cell texts of a row;
  - the stock record, as a class: its `market_bias` key is written in place later;
  - the row loop itself, as a method.
- **Alignment** (`alignment.dfy`): `filter_stocks_by_market_trend` as a loop that stamps each record in place. It is proved equal to an order-preserving selection `Aligned`, whose properties are lemmas.
- **Aggregation** (`aggregation.dfy`): `find_stocks_in_multiple_screeners`:
  - the pairwise set union, proved equal to "in at least two of the three symbol sets";
  - the symbol index, built in nested loops;
  - the consolidation loop over the combined symbols.
- **Scanner** (`scanner.dfy`):
  - the results record as a class;
  - its default value;
  - `run_screener`;
  - the screener loop and the cycle body of `main`;
  - `is_market_hours` over an explicit clock value;
  - one turn of the main loop, gated on market hours.

`wrappers.dfy` holds `Option` and `Result`. `sequences.dfy` holds a subsequence relation and a generic filter-map over rows, with their lemmas.

All cited lines are in `combined-chartink-scanner.py`.

## Model

| member | source | states |
|---|---|---|
| Text.StripTrims | combined-chartink-scanner.py:209-218 | `strip()` never lengthens a cell's text, and leaves no whitespace at either end |
| Text.TrimStartSuffix | combined-chartink-scanner.py:209-218 | stripping the front removes exactly a whitespace prefix and stops at a non-space |
| Text.TrimEndPrefix | combined-chartink-scanner.py:209-218 | stripping the back removes exactly a whitespace suffix and stops at a non-space |
| Text.StripUnpadded | combined-chartink-scanner.py:209-218 | text without outer whitespace is left unchanged by `strip()` |
| Text.RemoveCharRemoves | combined-chartink-scanner.py:178-183 | `replace(c, '')` leaves no `c`, adds no character and never lengthens the text |
| Text.RemoveCharAppend | combined-chartink-scanner.py:178-183 | `replace(c, '')` distributes over concatenation |
| Text.RemoveCharAbsent | combined-chartink-scanner.py:178-183 | `replace(c, '')` on text without `c` is the identity |
| Text.RemoveCharIgnoresInserted | combined-chartink-scanner.py:178-183 | an inserted `c` anywhere is removed again |
| Text.NatToDigitsValue | combined-chartink-scanner.py:178-183 | the decimal printer and the digit reader are inverse |
| Text.ParseRoundTrip | combined-chartink-scanner.py:178-183 | `int()` and `float()` read back every printed natural |
| Text.ParseNegativeRoundTrip | combined-chartink-scanner.py:178-183 | `int()` and `float()` read back every printed negative integer |
| Text.ParseDigits | combined-chartink-scanner.py:178-183 | a non-empty all-digit text parses to its value as `int` and `float` |
| Text.ParseFloatAgreesWithParseInt | combined-chartink-scanner.py:178-183 | what `int()` accepts, `float()` accepts with the same value |
| Text.ParseFloatDecimal | combined-chartink-scanner.py:178-183 | a printed whole part, a dot and a digit fraction read as whole plus fraction |
| Text.ParseDecimalText | combined-chartink-scanner.py:178-183 | `d.f` with digit strings `d` (non-empty) and `f` reads as value of `d` plus fraction of `f` |
| Text.ParseEmptyFails | combined-chartink-scanner.py:220-222 | `float('')` and `int('')` raise |
| Trend.DetermineStockTrend | combined-chartink-scanner.py:188-194 | bullish iff the value is a number > 0; bearish iff a number <= 0; unknown iff not a number; never neutral |
| Trend.ZeroChangeIsBearish | combined-chartink-scanner.py:188-194 | change 0, as a number or as the text "0", is bearish |
| Trend.PercentTextIsUnknown | combined-chartink-scanner.py:188-194 | the text "1.5%" is not a number here, so its trend is unknown |
| Trend.CountPresent | combined-chartink-scanner.py:324-325 | the count is 0 iff no key index is listed, and equals the number of keys iff all are |
| Trend.CountPresentIsSize | combined-chartink-scanner.py:324-325 | over keys without repeats, the count is exactly the number of distinct keys the screen lists |
| Trend.KeyIndicesCount | combined-chartink-scanner.py:323-325 | each count the bias rule compares is the number of the three key indices the screen lists |
| Trend.MarketBias | combined-chartink-scanner.py:323-332 | the bias rule never yields unknown |
| Trend.MarketBiasSymmetric | combined-chartink-scanner.py:323-332 | swapping the bullish and bearish lists mirrors the bias |
| Trend.AllKeysBullish | combined-chartink-scanner.py:323-332 | all three keys bullish, and one of them missing from the bearish list, gives bullish |
| Trend.NoKeysIsNeutral | combined-chartink-scanner.py:323-332 | no key index on either list gives neutral, not unknown |
| Trend.OneBullishTwoBearish | combined-chartink-scanner.py:323-332 | one bullish key against two bearish keys gives bearish |
| Trend.ProbeIndices | combined-chartink-scanner.py:284-321 | a probe whose page load and scan both succeeded contributes exactly the symbols it read; one whose load or scan failed contributes none |
| Trend.CheckMarketTrend | combined-chartink-scanner.py:278-347 | the trend's two index lists are what the bullish and the bearish probe contribute; its bias is the bias rule on those lists, never unknown; it records the given timestamp; both probes failing gives neutral |
| Sequences.FilterMapMembers | combined-chartink-scanner.py:206-239 | a value is collected iff some row reads to it |
| Sequences.FilterMapAppend | combined-chartink-scanner.py:206-239 | reading rows distributes over concatenated tables, keeping row order |
| Sequences.FilterMapAll | combined-chartink-scanner.py:206-239 | what every accepted row satisfies, every collected value satisfies |
| Stocks.Rank | combined-chartink-scanner.py:17-21 | each screener sits at its own position in the run order |
| Stocks.SeparatorsIgnored | combined-chartink-scanner.py:220-222 | a `,` anywhere in a price, change or volume text, or a `%` in a change text, does not change the value read |
| Stocks.VolumeWithSeparator | combined-chartink-scanner.py:222 | a printed volume with a thousands separator anywhere reads back as the number |
| Stocks.SeparatorRemoved | combined-chartink-scanner.py:182 | removing the separator from digits with one inserted gives the digits back |
| Stocks.ValidateStockData | combined-chartink-scanner.py:171-186 | passes iff the symbol has length >= 2 and each non-empty numeric text parses; it rejects the symbol iff the symbol is shorter than 2 |
| Stocks.ParseRow | combined-chartink-scanner.py:206-239 | a row is kept iff its four cells exist, its stripped symbol has length >= 2 and its stripped price, change and volume parse once `,` (and `%` for the change) are removed; a kept quote holds those exact values, and its trend agrees with the sign of the change |
| Stocks.UnparsableMeansEmpty | combined-chartink-scanner.py:176-183 | a row that validation passes but parsing rejects had an empty text in that field |
| Stocks.ParseRows | combined-chartink-scanner.py:206-239 | no more quotes than rows, and every quote valid |
| Stocks.ParseRowsAppend | combined-chartink-scanner.py:206-239 | extraction of concatenated tables is the concatenation, so row order is kept |
| Stocks.ParseRowsMembers | combined-chartink-scanner.py:206-239 | a quote is extracted iff some row parses to it; failing rows are skipped, never zero-filled |
| Stocks.SingleRow | combined-chartink-scanner.py:206-239 | a one-row table yields its quote iff the row is acceptable, else nothing |
| Stocks.Stock.constructor | combined-chartink-scanner.py:227-234 | a new record holds the quote and screener type and has no market bias yet |
| Stocks.Quotes | combined-chartink-scanner.py:227-234 | one quote per record |
| Stocks.QuotesAt | combined-chartink-scanner.py:227-234 | position by position, the quotes are the records' fields |
| Stocks.QuotesSnoc | combined-chartink-scanner.py:227-234 | appending a record appends its quote |
| Stocks.CollectStocks | combined-chartink-scanner.py:206-239 | the row loop: fresh records whose quotes are exactly the rows read, in order, tagged with the screener and without a market bias |
| Stocks.ExtractStockData | combined-chartink-scanner.py:196-244 | the records' quotes are the parsed rows; every record is fresh, tagged with the screener and has no market bias; a missing table yields no records |
| Alignment.Aligned | combined-chartink-scanner.py:246-276 | the selection never grows |
| Alignment.AlignedMembers | combined-chartink-scanner.py:257-270 | a record is kept iff it is in the input and its trend agrees with the bias |
| Alignment.AlignedSubsequence | combined-chartink-scanner.py:246-276 | the output is an order-preserving subsequence of the input |
| Alignment.AlignedNeutral | combined-chartink-scanner.py:268-270 | a neutral market keeps every record |
| Alignment.AlignedUnknown | combined-chartink-scanner.py:257-270 | any other bias, e.g. unknown, keeps none |
| Alignment.AlignedIdempotent | combined-chartink-scanner.py:246-276 | filtering twice with the same bias is filtering once |
| Alignment.AlignedAppend | combined-chartink-scanner.py:246-276 | filtering distributes over concatenation |
| Alignment.AlignedChangeSign | combined-chartink-scanner.py:257-266 | on valid records, a bullish market keeps only rising stocks and a bearish one only those with change <= 0 |
| Alignment.KeptQuotes | combined-chartink-scanner.py:246-276 | the value-level selection never grows |
| Alignment.AlignedQuotes | combined-chartink-scanner.py:246-276 | the kept records carry exactly the quotes the value-level filter keeps |
| Alignment.KeptQuotesMembers | combined-chartink-scanner.py:257-270 | a quote is kept iff it is in the input and its trend agrees with the bias |
| Alignment.FilterStocksByMarketTrend | combined-chartink-scanner.py:246-276 | every input record, kept or not, is stamped with the bias; the result is exactly `Aligned`; empty input gives empty output |
| Aggregation.PairwiseUnionIsAtLeastTwo | combined-chartink-scanner.py:357-381 | all three, plus each pair without the third (`a & b - c` is `a & (b - c)`), is exactly the symbols in at least two sets |
| Aggregation.SingleScreenerExcluded | combined-chartink-scanner.py:357-381 | a symbol reported by one screener only is never combined |
| Aggregation.CombinedSymbols | combined-chartink-scanner.py:357-381 | the four updates build exactly the at-least-two set |
| Aggregation.Occurrences | combined-chartink-scanner.py:389-395 | a symbol has no more occurrences than there are records |
| Aggregation.OccurrencesAppend | combined-chartink-scanner.py:389-395 | occurrences over concatenated screeners are concatenated in screener order |
| Aggregation.OccurrencesNonEmpty | combined-chartink-scanner.py:389-395 | a symbol has occurrences iff it is among the records' symbols |
| Aggregation.OccurrencesMembers | combined-chartink-scanner.py:389-395 | the occurrences are exactly the records with that symbol |
| Aggregation.FirstOccurrence | combined-chartink-scanner.py:402-403 | the first occurrence is the earliest record with that symbol |
| Aggregation.AtLeastTwoOccurrences | combined-chartink-scanner.py:352-395 | a symbol in at least two screeners occurs at least twice among their records |
| Aggregation.ScreenerTypes | combined-chartink-scanner.py:405-406 | one screener type per occurrence, in order |
| Aggregation.Consolidate | combined-chartink-scanner.py:401-417 | the entry keeps the symbol, and `match_count` equals the length of `screeners_found_in`, which equals the number of occurrences |
| Aggregation.IndexStep | combined-chartink-scanner.py:391-395 | appending a record to its symbol's list keeps the index equal to the occurrences seen so far |
| Aggregation.IndexScreener | combined-chartink-scanner.py:391-395 | the inner loop extends the index by one screener's records |
| Aggregation.IndexBySymbol | combined-chartink-scanner.py:386-395 | the index maps exactly the symbols of all records, each to its occurrences in screener order then list order |
| Aggregation.CombinedSymbolIndexed | combined-chartink-scanner.py:397-403 | every combined symbol is in the index, with at least two stamped occurrences |
| Aggregation.ConsolidateAll | combined-chartink-scanner.py:397-419 | one well-formed entry per combined symbol, and no symbol twice |
| Aggregation.EntriesSnoc | combined-chartink-scanner.py:397-419 | appending an entry for a new symbol keeps the entries distinct and well-formed |
| Aggregation.FindStocksInMultipleScreeners | combined-chartink-scanner.py:349-422 | the entries' symbols are exactly those in at least two screeners; no symbol has two entries; each entry consolidates all of its symbol's records, with `match_count` >= 2 |
| Aggregation.EntriesCarryBias | combined-chartink-scanner.py:403-414 | when every record carries the same bias, every combined entry carries it |
| Aggregation.EntryFromFirstOccurrence | combined-chartink-scanner.py:401-417 | an entry's price, change, volume, trend and bias come from the first record with its symbol; `screeners_found_in` lists the screener of every occurrence, duplicates included |
| Scanner.IsMarketHours | combined-chartink-scanner.py:51-67 | open iff a weekday (0-4) and the whole-second time of day is at most 23:59:00 |
| Scanner.ScanSlot | combined-chartink-scanner.py:430-444 | after a successful scan, the slot holds fresh records of that screener stamped with the bias: exactly the kept quotes of the table, or none when nothing was extracted |
| Scanner.StampedUpdate | combined-chartink-scanner.py:438-444 | storing stamped records in one slot keeps every stored record stamped |
| Scanner.ResultsData.constructor | combined-chartink-scanner.py:112-121 | the default results: empty update time, unknown bias, three empty slots, no combined stocks |
| Scanner.ResultsData.RunScreener | combined-chartink-scanner.py:424-449 | only the screener's own slot changes: unchanged on a failed load or scan, otherwise the aligned extraction (empty when nothing was extracted) |
| Scanner.RanStep | combined-chartink-scanner.py:480-481 | running the screener at the next position advances the loop by one |
| Scanner.RanAll | combined-chartink-scanner.py:480-481 | after the loop, every slot is what its own screener run left |
| Scanner.ResultsData.RunScreeners | combined-chartink-scanner.py:480-481 | the three screeners run once each, in order, under one bias; each refreshed slot's records carry that bias; nothing else changes |
| Scanner.ResultsData.RunCycle | combined-chartink-scanner.py:472-485 | bias and timestamp recorded; each slot updated by its own run, refreshed slots stamped with the cycle's bias; the combined stocks are exactly the consolidated at-least-two symbols of the new slots |
| Scanner.ResultsData.UpdateCombined | combined-chartink-scanner.py:484-485 | only the combined stocks change, and they are exactly the consolidated at-least-two symbols of the current slots |
| Scanner.AllRefreshed | combined-chartink-scanner.py:472-481 | after a cycle in which every screener's load and scan succeeded, every stored record carries that cycle's bias |
| Scanner.CycleEntriesCarryBias | combined-chartink-scanner.py:472-485 | after such a cycle, every combined entry carries that cycle's bias |
| Scanner.ResultsData.Tick | combined-chartink-scanner.py:464-485 | outside market hours nothing changes and no cycle runs; inside, one cycle runs, with every postcondition of the cycle body |

## Left out

- Browser control is left out, because it is foreign library calls with timeouts. This covers Selenium, page loads, scans and DOM lookups (`load_page`, `run_scan`, `browser_manager.py`). Their outcomes are parameters: `ProbeOutcome`, `ScreenOutcome`, and a row with missing cells.
- File I/O is left out: `initialize_results_file`, `load_current_results`, `save_scan_results` and the market-trend file write. The results record is modelled as an object that persists between cycles. Its default value is the class constructor.
- Logging, `time.sleep`, `datetime.now`/`pytz`, the endless `while True` loop and its exception handlers are process plumbing, so they are left out. The clock and the two timestamps are parameters, and one turn of the loop is modelled.
- Python's full `float()`/`int()` grammar is not modelled. The model accepts optional ASCII whitespace, an optional sign, and ASCII digits with at most one dot. Exponents, `inf`/`nan`, underscores, non-ASCII decimal digits and Unicode whitespace are not modelled.
- Prices and changes are exact reals, not IEEE doubles. Rounding is not modelled: a price text too long for a double (which Python reads as `inf`), or a positive change below the smallest double (which Python reads as 0.0 and so calls bearish), is read exactly here.
- Aggregation.FindStocksInMultipleScreeners requires every stored record to carry a market bias. The Python would raise `KeyError` otherwise. The results class keeps that invariant.
- The `screeners` dictionary is modelled with exactly the three screener keys, iterated in `SCREENER_URLS` order. That is the order in which the results value is created and rewritten.
- Aggregation.FindStocksInMultipleScreeners: the output order of `combined_stocks` is not stated. It follows iteration over a Python set (line 397), so the result is specified per entry and as a set of symbols.
- The branch `if not stock_instances: continue` (lines 399-400) is kept as a test in the loop. It is proved never to skip.

Where the comments disagree with the code, the model follows the code:

- The trading window is 00:00 to 23:59:00 on weekdays, not the 9:15 to 15:30 the comment names.
- A failed probe counts zero key indices, and the bias is never `"unknown"`. When both probes fail the bias is neutral.
- The "most recent instance" used as the base of a combined entry is the first occurrence in screener order.
- A symbol listed twice by one screener appears twice in `screeners_found_in` and counts twice in `match_count`.
- Validation does not check the sign of the price.
