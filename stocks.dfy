/**
 * Screener rows: the raw cell texts of one results-table row, their
 * validation and normalisation into a typed quote, and the stock records
 * `extract_stock_data` builds from the rows that survive.
 */
module Stocks {
  import opened Wrappers
  import opened Text
  import opened Trend
  import opened Sequences

  /** The three screeners. */
  datatype Screener = PriceCrossover | OneHourRsi | FiveMinRsi

  /** A screener's key in the results and the `screener_type` of its records. */
  function ScreenerName(k: Screener): string {
    match k
    case PriceCrossover => "price_crossover_200"
    case OneHourRsi => "one_hour_rsi"
    case FiveMinRsi => "five_min_rsi"
  }

  /** The order in which the scanner runs the screeners and visits their slots. */
  const SCREENER_ORDER: seq<Screener> := [PriceCrossover, OneHourRsi, FiveMinRsi]

  /** A screener's position in `SCREENER_ORDER`. */
  function Rank(k: Screener): (r: nat)
    ensures r < |SCREENER_ORDER| && SCREENER_ORDER[r] == k
  {
    match k
    case PriceCrossover => 0
    case OneHourRsi => 1
    case FiveMinRsi => 2
  }

  /** A map with a slot for each of the three screeners. */
  predicate HasSlots<T>(m: map<Screener, T>) {
    forall k: Screener :: k in m
  }

  /**
   * One row of the results table: the text of the symbol link and of the
   * change, price and volume cells, or `None` for a cell the row lacks.
   */
  datatype RawRow = RawRow(
    symbolCell: Option<string>,
    changeCell: Option<string>,
    priceCell: Option<string>,
    volumeCell: Option<string>)

  datatype Field = Price | Change | Volume

  /** The `ValueError`s `validate_stock_data` raises. */
  datatype ValidationError =
    | InvalidSymbol(symbol: string)
    | InvalidValueFormat(field: Field, text: string)

  /** Why a row was skipped. */
  datatype RowError =
    | MissingCell
    | Invalid(error: ValidationError)
    | Unparsable(field: Field)

  /** A validated row: symbol, price, percentage change, volume and the stock's trend. */
  datatype Quote = Quote(symbol: string, price: real, change: real, volume: int, stockTrend: Direction)

  /** Price text is read after its thousands separators are removed. */
  function ParsePrice(text: string): Option<real> {
    ParseFloat(RemoveChar(text, ','))
  }

  /** Change text is read after its percent signs and thousands separators are removed. */
  function ParseChange(text: string): Option<real> {
    ParseFloat(RemoveChar(RemoveChar(text, '%'), ','))
  }

  /** Volume text is read as an integer after its thousands separators are removed. */
  function ParseVolume(text: string): Option<int> {
    ParseInt(RemoveChar(text, ','))
  }

  /** A thousands separator anywhere, or a percent sign in the change, does not alter the value read. */
  lemma SeparatorsIgnored(a: string, b: string)
    ensures ParsePrice(a + "," + b) == ParsePrice(a + b)
    ensures ParseVolume(a + "," + b) == ParseVolume(a + b)
    ensures ParseChange(a + "," + b) == ParseChange(a + b)
    ensures ParseChange(a + "%" + b) == ParseChange(a + b)
  {
    RemoveCharIgnoresInserted(a, b, ',');
    RemoveCharIgnoresInserted(a, b, '%');
    RemoveCharAppend(a + ",", b, '%');
    RemoveCharAppend(a, ",", '%');
    RemoveCharAppend(a, b, '%');
    assert RemoveChar(",", '%') == ",";
    RemoveCharIgnoresInserted(RemoveChar(a, '%'), RemoveChar(b, '%'), ',');
  }

  /** A volume printed with a thousands separator anywhere reads back as the number. */
  lemma VolumeWithSeparator(n: nat, k: nat)
    requires k <= |NatToDigits(n)|
    ensures ParseVolume(NatToDigits(n)[..k] + "," + NatToDigits(n)[k..]) == Some(n as int)
  {
    var d := NatToDigits(n);
    SeparatorRemoved(d, k);
    ParseRoundTrip(n);
  }

  /** Removing the separators from digits with one inserted gives the digits back. */
  lemma SeparatorRemoved(d: string, k: nat)
    requires k <= |d| && AllDigits(d)
    ensures RemoveChar(d[..k] + "," + d[k..], ',') == d
  {
    RemoveCharIgnoresInserted(d[..k], d[k..], ',');
    assert d[..k] + d[k..] == d;
    DigitsHaveNoComma(d);
    RemoveCharAbsent(d, ',');
  }

  lemma DigitsHaveNoComma(d: string)
    requires AllDigits(d)
    ensures ',' !in d
  {
  }

  /**
   * `validate_stock_data`: the symbol must have at least two characters, and
   * each numeric text that is non-empty (Python's truthiness) must parse
   * once its separators are removed. Checked in the order symbol, price,
   * change, volume; the first failure is the one raised.
   */
  function ValidateStockData(symbol: string, price: string, change: string, volume: string)
    : (r: Result<bool, ValidationError>)
    ensures r.Success? ==> r.value
    ensures r.Success? <==>
              && |symbol| >= 2
              && (price == "" || ParsePrice(price).Some?)
              && (change == "" || ParseChange(change).Some?)
              && (volume == "" || ParseVolume(volume).Some?)
    ensures r.Failure? && r.error.InvalidSymbol? <==> |symbol| < 2
  {
    if symbol == "" || |symbol| < 2 then Failure(InvalidSymbol(symbol))
    else if price != "" && ParsePrice(price).None? then Failure(InvalidValueFormat(Price, price))
    else if change != "" && ParseChange(change).None? then Failure(InvalidValueFormat(Change, change))
    else if volume != "" && ParseVolume(volume).None? then Failure(InvalidValueFormat(Volume, volume))
    else Success(true)
  }

  /** A quote's invariants: a real symbol, and a trend that agrees with the sign of the change. */
  predicate ValidQuote(q: Quote) {
    && |q.symbol| >= 2
    && (q.stockTrend == Bullish <==> q.change > 0.0)
    && (q.stockTrend == Bearish <==> q.change <= 0.0)
  }

  /** Whether a row survives extraction, stated without the validation step. */
  predicate RowAcceptable(row: RawRow) {
    && row.symbolCell.Some? && row.changeCell.Some? && row.priceCell.Some? && row.volumeCell.Some?
    && |Strip(row.symbolCell.value)| >= 2
    && ParsePrice(Strip(row.priceCell.value)).Some?
    && ParseChange(Strip(row.changeCell.value)).Some?
    && ParseVolume(Strip(row.volumeCell.value)).Some?
  }

  /**
   * The body of the row loop in `extract_stock_data`: read the four cells
   * (stripped), validate them, then parse price, change and volume and
   * classify the change. Any failure skips the row.
   */
  function ParseRow(row: RawRow): (r: Result<Quote, RowError>)
    ensures r.Success? <==> RowAcceptable(row)
    ensures r.Success? ==> ValidQuote(r.value)
    ensures r.Success? ==>
              && r.value.symbol == Strip(row.symbolCell.value)
              && ParsePrice(Strip(row.priceCell.value)) == Some(r.value.price)
              && ParseChange(Strip(row.changeCell.value)) == Some(r.value.change)
              && ParseVolume(Strip(row.volumeCell.value)) == Some(r.value.volume)
  {
    if row.symbolCell.None? || row.changeCell.None? || row.priceCell.None? || row.volumeCell.None? then
      Failure(MissingCell)
    else
      var symbol := Strip(row.symbolCell.value);
      var changeText := Strip(row.changeCell.value);
      var priceText := Strip(row.priceCell.value);
      var volumeText := Strip(row.volumeCell.value);
      match ValidateStockData(symbol, priceText, changeText, volumeText)
      case Failure(e) => Failure(Invalid(e))
      case Success(_) =>
        var price := ParsePrice(priceText);
        var change := ParseChange(changeText);
        var volume := ParseVolume(volumeText);
        if price.None? then Failure(Unparsable(Price))
        else if change.None? then Failure(Unparsable(Change))
        else if volume.None? then Failure(Unparsable(Volume))
        else
          Success(Quote(symbol, price.value, change.value, volume.value,
                        DetermineStockTrend(Number(change.value))))
  }

  /** Text that validation let through but that still fails to parse was empty. */
  lemma UnparsableMeansEmpty(row: RawRow)
    requires ParseRow(row).Failure? && ParseRow(row).error.Unparsable?
    ensures ParseRow(row).error.field == Price ==> Strip(row.priceCell.value) == ""
    ensures ParseRow(row).error.field == Change ==> Strip(row.changeCell.value) == ""
    ensures ParseRow(row).error.field == Volume ==> Strip(row.volumeCell.value) == ""
  {
  }

  /** The quotes of the rows that survive, in row order; failing rows are dropped, never zero-filled. */
  function ParseRows(rows: seq<RawRow>): (qs: seq<Quote>)
    ensures |qs| <= |rows|
    ensures forall q :: q in qs ==> ValidQuote(q)
  {
    FilterMapAll(ParseRow, ValidQuote, rows);
    FilterMap(ParseRow, rows)
  }

  /** Extraction distributes over concatenated tables, so it keeps the row order. */
  lemma ParseRowsAppend(a: seq<RawRow>, b: seq<RawRow>)
    ensures ParseRows(a + b) == ParseRows(a) + ParseRows(b)
  {
    FilterMapAppend(ParseRow, a, b);
  }

  /** A quote is extracted exactly when some row parses to it. */
  lemma ParseRowsMembers(rows: seq<RawRow>, q: Quote)
    ensures q in ParseRows(rows) <==> exists i :: 0 <= i < |rows| && ParseRow(rows[i]) == Success(q)
  {
    FilterMapMembers(ParseRow, rows, q);
  }

  /** A table of one row keeps it exactly when it is acceptable. */
  lemma SingleRow(row: RawRow)
    ensures ParseRows([row]) == if RowAcceptable(row) then [ParseRow(row).value] else []
  {
    assert [row][..0] == [];
  }

  /**
   * A stock record as `extract_stock_data` builds it. Every key but
   * `market_bias` is fixed at construction; `market_bias` is absent (`None`)
   * until the alignment filter stamps it.
   */
  class Stock {
    const symbol: string
    const price: real
    const change: real
    const volume: int
    const stockTrend: Direction
    const screenerType: string
    var marketBias: Option<Direction>

    constructor (q: Quote, screenerType: string)
      ensures AsQuote() == q && this.screenerType == screenerType && marketBias == None
    {
      symbol := q.symbol;
      price := q.price;
      change := q.change;
      volume := q.volume;
      stockTrend := q.stockTrend;
      this.screenerType := screenerType;
      marketBias := None;
    }

    /** The record's immutable fields as a value. */
    function AsQuote(): Quote {
      Quote(symbol, price, change, volume, stockTrend)
    }
  }

  /** The immutable fields of each record, in order. */
  function Quotes(stocks: seq<Stock>): (qs: seq<Quote>)
    ensures |qs| == |stocks|
  {
    if stocks == [] then [] else Quotes(stocks[..|stocks| - 1]) + [stocks[|stocks| - 1].AsQuote()]
  }

  /** Position by position, the quotes are the records' fields. */
  lemma {:induction false} QuotesAt(stocks: seq<Stock>)
    ensures forall i :: 0 <= i < |stocks| ==> Quotes(stocks)[i] == stocks[i].AsQuote()
  {
    if stocks != [] {
      QuotesAt(stocks[..|stocks| - 1]);
    }
  }

  lemma QuotesSnoc(stocks: seq<Stock>, s: Stock)
    ensures Quotes(stocks + [s]) == Quotes(stocks) + [s.AsQuote()]
  {
    assert (stocks + [s])[..|stocks|] == stocks;
  }

  /**
   * The row loop of `extract_stock_data`, for a given reader of one row: a
   * fresh record per row the reader accepts, in row order, tagged with the
   * screener.
   */
  method CollectStocks(read: RawRow -> Result<Quote, RowError>, rows: seq<RawRow>, screenerType: string)
    returns (stocks: seq<Stock>)
    ensures Quotes(stocks) == FilterMap(read, rows)
    ensures forall s :: s in stocks ==> fresh(s) && s.screenerType == screenerType && s.marketBias == None
  {
    stocks := [];
    var i := 0;
    while i < |rows|
      invariant 0 <= i <= |rows|
      invariant Quotes(stocks) == FilterMap(read, rows[..i])
      invariant forall s :: s in stocks ==> fresh(s) && s.screenerType == screenerType && s.marketBias == None
    {
      FilterMapStep(read, rows, i);
      var r := read(rows[i]);
      if r.Success? {
        var stock := new Stock(r.value, screenerType);
        QuotesSnoc(stocks, stock);
        stocks := stocks + [stock];
      }
      i := i + 1;
    }
    assert rows[..i] == rows;
  }

  /**
   * `extract_stock_data`: one fresh record per surviving row, in row order,
   * tagged with the screener; no table at all yields no records.
   */
  method ExtractStockData(table: Option<seq<RawRow>>, screenerType: string) returns (stocks: seq<Stock>)
    ensures Quotes(stocks) == (if table.Some? then ParseRows(table.value) else [])
    ensures forall s :: s in stocks ==> fresh(s) && s.screenerType == screenerType && s.marketBias == None
  {
    if table.None? {
      return [];
    }
    stocks := CollectStocks(ParseRow, table.value, screenerType);
  }


}
