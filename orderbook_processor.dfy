/**
 * `OrderBookProcessor`: three parallel bounded histories (mid price,
 * spread, capture time) fed by `update` and read by `get_latest_metrics`.
 */
module OrderBookProcessing {
  import opened Common
  import opened Window

  const DefaultHistorySize: nat := 100

  /**
   * The volatility `_compute_volatility` reports: `Zero` is its early
   * return of 0.0 for fewer than two prices; otherwise the standard
   * deviation of the simple returns of `prices`, in percent, kept symbolic
   * here (its value may itself be 0.0, e.g. for two prices or equal ones).
   */
  datatype Volatility = Zero | StdOfReturns(prices: seq<real>)

  /** The exception `self.price_history[:-1]` raises: a `deque` cannot be sliced (`TypeError`). */
  datatype ProcessorError = DequeSliced

  /**
   * `_compute_volatility` as written: from two stored prices on it slices
   * the deque, which raises before any return is formed.
   */
  function ComputeVolatilityAsWritten(priceHistory: seq<real>): (r: Result<Volatility, ProcessorError>)
    ensures r.Err? <==> 2 <= |priceHistory|
    ensures r.Ok? ==> r.value == Zero
  {
    if |priceHistory| < 2 then Ok(Zero) else Err(DequeSliced)
  }

  /**
   * `_compute_volatility` as intended, over `list(self.price_history)`: the
   * early return below two prices, otherwise the statistic of exactly the
   * stored prices.
   */
  function ComputeVolatility(prices: seq<real>): (v: Volatility)
    ensures v == Zero <==> |prices| < 2
    ensures v.StdOfReturns? ==> v.prices == prices
  {
    if |prices| < 2 then Zero else StdOfReturns(prices)
  }

  /** The written and the intended volatility agree exactly while fewer than two prices are stored. */
  lemma VolatilityAsWrittenAgrees(prices: seq<real>)
    ensures ComputeVolatilityAsWritten(prices).Ok? <==> |prices| < 2
    ensures ComputeVolatilityAsWritten(prices).Ok? ==> ComputeVolatilityAsWritten(prices).value == ComputeVolatility(prices)
    ensures ComputeVolatilityAsWritten(prices).Err? ==> ComputeVolatility(prices) == StdOfReturns(prices)
  {
  }

  /** The dictionary `update` returns. */
  datatype UpdateResult = UpdateResult(midPrice: real, spread: real, volatility: Volatility,
                                       bestBid: real, bestAsk: real)

  /** The dictionary `get_latest_metrics` returns when there is history. */
  datatype LatestMetrics = LatestMetrics(midPrice: real, spread: real, volatility: Volatility)

  /**
   * The best bid and best ask `update` reads: present when both sides are
   * non-empty and both best prices parse to finite numbers.
   */
  function BestQuote(book: RawBook): (r: Option<(real, real)>)
    ensures r.Some? <==>
      && book.bids != [] && book.asks != []
      && book.bids[0].price.Finite? && book.asks[0].price.Finite?
    ensures r.Some? ==> r.value == (book.bids[0].price.value, book.asks[0].price.value)
  {
    if book.bids == [] || book.asks == [] then None
    else if !book.bids[0].price.Finite? || !book.asks[0].price.Finite? then None
    else Some((book.bids[0].price.value, book.asks[0].price.value))
  }

  class OrderBookProcessor {
    const historySize: nat
    var priceHistory: seq<real>
    var spreadHistory: seq<real>
    var timestampHistory: seq<real>
    /** Every mid price, spread and capture time appended so far, oldest first. */
    ghost var mids: seq<real>
    ghost var spreads: seq<real>
    ghost var stamps: seq<real>

    ghost predicate Valid()
      reads this
    {
      && |mids| == |spreads| == |stamps|
      && priceHistory == LastN(mids, historySize)
      && spreadHistory == LastN(spreads, historySize)
      && timestampHistory == LastN(stamps, historySize)
    }

    constructor (historySize: nat)
      ensures Valid() && this.historySize == historySize
      ensures priceHistory == [] && spreadHistory == [] && timestampHistory == []
      ensures mids == [] && spreads == [] && stamps == []
    {
      this.historySize := historySize;
      priceHistory, spreadHistory, timestampHistory := [], [], [];
      mids, spreads, stamps := [], [], [];
    }

    /** The three appends of `update`, with oldest-first eviction. */
    method Record(mid: real, spread: real, now: real)
      requires Valid()
      modifies this
      ensures Valid()
      ensures mids == old(mids) + [mid] && spreads == old(spreads) + [spread] && stamps == old(stamps) + [now]
      ensures priceHistory == Append(old(priceHistory), mid, historySize)
      ensures spreadHistory == Append(old(spreadHistory), spread, historySize)
      ensures timestampHistory == Append(old(timestampHistory), now, historySize)
      ensures |priceHistory| == if |old(priceHistory)| < historySize then |old(priceHistory)| + 1 else historySize
      ensures historySize > 0 ==>
        priceHistory[|priceHistory| - 1] == mid && spreadHistory[|spreadHistory| - 1] == spread
    {
      AppendKeepsLastN(mids, mid, historySize);
      AppendKeepsLastN(spreads, spread, historySize);
      AppendKeepsLastN(stamps, now, historySize);
      AppendEndsWith(priceHistory, mid, historySize);
      AppendEndsWith(spreadHistory, spread, historySize);
      priceHistory := Append(priceHistory, mid, historySize);
      spreadHistory := Append(spreadHistory, spread, historySize);
      timestampHistory := Append(timestampHistory, now, historySize);
      mids, spreads, stamps := mids + [mid], spreads + [spread], stamps + [now];
    }

    /**
     * `update(orderbook)` as written, with `now` the value of `time.time()`.
     * A missing side or an unparsable best price returns `None` before
     * anything is appended. Otherwise the three values are appended and the
     * volatility is computed; once two mids are stored that raises, the
     * handler swallows it, and `None` is returned with the histories grown.
     */
    method UpdateAsWritten(book: RawBook, now: real) returns (r: Option<UpdateResult>)
      requires Valid()
      modifies this
      ensures Valid()
      ensures BestQuote(book).None? ==>
        && r.None?
        && priceHistory == old(priceHistory) && spreadHistory == old(spreadHistory)
        && timestampHistory == old(timestampHistory)
        && mids == old(mids) && spreads == old(spreads) && stamps == old(stamps)
      ensures BestQuote(book).Some? ==>
        var (bid, ask) := BestQuote(book).value;
        && mids == old(mids) + [(bid + ask) / 2.0]
        && spreads == old(spreads) + [ask - bid]
        && stamps == old(stamps) + [now]
        && priceHistory == Append(old(priceHistory), (bid + ask) / 2.0, historySize)
        && spreadHistory == Append(old(spreadHistory), ask - bid, historySize)
        && timestampHistory == Append(old(timestampHistory), now, historySize)
        && (r.Some? ==> r.value == UpdateResult((bid + ask) / 2.0, ask - bid, Zero, bid, ask))
      ensures r.Some? <==> BestQuote(book).Some? && (old(priceHistory) == [] || historySize <= 1)
      ensures r.Some? && historySize > 0 ==>
        GetLatestMetricsAsWritten() == Ok(Some(LatestMetrics(r.value.midPrice, r.value.spread, Zero)))
    {
      var quote := BestQuote(book);
      if quote.None? {
        return None;
      }
      var (bestBid, bestAsk) := quote.value;
      var midPrice := (bestBid + bestAsk) / 2.0;
      var spread := bestAsk - bestBid;
      Record(midPrice, spread, now);
      var volatility := ComputeVolatilityAsWritten(priceHistory);
      if volatility.Err? {
        return None;
      }
      r := Some(UpdateResult(midPrice, spread, volatility.value, bestBid, bestAsk));
    }

    /**
     * `update(orderbook)` with the volatility taken over a list copy of the
     * stored mids: every tick with a usable best quote is recorded and
     * reported.
     */
    method Update(book: RawBook, now: real) returns (r: Option<UpdateResult>)
      requires Valid()
      modifies this
      ensures Valid()
      ensures BestQuote(book).None? ==>
        && r.None?
        && priceHistory == old(priceHistory) && spreadHistory == old(spreadHistory)
        && timestampHistory == old(timestampHistory)
        && mids == old(mids) && spreads == old(spreads) && stamps == old(stamps)
      ensures BestQuote(book).Some? ==>
        var (bid, ask) := BestQuote(book).value;
        && mids == old(mids) + [(bid + ask) / 2.0]
        && spreads == old(spreads) + [ask - bid]
        && stamps == old(stamps) + [now]
        && priceHistory == Append(old(priceHistory), (bid + ask) / 2.0, historySize)
        && spreadHistory == Append(old(spreadHistory), ask - bid, historySize)
        && timestampHistory == Append(old(timestampHistory), now, historySize)
        && r == Some(UpdateResult((bid + ask) / 2.0, ask - bid, ComputeVolatility(priceHistory), bid, ask))
      ensures r.Some? && historySize > 0 ==>
        GetLatestMetrics() == Some(LatestMetrics(r.value.midPrice, r.value.spread, r.value.volatility))
    {
      var quote := BestQuote(book);
      if quote.None? {
        return None;
      }
      var (bestBid, bestAsk) := quote.value;
      var midPrice := (bestBid + bestAsk) / 2.0;
      var spread := bestAsk - bestBid;
      Record(midPrice, spread, now);
      r := Some(UpdateResult(midPrice, spread, ComputeVolatility(priceHistory), bestBid, bestAsk));
    }

    /**
     * `get_latest_metrics` as written: `Ok(None)` for the empty dictionary;
     * from two stored mids on the volatility raises and nothing is returned.
     */
    function GetLatestMetricsAsWritten(): (r: Result<Option<LatestMetrics>, ProcessorError>)
      reads this
      requires Valid()
      ensures r.Err? <==> 2 <= |priceHistory|
      ensures r == Ok(None) <==> priceHistory == []
      ensures r.Ok? && r.value.Some? ==>
        r.value.value == LatestMetrics(priceHistory[0], spreadHistory[0], Zero)
    {
      if priceHistory == [] then Ok(None)
      else
        var volatility := ComputeVolatilityAsWritten(priceHistory);
        if volatility.Err? then Err(volatility.error)
        else Ok(Some(LatestMetrics(priceHistory[|priceHistory| - 1], spreadHistory[|spreadHistory| - 1],
                                   volatility.value)))
    }

    /** `get_latest_metrics` with the intended volatility: `None` for the empty dictionary. */
    function GetLatestMetrics(): (r: Option<LatestMetrics>)
      reads this
      requires Valid()
      ensures r.None? <==> priceHistory == []
      ensures r.Some? ==>
        && r.value.midPrice == priceHistory[|priceHistory| - 1]
        && r.value.spread == spreadHistory[|spreadHistory| - 1]
        && r.value.volatility == ComputeVolatility(priceHistory)
    {
      if priceHistory == [] then None
      else Some(LatestMetrics(priceHistory[|priceHistory| - 1], spreadHistory[|spreadHistory| - 1],
                              ComputeVolatility(priceHistory)))
    }

    /**
     * The three histories have one length, never exceed the bound, and hold
     * the most recent values in arrival order, index by index.
     */
    lemma Histories()
      requires Valid()
      ensures |priceHistory| == |spreadHistory| == |timestampHistory| <= historySize
      ensures |priceHistory| == historySize || |priceHistory| == |mids|
      ensures forall i :: 0 <= i < |priceHistory| ==>
        && priceHistory[i] == mids[|mids| - |priceHistory| + i]
        && spreadHistory[i] == spreads[|spreads| - |priceHistory| + i]
        && timestampHistory[i] == stamps[|stamps| - |priceHistory| + i]
    {
    }
  }

  /**
   * As written, a default processor fed the same one-level tick twice
   * reports the first, drops the second after recording it, and then fails
   * to report its latest metrics; the intended processor reports both.
   */
  method SecondUpdateDroppedAsWritten() returns (first: Option<UpdateResult>, second: Option<UpdateResult>,
                                                 latest: Result<Option<LatestMetrics>, ProcessorError>,
                                                 intended: Option<UpdateResult>)
    ensures first == Some(UpdateResult(100.5, 1.0, Zero, 100.0, 101.0))
    ensures second == None && latest == Err(DequeSliced)
    ensures intended == Some(UpdateResult(100.5, 1.0, StdOfReturns([100.5, 100.5]), 100.0, 101.0))
  {
    var book := RawBook([RawLevel(Finite(101.0), Finite(1.0))], [RawLevel(Finite(100.0), Finite(1.0))], None, None);
    var written := new OrderBookProcessor(DefaultHistorySize);
    first := written.UpdateAsWritten(book, 0.0);
    second := written.UpdateAsWritten(book, 1.0);
    latest := written.GetLatestMetricsAsWritten();
    var fixed := new OrderBookProcessor(DefaultHistorySize);
    var _ := fixed.Update(book, 0.0);
    assert fixed.priceHistory == [100.5];
    intended := fixed.Update(book, 1.0);
    assert fixed.priceHistory == [100.5, 100.5];
  }
}
