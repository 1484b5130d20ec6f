/**
 * The bookkeeping of the Streamlit dashboard: the latency health label,
 * the five parallel session histories and the export log appended once per
 * polled sample, the start/stop toggle, the mid-price delta and the prices
 * quoted by the order simulation.
 */
module Dashboard {
  import opened Common
  import opened Window
  import opened WsClient

  /** `max_history`: how many samples each session history keeps. */
  const MaxHistory: nat := 120

  /** A capture time (`datetime.utcnow()`), supplied by the caller. */
  type Instant = int

  // ---------------------------------------------------------------- health

  datatype Health = Healthy | Warning | Unhealthy

  /** `check_health(latency_ms)`: below 100 ms healthy, below 300 ms a warning, else unhealthy. */
  function CheckHealth(latencyMs: real): (h: Health)
    ensures h == Healthy <==> latencyMs < 100.0
    ensures h == Warning <==> 100.0 <= latencyMs < 300.0
    ensures h == Unhealthy <==> 300.0 <= latencyMs
  {
    if latencyMs < 100.0 then Healthy
    else if latencyMs < 300.0 then Warning
    else Unhealthy
  }

  /** The first element of the pair `check_health` returns. */
  function HealthName(h: Health): string
  {
    match h
    case Healthy => "Healthy"
    case Warning => "Warning"
    case Unhealthy => "Unhealthy"
  }

  /** The second element of that pair. */
  function HealthIcon(h: Health): string
  {
    match h
    case Healthy => "\U{2705}"
    case Warning => "\U{26A0}\U{FE0F}"
    case Unhealthy => "\U{274C}"
  }

  /** The label stored in the health history: icon, a space, then the name, so it ends with the name. */
  function StatusLabel(h: Health): (text: string)
    ensures |text| > |HealthName(h)| && text[|text| - |HealthName(h)|..] == HealthName(h)
  {
    HealthIcon(h) + " " + HealthName(h)
  }

  function Severity(h: Health): nat
  {
    match h
    case Healthy => 0
    case Warning => 1
    case Unhealthy => 2
  }

  /** A slower latency is never classified healthier. */
  lemma HealthMonotone(x: real, y: real)
    requires x <= y
    ensures Severity(CheckHealth(x)) <= Severity(CheckHealth(y))
  {
  }

  /** The boundary cases: each band includes its lower end. */
  lemma HealthBoundaries()
    ensures CheckHealth(50.0) == Healthy && CheckHealth(99.9) == Healthy
    ensures CheckHealth(100.0) == Warning && CheckHealth(150.0) == Warning
    ensures CheckHealth(299.9) == Warning
    ensures CheckHealth(300.0) == Unhealthy && CheckHealth(350.0) == Unhealthy
  {
  }

  /** Distinct states get distinct labels, so a stored label determines the state. */
  lemma StatusLabelInjective(g: Health, h: Health)
    requires StatusLabel(g) == StatusLabel(h)
    ensures g == h
  {
  }

  // ------------------------------------------------------------ histories

  /** One row of `export_data`. */
  datatype ExportRow = ExportRow(
    time: Instant, bestBid: real, bestAsk: real, spread: real, midPrice: real,
    bidVolume: real, askVolume: real, latencyMs: real, health: string)

  // The columns of the export log, one entry per row; each history is the tail of one.

  function Times(rows: seq<ExportRow>): seq<Instant>
  {
    seq(|rows|, i requires 0 <= i < |rows| => rows[i].time)
  }

  function MidPrices(rows: seq<ExportRow>): seq<real>
  {
    seq(|rows|, i requires 0 <= i < |rows| => rows[i].midPrice)
  }

  function Spreads(rows: seq<ExportRow>): seq<real>
  {
    seq(|rows|, i requires 0 <= i < |rows| => rows[i].spread)
  }

  function Latencies(rows: seq<ExportRow>): seq<real>
  {
    seq(|rows|, i requires 0 <= i < |rows| => rows[i].latencyMs)
  }

  function Labels(rows: seq<ExportRow>): seq<string>
  {
    seq(|rows|, i requires 0 <= i < |rows| => StatusLabel(CheckHealth(rows[i].latencyMs)))
  }

  /** Every logged health name is the classification of the logged latency. */
  predicate HealthNamesConsistent(rows: seq<ExportRow>)
  {
    forall i :: 0 <= i < |rows| ==> rows[i].health == HealthName(CheckHealth(rows[i].latencyMs))
  }

  /** The export row of one sample. */
  function RowOf(m: TickMetrics, latencyMs: real, now: Instant): (r: ExportRow)
    ensures r.time == now && r.latencyMs == latencyMs
    ensures r.bestBid == m.bestBid && r.bestAsk == m.bestAsk
    ensures r.health == HealthName(CheckHealth(r.latencyMs))
    ensures r.midPrice == m.midPrice && r.spread == m.spread
    ensures r.bidVolume == m.totalBidVolume && r.askVolume == m.totalAskVolume
    ensures WellFormed(m) ==> r.bestBid < r.midPrice < r.bestAsk && r.spread == r.bestAsk - r.bestBid
  {
    ExportRow(now, m.bestBid, m.bestAsk, m.spread, m.midPrice,
              m.totalBidVolume, m.totalAskVolume, latencyMs, HealthName(CheckHealth(latencyMs)))
  }

  /** The dashboard's `st.session_state`. */
  class Session {
    var running: bool
    var times: seq<Instant>
    var midPrices: seq<real>
    var spreads: seq<real>
    var latencies: seq<real>
    var healthStatuses: seq<string>
    var exportData: seq<ExportRow>
    var lastData: Option<TickMetrics>

    /**
     * The export log is the full record of samples; each history is the
     * last `MaxHistory` entries of its column, and every logged health name
     * is the classification of the logged latency.
     */
    ghost predicate Valid()
      reads this
    {
      && times == LastN(Times(exportData), MaxHistory)
      && midPrices == LastN(MidPrices(exportData), MaxHistory)
      && spreads == LastN(Spreads(exportData), MaxHistory)
      && latencies == LastN(Latencies(exportData), MaxHistory)
      && healthStatuses == LastN(Labels(exportData), MaxHistory)
      && HealthNamesConsistent(exportData)
    }

    /** `init_state` on the first run, with the toggle off. */
    constructor ()
      ensures Valid() && !running && lastData == None
      ensures times == [] && midPrices == [] && spreads == [] && latencies == []
      ensures healthStatuses == [] && exportData == []
    {
      running := false;
      times, midPrices, spreads, latencies, healthStatuses := [], [], [], [], [];
      exportData := [];
      lastData := None;
    }

    /** The start and stop buttons; stop wins when both are pressed in one run. */
    method HandleButtons(startPressed: bool, stopPressed: bool)
      modifies this
      ensures running == if stopPressed then false else if startPressed then true else old(running)
      ensures times == old(times) && midPrices == old(midPrices) && spreads == old(spreads)
      ensures latencies == old(latencies) && healthStatuses == old(healthStatuses)
      ensures exportData == old(exportData) && lastData == old(lastData)
    {
      if startPressed {
        running := true;
      }
      if stopPressed {
        running := false;
      }
    }

    /**
     * The per-sample block: when the client has a record, remember it,
     * append one entry to each of the five histories and one export row.
     */
    method RecordSample(data: Option<TickMetrics>, latencyMs: real, now: Instant)
      requires Valid()
      modifies this
      ensures Valid() && running == old(running)
      ensures data.None? ==>
        && lastData == old(lastData) && exportData == old(exportData)
        && times == old(times) && midPrices == old(midPrices) && spreads == old(spreads)
        && latencies == old(latencies) && healthStatuses == old(healthStatuses)
      ensures data.Some? ==>
        && lastData == data
        && exportData == old(exportData) + [RowOf(data.value, latencyMs, now)]
        && times == Append(old(times), now, MaxHistory)
        && midPrices == Append(old(midPrices), data.value.midPrice, MaxHistory)
        && spreads == Append(old(spreads), data.value.spread, MaxHistory)
        && latencies == Append(old(latencies), latencyMs, MaxHistory)
        && healthStatuses == Append(old(healthStatuses), StatusLabel(CheckHealth(latencyMs)), MaxHistory)
    {
      if data.Some? {
        var m := data.value;
        var health := CheckHealth(latencyMs);
        var row := RowOf(m, latencyMs, now);
        TailsAppend(exportData, row, times, midPrices, spreads, latencies, healthStatuses);
        HealthNamesAppend(exportData, row);
        lastData := data;
        times := Append(times, now, MaxHistory);
        midPrices := Append(midPrices, m.midPrice, MaxHistory);
        spreads := Append(spreads, m.spread, MaxHistory);
        latencies := Append(latencies, latencyMs, MaxHistory);
        healthStatuses := Append(healthStatuses, StatusLabel(health), MaxHistory);
        exportData := exportData + [row];
      }
    }

    /**
     * The five histories have one length, at most `MaxHistory` and at most
     * the length of the export log, and the health label at each index is
     * the classification of the latency at that index.
     */
    lemma ParallelHistories()
      requires Valid()
      ensures |times| == |midPrices| == |spreads| == |latencies| == |healthStatuses| <= MaxHistory
      ensures |times| <= |exportData|
      ensures forall i :: 0 <= i < |latencies| ==> healthStatuses[i] == StatusLabel(CheckHealth(latencies[i]))
    {
      ColumnLengths(exportData, times, midPrices, spreads, latencies, healthStatuses);
      LabelsFollowLatencies(exportData, latencies, healthStatuses);
    }
  }

  /** The tails of the five columns of one log have one length. */
  lemma ColumnLengths(rows: seq<ExportRow>, ts: seq<Instant>, mids: seq<real>, sps: seq<real>,
                      lats: seq<real>, labels: seq<string>)
    requires ts == LastN(Times(rows), MaxHistory) && mids == LastN(MidPrices(rows), MaxHistory)
    requires sps == LastN(Spreads(rows), MaxHistory) && lats == LastN(Latencies(rows), MaxHistory)
    requires labels == LastN(Labels(rows), MaxHistory)
    ensures |ts| == |mids| == |sps| == |lats| == |labels| <= MaxHistory
    ensures |ts| <= |rows|
  {
    var m := if |rows| <= MaxHistory then |rows| else MaxHistory;
    assert |ts| == m;
    assert |mids| == m;
    assert |sps| == m;
    assert |lats| == m;
    assert |labels| == m;
  }

  /** In the tails of the latency and label columns, each label classifies its latency. */
  lemma LabelsFollowLatencies(rows: seq<ExportRow>, lats: seq<real>, labels: seq<string>)
    requires lats == LastN(Latencies(rows), MaxHistory) && labels == LastN(Labels(rows), MaxHistory)
    ensures |lats| == |labels|
    ensures forall i :: 0 <= i < |lats| ==> labels[i] == StatusLabel(CheckHealth(lats[i]))
  {
    forall i | 0 <= i < |lats|
      ensures labels[i] == StatusLabel(CheckHealth(lats[i]))
    {
      var k := |rows| - |lats| + i;
      assert lats[i] == Latencies(rows)[k];
      assert labels[i] == Labels(rows)[k];
    }
  }

  /** Appending to each bounded history keeps it the tail of its column once the row is logged. */
  lemma TailsAppend(rows: seq<ExportRow>, row: ExportRow, ts: seq<Instant>, mids: seq<real>, sps: seq<real>,
                    lats: seq<real>, labels: seq<string>)
    requires ts == LastN(Times(rows), MaxHistory) && mids == LastN(MidPrices(rows), MaxHistory)
    requires sps == LastN(Spreads(rows), MaxHistory) && lats == LastN(Latencies(rows), MaxHistory)
    requires labels == LastN(Labels(rows), MaxHistory)
    ensures Append(ts, row.time, MaxHistory) == LastN(Times(rows + [row]), MaxHistory)
    ensures Append(mids, row.midPrice, MaxHistory) == LastN(MidPrices(rows + [row]), MaxHistory)
    ensures Append(sps, row.spread, MaxHistory) == LastN(Spreads(rows + [row]), MaxHistory)
    ensures Append(lats, row.latencyMs, MaxHistory) == LastN(Latencies(rows + [row]), MaxHistory)
    ensures Append(labels, StatusLabel(CheckHealth(row.latencyMs)), MaxHistory)
         == LastN(Labels(rows + [row]), MaxHistory)
  {
    ColumnsAppend(rows, row);
    AppendKeepsLastN(Times(rows), row.time, MaxHistory);
    AppendKeepsLastN(MidPrices(rows), row.midPrice, MaxHistory);
    AppendKeepsLastN(Spreads(rows), row.spread, MaxHistory);
    AppendKeepsLastN(Latencies(rows), row.latencyMs, MaxHistory);
    AppendKeepsLastN(Labels(rows), StatusLabel(CheckHealth(row.latencyMs)), MaxHistory);
  }

  /** A row whose health name classifies its latency keeps the log's health names consistent. */
  lemma HealthNamesAppend(rows: seq<ExportRow>, row: ExportRow)
    requires HealthNamesConsistent(rows) && row.health == HealthName(CheckHealth(row.latencyMs))
    ensures HealthNamesConsistent(rows + [row])
  {
  }

  /** Each column of the log grows by the new row's entry. */
  lemma ColumnsAppend(rows: seq<ExportRow>, row: ExportRow)
    ensures Times(rows + [row]) == Times(rows) + [row.time]
    ensures MidPrices(rows + [row]) == MidPrices(rows) + [row.midPrice]
    ensures Spreads(rows + [row]) == Spreads(rows) + [row.spread]
    ensures Latencies(rows + [row]) == Latencies(rows) + [row.latencyMs]
    ensures Labels(rows + [row]) == Labels(rows) + [StatusLabel(CheckHealth(row.latencyMs))]
  {
  }

  // ------------------------------------------------------------ mid delta

  /** `mid_delta`: the current mid minus the second-to-last stored mid, or 0.0 with fewer than two. */
  function MidDelta(midPrices: seq<real>, currentMid: real): (delta: real)
    ensures |midPrices| <= 1 ==> delta == 0.0
    ensures |midPrices| > 1 ==> midPrices[|midPrices| - 2] + delta == currentMid
  {
    if |midPrices| > 1 then currentMid - midPrices[|midPrices| - 2] else 0.0
  }

  /**
   * Right after a sample is recorded, the delta is the change from the
   * previous sample's mid, or 0.0 for the very first sample.
   */
  lemma MidDeltaAfterRecord(before: seq<real>, mid: real)
    requires |before| <= MaxHistory
    ensures MidDelta(Append(before, mid, MaxHistory), mid)
         == if before == [] then 0.0 else mid - before[|before| - 1]
  {
    var after := Append(before, mid, MaxHistory);
    if before != [] {
      if |before| < MaxHistory {
        assert after == before + [mid];
        assert after[|after| - 2] == before[|before| - 1];
      } else {
        assert after == (before + [mid])[1..];
        assert after[|after| - 2] == before[|before| - 1];
      }
    }
  }

  // ----------------------------------------------------------- simulation

  datatype Side = Buy | Sell
  datatype OrderType = Market | Limit

  /** `slippage = mid * volatility / 100`: a hundred slippages make mid times volatility; none without volatility, never negative for non-negative inputs. */
  function Slippage(mid: real, volatilityPct: real): (slippage: real)
    ensures 100.0 * slippage == mid * volatilityPct
    ensures volatilityPct == 0.0 ==> slippage == 0.0
    ensures 0.0 <= mid && 0.0 <= volatilityPct ==> 0.0 <= slippage
  {
    assert 0.0 <= mid && 0.0 <= volatilityPct ==> 0.0 <= mid * volatilityPct;
    mid * volatilityPct / 100.0
  }

  /**
   * The market simulation's execution price: the slippage above mid to buy
   * and below it to sell, so with non-negative inputs a sell never executes
   * above mid nor a buy below it.
   */
  function MarketPrice(mid: real, volatilityPct: real, side: Side): (price: real)
    ensures side == Buy ==> price - mid == Slippage(mid, volatilityPct)
    ensures side == Sell ==> mid - price == Slippage(mid, volatilityPct)
    ensures 0.0 <= mid && 0.0 <= volatilityPct ==>
      (side == Sell ==> price <= mid) && (side == Buy ==> mid <= price)
  {
    if side == Buy then mid + Slippage(mid, volatilityPct) else mid - Slippage(mid, volatilityPct)
  }

  /**
   * The limit simulation's price: the best ask to buy, the best bid to sell.
   * On a record the client accepted each lies half a spread from mid, the
   * buy limit above it and the sell limit below it.
   */
  function LimitPrice(m: TickMetrics, side: Side): (price: real)
    ensures WellFormed(m) && side == Buy ==> m.midPrice < price && price == m.midPrice + m.spread / 2.0
    ensures WellFormed(m) && side == Sell ==> price < m.midPrice && price == m.midPrice - m.spread / 2.0
  {
    if side == Buy then m.bestAsk else m.bestBid
  }

  /**
   * The price the simulation panel quotes for one order: whatever the order
   * type, on an accepted record with a non-negative mid the sell price is
   * at most mid and the buy price at least mid.
   */
  function SimulatedPrice(m: TickMetrics, orderType: OrderType, side: Side, volatilityPct: real): (price: real)
    ensures orderType == Market ==> price == MarketPrice(m.midPrice, volatilityPct, side)
    ensures orderType == Limit ==> price == LimitPrice(m, side)
    ensures WellFormed(m) && 0.0 <= m.midPrice && 0.0 <= volatilityPct ==>
      (side == Sell ==> price <= m.midPrice) && (side == Buy ==> m.midPrice <= price)
  {
    if orderType == Market then MarketPrice(m.midPrice, volatilityPct, side) else LimitPrice(m, side)
  }
}
