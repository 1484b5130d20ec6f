# Order-book bookkeeping of RealTime-Trade-Simulator

A Dafny model of the sequential logic around the simulator's live OKX
`books5` feed:

- the live client `OrderBookClient`, which normalises each order-book tick into best bid and ask, spread, mid and side volumes, and publishes accepted ticks into one "latest" slot;
- the snapshot normaliser `process_orderbook_snapshot`, which keeps the finite levels among the first `top_n` and adds depth-weighted average prices;
- three bounded rolling-history components: `OrderBookProcessor`, `LatencyTracker` and the dashboard's session deques;
- the dashboard's health classifier, mid delta and order-simulation price rules;
- the maker/taker fee tier table `FeeModel`.

Prices, sizes and latencies are `real`, so the book identities hold exactly
rather than up to IEEE rounding. A wire field is the outcome of Python's
`float()` on it (`Common.Field`): unparsable, a finite real, or one of the
special values inf, -inf and nan. A `collections.deque(maxlen=n)` is a
sequence that `Window.Append` grows and then trims from the left.
`OrderBookProcessor` keeps a ghost log of everything appended,
`LatencyTracker` one of everything added since construction or the last
`clear`, and the dashboard session's log is its real, unbounded
`export_data` list; in each, the `Valid()` invariant says that every deque is
`Window.LastN` of its log. `OrderBookClient` keeps no log: its invariant is
about the one stored record.

Files and modules:

- `common.dfy` (`Common`): results, wire snapshot, `Sum`.
- `window.dfy` (`Window`): the bounded deque.
- `ws_client.dfy` (`WsClient`): ws_client.py.
- `data_utils.dfy` (`DataUtils`): utils/data_utils.py.
- `orderbook_processor.dfy` (`OrderBookProcessing`): orderbook_processor.py.
- `latency_tracker.dfy` (`LatencyTracking`): utils/latency_tracker.py.
- `fee_model.dfy` (`Fees`): utils/fee_model.py.
- `dashboard.dfy` (`Dashboard`): the bookkeeping parts of main.py.

## Model

| member | source | states |
|---|---|---|
| Window.LastN | orderbook_processor.py:7-9 | the window of a log holds exactly `min(n, len(log))` entries: all of them when the log is shorter than the bound, else `n` |
| Window.LastNIsTail | orderbook_processor.py:7-9 | the window is the log's suffix of its own length, so it holds the most recent entries in arrival order |
| Window.AppendKeepsLastN | orderbook_processor.py:25-27 | appending to a bounded deque holding the last `n` entries of a log gives the last `n` entries of the extended log, so the oldest entry is evicted once the deque is full |
| Window.Append | utils/latency_tracker.py:9-12 | an append to a deque within its bound keeps it within the bound and grows it by one until it is full |
| Window.AppendEndsWith | utils/latency_tracker.py:11-12 | with a positive bound the appended value is the newest entry of the deque |
| WsClient.ProcessOrderbook | ws_client.py:15-51 | an empty side is rejected, and only an empty side gives that rejection; a tick is accepted exactly when both sides are non-empty, both best prices and every size are finite, and best bid < best ask; an accepted record has spread = ask − bid, mid = (ask + bid)/2, volumes that sum every level's size, and `instId`/`ts` passed through; a parse failure on any field read rejects the whole tick |
| WsClient.WellFormedBrackets | ws_client.py:26-31 | every accepted record has a positive spread and a mid strictly between the best bid and the best ask |
| WsClient.Sizes | ws_client.py:33-34 | the sizes summed for a side are those of all its levels, one per level, in order |
| WsClient.VolumesCountEveryLevel | ws_client.py:33-34 | adding a level with a finite size behind the best ask keeps the tick accepted and adds exactly that size to the ask volume |
| WsClient.OneLevelTick | ws_client.py:23-45 | the tick with ask 100.10 × 3 and bid 100.00 × 2 normalises to spread 0.10, mid 100.05 and volumes 3 and 2 |
| WsClient.CrossedTickRejected | ws_client.py:26-28 | a tick whose best bid is above its best ask is rejected as crossed |
| WsClient.AcceptedAsWritten | ws_client.py:17-34 | a tick the written normaliser accepts has two non-empty sides, and when both best prices are finite its best bid is below its best ask |
| WsClient.NaNBidPassesAsWritten | ws_client.py:23-28 | as written, a tick with a "nan" best bid passes the crossed-book check, while the corrected normaliser rejects it |
| WsClient.ProcessOrderbookRefinesAsWritten | ws_client.py:17-34 | every tick the corrected normaliser accepts is accepted as written, and on ticks whose fields are all finite the two accept exactly the same ticks |
| WsClient.ClassifyFrame | ws_client.py:56-84 | a frame yields a processed tick exactly when its channel is `books5`, its data list is non-empty and the normaliser accepts the first snapshot, and the tick is the normaliser's record; an undecodable frame, a frame with another or no channel and a `books5` frame without data are told apart, and a skipped tick carries the normaliser's own rejection |
| WsClient.Dumps | ws_client.py:103 | the request is rendered as one JSON object that opens with its "op" key |
| WsClient.SubscribeText | ws_client.py:92-103 | the text sent on open is exactly `{"op": "subscribe", "args": [{"channel": "books5", "instId": "BTC-USDT"}]}` |
| WsClient.SubscriptionText | ws_client.py:96-101 | the one channel subscription renders as `{"channel": "books5", "instId": "BTC-USDT"}` |
| WsClient.OrderBookClient.constructor | ws_client.py:8-13 | a new client has no socket, is not running and has neither a record nor a latency |
| WsClient.OrderBookClient.OnMessage | ws_client.py:53-84 | the handler takes the branch `ClassifyFrame` states; a processed tick sets both the record and its latency, and every other frame leaves both slots, the socket and the flag unchanged; the record/latency pairing and the record invariant are preserved |
| WsClient.OrderBookClient.OnOpen | ws_client.py:92-103 | opening appends the fixed subscribe text to what the socket has sent and changes nothing else |
| WsClient.OrderBookClient.Start | ws_client.py:105-117 | start sets `running`, replaces the socket with a fresh one for the client's URL and starts one more receive thread, whether or not one is running |
| WsClient.OrderBookClient.Stop | ws_client.py:119-122 | stop clears `running` and closes the socket when there is one |
| WsClient.OrderBookClient.GetLatestOrderbook | ws_client.py:124-125 | returns the stored record (none before the first accepted tick), whose mid lies strictly between a bid and an ask a positive spread apart |
| WsClient.OrderBookClient.GetLatency | ws_client.py:127-128 | returns the stored latency, present exactly when a record is |
| WsClient.WellFormedBracketsOpt | ws_client.py:124-125 | the bracket property of an optional stored record |
| DataUtils.PyPrefix | utils/data_utils.py:25 | Python's `arr[:n]` is a prefix of `arr` of length `min(n, len)` for `n ≥ 0`, and counts from the end for negative `n` |
| DataUtils.KeptLevels | utils/data_utils.py:26-32 | filtering never yields more levels than it examines |
| DataUtils.KeptLevelsAppend | utils/data_utils.py:25-32 | filtering distributes over concatenation, so the kept levels keep their relative order |
| DataUtils.KeptLevelsSingle | utils/data_utils.py:26-32 | one level is kept, converted, exactly when both its fields parse to finite numbers |
| DataUtils.KeptLevelsEmptyIff | utils/data_utils.py:26-39 | a side ends up empty exactly when none of its examined levels is usable |
| DataUtils.KeptLevelsAllUsable | utils/data_utils.py:26-32 | when every examined level is usable nothing is dropped and level i converts to kept level i |
| DataUtils.UnparsableLevelSkipped | utils/data_utils.py:26-32 | a level that does not parse is skipped, not fatal: the usable level behind it is still kept |
| DataUtils.ToTuples | utils/data_utils.py:23-33 | the loop returns the usable levels of `arr[:top_n]` in order, at most `top_n` of them |
| DataUtils.SizesOf | utils/data_utils.py:46-47 | one size per kept level |
| DataUtils.NotionalsOf | utils/data_utils.py:55 | one price × size term per kept level |
| DataUtils.LevelColumns | utils/data_utils.py:46-55 | entry i of the size column is kept level i's size, and entry i of the notional column is its price times its size |
| DataUtils.DepthWeightedAvg | utils/data_utils.py:49-55 | 0.0 for an empty side; the first price when the side's total size is 0; otherwise the average that, multiplied by the total size, gives Σ(p·s) |
| DataUtils.NotionalAtLeast | utils/data_utils.py:55 | with prices at least `lo` and non-negative sizes, Σ(p·s) ≥ lo·Σs |
| DataUtils.NotionalAtMost | utils/data_utils.py:55 | with prices at most `hi` and non-negative sizes, Σ(p·s) ≤ hi·Σs |
| DataUtils.VolumeNonNegative | utils/data_utils.py:52 | a side with non-negative sizes has a non-negative total |
| DataUtils.DepthWeightedAvgWithin | utils/data_utils.py:49-55 | for a non-empty side with non-negative sizes, the depth-weighted average (first price at zero volume, else Σ(p·s)/Σs) lies within the side's price band |
| DataUtils.DepthWeightedAvgUniform | utils/data_utils.py:49-55 | a side quoting one price has that price as its depth-weighted average |
| DataUtils.Summarize | utils/data_utils.py:38-77 | the summary is empty exactly when a side has no kept level |
| DataUtils.SummaryFacts | utils/data_utils.py:41-77 | best prices are the first kept prices, spread and mid follow from them, the returned level lists are the kept levels, totals are the sums of the kept sizes, each average is `depth_weighted_avg` of its side's kept levels, and with non-negative sizes it lies within that side's price band |
| DataUtils.CrossedSnapshotAccepted | utils/data_utils.py:41-44 | there is no crossed-book check: a crossed snapshot is summarised with a negative spread |
| DataUtils.ProcessOrderbookSnapshot | utils/data_utils.py:5-77 | the result is the summary of the kept levels of each side's first `top_n`; it is empty exactly when either side has no usable examined level, and otherwise each side lists at most `top_n` levels |
| OrderBookProcessing.ComputeVolatilityAsWritten | orderbook_processor.py:40-44 | as written, zero below two stored mids, and from two mids on it raises, because the deque is sliced |
| OrderBookProcessing.ComputeVolatility | orderbook_processor.py:40-44 | corrected to read a list copy of the deque: takes the early-return branch (0.0) exactly when fewer than two mids are stored; otherwise it is the uninterpreted statistic of exactly the stored mids, which may itself be 0.0 |
| OrderBookProcessing.VolatilityAsWrittenAgrees | orderbook_processor.py:40-44 | the written and the corrected volatility agree below two mids, and the written one fails exactly where the corrected one is taken over the stored mids |
| OrderBookProcessing.BestQuote | orderbook_processor.py:13-23 | a best quote is read exactly when both sides are non-empty and both best prices parse to finite numbers, and it is those two prices |
| OrderBookProcessing.OrderBookProcessor.constructor | orderbook_processor.py:6-9 | a new processor has three empty histories of the given bound |
| OrderBookProcessing.OrderBookProcessor.Record | orderbook_processor.py:25-27 | mid, spread and capture time are appended together with oldest-first eviction, the logs grow by one each, and with a positive bound the newest mid and spread are the ones appended |
| OrderBookProcessing.OrderBookProcessor.UpdateAsWritten | orderbook_processor.py:11-38 | as written: an empty side or an unusable best price returns none with the histories unchanged; otherwise the three values are appended, and a record (with zero volatility) comes back only when at most one mid is then stored, else none after the appends |
| OrderBookProcessing.OrderBookProcessor.Update | orderbook_processor.py:11-38 | corrected: an empty side or an unusable best price returns none and leaves all three histories unchanged; otherwise mid, spread and time are appended together with oldest-first eviction, the result carries mid, spread, the volatility of the stored mids and the best prices, and the latest metrics afterwards are the returned ones |
| OrderBookProcessing.OrderBookProcessor.GetLatestMetricsAsWritten | orderbook_processor.py:46-53 | as written: the empty dictionary exactly when nothing is stored, the only mid and spread with zero volatility for one entry, and a raise from two entries on |
| OrderBookProcessing.OrderBookProcessor.GetLatestMetrics | orderbook_processor.py:46-53 | corrected: empty exactly when the history is; otherwise the last mid, the last spread and the volatility of the stored mids |
| OrderBookProcessing.SecondUpdateDroppedAsWritten | orderbook_processor.py:25-53 | as written, the second of two identical one-level ticks to a default processor returns none and the latest metrics then raise, while the corrected processor reports the second tick with the volatility of both mids |
| OrderBookProcessing.OrderBookProcessor.Histories | orderbook_processor.py:7-9 | the three histories have one length, never exceed the bound, and hold the most recent values in arrival order |
| LatencyTracking.Mean | utils/latency_tracker.py:17 | the mean taken once per sample adds up to the sum of the window |
| LatencyTracking.MaxOf | utils/latency_tracker.py:22 | Python's `max` is an element of the window and no element exceeds it |
| LatencyTracking.MeanAtMostMax | utils/latency_tracker.py:17-22 | the mean of a non-empty window is at most its maximum |
| LatencyTracking.LatencyTracker.constructor | utils/latency_tracker.py:8-9 | a new tracker has an empty window of the given bound |
| LatencyTracking.LatencyTracker.AddLatency | utils/latency_tracker.py:11-12 | the sample is appended with oldest-first eviction; the window stays within its bound and ends with the new sample |
| LatencyTracking.LatencyTracker.AverageLatency | utils/latency_tracker.py:14-17 | 0.0 for an empty window, otherwise sum over length, which is at most the maximum |
| LatencyTracking.LatencyTracker.MaxLatency | utils/latency_tracker.py:19-22 | 0.0 for an empty window, otherwise a sample that no other sample exceeds |
| LatencyTracking.LatencyTracker.Clear | utils/latency_tracker.py:24-25 | the window becomes empty and both statistics are 0.0 |
| LatencyTracking.LatencyTracker.RecentSamples | utils/latency_tracker.py:9-12 | the window never exceeds its bound and holds the most recent samples in insertion order |
| Fees.NewFeeModel | utils/fee_model.py:9-14 | an unknown tier is rejected with an error naming it, and only unknown tiers are; a known tier's model carries that tier's maker and taker rates |
| Fees.FeeModel.CalculateFee | utils/fee_model.py:16-18 | the fee is zero exactly when the volume or the chosen rate is (the rate being the maker or taker one as the flag says), and never negative for a non-negative volume and rate |
| Fees.FeeLinear | utils/fee_model.py:16-18 | the fee is volume times the chosen rate: zero for no volume, the rate for a unit volume, additive and homogeneous in volume |
| Fees.MakerCheaperInEveryTier | utils/fee_model.py:3-18 | in every tier the maker rate is below the taker rate, so a maker never pays more for a non-negative volume |
| Fees.RatesNonIncreasingByTier | utils/fee_model.py:3-7 | both rates never rise from Tier 1 to Tier 3 |
| Fees.KnownTiers | utils/fee_model.py:3-11 | construction succeeds exactly for "Tier 1", "Tier 2" and "Tier 3" |
| Dashboard.CheckHealth | main.py:272-278 | Healthy exactly below 100 ms, Warning exactly from 100 up to 300 ms, Unhealthy exactly from 300 ms |
| Dashboard.HealthMonotone | main.py:272-278 | a slower latency is never classified healthier |
| Dashboard.HealthBoundaries | main.py:272-278 | 99.9 ms is Healthy, 100 ms is Warning, 300 ms is Unhealthy |
| Dashboard.StatusLabel | main.py:364-365 | the stored label ends with the state's name |
| Dashboard.StatusLabelInjective | main.py:364-365 | distinct health states give distinct stored labels |
| Dashboard.RowOf | main.py:367-377 | the export row takes time, latency, best bid, best ask, mid, spread and each side's volume from the sample (bid volume to "Bid Volume", ask volume to "Ask Volume"), its health name classifies its own latency, and on an accepted record its mid lies between its bid and ask a spread apart |
| Dashboard.ColumnsAppend | main.py:360-377 | one export row appended grows each column by that row's entry |
| Dashboard.TailsAppend | main.py:356-365 | appending a sample's entries to the five bounded histories leaves each the last 120 entries of its column of the grown log |
| Dashboard.HealthNamesAppend | main.py:364-377 | a row whose health name classifies its latency keeps every logged health name consistent with its latency |
| Dashboard.Session.constructor | main.py:246-263 | the session starts with five empty histories, an empty export log and no last record |
| Dashboard.Session.HandleButtons | main.py:266-269 | start sets the toggle, stop clears it and wins when both are pressed, and no history changes |
| Dashboard.Session.RecordSample | main.py:356-377 | with no record nothing changes; with one, it becomes the last record, one row is appended to the unbounded export log, and each of the five histories gets that sample's entry with eviction at 120, the label being the classification of the same latency |
| Dashboard.Session.ParallelHistories | main.py:246-257 | the five histories have one length of at most 120, never more than the export log, and the label at each index is the classification of the latency at that index |
| Dashboard.LabelsFollowLatencies | main.py:363-365 | in the bounded latency and label histories of one log, each label is the classification of the latency at the same index |
| Dashboard.ColumnLengths | main.py:246-257 | the bounded tails of the five columns of one log have one length, at most 120 and at most the log's length |
| Dashboard.MidDelta | main.py:384-385 | 0.0 without a previous mid; otherwise the delta added to the second-to-last stored mid gives the current mid |
| Dashboard.MidDeltaAfterRecord | main.py:384-385 | right after a sample is recorded, the mid delta is the change from the previous sample's mid, or 0.0 for the first sample |
| Dashboard.Slippage | main.py:336 | a hundred times the slippage is mid times volatility (`mid * vol / 100`), so none without volatility, and never a negative one for a non-negative mid and volatility |
| Dashboard.MarketPrice | main.py:335-337 | a buy executes the slippage above mid and a sell the slippage below it, so with non-negative mid and volatility a sell is at most mid and a buy at least mid |
| Dashboard.LimitPrice | main.py:462-463 | on an accepted record the buy limit (best ask) lies half a spread above mid and the sell limit (best bid) half a spread below it |
| Dashboard.SimulatedPrice | main.py:452-463 | the market rule for market orders and the limit rule for limit orders, so whatever the order type the simulated sell price is at most mid and the buy price at least mid |

## Left out

- The websocket transport, the daemon thread that `start` launches and the error and close callbacks (ws_client.py:86-90, 115-117) are I/O and concurrency. `start` itself is modelled, with the thread as a counter. `_on_message` is modelled as a sequential update over an already-decoded frame.
- `WsClient.OrderBookClient.OnOpen`: sends on the client's current socket, where the source sends on the socket passed to the callback (ws_client.py:92, 103). Since each `start` creates a new app, an older app that opens late would send on its own socket, which the model does not track.
- `json.loads` and `float()` string parsing are library calls. A frame is already decoded (`WsClient.Message`), and a field is the outcome of `float()` (`Common.Field`). JSON escaping in `json.dumps` is not modelled, because no character of the subscribe message needs it.
- The clock and the latency measurement are not modelled. `time.time()` and `datetime.utcnow()` become inputs, as does the rounded handler latency. The unused `timestamp` read in `update` is ignored.
- `_compute_volatility` (numpy `diff`/`std` over floats) stays uninterpreted. `Volatility` records only whether the early return below two mids was taken or which mids the statistic is taken over; the statistic's value (which is 0.0 for two mids or for equal mids) is not computed. Its failure from two stored mids on is modelled (see Findings).
- The Streamlit layout, rendering, DataFrames, the CSV download and the rerun loop are not modelled, and neither are the commented-out old version and `get_client`'s cached singleton. `st.stop()` when the dashboard is not running is the caller's choice not to call `RecordSample`. The export row keeps the capture time as a value, not its ISO string.
- main.py:353 multiplies the client's latency, already in milliseconds, by 1000, and raises before the first tick. The model takes the dashboard's latency as an input.
- The `client.subscribe_inst` assignment (main.py:244) is not modelled, because `_on_open` never reads it.
- The models/ directory (market impact, slippage and maker/taker regressors) and the manual polling script test_ws.py are not modelled.
- The default arguments `top_n=5` (utils/data_utils.py:5), `max_samples=100` (utils/latency_tracker.py:8) and `tier="Tier 1"` (utils/fee_model.py:9) are not modelled: every caller of the model passes the value. Only `history_size=100` is kept, as `OrderBookProcessing.DefaultHistorySize`.
- A negative `history_size` or `max_samples` makes `deque` raise `ValueError`. The model takes both bounds as `nat`.
- `WsClient.ProcessOrderbook`: rejects a best price or size that parses to inf or nan, where the source would store a record (see Findings). For finite fields it accepts exactly what the source accepts (`WsClient.ProcessOrderbookRefinesAsWritten`).
- `OrderBookProcessing.OrderBookProcessor.Update`: returns none for a best price that parses to inf or nan, where the source appends a non-finite mid and spread; real numbers have no such values. The same holds for `UpdateAsWritten`.
- `OrderBookProcessing.BestQuote`: gives no quote when a best price parses to inf or nan, where the source reads it.
- `DataUtils.DepthWeightedAvgWithin`: bounds the average only for non-negative sizes, because the source does not check the sign and a mixed-sign side can average outside its price band.
- `_on_message` records a latency only for an accepted tick (ws_client.py:64-71); the model does the same.
- `start` is not idempotent: each call creates a new `WebSocketApp` and a new thread (ws_client.py:105-116); the model does the same.
- One unparsable size rejects the whole live tick (ws_client.py:33-34, 49-51); the model does the same.
- The code has no connection state machine, no percentile-based health, no "unknown" health state and no resubscription, so none is modelled.
- A `books5` frame whose `data` is null raises at `len(None)` (ws_client.py:60) and is logged as an error; the model folds it into the empty-data case, which leaves the client's state unchanged just the same.

## Findings

| source | as written | input that shows it | evidently intended | confidence | as-written member | corrected member |
|---|---|---|---|---|---|---|
| orderbook_processor.py:43 | `self.price_history[:-1]` slices a `collections.deque`, which raises `TypeError`; from the second stored mid on, `update` appends, then returns None, and `get_latest_metrics` raises | a default processor updated twice with bid 100 × 1 and ask 101 × 1 | the volatility is the standard deviation of the returns of the stored mids, read as a list | not executed | OrderBookProcessing.SecondUpdateDroppedAsWritten | OrderBookProcessing.OrderBookProcessor.Update |
| ws_client.py:23-28 | the crossed-book guard `best_bid >= best_ask` is false when either price is nan, so the tick is stored with a nan spread and mid | asks `[["100","1"]]`, bids `[["nan","1"]]` | only ticks with best bid strictly below best ask are stored | not executed | WsClient.NaNBidPassesAsWritten | WsClient.ProcessOrderbook |
