/**
 * The live-feed client `OrderBookClient`: the tick normaliser that turns one
 * `books5` snapshot into best bid/ask, spread, mid and side volumes, the
 * message handler that publishes accepted ticks into the single "latest"
 * slot, the fixed subscribe message, and the `running` flag.
 */
module WsClient {
  import opened Common

  /** The book-snapshot channel the client subscribes to and filters on. */
  const BooksChannel := "books5"
  /** The instrument named in the subscribe message. */
  const SubscribedInstrument := "BTC-USDT"

  /** The record `_process_orderbook` returns for an accepted tick. */
  datatype TickMetrics = TickMetrics(
    bestBid: real, bestAsk: real, spread: real, midPrice: real,
    totalAskVolume: real, totalBidVolume: real,
    instId: Option<string>, ts: Option<string>)

  /** Why a tick is dropped, one reason per logged warning or caught exception. */
  datatype Rejection =
    | EmptySide        // asks or bids missing or empty
    | MalformedLevel   // float() raised on a field the normaliser reads
    | NonFiniteLevel   // a field read parsed to inf or nan
    | CrossedOrLocked  // best bid >= best ask

  /** The invariant of every record the client stores. */
  ghost predicate WellFormed(m: TickMetrics)
  {
    && m.bestBid < m.bestAsk
    && m.spread == m.bestAsk - m.bestBid
    && m.midPrice == (m.bestAsk + m.bestBid) / 2.0
  }

  lemma WellFormedBrackets(m: TickMetrics)
    requires WellFormed(m)
    ensures m.spread > 0.0 && m.bestBid < m.midPrice < m.bestAsk
  {
  }

  predicate SizesFinite(levels: seq<RawLevel>)
  {
    forall i :: 0 <= i < |levels| ==> levels[i].size.Finite?
  }

  predicate SizesParse(levels: seq<RawLevel>)
  {
    forall i :: 0 <= i < |levels| ==> !levels[i].size.Unparsable?
  }

  /** The parsed sizes of every level of a side, in order. */
  function Sizes(levels: seq<RawLevel>): (r: seq<real>)
    requires SizesFinite(levels)
    ensures |r| == |levels|
    ensures forall i :: 0 <= i < |r| ==> r[i] == levels[i].size.value
  {
    if levels == [] then [] else [levels[0].size.value] + Sizes(levels[1..])
  }

  /**
   * `_process_orderbook`: reject an empty side, a best price that does not
   * parse, a crossed or locked book, and a side with a size that does not
   * parse; otherwise derive spread, mid and the volumes of all levels.
   * Non-finite fields are rejected too (see `AcceptedAsWritten`).
   */
  function ProcessOrderbook(book: RawBook): (r: Result<TickMetrics, Rejection>)
    ensures r == Err(EmptySide) <==> book.asks == [] || book.bids == []
    ensures r.Ok? <==>
      && book.asks != [] && book.bids != []
      && book.asks[0].price.Finite? && book.bids[0].price.Finite?
      && book.bids[0].price.value < book.asks[0].price.value
      && SizesFinite(book.asks) && SizesFinite(book.bids)
    ensures r.Ok? ==>
      && WellFormed(r.value)
      && r.value.bestBid == book.bids[0].price.value
      && r.value.bestAsk == book.asks[0].price.value
      && r.value.totalAskVolume == Sum(Sizes(book.asks))
      && r.value.totalBidVolume == Sum(Sizes(book.bids))
      && r.value.instId == book.instId && r.value.ts == book.ts
    ensures r == Err(MalformedLevel) ==>
      || book.asks[0].price.Unparsable? || book.bids[0].price.Unparsable?
      || !SizesParse(book.asks) || !SizesParse(book.bids)
  {
    if book.asks == [] || book.bids == [] then Err(EmptySide)
    else
      var ask, bid := book.asks[0].price, book.bids[0].price;
      if ask.Unparsable? || bid.Unparsable? then Err(MalformedLevel)
      else if !ask.Finite? || !bid.Finite? then Err(NonFiniteLevel)
      else if bid.value >= ask.value then Err(CrossedOrLocked)
      else if !SizesParse(book.asks) || !SizesParse(book.bids) then Err(MalformedLevel)
      else if !SizesFinite(book.asks) || !SizesFinite(book.bids) then Err(NonFiniteLevel)
      else
        Ok(TickMetrics(bid.value, ask.value, ask.value - bid.value, (ask.value + bid.value) / 2.0,
                       Sum(Sizes(book.asks)), Sum(Sizes(book.bids)), book.instId, book.ts))
  }

  /** Python's `a >= b` on two floats: false whenever either side is NaN. */
  predicate PyGe(a: Field, b: Field)
  {
    match (a, b)
    case (NaN, _) => false
    case (_, NaN) => false
    case (PosInf, _) => true
    case (_, NegInf) => true
    case (Finite(x), Finite(y)) => x >= y
    case _ => false
  }

  /**
   * Whether `_process_orderbook` as written returns a record: both sides
   * non-empty, both best prices parse, `best_bid >= best_ask` is false and
   * every size parses. Nothing checks for inf or nan.
   */
  predicate AcceptedAsWritten(book: RawBook): (accepted: bool)
    ensures accepted ==> book.asks != [] && book.bids != []
    ensures accepted && book.asks[0].price.Finite? && book.bids[0].price.Finite? ==>
      book.bids[0].price.value < book.asks[0].price.value
  {
    && book.asks != [] && book.bids != []
    && !book.asks[0].price.Unparsable? && !book.bids[0].price.Unparsable?
    && !PyGe(book.bids[0].price, book.asks[0].price)
    && SizesParse(book.asks) && SizesParse(book.bids)
  }

  /** As written, a tick whose best bid is "nan" passes the crossed-book check. */
  lemma NaNBidPassesAsWritten()
    ensures var book := RawBook([RawLevel(Finite(100.0), Finite(1.0))],
                                [RawLevel(NaN, Finite(1.0))], None, None);
      && AcceptedAsWritten(book)
      && !book.bids[0].price.Finite?
      && ProcessOrderbook(book) == Err(NonFiniteLevel)
  {
  }

  /** The corrected normaliser only tightens the written one, and only on non-finite fields. */
  lemma {:induction false} ProcessOrderbookRefinesAsWritten(book: RawBook)
    ensures ProcessOrderbook(book).Ok? ==> AcceptedAsWritten(book)
    ensures (book.asks != [] && book.bids != []
             && book.asks[0].price.Finite? && book.bids[0].price.Finite?
             && SizesFinite(book.asks) && SizesFinite(book.bids))
            ==> (AcceptedAsWritten(book) <==> ProcessOrderbook(book).Ok?)
  {
    if ProcessOrderbook(book).Ok? {
      assert SizesParse(book.asks) by {
        forall i | 0 <= i < |book.asks| ensures !book.asks[i].size.Unparsable? {
          assert book.asks[i].size.Finite?;
        }
      }
      assert SizesParse(book.bids) by {
        forall i | 0 <= i < |book.bids| ensures !book.bids[i].size.Unparsable? {
          assert book.bids[i].size.Finite?;
        }
      }
    }
  }

  /** A one-level tick normalises to exact values. */
  lemma OneLevelTick()
    ensures ProcessOrderbook(RawBook([RawLevel(Finite(100.10), Finite(3.0))],
                                     [RawLevel(Finite(100.00), Finite(2.0))], None, None))
         == Ok(TickMetrics(100.00, 100.10, 0.10, 100.05, 3.0, 2.0, None, None))
  {
    var book := RawBook([RawLevel(Finite(100.10), Finite(3.0))],
                        [RawLevel(Finite(100.00), Finite(2.0))], None, None);
    assert Sizes(book.asks) == [3.0];
    assert Sizes(book.bids) == [2.0];
  }

  /** A crossed tick is rejected. */
  lemma CrossedTickRejected()
    ensures ProcessOrderbook(RawBook([RawLevel(Finite(100.00), Finite(1.0))],
                                     [RawLevel(Finite(100.10), Finite(1.0))], None, None))
         == Err(CrossedOrLocked)
  {
  }

  /** The volumes count every level of a side, not only the best. */
  lemma {:induction false} VolumesCountEveryLevel(book: RawBook, extra: RawLevel)
    requires ProcessOrderbook(book).Ok?
    requires extra.size.Finite?
    ensures var grown := book.(asks := book.asks + [extra]);
      && ProcessOrderbook(grown).Ok?
      && ProcessOrderbook(grown).value.totalAskVolume
         == ProcessOrderbook(book).value.totalAskVolume + extra.size.value
  {
    var grown := book.(asks := book.asks + [extra]);
    assert grown.asks[0] == book.asks[0];
    assert SizesFinite(grown.asks) by {
      forall i | 0 <= i < |grown.asks| ensures grown.asks[i].size.Finite? {
        if i < |book.asks| { assert grown.asks[i] == book.asks[i]; }
      }
    }
    assert Sizes(grown.asks) == Sizes(book.asks) + [extra.size.value];
    SumAppend(Sizes(book.asks), [extra.size.value]);
    assert Sum([extra.size.value]) == extra.size.value by {
      assert [extra.size.value][..0] == [];
    }
  }

  // ---------------------------------------------------------------- frames

  /** The `arg` object of a frame. */
  datatype ChannelArg = ChannelArg(channel: Option<string>, instId: Option<string>)

  /**
   * An inbound text frame after `json.loads`: either it does not decode, or
   * it has an optional `arg` and a `data` list (a missing one is empty).
   * A null `data` is folded into the empty list too: the source then raises
   * at `len(None)` and logs an error instead of the empty-data warning, with
   * the same effect on the client's state (none).
   */
  datatype Message = Undecodable | Frame(arg: Option<ChannelArg>, data: seq<RawBook>)

  /** Which branch of `_on_message` a frame takes. */
  datatype FrameOutcome =
    | DecodeFailed              // json.loads raised
    | OtherChannel              // no arg, or arg.channel is not books5 (debug log)
    | NoData                    // books5 frame without snapshots (warning)
    | Skipped(reason: Rejection) // normaliser returned None
    | Processed(metrics: TickMetrics)

  predicate IsBooksFrame(msg: Message)
  {
    msg.Frame? && msg.arg.Some? && msg.arg.value.channel == Some(BooksChannel)
  }

  function ClassifyFrame(msg: Message): (r: FrameOutcome)
    ensures r.Processed? <==>
      IsBooksFrame(msg) && |msg.data| > 0 && ProcessOrderbook(msg.data[0]).Ok?
    ensures r.Processed? ==> WellFormed(r.metrics) && r.metrics == ProcessOrderbook(msg.data[0]).value
    ensures r == OtherChannel <==> msg.Frame? && !IsBooksFrame(msg)
    ensures r == NoData <==> IsBooksFrame(msg) && msg.data == []
    ensures r == DecodeFailed <==> msg.Undecodable?
    ensures r.Skipped? ==> IsBooksFrame(msg) && |msg.data| > 0 && ProcessOrderbook(msg.data[0]) == Err(r.reason)
  {
    match msg
    case Undecodable => DecodeFailed
    case Frame(arg, data) =>
      if !IsBooksFrame(msg) then OtherChannel
      else if |data| == 0 then NoData
      else match ProcessOrderbook(data[0])
        case Err(e) => Skipped(e)
        case Ok(m) => Processed(m)
  }

  // --------------------------------------------------------- subscription

  datatype ChannelSubscription = ChannelSubscription(channel: string, instId: string)
  datatype SubscribeRequest = SubscribeRequest(op: string, args: seq<ChannelSubscription>)

  /** The request `_on_open` builds; it names no other instrument. */
  const SubscribeMessage := SubscribeRequest("subscribe", [ChannelSubscription(BooksChannel, SubscribedInstrument)])

  function Quote(s: string): string { "\"" + s + "\"" }

  function DumpsSubscription(a: ChannelSubscription): string
  {
    "{\"channel\": " + Quote(a.channel) + ", \"instId\": " + Quote(a.instId) + "}"
  }

  function DumpsSubscriptions(args: seq<ChannelSubscription>): string
  {
    if args == [] then ""
    else if |args| == 1 then DumpsSubscription(args[0])
    else DumpsSubscription(args[0]) + ", " + DumpsSubscriptions(args[1..])
  }

  /**
   * `json.dumps` with its default separators ", " and ": " (no character
   * here needs escaping): one JSON object whose first key is "op".
   */
  function Dumps(req: SubscribeRequest): (text: string)
    ensures |text| > 7 && text[..7] == "{\"op\": " && text[|text| - 1] == '}'
  {
    "{\"op\": " + Quote(req.op) + ", \"args\": [" + DumpsSubscriptions(req.args) + "]}"
  }

  /** The exact text written to the socket on open. */
  lemma SubscribeText()
    ensures Dumps(SubscribeMessage)
         == "{\"op\": \"subscribe\", \"args\": ["
            + "{\"channel\": \"books5\", \"instId\": \"BTC-USDT\"}"
            + "]}"
    ensures SubscribeMessage.args[0].channel == BooksChannel
  {
    var c := "{\"channel\": \"books5\", \"instId\": \"BTC-USDT\"}";
    SubscriptionText();
    assert DumpsSubscriptions(SubscribeMessage.args) == c;
    var q := Quote("subscribe");
    assert q == "\"subscribe\"";
    var d := "{\"op\": " + q + ", \"args\": [";
    assert d == "{\"op\": \"subscribe\", \"args\": [";
    assert Dumps(SubscribeMessage) == d + c + "]}";
  }

  /** The text of the one channel subscription. */
  lemma SubscriptionText()
    ensures DumpsSubscription(ChannelSubscription(BooksChannel, SubscribedInstrument))
         == "{\"channel\": \"books5\", \"instId\": \"BTC-USDT\"}"
  {
    var q1, q2 := Quote("books5"), Quote("BTC-USDT");
    assert q1 == "\"books5\"";
    assert q2 == "\"BTC-USDT\"";
    var a := "{\"channel\": " + q1;
    assert a == "{\"channel\": \"books5\"";
    var b := a + ", \"instId\": " + q2;
    assert b == "{\"channel\": \"books5\", \"instId\": \"BTC-USDT\"";
    assert DumpsSubscription(ChannelSubscription(BooksChannel, SubscribedInstrument)) == b + "}";
  }

  // ---------------------------------------------------------------- client

  /** The `WebSocketApp` a client created: its URL, whether `close()` was called, and what it sent. */
  datatype Socket = Socket(url: string, closed: bool, sent: seq<string>)

  class OrderBookClient {
    const url: string
    var ws: Option<Socket>
    var running: bool
    var latestData: Option<TickMetrics>
    var latestLatencyMs: Option<real>
    /** Receive threads started so far; `start` does not check for a running one. */
    var threadsStarted: nat

    ghost predicate Valid()
      reads this
    {
      && (latestData.Some? <==> latestLatencyMs.Some?)
      && (latestData.Some? ==> WellFormed(latestData.value))
    }

    constructor (url: string)
      ensures Valid()
      ensures this.url == url && ws == None && !running
      ensures latestData == None && latestLatencyMs == None && threadsStarted == 0
    {
      this.url := url;
      ws := None;
      running := false;
      latestData := None;
      latestLatencyMs := None;
      threadsStarted := 0;
    }

    /**
     * `_on_message` for one frame; `elapsedMs` is the measured and rounded
     * processing time. Only a processed tick touches the two slots.
     */
    method OnMessage(msg: Message, elapsedMs: real) returns (outcome: FrameOutcome)
      requires Valid()
      modifies this
      ensures Valid()
      ensures outcome == ClassifyFrame(msg)
      ensures outcome.Processed? ==>
        latestData == Some(outcome.metrics) && latestLatencyMs == Some(elapsedMs)
      ensures !outcome.Processed? ==>
        latestData == old(latestData) && latestLatencyMs == old(latestLatencyMs)
      ensures ws == old(ws) && running == old(running) && threadsStarted == old(threadsStarted)
    {
      outcome := ClassifyFrame(msg);
      if outcome.Processed? {
        latestData := Some(outcome.metrics);
        latestLatencyMs := Some(elapsedMs);
      }
    }

    /** `_on_open`: send the fixed subscribe message on the client's socket. */
    method OnOpen()
      requires ws.Some?
      modifies this
      ensures ws == Some(old(ws.value).(sent := old(ws.value.sent) + [Dumps(SubscribeMessage)]))
      ensures running == old(running) && latestData == old(latestData)
      ensures latestLatencyMs == old(latestLatencyMs) && threadsStarted == old(threadsStarted)
    {
      ws := Some(ws.value.(sent := ws.value.sent + [Dumps(SubscribeMessage)]));
    }

    /** `start`: set `running`, create a fresh app for `url` and start a thread for it. */
    method Start()
      modifies this
      ensures running && ws == Some(Socket(url, false, []))
      ensures threadsStarted == old(threadsStarted) + 1
      ensures latestData == old(latestData) && latestLatencyMs == old(latestLatencyMs)
    {
      running := true;
      ws := Some(Socket(url, false, []));
      threadsStarted := threadsStarted + 1;
    }

    /** `stop`: clear `running` and close the app when there is one. */
    method Stop()
      modifies this
      ensures !running
      ensures ws == if old(ws).Some? then Some(old(ws.value).(closed := true)) else None
      ensures threadsStarted == old(threadsStarted)
      ensures latestData == old(latestData) && latestLatencyMs == old(latestLatencyMs)
    {
      running := false;
      if ws.Some? {
        ws := Some(ws.value.(closed := true));
      }
    }

    /** `get_latest_orderbook`: the last accepted record, which always satisfies the book invariant. */
    function GetLatestOrderbook(): (r: Option<TickMetrics>)
      reads this
      requires Valid()
      ensures r == latestData
      ensures r.Some? ==> r.value.bestBid < r.value.midPrice < r.value.bestAsk && r.value.spread > 0.0
    {
      WellFormedBracketsOpt(latestData);
      latestData
    }

    /** `get_latency`: present exactly when a record is. */
    function GetLatency(): (r: Option<real>)
      reads this
      requires Valid()
      ensures r == latestLatencyMs
      ensures r.Some? <==> GetLatestOrderbook().Some?
    {
      latestLatencyMs
    }
  }

  lemma WellFormedBracketsOpt(d: Option<TickMetrics>)
    requires d.Some? ==> WellFormed(d.value)
    ensures d.Some? ==> d.value.bestBid < d.value.midPrice < d.value.bestAsk && d.value.spread > 0.0
  {
  }
}
