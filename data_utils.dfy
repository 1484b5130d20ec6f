/**
 * `process_orderbook_snapshot`: keep the finite levels among the first
 * `top_n` of each side, then derive best prices, spread, mid, side totals
 * and the depth-weighted average price of each side. Unlike the live
 * client's normaliser it has no crossed-book check.
 */
module DataUtils {
  import opened Common

  /** A kept level: `(price, size)`, both finite. */
  datatype Level = Level(price: real, size: real)

  /** The dictionary returned for a usable snapshot (the DataFrame entries are not modelled). */
  datatype SnapshotSummary = SnapshotSummary(
    bestBid: real, bestAsk: real, spread: real, midPrice: real,
    bids: seq<Level>, asks: seq<Level>,
    totalBidVolume: real, totalAskVolume: real,
    bidDwa: real, askDwa: real)

  /** Python's slice `arr[:n]` for any integer `n`; a negative `n` counts from the end. */
  function PyPrefix<T>(arr: seq<T>, n: int): (r: seq<T>)
    ensures 0 <= n ==> |r| == if n < |arr| then n else |arr|
    ensures n < 0 ==> |r| == if |arr| + n < 0 then 0 else |arr| + n
    ensures r == arr[..|r|]
  {
    if 0 <= n then (if n < |arr| then arr[..n] else arr)
    else if |arr| + n < 0 then []
    else arr[..|arr| + n]
  }

  /** Both fields parse and are finite (`math.isfinite`). */
  predicate Usable(l: RawLevel)
  {
    l.price.Finite? && l.size.Finite?
  }

  function ToLevel(l: RawLevel): Level
    requires Usable(l)
  {
    Level(l.price.value, l.size.value)
  }

  /** The usable levels of `levels`, converted, in their original order. */
  function KeptLevels(levels: seq<RawLevel>): (r: seq<Level>)
    ensures |r| <= |levels|
  {
    if levels == [] then []
    else (if Usable(levels[0]) then [ToLevel(levels[0])] else []) + KeptLevels(levels[1..])
  }

  /** Filtering distributes over concatenation; with the one-level case this pins KeptLevels down. */
  lemma {:induction false} KeptLevelsAppend(a: seq<RawLevel>, b: seq<RawLevel>)
    ensures KeptLevels(a + b) == KeptLevels(a) + KeptLevels(b)
  {
    if a != [] {
      assert (a + b)[1..] == a[1..] + b;
      KeptLevelsAppend(a[1..], b);
    } else {
      assert a + b == b;
    }
  }

  lemma KeptLevelsSingle(l: RawLevel)
    ensures KeptLevels([l]) == if Usable(l) then [ToLevel(l)] else []
  {
    assert [l][1..] == [];
  }

  /** A side ends up empty exactly when none of its examined levels is usable. */
  lemma {:induction false} KeptLevelsEmptyIff(levels: seq<RawLevel>)
    ensures KeptLevels(levels) == [] <==> forall i :: 0 <= i < |levels| ==> !Usable(levels[i])
  {
    if levels != [] {
      KeptLevelsEmptyIff(levels[1..]);
      assert forall i :: 1 <= i < |levels| ==> levels[i] == levels[1..][i - 1];
    }
  }

  /** When every examined level is usable, nothing is dropped and the order is kept. */
  lemma {:induction false} KeptLevelsAllUsable(levels: seq<RawLevel>)
    requires forall i :: 0 <= i < |levels| ==> Usable(levels[i])
    ensures |KeptLevels(levels)| == |levels|
    ensures forall i :: 0 <= i < |levels| ==> KeptLevels(levels)[i] == ToLevel(levels[i])
  {
    if levels != [] {
      assert forall i :: 1 <= i < |levels| ==> levels[i] == levels[1..][i - 1];
      KeptLevelsAllUsable(levels[1..]);
    }
  }

  /** `_to_tuples`: walk `arr[:top_n]`, skip levels that raise or are not finite. */
  method ToTuples(arr: seq<RawLevel>, topN: int) returns (out: seq<Level>)
    ensures out == KeptLevels(PyPrefix(arr, topN))
    ensures 0 <= topN ==> |out| <= topN
  {
    out := [];
    var examined := PyPrefix(arr, topN);
    for i := 0 to |examined|
      invariant out == KeptLevels(examined[..i])
    {
      var level := examined[i];
      assert examined[..i + 1] == examined[..i] + [level];
      KeptLevelsAppend(examined[..i], [level]);
      KeptLevelsSingle(level);
      if level.price.Unparsable? || level.size.Unparsable? {
        continue;
      }
      if level.price.Finite? && level.size.Finite? {
        out := out + [Level(level.price.value, level.size.value)];
      }
    }
    assert examined[..|examined|] == examined;
  }

  /** `sz for _, sz in items` */
  function SizesOf(items: seq<Level>): (r: seq<real>)
    ensures |r| == |items|
  {
    if items == [] then [] else SizesOf(items[..|items| - 1]) + [items[|items| - 1].size]
  }

  /** `p * sz for p, sz in items` */
  function NotionalsOf(items: seq<Level>): (r: seq<real>)
    ensures |r| == |items|
  {
    if items == [] then [] else NotionalsOf(items[..|items| - 1]) + [items[|items| - 1].price * items[|items| - 1].size]
  }

  /** Entry `i` of the size and notional columns comes from kept level `i`. */
  lemma {:induction false} LevelColumns(items: seq<Level>)
    ensures forall i :: 0 <= i < |items| ==> SizesOf(items)[i] == items[i].size
    ensures forall i :: 0 <= i < |items| ==> NotionalsOf(items)[i] == items[i].price * items[i].size
  {
    if items != [] {
      LevelColumns(items[..|items| - 1]);
    }
  }

  /**
   * `depth_weighted_avg`: 0.0 for no levels, the first price when the side
   * has no volume, otherwise the average that weighted by the volume gives
   * back the side's notional.
   */
  function DepthWeightedAvg(items: seq<Level>): (avg: real)
    ensures items == [] ==> avg == 0.0
    ensures items != [] && Sum(SizesOf(items)) == 0.0 ==> avg == items[0].price
    ensures Sum(SizesOf(items)) != 0.0 ==> avg * Sum(SizesOf(items)) == Sum(NotionalsOf(items))
  {
    if items == [] then 0.0
    else
      var totalVol := Sum(SizesOf(items));
      if totalVol == 0.0 then items[0].price
      else Sum(NotionalsOf(items)) / totalVol
  }

  predicate PricesWithin(items: seq<Level>, lo: real, hi: real)
  {
    forall i :: 0 <= i < |items| ==> lo <= items[i].price <= hi
  }

  predicate SizesNonNegative(items: seq<Level>)
  {
    forall i :: 0 <= i < |items| ==> 0.0 <= items[i].size
  }

  /** Splitting off the last level adds its size to the volume. */
  lemma SizesPeel(items: seq<Level>)
    requires items != []
    ensures Sum(SizesOf(items)) == Sum(SizesOf(items[..|items| - 1])) + items[|items| - 1].size
  {
    assert SizesOf(items)[..|items| - 1] == SizesOf(items[..|items| - 1]);
  }

  /** Splitting off the last level adds its price times size to the notional. */
  lemma NotionalsPeel(items: seq<Level>)
    requires items != []
    ensures Sum(NotionalsOf(items))
         == Sum(NotionalsOf(items[..|items| - 1])) + items[|items| - 1].price * items[|items| - 1].size
  {
    assert NotionalsOf(items)[..|items| - 1] == NotionalsOf(items[..|items| - 1]);
  }

  /** The price band and the size sign carry over to the levels before the last. */
  lemma BoundsPeel(items: seq<Level>, lo: real, hi: real)
    requires items != []
    requires PricesWithin(items, lo, hi) && SizesNonNegative(items)
    ensures PricesWithin(items[..|items| - 1], lo, hi) && SizesNonNegative(items[..|items| - 1])
  {
    assert forall i :: 0 <= i < |items| - 1 ==> items[..|items| - 1][i] == items[i];
  }

  /**
   * With non-negative sizes, the notional is at least `lo` times the volume;
   * both sums are handed back so that the product is taken of plain values.
   */
  lemma {:induction false} NotionalAtLeast(items: seq<Level>, lo: real, hi: real) returns (vol: real, notional: real)
    requires PricesWithin(items, lo, hi) && SizesNonNegative(items)
    ensures vol == Sum(SizesOf(items)) && notional == Sum(NotionalsOf(items))
    ensures lo * vol <= notional
  {
    vol, notional := Sum(SizesOf(items)), Sum(NotionalsOf(items));
    if items != [] {
      BoundsPeel(items, lo, hi);
      var vol0, notional0 := NotionalAtLeast(items[..|items| - 1], lo, hi);
      SizesPeel(items);
      NotionalsPeel(items);
      StepAtLeast(lo, vol0, notional0, items[|items| - 1].price, items[|items| - 1].size, vol, notional);
    }
  }

  /** With non-negative sizes, the notional is at most `hi` times the volume. */
  lemma {:induction false} NotionalAtMost(items: seq<Level>, lo: real, hi: real) returns (vol: real, notional: real)
    requires PricesWithin(items, lo, hi) && SizesNonNegative(items)
    ensures vol == Sum(SizesOf(items)) && notional == Sum(NotionalsOf(items))
    ensures notional <= hi * vol
  {
    vol, notional := Sum(SizesOf(items)), Sum(NotionalsOf(items));
    if items != [] {
      BoundsPeel(items, lo, hi);
      var vol0, notional0 := NotionalAtMost(items[..|items| - 1], lo, hi);
      SizesPeel(items);
      NotionalsPeel(items);
      StepAtMost(hi, vol0, notional0, items[|items| - 1].price, items[|items| - 1].size, vol, notional);
    }
  }

  /** A side with non-negative sizes has a non-negative total volume. */
  lemma VolumeNonNegative(items: seq<Level>)
    requires SizesNonNegative(items)
    ensures 0.0 <= Sum(SizesOf(items))
  {
    LevelColumns(items);
    SumNonNegative(SizesOf(items));
  }

  lemma StepAtLeast(lo: real, vol: real, notional: real, p: real, s: real, vol': real, notional': real)
    requires lo * vol <= notional && lo <= p && 0.0 <= s
    requires vol' == vol + s && notional' == notional + p * s
    ensures lo * vol' <= notional'
  {
    assert lo * (vol + s) == lo * vol + lo * s;
    assert (p - lo) * s == p * s - lo * s;
    assert 0.0 <= (p - lo) * s;
  }

  lemma StepAtMost(hi: real, vol: real, notional: real, p: real, s: real, vol': real, notional': real)
    requires notional <= hi * vol && p <= hi && 0.0 <= s
    requires vol' == vol + s && notional' == notional + p * s
    ensures notional' <= hi * vol'
  {
    assert hi * (vol + s) == hi * vol + hi * s;
    assert (hi - p) * s == hi * s - p * s;
    assert 0.0 <= (hi - p) * s;
  }

  /**
   * The depth-weighted average of a non-empty side whose sizes are
   * non-negative lies within the band of its prices.
   */
  lemma DepthWeightedAvgWithin(items: seq<Level>, lo: real, hi: real)
    requires items != []
    requires PricesWithin(items, lo, hi) && SizesNonNegative(items)
    ensures lo <= DepthWeightedAvg(items) <= hi
  {
    var vol, notional := NotionalAtLeast(items, lo, hi);
    var _, _ := NotionalAtMost(items, lo, hi);
    if vol != 0.0 {
      VolumeNonNegative(items);
      QuotientWithin(notional, vol, lo, hi);
    }
  }

  lemma QuotientWithin(num: real, den: real, lo: real, hi: real)
    requires 0.0 < den && lo * den <= num <= hi * den
    ensures lo <= num / den <= hi
  {
    assert (num / den) * den == num;
  }

  /** A side whose levels all quote one price has that price as its average. */
  lemma DepthWeightedAvgUniform(items: seq<Level>, p: real)
    requires items != []
    requires PricesWithin(items, p, p) && SizesNonNegative(items)
    ensures DepthWeightedAvg(items) == p
  {
    DepthWeightedAvgWithin(items, p, p);
  }

  /** The metrics part of `process_orderbook_snapshot`, given the kept levels of each side. */
  function Summarize(asks: seq<Level>, bids: seq<Level>): (r: Option<SnapshotSummary>)
    ensures r.None? <==> asks == [] || bids == []
  {
    if asks == [] || bids == [] then None
    else
      var bestAsk, bestBid := asks[0].price, bids[0].price;
      Some(SnapshotSummary(
        bestBid, bestAsk, bestAsk - bestBid, (bestAsk + bestBid) / 2.0,
        bids, asks,
        Sum(SizesOf(bids)), Sum(SizesOf(asks)),
        DepthWeightedAvg(bids), DepthWeightedAvg(asks)))
  }

  /**
   * `process_orderbook_snapshot(snapshot, top_n)`; `None` is the empty
   * dictionary it returns when a side has no usable level.
   */
  method ProcessOrderbookSnapshot(snapshot: RawBook, topN: int) returns (r: Option<SnapshotSummary>)
    ensures r == Summarize(KeptLevels(PyPrefix(snapshot.asks, topN)), KeptLevels(PyPrefix(snapshot.bids, topN)))
    ensures r.None? <==>
      || (forall i :: 0 <= i < |PyPrefix(snapshot.asks, topN)| ==> !Usable(snapshot.asks[i]))
      || (forall i :: 0 <= i < |PyPrefix(snapshot.bids, topN)| ==> !Usable(snapshot.bids[i]))
    ensures r.Some? && 0 <= topN ==> |r.value.asks| <= topN && |r.value.bids| <= topN
  {
    var asks := ToTuples(snapshot.asks, topN);
    var bids := ToTuples(snapshot.bids, topN);
    KeptLevelsEmptyIff(PyPrefix(snapshot.asks, topN));
    KeptLevelsEmptyIff(PyPrefix(snapshot.bids, topN));
    r := Summarize(asks, bids);
  }

  /**
   * What a summary states about its kept levels: best prices are the first
   * kept prices, spread and mid follow from them, the level lists are the
   * kept levels, totals are sums of kept sizes, each average is the
   * depth-weighted average of its side, and with non-negative sizes it lies
   * within that side's price band.
   */
  lemma SummaryFacts(asks: seq<Level>, bids: seq<Level>, lo: real, hi: real)
    requires asks != [] && bids != []
    ensures var s := Summarize(asks, bids).value;
      && s.bestAsk == asks[0].price && s.bestBid == bids[0].price
      && s.spread == s.bestAsk - s.bestBid
      && s.midPrice == (s.bestAsk + s.bestBid) / 2.0
      && s.totalAskVolume == Sum(SizesOf(asks)) && s.totalBidVolume == Sum(SizesOf(bids))
      && s.bids == bids && s.asks == asks
      && s.bidDwa == DepthWeightedAvg(bids) && s.askDwa == DepthWeightedAvg(asks)
      && (PricesWithin(bids, lo, hi) && SizesNonNegative(bids) ==> lo <= s.bidDwa <= hi)
      && (PricesWithin(asks, lo, hi) && SizesNonNegative(asks) ==> lo <= s.askDwa <= hi)
  {
    if PricesWithin(bids, lo, hi) && SizesNonNegative(bids) {
      DepthWeightedAvgWithin(bids, lo, hi);
    }
    if PricesWithin(asks, lo, hi) && SizesNonNegative(asks) {
      DepthWeightedAvgWithin(asks, lo, hi);
    }
  }

  /** There is no crossed-book check: a crossed snapshot is summarised with a negative spread. */
  lemma CrossedSnapshotAccepted()
    ensures var s := Summarize([Level(100.0, 1.0)], [Level(101.0, 1.0)]);
      s.Some? && s.value.spread == -1.0
  {
  }

  /** A level that does not parse is skipped, not fatal: the others are still summarised. */
  lemma UnparsableLevelSkipped(good: RawLevel, bad: RawLevel)
    requires Usable(good) && !Usable(bad)
    ensures KeptLevels([bad, good]) == [ToLevel(good)]
  {
    KeptLevelsAppend([bad], [good]);
    KeptLevelsSingle(bad);
    KeptLevelsSingle(good);
    assert [bad, good] == [bad] + [good];
  }
}
