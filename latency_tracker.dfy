/**
 * `LatencyTracker`: a bounded window of latency samples with its mean and
 * maximum.
 */
module LatencyTracking {
  import opened Common
  import opened Window

  /** Python's `max(xs)` on a non-empty sequence: keep the running maximum, left to right. */
  function MaxOf(xs: seq<real>): (m: real)
    requires xs != []
    ensures exists i :: 0 <= i < |xs| && xs[i] == m
    ensures forall i :: 0 <= i < |xs| ==> xs[i] <= m
  {
    if |xs| == 1 then xs[0]
    else
      var rest := MaxOf(xs[..|xs| - 1]);
      if xs[|xs| - 1] > rest then xs[|xs| - 1] else rest
  }

  /** `sum(xs) / len(xs)`: the value that, taken once per sample, adds up to the sum. */
  function Mean(xs: seq<real>): (mean: real)
    requires xs != []
    ensures mean * (|xs| as real) == Sum(xs)
  {
    Sum(xs) / (|xs| as real)
  }

  /** The mean of a non-empty window never exceeds its maximum. */
  lemma MeanAtMostMax(xs: seq<real>)
    requires xs != []
    ensures Mean(xs) <= MaxOf(xs)
  {
    SumAtMost(xs, MaxOf(xs));
    QuotientAtMost(Sum(xs), |xs| as real, MaxOf(xs));
  }

  lemma QuotientAtMost(num: real, den: real, bound: real)
    requires 0.0 < den && num <= den * bound
    ensures num / den <= bound
  {
    assert (num / den) * den == num;
    assert (num / den - bound) * den == num - bound * den;
  }

  class LatencyTracker {
    const maxSamples: nat
    var latencies: seq<real>
    /** Every sample added since construction or the last `clear`, oldest first. */
    ghost var samples: seq<real>

    ghost predicate Valid()
      reads this
    {
      latencies == LastN(samples, maxSamples)
    }

    constructor (maxSamples: nat)
      ensures Valid() && this.maxSamples == maxSamples
      ensures latencies == [] && samples == []
    {
      this.maxSamples := maxSamples;
      latencies := [];
      samples := [];
    }

    /** `add_latency`: append, dropping the oldest sample once the window is full. */
    method AddLatency(latencyMs: real)
      requires Valid()
      modifies this
      ensures Valid()
      ensures samples == old(samples) + [latencyMs]
      ensures latencies == Append(old(latencies), latencyMs, maxSamples)
      ensures |latencies| <= maxSamples
      ensures maxSamples > 0 ==> latencies[|latencies| - 1] == latencyMs
    {
      AppendKeepsLastN(samples, latencyMs, maxSamples);
      AppendEndsWith(latencies, latencyMs, maxSamples);
      latencies := Append(latencies, latencyMs, maxSamples);
      samples := samples + [latencyMs];
    }

    /** `average_latency`: 0.0 for an empty window, otherwise the mean, which is at most the maximum. */
    function AverageLatency(): (r: real)
      reads this
      ensures latencies == [] ==> r == 0.0
      ensures latencies != [] ==> r == Mean(latencies) && r <= MaxLatency()
    {
      if latencies == [] then 0.0
      else
        MeanAtMostMax(latencies);
        Mean(latencies)
    }

    /** `max_latency`: 0.0 for an empty window, otherwise its largest sample. */
    function MaxLatency(): (r: real)
      reads this
      ensures latencies == [] ==> r == 0.0
      ensures latencies != [] ==>
        && (exists i :: 0 <= i < |latencies| && latencies[i] == r)
        && (forall i :: 0 <= i < |latencies| ==> latencies[i] <= r)
    {
      if latencies == [] then 0.0 else MaxOf(latencies)
    }

    /** `clear`: empty the window; both statistics are 0.0 afterwards. */
    method Clear()
      modifies this
      ensures Valid()
      ensures latencies == [] && samples == []
      ensures AverageLatency() == 0.0 && MaxLatency() == 0.0
    {
      latencies := [];
      samples := [];
    }

    /** The window never exceeds its bound and holds the most recent samples in order. */
    lemma RecentSamples()
      requires Valid()
      ensures |latencies| <= maxSamples
      ensures |latencies| == maxSamples || latencies == samples
      ensures forall i :: 0 <= i < |latencies| ==> latencies[i] == samples[|samples| - |latencies| + i]
    {
    }
  }
}
