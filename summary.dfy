/**
 * The OpenMetrics Summary metric: an all-time sum and count of observed
 * values plus one quantile stream per "max age bucket", of which only the
 * head stream is read.
 *
 * The lock around the shared state is not modelled: every handle refers to
 * one `InnerSummary` object and the operations are sequential method calls
 * on it.
 */
module SummaryMetric {
  import Metrics
  import opened SummarySpec

  /** The largest value of the source's `u64` counter. */
  const MaxU64: nat := 0xFFFF_FFFF_FFFF_FFFF

  /** The metric kind a Summary declares. */
  const Type: Metrics.MetricType := Metrics.MetricType.Summary

  /** The state that every clone of a Summary shares. */
  class InnerSummary {
    var sum: real
    var count: nat
    var quantileStreams: seq<Stream>
    /** The index of the stream that is queried. */
    var headStream: nat

    /** Every value observed so far, in order. */
    ghost var observed: seq<real>

    /**
     * Sum and count are the total and the length of the observations; no
     * stream is ever rotated, so the head stays at 0 and every stream holds
     * every observation.
     */
    ghost predicate Valid()
      reads this
    {
      && count == |observed|
      && sum == Total(observed)
      && headStream == 0
      && forall i :: 0 <= i < |quantileStreams| ==> quantileStreams[i] == observed
    }

    constructor (streams: seq<Stream>)
      requires forall i :: 0 <= i < |streams| ==> streams[i] == []
      ensures Valid() && observed == []
      ensures sum == 0.0 && count == 0 && headStream == 0 && quantileStreams == streams
    {
      sum := 0.0;
      count := 0;
      quantileStreams := streams;
      headStream := 0;
      observed := [];
    }
  }

  /** A handle on a Summary: its configuration and the shared state. */
  class Summary {
    const targetQuantile: seq<real>
    const targetError: real
    const maxAgeBuckets: nat
    const maxAgeSeconds: nat
    const inner: InnerSummary

    ghost predicate Valid()
      reads inner
    {
      inner.Valid() && |inner.quantileStreams| == maxAgeBuckets
    }

    /** Creates `maxAgeBuckets` empty streams and zeroes sum, count and head. */
    constructor (maxAgeBuckets: nat, maxAgeSeconds: nat, targetQuantile: seq<real>, targetError: real)
      ensures Valid() && fresh(inner)
      ensures this.maxAgeBuckets == maxAgeBuckets && this.maxAgeSeconds == maxAgeSeconds
      ensures this.targetQuantile == targetQuantile && this.targetError == targetError
      ensures |inner.quantileStreams| == maxAgeBuckets
      ensures forall i :: 0 <= i < maxAgeBuckets ==> inner.quantileStreams[i] == []
      ensures inner.sum == 0.0 && inner.count == 0 && inner.headStream == 0
      ensures inner.observed == []
    {
      var streams: seq<Stream> := [];
      for b := 0 to maxAgeBuckets
        invariant |streams| == b
        invariant forall i :: 0 <= i < |streams| ==> streams[i] == []
      {
        streams := streams + [[]];
      }
      this.maxAgeBuckets := maxAgeBuckets;
      this.maxAgeSeconds := maxAgeSeconds;
      this.targetQuantile := targetQuantile;
      this.targetError := targetError;
      inner := new InnerSummary(streams);
    }

    /** A new handle with the same configuration on the same shared state. */
    method Clone() returns (c: Summary)
      ensures fresh(c)
      ensures c.inner == inner
      ensures c.targetQuantile == targetQuantile && c.targetError == targetError
      ensures c.maxAgeBuckets == maxAgeBuckets && c.maxAgeSeconds == maxAgeSeconds
    {
      c := new Summary.Share(this);
    }

    /** The handle `Clone` builds: `other`'s configuration and `other`'s state. */
    constructor Share(other: Summary)
      ensures inner == other.inner
      ensures targetQuantile == other.targetQuantile && targetError == other.targetError
      ensures maxAgeBuckets == other.maxAgeBuckets && maxAgeSeconds == other.maxAgeSeconds
    {
      targetQuantile := other.targetQuantile;
      targetError := other.targetError;
      maxAgeBuckets := other.maxAgeBuckets;
      maxAgeSeconds := other.maxAgeSeconds;
      inner := other.inner;
    }

    /** Adds `v` to the sum, counts it, and inserts it into every stream. */
    method Observe(v: real)
      requires Valid()
      requires inner.count < MaxU64
      modifies inner
      ensures Valid()
      ensures inner.count == old(inner.count) + 1
      ensures inner.sum == old(inner.sum) + v
      ensures inner.observed == old(inner.observed) + [v]
      ensures inner.headStream == old(inner.headStream)
      ensures |inner.quantileStreams| == |old(inner.quantileStreams)|
      ensures forall i :: 0 <= i < |inner.quantileStreams| ==>
                inner.quantileStreams[i] == old(inner.quantileStreams[i]) + [v]
    {
      TotalAppend(inner.observed, v);
      inner.sum := inner.sum + v;
      inner.count := inner.count + 1;
      inner.observed := inner.observed + [v];

      var n := |inner.quantileStreams|;
      for i := 0 to n
        modifies inner`quantileStreams
        invariant |inner.quantileStreams| == n
        invariant forall j :: 0 <= j < i ==> inner.quantileStreams[j] == old(inner.quantileStreams[j]) + [v]
        invariant forall j :: i <= j < n ==> inner.quantileStreams[j] == old(inner.quantileStreams[j])
      {
        inner.quantileStreams := inner.quantileStreams[i := inner.quantileStreams[i] + [v]];
      }
    }

    /**
     * The all-time sum and count, and the (quantile, value) pairs the head
     * stream answers for the target quantiles, in order. `query` is the
     * streams' quantile query. The head stream is indexed once per target
     * quantile, so a summary without streams can be read only when it has no
     * target quantiles.
     */
    method Get(query: Query) returns (sum: real, count: nat, quantileValues: seq<(real, real)>)
      requires Valid()
      requires 0 < maxAgeBuckets || targetQuantile == []
      ensures sum == inner.sum == Total(inner.observed)
      ensures count == inner.count == |inner.observed|
      ensures 0 < maxAgeBuckets ==>
                quantileValues == Estimates(query, targetError, inner.quantileStreams[inner.headStream], targetQuantile)
      ensures quantileValues == Estimates(query, targetError, inner.observed, targetQuantile)
    {
      sum := inner.sum;
      count := inner.count;
      var head := inner.headStream;
      quantileValues := [];
      for i := 0 to |targetQuantile|
        invariant quantileValues == Estimates(query, targetError, inner.observed, targetQuantile[..i])
      {
        var q := targetQuantile[i];
        EstimatesAppend(query, targetError, inner.observed, targetQuantile[..i], [q]);
        assert targetQuantile[..i + 1] == targetQuantile[..i] + [q];
        match query(targetError, inner.quantileStreams[head], q)
        case Some((_, v)) =>
          quantileValues := quantileValues + [(q, v)];
        case None =>
      }
      assert targetQuantile[..|targetQuantile|] == targetQuantile;
    }
  }
}
