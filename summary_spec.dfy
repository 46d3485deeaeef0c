/**
 * The values a Summary reports, as functions of what has been observed.
 *
 * A quantile stream (a CKMS sketch in the source) is represented by the
 * sequence of values inserted into it. Its `query` is not modelled: it is a
 * parameter of type `Query`, about which nothing is assumed.
 */
module SummarySpec {

  datatype Option<T> = None | Some(value: T)

  /** The insert log of one quantile stream. */
  type Stream = seq<real>

  /**
   * The sketch's `query(q)` on a stream created with error `targetError`:
   * `Some((rank, value))` or `None` when it cannot answer quantile `q`.
   */
  type Query = (real, Stream, real) -> Option<(nat, real)>

  /** The all-time sum of a sequence of observations. */
  function Total(xs: seq<real>): real
  {
    if xs == [] then 0.0 else xs[0] + Total(xs[1..])
  }

  /** Observing one more value adds exactly that value to the total. */
  lemma {:induction false} TotalAppend(xs: seq<real>, v: real)
    ensures Total(xs + [v]) == Total(xs) + v
  {
    if xs != [] {
      assert (xs + [v])[1..] == xs[1..] + [v];
      TotalAppend(xs[1..], v);
    }
  }

  /** The total of two runs of observations is the sum of their totals. */
  lemma {:induction false} TotalConcat(xs: seq<real>, ys: seq<real>)
    ensures Total(xs + ys) == Total(xs) + Total(ys)
  {
    if xs == [] {
      assert xs + ys == ys;
    } else {
      assert (xs + ys)[1..] == xs[1..] + ys;
      TotalConcat(xs[1..], ys);
    }
  }

  /**
   * The (quantile, value) pairs reported for the target quantiles `ts`, in
   * order, leaving out the quantiles the stream cannot answer.
   */
  function Estimates(query: Query, targetError: real, stream: Stream, ts: seq<real>): (r: seq<(real, real)>)
    ensures |r| <= |ts|
  {
    if ts == [] then []
    else
      match query(targetError, stream, ts[0])
      case Some((_, v)) => [(ts[0], v)] + Estimates(query, targetError, stream, ts[1..])
      case None => Estimates(query, targetError, stream, ts[1..])
  }

  /** The target quantiles that the stream can answer, in order. */
  function Answerable(query: Query, targetError: real, stream: Stream, ts: seq<real>): seq<real>
  {
    if ts == [] then []
    else if query(targetError, stream, ts[0]).Some? then [ts[0]] + Answerable(query, targetError, stream, ts[1..])
    else Answerable(query, targetError, stream, ts[1..])
  }

  /** The quantile column of a list of reported pairs. */
  function Quantiles(ps: seq<(real, real)>): seq<real>
  {
    seq(|ps|, k requires 0 <= k < |ps| => ps[k].0)
  }

  /** Reporting on a list of targets that is split in two reports on each part in turn. */
  lemma {:induction false} EstimatesAppend(query: Query, targetError: real, stream: Stream, ts: seq<real>, us: seq<real>)
    ensures Estimates(query, targetError, stream, ts + us)
         == Estimates(query, targetError, stream, ts) + Estimates(query, targetError, stream, us)
  {
    if ts == [] {
      assert ts + us == us;
    } else {
      assert (ts + us)[0] == ts[0];
      assert (ts + us)[1..] == ts[1..] + us;
      EstimatesAppend(query, targetError, stream, ts[1..], us);
    }
  }

  /**
   * The quantiles reported are exactly the in-order subsequence of the
   * targets that the stream can answer.
   */
  lemma {:induction false} EstimatesQuantiles(query: Query, targetError: real, stream: Stream, ts: seq<real>)
    ensures Quantiles(Estimates(query, targetError, stream, ts)) == Answerable(query, targetError, stream, ts)
  {
    if ts != [] {
      EstimatesQuantiles(query, targetError, stream, ts[1..]);
      var tail := Estimates(query, targetError, stream, ts[1..]);
      if query(targetError, stream, ts[0]).Some? {
        var p := (ts[0], query(targetError, stream, ts[0]).value.1);
        assert Quantiles([p] + tail) == [ts[0]] + Quantiles(tail);
      }
    }
  }

  /** Every reported pair is a target quantile paired with the value the stream answers for it. */
  lemma {:induction false} EstimatesSound(query: Query, targetError: real, stream: Stream, ts: seq<real>, k: nat)
    requires k < |Estimates(query, targetError, stream, ts)|
    ensures var p := Estimates(query, targetError, stream, ts)[k];
      && p.0 in ts
      && query(targetError, stream, p.0).Some?
      && query(targetError, stream, p.0).value.1 == p.1
  {
    var skip := if query(targetError, stream, ts[0]).Some? then 1 else 0;
    if k >= skip {
      EstimatesSound(query, targetError, stream, ts[1..], k - skip);
    }
  }

  /** Every target quantile the stream can answer is reported, with the stream's value. */
  lemma {:induction false} EstimatesComplete(query: Query, targetError: real, stream: Stream, ts: seq<real>, q: real)
    requires q in ts && query(targetError, stream, q).Some?
    ensures (q, query(targetError, stream, q).value.1) in Estimates(query, targetError, stream, ts)
  {
    if ts[0] != q {
      EstimatesComplete(query, targetError, stream, ts[1..], q);
    }
  }

  /** Nothing is left out exactly when the stream answers every target quantile. */
  lemma {:induction false} EstimatesFull(query: Query, targetError: real, stream: Stream, ts: seq<real>)
    ensures |Estimates(query, targetError, stream, ts)| == |ts|
        <==> forall k :: 0 <= k < |ts| ==> query(targetError, stream, ts[k]).Some?
  {
    if ts != [] {
      EstimatesFull(query, targetError, stream, ts[1..]);
      assert forall k :: 1 <= k < |ts| ==> ts[k] == ts[1..][k - 1];
    }
  }
}
