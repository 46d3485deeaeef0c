# Summary metric model

A Dafny model of the OpenMetrics **Summary** metric of the `client_rust`
metrics library (`src/metrics/summary.rs`). A Summary keeps three things:

- an all-time `sum` and `count` of the observed values;
- one quantile stream per "max age bucket";
- a cursor `head_stream` naming the stream that quantile reads consult.

`observe` adds a value to the sum, counts it and inserts it into every
stream. `get` returns the sum, the count and the `(quantile, value)` pairs
that the head stream can answer for the configured target quantiles. Cloning
a Summary copies its configuration but shares the inner state, so an
observation made through any handle is seen through every handle.

Files:

- `metrics.dfy` (module `Metrics`): the `MetricType` kinds and the default
  kind `Unknown` a metric declares when it names none.
- `summary_spec.dfy` (module `SummarySpec`): a quantile stream is modelled as
  the sequence of values inserted into it (`Stream`). The sketch's query is a
  parameter `query: Query` about which nothing is assumed. The file defines
  the all-time total (`Total`) and the pairs a read reports (`Estimates`),
  with the lemmas about them.
- `summary.dfy` (module `SummaryMetric`): `InnerSummary`, the shared state
  (`sum`, `count`, `quantileStreams`, `headStream`), and `Summary`, a handle
  whose configuration is constant and whose `inner` reference is shared by
  its clones. `InnerSummary.Valid()` is the invariant every operation keeps:
  - `count` is the number of observations;
  - `sum` is their total;
  - `headStream` is 0;
  - every stream holds every observation.
  `SummaryMetric.Type` is the kind the Summary declares (`Summary`).
- `summary_tests.dfy` (module `SummaryTests`): client scenarios proved from
  the contracts alone, including the scenario of the source's unit test.

Two properties of the code shape the model:

- The code has no time-based rotation (the TODO at
  `src/metrics/summary.rs:81`). `head_stream` is set to 0 and never written
  again, so the model keeps `headStream == 0` as an invariant. Every bucket
  receives every observation and none is ever reset, so every stream holds
  the whole history. `Get` states that the reported quantiles are those of
  the whole history, with no time window.
- `Summary::new` validates none of its arguments: zero buckets, any quantile
  and any target error are accepted, and the model's constructor accepts
  them too. `get` indexes the head stream once per target quantile, so with
  zero buckets that index is out of range only when there is at least one
  target quantile. `Get` therefore requires `0 < maxAgeBuckets` or no target
  quantiles.

## Model

| member | source | states |
|---|---|---|
| `SummaryMetric.Summary.constructor` | src/metrics/summary.rs:43-61 | creates exactly `maxAgeBuckets` streams, each empty; sum 0, count 0, head 0; stores the configuration unchanged; the invariant holds with no observations |
| `SummaryMetric.InnerSummary.constructor` | src/metrics/summary.rs:54-59 | the shared state starts with zero sum and count, head 0 and the given empty streams, and satisfies the invariant |
| `SummaryMetric.Summary.Observe` | src/metrics/summary.rs:63-72 | count grows by exactly one and sum by `v`; `v` is appended to every stream's insert log and to nothing else; the number of streams and the head are unchanged; the invariant is kept |
| `SummaryMetric.Summary.Get` | src/metrics/summary.rs:74-89 | changes nothing; callable unless the summary has no streams but has target quantiles; returns the all-time sum and count (the total and number of all observations) and exactly `Estimates` of the whole observation history, which is `Estimates` of the head stream whenever there is one |
| `SummaryMetric.Summary.Clone` | src/metrics/summary.rs:21-31 | the clone is a new handle with equal configuration and the very same shared inner state |
| `SummaryMetric.Summary.Share` | src/metrics/summary.rs:23-29 | a handle built from another one has its configuration and refers to its inner state |
| `SummarySpec.Estimates` | src/metrics/summary.rs:82-87 | the reported list is never longer than the list of target quantiles |
| `SummarySpec.EstimatesAppend` | src/metrics/summary.rs:82-87 | reporting on two runs of targets in turn gives the concatenation of the two reports, so the read loop may build its result one target at a time |
| `SummarySpec.EstimatesQuantiles` | src/metrics/summary.rs:82-87 | the quantiles in the report are exactly the in-order subsequence of the targets that the stream can answer |
| `SummarySpec.EstimatesSound` | src/metrics/summary.rs:83-84 | every reported pair is a target quantile paired with the value the stream answers for it |
| `SummarySpec.EstimatesComplete` | src/metrics/summary.rs:83-85 | every target quantile the stream can answer is reported with the stream's value; only unanswerable ones are skipped |
| `SummarySpec.EstimatesFull` | src/metrics/summary.rs:82-87 | the report has one pair per target exactly when the stream answers every target |
| `SummarySpec.TotalAppend` | src/metrics/summary.rs:65 | adding one observation adds exactly its value to the all-time total |
| `SummarySpec.TotalConcat` | src/metrics/summary.rs:65 | the total of two runs of observations is the sum of their totals |
| `SummaryTests.Basic` | src/metrics/summary.rs:103-111 | with 5 buckets and targets 0.5, 0.9 and 0.99, observing 5, 15 and 25 reads back sum 45 and count 3; the quantiles are what a stream holding those three values answers |
| `SummaryTests.ObserveThroughClone` | src/metrics/summary.rs:28 | a value observed through a clone is read back through the original handle: count 1, sum the value |
| `SummaryTests.NoBucketsNoTargets` | src/metrics/summary.rs:43-47 | a summary built with zero buckets and no target quantiles can be observed and read: it reports the sum and count and an empty quantile list |
| `SummaryTests.ObserveAll` | src/metrics/summary.rs:63-72 | observing N values in sequence adds N to the count and their total to the sum; the head stays 0 |

## Left out

- The `Arc<Mutex<…>>` lock and lock poisoning: the model runs the operations as sequential calls on one shared object.
- The CKMS sketch's internals and error bounds: a stream is its insert log, and `query` is an arbitrary function of the target error, the log and the quantile. Nothing is claimed about which values it returns or how accurate they are.
- Floating-point rounding: `sum` is a `real` and accumulates exactly.
- `maxAgeSeconds` and time-based bucket rotation: the value is stored but never used, and the source has no rotation.
- `SummaryMetric.Summary.Observe`: the `u64` counter is a `nat`. `Observe` requires `count < 2^64 - 1` instead of modelling the overflow of `count += 1`.
- `TypedMetric` is a trait with an associated constant. The model states it as the constants `Metrics.DefaultType` and `SummaryMetric.Type`, since it has no behaviour.
- The unit test's printing of the quantile pairs.
