/** The OpenMetrics metric kinds a metric can declare for the exporter. */
module Metrics {

  /** The closed set of metric kinds; declared in the order of src/metrics.rs. */
  datatype MetricType = Counter | Gauge | Histogram | Info | Unknown | Summary

  /** The kind a metric declares when it does not name one itself. */
  const DefaultType: MetricType := Unknown
}
