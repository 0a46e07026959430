/** The two Prometheus collectors of the HTTP service, reduced to the events
    a request produces and the label names each collector was registered
    with. Latency values themselves are not modelled. */
module Metrics {

  /** `Observe(labels)`: one observation on the `http_requests` summary;
      `Inc(labels)`: one increment of the `http_request_errors` counter. */
  datatype Metric = Observe(labels: map<string, string>) | Inc(labels: map<string, string>)

  /** Label names of the `http_requests` summary. */
  const SummaryLabelNames: set<string> := {"endpoint", "method"}

  /** Label names of the `http_request_errors` counter. */
  const CounterLabelNames: set<string> := {"endpoint", "method", "status"}

  /** Whether the collector accepts the event's labels: a vector's `With`
      panics unless the label names are exactly the registered ones. */
  predicate Accepted(m: Metric) {
    match m
    case Observe(labels) => labels.Keys == SummaryLabelNames
    case Inc(labels) => labels.Keys == CounterLabelNames
  }
}
