/**
 * The part of the CloudWatch ListMetrics API that queue discovery uses,
 * reduced to plain records.
 */
module CloudWatch {
  import opened Wrappers

  /** A name/value pair that qualifies a metric, such as ("QueueName", "Queue-1"). */
  datatype Dimension = Dimension(name: string, value: string)

  /** One entry of a ListMetrics page. */
  datatype Metric = Metric(metricName: string, dimensions: seq<Dimension>)

  /** A ListMetrics request: the metric name filter and the continuation token (None is null). */
  datatype ListMetricsRequest = ListMetricsRequest(metricName: string, nextToken: Option<string>)

  /** One page of ListMetrics results and the token for the page after it (None is null). */
  datatype ListMetricsResponse = ListMetricsResponse(nextToken: Option<string>, metrics: seq<Metric>)

  /**
   * A CloudWatch client as discovery sees it: the response it gives to each
   * request it is set up to answer. A request outside the domain gets no page.
   */
  type MetricsClient = map<ListMetricsRequest, ListMetricsResponse>
}
