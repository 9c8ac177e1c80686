/**
 * Queue discovery: the walk over ListMetrics for the queue age metric, one
 * queue name per metric (its "QueueName" dimension), and the QueueData built
 * for a name, flagged as an error queue by its name.
 */
module QueueSource {
  import opened Wrappers
  import opened CloudWatch
  import opened Paginator

  /** The metric every request filters on. */
  const QueueMetricName := "ApproximateAgeOfOldestMessage"

  /** The dimension whose value is a queue's name. */
  const QueueNameDimension := "QueueName"

  /** The marker that ends the name of an error (dead-letter) queue. */
  const ErrorQueueSuffix := "_error"

  /** The request that opens every walk: the queue metric and no token. */
  const FirstRequest := ListMetricsRequest(QueueMetricName, None)

  /** The value of the first dimension named `key`, if any. */
  function DimensionValue(dimensions: seq<Dimension>, key: string): (v: Option<string>)
    ensures v.None? <==> forall i :: 0 <= i < |dimensions| ==> dimensions[i].name != key
    ensures v.Some? ==> exists i :: 0 <= i < |dimensions| && dimensions[i] == Dimension(key, v.value)
                                      && forall j :: 0 <= j < i ==> dimensions[j].name != key
  {
    if dimensions == [] then None
    else if dimensions[0].name == key then Some(dimensions[0].value)
    else
      var v := DimensionValue(dimensions[1..], key);
      assert v.Some? ==> exists i :: 0 <= i < |dimensions[1..]| && dimensions[1..][i] == Dimension(key, v.value)
                                      && forall j :: 0 <= j < i ==> dimensions[1..][j].name != key;
      v
  }

  /** The queue name a metric identifies. */
  function QueueNameOf(metric: Metric): Option<string>
  {
    DimensionValue(metric.dimensions, QueueNameDimension)
  }

  /** Why discovery failed: the walk was aborted, or a metric names no queue. */
  datatype DiscoveryError = ListMetricsFailed(cause: FetchError) | MissingQueueName(position: nat)

  /**
   * One queue name per metric, in the metrics' order; the first metric
   * without a "QueueName" dimension fails the whole call.
   */
  function QueueNames(metrics: seq<Metric>): (r: Result<seq<string>, DiscoveryError>)
    ensures r.Success? <==> forall i :: 0 <= i < |metrics| ==> QueueNameOf(metrics[i]).Some?
    ensures r.Success? ==> |r.value| == |metrics|
                           && forall i :: 0 <= i < |metrics| ==> QueueNameOf(metrics[i]) == Some(r.value[i])
    ensures r.Failure? ==> && r.error.MissingQueueName?
                           && r.error.position < |metrics|
                           && QueueNameOf(metrics[r.error.position]).None?
                           && forall i :: 0 <= i < r.error.position ==> QueueNameOf(metrics[i]).Some?
  {
    if metrics == [] then Success([])
    else match QueueNameOf(metrics[0])
      case None => Failure(MissingQueueName(0))
      case Some(name) =>
        match QueueNames(metrics[1..])
        case Success(rest) => Success([name] + rest)
        case Failure(e) => Failure(MissingQueueName(e.position + 1))
  }

  /** The names discovery reports for `client`, as a function of its answers. */
  function DiscoveredNames(client: MetricsClient, pages: nat): Result<seq<string>, DiscoveryError>
    requires EndsWithin(client, FirstRequest, pages)
  {
    match Walk(client, FirstRequest, pages).outcome
    case Success(metrics) => QueueNames(metrics)
    case Failure(e) => Failure(ListMetricsFailed(e))
  }

  /** The name convention of error queues. */
  predicate IsErrorQueueName(name: string)
  {
    |name| >= |ErrorQueueSuffix| && name[|name| - |ErrorQueueSuffix|..] == ErrorQueueSuffix
  }

  /** A queue as discovery describes it. */
  datatype QueueData = QueueData(name: string, isErrorQueue: bool)

  /** A discovered resource: its name and the queue it stands for. */
  datatype AwsResource = AwsResource(name: string, resource: QueueData)

  /** The resource discovery builds for the queue `name`. */
  function QueueResource(name: string): AwsResource
  {
    AwsResource(name, QueueData(name, IsErrorQueueName(name)))
  }

  /** A name is an error-queue name exactly when it is some name followed by "_error". */
  lemma ErrorQueueNameIsSuffixed(name: string)
    ensures IsErrorQueueName(name) <==> exists base :: name == base + ErrorQueueSuffix
  {
    if IsErrorQueueName(name) {
      var base := name[..|name| - |ErrorQueueSuffix|];
      assert name == base + ErrorQueueSuffix;
    }
    forall base | name == base + ErrorQueueSuffix
      ensures IsErrorQueueName(name)
    {
      assert name[|name| - |ErrorQueueSuffix|..] == ErrorQueueSuffix;
    }
  }

  /**
   * Every request carries the queue metric name; the first has no token and
   * each later one echoes the previous response's NextToken; no request is
   * repeated; and on success the names follow the pages' arrival order.
   */
  lemma DiscoveryWalksTheTokenChain(client: MetricsClient, pages: nat)
    requires EndsWithin(client, FirstRequest, pages)
    ensures var t := Walk(client, FirstRequest, pages);
      && t.requests[0] == ListMetricsRequest(QueueMetricName, None)
      && (forall r :: r in t.requests ==> r.metricName == QueueMetricName)
      && (forall i :: 0 <= i < |t.requests| - 1 ==>
            t.requests[i] in client && t.requests[i + 1].nextToken == client[t.requests[i]].nextToken)
      && (forall i, j :: 0 <= i < j < |t.requests| ==> t.requests[i] != t.requests[j])
      && (DiscoveredNames(client, pages).Success? ==>
            && (forall r :: r in t.requests ==> r in client)
            && DiscoveredNames(client, pages) == QueueNames(ConcatMetrics(PagesOf(client, t.requests))))
  {
    var t := Walk(client, FirstRequest, pages);
    WalkFollowsChain(client, FirstRequest, pages);
    ChainVisitsEachRequestOnce(client, t.requests);
    forall i | 0 <= i < |t.requests| - 1
      ensures t.requests[i] in client && t.requests[i + 1].nextToken == client[t.requests[i]].nextToken
    {
      assert Linked(client, t.requests[i], t.requests[i + 1]);
    }
  }

  /**
   * When the client's pages are chained by tokens, each page holding one
   * metric, discovery makes one call per page and reports one name per page:
   * name i is the "QueueName" value on page i + 1.
   */
  lemma OneNamePerChainedPage(client: MetricsClient, requests: seq<ListMetricsRequest>, pages: nat)
    requires IsChain(client, requests) && requests[0] == FirstRequest
    requires forall r :: r in requests ==> r in client
    requires forall i :: 0 <= i < |requests| ==> |client[requests[i]].metrics| == 1
    requires forall i :: 0 <= i < |requests| ==> QueueNameOf(client[requests[i]].metrics[0]).Some?
    ensures EndsWithin(client, FirstRequest, |requests|)
    ensures EndsWithin(client, FirstRequest, pages) ==>
      && Walk(client, FirstRequest, pages).requests == requests
      && DiscoveredNames(client, pages).Success?
      && |DiscoveredNames(client, pages).value| == |requests|
      && forall i :: 0 <= i < |requests| ==>
           QueueNameOf(client[requests[i]].metrics[0]) == Some(DiscoveredNames(client, pages).value[i])
  {
    WalkIsTheChain(client, requests, pages);
    var ps := PagesOf(client, requests);
    ConcatMetricsSingletons(ps);
  }

  /**
   * A first page without a token ends discovery after one call, whatever the
   * client would answer later; with no metrics on it the result is an empty
   * list, not a failure.
   */
  lemma TokenlessFirstPageEndsDiscovery(client: MetricsClient, pages: nat)
    requires FirstRequest in client && Continuation(client[FirstRequest]).None?
    requires pages > 0
    ensures EndsWithin(client, FirstRequest, pages)
    ensures Walk(client, FirstRequest, pages).requests == [FirstRequest]
    ensures DiscoveredNames(client, pages) == QueueNames(client[FirstRequest].metrics)
    ensures client[FirstRequest].metrics == [] ==> DiscoveredNames(client, pages) == Success([])
  {
  }

  /** Lists every queue name, one per metric, in page arrival order. */
  method GetResourceNames(client: MetricsClient, ghost pages: nat)
    returns (names: Result<seq<string>, DiscoveryError>, requests: seq<ListMetricsRequest>)
    requires EndsWithin(client, FirstRequest, pages)
    ensures names == DiscoveredNames(client, pages)
    ensures requests == Walk(client, FirstRequest, pages).requests
  {
    var metrics;
    metrics, requests := ListAllMetrics(client, QueueMetricName, pages);
    match metrics
    case Success(ms) => names := QueueNames(ms);
    case Failure(e) => names := Failure(ListMetricsFailed(e));
  }

  /**
   * Looks `name` up after the full walk: found exactly when discovery
   * reports it, and then the resource and its queue carry that name and the
   * queue is an error queue exactly when the name says so.
   */
  method GetResource(client: MetricsClient, name: string, ghost pages: nat)
    returns (found: Result<Option<AwsResource>, DiscoveryError>, requests: seq<ListMetricsRequest>)
    requires EndsWithin(client, FirstRequest, pages)
    ensures requests == Walk(client, FirstRequest, pages).requests
    ensures found.Success? <==> DiscoveredNames(client, pages).Success?
    ensures found.Failure? ==> found.error == DiscoveredNames(client, pages).error
    ensures found.Success? ==> (found.value.Some? <==> name in DiscoveredNames(client, pages).value)
    ensures found.Success? && found.value.Some? ==>
      && found.value.value.name == name
      && found.value.value.resource.name == name
      && found.value.value.resource.isErrorQueue == IsErrorQueueName(name)
  {
    var names;
    names, requests := GetResourceNames(client, pages);
    match names
    case Failure(e) => found := Failure(e);
    case Success(all) =>
      if name in all {
        found := Success(Some(QueueResource(name)));
      } else {
        found := Success(None);
      }
  }
}
