/**
 * The SQS source test fixture: four pages chained by "token-1" to "token-3",
 * a CloudWatch stub that answers the queue metric request for each token, and
 * the five scenarios run against queue discovery.
 */
module SqsSourceTests {
  import opened Wrappers
  import opened CloudWatch
  import opened Paginator
  import opened QueueSource

  /** A page entry for the queue age metric of one queue. */
  function QueueMetric(queueName: string): Metric
  {
    Metric("ApproximateAgeOfOldestMessage", [Dimension("QueueName", queueName)])
  }

  /** The request the stub answers for `token`. */
  function StubRequest(token: Option<string>): ListMetricsRequest
  {
    ListMetricsRequest("ApproximateAgeOfOldestMessage", token)
  }

  /** The value of the only dimension of the only metric on `page`. */
  function SingleValue(page: ListMetricsResponse): string
    requires |page.metrics| == 1 && |page.metrics[0].dimensions| == 1
  {
    page.metrics[0].dimensions[0].value
  }

  /** The requests of a full walk over the four set-up pages. */
  function FourCalls(): seq<ListMetricsRequest>
  {
    [StubRequest(None), StubRequest(Some("token-1")), StubRequest(Some("token-2")), StubRequest(Some("token-3"))]
  }

  class Fixture {
    var firstPage: ListMetricsResponse
    var secondPage: ListMetricsResponse
    var thirdPage: ListMetricsResponse
    var fourthPage: ListMetricsResponse

    /** The pages are as the set-up step leaves them. */
    ghost predicate IsSetUp()
      reads this
    {
      && firstPage == ListMetricsResponse(Some("token-1"), [QueueMetric("Queue-1")])
      && secondPage == ListMetricsResponse(Some("token-2"), [QueueMetric("Queue-2")])
      && thirdPage == ListMetricsResponse(Some("token-3"), [QueueMetric("Queue-3")])
      && fourthPage == ListMetricsResponse(None, [QueueMetric("Queue-4_error")])
    }

    constructor ()
      ensures IsSetUp()
    {
      new;
      Setup();
    }

    /** Rebuilds the four pages before each scenario. */
    method Setup()
      modifies this
      ensures IsSetUp()
    {
      firstPage := ListMetricsResponse(Some("token-1"), [QueueMetric("Queue-1")]);
      secondPage := ListMetricsResponse(Some("token-2"), [QueueMetric("Queue-2")]);
      thirdPage := ListMetricsResponse(Some("token-3"), [QueueMetric("Queue-3")]);
      fourthPage := ListMetricsResponse(None, [QueueMetric("Queue-4_error")]);
    }

    /**
     * The stubbed CloudWatch client. It hands out the fixture's own pages, so
     * a scenario that changes a page after set-up changes what the stub
     * answers.
     */
    function CloudWatchStub(): MetricsClient
      reads this
    {
      map[StubRequest(None) := firstPage,
          StubRequest(Some("token-1")) := secondPage,
          StubRequest(Some("token-2")) := thirdPage,
          StubRequest(Some("token-3")) := fourthPage]
    }

    /** On the set-up pages the stub's answers form the four-request chain. */
    lemma SetUpPagesFormChain()
      requires IsSetUp()
      ensures IsChain(CloudWatchStub(), FourCalls())
      ensures forall r :: r in FourCalls() ==> r in CloudWatchStub()
      ensures EndsWithin(CloudWatchStub(), FirstRequest, 4)
    {
    }

    /** Four pages chained by tokens: four calls, four names in page order. */
    method MultiplePagesAllFetchedAndReturned() returns (result: seq<string>, calls: seq<ListMetricsRequest>)
      requires IsSetUp()
      ensures calls == FourCalls()
      ensures |result| == 4
      ensures result[0] == SingleValue(firstPage)
      ensures result[1] == SingleValue(secondPage)
      ensures result[2] == SingleValue(thirdPage)
      ensures result[3] == SingleValue(fourthPage)
    {
      SetUpPagesFormChain();
      OneNamePerChainedPage(CloudWatchStub(), FourCalls(), 4);
      var names;
      names, calls := GetResourceNames(CloudWatchStub(), 4);
      result := names.value;
    }

    /** A first page without a token: one call, one name. */
    method SinglePageFetchedAndReturned() returns (result: seq<string>, calls: seq<ListMetricsRequest>)
      requires IsSetUp()
      modifies this`firstPage
      ensures firstPage == old(firstPage).(nextToken := None)
      ensures calls == [StubRequest(None)]
      ensures |result| == 1
      ensures result[0] == SingleValue(firstPage)
    {
      firstPage := firstPage.(nextToken := None);
      var client := CloudWatchStub();
      assert client[FirstRequest] == firstPage;
      TokenlessFirstPageEndsDiscovery(client, 1);
      var names;
      names, calls := GetResourceNames(client, 1);
      result := names.value;
    }

    /** A first page without a token and without metrics: an empty list, not a failure. */
    method EmptyResultEmptyListReturned() returns (result: Result<seq<string>, DiscoveryError>)
      requires IsSetUp()
      modifies this`firstPage
      ensures firstPage == old(firstPage).(nextToken := None, metrics := [])
      ensures result == Success([])
    {
      firstPage := firstPage.(nextToken := None, metrics := []);
      var client := CloudWatchStub();
      assert client[FirstRequest] == firstPage;
      TokenlessFirstPageEndsDiscovery(client, 1);
      var calls;
      result, calls := GetResourceNames(client, 1);
    }

    /** A queue named only on the second page is found, under its own name, after the full walk. */
    method GetResourceReturnsCorrectResource() returns (result: AwsResource, calls: seq<ListMetricsRequest>)
      requires IsSetUp()
      ensures calls == FourCalls()
      ensures result.name == SingleValue(secondPage)
      ensures result.resource.name == SingleValue(secondPage)
    {
      var secondQueueName := SingleValue(secondPage);
      SetUpPagesFormChain();
      OneNamePerChainedPage(CloudWatchStub(), FourCalls(), 4);
      assert CloudWatchStub()[FourCalls()[1]] == secondPage;
      assert QueueNameOf(secondPage.metrics[0]) == Some(secondQueueName);
      assert DiscoveredNames(CloudWatchStub(), 4).value[1] == secondQueueName;
      var found;
      found, calls := GetResource(CloudWatchStub(), secondQueueName, 4);
      result := found.value.value;
    }

    /** The queue on the last page, "Queue-4_error", is found and flagged as an error queue. */
    method GetResourceCorrectlyPopulatesTheIsErrorField() returns (result: AwsResource)
      requires IsSetUp()
      ensures result.name == SingleValue(fourthPage)
      ensures result.resource.isErrorQueue
    {
      var fourthQueueName := SingleValue(fourthPage);
      SetUpPagesFormChain();
      OneNamePerChainedPage(CloudWatchStub(), FourCalls(), 4);
      assert fourthQueueName in DiscoveredNames(CloudWatchStub(), 4).value;
      assert IsErrorQueueName(fourthQueueName) by {
        assert fourthQueueName == "Queue-4" + ErrorQueueSuffix;
        ErrorQueueNameIsSuffixed(fourthQueueName);
      }
      var found, calls;
      found, calls := GetResource(CloudWatchStub(), fourthQueueName, 4);
      result := found.value.value;
    }
  }
}
