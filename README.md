# SQS queue discovery through CloudWatch ListMetrics

AwsWatchman finds SQS queues without calling SQS. It lists the CloudWatch
metrics named `ApproximateAgeOfOldestMessage` and reads each metric's
`QueueName` dimension. `QueueSource` walks the ListMetrics pages. The first
request carries no `NextToken`. Each later request echoes the previous
response's `NextToken` verbatim. The walk stops at a response without a token.
`GetResourceNamesAsync` returns one name per metric, in page arrival order.
`GetResourceAsync(name)` returns a resource whose name and `QueueData` name
are `name`, with an `IsErrorQueue` flag.

The model follows the NUnit fixture
`Watchman.AwsResources.Tests/Services/Sqs/SqsSourceTests.cs`. The code of
`QueueSource` itself is not modelled. What the fixture's stub and assertions
fix is stated as proved properties. Where the fixture leaves the behaviour
open, the model makes a choice, and "## Left out" names each such choice.

Files:

- `wrappers.dfy`: `Option` and `Result`.
- `cloud_watch.dfy`: the ListMetrics records (`Dimension`, `Metric`,
  `ListMetricsRequest`, `ListMetricsResponse`). A CloudWatch client is a
  `map` from request to response. This mirrors the Moq setups, which match on
  both the metric name and the token.
- `paginator.dfy`: the walk. `Walk` is the specification function. `IsChain`
  is an independent reference definition of a complete walk. The lemmas
  connect the two in both directions. `ListAllMetrics` is the imperative loop
  (one request per page, token carried forward, metrics appended, request log
  kept), proved equal to `Walk`.
- `queue_source.dfy`: name extraction, the error-queue classifier,
  `GetResourceNames` and `GetResource`, and lemmas about what discovery
  reports.
- `sqs_source_tests.dfy`: the fixture as a class. Its four page fields are
  rebuilt by `Setup` and changed in place by two scenarios. The stub
  (`CloudWatchStub`) is a function of the current fields. This captures that
  the Moq stub returns the fixture's own page objects, so a later change to a
  page is visible through the stub. The five scenarios are methods whose
  `ensures` are the test's assertions.

Termination: the source has no page cap. Every walk therefore takes a ghost
bound `pages` and requires `EndsWithin(client, first, pages)`, which says that
the provider ends the token chain within that many requests.
`ChainEnds` shows that every finite token chain meets this requirement.

## Model

| member | source | states |
|---|---|---|
| Paginator.Walk | Watchman.AwsResources.Tests/Services/Sqs/SqsSourceTests.cs:110-128 | a walk that ends within `pages` requests issues at least one and at most `pages` requests, and the first is the request it started from |
| Paginator.WalkFollowsChain | Watchman.AwsResources.Tests/Services/Sqs/SqsSourceTests.cs:110-128 | the walk's requests form a token chain and all carry the first request's metric name; it succeeds exactly when the last request was answered; an unanswered request aborts it with that request as the error; on success it has collected every page's metrics in arrival order |
| Paginator.ChainIsUnique | Watchman.AwsResources.Tests/Services/Sqs/SqsSourceTests.cs:110-128 | two token chains from the same first request are equal: each page fixes the next request |
| Paginator.ChainVisitsEachRequestOnce | Watchman.AwsResources.Tests/Services/Sqs/SqsSourceTests.cs:110-128 | no request in a complete walk is issued twice, so no page is fetched twice |
| Paginator.ChainEnds | Watchman.AwsResources.Tests/Services/Sqs/SqsSourceTests.cs:125-128 | a token chain of N requests whose last page has no token ends the walk within N requests |
| Paginator.WalkIsTheChain | Watchman.AwsResources.Tests/Services/Sqs/SqsSourceTests.cs:134-147 | when the pages form a chain of N answered requests, the walk issues exactly those N requests and returns the concatenation of their metrics in page order |
| Paginator.ConcatMetricsSingletons | Watchman.AwsResources.Tests/Services/Sqs/SqsSourceTests.cs:144-147 | with one metric per page, the collected metrics number one per page and metric i is the one on page i + 1 |
| Paginator.ListAllMetrics | Watchman.AwsResources.Tests/Services/Sqs/SqsSourceTests.cs:110-128 | the loop's request log and result are exactly those of `Walk` from the tokenless first request |
| QueueSource.DimensionValue | Watchman.AwsResources.Tests/Services/Sqs/SqsSourceTests.cs:37-41 | absent exactly when no dimension has the key; otherwise the value of the first dimension with that key |
| QueueSource.QueueNames | Watchman.AwsResources.Tests/Services/Sqs/SqsSourceTests.cs:142-147 | succeeds exactly when every metric has a `QueueName` dimension, and then gives one name per metric, name i being metric i's `QueueName` value; otherwise fails at the first metric without one |
| QueueSource.ErrorQueueNameIsSuffixed | Watchman.AwsResources.Tests/Services/Sqs/SqsSourceTests.cs:97 | a name is classified as an error queue exactly when it is some name followed by `_error` |
| QueueSource.DiscoveryWalksTheTokenChain | Watchman.AwsResources.Tests/Services/Sqs/SqsSourceTests.cs:110-128 | every request carries `ApproximateAgeOfOldestMessage`; the first has no token; each later one carries the previous response's `NextToken`; no request repeats; on success the names are those of the pages' metrics in arrival order |
| QueueSource.OneNamePerChainedPage | Watchman.AwsResources.Tests/Services/Sqs/SqsSourceTests.cs:134-147 | with N token-chained pages of one metric each, discovery makes N calls and reports N names, name i being the `QueueName` value on page i + 1 |
| QueueSource.TokenlessFirstPageEndsDiscovery | Watchman.AwsResources.Tests/Services/Sqs/SqsSourceTests.cs:151-177 | a first page without a token ends discovery after one call whatever later pages hold; the names are that page's; with no metrics the result is an empty list, not a failure |
| QueueSource.GetResourceNames | Watchman.AwsResources.Tests/Services/Sqs/SqsSourceTests.cs:139-147 | returns the names and request log of the full walk |
| QueueSource.GetResource | Watchman.AwsResources.Tests/Services/Sqs/SqsSourceTests.cs:180-205 | after the full walk, finds the name exactly when discovery reports it; the resource and its `QueueData` then carry that name, and `IsErrorQueue` holds exactly for error-queue names; a failed walk is reported as a failure, not as "not found" |
| SqsSourceTests.Fixture.Setup | Watchman.AwsResources.Tests/Services/Sqs/SqsSourceTests.cs:25-102 | rebuilds the four pages: tokens `token-1` to `token-3` then none, one queue per page, `Queue-1` to `Queue-4_error` |
| SqsSourceTests.Fixture.SetUpPagesFormChain | Watchman.AwsResources.Tests/Services/Sqs/SqsSourceTests.cs:109-128 | on the set-up pages the stub's answers chain the four requests (no token, `token-1`, `token-2`, `token-3`) and the walk ends within four requests |
| SqsSourceTests.Fixture.MultiplePagesAllFetchedAndReturned | Watchman.AwsResources.Tests/Services/Sqs/SqsSourceTests.cs:133-148 | four calls with the four tokens; four names; name i is the queue on page i + 1 |
| SqsSourceTests.Fixture.SinglePageFetchedAndReturned | Watchman.AwsResources.Tests/Services/Sqs/SqsSourceTests.cs:150-163 | changes only the first page, which loses its token; then one call and one name, the first page's queue |
| SqsSourceTests.Fixture.EmptyResultEmptyListReturned | Watchman.AwsResources.Tests/Services/Sqs/SqsSourceTests.cs:165-177 | changes only the first page, which loses its token and its metrics; then a successful empty list |
| SqsSourceTests.Fixture.GetResourceReturnsCorrectResource | Watchman.AwsResources.Tests/Services/Sqs/SqsSourceTests.cs:179-192 | the queue found only on page 2 is returned after all four calls, with that name on the resource and on its `QueueData` |
| SqsSourceTests.Fixture.GetResourceCorrectlyPopulatesTheIsErrorField | Watchman.AwsResources.Tests/Services/Sqs/SqsSourceTests.cs:194-205 | `Queue-4_error`, named only on the last page, is found and flagged as an error queue |

## Left out

- The code of the `QueueSource` and `QueueData` classes is not part of this model. Their behaviour comes from the fixture's stub and assertions, plus the modelling choices listed below.
- QueueSource.GetResource: the full walk before the lookup is a modelling choice. So are the `Success(None)` result for a name discovery does not report and the four-call log stated by `SqsSourceTests.Fixture.GetResourceReturnsCorrectResource`. The fixture verifies no call counts and never looks up a missing name, and a result built without any call would also pass its two lookup tests.
- QueueSource.DimensionValue: taking the first of several `QueueName` dimensions is a modelling choice. Every metric in the fixture has exactly one dimension.
- Async, `Task`, `CancellationToken`, Moq and NUnit: each `ListMetricsAsync` call is a synchronous lookup in the client map.
- The AWS SDK types are reduced to the fields the walk reads. `QueueSource`'s constructor injection of the client becomes a `client` parameter.
- The `_attributes` dictionary (lines 104-107) is set up but never read by any assertion.
- Termination is a precondition (`EndsWithin`) with a ghost bound, because the source has no page cap. A provider whose tokens cycle is not modelled.
- Empty tokens: the fixture only shows null tokens. Treating an empty `NextToken` as "no more pages" is an assumption of the model.
- Unanswered requests: a request the client has no page for aborts the walk with `Unanswered`, and no partial result is kept. A loose Moq mock would hand back no page at all. What `QueueSource` then does is not visible.
- Metrics without a `QueueName` dimension make discovery fail at the first such metric. The fixture does not establish this policy; it is a modelling choice.
- Duplicate names are kept in the list. No deduplication is modelled, because the fixture does not show any.
- The metric names on returned pages are not checked; only the requests filter on the metric name.
- QueueSource.IsErrorQueueName: the `_error` suffix test is an assumption. The fixture asserts only that `Queue-4_error` is an error queue, so a `false` result for other names is not evidenced by the source.
