/**
 * The pagination walk behind queue discovery: one ListMetrics request per
 * page, the first without a token, each later one echoing the previous
 * response's NextToken, until a response carries no token. The metrics of
 * every page are collected in arrival order.
 */
module Paginator {
  import opened Wrappers
  import opened CloudWatch

  /** The token that continues the walk: the response's NextToken when it is present and non-empty. */
  function Continuation(response: ListMetricsResponse): Option<string>
  {
    if response.nextToken.Some? && response.nextToken.value != "" then response.nextToken else None
  }

  /** The request the walk issues after `request` has been answered: same metric name, NextToken echoed verbatim. */
  function NextRequest(client: MetricsClient, request: ListMetricsRequest): ListMetricsRequest
    requires request in client
  {
    ListMetricsRequest(request.metricName, client[request].nextToken)
  }

  /** The walk stops at `request`: the client has no page for it, or its page carries no continuation. */
  predicate Terminal(client: MetricsClient, request: ListMetricsRequest)
  {
    request !in client || Continuation(client[request]).None?
  }

  /** `next` is issued right after `request`. */
  predicate Linked(client: MetricsClient, request: ListMetricsRequest, next: ListMetricsRequest)
  {
    request in client && Continuation(client[request]).Some? && next == NextRequest(client, request)
  }

  /**
   * Reference definition of a complete walk, independent of how the walk is
   * computed: consecutive requests are linked by the echoed token and the
   * last request ends the walk.
   */
  ghost predicate IsChain(client: MetricsClient, requests: seq<ListMetricsRequest>)
  {
    && |requests| > 0
    && (forall i :: 0 <= i < |requests| - 1 ==> Linked(client, requests[i], requests[i + 1]))
    && Terminal(client, requests[|requests| - 1])
  }

  /**
   * The walk started at `request` ends after at most `pages` requests. The
   * source enforces no page cap: ending is up to the provider, so this is the
   * precondition of every walk.
   */
  predicate EndsWithin(client: MetricsClient, request: ListMetricsRequest, pages: nat)
    decreases pages
  {
    pages > 0 && (Terminal(client, request) || EndsWithin(client, NextRequest(client, request), pages - 1))
  }

  /** A request the client gives no page for; it aborts the walk and no partial result is kept. */
  datatype FetchError = Unanswered(request: ListMetricsRequest)

  /** What a walk did: the requests it issued, in order, and the metrics it collected or the error that aborted it. */
  datatype Trace = Trace(requests: seq<ListMetricsRequest>, outcome: Result<seq<Metric>, FetchError>)

  /** The trace `rest` preceded by `requests`, whose pages yielded `metrics`. */
  function After(requests: seq<ListMetricsRequest>, metrics: seq<Metric>, rest: Trace): Trace
  {
    Trace(requests + rest.requests,
          if rest.outcome.Success? then Success(metrics + rest.outcome.value) else rest.outcome)
  }

  /** The walk started at `request`, as a function of the client's answers. */
  function Walk(client: MetricsClient, request: ListMetricsRequest, pages: nat): (t: Trace)
    requires EndsWithin(client, request, pages)
    ensures 0 < |t.requests| <= pages
    ensures t.requests[0] == request
    decreases pages
  {
    if request !in client then
      Trace([request], Failure(Unanswered(request)))
    else if Continuation(client[request]).None? then
      Trace([request], Success(client[request].metrics))
    else
      After([request], client[request].metrics, Walk(client, NextRequest(client, request), pages - 1))
  }

  /** The pages the client gives for `requests`, in order. */
  ghost function PagesOf(client: MetricsClient, requests: seq<ListMetricsRequest>): seq<ListMetricsResponse>
    requires forall r :: r in requests ==> r in client
  {
    seq(|requests|, i requires 0 <= i < |requests| => client[requests[i]])
  }

  /** The metrics of `pages`, page after page. */
  function ConcatMetrics(pages: seq<ListMetricsResponse>): seq<Metric>
  {
    if pages == [] then [] else pages[0].metrics + ConcatMetrics(pages[1..])
  }

  lemma {:induction false} ConcatMetricsSingletons(pages: seq<ListMetricsResponse>)
    requires forall i :: 0 <= i < |pages| ==> |pages[i].metrics| == 1
    ensures |ConcatMetrics(pages)| == |pages|
    ensures forall i :: 0 <= i < |pages| ==> ConcatMetrics(pages)[i] == pages[i].metrics[0]
  {
    if pages != [] {
      ConcatMetricsSingletons(pages[1..]);
      assert pages[0].metrics == [pages[0].metrics[0]];
    }
  }

  /** A suffix of a chain is a chain. */
  lemma ChainSuffix(client: MetricsClient, requests: seq<ListMetricsRequest>, k: nat)
    requires IsChain(client, requests) && k < |requests|
    ensures IsChain(client, requests[k..])
  {
  }

  /**
   * Soundness of the walk against the reference definition: its requests form
   * a chain from the first request, all with the first request's metric name;
   * it succeeds exactly when the last request was answered, and then it has
   * collected the metrics of every page in arrival order.
   */
  lemma {:induction false} WalkFollowsChain(client: MetricsClient, request: ListMetricsRequest, pages: nat)
    requires EndsWithin(client, request, pages)
    ensures var t := Walk(client, request, pages);
      && IsChain(client, t.requests)
      && (forall r :: r in t.requests ==> r.metricName == request.metricName)
      && (t.outcome.Success? <==> t.requests[|t.requests| - 1] in client)
      && (t.outcome.Failure? ==> t.outcome.error == Unanswered(t.requests[|t.requests| - 1]))
      && (t.outcome.Success? ==>
            && (forall r :: r in t.requests ==> r in client)
            && t.outcome.value == ConcatMetrics(PagesOf(client, t.requests)))
    decreases pages
  {
    var t := Walk(client, request, pages);
    if request !in client {
    } else if Continuation(client[request]).None? {
      assert ConcatMetrics(PagesOf(client, t.requests)) == client[request].metrics + ConcatMetrics([]);
    } else {
      var next := NextRequest(client, request);
      var rest := Walk(client, next, pages - 1);
      WalkFollowsChain(client, next, pages - 1);
      assert t.requests == [request] + rest.requests;
      forall i | 0 <= i < |t.requests| - 1
        ensures Linked(client, t.requests[i], t.requests[i + 1])
      {
        if i > 0 {
          assert t.requests[i] == rest.requests[i - 1] && t.requests[i + 1] == rest.requests[i];
        }
      }
      assert t.requests[|t.requests| - 1] == rest.requests[|rest.requests| - 1];
      if t.outcome.Success? {
        assert forall r :: r in t.requests ==> r == request || r in rest.requests;
        var ps := PagesOf(client, t.requests);
        assert ps[1..] == PagesOf(client, rest.requests);
        assert ConcatMetrics(ps) == client[request].metrics + ConcatMetrics(ps[1..]);
      }
    }
  }

  /** Two chains from the same first request are the same chain: the walk never has a choice. */
  lemma {:induction false} ChainIsUnique(client: MetricsClient, a: seq<ListMetricsRequest>, b: seq<ListMetricsRequest>)
    requires IsChain(client, a) && IsChain(client, b) && a[0] == b[0]
    ensures a == b
    decreases |a|
  {
    assert |a| > 1 ==> Linked(client, a[0], a[1]);
    assert |b| > 1 ==> Linked(client, b[0], b[1]);
    if |a| == 1 || |b| == 1 {
      assert |a| == |b| == 1;
    } else {
      assert Linked(client, a[0], a[1]) && Linked(client, b[0], b[1]);
      ChainSuffix(client, a, 1);
      ChainSuffix(client, b, 1);
      ChainIsUnique(client, a[1..], b[1..]);
      assert a == [a[0]] + a[1..] && b == [b[0]] + b[1..];
    }
  }

  /** A complete walk fetches no page twice. */
  lemma ChainVisitsEachRequestOnce(client: MetricsClient, requests: seq<ListMetricsRequest>)
    requires IsChain(client, requests)
    ensures forall i, j :: 0 <= i < j < |requests| ==> requests[i] != requests[j]
  {
    forall i, j | 0 <= i < j < |requests|
      ensures requests[i] != requests[j]
    {
      if requests[i] == requests[j] {
        ChainSuffix(client, requests, i);
        ChainSuffix(client, requests, j);
        ChainIsUnique(client, requests[i..], requests[j..]);
        assert false;
      }
    }
  }

  /** Every chain ends within as many requests as it has. */
  lemma {:induction false} ChainEnds(client: MetricsClient, requests: seq<ListMetricsRequest>)
    requires IsChain(client, requests)
    ensures EndsWithin(client, requests[0], |requests|)
    decreases |requests|
  {
    if |requests| > 1 {
      assert Linked(client, requests[0], requests[1]);
      ChainSuffix(client, requests, 1);
      ChainEnds(client, requests[1..]);
    }
  }

  /**
   * Completeness: when the client's pages form the chain `requests`, the walk
   * issues exactly those requests, one per page, skipping none and repeating
   * none, and collects the pages' metrics in that order.
   */
  lemma WalkIsTheChain(client: MetricsClient, requests: seq<ListMetricsRequest>, pages: nat)
    requires IsChain(client, requests)
    requires forall r :: r in requests ==> r in client
    ensures EndsWithin(client, requests[0], |requests|)
    ensures EndsWithin(client, requests[0], pages) ==>
      Walk(client, requests[0], pages) == Trace(requests, Success(ConcatMetrics(PagesOf(client, requests))))
  {
    ChainEnds(client, requests);
    if EndsWithin(client, requests[0], pages) {
      WalkFollowsChain(client, requests[0], pages);
      ChainIsUnique(client, Walk(client, requests[0], pages).requests, requests);
    }
  }

  lemma AfterNothing(t: Trace)
    ensures After([], [], t) == t
  {
    assert [] + t.requests == t.requests;
    assert t.outcome.Success? ==> [] + t.outcome.value == t.outcome.value;
  }

  lemma AfterAfter(requests: seq<ListMetricsRequest>, metrics: seq<Metric>,
                   request: ListMetricsRequest, more: seq<Metric>, rest: Trace)
    ensures After(requests, metrics, After([request], more, rest))
         == After(requests + [request], metrics + more, rest)
  {
    assert requests + ([request] + rest.requests) == (requests + [request]) + rest.requests;
    assert rest.outcome.Success? ==>
      metrics + (more + rest.outcome.value) == (metrics + more) + rest.outcome.value;
  }

  /**
   * Fetches every page for `metricName`, starting without a token and echoing
   * each response's NextToken until a response has none.
   */
  method ListAllMetrics(client: MetricsClient, metricName: string, ghost pages: nat)
    returns (outcome: Result<seq<Metric>, FetchError>, requests: seq<ListMetricsRequest>)
    requires EndsWithin(client, ListMetricsRequest(metricName, None), pages)
    ensures Trace(requests, outcome) == Walk(client, ListMetricsRequest(metricName, None), pages)
  {
    var request := ListMetricsRequest(metricName, None);
    ghost var whole := Walk(client, request, pages);
    var collected: seq<Metric> := [];
    requests := [];
    ghost var left := pages;
    AfterNothing(whole);
    while true
      invariant request.metricName == metricName
      invariant EndsWithin(client, request, left)
      invariant whole == After(requests, collected, Walk(client, request, left))
      decreases left
    {
      if request !in client {
        outcome := Failure(Unanswered(request));
        requests := requests + [request];
        return;
      }
      var response := client[request];
      if Continuation(response).None? {
        outcome := Success(collected + response.metrics);
        requests := requests + [request];
        return;
      }
      var next := ListMetricsRequest(metricName, response.nextToken);
      AfterAfter(requests, collected, request, response.metrics, Walk(client, next, left - 1));
      requests := requests + [request];
      collected := collected + response.metrics;
      request := next;
      left := left - 1;
    }
  }
}
