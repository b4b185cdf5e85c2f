/** The utterance search page (app/utterances/page.tsx): the query parameters built
    from the filters, the paging controller behind the infinite scroll, and the
    lists of distinct speakers, departments and regions offered as filter values.
    Each asynchronous handler is split at its `await`: `Begin…` is what runs before
    the request goes out, `Finish…` what runs when its outcome arrives, and the
    plain name runs both back to back. */
module UtterancesPage {
  import opened Collections
  import opened Text
  import opened Api

  const ItemsPerPage: nat := 20
  /** The "no constraint" value of the speaker, department, region and sentiment filters. */
  const All := "all"

  /** The filter state; `search` is the debounced search term. */
  datatype Filters = Filters(search: string, speaker: string, department: string,
                             region: string, sentiment: string)

  const InitialFilters := Filters("", All, All, All, All)

  const ParamNames: set<string> :=
    {"top", "skip", "search", "speaker", "department", "region", "sentiment_min", "sentiment_max"}

  /** p holds exactly the parameters the page sends for page number `page` under
      filters f. */
  ghost predicate ParamsFor(p: Params, page: int, f: Filters) {
    && UniqueKeys(p)
    && (forall k :: k !in ParamNames ==> Lookup(p, k) == None)
    && Lookup(p, "top") == Some("20")
    && Lookup(p, "skip") == Some(IntToString((page - 1) * ItemsPerPage))
    && Lookup(p, "search") == (if f.search != "" then Some(f.search) else None)
    && Lookup(p, "speaker") == (if f.speaker != All then Some(f.speaker) else None)
    && Lookup(p, "department") == (if f.department != All then Some(f.department) else None)
    && Lookup(p, "region") == (if f.region != All then Some(f.region) else None)
    && Lookup(p, "sentiment_min") == SentimentMin(f.sentiment)
    && Lookup(p, "sentiment_max") == SentimentMax(f.sentiment)
  }

  /** The lower sentiment bound a sentiment bucket asks for. */
  function SentimentMin(bucket: string): Option<string> {
    if bucket == "positive" then Some("0.3") else if bucket == "neutral" then Some("-0.3") else None
  }

  /** The upper sentiment bound a sentiment bucket asks for. */
  function SentimentMax(bucket: string): Option<string> {
    if bucket == "negative" then Some("-0.3") else if bucket == "neutral" then Some("0.3") else None
  }

  /** "positive" sets only a minimum of 0.3, "negative" only a maximum of -0.3,
      "neutral" both -0.3 and 0.3, and "all" or any other value neither. */
  lemma SentimentBuckets(bucket: string)
    ensures bucket == "positive" ==> SentimentMin(bucket) == Some("0.3") && SentimentMax(bucket) == None
    ensures bucket == "negative" ==> SentimentMin(bucket) == None && SentimentMax(bucket) == Some("-0.3")
    ensures bucket == "neutral" ==> SentimentMin(bucket) == Some("-0.3") && SentimentMax(bucket) == Some("0.3")
    ensures bucket != "positive" && bucket != "negative" && bucket != "neutral" ==>
              SentimentMin(bucket) == None && SentimentMax(bucket) == None
  {
    assert "positive"[0] != "negative"[0] && "neutral"[2] != "negative"[2];
  }

  /** `fetchUtterances(page)`: the parameter record it fills in before calling
      `getUtterances`. */
  method UtteranceParams(page: int, f: Filters) returns (params: Params)
    ensures ParamsFor(params, page, f)
  {
    params := PageParams(page);
    params := AddSearchParams(params, f);
    params := AddPlaceParams(params, f);
    params := AddSentimentParams(params, f.sentiment);
  }

  /** The two parameters every request carries: the page size and the number of
      items on the earlier pages. */
  method PageParams(page: int) returns (params: Params)
    ensures UniqueKeys(params)
    ensures Lookup(params, "top") == Some("20")
    ensures Lookup(params, "skip") == Some(IntToString((page - 1) * ItemsPerPage))
    ensures Lookup(params, "search") == Lookup(params, "speaker") == None
    ensures Lookup(params, "department") == Lookup(params, "region") == None
    ensures Lookup(params, "sentiment_min") == Lookup(params, "sentiment_max") == None
    ensures forall k :: k !in ParamNames ==> Lookup(params, k) == None
  {
    ParamNamesDistinct();
    assert NatToString(ItemsPerPage) == "20";
    params := Assign([], "top", NatToString(ItemsPerPage));
    params := Assign(params, "skip", IntToString((page - 1) * ItemsPerPage));
  }

  /** The search term when there is one, and the speaker unless it is "all". */
  method AddSearchParams(p: Params, f: Filters) returns (params: Params)
    requires UniqueKeys(p) && Lookup(p, "search") == None && Lookup(p, "speaker") == None
    ensures UniqueKeys(params)
    ensures Lookup(params, "search") == (if f.search != "" then Some(f.search) else None)
    ensures Lookup(params, "speaker") == (if f.speaker != All then Some(f.speaker) else None)
    ensures Lookup(params, "top") == Lookup(p, "top") && Lookup(params, "skip") == Lookup(p, "skip")
    ensures Lookup(params, "department") == Lookup(p, "department")
    ensures Lookup(params, "region") == Lookup(p, "region")
    ensures Lookup(params, "sentiment_min") == Lookup(p, "sentiment_min")
    ensures Lookup(params, "sentiment_max") == Lookup(p, "sentiment_max")
    ensures forall k :: k !in ParamNames ==> Lookup(params, k) == Lookup(p, k)
  {
    ParamNamesDistinct();
    params := AssignBothWhen(p, f.search != "", "search", f.search, f.speaker != All, "speaker", f.speaker);
  }

  /** The department and the region, each unless it is "all". */
  method AddPlaceParams(p: Params, f: Filters) returns (params: Params)
    requires UniqueKeys(p) && Lookup(p, "department") == None && Lookup(p, "region") == None
    ensures UniqueKeys(params)
    ensures Lookup(params, "department") == (if f.department != All then Some(f.department) else None)
    ensures Lookup(params, "region") == (if f.region != All then Some(f.region) else None)
    ensures Lookup(params, "top") == Lookup(p, "top") && Lookup(params, "skip") == Lookup(p, "skip")
    ensures Lookup(params, "search") == Lookup(p, "search")
    ensures Lookup(params, "speaker") == Lookup(p, "speaker")
    ensures Lookup(params, "sentiment_min") == Lookup(p, "sentiment_min")
    ensures Lookup(params, "sentiment_max") == Lookup(p, "sentiment_max")
    ensures forall k :: k !in ParamNames ==> Lookup(params, k) == Lookup(p, k)
  {
    ParamNamesDistinct();
    params := AssignBothWhen(p, f.department != All, "department", f.department,
                             f.region != All, "region", f.region);
  }

  /** The sentiment bounds: a minimum of 0.3 for "positive", a maximum of -0.3 for
      "negative", both for "neutral", none for anything else. */
  method AddSentimentParams(p: Params, sentiment: string) returns (params: Params)
    requires UniqueKeys(p) && Lookup(p, "sentiment_min") == None && Lookup(p, "sentiment_max") == None
    ensures UniqueKeys(params)
    ensures Lookup(params, "sentiment_min") == SentimentMin(sentiment)
    ensures Lookup(params, "sentiment_max") == SentimentMax(sentiment)
    ensures Lookup(params, "top") == Lookup(p, "top") && Lookup(params, "skip") == Lookup(p, "skip")
    ensures Lookup(params, "search") == Lookup(p, "search")
    ensures Lookup(params, "speaker") == Lookup(p, "speaker")
    ensures Lookup(params, "department") == Lookup(p, "department")
    ensures Lookup(params, "region") == Lookup(p, "region")
    ensures forall k :: k !in ParamNames ==> Lookup(params, k) == Lookup(p, k)
  {
    ParamNamesDistinct();
    assert "sentiment_min"[11] != "sentiment_max"[11];
    params := p;
    if sentiment != All {
      if sentiment == "positive" {
        params := Assign(params, "sentiment_min", "0.3");
      } else if sentiment == "negative" {
        params := Assign(params, "sentiment_max", "-0.3");
      } else if sentiment == "neutral" {
        params := Assign(params, "sentiment_min", "-0.3");
        params := Assign(params, "sentiment_max", "0.3");
      }
    }
  }

  /** The parameter names are pairwise different. */
  lemma ParamNamesDistinct()
    ensures "top" != "search" && "top" != "speaker" && "top" != "department" && "top" != "region"
    ensures "skip" != "search" && "skip" != "speaker" && "skip" != "department" && "skip" != "region"
    ensures "search" != "speaker" && "search" != "department" && "search" != "region"
    ensures "speaker" != "department" && "speaker" != "region" && "department" != "region"
    ensures "top" != "sentiment_min" && "skip" != "sentiment_min" && "search" != "sentiment_min"
    ensures "speaker" != "sentiment_min" && "department" != "sentiment_min" && "region" != "sentiment_min"
    ensures "top" != "sentiment_max" && "skip" != "sentiment_max" && "search" != "sentiment_max"
    ensures "speaker" != "sentiment_max" && "department" != "sentiment_max" && "region" != "sentiment_max"
  {
    assert "search"[0] != "region"[0];
  }

  /** Sets parameter k to v if `on`. */
  function AssignWhen(p: Params, on: bool, k: string, v: string): (r: Params)
    requires UniqueKeys(p)
    ensures UniqueKeys(r)
    ensures Lookup(r, k) == if on then Some(v) else Lookup(p, k)
    ensures forall k' :: k' != k ==> Lookup(r, k') == Lookup(p, k')
  {
    if on then Assign(p, k, v) else p
  }

  /** Sets two different parameters, each under its own condition. */
  function AssignBothWhen(p: Params, on1: bool, k1: string, v1: string, on2: bool, k2: string, v2: string)
    : (r: Params)
    requires UniqueKeys(p) && k1 != k2
    ensures UniqueKeys(r)
    ensures Lookup(r, k1) == if on1 then Some(v1) else Lookup(p, k1)
    ensures Lookup(r, k2) == if on2 then Some(v2) else Lookup(p, k2)
    ensures forall k' :: k' != k1 && k' != k2 ==> Lookup(r, k') == Lookup(p, k')
  {
    AssignWhen(AssignWhen(p, on1, k1, v1), on2, k2, v2)
  }

  lemma {:induction false} LookupIffKey(p: Params, k: string)
    ensures Lookup(p, k).Some? <==> k in Keys(p)
  {
    if p != [] { LookupIffKey(p[1..], k); }
  }

  /** The parameters are fixed by the page and the filters alone: any two records
      meeting ParamsFor agree on every name, whatever order they were filled in. */
  lemma ParamsForDetermined(p: Params, q: Params, page: int, f: Filters)
    requires ParamsFor(p, page, f) && ParamsFor(q, page, f)
    ensures forall k :: Lookup(p, k) == Lookup(q, k)
  {
    forall k ensures Lookup(p, k) == Lookup(q, k) {
      if k !in ParamNames {
        LookupIffKey(p, k);
        LookupIffKey(q, k);
      }
    }
  }

  /** The `skip` parameter reads back as the number of items on the earlier pages. */
  lemma SkipCountsEarlierPages(p: Params, page: int, f: Filters)
    requires page >= 1 && ParamsFor(p, page, f)
    ensures Lookup(p, "skip").Some? && AllDigits(Lookup(p, "skip").value)
    ensures ParseDecimal(Lookup(p, "skip").value) == (page - 1) * ItemsPerPage
  {
    ParseNatToString((page - 1) * ItemsPerPage);
  }

  // ---------------------------------------------------------------------------
  // What the page takes from a reply.

  /** `data.items || []`. */
  function ItemsOf(data: UtteranceData): seq<Utterance> {
    if data.items.Some? then data.items.value else []
  }

  /** `data.total_count || 0`. */
  function TotalOf(data: UtteranceData): int {
    if data.totalCount.Some? then data.totalCount.value else 0
  }

  /** `(data.items?.length || 0) === ITEMS_PER_PAGE`: a full page promises more. */
  predicate FullPage(data: UtteranceData) {
    |ItemsOf(data)| == ItemsPerPage
  }

  /** The batches received since the last reset, laid end to end. */
  function Flatten(batches: seq<seq<Utterance>>): seq<Utterance> {
    if batches == [] then [] else Flatten(batches[..|batches| - 1]) + batches[|batches| - 1]
  }

  lemma FlattenAppend(batches: seq<seq<Utterance>>, b: seq<Utterance>)
    ensures Flatten(batches + [b]) == Flatten(batches) + b
  {
    assert (batches + [b])[..|batches|] == batches;
  }

  /** The list state of the page and the handlers that change it. */
  class UtteranceFeed {
    var items: seq<Utterance>
    var totalCount: int
    var currentPage: int
    var hasMore: bool
    var loading: bool
    var loadingMore: bool
    var filters: Filters
    /** The batches whose items make up `items`, in the order they were applied. */
    ghost var batches: seq<seq<Utterance>>
    /** How many of the pages that `currentPage` counts have no batch on screen: the
        first page when its request failed or no reset has run yet, and, when a reset's
        reply lands after a stale `loadMore`, the page that stale reply counted. */
    ghost var pagesMissing: nat

    /** The items on screen are exactly the batches applied since the last reset,
        in arrival order, and the page number counts those batches together with the
        pages that never reached the screen. */
    ghost predicate Valid()
      reads this
    {
      && items == Flatten(batches)
      && currentPage == |batches| + pagesMissing
      && currentPage >= 1
    }

    constructor ()
      ensures Valid()
      ensures items == [] && totalCount == 0 && currentPage == 1 && hasMore
      ensures !loading && !loadingMore && filters == InitialFilters
    {
      items, totalCount, currentPage, hasMore := [], 0, 1, true;
      loading, loadingMore := false, false;
      filters := InitialFilters;
      batches, pagesMissing := [], 1;
    }

    /** `resetAndFetch` up to its request: the list is emptied and rewound to page 1. */
    method BeginReset() returns (params: Params)
      requires Valid()
      modifies this
      ensures Valid()
      ensures ParamsFor(params, 1, filters)
      ensures loading && items == [] && currentPage == 1 && hasMore
      ensures totalCount == old(totalCount) && loadingMore == old(loadingMore)
      ensures filters == old(filters)
    {
      loading := true;
      items := [];
      currentPage := 1;
      hasMore := true;
      batches, pagesMissing := [], 1;
      params := UtteranceParams(1, filters);
    }

    /** `resetAndFetch` from its request on: a reply replaces the items, a failure
        leaves the list as it is; the page stops loading either way. The page number
        is left alone, so a stale `loadMore` that moved it on since the reset keeps its
        effect. */
    method FinishReset(outcome: Outcome<UtteranceData>)
      requires Valid()
      modifies this
      ensures Valid()
      ensures outcome.Ok? ==> items == ItemsOf(outcome.value) && totalCount == TotalOf(outcome.value)
                              && hasMore == FullPage(outcome.value)
      ensures outcome.Failed? ==> items == old(items) && totalCount == old(totalCount)
                                  && hasMore == old(hasMore)
      ensures !loading && currentPage == old(currentPage) && loadingMore == old(loadingMore)
      ensures filters == old(filters)
    {
      if outcome.Ok? {
        var data := outcome.value;
        items := ItemsOf(data);
        batches, pagesMissing := [ItemsOf(data)], currentPage - 1;
        assert Flatten(batches) == Flatten([]) + ItemsOf(data);
        totalCount := TotalOf(data);
        hasMore := FullPage(data);
      }
      loading := false;
    }

    /** `resetAndFetch()` answered by reply. On success the list is the first page
        of the reply; on failure it stays empty, on page 1, still promising more. */
    method ResetAndFetch(client: ApiClient, reply: Reply<UtteranceData>)
      returns (params: Params, request: HttpRequest)
      requires Valid()
      modifies this
      ensures Valid()
      ensures ParamsFor(params, 1, filters)
      ensures UrlRule(client.baseUrl, ResourceEndpoint(UtterancesPath, params), client.functionKey,
                      request.url)
      ensures var outcome := RequestOutcome(reply);
        && (outcome.Ok? ==> items == ItemsOf(outcome.value) && totalCount == TotalOf(outcome.value)
                             && hasMore == FullPage(outcome.value))
        && (outcome.Failed? ==> items == [] && totalCount == old(totalCount) && hasMore)
      ensures currentPage == 1 && !loading && loadingMore == old(loadingMore)
      ensures filters == old(filters)
    {
      params := BeginReset();
      var outcome;
      request, outcome := client.GetUtterances(params, reply);
      FinishReset(outcome);
    }

    /** `loadMore` up to its request. It goes ahead only when no other `loadMore`
        is pending and more items are promised; it does not look at `loading`. */
    method BeginLoadMore() returns (started: bool, nextPage: int, params: Params)
      requires Valid()
      modifies this
      ensures Valid()
      ensures started <==> !old(loadingMore) && old(hasMore)
      ensures !started ==> unchanged(this)
      ensures started ==> loadingMore && nextPage == currentPage + 1 && ParamsFor(params, nextPage, filters)
      ensures items == old(items) && batches == old(batches) && currentPage == old(currentPage)
      ensures pagesMissing == old(pagesMissing)
      ensures hasMore == old(hasMore) && totalCount == old(totalCount) && loading == old(loading)
      ensures filters == old(filters)
    {
      started, nextPage, params := false, currentPage, [];
      if loadingMore || !hasMore {
        return;
      }
      started := true;
      loadingMore := true;
      nextPage := currentPage + 1;
      params := UtteranceParams(nextPage, filters);
    }

    /** `loadMore` from its request on: a reply is appended to whatever the list
        holds by now and the page number becomes the one requested, which is more
        than one page ahead when a reset ran in between; a failure changes neither. */
    method FinishLoadMore(nextPage: int, outcome: Outcome<UtteranceData>)
      requires Valid() && nextPage > currentPage
      modifies this
      ensures Valid()
      ensures outcome.Ok? ==> items == old(items) + ItemsOf(outcome.value) && currentPage == nextPage
                              && hasMore == FullPage(outcome.value)
                              && batches == old(batches) + [ItemsOf(outcome.value)]
      ensures outcome.Failed? ==> items == old(items) && currentPage == old(currentPage)
                                  && hasMore == old(hasMore) && batches == old(batches)
      ensures !loadingMore && loading == old(loading) && totalCount == old(totalCount)
      ensures filters == old(filters)
    {
      if outcome.Ok? {
        var batch := ItemsOf(outcome.value);
        FlattenAppend(batches, batch);
        items := items + batch;
        batches := batches + [batch];
        pagesMissing := pagesMissing + (nextPage - currentPage - 1);
        currentPage := nextPage;
        hasMore := FullPage(outcome.value);
      }
      loadingMore := false;
    }

    /** `loadMore()` answered by reply: a no-op on every field while another
        `loadMore` is pending or nothing more is promised; otherwise the next page
        is appended on success, and nothing but the loading flag changes on failure. */
    method LoadMore(client: ApiClient, reply: Reply<UtteranceData>)
      returns (started: bool, nextPage: int, params: Params, request: Option<HttpRequest>)
      requires Valid()
      modifies this
      ensures Valid()
      ensures started <==> !old(loadingMore) && old(hasMore)
      ensures !started ==> unchanged(this) && request == None
      ensures started ==> request.Some? && nextPage == old(currentPage) + 1 && ParamsFor(params, nextPage, filters)
                          && UrlRule(client.baseUrl, ResourceEndpoint(UtterancesPath, params),
                                     client.functionKey, request.value.url)
      ensures started ==>
                var outcome := RequestOutcome(reply);
                && (outcome.Ok? ==> items == old(items) + ItemsOf(outcome.value)
                                    && currentPage == old(currentPage) + 1
                                    && hasMore == FullPage(outcome.value))
                && (outcome.Failed? ==> items == old(items) && currentPage == old(currentPage)
                                        && hasMore == old(hasMore))
                && !loadingMore && loading == old(loading) && totalCount == old(totalCount)
                && filters == old(filters)
    {
      started, nextPage, params := BeginLoadMore();
      if !started {
        request := None;
        return;
      }
      var req, outcome := client.GetUtterances(params, reply);
      request := Some(req);
      FinishLoadMore(nextPage, outcome);
    }

    /** A change to any filter gives `resetAndFetch` a new identity, and the effect
        that depends on it runs a reset under the new filters; setting the same
        values again runs nothing. */
    method ChangeFilters(f: Filters, client: ApiClient, reply: Reply<UtteranceData>)
      returns (reset: bool)
      requires Valid()
      modifies this
      ensures Valid()
      ensures filters == f
      ensures reset <==> f != old(filters)
      ensures !reset ==> unchanged(this)
      ensures reset ==> currentPage == 1 && !loading && loadingMore == old(loadingMore)
      ensures reset && RequestOutcome(reply).Failed? ==>
                items == [] && hasMore && totalCount == old(totalCount)
      ensures reset && RequestOutcome(reply).Ok? ==>
                var data := RequestOutcome(reply).value;
                items == ItemsOf(data) && totalCount == TotalOf(data) && hasMore == FullPage(data)
    {
      reset := f != filters;
      if reset {
        filters := f;
        var params, request := ResetAndFetch(client, reply);
      }
    }

    /** A `loadMore` of page k + 1 that is still in flight when the filters change is
        appended once it arrives, after the reset's first page under the new filters:
        nothing marks its reply as belonging to the earlier filters. It also sets the
        page number to k + 1, so the next `loadMore` asks the new filters for page
        k + 2 and their pages 2 to k + 1 are never shown. */
    method LoadMoreAcrossFilterChange(f: Filters, client: ApiClient, resetReply: Reply<UtteranceData>,
                                      lateReply: Reply<UtteranceData>)
      returns (staleParams: Params, again: bool, nextParams: Params)
      requires Valid() && !loadingMore && hasMore && f != filters
      requires RequestOutcome(resetReply).Ok? && RequestOutcome(lateReply).Ok?
      modifies this
      ensures Valid()
      ensures ParamsFor(staleParams, old(currentPage) + 1, old(filters)) && filters == f
      ensures items == ItemsOf(RequestOutcome(resetReply).value) + ItemsOf(RequestOutcome(lateReply).value)
      ensures currentPage == old(currentPage) + 1
      ensures FullPage(RequestOutcome(lateReply).value) ==> again
      ensures again ==> ParamsFor(nextParams, old(currentPage) + 2, f)
    {
      var started, nextPage;
      started, nextPage, staleParams := BeginLoadMore();
      var reset := ChangeFilters(f, client, resetReply);
      FinishLoadMore(nextPage, RequestOutcome(lateReply));
      var page;
      again, page, nextParams := BeginLoadMore();
    }

    /** The same stale page 2, arriving while the reset under the new filters is still
        in flight. It moves the page number to 2; the reset's reply then replaces the
        items but not the page number, so the next `loadMore` asks the new filters for
        page 3 and their page 2 is never shown. When the reset fails instead, the stale
        page stays on screen under the new filters. */
    method StalePageBeforeResetReply(f: Filters, resetReply: Reply<UtteranceData>,
                                     lateReply: Reply<UtteranceData>)
      returns (staleParams: Params, again: bool, nextParams: Params)
      requires Valid() && currentPage == 1 && !loadingMore && hasMore && f != filters
      requires RequestOutcome(lateReply).Ok?
      modifies this
      ensures Valid()
      ensures ParamsFor(staleParams, 2, old(filters)) && filters == f
      ensures currentPage == 2
      ensures RequestOutcome(resetReply).Ok? ==> items == ItemsOf(RequestOutcome(resetReply).value)
      ensures RequestOutcome(resetReply).Failed? ==> items == ItemsOf(RequestOutcome(lateReply).value)
      ensures RequestOutcome(resetReply).Ok? && FullPage(RequestOutcome(resetReply).value) ==> again
      ensures again ==> ParamsFor(nextParams, 3, f)
    {
      staleParams := StalePageLandsDuringReset(f, resetReply, lateReply);
      var page;
      again, page, nextParams := BeginLoadMore();
    }

    /** The events of `StalePageBeforeResetReply` up to the reset's reply. */
    method StalePageLandsDuringReset(f: Filters, resetReply: Reply<UtteranceData>,
                                     lateReply: Reply<UtteranceData>)
      returns (staleParams: Params)
      requires Valid() && currentPage == 1 && !loadingMore && hasMore && f != filters
      requires RequestOutcome(lateReply).Ok?
      modifies this
      ensures Valid()
      ensures ParamsFor(staleParams, 2, old(filters)) && filters == f
      ensures currentPage == 2 && !loadingMore
      ensures RequestOutcome(resetReply).Ok? ==>
                var data := RequestOutcome(resetReply).value;
                items == ItemsOf(data) && hasMore == FullPage(data)
      ensures RequestOutcome(resetReply).Failed? ==> items == ItemsOf(RequestOutcome(lateReply).value)
    {
      var started, nextPage;
      started, nextPage, staleParams := BeginLoadMore();
      filters := f;
      var resetParams := BeginReset();
      FinishLoadMore(nextPage, RequestOutcome(lateReply));
      FinishReset(RequestOutcome(resetReply));
    }
  }

  // ---------------------------------------------------------------------------
  // The filter choices offered from the loaded items:
  // `Array.from(new Set(utterances.map(u => u.field))).sort()`.

  function SpeakerNames(items: seq<Utterance>): (r: seq<string>)
    ensures |r| == |items| && forall i :: 0 <= i < |items| ==> r[i] == items[i].speaker
  {
    seq(|items|, i requires 0 <= i < |items| => items[i].speaker)
  }

  function DepartmentNames(items: seq<Utterance>): (r: seq<string>)
    ensures |r| == |items| && forall i :: 0 <= i < |items| ==> r[i] == items[i].department
  {
    seq(|items|, i requires 0 <= i < |items| => items[i].department)
  }

  function RegionNames(items: seq<Utterance>): (r: seq<string>)
    ensures |r| == |items| && forall i :: 0 <= i < |items| ==> r[i] == items[i].region
  {
    seq(|items|, i requires 0 <= i < |items| => items[i].region)
  }

  /** The speakers of the loaded items, each once, in ascending order. */
  function UniqueSpeakers(items: seq<Utterance>): (r: seq<string>)
    ensures StrictlySorted(r) && NoDuplicates(r)
    ensures forall x :: x in r <==> exists i :: 0 <= i < |items| && items[i].speaker == x
  {
    var r := SortedDistinct(SpeakerNames(items));
    StrictlySortedNoDuplicates(r);
    r
  }

  /** The departments of the loaded items, each once, in ascending order. */
  function UniqueDepartments(items: seq<Utterance>): (r: seq<string>)
    ensures StrictlySorted(r) && NoDuplicates(r)
    ensures forall x :: x in r <==> exists i :: 0 <= i < |items| && items[i].department == x
  {
    var r := SortedDistinct(DepartmentNames(items));
    StrictlySortedNoDuplicates(r);
    r
  }

  /** The regions of the loaded items, each once, in ascending order. */
  function UniqueRegions(items: seq<Utterance>): (r: seq<string>)
    ensures StrictlySorted(r) && NoDuplicates(r)
    ensures forall x :: x in r <==> exists i :: 0 <= i < |items| && items[i].region == x
  {
    var r := SortedDistinct(RegionNames(items));
    StrictlySortedNoDuplicates(r);
    r
  }
}
