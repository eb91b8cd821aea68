/**
  The shared multi-page scraping engine: a planner that turns the page
  parameters into a range, and a loop that visits the pages in ascending order,
  retries each page with exponential backoff and records the pages that never
  succeed.

  Fetching is an oracle: `fetch(url, k)` is what the `k`-th attempt (counted
  from 0) at `url` produced, covering the HTTP request and the page parser.
  Waiting is recorded, not performed: each sleep becomes its multiplier of
  `request_delay` (`2^k` after failed attempt `k`, 1 between pages).
*/
module Pagination {
  import opened Base
  import opened Text

  /** The page parameters of a multi-page scrape. */
  datatype PaginationConfig = PaginationConfig(
    numPages: int,
    fromPage: Option<int>,
    toPage: Option<int>,
    maxRetries: int)

  /** `(start_page, end_page, total_pages)`. */
  datatype PageRange = PageRange(start: int, end: int, total: int)

  function Max(a: int, b: int): int {
    if a >= b then a else b
  }

  /** `PaginationConfig.get_page_range`. */
  function GetPageRange(c: PaginationConfig): (r: PageRange)
    // pages are never numbered below 1
    ensures r.start >= 1
    // an explicit first page is honoured, clamped to 1
    ensures c.fromPage.Some? ==> r.start == Max(1, c.fromPage.value)
    // with both bounds the window is never empty, and an explicit last page is honoured
    ensures c.fromPage.Some? && c.toPage.Some? ==>
      r.end == Max(r.start, c.toPage.value) && r.total == r.end - r.start + 1 >= 1
    // with only a first page, exactly `num_pages` pages are planned from it
    ensures c.fromPage.Some? && c.toPage.None? ==> r.end - r.start + 1 == r.total == c.numPages
    // with only a last page, the window ends there and holds at most `num_pages` pages
    ensures c.fromPage.None? && c.toPage.Some? ==>
      r.end == Max(1, c.toPage.value) && r.total == r.end - r.start + 1 <= Max(c.numPages, 0)
    // ... and starts `num_pages - 1` pages before it, but never below page 1
    ensures c.fromPage.None? && c.toPage.Some? ==> r.start == Max(1, r.end - c.numPages + 1)
    // with no bounds the window is pages 1 to `num_pages`
    ensures c.fromPage.None? && c.toPage.None? ==> r == PageRange(1, c.numPages, c.numPages)
    // for any sensible page count the total is the size of a non-empty window
    ensures c.numPages >= 1 ==> r.start <= r.end && r.total == r.end - r.start + 1
  {
    if c.fromPage.Some? && c.toPage.Some? then
      var start := Max(1, c.fromPage.value);
      var end := Max(start, c.toPage.value);
      PageRange(start, end, end - start + 1)
    else if c.fromPage.Some? then
      var start := Max(1, c.fromPage.value);
      PageRange(start, start + c.numPages - 1, c.numPages)
    else if c.toPage.Some? then
      var end := Max(1, c.toPage.value);
      var start := Max(1, end - c.numPages + 1);
      PageRange(start, end, end - start + 1)
    else
      PageRange(1, c.numPages, c.numPages)
  }

  /** The planner on the configurations the repository's own tests exercise. */
  lemma PageRangeExamples()
    ensures GetPageRange(PaginationConfig(1, None, None, 3)) == PageRange(1, 1, 1)
    ensures GetPageRange(PaginationConfig(5, None, None, 3)) == PageRange(1, 5, 5)
    ensures GetPageRange(PaginationConfig(1, Some(3), Some(7), 3)) == PageRange(3, 7, 5)
    ensures GetPageRange(PaginationConfig(3, Some(5), None, 3)) == PageRange(5, 7, 3)
    ensures GetPageRange(PaginationConfig(3, None, Some(10), 3)) == PageRange(8, 10, 3)
    ensures GetPageRange(PaginationConfig(20, None, Some(5), 3)) == PageRange(1, 5, 5)
  {
  }

  /** The default page URL: the base URL for page 1, `base/?page=N` otherwise. */
  function PageUrl(base: string, page: int): string {
    if page == 1 then base else base + "/?page=" + IntToString(page)
  }

  /** Distinct pages are fetched from distinct URLs. */
  lemma PageUrlInjective(base: string, p: int, q: int)
    requires p >= 1 && q >= 1 && p != q
    ensures PageUrl(base, p) != PageUrl(base, q)
  {
    var prefix := base + "/?page=";
    if p != 1 && q != 1 {
      if PageUrl(base, p) == PageUrl(base, q) {
        assert IntToString(p) == PageUrl(base, p)[|prefix|..];
        assert IntToString(q) == PageUrl(base, q)[|prefix|..];
        NatToStringInjective(p, q);
      }
    }
  }

  /** What one attempt at a page produced. */
  datatype Attempt<R> =
    | Raised                                          // the request (or anything before parsing) raised
    | Responded(status: int, parsed: Option<seq<R>>)  // `parsed` is None when the page parser raised

  /** An attempt succeeds when the status is 200 and the parser returned; an empty list is a success. */
  predicate Succeeded<R>(a: Attempt<R>) {
    a.Responded? && a.status == 200 && a.parsed.Some?
  }

  function Pow2(k: nat): (r: nat)
    ensures r >= 1
  {
    if k == 0 then 1 else 2 * Pow2(k - 1)
  }

  /** The record of the attempts at one page from attempt `k` on. */
  datatype PageRun<R> = PageRun(records: Option<seq<R>>, attempts: nat, delays: seq<nat>)

  /** Attempts `k`, `k+1`, … at `url` until one succeeds or `maxRetries` attempts have been made. */
  function RunPage<R>(fetch: (string, nat) -> Attempt<R>, url: string, k: nat, maxRetries: int): PageRun<R>
    decreases maxRetries - k
  {
    if k >= maxRetries then PageRun(None, 0, [])
    else if Succeeded(fetch(url, k)) then PageRun(fetch(url, k).parsed, 1, [])
    else
      var rest := RunPage(fetch, url, k + 1, maxRetries);
      var backoff := if k + 1 < maxRetries then [Pow2(k + 1)] else [];
      PageRun(rest.records, rest.attempts + 1, backoff + rest.delays)
  }

  /** What the pages `start .. stop-1` contributed, when the last planned page is `end`. */
  datatype Harvest<R> = Harvest(records: seq<R>, failed: seq<int>, delays: seq<nat>)

  function HarvestPages<R>(fetch: (string, nat) -> Attempt<R>, base: string, start: int, stop: int, end: int, maxRetries: int): Harvest<R>
    decreases stop - start
  {
    if stop <= start then Harvest([], [], [])
    else
      var h := HarvestPages(fetch, base, start, stop - 1, end, maxRetries);
      var run := RunPage(fetch, PageUrl(base, stop - 1), 0, maxRetries);
      match run.records
      case Some(recs) =>
        Harvest(h.records + recs, h.failed, h.delays + run.delays + (if stop - 1 < end then [1] else []))
      case None =>
        Harvest(h.records, h.failed + [stop - 1], h.delays + run.delays)
  }

  /** One more page extends the harvest by that page's run. */
  lemma HarvestStep<R>(fetch: (string, nat) -> Attempt<R>, base: string, start: int, page: int, end: int, maxRetries: int)
    requires start <= page
    ensures var h := HarvestPages(fetch, base, start, page, end, maxRetries);
      var run := RunPage(fetch, PageUrl(base, page), 0, maxRetries);
      HarvestPages(fetch, base, start, page + 1, end, maxRetries)
        == if run.records.Some?
           then Harvest(h.records + run.records.value, h.failed, h.delays + run.delays + (if page < end then [1] else []))
           else Harvest(h.records, h.failed + [page], h.delays + run.delays)
  {
  }

  /** The `meta` block of the response. */
  datatype PageMeta = PageMeta(
    pageRange: string,
    totalPagesRequested: int,
    successfulPages: int,
    failedPages: seq<int>,
    totalMatches: int)

  /** The `data` object of the response. */
  datatype PagedData<R> = PagedData(status: int, segments: seq<R>, meta: PageMeta)

  /** The response of `scrape_multiple_pages`. */
  function Scraped<R>(fetch: (string, nat) -> Attempt<R>, base: string, c: PaginationConfig): PagedData<R> {
    var pr := GetPageRange(c);
    var h := HarvestPages(fetch, base, pr.start, pr.end + 1, pr.end, c.maxRetries);
    PagedData(200, h.records,
      PageMeta(IntToString(pr.start) + "-" + IntToString(pr.end), pr.total, pr.total - |h.failed|, h.failed, |h.records|))
  }

  /** The sleeps of `scrape_multiple_pages`, as multipliers of `request_delay`. */
  function ScrapedDelays<R>(fetch: (string, nat) -> Attempt<R>, base: string, c: PaginationConfig): seq<nat> {
    var pr := GetPageRange(c);
    HarvestPages(fetch, base, pr.start, pr.end + 1, pr.end, c.maxRetries).delays
  }

  /** `scrape_multiple_pages` with the default page URLs. */
  method ScrapeMultiplePages<R>(baseUrl: string, fetch: (string, nat) -> Attempt<R>, config: PaginationConfig)
    returns (data: PagedData<R>, ghost delays: seq<nat>)
    ensures data == Scraped(fetch, baseUrl, config)
    ensures delays == ScrapedDelays(fetch, baseUrl, config)
  {
    var range := GetPageRange(config);
    var result, failedPages;
    result, failedPages, delays := VisitPages(fetch, baseUrl, range.start, range.end, config.maxRetries);
    var successfulPages := range.total - |failedPages|;
    data := PagedData(200, result, PageMeta(
      IntToString(range.start) + "-" + IntToString(range.end),
      range.total, successfulPages, failedPages, |result|));
  }

  /** The page loop of `scrape_multiple_pages`: pages `start` to `end`, in ascending order. */
  method VisitPages<R>(fetch: (string, nat) -> Attempt<R>, baseUrl: string, start: int, end: int, maxRetries: int)
    returns (result: seq<R>, failedPages: seq<int>, ghost delays: seq<nat>)
    ensures HarvestPages(fetch, baseUrl, start, end + 1, end, maxRetries) == Harvest(result, failedPages, delays)
  {
    result, failedPages, delays := [], [], [];
    var page := start;
    while page <= end
      invariant start <= page <= Max(start, end + 1)
      invariant HarvestPages(fetch, baseUrl, start, page, end, maxRetries) == Harvest(result, failedPages, delays)
      decreases end + 1 - page
    {
      result, failedPages, delays := VisitPage(fetch, baseUrl, start, page, end, maxRetries, result, failedPages, delays);
      page := page + 1;
    }
    if end + 1 < start {
      // an empty window: no page is visited
      assert HarvestPages(fetch, baseUrl, start, end + 1, end, maxRetries) == Harvest([], [], []);
    } else {
      assert page == end + 1;
    }
  }

  /** One iteration of the page loop: the page's attempts, then its records or its entry among the failed pages. */
  method VisitPage<R>(fetch: (string, nat) -> Attempt<R>, baseUrl: string, start: int, page: int, end: int, maxRetries: int,
                      result0: seq<R>, failed0: seq<int>, ghost delays0: seq<nat>)
    returns (result: seq<R>, failedPages: seq<int>, ghost delays: seq<nat>)
    requires start <= page
    requires HarvestPages(fetch, baseUrl, start, page, end, maxRetries) == Harvest(result0, failed0, delays0)
    ensures HarvestPages(fetch, baseUrl, start, page + 1, end, maxRetries) == Harvest(result, failedPages, delays)
  {
    var pageResults, pageDelays := AttemptPage(fetch, PageUrl(baseUrl, page), maxRetries);
    HarvestStep(fetch, baseUrl, start, page, end, maxRetries);
    result, failedPages, delays := result0, failed0, delays0 + pageDelays;
    if pageResults.Some? {
      result := result + pageResults.value;
      if page < end {
        delays := delays + [1];
      }
    } else {
      failedPages := failedPages + [page];
    }
  }

  /** The retry loop of `scrape_multiple_pages` for one page. */
  method AttemptPage<R>(fetch: (string, nat) -> Attempt<R>, url: string, maxRetries: int)
    returns (pageResults: Option<seq<R>>, ghost delays: seq<nat>)
    ensures pageResults == RunPage(fetch, url, 0, maxRetries).records
    ensures delays == RunPage(fetch, url, 0, maxRetries).delays
  {
    var pageSuccess := false;
    var retryCount: nat := 0;
    pageResults := None;
    delays := [];
    while !pageSuccess && retryCount < maxRetries
      invariant retryCount <= Max(maxRetries, 0)
      invariant pageSuccess == pageResults.Some?
      invariant !pageSuccess ==>
        var tail := RunPage(fetch, url, retryCount, maxRetries);
        RunPage(fetch, url, 0, maxRetries) == PageRun(tail.records, retryCount + tail.attempts, delays + tail.delays)
      invariant pageSuccess ==>
        RunPage(fetch, url, 0, maxRetries) == PageRun(pageResults, retryCount + 1, delays)
      decreases Max(maxRetries, 0) - retryCount, if pageSuccess then 0 else 1
    {
      var response := fetch(url, retryCount);
      if response.Responded? && response.status != 200 {
        RetryStep(fetch, url, retryCount, maxRetries, delays);
        retryCount := retryCount + 1;
        if retryCount < maxRetries {
          delays := delays + [Pow2(retryCount)];
        }
      } else if response.Responded? && response.parsed.Some? {
        pageResults := response.parsed;
        pageSuccess := true;
      } else {
        // the request or the page parser raised
        RetryStep(fetch, url, retryCount, maxRetries, delays);
        retryCount := retryCount + 1;
        if retryCount < maxRetries {
          delays := delays + [Pow2(retryCount)];
        }
      }
    }
  }

  /** A failed attempt `k` moves the remaining run on by one attempt and one backoff. */
  lemma RetryStep<R>(fetch: (string, nat) -> Attempt<R>, url: string, k: nat, maxRetries: int, delays: seq<nat>)
    requires k < maxRetries && !Succeeded(fetch(url, k))
    ensures var tail, next := RunPage(fetch, url, k, maxRetries), RunPage(fetch, url, k + 1, maxRetries);
      var backoff := if k + 1 < maxRetries then [Pow2(k + 1)] else [];
      PageRun(tail.records, k + tail.attempts, delays + tail.delays)
        == PageRun(next.records, (k + 1) + next.attempts, (delays + backoff) + next.delays)
  {
    var next := RunPage(fetch, url, k + 1, maxRetries);
    var backoff := if k + 1 < maxRetries then [Pow2(k + 1)] else [];
    assert delays + (backoff + next.delays) == (delays + backoff) + next.delays;
  }

  // ---------------------------------------------------------------------------
  // Properties of one page's attempts
  // ---------------------------------------------------------------------------

  /**
    A page's attempts stop at the first success: at most `maxRetries - k` are
    made, a failed page uses all of them, a successful page ends on a
    succeeding attempt whose records are returned, and no attempt before it
    succeeded. Backoff `2^(k+i+1)` follows the `i`-th failed attempt, and a
    backoff follows every failed attempt except a last one.
  */
  lemma {:induction false} RunPageAttempts<R>(fetch: (string, nat) -> Attempt<R>, url: string, k: nat, maxRetries: int)
    ensures var run := RunPage(fetch, url, k, maxRetries);
      && run.attempts <= Max(maxRetries - k, 0)
      && (run.records.None? ==> run.attempts == Max(maxRetries - k, 0))
      && (run.records.Some? ==>
            run.attempts >= 1
            && Succeeded(fetch(url, k + run.attempts - 1))
            && run.records == fetch(url, k + run.attempts - 1).parsed)
      && (forall i | k <= i < k + run.attempts - 1 :: !Succeeded(fetch(url, i)))
      && (run.records.None? ==> forall i | k <= i < k + run.attempts :: !Succeeded(fetch(url, i)))
      && |run.delays| == Max(run.attempts - 1, 0)
      && (forall i | 0 <= i < |run.delays| :: run.delays[i] == Pow2(k + i + 1))
    decreases maxRetries - k
  {
    if k < maxRetries && !Succeeded(fetch(url, k)) {
      RunPageAttempts(fetch, url, k + 1, maxRetries);
    }
  }

  /** A page fails exactly when none of its `maxRetries` attempts succeeds. */
  lemma PageFailsIffNoAttemptSucceeds<R>(fetch: (string, nat) -> Attempt<R>, url: string, maxRetries: int)
    ensures RunPage(fetch, url, 0, maxRetries).records.None?
      <==> forall i: nat | i < maxRetries :: !Succeeded(fetch(url, i))
  {
    RunPageAttempts(fetch, url, 0, maxRetries);
    var run := RunPage(fetch, url, 0, maxRetries);
    if run.records.Some? {
      assert Succeeded(fetch(url, run.attempts - 1));
    }
  }

  /** A first response of 200 whose parser returns, even with no records, ends the page at once. */
  lemma FirstAttemptSuccess<R>(fetch: (string, nat) -> Attempt<R>, url: string, maxRetries: int, recs: seq<R>)
    requires maxRetries >= 1 && fetch(url, 0) == Responded(200, Some(recs))
    ensures RunPage(fetch, url, 0, maxRetries) == PageRun(Some(recs), 1, [])
  {
  }

  // ---------------------------------------------------------------------------
  // Properties of the page loop
  // ---------------------------------------------------------------------------

  /** Failed pages are listed once each, in ascending order, and lie inside the visited window. */
  lemma {:induction false} FailedPagesAscending<R>(fetch: (string, nat) -> Attempt<R>, base: string, start: int, stop: int, end: int, maxRetries: int)
    ensures var f := HarvestPages(fetch, base, start, stop, end, maxRetries).failed;
      && |f| <= Max(stop - start, 0)
      && (forall i | 0 <= i < |f| :: start <= f[i] < stop)
      && (forall i, j | 0 <= i < j < |f| :: f[i] < f[j])
    decreases stop - start
  {
    if stop > start {
      FailedPagesAscending(fetch, base, start, stop - 1, end, maxRetries);
    }
  }

  /** A visited page is listed as failed exactly when none of its attempts succeeded. */
  lemma {:induction false} FailedPagesExact<R>(fetch: (string, nat) -> Attempt<R>, base: string, start: int, stop: int, end: int, maxRetries: int, p: int)
    requires start <= p < stop
    ensures p in HarvestPages(fetch, base, start, stop, end, maxRetries).failed
      <==> forall i: nat | i < maxRetries :: !Succeeded(fetch(PageUrl(base, p), i))
    decreases stop - start
  {
    PageFailsIffNoAttemptSucceeds(fetch, PageUrl(base, p), maxRetries);
    FailedPagesAscending(fetch, base, start, stop - 1, end, maxRetries);
    if p < stop - 1 {
      FailedPagesExact(fetch, base, start, stop - 1, end, maxRetries, p);
    }
  }

  /** The records a page contributes: those of its successful attempt, none when it failed. */
  function PageRecords<R>(fetch: (string, nat) -> Attempt<R>, base: string, page: int, maxRetries: int): seq<R> {
    var run := RunPage(fetch, PageUrl(base, page), 0, maxRetries);
    if run.records.Some? then run.records.value else []
  }

  /** The segments are the records of the successful pages, in page order. */
  function SuccessfulRecords<R>(fetch: (string, nat) -> Attempt<R>, base: string, start: int, stop: int, maxRetries: int): seq<R>
    decreases stop - start
  {
    if stop <= start then []
    else PageRecords(fetch, base, start, maxRetries) + SuccessfulRecords(fetch, base, start + 1, stop, maxRetries)
  }

  lemma {:induction false} SegmentsInPageOrder<R>(fetch: (string, nat) -> Attempt<R>, base: string, start: int, stop: int, end: int, maxRetries: int)
    ensures HarvestPages(fetch, base, start, stop, end, maxRetries).records
      == SuccessfulRecords(fetch, base, start, stop, maxRetries)
    decreases stop - start
  {
    if stop > start {
      SegmentsInPageOrder(fetch, base, start, stop - 1, end, maxRetries);
      SuccessfulRecordsSnoc(fetch, base, start, stop - 1, maxRetries);
    }
  }

  lemma {:induction false} SuccessfulRecordsSnoc<R>(fetch: (string, nat) -> Attempt<R>, base: string, start: int, last: int, maxRetries: int)
    requires start <= last
    ensures SuccessfulRecords(fetch, base, start, last + 1, maxRetries)
      == SuccessfulRecords(fetch, base, start, last, maxRetries) + PageRecords(fetch, base, last, maxRetries)
    decreases last - start
  {
    var tail := PageRecords(fetch, base, last, maxRetries);
    if start < last {
      var head := PageRecords(fetch, base, start, maxRetries);
      calc {
        SuccessfulRecords(fetch, base, start, last + 1, maxRetries);
        head + SuccessfulRecords(fetch, base, start + 1, last + 1, maxRetries);
      == { SuccessfulRecordsSnoc(fetch, base, start + 1, last, maxRetries); }
        head + (SuccessfulRecords(fetch, base, start + 1, last, maxRetries) + tail);
        (head + SuccessfulRecords(fetch, base, start + 1, last, maxRetries)) + tail;
        SuccessfulRecords(fetch, base, start, last, maxRetries) + tail;
      }
    } else {
      assert SuccessfulRecords(fetch, base, start, last + 1, maxRetries) == tail + [];
    }
  }

  /**
    The response: status 200 whatever happened; the meta block counts the
    segments, and the successful pages are the planned ones minus the failed
    ones, which are ascending, inside the window and never more than planned.
  */
  lemma ScrapedMeta<R>(fetch: (string, nat) -> Attempt<R>, base: string, c: PaginationConfig)
    ensures var d := Scraped(fetch, base, c);
      var pr := GetPageRange(c);
      && d.status == 200
      && d.meta.totalMatches == |d.segments|
      && d.meta.successfulPages == d.meta.totalPagesRequested - |d.meta.failedPages|
      && d.segments == SuccessfulRecords(fetch, base, pr.start, pr.end + 1, c.maxRetries)
      && (forall i, j | 0 <= i < j < |d.meta.failedPages| :: d.meta.failedPages[i] < d.meta.failedPages[j])
      && (forall i | 0 <= i < |d.meta.failedPages| :: pr.start <= d.meta.failedPages[i] <= pr.end)
      && (c.numPages >= 1 ==> 0 <= d.meta.successfulPages <= d.meta.totalPagesRequested)
  {
    var pr := GetPageRange(c);
    FailedPagesAscending(fetch, base, pr.start, pr.end + 1, pr.end, c.maxRetries);
    SegmentsInPageOrder(fetch, base, pr.start, pr.end + 1, pr.end, c.maxRetries);
  }

  /** With no retries allowed every planned page fails, and the response is still status 200 with no segments. */
  lemma {:induction false} NoRetriesAllFail<R>(fetch: (string, nat) -> Attempt<R>, base: string, start: int, stop: int, end: int, maxRetries: int)
    requires maxRetries <= 0
    ensures var h := HarvestPages(fetch, base, start, stop, end, maxRetries);
      h.records == [] && h.delays == [] && |h.failed| == Max(stop - start, 0)
    decreases stop - start
  {
    if stop > start {
      NoRetriesAllFail(fetch, base, start, stop - 1, end, maxRetries);
    }
  }
}
