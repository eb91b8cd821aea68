/**
  Request validators and the mapping from scraper failures to HTTP errors.

  A validator either returns normally (with a value for the ones that
  produce one) or raises FastAPI's `HTTPException`, modelled as a `Failure`
  carrying the status code and detail text. The workload limits and the region
  table live outside the modelled files and are parameters.
*/
module ErrorHandling {
  import opened Base
  import opened Text

  /** `HTTPException(status_code, detail)`. */
  datatype HttpError = HttpError(status: int, detail: string)

  /** A validator that returns nothing or raises. */
  type Check = Result<(), HttpError>

  function Ok(): Check {
    Success(())
  }

  function Reject(detail: string): Check {
    Failure(HttpError(400, detail))
  }

  /** `validate_timespan`. */
  function ValidateTimespan(ts: string): (r: Check)
    ensures r.Success? <==> ts == "30" || ts == "60" || ts == "90" || ts == "all"
    ensures r.Failure? ==> r.error == HttpError(400, "Invalid timespan '" + ts + "'. Valid values: 30, 60, 90, all")
  {
    if ts !in {"30", "60", "90", "all"} then
      Reject("Invalid timespan '" + ts + "'. Valid values: 30, 60, 90, all")
    else
      Ok()
  }

  /** `validate_player_timespan`. */
  function ValidatePlayerTimespan(ts: string): (r: Check)
    ensures r.Success? <==> ts == "30d" || ts == "60d" || ts == "90d" || ts == "all"
    ensures r.Failure? ==> r.error == HttpError(400, "Invalid timespan '" + ts + "'. Valid values: 30d, 60d, 90d, all")
  {
    if ts !in {"30d", "60d", "90d", "all"} then
      Reject("Invalid timespan '" + ts + "'. Valid values: 30d, 60d, 90d, all")
    else
      Ok()
  }

  /** `validate_match_query`: the error lists the valid values in sorted order. */
  function ValidateMatchQuery(q: string): (r: Check)
    ensures r.Success? <==> q == "upcoming" || q == "upcoming_extended" || q == "live_score" || q == "results"
    ensures r.Failure? ==> r.error.status == 400
  {
    if q !in {"upcoming", "upcoming_extended", "live_score", "results"} then
      Reject("Invalid match query '" + q + "'. Valid values: live_score, results, upcoming, upcoming_extended")
    else
      Ok()
  }

  /** Python's `str(None)` and `str(s)` as they appear in an f-string. */
  function ShowOptional(q: Option<string>): string {
    match q
    case None => "None"
    case Some(s) => s
  }

  /** `validate_event_query`: an absent query is valid. */
  function ValidateEventQuery(q: Option<string>): (r: Check)
    ensures r.Success? <==> q == None || q == Some("upcoming") || q == Some("completed")
    ensures r.Failure? ==> r.error.status == 400
  {
    if q !in {Some("upcoming"), Some("completed"), None} then
      Reject("Invalid event query '" + ShowOptional(q) + "'. Valid values: upcoming, completed")
    else
      Ok()
  }

  /** `validate_region`: the full region name for a known key. */
  function ValidateRegion(regions: map<string, string>, key: string): (r: Result<string, HttpError>)
    ensures r.Success? <==> key in regions
    ensures r.Success? ==> r.value == regions[key]
    ensures r.Failure? ==> r.error.status == 400
  {
    if key !in regions then Failure(HttpError(400, "Invalid region '" + key + "'."))
    else Success(regions[key])
  }

  /** `validate_id_param`: accepts exactly the non-empty strings of digits. */
  function ValidateIdParam(value: string, name: string): (r: Check)
    ensures r.Success? <==> value != [] && forall i | 0 <= i < |value| :: '0' <= value[i] <= '9'
    ensures r.Failure? ==> r.error == HttpError(400, "Invalid " + name + " '" + value + "'. Must be a numeric ID.")
  {
    if value == [] || !IsDigits(value) then
      Reject("Invalid " + name + " '" + value + "'. Must be a numeric ID.")
    else
      Ok()
  }

  /** `validate_page_param`: clamps the page into `[1, max_page]`. */
  function ValidatePageParam(page: int, maxPage: int): (r: int)
    ensures maxPage >= 1 ==> 1 <= r <= maxPage
    ensures 1 <= page <= maxPage ==> r == page
    ensures page < 1 ==> r == 1
    ensures 1 <= page && maxPage < page ==> r == maxPage
  {
    if page < 1 then 1
    else if page > maxPage then maxPage
    else page
  }

  /** `MAX_MATCH_PAGE_WINDOW`, `MAX_MATCH_RETRIES` and `MAX_MATCH_TIMEOUT`. */
  datatype WorkloadLimits = WorkloadLimits(maxPageWindow: int, maxRetries: int, maxTimeout: int)

  /** The number of pages a match scrape asks for. */
  function RequestedPages(numPages: int, fromPage: Option<int>, toPage: Option<int>): (n: int)
    ensures fromPage.Some? && toPage.Some? ==> n >= 1 && n >= toPage.value - fromPage.value + 1
    // an ordered pair of bounds asks for exactly the pages between them, a reversed pair for one page
    ensures fromPage.Some? && toPage.Some? && fromPage.value <= toPage.value ==> n == toPage.value - fromPage.value + 1
    ensures fromPage.Some? && toPage.Some? && fromPage.value > toPage.value ==> n == 1
    ensures !(fromPage.Some? && toPage.Some?) ==> n == numPages
  {
    if fromPage.Some? && toPage.Some? then
      var span := toPage.value - fromPage.value + 1;
      if span >= 1 then span else 1
    else
      numPages
  }

  /** `validate_match_workload`: window, then retries, then timeout. */
  function ValidateMatchWorkload(limits: WorkloadLimits, numPages: int, fromPage: Option<int>, toPage: Option<int>, maxRetries: int, timeout: int): (r: Check)
    // returns normally exactly when all three are within their limits
    ensures r.Success? <==>
      RequestedPages(numPages, fromPage, toPage) <= limits.maxPageWindow
      && maxRetries <= limits.maxRetries && timeout <= limits.maxTimeout
    // every rejection is a 400, and the first exceeded limit in check order is the one reported
    ensures r.Failure? ==> r.error.status == 400
    ensures RequestedPages(numPages, fromPage, toPage) > limits.maxPageWindow ==>
      r == Reject(WindowDetail(RequestedPages(numPages, fromPage, toPage), limits.maxPageWindow))
    ensures RequestedPages(numPages, fromPage, toPage) <= limits.maxPageWindow && maxRetries > limits.maxRetries ==>
      r == Reject(RetriesDetail(maxRetries, limits.maxRetries))
  {
    var requested := RequestedPages(numPages, fromPage, toPage);
    if requested > limits.maxPageWindow then
      Reject(WindowDetail(requested, limits.maxPageWindow))
    else if maxRetries > limits.maxRetries then
      Reject(RetriesDetail(maxRetries, limits.maxRetries))
    else if timeout > limits.maxTimeout then
      Reject("Timeout (" + IntToString(timeout) + "s) exceeds the maximum allowed (" + IntToString(limits.maxTimeout) + "s).")
    else
      Ok()
  }

  function WindowDetail(requested: int, limit: int): string {
    "Requested page window (" + IntToString(requested) + ") exceeds the maximum allowed (" + IntToString(limit) + ")."
  }

  function RetriesDetail(retries: int, limit: int): string {
    "Max retries (" + IntToString(retries) + ") exceeds the maximum allowed (" + IntToString(limit) + ")."
  }

  /** With a window below 21 pages, asking for 21 pages is rejected. */
  lemma OversizedWindowRejected(limits: WorkloadLimits, maxRetries: int, timeout: int)
    requires limits.maxPageWindow < 21
    ensures ValidateMatchWorkload(limits, 21, None, None, maxRetries, timeout).Failure?
  {
  }

  // ---------------------------------------------------------------------------
  // handle_scraper_errors
  // ---------------------------------------------------------------------------

  /** What a scraper can raise. An httpx timeout is also an httpx HTTP error. */
  datatype ScraperException =
    | RaisedHttpException(err: HttpError)
    | HttpxTimeout
    | HttpxOtherError
    | OtherException

  predicate IsHttpxError(e: ScraperException) {
    e.HttpxTimeout? || e.HttpxOtherError?
  }

  /** `_raise_http_error`: the HTTP error a scraper exception becomes. */
  function RaiseHttpError(e: ScraperException): (r: HttpError)
    // an HTTP error already raised passes through unchanged
    ensures e.RaisedHttpException? ==> r == e.err
    // a timeout is reported as 504, although it is an httpx HTTP error too
    ensures e.HttpxTimeout? ==> r == HttpError(504, "Upstream request timed out")
    ensures IsHttpxError(e) && !e.HttpxTimeout? ==> r == HttpError(502, "Failed to fetch data from VLR.GG")
    ensures !e.RaisedHttpException? && !IsHttpxError(e) ==> r == HttpError(500, "Internal server error")
  {
    if e.RaisedHttpException? then e.err
    else if e.HttpxTimeout? then HttpError(504, "Upstream request timed out")
    else if IsHttpxError(e) then HttpError(502, "Failed to fetch data from VLR.GG")
    else HttpError(500, "Internal server error")
  }

  /** `handle_scraper_errors` around one call: a returned value passes through unchanged. */
  function HandleScraperErrors<T>(outcome: Result<T, ScraperException>): (r: Result<T, HttpError>)
    ensures outcome.Success? <==> r.Success?
    ensures outcome.Success? ==> r.value == outcome.value
    ensures outcome.Failure? ==> r.error == RaiseHttpError(outcome.error)
  {
    match outcome
    case Success(v) => Success(v)
    case Failure(e) => Failure(RaiseHttpError(e))
  }

  /** Every failure the decorator lets out is the original HTTP error or a 5xx. */
  lemma HandledStatuses<T>(outcome: Result<T, ScraperException>)
    requires outcome.Failure? && !outcome.error.RaisedHttpException?
    ensures HandleScraperErrors(outcome).error.status in {500, 502, 504}
  {
  }
}
