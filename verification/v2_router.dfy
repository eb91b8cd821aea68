/**
  The version-2 router: the envelope every endpoint wraps its scraper's
  result in, and the order in which the match endpoint validates its query.

  Scraper results are JSON-like Python values. The query-parameter bounds
  declared with FastAPI's `Query(ge=…, le=…)` are enforced by the framework
  before a handler runs and are not part of this model.
*/
module V2Router {
  import opened Base
  import opened ErrorHandling

  /**
    A JSON-like Python value. Booleans are kept apart from integers because
    Python's `isinstance(True, int)` holds; floats are kept by their text.
  */
  datatype Json =
    | JNull
    | JBool(b: bool)
    | JInt(i: int)
    | JFloat(text: string)
    | JStr(s: string)
    | JList(items: seq<Json>)
    | JObj(fields: map<string, Json>)

  /** FastAPI's `HTTPException(status_code, detail)`; the detail may be any value. */
  datatype HttpException = HttpException(status: int, detail: Json)

  /** A validator's `HTTPException` carries a text detail. */
  function Raised(e: HttpError): HttpException {
    HttpException(e.status, JStr(e.detail))
  }

  /** The status of a wrapped payload, when it is a dict whose "status" is an `int` (a `bool` counts as 0 or 1). */
  function IntStatus(inner: Json): Option<int> {
    if inner.JObj? && "status" in inner.fields then
      match inner.fields["status"]
      case JInt(i) => Some(i)
      case JBool(b) => Some(if b then 1 else 0)
      case _ => None
    else None
  }

  const UpstreamFailed: string := "Upstream request failed"

  /** `inner.get("error", "Upstream request failed")` on a dict. */
  function ErrorDetail(inner: Json): Json {
    if inner.JObj? && "error" in inner.fields then inner.fields["error"] else JStr(UpstreamFailed)
  }

  /** `{"status": "success", "data": data}`. */
  function Envelope(data: Json): map<string, Json> {
    map["status" := JStr("success"), "data" := data]
  }

  /** `_wrap_v2`. */
  function Wrap(result: map<string, Json>): (r: Result<map<string, Json>, HttpException>)
    // it raises exactly for a payload under "data" whose integer status is 400 or more
    ensures r.Failure? <==> "data" in result && IntStatus(result["data"]).Some? && IntStatus(result["data"]).value >= 400
    // with that status, and the payload's "error" as detail, else the generic text
    ensures r.Failure? ==>
      r.error == HttpException(IntStatus(result["data"]).value, ErrorDetail(result["data"])) && r.error.status >= 400
    // otherwise the envelope holds the payload unchanged, or the whole result when there is no "data"
    ensures r.Success? ==> r.value.Keys == {"status", "data"} && r.value["status"] == JStr("success")
    ensures r.Success? && "data" in result ==> r.value["data"] == result["data"]
    ensures r.Success? && "data" !in result ==> r.value["data"] == JObj(result)
  {
    if "data" in result then
      var inner := result["data"];
      var status := IntStatus(inner);
      if status.Some? && status.value >= 400 then Failure(HttpException(status.value, ErrorDetail(inner)))
      else Success(Envelope(inner))
    else Success(Envelope(JObj(result)))
  }

  /** The shape every scraper returns: `{"data": {"status": status, …}}`. */
  function ScraperResult(status: int, rest: map<string, Json>): map<string, Json> {
    map["data" := JObj(rest["status" := JInt(status)])]
  }

  /**
    A scraper result is passed through exactly when its status is below 400;
    otherwise its status becomes the HTTP status, with its own "error" as
    detail when it has one.
  */
  lemma WrapScraperResult(status: int, rest: map<string, Json>)
    ensures var r := Wrap(ScraperResult(status, rest));
      && (r.Success? <==> status < 400)
      && (r.Success? ==> r.value == Envelope(JObj(rest["status" := JInt(status)])))
      && (r.Failure? ==> r.error.status == status)
      && (r.Failure? && "error" in rest ==> r.error.detail == rest["error"])
      && (r.Failure? && "error" !in rest ==> r.error.detail == JStr(UpstreamFailed))
  {
    var inner := rest["status" := JInt(status)];
    assert IntStatus(JObj(inner)) == Some(status);
    assert "error" in inner <==> "error" in rest;
  }

  /** Wrapping is undone by reading "data" back: the envelope loses nothing. */
  lemma WrapKeepsPayload(result: map<string, Json>)
    requires Wrap(result).Success?
    ensures var data := Wrap(result).value["data"];
      "data" in result ==> data == result["data"]
    ensures var data := Wrap(result).value["data"];
      "data" !in result ==> data.JObj? && data.fields == result
  {
  }

  /** Wrapping an envelope that came from a result with "data" gives the same envelope back. */
  lemma WrapEnvelopeAgain(result: map<string, Json>)
    requires "data" in result && Wrap(result).Success?
    ensures Wrap(Wrap(result).value) == Wrap(result)
  {
    var env := Wrap(result).value;
    assert env == Envelope(result["data"]);
    assert env["data"] == result["data"];
  }

  /** A result without "data" never raises, even when it carries an error status of its own. */
  lemma NoDataNeverRaises(result: map<string, Json>)
    requires "data" !in result
    ensures Wrap(result) == Success(Envelope(JObj(result)))
  {
  }

  /** The query of `v2_match`; the request delay, a float passed through untouched, is left out. */
  datatype MatchQuery = MatchQuery(q: string, numPages: int, fromPage: Option<int>, toPage: Option<int>, maxRetries: int, timeout: int)

  /** The queries that scrape several pages and so have their workload checked. */
  predicate IsPaginated(q: string) {
    q == "upcoming_extended" || q == "results"
  }

  /** `validate_match_workload` on the query's numbers. */
  function Workload(limits: WorkloadLimits, query: MatchQuery): Check {
    ValidateMatchWorkload(limits, query.numPages, query.fromPage, query.toPage, query.maxRetries, query.timeout)
  }

  /**
    What a scraper behind `handle_scraper_errors` raises: an `HTTPException`
    with an error status (a validator's 400, or the decorator's 500, 502 or 504).
  */
  type ScraperHttpError = e: HttpError | e.status >= 400 witness HttpError(500, "Internal server error")

  /** The checks `v2_match` makes before it calls the scraper, for the paginated kinds the workload too. */
  predicate Admitted(limits: WorkloadLimits, query: MatchQuery) {
    ValidateMatchQuery(query.q).Success? && (IsPaginated(query.q) ==> Workload(limits, query).Success?)
  }

  /**
    `v2_match`: the query kind is validated first, then the workload for the
    paginated kinds only, then the scraper runs (`getMatchData`, which returns
    the scraper's result or the `HTTPException` it raised) and its result is
    wrapped; a raised exception propagates unwrapped.
  */
  function V2Match(limits: WorkloadLimits, query: MatchQuery,
                   getMatchData: MatchQuery -> Result<map<string, Json>, ScraperHttpError>)
    : (r: Result<map<string, Json>, HttpException>)
    // every failure is an HTTP error status
    ensures r.Failure? ==> r.error.status >= 400
    // success needs a valid kind and, for the paginated kinds, an accepted workload
    ensures r.Success? ==> ValidateMatchQuery(query.q).Success?
    ensures r.Success? && IsPaginated(query.q) ==> Workload(limits, query).Success?
    ensures r.Success? ==> "status" in r.value && r.value["status"] == JStr("success")
    // once the checks pass, the scraper's exception is raised as it is, and its result is wrapped
    ensures Admitted(limits, query) && getMatchData(query).Failure? ==> r == Failure(Raised(getMatchData(query).error))
    ensures Admitted(limits, query) && getMatchData(query).Success? ==> r == Wrap(getMatchData(query).value)
  {
    var checked := ValidateMatchQuery(query.q);
    if checked.Failure? then Failure(Raised(checked.error))
    else
      var workload := if IsPaginated(query.q) then Workload(limits, query) else Ok();
      if workload.Failure? then Failure(Raised(workload.error))
      else
        match getMatchData(query)
        case Failure(e) => Failure(Raised(e))
        case Success(result) => Wrap(result)
  }

  /** An unknown query kind is reported before anything else, whatever the workload. */
  lemma QueryCheckedFirst(limits: WorkloadLimits, query: MatchQuery,
                          getMatchData: MatchQuery -> Result<map<string, Json>, ScraperHttpError>)
    requires ValidateMatchQuery(query.q).Failure?
    ensures V2Match(limits, query, getMatchData) == Failure(Raised(ValidateMatchQuery(query.q).error))
    ensures V2Match(limits, query, getMatchData).error.status == 400
  {
  }

  /** For the single-page kinds the workload limits play no part. */
  lemma WorkloadOnlyWhenPaginated(limits1: WorkloadLimits, limits2: WorkloadLimits, query: MatchQuery,
                                  getMatchData: MatchQuery -> Result<map<string, Json>, ScraperHttpError>)
    requires query.q == "upcoming" || query.q == "live_score"
    ensures V2Match(limits1, query, getMatchData) == V2Match(limits2, query, getMatchData)
    ensures getMatchData(query).Success? ==> V2Match(limits1, query, getMatchData) == Wrap(getMatchData(query).value)
    ensures getMatchData(query).Failure? ==> V2Match(limits1, query, getMatchData) == Failure(Raised(getMatchData(query).error))
  {
  }

  /** A paginated query over the workload limits is rejected with the workload's 400, and the scraper is not consulted. */
  lemma OversizedWorkloadRejected(limits: WorkloadLimits, query: MatchQuery,
                                  getMatchData: MatchQuery -> Result<map<string, Json>, ScraperHttpError>)
    requires IsPaginated(query.q)
    requires Workload(limits, query).Failure?
    ensures V2Match(limits, query, getMatchData) == Failure(Raised(Workload(limits, query).error))
    ensures V2Match(limits, query, getMatchData).error.status == 400
  {
  }
}
