# vlrggapi scraping core, modelled in Dafny

This project models the core of vlrggapi, an HTTP API that scrapes VLR.GG, the
Valorant esports site, and serves matches, teams, players and match details as
JSON. The model covers these parts:

- **Page engine** (`Pagination`). The planner turns `num_pages`, `from_page` and
  `to_page` into a page window. The page loop visits that window in ascending
  order. Each page gets at most `max_retries` attempts with exponential backoff.
  A page that never succeeds is recorded as failed, and the loop moves on to the
  next page.
- **Response cache** (`Cache`). One map per TTL namespace, created on first use,
  with `get`, `set`, `invalidate` and `clear_all`.
- **Shared HTTP client** (`HttpClient`). A process-wide client that has three
  states: none, open and closed.
- **Request validators and error mapping** (`ErrorHandling`). The validators
  either return or raise a 400 `HTTPException`. The scraper decorator maps
  exceptions to 504, 502 or 500.
- **Markup helpers** (`HtmlParsers`):
  - URL normalisation;
  - splitting an href into its id and slug;
  - countdown text ("1d 2h") into minutes;
  - prize-pool classification;
  - region from a flag class;
  - padding a match to two teams;
  - platform of a social link.
- **Match scrapers** (`Matches`). Upcoming and result rows, and the live-score
  merge that pairs each live match with its detail page by position. Also the
  cache rule of the paginated façades.
- **Match detail** (`MatchDetail`). Two cache namespaces, consulted live first.
  Two optional tab pages. The TTL chosen by liveness. Rounds, teams and the
  player and economy tables.
- **Team scrapers** (`Teams`). The roster walk with its staff flag and
  deduplication, social links, match and transaction rows, and page clamping.
  Non-200 pages are not cached.
- **Player scrapers** (`Players`). Current versus past teams, agent rows, the
  winnings fallback, news links, and the selector fallback of the player match
  list.
- **Version-2 envelope** (`V2Router`). `_wrap_v2` and the validation order of
  `v2_match`.

Network, HTML selection and the clock are replaced by inputs:

- A fetch is an oracle value. The page loop's fetch is a function from
  `(url, attempt)` to the attempt's outcome.
- `asyncio.gather` becomes a sequence of `Option` results aligned with its
  inputs.
- A selected DOM element becomes a record. The record holds the texts and
  attributes the parser reads.
- A sleep is recorded as its multiplier of `request_delay`, in a ghost log.

`Base` holds `Option` and `Result`. `Text` models the Python string built-ins the
scrapers use (`strip`, `split`, `replace`, `find`, `isdigit`, `int()`, `str()`,
`f"{n:,}"`). `Lists` holds generic list operations and their append lemmas.
These are helpers and have no rows below.

When every page fails, the scrape still returns status 200 with no segments and
every page under `failed_pages` (utils/pagination.py:121-141); see
`Pagination.ScrapedMeta`, `Pagination.NoRetriesAllFail`.

## Model

| member | source | states |
|---|---|---|
| Pagination.GetPageRange | utils/pagination.py:27-45 | The start page is never below 1. An explicit `from_page` is honoured, clamped to 1. With both bounds, the end is `max(start, to_page)` and the window holds at least one page. With only `from_page`, exactly `num_pages` pages are planned. With only `to_page`, the window ends at `max(1, to_page)` and starts `num_pages - 1` pages before it, but never below page 1. With no bounds, the window is pages 1 to `num_pages` with total `num_pages`. For `num_pages >= 1`, `total == end - start + 1`. |
| Pagination.PageRangeExamples | tests/test_utilities.py:15-38 | The planner gives the six windows the repository's tests expect: (1,1,1), (1,5,5), (3,7,5), (5,7,3), (8,10,3) and (1,5,5). |
| Pagination.PageUrlInjective | utils/pagination.py:72-74 | The default page URLs of two distinct pages (both at least 1) are distinct, so no page is fetched twice under another page's URL. |
| Pagination.ScrapeMultiplePages | utils/pagination.py:48-143 | The response and the sleep log are those of the specification `Scraped`/`ScrapedDelays`: the planned window is visited page by page. |
| Pagination.VisitPages | utils/pagination.py:81-123 | The page loop over `start..end` produces exactly the harvest of that window: its records, its failed pages and its delays. |
| Pagination.VisitPage | utils/pagination.py:82-123 | One iteration extends the harvest of the pages before it by exactly this page. |
| Pagination.AttemptPage | utils/pagination.py:82-119 | The retry loop returns the records and backoff log of the page's run: attempts in order, stopping at the first success. |
| Pagination.RunPageAttempts | utils/pagination.py:85-119 | A page makes at most `max_retries` attempts, and a failed page makes all of them. A successful page ends on a succeeding attempt whose records are returned, and no attempt before it succeeded. The `i`-th backoff is `2^(i+1)`, and a backoff follows every failed attempt but the last. |
| Pagination.PageFailsIffNoAttemptSucceeds | utils/pagination.py:85-122 | A page fails exactly when none of its `max_retries` attempts succeeds, in both directions. |
| Pagination.FirstAttemptSuccess | utils/pagination.py:96-107 | A first response of 200 whose parser returns ends the page after one attempt with no backoff, even when it has no records. |
| Pagination.FailedPagesAscending | utils/pagination.py:121-122 | The failed pages are strictly ascending, lie inside the visited window and are no more than the pages visited. |
| Pagination.FailedPagesExact | utils/pagination.py:85-122 | A visited page is listed as failed exactly when none of its attempts succeeded. |
| Pagination.SegmentsInPageOrder | utils/pagination.py:81-105 | The segments are the successful pages' records concatenated in page order. |
| Pagination.SuccessfulRecordsSnoc | utils/pagination.py:104-105 | The records of a window that grows by one page end with that page's records. |
| Pagination.ScrapedMeta | utils/pagination.py:125-143 | The status is 200 whatever happened. `total_matches` counts the segments, and the segments are the successful pages' records in order. `successful_pages` is the planned pages minus the failed ones. The failed pages are ascending and inside the window. For `num_pages >= 1`, `successful_pages` lies between 0 and the planned total. |
| Pagination.NoRetriesAllFail | utils/pagination.py:85-122 | With `max_retries <= 0` every planned page fails without a fetch or a sleep, and no records are returned. |
| Cache.MakeCacheKeyExact | utils/cache_manager.py:25-29 | Two keys are equal exactly when their positional and keyword arguments are equal. This is the determinism and distinctness the tests expect. |
| Cache.WithNamespace | utils/cache_manager.py:19-23 | Creating a namespace adds only that TTL, keeps an existing one as is, and changes no lookup. |
| Cache.Stored | utils/cache_manager.py:37-41 | After `set`, the key in that namespace reads back the value, and every other (namespace, key) pair reads as before. |
| Cache.Invalidated | utils/cache_manager.py:43-47 | After `invalidate`, that entry reads as absent and every other entry as before. Invalidating an absent entry changes no lookup. |
| Cache.Cleared | utils/cache_manager.py:49-52 | After `clear_all`, every namespace is kept and every lookup in any namespace finds nothing. |
| Cache.CacheManager.constructor | utils/cache_manager.py:15-17 | A new manager has no namespaces. |
| Cache.CacheManager.Get | utils/cache_manager.py:31-35 | `get` returns the stored value or None, and creates the namespace but changes no entry. |
| Cache.CacheManager.Set | utils/cache_manager.py:37-41 | The new store is `Stored` of the old one. |
| Cache.CacheManager.Invalidate | utils/cache_manager.py:43-47 | The new store is `Invalidated` of the old one. |
| Cache.CacheManager.ClearAll | utils/cache_manager.py:49-52 | The loop over the namespaces leaves the store `Cleared` and keeps the namespace order. |
| Cache.CacheManager.GetCache | utils/cache_manager.py:19-23 | The namespace exists afterwards. It is appended to the creation order only when it is new, and no lookup changes. |
| Cache.CacheScenarios | tests/test_utilities.py:108-137 | The repository's cache tests hold on the store: set then get, a missing key, two keys in one namespace, invalidate, and clear over two namespaces. |
| HttpClient.AsyncClient.constructor | utils/http_client.py:16-21 | A new client is open. |
| HttpClient.AsyncClient.Close | utils/http_client.py:28-29 | Closing marks the client closed. |
| HttpClient.ClientSingleton.constructor | utils/http_client.py:9 | The singleton starts with no client. |
| HttpClient.ClientSingleton.GetHttpClient | utils/http_client.py:12-22 | The caller always gets an open client, which becomes the singleton. An open client is reused, and a missing or closed one is replaced by a fresh client. |
| HttpClient.ClientSingleton.CloseHttpClient | utils/http_client.py:25-30 | An open client is closed and forgotten, so the next get builds a new one. With no client or a closed one, nothing changes. |
| ErrorHandling.ValidateTimespan | utils/error_handling.py:71-76 | Accepts exactly "30", "60", "90" and "all". Anything else raises 400 with the sorted list of valid values. |
| ErrorHandling.ValidatePlayerTimespan | utils/error_handling.py:98-104 | Accepts exactly "30d", "60d", "90d" and "all". Anything else raises 400 with the sorted list of valid values. |
| ErrorHandling.ValidateMatchQuery | utils/error_handling.py:80-86 | Accepts exactly upcoming, upcoming_extended, live_score and results. Anything else raises 400. |
| ErrorHandling.ValidateEventQuery | utils/error_handling.py:89-95 | Accepts exactly an absent query, "upcoming" and "completed". Anything else raises 400. |
| ErrorHandling.ValidateRegion | utils/error_handling.py:61-68 | A known key gives its full region name. An unknown key raises 400. |
| ErrorHandling.ValidateIdParam | utils/error_handling.py:107-113 | Accepts exactly the non-empty strings of ASCII digits. Anything else raises 400 naming the parameter. |
| ErrorHandling.ValidatePageParam | utils/error_handling.py:116-122 | The result lies in `[1, max_page]` when `max_page >= 1`. An in-range page is unchanged, a page below 1 becomes 1, and one above `max_page` becomes `max_page`. |
| ErrorHandling.RequestedPages | utils/error_handling.py:133-136 | With both bounds and `from <= to`, the requested pages are exactly `to - from + 1`; with `from > to`, exactly 1. Otherwise they are `num_pages`. |
| ErrorHandling.ValidateMatchWorkload | utils/error_handling.py:125-163 | Returns normally exactly when the window, the retries and the timeout are all within their limits. Every rejection is a 400. The first exceeded limit in the order window, retries, timeout is the one reported. |
| ErrorHandling.OversizedWindowRejected | tests/test_endpoints.py:85-88 | When the page window limit is below 21, a 21-page request is rejected. |
| ErrorHandling.RaiseHttpError | utils/error_handling.py:28-41 | An HTTPException passes through unchanged. A timeout becomes 504 even though it is also an httpx HTTP error. Other httpx errors become 502, and everything else 500. |
| ErrorHandling.HandleScraperErrors | utils/error_handling.py:26-58 | A returned value passes through unchanged. An exception becomes the HTTP error `RaiseHttpError` maps it to. |
| ErrorHandling.HandledStatuses | utils/error_handling.py:28-41 | Apart from an HTTPException raised inside, every error the decorator lets out is 500, 502 or 504. |
| V2Router.Wrap | routers/v2_router.py:37-49 | Raises exactly when "data" is present with an int (or bool) status of 400 or more. It raises with that status, and with the payload's "error" as detail, else "Upstream request failed". Otherwise it returns `{"status": "success", "data": …}` holding the payload unchanged, or the whole result when there is no "data". |
| V2Router.WrapScraperResult | routers/v2_router.py:37-49 | A scraper result passes through exactly when its status is below 400. Otherwise its status becomes the HTTP status, with its own "error" as detail when it has one. |
| V2Router.WrapKeepsPayload | routers/v2_router.py:45-49 | Reading "data" back from a successful envelope gives the payload, or the whole result when it had no "data". |
| V2Router.WrapEnvelopeAgain | routers/v2_router.py:39-48 | Wrapping a successful envelope again gives the same envelope. |
| V2Router.NoDataNeverRaises | routers/v2_router.py:49 | A result without "data" never raises, whatever it holds. |
| V2Router.V2Match | routers/v2_router.py:91-120 | Every failure is an HTTP error status. Success requires a valid query kind and, for the paginated kinds, an accepted workload, and the answer is a success envelope. Once those checks pass, an `HTTPException` the scraper raised propagates unchanged, and a returned result is wrapped by `_wrap_v2`. |
| V2Router.QueryCheckedFirst | routers/v2_router.py:111 | An unknown query kind is reported first, as a 400, whatever the workload. |
| V2Router.WorkloadOnlyWhenPaginated | routers/v2_router.py:113-114 | For upcoming and live_score the workload limits play no part: the answer is the wrapped scraper result, or the scraper's raised exception. |
| V2Router.OversizedWorkloadRejected | routers/v2_router.py:111-114 | A paginated query over the workload limits is rejected with the workload's 400, and the scraper result is not used. |
| HtmlParsers.NormalizeImageUrl | utils/html_parsers.py:92-102 | An empty source stays empty. `//x` gains the https scheme, `/x` gains the site root, and anything else is unchanged. |
| HtmlParsers.NormalizeImageUrlIdempotent | utils/html_parsers.py:92-102 | For an absolute site root, normalising a normalised URL changes nothing. |
| HtmlParsers.BuildFullUrl | utils/html_parsers.py:105-109 | An empty href stays empty. Any href starting with `/`, `//` included, is prefixed with the site root, and anything else is unchanged. |
| HtmlParsers.BuildFullUrlIdempotent | utils/html_parsers.py:105-109 | For an absolute site root, building from a built URL changes nothing. |
| HtmlParsers.FirstNumeric | utils/html_parsers.py:279-283 | Finds the first all-digit segment: no earlier segment is all digits, and None means no segment is. |
| HtmlParsers.ParseHrefIdSlug | utils/html_parsers.py:271-283 | The id is empty or all digits, and the slug is empty when the id is. Without a numeric segment both are empty. Otherwise the id is the first numeric segment of the slash-trimmed path and the slug the segment after it, or "". |
| HtmlParsers.LinkSegments | utils/html_parsers.py:278 | The path `/<kind>/<id>/<slug>` splits into exactly those three segments. |
| HtmlParsers.TwoSegments | utils/html_parsers.py:278 | The path `/<a>/<b>` splits into exactly those two segments. |
| HtmlParsers.HrefRoundTrip | utils/html_parsers.py:271-283 | Reading back a link `/<kind>/<id>/<slug>` with a non-numeric kind and a numeric id gives exactly `(id, slug)`. |
| HtmlParsers.EtaMinutes | utils/html_parsers.py:159-178 | A countdown is strictly positive. Missing, blank, live ("LIVE" in any case) and past ("ago") texts have none. Otherwise it is the sum of the `<n><d/h/m>` tokens in minutes, when that sum is positive. |
| HtmlParsers.ParseEta | utils/html_parsers.py:159-178 | The parser returns exactly `EtaMinutes` of its input. |
| HtmlParsers.SumTokens | utils/html_parsers.py:169-177 | The accumulation loop returns the tokens' total in minutes: days × 1440, hours × 60 and minutes × 1. |
| HtmlParsers.TokensLead | utils/html_parsers.py:166 | A digit run followed directly by a unit letter is read as one token, and the scan continues after it. |
| HtmlParsers.TokensSpace | utils/html_parsers.py:166 | A space between tokens is skipped. |
| HtmlParsers.OneToken | utils/html_parsers.py:166 | `<n><u>` is read as the single token `(n, u)`. |
| HtmlParsers.TwoTokens | utils/html_parsers.py:166 | `<a><u> <b><v>` is read as the two tokens it spells. |
| HtmlParsers.EtaOfPlain | utils/html_parsers.py:163-178 | For a stripped, lower-case, non-live text, the minutes are the sum of its tokens when that is positive. |
| HtmlParsers.TwoTokenCountdown | utils/html_parsers.py:159-178 | A countdown `<a><u> <b><v>` reads back as `a·unit(u) + b·unit(v)` minutes, or None when that is 0. |
| HtmlParsers.OneTokenCountdown | utils/html_parsers.py:159-178 | A countdown `<n><u>` reads back as `n·unit(u)` minutes, or None when that is 0. |
| HtmlParsers.EtaExamples | tests/test_utilities.py:43-51 | "4h 1m" is 241 minutes, "1d 2h" is 1560 minutes and "30m" is 30 minutes. |
| HtmlParsers.EtaNoneExamples | tests/test_utilities.py:53-63 | "LIVE", "2h ago", "" and a missing text have no countdown. |
| HtmlParsers.MarkedHasNoEta | utils/html_parsers.py:163-165 | Any text whose stripped form is live or past has no countdown. |
| HtmlParsers.BeforePrizeLabel | utils/html_parsers.py:30 | The candidate is a prefix of the text, and it is the whole text when there is no "prize pool" in any case. |
| HtmlParsers.ExtractPrizeValue | utils/html_parsers.py:19-46 | The value is "", "TBD" or a dollar sign followed by digits and commas. A missing element gives "". |
| HtmlParsers.ClassifyPrize | utils/html_parsers.py:36-46 | The classification yields only "", "TBD" or a dollar amount. |
| HtmlParsers.PrizeClassification | utils/html_parsers.py:36-46 | TBD in any case gives "TBD". A `$` followed by digits and commas is kept as is. A bare run of digits and commas longer than two characters gains a `$`. Anything else, a `$` followed by other text included, gives "". |
| HtmlParsers.PrizeValueIdempotent | utils/html_parsers.py:19-46 | A value the extractor produced is extracted as itself. |
| HtmlParsers.ExtractRegionFromFlag | utils/html_parsers.py:83-89 | A missing element gives "". Otherwise the result is the class with every "flag mod-" removed, then stripped, and so is always stripped. |
| HtmlParsers.RegionRoundTrip | utils/html_parsers.py:83-89 | The class `flag mod-<code>` gives back `<code>` for any stripped code free of the marker. |
| HtmlParsers.FlagOfPlain | utils/html_parsers.py:135-140 | A flag class with none of the rewritten markers is kept as it is. |
| HtmlParsers.TeamOf | utils/html_parsers.py:127-149 | A missing name reads "TBD", and a present one is stripped. A missing flag or score reads "". A present flag is the country code of its class, and a present score is its stripped text. |
| HtmlParsers.PadToTwo | utils/html_parsers.py:151-152 | The padded list keeps the original elements in place and fills with the pad up to exactly two, never shortening. |
| HtmlParsers.ExtractMatchTeams | utils/html_parsers.py:121-154 | Always two teams. The first two elements give them in order, and any missing one is the placeholder ("TBD", "", ""). |
| HtmlParsers.PadTeams | utils/html_parsers.py:151-152 | The padding loop gives exactly `PadToTwo` with the placeholder team. |
| HtmlParsers.FirstPlatform | utils/html_parsers.py:302-304 | Finds the first table entry with a domain inside the host: no earlier entry matches, and None means none does. |
| HtmlParsers.InferPlatform | utils/html_parsers.py:297-305 | An empty URL is "other". Otherwise the result is the first platform in table order that has a domain occurring in the lower-cased host with `w` and `.` stripped from its start, and "other" when none does. |
| Matches.TeamElems | api/scrapers/matches.py:48 | The team elements are read one per `.h-match-team`, in order. |
| Matches.UpcomingEta | api/scrapers/matches.py:50-52 | "LIVE" stays "LIVE". Any other countdown gains " from now". |
| Matches.UpcomingRow | api/scrapers/matches.py:48-74 | The loop body builds exactly the upcoming entry of its item. |
| Matches.CollectUpcoming | api/scrapers/matches.py:42-74 | The loop gives one entry per upcoming item, in page order, and skips the others. |
| Matches.UpcomingOutcome | api/scrapers/matches.py:76-82 | The scrape succeeds exactly when the homepage status is 200. Otherwise it raises. |
| Matches.VlrUpcomingMatches | api/scrapers/matches.py:30-82 | A cache hit is returned without reading the homepage. On a miss a raising homepage request propagates its exception; otherwise the page is scraped. The result is stored only when the scrape succeeded, so a raised request or a non-200 page is never cached. |
| Matches.FirstOrNA | api/scrapers/matches.py:117-120 | A missing round counter reads "N/A". A present one is the first counter's stripped text. |
| Matches.LiveTeamOf | api/scrapers/matches.py:108-121 | A live team is read exactly when its name, flag and score elements all exist. Otherwise reading it raises. |
| Matches.LiveTeamsOf | api/scrapers/matches.py:108-121 | All teams are read, in order, exactly when each of them can be. |
| Matches.LiveMatchOf | api/scrapers/matches.py:99-140 | A live match record builds exactly when its teams do, and links `https://www.vlr.gg/` plus its href. |
| Matches.LiveMatchRaises | api/scrapers/matches.py:99-140 | A live item that raises makes the whole first loop raise. |
| Matches.LiveMatchesSnoc | api/scrapers/matches.py:99-140 | One more item is skipped when not live, is appended when live and its record builds, and makes the loop raise otherwise. |
| Matches.CollectLiveMatches | api/scrapers/matches.py:97-140 | The first loop gives one record per live item, in page order, or raises. |
| Matches.MapNumber | api/scrapers/matches.py:179-180 | The map number is "Unknown" or a digit run the map text starts with. |
| Matches.CurrentMap | api/scrapers/matches.py:178 | The map name never starts with a digit. |
| Matches.MapTextSplit | api/scrapers/matches.py:174-180 | A numbered map text is exactly its number followed by its name. A text without a leading number reads as map "Unknown" and is its own name. |
| Matches.Logos | api/scrapers/matches.py:163-168 | Without a detail page, or with fewer than two header images, the logos are empty. Otherwise they are the first two images' sources with the https scheme. |
| Matches.MapInfo | api/scrapers/matches.py:170-180 | Without a detail page or an active map tab, the map is ("Unknown", "Unknown"). With a tab whose `div` exists, it is the number and name of its text. Reading a tab without a `div` raises. |
| Matches.EntryOf | api/scrapers/matches.py:182-205 | An entry builds exactly when the match has two teams and its map can be read. It then carries those two teams' names, flags, scores and round counters, the logos and map of its detail page, "LIVE", and its own match page. |
| Matches.FailedDetailDegrades | api/scrapers/matches.py:143-160 | A failed detail fetch still yields the entry, with empty logos and "Unknown" map number and map name. |
| Matches.LiveEntries | api/scrapers/matches.py:154-205 | Entry `i` pairs live match `i` with detail result `i`, and the list builds exactly when every entry does. |
| Matches.MergeLive | api/scrapers/matches.py:154-205 | The merge loop over the zipped lists gives exactly `LiveEntries`. |
| Matches.Gathered | api/scrapers/matches.py:143-152 | The detail results are aligned with the live matches: result `i` is the fetch of match `i`'s page, whatever the completion order. |
| Matches.LiveScorePositional | api/scrapers/matches.py:97-210 | On success there is one entry per live item, in homepage order, each built from its own detail page. A non-200 homepage raises. |
| Matches.VlrLiveScore | api/scrapers/matches.py:85-213 | A cache hit is returned without a fetch. On a miss a raising homepage request propagates its exception; otherwise the page is scraped and enriched by position. Only a success is stored. |
| Matches.ListEta | api/scrapers/matches.py:225-232 | A non-blank status text is used as is. Otherwise any text shown is the stripped countdown, and it does not contain "ago". |
| Matches.Column | api/scrapers/matches.py:238-250 | A column has one entry per team element. |
| Matches.ColumnAt | api/scrapers/matches.py:238-250 | Entry `k` of a column comes from team element `k`. |
| Matches.MatchRowFields | api/scrapers/matches.py:216-298 | An entry is skipped exactly when its countdown reads "ago". Otherwise it reports the first two teams' names, flags and scores, padded with "TBD", "" and "". It also reports its status text, page number and link. |
| Matches.TeamColumns | api/scrapers/matches.py:235-257 | The three columns are read and padded to two with "TBD", "" and "". |
| Matches.CollectColumns | api/scrapers/matches.py:238-250 | The team loop reads names, flags and scores one per element, in order. |
| Matches.ParseSingleMatch | api/scrapers/matches.py:216-298 | The parser returns exactly the row `MatchRowOf` describes. |
| Matches.PadList | api/scrapers/matches.py:252-257 | A padding loop gives exactly `PadToTwo`. |
| Matches.PagedKeyExact | api/scrapers/matches.py:422 | Two requests share a cache entry exactly when they ask for the same `num_pages`, `from_page` and `to_page`. Retries, delay and timeout play no part. |
| Matches.CachedPagedScrape | api/scrapers/matches.py:422-433 | A hit is returned without scraping. A miss returns the page engine's response and stores it under the same key, whatever it holds. |
| Matches.VlrUpcomingMatchesExtended | api/scrapers/matches.py:412-433 | The matches list, cached under `("upcoming_ext", num_pages, from_page, to_page)`, with the cache-then-scrape rule. A hit returns the cached value and leaves the cache unchanged except for creating the namespace. |
| Matches.VlrMatchResults | api/scrapers/matches.py:436-457 | The results list at `/results`, cached under `("results", num_pages, from_page, to_page)`, with the cache-then-scrape rule. A hit returns the cached value and leaves the cache unchanged except for creating the namespace. |
| MatchDetail.GameIdsExact | api/scrapers/match_detail.py:499-506 | An id is extracted exactly when it is in the nav, non-empty and not "all". |
| MatchDetail.GameIdsInOrder | api/scrapers/match_detail.py:499-506 | The ids keep document order: the ids of a concatenated nav are the concatenation of its parts' ids. |
| MatchDetail.NameTag | api/scrapers/match_detail.py:98-108 | A missing name element gives an empty name and tag. Otherwise the name is the first non-blank stripped line and the tag the second, each "" when absent; so a tag never comes without a name, and neither has surrounding whitespace. |
| MatchDetail.TeamsProperties | api/scrapers/match_detail.py:88-156 | Always two teams, and at most one is the winner. The scores are set exactly when at least two spans are all digits, and are then those spans' texts. Team 1 wins exactly when the first scored span has the winner class. Team 2 wins exactly when only the second one does. |
| MatchDetail.ParseTeams | api/scrapers/match_detail.py:88-156 | The method builds exactly `TeamsOf` of the header. |
| MatchDetail.PlaceScores | api/scrapers/match_detail.py:137-154 | The score and winner steps give exactly `TeamsFrom` of their inputs. |
| MatchDetail.PlaceLogos | api/scrapers/match_detail.py:95-119 | The logo loop sets the first two images with a non-empty `src`, normalised, and leaves scores empty and no winner. |
| MatchDetail.FirstWin | api/scrapers/match_detail.py:374-382 | Finds the first winning square: no earlier square wins, and None means none does. |
| MatchDetail.Numbered | api/scrapers/match_detail.py:369-388 | One round per column, numbered from 1, with the winner and side of that column's squares. |
| MatchDetail.RoundsProperties | api/scrapers/match_detail.py:341-390 | Rounds are numbered 1, 2, 3… in order. The side is "ct", "t" or "", and the winner "team1", "team2" or "". |
| MatchDetail.WinnerOfSquares | api/scrapers/match_detail.py:371-382 | The winner is team1 exactly when the first square wins, and "" exactly when no square wins. |
| MatchDetail.ScanSquares | api/scrapers/match_detail.py:372-382 | The square loop stops at the first winning square and returns its team and side. |
| MatchDetail.FirstWinAt | api/scrapers/match_detail.py:374-382 | A winning square with no winning square before it is the first win. |
| MatchDetail.NoWinFrom | api/scrapers/match_detail.py:374-382 | With no winning square from `k` on, no first win is found. |
| MatchDetail.ParseRounds | api/scrapers/match_detail.py:341-390 | The counter loop over every row's columns gives exactly `RoundsOf` the container: none without a container, and spacing and empty columns skipped. |
| MatchDetail.CountRow | api/scrapers/match_detail.py:360-388 | One row continues the count of the rows before it. |
| MatchDetail.CountColumn | api/scrapers/match_detail.py:361-388 | A spacing or empty column is skipped, and any other becomes the next round. |
| MatchDetail.NumberedSnoc | api/scrapers/match_detail.py:369-388 | One more counted column adds the round numbered one past the previous ones. |
| MatchDetail.SafeVal | api/scrapers/match_detail.py:217-218 | A column beyond the row reads "". |
| MatchDetail.PlayerRowOf | api/scrapers/match_detail.py:185-252 | Twelve stats. Stat `k` is column `k + 2`, and it is "" when the row is shorter. |
| MatchDetail.TablePlayersExact | api/scrapers/match_detail.py:268-281 | Every player comes from a row of at least five cells, and every such row gives one. Rows with fewer cells, empty ones included, are skipped. |
| MatchDetail.ParseTableRows | api/scrapers/match_detail.py:268-281 | The row loop gives exactly `TablePlayers`. |
| MatchDetail.ParseMaps | api/scrapers/match_detail.py:393-448 | One map per game block other than "all", in order, with its rounds and its two teams' player tables. |
| MatchDetail.FillValues | api/scrapers/match_detail.py:542-544 | Every written column's label is a key. It holds that column's text unless a later column has the same label. |
| MatchDetail.LabelFallback | api/scrapers/match_detail.py:543 | A column past the header row is labelled by its index, in digits. |
| MatchDetail.FillRow | api/scrapers/match_detail.py:542-544 | The column loop writes exactly `Fill` of the row into the dictionary. |
| MatchDetail.BodyRows | api/scrapers/match_detail.py:533-536 | Only rows with cells are kept. |
| MatchDetail.KillMatrixOf | api/scrapers/match_detail.py:513-548 | One kill row per body row with cells, in order. |
| MatchDetail.AdvancedOf | api/scrapers/match_detail.py:551-584 | One stats dictionary per body row with cells, in order. |
| MatchDetail.EconomyOf | api/scrapers/match_detail.py:591-621 | One economy dictionary per body row with cells, in order. |
| MatchDetail.ParseKillMatrix | api/scrapers/match_detail.py:513-548 | The loop gives exactly `KillMatrixOf`. |
| MatchDetail.KillMatrixRow | api/scrapers/match_detail.py:533-546 | One iteration skips a row without cells and otherwise adds that player's row. |
| MatchDetail.ParseAdvancedStats | api/scrapers/match_detail.py:551-584 | The loop gives exactly `AdvancedOf`. |
| MatchDetail.AdvancedStatsRow | api/scrapers/match_detail.py:570-582 | One iteration skips a row without cells and otherwise adds that player's dictionary. |
| MatchDetail.ParseEconomy | api/scrapers/match_detail.py:591-621 | The loop gives exactly `EconomyOf`. |
| MatchDetail.EconomyRow | api/scrapers/match_detail.py:609-619 | One iteration skips a row without cells and otherwise adds its dictionary. |
| MatchDetail.TabsOnlyWithGame | api/scrapers/match_detail.py:669-676 | A page without game ids fetches no tab. Its response does not depend on the tab pages, and its performance is empty. |
| MatchDetail.FailedTabsEmpty | api/scrapers/match_detail.py:680-713 | Failed tab fetches leave the kill matrix, advanced stats and economy empty and never fail the match. The status and teams come from the base page. |
| MatchDetail.BuildDetail | api/scrapers/match_detail.py:668-734 | The response is `DetailOf` the base page. The tab URLs requested are those of the first game id, or none. |
| MatchDetail.VlrMatchDetail | api/scrapers/match_detail.py:628-741 | The live namespace is consulted first and then the completed one. A hit in either returns without any fetch, and the cache changes only by creating the namespaces consulted. On a double miss the base page is fetched first, and a raising fetch propagates its error with nothing cached. A fetched page is cached whatever its status, under the live TTL exactly when its vs-note mentions LIVE, and its tabs are fetched only for a first game id. |
| Teams.FirstModToken | api/scrapers/teams.py:133-136 | The index found is the first `mod-X` token from the start index on; None means there is none. |
| Teams.FirstModTokenAt | api/scrapers/teams.py:133-136 | A platform token preceded only by other tokens is the one found. |
| Teams.NoModTokenFrom | api/scrapers/teams.py:133-136 | With no platform token left, none is found. |
| Teams.PlatformOf | api/scrapers/teams.py:130-140 | The platform is the first `mod-X` class token's non-empty `X`; without such a token it is the platform the URL suggests. |
| Teams.ClassPlatform | api/scrapers/teams.py:131-136 | The class-token loop breaks at the first platform token and yields its name, or "" when there is none. |
| Teams.SocialLink1 | api/scrapers/teams.py:130-142 | One anchor gives the link of its platform and stripped URL. |
| Teams.SocialLinksDistinct | api/scrapers/teams.py:124-128 | Every link has a non-empty URL and no two links share a URL. |
| Teams.SocialLinksFromAnchors | api/scrapers/teams.py:124-142 | Every link is built from one of the anchors walked. |
| Teams.SocialLinksFirstWins | api/scrapers/teams.py:124-128 | The first anchor carrying a given non-empty URL yields a link. |
| Teams.ParseSocialLinks | api/scrapers/teams.py:105-144 | Gathering the link bar's anchors plus the `a.social` anchors not among them, then walking with a `seen` set, gives exactly one link per distinct non-empty URL, first anchor first. |
| Teams.PlayerOf | api/scrapers/teams.py:243-287 | A roster entry carries the staff flag it was given, the item's alias and whether the item has a star. Its id is the id parsed from the anchor's href, its URL the site URL of the href, its avatar the normalised image URL and its country the region of its flag class. Its role is the name block's text beyond the names, "" without a name block, and never starts or ends with a space, `-`, `/` or `|`. |
| Teams.RosterItemLink | api/scrapers/teams.py:246-248 | An item linking to `/<kind>/<id>/<slug>` gives a player whose id is `id` and whose URL is `https://www.vlr.gg` followed by the link. |
| Teams.ParseSingleRosterItem | api/scrapers/teams.py:243-287 | The method builds exactly that entry. |
| Teams.StaffSection | api/scrapers/teams.py:209-216 | Every roster item after a label, up to the next label, carries the flag that label set; the items met before it are untouched. |
| Teams.RosterDistinct | api/scrapers/teams.py:221-225 | Roster entries have a non-empty alias-or-id and no two share one. |
| Teams.RosterFirstWins | api/scrapers/teams.py:221-225 | The first item met with a given alias-or-id is kept. |
| Teams.RosterFromWalk | api/scrapers/teams.py:204-225 | Every roster entry is an item met by the walk. |
| Teams.FallbackRoster | api/scrapers/teams.py:195-202 | Without a summary container nobody is staff, and entries have non-empty, pairwise distinct aliases. |
| Teams.KeepFirst | api/scrapers/teams.py:221-225 | One step of a `seen`-set walk keeps the deduplicated prefix and its key set in step. |
| Teams.FallbackWalk | api/scrapers/teams.py:196-202 | The fallback loop gives every item as a non-staff entry, deduplicated by alias. |
| Teams.ContainerWalk | api/scrapers/teams.py:204-227 | The container loop gives the walked items deduplicated by alias-or-id. |
| Teams.ParseRoster | api/scrapers/teams.py:182-227 | The roster is the container walk when the container exists, else the fallback. |
| Teams.ResultOf | api/scrapers/teams.py:418-426 | The result is "win", "loss" or "". |
| Teams.ResultCases | api/scrapers/teams.py:423-426 | "win" exactly when either class says `mod-win`; "loss" exactly when neither says `mod-win` and one says `mod-loss`. |
| Teams.MatchEntries | api/scrapers/teams.py:432-442 | The entries are the teams found, in order, followed by empty entries up to two. |
| Teams.CollectEntries | api/scrapers/teams.py:432-442 | The team loop and the padding loop give exactly those entries. |
| Teams.MatchItemOf | api/scrapers/teams.py:402-466 | A row gives nothing exactly when its link is empty. Otherwise it has the link's id and URL, the result, the first two teams (or empty ones), the last non-blank event line, the date text, and the result element's text as score ("" without one). |
| Teams.ParseTeamMatchItem | api/scrapers/teams.py:402-466 | The method computes exactly that row. |
| Teams.TxnRole | api/scrapers/teams.py:544-547 | The role is cleared exactly when it is empty or equals the action ignoring case, and is otherwise kept. |
| Teams.TransactionOf | api/scrapers/teams.py:474-563 | A row gives nothing exactly when its name, player id and date are all empty. Otherwise it keeps the date, the action lower-cased and a role that does not repeat it. The player has the name text, the anchor's id and URL ("" without an anchor), the normalised avatar ("" without an image) and the flag's region. |
| Teams.ParseTransactions | api/scrapers/teams.py:780-788 | Raising rows are skipped and the rest give their transactions, in order. |
| Teams.VlrTeam | api/scrapers/teams.py:572-624 | A cache hit is returned without a fetch. A raising fetch propagates. A non-200 page gives no segment and is not cached. A 200 page gives one segment with its links and roster, which is cached under the team key. |
| Teams.ClampPage | api/scrapers/teams.py:649 | The page lies in 1..100, is kept when already there, and is clamped to the nearer end otherwise. |
| Teams.SelectMatchRows | api/scrapers/teams.py:673-688 | The rows are the first selector with results, else the content column's match links, else its matches links. |
| Teams.ParseTeamMatches | api/scrapers/teams.py:690-698 | Raising rows are skipped, rows without a link give nothing, and the rest give their matches, in order. |
| Teams.VlrTeamMatches | api/scrapers/teams.py:628-708 | The clamped page enters the key, the URL and the meta. A hit returns without a fetch. A non-200 page gives no rows and is not cached. A 200 page's parsed rows are cached. |
| Teams.VlrTeamTransactions | api/scrapers/teams.py:712-792 | A hit returns without a fetch. A non-200 page gives no rows and is not cached. A 200 page's rows, found through the selector fallbacks, are parsed and cached. |
| Players.FirstModPrefix | api/scrapers/players.py:80-83 | The index found is the first class token starting with `mod-` from the start index on; None means there is none. |
| Players.LinkPlatform | api/scrapers/players.py:78-85 | The platform is the first `mod-` token's non-empty suffix. With no such token, or when that token is the bare `mod-`, it is the platform the URL suggests. |
| Players.ClassPlatform | api/scrapers/players.py:79-83 | The token loop stops at the first `mod-` token and yields its suffix, or "" when there is none. |
| Players.SocialLinkOf | api/scrapers/players.py:74-86 | An anchor gives a link exactly when its `href` is non-empty; the link carries the raw `href`. |
| Players.PlayerSocialLinksExact | api/scrapers/players.py:70-87 | The links are the anchors with an `href`, in page order, with duplicates kept. |
| Players.ParseSocialLinks | api/scrapers/players.py:70-87 | The anchor loop gives exactly those links. |
| Players.CountryOf | api/scrapers/players.py:46-57 | The country is the header flag's region when that is non-empty, else the page's first flag's; it is "" exactly when both are. |
| Players.ParsePlayerInfo | api/scrapers/players.py:29-67 | The identity fields are the name, real name, normalised avatar, country and social links. |
| Players.LastDates | api/scrapers/players.py:120-127 | The dates are "" exactly when every date text is empty. Otherwise they are the last non-empty text: every text after it is empty. |
| Players.LatestDates | api/scrapers/players.py:121-127 | The reversed loop with its `break` gives the last non-empty date text. |
| Players.ReadTeamItem | api/scrapers/players.py:110-136 | One item is read into its name, status tag, normalised logo and dates. |
| Players.PlaceTeam | api/scrapers/players.py:138-152 | Placing record `i` on the teams sorted from the records before it gives the teams sorted from the records up to and including it: the loop body keeps the invariant that `current` and `past` are the sorting of the prefix visited. |
| Players.SortBeforeCurrent | api/scrapers/players.py:138-152 | While no record can be current, the current team stays empty and every named record is a past team, in order. |
| Players.SortAfterCurrent | api/scrapers/players.py:146-152 | Once a current team is set it never changes, and every later named record is a past team, in order. |
| Players.SortUpToCurrent | api/scrapers/players.py:138-152 | Up to the first record that can be current, that record is current and the named records before it are past. |
| Players.TeamsSplit | api/scrapers/players.py:109-154 | The first named record without an end date is the current team, and every other named record, before or after it, is a past team in page order. |
| Players.ParseTeams | api/scrapers/players.py:90-154 | Without a summary container there is no team; otherwise the loop gives exactly that split. |
| Players.FirstCount | api/scrapers/players.py:205 | The position found is the leftmost match of `\((\d+)\)`; None means none matches. |
| Players.FirstPct | api/scrapers/players.py:208 | The position found is the leftmost match of `(\d+%)`; None means none matches. |
| Players.FirstPctSkips | api/scrapers/players.py:208 | The search passes over positions where the percentage does not match. |
| Players.UsageCount | api/scrapers/players.py:205-207 | The count is "" exactly when no parenthesised number occurs, and is otherwise all digits. |
| Players.UsagePct | api/scrapers/players.py:208-210 | The percentage is "" exactly when no number followed by `%` occurs, and is otherwise digits followed by `%`. |
| Players.UsageColumnCount | api/scrapers/players.py:202-207 | The usage column as the site writes it, `(206) 46%`, gives the count `206`. |
| Players.NoPctInCount | api/scrapers/players.py:208 | No percentage match starts inside the `(count) ` prefix. |
| Players.UsageColumnPct | api/scrapers/players.py:202-210 | The same column gives the percentage `46%`. |
| Players.StatTexts | api/scrapers/players.py:212-233 | The fifteen statistics are the texts of columns 2 to 16, in order. |
| Players.AgentStatOf | api/scrapers/players.py:186-234 | A row is skipped exactly when it has fewer than 17 cells or no agent name; otherwise it carries the name, the two halves of the usage column and the statistics. |
| Players.AgentRowsKept | api/scrapers/players.py:186-234 | Every row with 17 cells and an agent name gives a row of the result, and every result row has a name and fifteen statistics. |
| Players.ParseAgentStats | api/scrapers/players.py:157-236 | The row loop gives the agent rows; without a table there are none. |
| Players.NewsOf | api/scrapers/players.py:329-347 | An anchor gives an item exactly when its `href` is non-empty, is an article link and has a non-empty title; the item carries the title, the full URL and the date. |
| Players.ArticleLink | api/scrapers/players.py:333-335 | A link `/<digits>/<slug>` passes the article filter. |
| Players.EntityLinkIsNotArticle | api/scrapers/players.py:333-335 | A team or player link `/<kind>/<id>/<slug>` does not pass it. |
| Players.ParseNews | api/scrapers/players.py:314-349 | The anchor loop gives exactly the items of the anchors in scope, in order. |
| Players.AmountRun | api/scrapers/players.py:373 | The run is the longest prefix of digits and commas. |
| Players.Amounts | api/scrapers/players.py:373 | Every group of the successive `$` matches is non-empty. |
| Players.FirstAmount | api/scrapers/players.py:366-368 | The first match starts with `$` and has at least one digit or comma. |
| Players.AmountValue | api/scrapers/players.py:374-377 | A group converts exactly when, without its commas, it is a non-empty run of digits. |
| Players.MaxOf | api/scrapers/players.py:380 | The maximum is one of the values and no value exceeds it. |
| Players.FirstSelectedAmount | api/scrapers/players.py:362-368 | The amount found is the first match in the first earnings text, from `i` on, that holds one: no earlier text holds an amount. Nothing is found exactly when no earnings text from `i` on holds an amount. |
| Players.Winnings | api/scrapers/players.py:352-382 | The winnings are "" or a dollar amount. An amount in an earnings element wins over the page-wide fallback. |
| Players.WinningsFallback | api/scrapers/players.py:370-382 | Without an earnings amount, the winnings are "" exactly when the page has no amount; otherwise they read back as the largest amount on the page. |
| Players.TotalWinnings | api/scrapers/players.py:352-382 | The selector loop, the match loop and the maximum give exactly those winnings. |
| Players.CardResult | api/scrapers/players.py:400-408 | "win" exactly when the result class says `mod-win`; "loss" exactly when it says `mod-loss` but not `mod-win`; "" otherwise. |
| Players.PlayerMatchOf | api/scrapers/players.py:390-453 | A card gives nothing exactly when both its id and its URL are empty. Otherwise it has that id and URL, the result, the score, the first two teams (or empty ones), and the card's event and date texts. |
| Players.CardDroppedIffNoHref | api/scrapers/players.py:441-442 | A card is dropped exactly when it has no `href`. |
| Players.ParsePlayerMatchItem | api/scrapers/players.py:390-453 | The method computes exactly that card's match. |
| Players.HistorySource | api/scrapers/players.py:538-561 | Every match comes from a non-raising primary card, or, when no primary card gives one, from an fc-flex card. |
| Players.ParseCards | api/scrapers/players.py:539-548 | Raising cards are skipped and the rest give their matches, in order. |
| Players.ParseHistory | api/scrapers/players.py:536-561 | The fc-flex cards are read only when the primary cards gave no match. |
| Players.FallbackAddsNothing | api/scrapers/players.py:550-561 | When the fc-flex cards are among the primary cards, as the selectors make them, the fallback adds nothing: the history is the primary cards' matches. |
| Players.VlrPlayerMatches | api/scrapers/players.py:513-571 | A hit returns without a fetch. A raising fetch propagates. Otherwise the page is parsed and cached whatever its status, with the page number as meta. |
| Players.ParseProfile | api/scrapers/players.py:483-505 | The segment combines the info, teams, agent statistics, news and winnings parsers. |
| Players.VlrPlayer | api/scrapers/players.py:462-509 | A hit returns without a fetch. A raising fetch propagates. Otherwise the one segment is parsed and cached whatever the status. |

## Left out

- ErrorHandling.ValidateRegion: the error detail omits the sorted list of valid region keys, because the region table is a parameter; the contract states only the status 400.
- ErrorHandling.ValidateMatchQuery: the contract states the status 400 but not the text of the detail message.
- ErrorHandling.ValidateEventQuery: the contract states the status 400 but not the text of the detail message.
- ErrorHandling.ValidateMatchWorkload: the timeout rejection's detail text is computed but not stated; only the window and retries details are.
- Teams.VlrTeam: the team segment keeps the id, name, tag, social links and roster. The header's successor, logo, country and description are not modelled, and neither are the rating block (`_parse_rating_info`) or the event placements and total winnings (`_parse_event_placements`).
- Players.VlrPlayer: the event placements (`_parse_event_placements`, api/scrapers/players.py:239-311) are not part of the segment.
- MatchDetail.VlrMatchDetail: the event info, the header's date, patch and status, the streams and VODs, head-to-head, and each map's name, pick, duration and score blocks are not modelled. The segment keeps the teams, the maps' rounds and player tables, the performance tabs and the economy.
- Matches.UpcomingOutcome: an upcoming entry's event (`.h-match-preview-event`), series (`.h-match-preview-series`) and timestamp (`.moment-tz-convert`) elements and its `href` attribute are taken to be present and the timestamp to parse as an integer, so the raise of a missing element, a failing `int(...)` or an absent `href` (api/scrapers/matches.py:54-60), which the scraper decorator turns into a 500, is not modelled.
- Matches.LiveMatchOf: likewise a live entry's event, series and timestamp elements and its `href` are taken to be present, so the raise of a missing one or of a failing `int(...)` (api/scrapers/matches.py:123-129) is not modelled; only the team elements' absence raises.
- The winner_score/loser_score loop in `_parse_teams` (api/scrapers/match_detail.py:122-132) computes values that are never used, so it is not modelled.
- Network I/O (httpx) is left out: every fetch is an oracle value supplied by the caller.
- Concurrency is left out. `asyncio.gather` is an aligned sequence of `Option` results, and its scheduling is not modelled.
- Timing is left out. `asyncio.sleep` is recorded as its multiplier of the float `request_delay` in a ghost log, and timeouts are integers.
- Cache expiry and eviction are left out: TTL expiry and maxsize eviction are internals of the cachetools library. The JSON and MD5 hashing of keys is replaced by the argument tuple itself, which keeps equality of keys.
- The clock and timezone helpers `combine_date_and_time` and `parse_match_timestamp` are left out. Timestamps are taken as given strings.
- The regex free-text helpers are left out: `_extract_placement`, `_extract_prize_from_text` and `_extract_date_from_text` in api/scrapers/teams.py, and `extract_date_range` in utils/html_parsers.py.
- `parse_match_items`, `extract_tournament_icon` and `extract_text_content` are left out, because none of the modelled scrapers depend on them.
- The page callbacks `_parse_upcoming_page` and `_parse_results_page` are left out. Each page attempt's records are part of the fetch oracle. `_parse_single_match` itself is modelled.
- CSS selection and `.text()` are left out: each selected element is a record of the texts and attributes its parser reads.
- `urlparse` inside `infer_platform` is replaced by a host given as input.
- Python's `upper`, `lower` and `isdigit` are modelled over ASCII. `split("\n")` and `splitlines` treat only `\n` as a line break.
- An element whose absence makes the source raise inside a per-item `try` is modelled by a `raises` predicate on the item.
- The constants `CACHE_TTL_*`, `MAX_MATCH_*` and `VLR_MATCHES_URL` are parameters, because their values are not part of utils/constants.py.
- The scrapers in news.py, rankings.py, stats.py and events.py are left out, because they are pure selector scraping behind the same cache-then-raise façade.
- The routing glue (routers/vlr_router.py, routers/shared_handlers.py, api/scrape.py, main.py), FastAPI `Query` bounds and rate limiting are left out.
