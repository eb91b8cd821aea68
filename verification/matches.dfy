/**
  The match scrapers: the homepage lists (upcoming and live, the live one
  enriched from each match's own page), the parser of one entry of the
  paginated match list, and the cached paginated façades.

  A page is given as the texts and attributes the scraper selects from it.
  Fields the scraper reads without a guard are plain strings (their element is
  taken to be present); the team name, flag and score elements of a live match
  are optional, and a missing one raises, as it does in the scraper. Unix
  timestamps arrive already formatted. The homepage and detail responses are
  parameters: the homepage is the page fetched, or the exception its request
  raised; `fetchDetail(url)` is the detail page fetched for `url`, or None
  when the request raised, and the concurrent fetches become the sequence of
  those results aligned with the live matches.
*/
module Matches {
  import opened Base
  import opened Text
  import opened Cache
  import opened Pagination
  import opened ErrorHandling
  import opened HtmlParsers
  import opened Lists

  /** The site root the homepage scrapers prefix links with. */
  const HomeUrlPrefix: string := "https://www.vlr.gg/"

  // ---------------------------------------------------------------------------
  // Homepage input
  // ---------------------------------------------------------------------------

  /** One `.h-match-team` element: name, flag and score, plus the texts of its CT and T round counters. */
  datatype HomeTeam = HomeTeam(elem: TeamElem, ctRounds: seq<string>, tRounds: seq<string>)

  /** One homepage match link. */
  datatype HomeItem = HomeItem(
    upcomingMarker: bool,
    liveMarker: bool,
    teams: seq<HomeTeam>,
    etaText: string,
    eventText: string,
    seriesText: string,
    timestamp: string,
    href: string)

  /** The homepage response. */
  datatype HomePage = HomePage(status: int, items: seq<HomeItem>)

  /** `{"data": {"status": …, "segments": …}}`. */
  datatype HomeData<T> = HomeData(status: int, segments: seq<T>)

  /** Every failure of a homepage scraper (a missing element, a short list, a non-200 status) is a plain exception. */
  const Raised: ScraperException := OtherException

  // ---------------------------------------------------------------------------
  // vlr_upcoming_matches
  // ---------------------------------------------------------------------------

  datatype UpcomingEntry = UpcomingEntry(
    team1: string, team2: string, flag1: string, flag2: string,
    timeUntilMatch: string, matchSeries: string, matchEvent: string,
    unixTimestamp: string, matchPage: string)

  /** The elements `extract_match_teams` reads. */
  function TeamElems(teams: seq<HomeTeam>): (r: seq<TeamElem>)
    ensures |r| == |teams| && forall k | 0 <= k < |teams| :: r[k] == teams[k].elem
  {
    seq(|teams|, k requires 0 <= k < |teams| => teams[k].elem)
  }

  /** The team in position `i` as `extract_match_teams` pads it. */
  function TeamAt(elems: seq<TeamElem>, i: nat): TeamInfo {
    if i < |elems| then TeamOf(elems[i]) else PlaceholderTeam
  }

  /** The countdown shown for an upcoming match. */
  function UpcomingEta(etaText: string): (r: string)
    ensures Strip(etaText) == "LIVE" ==> r == "LIVE"
    ensures Strip(etaText) != "LIVE" ==> r == Strip(etaText) + " from now"
  {
    var eta := Strip(etaText);
    if eta != "LIVE" then eta + " from now" else eta
  }

  /** The entry for one upcoming homepage item. */
  function UpcomingEntryOf(item: HomeItem): UpcomingEntry {
    var elems := TeamElems(item.teams);
    var t1, t2 := TeamAt(elems, 0), TeamAt(elems, 1);
    UpcomingEntry(t1.name, t2.name, t1.flag, t2.flag, UpcomingEta(item.etaText),
      Strip(item.seriesText), Strip(item.eventText), item.timestamp, HomeUrlPrefix + item.href)
  }

  /** The `.h-match-eta.mod-upcoming` filter. */
  predicate IsUpcoming(item: HomeItem) {
    item.upcomingMarker
  }

  /** The entries of the upcoming items, in page order: the list `vlr_upcoming_matches` builds. */
  function UpcomingRows(items: seq<HomeItem>): seq<UpcomingEntry> {
    Map(Filter(items, IsUpcoming), UpcomingEntryOf)
  }

  /** The entry of one upcoming item, as the loop body builds it. */
  method UpcomingRow(item: HomeItem) returns (e: UpcomingEntry)
    ensures e == UpcomingEntryOf(item)
  {
    var team1, team2 := ExtractMatchTeams(TeamElems(item.teams));
    var eta := Strip(item.etaText);
    if eta != "LIVE" {
      eta := eta + " from now";
    }
    e := UpcomingEntry(team1.name, team2.name, team1.flag, team2.flag, eta,
      Strip(item.seriesText), Strip(item.eventText), item.timestamp, HomeUrlPrefix + item.href);
  }

  /** The collection loop of `vlr_upcoming_matches`: one entry per upcoming item, in page order. */
  method CollectUpcoming(items: seq<HomeItem>) returns (rows: seq<UpcomingEntry>)
    ensures rows == UpcomingRows(items)
  {
    rows := [];
    for i := 0 to |items|
      invariant rows == UpcomingRows(items[..i])
    {
      FilterPrefix(items, i, IsUpcoming);
      if items[i].upcomingMarker {
        var e := UpcomingRow(items[i]);
        MapSnoc(Filter(items[..i], IsUpcoming), items[i], UpcomingEntryOf);
        rows := rows + [e];
      }
    }
    assert items[..|items|] == items;
  }

  /** What `vlr_upcoming_matches` produces on a cache miss. */
  function UpcomingOutcome(home: HomePage): (r: Result<HomeData<UpcomingEntry>, ScraperException>)
    // a non-200 homepage raises
    ensures r.Success? <==> home.status == 200
    ensures r.Failure? ==> r.error == Raised
  {
    if home.status != 200 then Failure(Raised)
    else Success(HomeData(200, UpcomingRows(home.items)))
  }

  /** The cache key `("upcoming",)`. */
  function UpcomingKey(): CacheKey {
    MakeCacheKey([KStr("upcoming")], map[])
  }

  /** `vlr_upcoming_matches`: cached, and a failing scrape is never cached. */
  method VlrUpcomingMatches(cache: CacheManager<HomeData<UpcomingEntry>>, ttl: int, home: Result<HomePage, ScraperException>)
    returns (r: Result<HomeData<UpcomingEntry>, ScraperException>)
    requires cache.Valid()
    modifies cache
    ensures cache.Valid()
    // a hit is returned as it is, without looking at the homepage
    ensures Lookup(old(cache.caches), ttl, UpcomingKey()).Some? ==>
      r == Success(Lookup(old(cache.caches), ttl, UpcomingKey()).value) && cache.caches == WithNamespace(old(cache.caches), ttl)
    // a miss requests the homepage: a raising request propagates, otherwise the page is scraped
    ensures Lookup(old(cache.caches), ttl, UpcomingKey()).None? ==>
      r == (match home case Failure(e) => Failure(e) case Success(page) => UpcomingOutcome(page))
    // the result is stored only when the scrape succeeded
    ensures Lookup(old(cache.caches), ttl, UpcomingKey()).None? && r.Success? ==>
      cache.caches == Stored(old(cache.caches), ttl, UpcomingKey(), r.value)
    ensures r.Failure? ==> cache.caches == WithNamespace(old(cache.caches), ttl)
  {
    var cached := cache.Get(ttl, [KStr("upcoming")], map[]);
    if cached.Some? {
      return Success(cached.value);
    }
    if home.Failure? {
      return Failure(home.error);
    }
    var page := home.value;
    var rows := CollectUpcoming(page.items);
    if page.status != 200 {
      return Failure(Raised);
    }
    var data := HomeData(200, rows);
    cache.Set(ttl, data, [KStr("upcoming")], map[]);
    r := Success(data);
  }

  // ---------------------------------------------------------------------------
  // vlr_live_score
  // ---------------------------------------------------------------------------

  /** The CT and T round counters of one team; "N/A" when the counter is missing. */
  datatype RoundText = RoundText(ct: string, t: string)

  /** One team of a live match, as the first loop records it. */
  datatype LiveTeam = LiveTeam(name: string, flag: string, score: string, rounds: RoundText)

  /** One live match, as the first loop records it. */
  datatype LiveMatch = LiveMatch(teams: seq<LiveTeam>, event: string, series: string, timestamp: string, urlPath: string)

  /** The flag text of the live path: without the `flag ` cleanup of `extract_match_teams`. */
  function LiveFlag(cls: string): string {
    ReplaceAll(ReplaceAll(cls, " mod-", ""), "16", "_")
  }

  /** The first counter's text, or "N/A". */
  function FirstOrNA(texts: seq<string>): (r: string)
    ensures texts == [] ==> r == "N/A"
    ensures texts != [] ==> r == Strip(texts[0])
  {
    if texts == [] then "N/A" else Strip(texts[0])
  }

  /** One team of a live match; a missing name, flag or score element raises. */
  function LiveTeamOf(t: HomeTeam): (r: Option<LiveTeam>)
    ensures r.Some? <==> t.elem.nameText.Some? && t.elem.flagClass.Some? && t.elem.scoreText.Some?
    ensures r.Some? ==> r.value.name == Strip(t.elem.nameText.value) && r.value.score == Strip(t.elem.scoreText.value)
    ensures r.Some? ==> r.value.rounds == RoundText(FirstOrNA(t.ctRounds), FirstOrNA(t.tRounds))
  {
    if t.elem.nameText.None? || t.elem.flagClass.None? || t.elem.scoreText.None? then None
    else Some(LiveTeam(Strip(t.elem.nameText.value), LiveFlag(t.elem.flagClass.value),
      Strip(t.elem.scoreText.value), RoundText(FirstOrNA(t.ctRounds), FirstOrNA(t.tRounds))))
  }

  /** All teams of a live match, or None when one of them raises. */
  function LiveTeamsOf(teams: seq<HomeTeam>): (r: Option<seq<LiveTeam>>)
    ensures r.Some? <==> forall k | 0 <= k < |teams| :: LiveTeamOf(teams[k]).Some?
    ensures r.Some? ==> |r.value| == |teams| && forall k | 0 <= k < |teams| :: r.value[k] == LiveTeamOf(teams[k]).value
  {
    if forall k | 0 <= k < |teams| :: LiveTeamOf(teams[k]).Some? then
      Some(seq(|teams|, k requires 0 <= k < |teams| => LiveTeamOf(teams[k]).value))
    else None
  }

  /** The record the first loop keeps for one live item. */
  function LiveMatchOf(item: HomeItem): (r: Option<LiveMatch>)
    ensures r.Some? <==> LiveTeamsOf(item.teams).Some?
    ensures r.Some? ==> r.value.teams == LiveTeamsOf(item.teams).value && r.value.urlPath == HomeUrlPrefix + item.href
  {
    var teams := LiveTeamsOf(item.teams);
    if teams.None? then None
    else Some(LiveMatch(teams.value, Strip(item.eventText), Strip(item.seriesText), item.timestamp, HomeUrlPrefix + item.href))
  }

  /** The `.h-match-eta.mod-live` filter. */
  predicate IsLive(item: HomeItem) {
    item.liveMarker
  }

  /** The records of the live items in page order, or None when one of them raises. */
  function LiveMatches(items: seq<HomeItem>): Option<seq<LiveMatch>> {
    MapAll(Filter(items, IsLive), LiveMatchOf)
  }

  /** A live item that raises makes the whole first loop raise. */
  lemma LiveMatchRaises(items: seq<HomeItem>, i: nat)
    requires i < |items| && MapAll(Filter(items[..i + 1], IsLive), LiveMatchOf).None?
    ensures LiveMatches(items).None?
  {
    assert items == items[..i + 1] + items[i + 1..];
    FilterAppend(items[..i + 1], items[i + 1..], IsLive);
    MapAllRaised(Filter(items[..i + 1], IsLive), Filter(items[i + 1..], IsLive), LiveMatchOf);
  }

  /** One more item: kept when live and its record builds, the whole loop raising when it does not. */
  lemma LiveMatchesSnoc(items: seq<HomeItem>, i: nat, liveMatches: seq<LiveMatch>)
    requires i < |items| && LiveMatches(items[..i]) == Some(liveMatches)
    ensures !items[i].liveMarker ==> LiveMatches(items[..i + 1]) == Some(liveMatches)
    ensures items[i].liveMarker && LiveMatchOf(items[i]).None? ==> MapAll(Filter(items[..i + 1], IsLive), LiveMatchOf).None?
    ensures items[i].liveMarker && LiveMatchOf(items[i]).Some? ==>
      LiveMatches(items[..i + 1]) == Some(liveMatches + [LiveMatchOf(items[i]).value])
  {
    FilterPrefix(items, i, IsLive);
    MapAllSnoc(Filter(items[..i], IsLive), items[i], LiveMatchOf);
  }

  /** The first loop of `vlr_live_score`: one record per live item, in page order. */
  method CollectLiveMatches(items: seq<HomeItem>) returns (r: Option<seq<LiveMatch>>)
    ensures r == LiveMatches(items)
  {
    var liveMatches: seq<LiveMatch> := [];
    for i := 0 to |items|
      invariant LiveMatches(items[..i]) == Some(liveMatches)
    {
      LiveMatchesSnoc(items, i, liveMatches);
      var item := items[i];
      if item.liveMarker {
        var m := LiveMatchOf(item);
        if m.None? {
          // the exception escapes the loop
          LiveMatchRaises(items, i);
          return None;
        }
        liveMatches := liveMatches + [m.value];
      }
    }
    assert items[..|items|] == items;
    r := Some(liveMatches);
  }

  /** What the live match page contributes. */
  datatype ActiveMap =
    | NoActiveMap
      /** The active live map tab, with the text of its first `div` if it has one. */
    | ActiveMap(divText: Option<string>)

  /** A fetched match page: the `src` of each header image and the active map tab. */
  datatype DetailPage = DetailPage(logoSrcs: seq<string>, activeMap: ActiveMap)

  /** One live-score entry. */
  datatype LiveEntry = LiveEntry(
    team1: string, team2: string, flag1: string, flag2: string,
    team1Logo: string, team2Logo: string, score1: string, score2: string,
    team1RoundCt: string, team1RoundT: string, team2RoundCt: string, team2RoundT: string,
    mapNumber: string, currentMap: string, timeUntilMatch: string,
    matchEvent: string, matchSeries: string, unixTimestamp: string, matchPage: string)

  /** The map tab text with line breaks and tabs removed. */
  function MapText(div: string): string {
    RemoveChar(RemoveChar(Strip(div), '\n'), '\t')
  }

  /** `re.search(r"^\d+", map_text)`: the map number, or "Unknown". */
  function MapNumber(mapText: string): (r: string)
    ensures r == "Unknown" || (IsDigits(r) && StartsWith(mapText, r))
  {
    var d := DigitPrefix(mapText);
    if d == [] then "Unknown" else d
  }

  /** `re.sub(r"^\d+", "", map_text)`: the map name. */
  function CurrentMap(mapText: string): (r: string)
    ensures r == [] || !IsDigit(r[0])
  {
    mapText[|DigitPrefix(mapText)|..]
  }

  /** A numbered map tab splits into its number and its name, and nothing is lost. */
  lemma MapTextSplit(mapText: string)
    ensures MapNumber(mapText) != "Unknown" ==> MapNumber(mapText) + CurrentMap(mapText) == mapText
    ensures MapNumber(mapText) == "Unknown" ==> CurrentMap(mapText) == mapText
  {
    var d := DigitPrefix(mapText);
    assert mapText == d + mapText[|d|..];
  }

  /** The logos: the first two header images when there are at least two, else empty. */
  function Logos(d: Option<DetailPage>): (r: (string, string))
    ensures d.None? || |d.value.logoSrcs| < 2 ==> r == ("", "")
    ensures d.Some? && |d.value.logoSrcs| >= 2 ==> r == ("https:" + d.value.logoSrcs[0], "https:" + d.value.logoSrcs[1])
  {
    if d.Some? && |d.value.logoSrcs| >= 2 then ("https:" + d.value.logoSrcs[0], "https:" + d.value.logoSrcs[1])
    else ("", "")
  }

  /** `(map_number, current_map)`, or None when the tab has no `div` and reading it raises. */
  function MapInfo(d: Option<DetailPage>): (r: Option<(string, string)>)
    ensures r.None? <==> d.Some? && d.value.activeMap.ActiveMap? && d.value.activeMap.divText.None?
    ensures d.None? || d.value.activeMap.NoActiveMap? ==> r == Some(("Unknown", "Unknown"))
    ensures d.Some? && d.value.activeMap.ActiveMap? && d.value.activeMap.divText.Some? ==>
      var t := MapText(d.value.activeMap.divText.value);
      r == Some((MapNumber(t), CurrentMap(t)))
  {
    if d.None? || d.value.activeMap.NoActiveMap? then Some(("Unknown", "Unknown"))
    else if d.value.activeMap.divText.None? then None
    else
      var t := MapText(d.value.activeMap.divText.value);
      Some((MapNumber(t), CurrentMap(t)))
  }

  /** The entry for live match `m` and its detail page `d`; None when building it raises. */
  function EntryOf(m: LiveMatch, d: Option<DetailPage>): (r: Option<LiveEntry>)
    // indexing the second team raises when there is none, and so does an active tab without a div
    ensures r.Some? <==> |m.teams| >= 2 && MapInfo(d).Some?
    ensures r.Some? ==>
      && r.value.team1 == m.teams[0].name && r.value.team2 == m.teams[1].name
      && r.value.flag1 == m.teams[0].flag && r.value.flag2 == m.teams[1].flag
      && r.value.score1 == m.teams[0].score && r.value.score2 == m.teams[1].score
    ensures r.Some? ==> (r.value.team1Logo, r.value.team2Logo) == Logos(d)
    ensures r.Some? ==> (r.value.mapNumber, r.value.currentMap) == MapInfo(d).value
    ensures r.Some? ==>
      && r.value.team1RoundCt == m.teams[0].rounds.ct && r.value.team1RoundT == m.teams[0].rounds.t
      && r.value.team2RoundCt == m.teams[1].rounds.ct && r.value.team2RoundT == m.teams[1].rounds.t
    // a live entry always reads LIVE and links its match page
    ensures r.Some? ==> r.value.timeUntilMatch == "LIVE" && r.value.matchPage == m.urlPath
  {
    var info := MapInfo(d);
    if info.None? || |m.teams| < 2 then None
    else
      var logos := Logos(d);
      var rt := seq(|m.teams|, k requires 0 <= k < |m.teams| => m.teams[k].rounds);
      Some(LiveEntry(
        m.teams[0].name, m.teams[1].name, m.teams[0].flag, m.teams[1].flag,
        logos.0, logos.1, m.teams[0].score, m.teams[1].score,
        if |rt| > 0 then rt[0].ct else "N/A", if |rt| > 0 then rt[0].t else "N/A",
        if |rt| > 1 then rt[1].ct else "N/A", if |rt| > 1 then rt[1].t else "N/A",
        info.value.0, info.value.1, "LIVE", m.event, m.series, m.timestamp, m.urlPath))
  }

  /** A failed detail fetch degrades to placeholders and the match is still reported. */
  lemma FailedDetailDegrades(m: LiveMatch)
    requires |m.teams| >= 2
    ensures var e := EntryOf(m, None);
      e.Some? && e.value.team1Logo == "" && e.value.team2Logo == ""
      && e.value.mapNumber == "Unknown" && e.value.currentMap == "Unknown"
  {
  }

  /** The entries for the live matches and their detail pages, or None when one of them raises. */
  function LiveEntries(live: seq<LiveMatch>, details: seq<Option<DetailPage>>): (r: Option<seq<LiveEntry>>)
    requires |details| == |live|
    // entry `i` pairs live match `i` with detail result `i`, and every one must succeed
    ensures r.Some? <==> forall i | 0 <= i < |live| :: EntryOf(live[i], details[i]).Some?
    ensures r.Some? ==> |r.value| == |live| && forall i | 0 <= i < |live| :: r.value[i] == EntryOf(live[i], details[i]).value
  {
    if forall i | 0 <= i < |live| :: EntryOf(live[i], details[i]).Some? then
      Some(seq(|live|, i requires 0 <= i < |live| => EntryOf(live[i], details[i]).value))
    else None
  }

  /** The second loop of `vlr_live_score`, over `zip(live_matches, details)`. */
  method MergeLive(live: seq<LiveMatch>, details: seq<Option<DetailPage>>) returns (r: Option<seq<LiveEntry>>)
    requires |details| == |live|
    ensures r == LiveEntries(live, details)
  {
    var result: seq<LiveEntry> := [];
    for i := 0 to |live|
      invariant |result| == i
      invariant forall j | 0 <= j < i :: EntryOf(live[j], details[j]).Some? && result[j] == EntryOf(live[j], details[j]).value
    {
      var e := EntryOf(live[i], details[i]);
      if e.None? {
        return None;
      }
      result := result + [e.value];
    }
    r := Some(result);
    assert r.value == LiveEntries(live, details).value;
  }

  /** The detail results, aligned with the live matches. */
  function Gathered(live: seq<LiveMatch>, fetchDetail: string -> Option<DetailPage>): (r: seq<Option<DetailPage>>)
    ensures |r| == |live| && forall i | 0 <= i < |live| :: r[i] == fetchDetail(live[i].urlPath)
  {
    seq(|live|, i requires 0 <= i < |live| => fetchDetail(live[i].urlPath))
  }

  /** What `vlr_live_score` produces on a cache miss. */
  function LiveOutcome(home: HomePage, fetchDetail: string -> Option<DetailPage>): Result<HomeData<LiveEntry>, ScraperException> {
    var live := LiveMatches(home.items);
    if live.None? then Failure(Raised)
    else
      var entries := LiveEntries(live.value, Gathered(live.value, fetchDetail));
      if entries.None? || home.status != 200 then Failure(Raised)
      else Success(HomeData(200, entries.value))
  }

  /** One entry per live match, in homepage order, each built from its own detail page; a non-200 homepage raises. */
  lemma LiveScorePositional(home: HomePage, fetchDetail: string -> Option<DetailPage>)
    ensures var r := LiveOutcome(home, fetchDetail);
      r.Success? ==>
        && home.status == 200 && LiveMatches(home.items).Some?
        && |r.value.segments| == |Filter(home.items, IsLive)|
        && forall i | 0 <= i < |r.value.segments| ::
             var m := LiveMatches(home.items).value[i];
             EntryOf(m, fetchDetail(m.urlPath)) == Some(r.value.segments[i])
    ensures home.status != 200 ==> LiveOutcome(home, fetchDetail).Failure?
  {
    MapAllPositional(Filter(home.items, IsLive), LiveMatchOf);
  }

  /** The cache key `("live_score",)`. */
  function LiveKey(): CacheKey {
    MakeCacheKey([KStr("live_score")], map[])
  }

  /** `vlr_live_score`: cached; on a miss, scrape, enrich position by position, and cache only a success. */
  method VlrLiveScore(cache: CacheManager<HomeData<LiveEntry>>, ttl: int, home: Result<HomePage, ScraperException>,
                      fetchDetail: string -> Option<DetailPage>)
    returns (r: Result<HomeData<LiveEntry>, ScraperException>)
    requires cache.Valid()
    modifies cache
    ensures cache.Valid()
    ensures Lookup(old(cache.caches), ttl, LiveKey()).Some? ==>
      r == Success(Lookup(old(cache.caches), ttl, LiveKey()).value) && cache.caches == WithNamespace(old(cache.caches), ttl)
    // a raising homepage request propagates; otherwise the page is scraped and enriched
    ensures Lookup(old(cache.caches), ttl, LiveKey()).None? ==>
      r == (match home case Failure(e) => Failure(e) case Success(page) => LiveOutcome(page, fetchDetail))
    ensures Lookup(old(cache.caches), ttl, LiveKey()).None? && r.Success? ==>
      cache.caches == Stored(old(cache.caches), ttl, LiveKey(), r.value)
    ensures r.Failure? ==> cache.caches == WithNamespace(old(cache.caches), ttl)
  {
    var cached := cache.Get(ttl, [KStr("live_score")], map[]);
    if cached.Some? {
      return Success(cached.value);
    }
    if home.Failure? {
      return Failure(home.error);
    }
    var page := home.value;
    var live := CollectLiveMatches(page.items);
    if live.None? {
      return Failure(Raised);
    }
    var details := Gathered(live.value, fetchDetail);
    var entries := MergeLive(live.value, details);
    if entries.None? {
      return Failure(Raised);
    }
    if page.status != 200 {
      return Failure(Raised);
    }
    var data := HomeData(200, entries.value);
    cache.Set(ttl, data, [KStr("live_score")], map[]);
    r := Success(data);
  }

  // ---------------------------------------------------------------------------
  // _parse_single_match
  // ---------------------------------------------------------------------------

  /** One entry of the paginated match list. */
  datatype MatchItem = MatchItem(
    etaText: Option<string>,
    statusText: Option<string>,
    href: string,
    teams: seq<TeamElem>,
    seriesText: Option<string>,
    eventText: Option<string>,
    iconSrc: Option<string>,
    timestamp: string)

  datatype MatchRow = MatchRow(
    team1: string, team2: string, flag1: string, flag2: string,
    score1: string, score2: string, timeUntilMatch: string,
    matchSeries: string, matchEvent: string, unixTimestamp: string,
    matchPage: string, tournamentIcon: string, pageNumber: int)

  /** The flag text of the match list: `flag ` dropped, ` mod-` turned into `_`. */
  function ListFlag(cls: Option<string>): string {
    if cls.None? || cls.value == [] then "" else ReplaceAll(ReplaceAll(cls.value, "flag ", ""), " mod-", "_")
  }

  /** The status text: the status element's, else a countdown that is not in the past. */
  function ListEta(item: MatchItem): (r: string)
    ensures item.statusText.Some? && Strip(item.statusText.value) != [] ==> r == Strip(item.statusText.value)
    ensures r != [] && r != Strip(item.statusText.GetOr("")) ==>
      item.etaText.Some? && r == Strip(item.etaText.value) && !Contains(r, "ago")
  {
    var eta := if item.statusText.Some? then Strip(item.statusText.value) else "";
    if eta == [] && item.etaText.Some? then
      var t := Strip(item.etaText.value);
      if t != [] && !Contains(t, "ago") then t else eta
    else eta
  }

  /** The series text with line breaks and tabs dropped and whitespace runs collapsed. */
  function ListSeries(text: Option<string>): string {
    if text.None? then "" else CollapseSpaces(RemoveChar(RemoveChar(text.value, '\n'), '\t'))
  }

  /** A team's name: the stripped text, or "TBD" without a name element. */
  function ListName(e: TeamElem): string {
    if e.nameText.Some? then Strip(e.nameText.value) else "TBD"
  }

  /** A team's score: the stripped text, or "" without a score element. */
  function ListScore(e: TeamElem): string {
    if e.scoreText.Some? then Strip(e.scoreText.value) else ""
  }

  /** `f` applied to each team element, in order. */
  function Column(teams: seq<TeamElem>, f: TeamElem -> string): (r: seq<string>)
    ensures |r| == |teams|
  {
    if teams == [] then [] else Column(teams[..|teams| - 1], f) + [f(teams[|teams| - 1])]
  }

  /** Entry `k` of a column is `f` of team `k`. */
  lemma {:induction false} ColumnAt(teams: seq<TeamElem>, f: TeamElem -> string, k: nat)
    requires k < |teams|
    ensures Column(teams, f)[k] == f(teams[k])
    decreases |teams|
  {
    if k < |teams| - 1 {
      ColumnAt(teams[..|teams| - 1], f, k);
    }
  }

  function FlagColumn(e: TeamElem): string {
    ListFlag(e.flagClass)
  }

  /** The tournament icon: normalised when the image has a non-empty `src`. */
  function ListIcon(src: Option<string>): string {
    if src.Some? && src.value != [] then NormalizeImageUrl(src.value, VlrBase) else ""
  }

  /** The row `_parse_single_match` returns for an entry, or None for a finished one. */
  function MatchRowOf(item: MatchItem, page: int): Option<MatchRow> {
    if item.etaText.Some? && Contains(item.etaText.value, "ago") then None
    else
      var teams, flags, scores := PadToTwo(Column(item.teams, ListName), "TBD"), PadToTwo(Column(item.teams, FlagColumn), ""), PadToTwo(Column(item.teams, ListScore), "");
      Some(MatchRow(teams[0], teams[1], flags[0], flags[1], scores[0], scores[1], ListEta(item),
        ListSeries(item.seriesText), if item.eventText.Some? then LastNonBlankLine(item.eventText.value) else "",
        item.timestamp, if item.href != [] then VlrBase + item.href else "", ListIcon(item.iconSrc), page))
  }

  /**
    A match whose countdown reads "ago" is already over and skipped; otherwise
    the first two teams are reported, padded with "TBD" and empty flags and scores.
  */
  lemma MatchRowFields(item: MatchItem, page: int)
    ensures MatchRowOf(item, page).None? <==> item.etaText.Some? && Contains(item.etaText.value, "ago")
    ensures var row := MatchRowOf(item, page);
      row.Some? ==>
        && row.value.team1 == (if |item.teams| >= 1 then ListName(item.teams[0]) else "TBD")
        && row.value.team2 == (if |item.teams| >= 2 then ListName(item.teams[1]) else "TBD")
        && row.value.flag1 == (if |item.teams| >= 1 then ListFlag(item.teams[0].flagClass) else "")
        && row.value.flag2 == (if |item.teams| >= 2 then ListFlag(item.teams[1].flagClass) else "")
        && row.value.score1 == (if |item.teams| >= 1 then ListScore(item.teams[0]) else "")
        && row.value.score2 == (if |item.teams| >= 2 then ListScore(item.teams[1]) else "")
        && row.value.timeUntilMatch == ListEta(item) && row.value.pageNumber == page
        && row.value.matchPage == (if item.href == [] then "" else VlrBase + item.href)
  {
    var n := |item.teams|;
    if n >= 1 {
      ColumnAt(item.teams, ListName, 0);
      ColumnAt(item.teams, FlagColumn, 0);
      ColumnAt(item.teams, ListScore, 0);
    }
    if n >= 2 {
      ColumnAt(item.teams, ListName, 1);
      ColumnAt(item.teams, FlagColumn, 1);
      ColumnAt(item.teams, ListScore, 1);
    }
  }

  /** The three team columns of an entry, each padded to two. */
  method TeamColumns(teams: seq<TeamElem>) returns (names: seq<string>, flags: seq<string>, scores: seq<string>)
    ensures names == PadToTwo(Column(teams, ListName), "TBD")
    ensures flags == PadToTwo(Column(teams, FlagColumn), "")
    ensures scores == PadToTwo(Column(teams, ListScore), "")
  {
    names, flags, scores := CollectColumns(teams);
    names := PadList(names, "TBD");
    flags := PadList(flags, "");
    scores := PadList(scores, "");
  }

  /** The loop over an entry's team elements. */
  method CollectColumns(teams: seq<TeamElem>) returns (names: seq<string>, flags: seq<string>, scores: seq<string>)
    ensures names == Column(teams, ListName) && flags == Column(teams, FlagColumn) && scores == Column(teams, ListScore)
  {
    names, flags, scores := [], [], [];
    for i := 0 to |teams|
      invariant names == Column(teams[..i], ListName)
      invariant flags == Column(teams[..i], FlagColumn)
      invariant scores == Column(teams[..i], ListScore)
    {
      assert teams[..i + 1][..i] == teams[..i];
      names := names + [ListName(teams[i])];
      flags := flags + [ListFlag(teams[i].flagClass)];
      scores := scores + [ListScore(teams[i])];
    }
    assert teams[..|teams|] == teams;
  }


  /** `_parse_single_match(item, date_str, page)`. */
  method ParseSingleMatch(item: MatchItem, page: int) returns (row: Option<MatchRow>)
    ensures row == MatchRowOf(item, page)
  {
    if item.etaText.Some? && Contains(item.etaText.value, "ago") {
      return None;
    }
    var urlPath := if item.href != [] then VlrBase + item.href else "";
    var eta := ListEta(item);
    var teams, flags, scores := TeamColumns(item.teams);
    var series := ListSeries(item.seriesText);
    var tourney := if item.eventText.Some? then LastNonBlankLine(item.eventText.value) else "";
    var icon := ListIcon(item.iconSrc);
    row := Some(MatchRow(teams[0], teams[1], flags[0], flags[1], scores[0], scores[1], eta,
      series, tourney, item.timestamp, urlPath, icon, page));
  }

  /** `while len(xs) < 2: xs.append(pad)`. */
  method PadList(xs: seq<string>, pad: string) returns (r: seq<string>)
    ensures r == PadToTwo(xs, pad)
  {
    r := xs;
    while |r| < 2
      invariant |xs| <= |r| && (|r| > |xs| ==> |r| <= 2)
      invariant r[..|xs|] == xs && forall i | |xs| <= i < |r| :: r[i] == pad
      decreases 2 - |r|
    {
      r := r + [pad];
    }
  }

  // ---------------------------------------------------------------------------
  // Paginated façades
  // ---------------------------------------------------------------------------

  /** An optional page bound as it enters the key. */
  function BoundPart(b: Option<int>): KeyPart {
    if b.None? then KNone else KInt(b.value)
  }

  /** `(name, num_pages, from_page, to_page)`: the retry count is not part of the key. */
  function PagedKey(name: string, c: PaginationConfig): CacheKey {
    MakeCacheKey([KStr(name), KInt(c.numPages), BoundPart(c.fromPage), BoundPart(c.toPage)], map[])
  }

  /** Two requests share a cache entry exactly when they ask for the same pages. */
  lemma PagedKeyExact(name: string, c1: PaginationConfig, c2: PaginationConfig)
    ensures PagedKey(name, c1) == PagedKey(name, c2) <==>
      c1.numPages == c2.numPages && c1.fromPage == c2.fromPage && c1.toPage == c2.toPage
  {
    if PagedKey(name, c1) == PagedKey(name, c2) {
      var a1 := [KStr(name), KInt(c1.numPages), BoundPart(c1.fromPage), BoundPart(c1.toPage)];
      var a2 := [KStr(name), KInt(c2.numPages), BoundPart(c2.fromPage), BoundPart(c2.toPage)];
      MakeCacheKeyExact(a1, map[], a2, map[]);
      assert a1[2] == a2[2] && a1[3] == a2[3];
    }
  }

  /** The cache-then-scrape rule shared by the paginated façades: the scraped envelope is stored whatever it holds. */
  method CachedPagedScrape<R>(cache: CacheManager<PagedData<R>>, ttl: int, name: string, url: string,
                              fetch: (string, nat) -> Attempt<R>, config: PaginationConfig)
    returns (data: PagedData<R>)
    requires cache.Valid()
    modifies cache
    ensures cache.Valid()
    ensures Lookup(old(cache.caches), ttl, PagedKey(name, config)).Some? ==>
      data == Lookup(old(cache.caches), ttl, PagedKey(name, config)).value && cache.caches == WithNamespace(old(cache.caches), ttl)
    ensures Lookup(old(cache.caches), ttl, PagedKey(name, config)).None? ==>
      data == Scraped(fetch, url, config) && cache.caches == Stored(old(cache.caches), ttl, PagedKey(name, config), data)
  {
    var args := [KStr(name), KInt(config.numPages), BoundPart(config.fromPage), BoundPart(config.toPage)];
    var cached := cache.Get(ttl, args, map[]);
    if cached.Some? {
      return cached.value;
    }
    ghost var delays;
    data, delays := ScrapeMultiplePages(url, fetch, config);
    cache.Set(ttl, data, args, map[]);
  }

  /** `vlr_upcoming_matches_extended`: the match list under the key `("upcoming_ext", …)`. */
  method VlrUpcomingMatchesExtended<R>(cache: CacheManager<PagedData<R>>, ttlUpcoming: int, matchesUrl: string,
                                       fetch: (string, nat) -> Attempt<R>, config: PaginationConfig)
    returns (data: PagedData<R>)
    requires cache.Valid()
    modifies cache
    ensures cache.Valid()
    ensures Lookup(old(cache.caches), ttlUpcoming, PagedKey("upcoming_ext", config)).Some? ==>
      data == Lookup(old(cache.caches), ttlUpcoming, PagedKey("upcoming_ext", config)).value
      && cache.caches == WithNamespace(old(cache.caches), ttlUpcoming)
    ensures Lookup(old(cache.caches), ttlUpcoming, PagedKey("upcoming_ext", config)).None? ==>
      data == Scraped(fetch, matchesUrl, config)
      && cache.caches == Stored(old(cache.caches), ttlUpcoming, PagedKey("upcoming_ext", config), data)
  {
    data := CachedPagedScrape(cache, ttlUpcoming, "upcoming_ext", matchesUrl, fetch, config);
  }

  /** `vlr_match_results`: the results list under the key `("results", …)`. */
  method VlrMatchResults<R>(cache: CacheManager<PagedData<R>>, ttlResults: int, matchesUrl: string,
                            fetch: (string, nat) -> Attempt<R>, config: PaginationConfig)
    returns (data: PagedData<R>)
    requires cache.Valid()
    modifies cache
    ensures cache.Valid()
    ensures Lookup(old(cache.caches), ttlResults, PagedKey("results", config)).Some? ==>
      data == Lookup(old(cache.caches), ttlResults, PagedKey("results", config)).value
      && cache.caches == WithNamespace(old(cache.caches), ttlResults)
    ensures Lookup(old(cache.caches), ttlResults, PagedKey("results", config)).None? ==>
      data == Scraped(fetch, matchesUrl + "/results", config)
      && cache.caches == Stored(old(cache.caches), ttlResults, PagedKey("results", config), data)
  {
    data := CachedPagedScrape(cache, ttlResults, "results", matchesUrl + "/results", fetch, config);
  }
}
