/**
  The player scrapers: the profile page (identity, team history, agent
  statistics, news and total winnings) and the paginated match history.

  Pages are given as the elements the scrapers select, with texts as
  `text(strip=True)` returns them and an attribute read with `get(…, "")` as
  "" when it is absent. Fetching is an oracle `fetch` giving the response or
  the exception its request raised, and whether parsing one match card
  raises is an oracle `raises`.
*/
module Players {
  import opened Base
  import opened Text
  import opened Lists
  import opened Cache
  import opened ErrorHandling
  import opened HtmlParsers
  import Teams

  // ---------------------------------------------------------------------------
  // _parse_player_info and _parse_social_links
  // ---------------------------------------------------------------------------

  /** One `a.social` anchor: its `href` and `class` attributes and the network location of its `href`. */
  datatype SocialAnchor = SocialAnchor(href: string, cls: string, host: string)

  /** The index of the first class token starting with `mod-`, from `i` on. */
  function FirstModPrefix(tokens: seq<string>, i: nat): (r: Option<nat>)
    ensures r.Some? ==> i <= r.value < |tokens| && StartsWith(tokens[r.value], "mod-")
    ensures r.Some? ==> forall j | i <= j < r.value :: !StartsWith(tokens[j], "mod-")
    ensures r.None? ==> forall j | i <= j < |tokens| :: !StartsWith(tokens[j], "mod-")
    decreases |tokens| - i
  {
    if i >= |tokens| then None
    else if StartsWith(tokens[i], "mod-") then Some(i)
    else FirstModPrefix(tokens, i + 1)
  }

  /** The class-token loop: the first `mod-` token without its prefix, "" when there is none. */
  function ClassPlatformOf(tokens: seq<string>): string {
    var f := FirstModPrefix(tokens, 0);
    if f.Some? then tokens[f.value][4..] else ""
  }

  /**
    The platform of a link: the first `mod-` class token without its prefix;
    inferred from the link when there is no such token, or when the first one
    is the bare `mod-` (the loop stops at it).
  */
  function LinkPlatform(a: SocialAnchor): (r: string)
    ensures var tokens := Words(a.cls);
      var f := FirstModPrefix(tokens, 0);
      && (f.Some? && tokens[f.value] != "mod-" ==> r == tokens[f.value][4..] && r != "")
      && (f.None? || tokens[f.value] == "mod-" ==> r == InferPlatform(a.href, a.host))
  {
    var p := ClassPlatformOf(Words(a.cls));
    if p != "" then p else InferPlatform(a.href, a.host)
  }

  predicate HasHref(a: SocialAnchor) {
    a.href != ""
  }

  function LinkOf(a: SocialAnchor): Teams.SocialLink {
    Teams.SocialLink(LinkPlatform(a), a.href)
  }

  /** One anchor of the loop: skipped without an `href`. */
  function SocialLinkOf(a: SocialAnchor): (r: Option<Teams.SocialLink>)
    ensures r.None? <==> a.href == ""
    ensures r.Some? ==> r.value == LinkOf(a)
  {
    if a.href == "" then None else Some(LinkOf(a))
  }

  /** `_parse_social_links`: one link per anchor with an `href`, in page order, duplicates kept. */
  function PlayerSocialLinks(anchors: seq<SocialAnchor>): seq<Teams.SocialLink> {
    Parsed(anchors, Never, SocialLinkOf)
  }

  /** The links are exactly the anchors with an `href`, in order, each with its raw `href` as URL. */
  lemma {:induction false} PlayerSocialLinksExact(anchors: seq<SocialAnchor>)
    ensures PlayerSocialLinks(anchors) == Map(Filter(anchors, HasHref), LinkOf)
    decreases |anchors|
  {
    if anchors != [] {
      var init, a := anchors[..|anchors| - 1], anchors[|anchors| - 1];
      assert anchors == init + [a];
      PlayerSocialLinksExact(init);
      ParsedSnoc(init, a, Never, SocialLinkOf);
      FilterSnoc(init, a, HasHref);
      MapSnoc(Filter(init, HasHref), a, LinkOf);
    }
  }

  /** The token loop with its `break`. */
  method ClassPlatform(tokens: seq<string>) returns (platform: string)
    ensures platform == ClassPlatformOf(tokens)
  {
    platform := "";
    for k := 0 to |tokens|
      invariant FirstModPrefix(tokens, 0) == FirstModPrefix(tokens, k)
    {
      if StartsWith(tokens[k], "mod-") {
        platform := tokens[k][4..];
        return;
      }
    }
  }

  /** The anchor loop of `_parse_social_links`. */
  method ParseSocialLinks(anchors: seq<SocialAnchor>) returns (links: seq<Teams.SocialLink>)
    ensures links == PlayerSocialLinks(anchors)
  {
    links := [];
    for i := 0 to |anchors|
      invariant links == Parsed(anchors[..i], Never, SocialLinkOf)
    {
      var a := anchors[i];
      ParsedPrefix(anchors, i, Never, SocialLinkOf);
      if a.href == "" {
        continue;
      }
      var platform := ClassPlatform(Words(a.cls));
      if platform == "" {
        platform := InferPlatform(a.href, a.host);
      }
      links := links + [Teams.SocialLink(platform, a.href)];
    }
    assert anchors[..|anchors|] == anchors;
  }

  /**
    The identity elements read: the name heading's text (`h1.wf-title`, else
    `.wf-title`), the real name's text, the avatar's `src` ("" for each when
    the element is missing), the class of the header's flag and of the page's
    first flag (None when there is no such element), and the social anchors.
  */
  datatype InfoPage = InfoPage(
    nameText: string, realNameText: string, avatarSrc: string,
    headerFlag: Option<string>, pageFlag: Option<string>, socialAnchors: seq<SocialAnchor>)

  datatype PlayerInfo = PlayerInfo(name: string, realName: string, avatar: string, country: string, socialLinks: seq<Teams.SocialLink>)

  /** The country: the header flag's region, else the page's first flag's. */
  function CountryOf(headerFlag: Option<string>, pageFlag: Option<string>): (r: string)
    ensures r == "" <==> ExtractRegionFromFlag(headerFlag) == "" && ExtractRegionFromFlag(pageFlag) == ""
    ensures r in {ExtractRegionFromFlag(headerFlag), ExtractRegionFromFlag(pageFlag)}
    ensures ExtractRegionFromFlag(headerFlag) != "" ==> r == ExtractRegionFromFlag(headerFlag)
  {
    var c := ExtractRegionFromFlag(headerFlag);
    if c != "" then c else ExtractRegionFromFlag(pageFlag)
  }

  /** `_parse_player_info`. */
  function InfoOf(p: InfoPage): PlayerInfo {
    PlayerInfo(p.nameText, p.realNameText, NormalizeImageUrl(p.avatarSrc, VlrBase),
      CountryOf(p.headerFlag, p.pageFlag), PlayerSocialLinks(p.socialAnchors))
  }

  method ParsePlayerInfo(p: InfoPage) returns (info: PlayerInfo)
    ensures info == InfoOf(p)
  {
    var country := "";
    if p.headerFlag.Some? {
      country := ExtractRegionFromFlag(p.headerFlag);
    }
    if country == "" && p.pageFlag.Some? {
      country := ExtractRegionFromFlag(p.pageFlag);
    }
    var links := ParseSocialLinks(p.socialAnchors);
    info := PlayerInfo(p.nameText, p.realNameText, NormalizeImageUrl(p.avatarSrc, VlrBase), country, links);
  }

  // ---------------------------------------------------------------------------
  // _parse_teams
  // ---------------------------------------------------------------------------

  /**
    One `.wf-module-item` of the team summary: the logo's `src`, the status
    tag's text, the texts of its `.ge-text-light` elements in page order, and
    its full text.
  */
  datatype TeamItem = TeamItem(logoSrc: string, status: string, dateTexts: seq<string>, fullText: string)

  /** What the loop reads off one item before deciding where it goes. */
  datatype TeamRecord = TeamRecord(name: string, tag: string, logo: string, dates: string)

  datatype CurrentTeam = CurrentTeam(name: string, tag: string, logo: string, joined: string)

  datatype PastTeam = PastTeam(name: string, tag: string, dates: string, logo: string)

  const NoCurrentTeam: CurrentTeam := CurrentTeam("", "", "", "")

  /** The last non-empty date text, "" when there is none. */
  function LastDates(texts: seq<string>): (r: string)
    ensures r == "" <==> forall k | 0 <= k < |texts| :: texts[k] == ""
    ensures r != "" ==> r in texts
    // it is the last of them: every text after it is empty
    ensures r != "" ==> exists k | 0 <= k < |texts| :: texts[k] == r && forall j | k < j < |texts| :: texts[j] == ""
    decreases |texts|
  {
    if texts == [] then ""
    else if texts[|texts| - 1] != "" then texts[|texts| - 1]
    else LastDates(texts[..|texts| - 1])
  }

  /** The team name: the full text without the status and the dates, trimmed. */
  function TeamName(full: string, status: string, dates: string): string {
    Strip(Teams.RemoveAll(Teams.RemoveAll(full, status), dates))
  }

  function RecordOf(item: TeamItem): TeamRecord {
    var dates := LastDates(item.dateTexts);
    TeamRecord(TeamName(item.fullText, item.status, dates), item.status, NormalizeImageUrl(item.logoSrc, VlrBase), dates)
  }

  /** The dates show an end: an en or em dash, or a spaced hyphen. */
  predicate HasEndDate(dates: string) {
    Contains(dates, "–") || Contains(dates, "—") || Contains(dates, " – ") || Contains(dates, " - ")
  }

  predicate Named(t: TeamRecord) {
    t.name != ""
  }

  /** A record that can be the current team: named, and without an end date. */
  predicate CanBeCurrent(t: TeamRecord) {
    t.name != "" && !HasEndDate(t.dates)
  }

  function CurrentOf(t: TeamRecord): CurrentTeam {
    CurrentTeam(t.name, t.tag, t.logo, t.dates)
  }

  function PastOf(t: TeamRecord): PastTeam {
    PastTeam(t.name, t.tag, t.dates, t.logo)
  }

  /** The loop of `_parse_teams` over the records read so far. */
  function SortTeams(recs: seq<TeamRecord>): (CurrentTeam, seq<PastTeam>)
    decreases |recs|
  {
    if recs == [] then (NoCurrentTeam, [])
    else
      var s := SortTeams(recs[..|recs| - 1]);
      var t := recs[|recs| - 1];
      if t.name == "" then s
      else if !HasEndDate(t.dates) && s.0.name == "" then (CurrentOf(t), s.1)
      else (s.0, s.1 + [PastOf(t)])
  }

  /** One more record, as the loop body places it. */
  lemma SortTeamsPrefix(recs: seq<TeamRecord>, i: nat)
    requires i < |recs|
    ensures var s, t := SortTeams(recs[..i]), recs[i];
      SortTeams(recs[..i + 1]) ==
        if t.name == "" then s
        else if !HasEndDate(t.dates) && s.0.name == "" then (CurrentOf(t), s.1)
        else (s.0, s.1 + [PastOf(t)])
  {
    assert recs[..i + 1][..i] == recs[..i];
  }

  /** `_parse_teams`: no summary container gives no teams at all. */
  function TeamsOf(container: Option<seq<TeamItem>>): (CurrentTeam, seq<PastTeam>) {
    if container.None? then (NoCurrentTeam, []) else SortTeams(Map(container.value, RecordOf))
  }

  /** While no record can be current, every named record is a past team, in order. */
  lemma {:induction false} SortBeforeCurrent(recs: seq<TeamRecord>)
    requires forall k | 0 <= k < |recs| :: !CanBeCurrent(recs[k])
    ensures SortTeams(recs) == (NoCurrentTeam, Map(Filter(recs, Named), PastOf))
    decreases |recs|
  {
    if recs != [] {
      var init, t := recs[..|recs| - 1], recs[|recs| - 1];
      assert recs == init + [t];
      SortBeforeCurrent(init);
      FilterSnoc(init, t, Named);
      MapSnoc(Filter(init, Named), t, PastOf);
    }
  }

  /** Once the current team is set, it stays, and every later named record is a past team. */
  lemma {:induction false} SortAfterCurrent(xs: seq<TeamRecord>, ys: seq<TeamRecord>)
    requires SortTeams(xs).0.name != ""
    ensures SortTeams(xs + ys) == (SortTeams(xs).0, SortTeams(xs).1 + Map(Filter(ys, Named), PastOf))
    decreases |ys|
  {
    if ys == [] {
      assert xs + ys == xs;
      assert Map(Filter(ys, Named), PastOf) == [];
      var s := SortTeams(xs);
      assert s.1 + [] == s.1;
      assert s == (s.0, s.1);
    } else {
      var init, t := ys[..|ys| - 1], ys[|ys| - 1];
      assert ys == init + [t];
      assert xs + ys == (xs + init) + [t];
      assert (xs + ys)[..|xs + ys| - 1] == xs + init;
      SortAfterCurrent(xs, init);
      var s := SortTeams(xs + init);
      var before := Map(Filter(init, Named), PastOf);
      assert s == (SortTeams(xs).0, SortTeams(xs).1 + before);
      FilterSnoc(init, t, Named);
      if t.name == "" {
        assert SortTeams(xs + ys) == s;
        assert Filter(ys, Named) == Filter(init, Named);
      } else {
        assert SortTeams(xs + ys) == (s.0, s.1 + [PastOf(t)]);
        MapSnoc(Filter(init, Named), t, PastOf);
        assert Map(Filter(ys, Named), PastOf) == before + [PastOf(t)];
        assert s.1 + [PastOf(t)] == SortTeams(xs).1 + (before + [PastOf(t)]);
      }
    }
  }

  /**
    The first record that can be current is the current team; every other
    named record, before or after it, is a past team, in order. Without such
    a record the current team stays empty and every named record is past.
  */
  lemma TeamsSplit(recs: seq<TeamRecord>, f: nat)
    requires f < |recs| && CanBeCurrent(recs[f])
    requires forall k | 0 <= k < f :: !CanBeCurrent(recs[k])
    ensures SortTeams(recs) ==
      (CurrentOf(recs[f]), Map(Filter(recs[..f], Named), PastOf) + Map(Filter(recs[f + 1..], Named), PastOf))
  {
    var head, tail := recs[..f + 1], recs[f + 1..];
    var before, after := Map(Filter(recs[..f], Named), PastOf), Map(Filter(tail, Named), PastOf);
    SortUpToCurrent(recs, f);
    var s := SortTeams(head);
    assert s == (CurrentOf(recs[f]), before);
    assert s.0.name != "";
    calc {
      SortTeams(recs);
    == { assert recs == head + tail; }
      SortTeams(head + tail);
    == { SortAfterCurrent(head, tail); }
      (s.0, s.1 + after);
    }
  }

  /** Up to the first record that can be current, that record is current and the named ones before it are past. */
  lemma SortUpToCurrent(recs: seq<TeamRecord>, f: nat)
    requires f < |recs| && CanBeCurrent(recs[f])
    requires forall k | 0 <= k < f :: !CanBeCurrent(recs[k])
    ensures SortTeams(recs[..f + 1]) == (CurrentOf(recs[f]), Map(Filter(recs[..f], Named), PastOf))
  {
    SortBeforeCurrent(recs[..f]);
    SortTeamsPrefix(recs, f);
  }

  /** The `reversed(...)` loop over the date texts with its `break`. */
  method LatestDates(texts: seq<string>) returns (dates: string)
    ensures dates == LastDates(texts)
  {
    dates := "";
    var i := |texts|;
    assert texts[..i] == texts;
    while i > 0
      invariant 0 <= i <= |texts|
      invariant LastDates(texts) == LastDates(texts[..i])
    {
      assert texts[..i][..i - 1] == texts[..i - 1];
      if texts[i - 1] != "" {
        dates := texts[i - 1];
        return;
      }
      i := i - 1;
    }
  }

  /** The reads of one item. */
  method ReadTeamItem(item: TeamItem) returns (t: TeamRecord)
    ensures t == RecordOf(item)
  {
    var dates := LatestDates(item.dateTexts);
    var name := item.fullText;
    if item.status != "" {
      name := ReplaceAll(name, item.status, "");
    }
    if dates != "" {
      name := ReplaceAll(name, dates, "");
    }
    t := TeamRecord(Strip(name), item.status, NormalizeImageUrl(item.logoSrc, VlrBase), dates);
  }

  /** `_parse_teams`. */
  method ParseTeams(container: Option<seq<TeamItem>>) returns (current: CurrentTeam, past: seq<PastTeam>)
    ensures (current, past) == TeamsOf(container)
  {
    current, past := NoCurrentTeam, [];
    if container.None? {
      return;
    }
    var items := container.value;
    ghost var recs := Map(items, RecordOf);
    for i := 0 to |items|
      invariant (current, past) == SortTeams(recs[..i])
    {
      var t := ReadTeamItem(items[i]);
      current, past := PlaceTeam(recs, i, current, past, t);
    }
    assert recs[..|items|] == recs;
  }

  /**
    The body of `_parse_teams`' loop: placing record `i` on top of the teams
    sorted from the records before it gives the teams sorted from the records
    up to it.
  */
  method PlaceTeam(ghost recs: seq<TeamRecord>, i: nat, current0: CurrentTeam, past0: seq<PastTeam>, t: TeamRecord)
    returns (current: CurrentTeam, past: seq<PastTeam>)
    requires i < |recs| && recs[i] == t && (current0, past0) == SortTeams(recs[..i])
    ensures (current, past) == SortTeams(recs[..i + 1])
  {
    SortTeamsPrefix(recs, i);
    current, past := current0, past0;
    if t.name == "" {
      return;
    }
    if !HasEndDate(t.dates) && current.name == "" {
      current := CurrentTeam(t.name, t.tag, t.logo, t.dates);
    } else {
      past := past + [PastTeam(t.name, t.tag, t.dates, t.logo)];
    }
  }

  // ---------------------------------------------------------------------------
  // _parse_agent_stats
  // ---------------------------------------------------------------------------

  /** One cell of an agent row: its text, and its image's `alt` and `title` attributes (None without an image). */
  datatype StatCell = StatCell(text: string, img: Option<(string, string)>)

  /** One agent: its name, the two halves of the usage column, and the texts of columns 2 to 16. */
  datatype AgentStat = AgentStat(agent: string, usageCount: string, usagePct: string, stats: seq<string>)

  /** The agent name: the image's `alt`, else its `title`, else the cell text. */
  function AgentName(c: StatCell): string {
    var fromImg := if c.img.None? then "" else if c.img.value.0 != "" then c.img.value.0 else c.img.value.1;
    if fromImg != "" then fromImg else c.text
  }

  /** `\((\d+)\)` matches at `j`: an opening parenthesis, a run of digits, a closing parenthesis. */
  predicate CountAt(s: string, j: nat) {
    j < |s| && s[j] == '(' &&
    var d := DigitPrefix(s[j + 1..]);
    d != [] && j + 1 + |d| < |s| && s[j + 1 + |d|] == ')'
  }

  /** `(\d+%)` matches at `j`: a run of digits followed by a percent sign. */
  predicate PctAt(s: string, j: nat) {
    j <= |s| &&
    var d := DigitPrefix(s[j..]);
    d != [] && j + |d| < |s| && s[j + |d|] == '%'
  }

  /** The leftmost position from `j` on where the count pattern matches. */
  function FirstCount(s: string, j: nat): (r: Option<nat>)
    ensures r.Some? ==> j <= r.value < |s| && CountAt(s, r.value)
    ensures r.Some? ==> forall i | j <= i < r.value :: !CountAt(s, i)
    ensures r.None? ==> forall i | j <= i < |s| :: !CountAt(s, i)
    decreases |s| - j
  {
    if j >= |s| then None else if CountAt(s, j) then Some(j) else FirstCount(s, j + 1)
  }

  /** The leftmost position from `j` on where the percentage pattern matches. */
  function FirstPct(s: string, j: nat): (r: Option<nat>)
    ensures r.Some? ==> j <= r.value < |s| && PctAt(s, r.value)
    ensures r.Some? ==> forall i | j <= i < r.value :: !PctAt(s, i)
    ensures r.None? ==> forall i | j <= i < |s| :: !PctAt(s, i)
    decreases |s| - j
  {
    if j >= |s| then None else if PctAt(s, j) then Some(j) else FirstPct(s, j + 1)
  }

  /** `usage_count`: the digits inside the first parenthesised number, "" when there is none. */
  function UsageCount(s: string): (r: string)
    ensures r == "" <==> forall j | 0 <= j < |s| :: !CountAt(s, j)
    ensures r != "" ==> IsDigits(r)
  {
    var f := FirstCount(s, 0);
    if f.None? then "" else DigitPrefix(s[f.value + 1..])
  }

  /** `usage_pct`: the first number followed by a percent sign, with the sign, "" when there is none. */
  function UsagePct(s: string): (r: string)
    ensures r == "" <==> forall j | 0 <= j < |s| :: !PctAt(s, j)
    ensures r != "" ==> |r| >= 2 && r[|r| - 1] == '%' && IsDigits(r[..|r| - 1])
  {
    var f := FirstPct(s, 0);
    if f.None? then "" else
      var d := DigitPrefix(s[f.value..]);
      assert s[f.value..f.value + |d| + 1][..|d|] == d;
      s[f.value..f.value + |d| + 1]
  }

  /** Positions where the percentage pattern does not match are passed over. */
  lemma {:induction false} FirstPctSkips(s: string, i: nat, k: nat)
    requires i <= k <= |s|
    requires forall j | i <= j < k :: !PctAt(s, j)
    ensures FirstPct(s, i) == FirstPct(s, k)
    decreases k - i
  {
    if i < k {
      FirstPctSkips(s, i + 1, k);
    }
  }

  /** The usage column as the site writes it, `(<count>) <pct>%`, gives the count. */
  lemma UsageColumnCount(d: string, p: string, rest: string)
    requires IsDigits(d) && IsDigits(p)
    ensures UsageCount("(" + d + ") " + p + "%" + rest) == d
  {
    var s := "(" + d + ") " + p + "%" + rest;
    var tail := ") " + p + "%" + rest;
    assert s[1..] == d + tail;
    DigitPrefixAppend(d, tail);
    assert CountAt(s, 0);
  }

  /** No percentage starts inside `(<count>) `. */
  lemma NoPctInCount(d: string, p: string, rest: string, j: nat)
    requires IsDigits(d) && j < |d| + 3
    ensures !PctAt("(" + d + ") " + p + "%" + rest, j)
  {
    var s := "(" + d + ") " + p + "%" + rest;
    var tail := ") " + p + "%" + rest;
    if 1 <= j <= |d| {
      assert s[j..] == d[j - 1..] + tail;
      DigitPrefixAppend(d[j - 1..], tail);
    } else {
      assert !IsDigit(s[j]);
    }
  }

  /** The usage column as the site writes it, `(<count>) <pct>%`, gives the percentage. */
  lemma UsageColumnPct(d: string, p: string, rest: string)
    requires IsDigits(d) && IsDigits(p)
    ensures UsagePct("(" + d + ") " + p + "%" + rest) == p + "%"
  {
    var s := "(" + d + ") " + p + "%" + rest;
    forall j | 0 <= j < |d| + 3
      ensures !PctAt(s, j)
    {
      NoPctInCount(d, p, rest, j);
    }
    var at := |d| + 3;
    assert s[at..] == p + ("%" + rest);
    DigitPrefixAppend(p, "%" + rest);
    FirstPctSkips(s, 0, at);
    assert s[at..at + |p| + 1] == p + "%";
  }

  /** `val(idx)` for a row of at least 17 cells: the texts of columns 2 to 16. */
  function StatTexts(cells: seq<StatCell>): (r: seq<string>)
    requires |cells| >= 17
    ensures |r| == 15 && forall k | 0 <= k < 15 :: r[k] == cells[k + 2].text
  {
    seq(15, k requires 0 <= k < 15 => cells[k + 2].text)
  }

  /** One table row: skipped with fewer than 17 cells or without an agent name. */
  function AgentStatOf(cells: seq<StatCell>): (r: Option<AgentStat>)
    ensures r.None? <==> |cells| < 17 || AgentName(cells[0]) == ""
    ensures r.Some? ==>
      && r.value.agent == AgentName(cells[0]) && r.value.agent != ""
      && r.value.usageCount == UsageCount(cells[1].text) && r.value.usagePct == UsagePct(cells[1].text)
      && r.value.stats == StatTexts(cells)
  {
    if |cells| < 17 then None
    else
      var agent := AgentName(cells[0]);
      if agent == "" then None
      else Some(AgentStat(agent, UsageCount(cells[1].text), UsagePct(cells[1].text), StatTexts(cells)))
  }

  /** `_parse_agent_stats`: no table gives no rows. */
  function AgentStatsOf(table: Option<seq<seq<StatCell>>>): seq<AgentStat> {
    if table.None? then [] else Parsed(table.value, Never, AgentStatOf)
  }

  /** A row is kept exactly when it has 17 cells and an agent name, and the kept rows keep their order. */
  lemma AgentRowsKept(rows: seq<seq<StatCell>>, i: nat)
    requires i < |rows|
    ensures |rows[i]| >= 17 && AgentName(rows[i][0]) != "" ==> AgentStatOf(rows[i]).value in AgentStatsOf(Some(rows))
    ensures forall a | a in AgentStatsOf(Some(rows)) :: a.agent != "" && |a.stats| == 15
  {
    if AgentStatOf(rows[i]).Some? {
      ParsedKeeps(rows, i, Never, AgentStatOf);
    }
    forall a | a in AgentStatsOf(Some(rows))
      ensures a.agent != "" && |a.stats| == 15
    {
      ParsedFrom(rows, a, Never, AgentStatOf);
    }
  }

  /** The row loop of `_parse_agent_stats`. */
  method ParseAgentStats(table: Option<seq<seq<StatCell>>>) returns (stats: seq<AgentStat>)
    ensures stats == AgentStatsOf(table)
  {
    stats := [];
    if table.None? {
      return;
    }
    var rows := table.value;
    for i := 0 to |rows|
      invariant stats == Parsed(rows[..i], Never, AgentStatOf)
    {
      var cells := rows[i];
      ParsedPrefix(rows, i, Never, AgentStatOf);
      if |cells| < 17 {
        continue;
      }
      var agent := AgentName(cells[0]);
      if agent == "" {
        continue;
      }
      var useText := cells[1].text;
      stats := stats + [AgentStat(agent, UsageCount(useText), UsagePct(useText), StatTexts(cells))];
    }
    assert rows[..|rows|] == rows;
  }

  // ---------------------------------------------------------------------------
  // _parse_news
  // ---------------------------------------------------------------------------

  /**
    One anchor of the news scope: its `href`, the text of its title element
    (None without one), its own text, and the text of its date element ("" without one).
  */
  datatype NewsAnchor = NewsAnchor(href: string, titleText: Option<string>, text: string, dateText: string)

  datatype NewsItem = NewsItem(title: string, url: string, date: string)

  /** An article link: at least two path segments once slashes are trimmed, the first all digits. */
  predicate IsArticleHref(href: string) {
    var parts := PathSegments(href);
    |parts| >= 2 && IsDigits(parts[0])
  }

  /** The title: the title element's text when there is one (even if empty), else the anchor's. */
  function NewsTitle(a: NewsAnchor): string {
    if a.titleText.Some? then a.titleText.value else a.text
  }

  /** One anchor of the loop: kept only with an article link and a non-empty title. */
  function NewsOf(a: NewsAnchor): (r: Option<NewsItem>)
    ensures r.Some? <==> a.href != "" && IsArticleHref(a.href) && NewsTitle(a) != ""
    ensures r.Some? ==> r.value == NewsItem(NewsTitle(a), BuildFullUrl(a.href, VlrBase), a.dateText)
  {
    if a.href == "" || !IsArticleHref(a.href) then None
    else
      var title := NewsTitle(a);
      if title == "" then None else Some(NewsItem(title, BuildFullUrl(a.href, VlrBase), a.dateText))
  }

  /** The anchors searched: the news section's, else the dark card's, else the whole page's. */
  function NewsScope(section: Option<seq<NewsAnchor>>, card: Option<seq<NewsAnchor>>, page: seq<NewsAnchor>): seq<NewsAnchor> {
    if section.Some? then section.value else if card.Some? then card.value else page
  }

  /** `_parse_news` over the anchors of its scope. */
  function NewsItemsOf(scope: seq<NewsAnchor>): seq<NewsItem> {
    Parsed(scope, Never, NewsOf)
  }

  /** An article link `/<id>/<slug>` passes the filter. */
  lemma ArticleLink(id: string, slug: string)
    requires IsDigits(id) && Segment(slug)
    ensures IsArticleHref("/" + id + "/" + slug)
  {
    assert '/' !in id;
    TwoSegments(id, slug);
  }

  /** A team or player link `/<kind>/<id>/<slug>` does not: its first segment is not numeric. */
  lemma EntityLinkIsNotArticle(kind: string, id: string, slug: string)
    requires Segment(kind) && Segment(id) && Segment(slug) && !IsDigits(kind)
    ensures !IsArticleHref("/" + kind + "/" + id + "/" + slug)
  {
    LinkSegments(kind, id, slug);
  }

  /** The anchor loop of `_parse_news`. */
  method ParseNews(scope: seq<NewsAnchor>) returns (news: seq<NewsItem>)
    ensures news == NewsItemsOf(scope)
  {
    news := [];
    for i := 0 to |scope|
      invariant news == Parsed(scope[..i], Never, NewsOf)
    {
      var a := scope[i];
      ParsedPrefix(scope, i, Never, NewsOf);
      if a.href == "" {
        continue;
      }
      var parts := Split(StripChars(a.href, {'/'}), '/');
      if !(|parts| >= 2 && IsDigits(parts[0])) {
        continue;
      }
      var title := if a.titleText.Some? then a.titleText.value else a.text;
      if title == "" {
        continue;
      }
      news := news + [NewsItem(title, BuildFullUrl(a.href, VlrBase), a.dateText)];
    }
    assert scope[..|scope|] == scope;
  }

  // ---------------------------------------------------------------------------
  // _parse_total_winnings
  // ---------------------------------------------------------------------------

  predicate IsAmountChar(c: char) {
    IsDigit(c) || c == ','
  }

  /** The longest prefix of digits and commas (what `[\d,]+` takes, when non-empty). */
  function AmountRun(s: string): (r: string)
    ensures |r| <= |s| && r == s[..|r|]
    ensures forall i | 0 <= i < |r| :: IsAmountChar(r[i])
    ensures |r| == |s| || !IsAmountChar(s[|r|])
    decreases |s|
  {
    if s == [] || !IsAmountChar(s[0]) then [] else [s[0]] + AmountRun(s[1..])
  }

  /** `re.finditer(r"\$([\d,]+)", s)`: the groups of the successive matches, left to right. */
  function Amounts(s: string): (r: seq<string>)
    ensures forall k | 0 <= k < |r| :: r[k] != []
    decreases |s|
  {
    if s == [] then []
    else if s[0] == '$' && AmountRun(s[1..]) != [] then
      var g := AmountRun(s[1..]);
      [g] + Amounts(s[1 + |g|..])
    else Amounts(s[1..])
  }

  /** `re.search(r"\$[\d,]+", text)`: the first match, dollar sign included. */
  function FirstAmount(text: string): (r: Option<string>)
    ensures r.Some? ==> |r.value| >= 2 && r.value[0] == '$'
  {
    var groups := Amounts(text);
    if groups == [] then None else Some("$" + groups[0])
  }

  /** `int(group.replace(",", ""))`, None where `int` raises `ValueError`. */
  function AmountValue(group: string): (r: Option<nat>)
    ensures r.Some? <==> RemoveChar(group, ',') != [] && AllDigits(RemoveChar(group, ','))
  {
    var v := RemoveChar(group, ',');
    if v != [] && AllDigits(v) then Some(DigitsValue(v)) else None
  }

  /** `max(values)`. */
  function MaxOf(values: seq<nat>): (m: nat)
    requires values != []
    ensures m in values && forall v | v in values :: v <= m
    decreases |values|
  {
    if |values| == 1 then values[0]
    else
      var rest := MaxOf(values[1..]);
      assert values == [values[0]] + values[1..];
      if values[0] >= rest then values[0] else rest
  }

  /** The first earnings element whose text holds an amount, from selector `i` on. */
  function FirstSelectedAmount(texts: seq<Option<string>>, i: nat): (r: Option<string>)
    ensures r.Some? ==> exists k | i <= k < |texts| ::
      && texts[k].Some? && FirstAmount(texts[k].value) == r
      && forall j | i <= j < k :: texts[j].None? || FirstAmount(texts[j].value).None?
    // nothing found means no earnings text from `i` on holds an amount
    ensures r.None? <==> forall k | i <= k < |texts| :: texts[k].None? || FirstAmount(texts[k].value).None?
    decreases |texts| - i
  {
    if i >= |texts| then None
    else if texts[i].Some? && FirstAmount(texts[i].value).Some? then FirstAmount(texts[i].value)
    else FirstSelectedAmount(texts, i + 1)
  }

  /** The amounts of the fallback, as integers, left to right. */
  function PageAmounts(pageText: string): seq<nat> {
    Parsed(Amounts(pageText), Never, AmountValue)
  }

  /**
    `_parse_total_winnings`: the first amount in the earnings elements (one
    text per selector, None when it matches nothing); else the largest amount
    on the page, written with thousands separators; else "".
  */
  function Winnings(texts: seq<Option<string>>, pageText: string): (r: string)
    ensures r == "" || (|r| >= 2 && r[0] == '$')
    // an amount in an earnings element wins over the page-wide fallback
    ensures FirstSelectedAmount(texts, 0).Some? ==> r == FirstSelectedAmount(texts, 0).value
  {
    var picked := FirstSelectedAmount(texts, 0);
    if picked.Some? then picked.value
    else
      var values := PageAmounts(pageText);
      if values == [] then "" else "$" + FormatThousands(MaxOf(values))
  }

  /**
    Without an earnings element holding an amount, the winnings are "" exactly
    when the page has no amount, and otherwise read back as the largest one.
  */
  lemma WinningsFallback(texts: seq<Option<string>>, pageText: string)
    requires FirstSelectedAmount(texts, 0).None?
    ensures var r, values := Winnings(texts, pageText), PageAmounts(pageText);
      && (r == "" <==> values == [])
      && (r != "" ==>
          && AllDigits(RemoveChar(r[1..], ','))
          && DigitsValue(RemoveChar(r[1..], ',')) in values
          && forall v | v in values :: v <= DigitsValue(RemoveChar(r[1..], ',')))
  {
    var values := PageAmounts(pageText);
    if values != [] {
      var m := MaxOf(values);
      var r := Winnings(texts, pageText);
      assert r[1..] == FormatThousands(m);
      FormatThousandsValue(m);
    }
  }

  /** The selector loop, the `finditer` loop and `max` of `_parse_total_winnings`. */
  method TotalWinnings(texts: seq<Option<string>>, pageText: string) returns (w: string)
    ensures w == Winnings(texts, pageText)
  {
    for i := 0 to |texts|
      invariant FirstSelectedAmount(texts, 0) == FirstSelectedAmount(texts, i)
    {
      if texts[i].Some? {
        var m := FirstAmount(texts[i].value);
        if m.Some? {
          return m.value;
        }
      }
    }
    var groups := Amounts(pageText);
    var all: seq<nat> := [];
    for k := 0 to |groups|
      invariant all == Parsed(groups[..k], Never, AmountValue)
    {
      ParsedPrefix(groups, k, Never, AmountValue);
      var digits := RemoveChar(groups[k], ',');
      if digits != [] && AllDigits(digits) {
        all := all + [DigitsValue(digits)];
      }
    }
    assert groups[..|groups|] == groups;
    if all != [] {
      return "$" + FormatThousands(MaxOf(all));
    }
    return "";
  }

  // ---------------------------------------------------------------------------
  // _parse_player_match_item
  // ---------------------------------------------------------------------------

  /**
    One match card: its `href`, the result element's class and text (None
    without one), its `.m-item-team` elements, and the event and date texts
    ("" without the element).
  */
  datatype MatchCard = MatchCard(
    href: string, resultElem: Option<(string, string)>, teams: seq<Teams.TeamElem>, eventText: string, dateText: string)

  datatype PlayerMatch = PlayerMatch(
    matchId: string, url: string, event: string, date: string,
    team1: Teams.TeamEntry, team2: Teams.TeamEntry, score: string, result: string)

  /** The result: "win" or "loss" from the result element's class, else "". */
  function CardResult(resultElem: Option<(string, string)>): (r: string)
    ensures r in {"win", "loss", ""}
    ensures r == "win" <==> resultElem.Some? && Contains(resultElem.value.0, "mod-win")
    ensures r == "loss" <==> resultElem.Some? && !Contains(resultElem.value.0, "mod-win") && Contains(resultElem.value.0, "mod-loss")
  {
    if resultElem.None? then ""
    else if Contains(resultElem.value.0, "mod-win") then "win"
    else if Contains(resultElem.value.0, "mod-loss") then "loss"
    else ""
  }

  /** `_parse_player_match_item`: None only when both the id and the URL are empty. */
  function PlayerMatchOf(card: MatchCard): (r: Option<PlayerMatch>)
    ensures r.None? <==> ParseHrefIdSlug(card.href).0 == "" && BuildFullUrl(card.href, VlrBase) == ""
    ensures r.Some? ==>
      && r.value.matchId == ParseHrefIdSlug(card.href).0
      && r.value.url == BuildFullUrl(card.href, VlrBase)
      && r.value.result == CardResult(card.resultElem)
      && r.value.score == (if card.resultElem.Some? then card.resultElem.value.1 else "")
      && r.value.team1 == (if |card.teams| >= 1 then Teams.EntryOf(card.teams[0]) else Teams.EmptyEntry)
      && r.value.team2 == (if |card.teams| >= 2 then Teams.EntryOf(card.teams[1]) else Teams.EmptyEntry)
      && r.value.event == card.eventText && r.value.date == card.dateText
  {
    var matchId, url := ParseHrefIdSlug(card.href).0, BuildFullUrl(card.href, VlrBase);
    if matchId == "" && url == "" then None
    else
      var teams := Teams.MatchEntries(card.teams);
      Some(PlayerMatch(matchId, url, card.eventText, card.dateText, teams[0], teams[1],
        if card.resultElem.Some? then card.resultElem.value.1 else "", CardResult(card.resultElem)))
  }

  /** A card is dropped exactly when it has no `href`: any non-empty link gives a non-empty URL. */
  lemma CardDroppedIffNoHref(card: MatchCard)
    ensures PlayerMatchOf(card).None? <==> card.href == ""
  {
    if card.href != "" {
      assert BuildFullUrl(card.href, VlrBase) != "";
    }
  }

  method ParsePlayerMatchItem(card: MatchCard) returns (r: Option<PlayerMatch>)
    ensures r == PlayerMatchOf(card)
  {
    var matchId := ParseHrefIdSlug(card.href).0;
    var url := BuildFullUrl(card.href, VlrBase);
    var result := CardResult(card.resultElem);
    var score := if card.resultElem.Some? then card.resultElem.value.1 else "";
    var teams := Teams.CollectEntries(card.teams);
    if matchId == "" && url == "" {
      return None;
    }
    r := Some(PlayerMatch(matchId, url, card.eventText, card.dateText, teams[0], teams[1], score, result));
  }

  // ---------------------------------------------------------------------------
  // The façades
  // ---------------------------------------------------------------------------

  /** `{"data": {"status": …, "segments": […], "meta": {"page": …}}}`; `meta` only on the match history. */
  datatype PlayerData<S> = PlayerData(status: int, segments: seq<S>, metaPage: Option<int>)

  /** The match history page: the `a.wf-card.m-item` cards, and the `a.wf-card.fc-flex.m-item` ones. */
  datatype HistoryPage = HistoryPage(cards: seq<MatchCard>, flexCards: seq<MatchCard>)

  /** The history: the primary cards' matches, or the fc-flex cards' when those give none. */
  function HistoryOf(p: HistoryPage, raises: MatchCard -> bool): seq<PlayerMatch> {
    var primary := Parsed(p.cards, raises, PlayerMatchOf);
    if primary != [] then primary else Parsed(p.flexCards, raises, PlayerMatchOf)
  }

  /**
    Every match of the history comes from a primary card that does not raise,
    or, when no primary card gives a match, from an fc-flex card.
  */
  lemma HistorySource(p: HistoryPage, raises: MatchCard -> bool, m: PlayerMatch)
    requires m in HistoryOf(p, raises)
    ensures
      || (exists k | 0 <= k < |p.cards| :: !raises(p.cards[k]) && PlayerMatchOf(p.cards[k]) == Some(m))
      || (&& (forall k | 0 <= k < |p.cards| :: raises(p.cards[k]) || p.cards[k].href == "")
          && exists k | 0 <= k < |p.flexCards| :: !raises(p.flexCards[k]) && PlayerMatchOf(p.flexCards[k]) == Some(m))
  {
    var primary := Parsed(p.cards, raises, PlayerMatchOf);
    if primary != [] {
      ParsedFrom(p.cards, m, raises, PlayerMatchOf);
    } else {
      forall k | 0 <= k < |p.cards|
        ensures raises(p.cards[k]) || p.cards[k].href == ""
      {
        CardDroppedIffNoHref(p.cards[k]);
        if !raises(p.cards[k]) && PlayerMatchOf(p.cards[k]).Some? {
          ParsedKeeps(p.cards, k, raises, PlayerMatchOf);
        }
      }
      ParsedFrom(p.flexCards, m, raises, PlayerMatchOf);
    }
  }

  /**
    Every `a.wf-card.fc-flex.m-item` card is also an `a.wf-card.m-item` card,
    so when the fc-flex cards are among the primary ones the fallback never
    adds a match: the history is the primary cards' matches.
  */
  lemma FallbackAddsNothing(p: HistoryPage, raises: MatchCard -> bool)
    requires forall k | 0 <= k < |p.flexCards| :: p.flexCards[k] in p.cards
    ensures HistoryOf(p, raises) == Parsed(p.cards, raises, PlayerMatchOf)
  {
    if Parsed(p.cards, raises, PlayerMatchOf) == [] {
      forall k | 0 <= k < |p.flexCards|
        ensures raises(p.flexCards[k]) || PlayerMatchOf(p.flexCards[k]).None?
      {
        var j :| 0 <= j < |p.cards| && p.cards[j] == p.flexCards[k];
        if !raises(p.cards[j]) && PlayerMatchOf(p.cards[j]).Some? {
          ParsedKeeps(p.cards, j, raises, PlayerMatchOf);
          assert false;
        }
      }
      ParsedNothing(p.flexCards, raises, PlayerMatchOf);
    }
  }

  /** One card loop of `vlr_player_matches`: a raising card is skipped. */
  method ParseCards(cards: seq<MatchCard>, raises: MatchCard -> bool) returns (matches: seq<PlayerMatch>)
    ensures matches == Parsed(cards, raises, PlayerMatchOf)
  {
    matches := [];
    for i := 0 to |cards|
      invariant matches == Parsed(cards[..i], raises, PlayerMatchOf)
    {
      ParsedPrefix(cards, i, raises, PlayerMatchOf);
      if raises(cards[i]) {
        continue;
      }
      var parsed := ParsePlayerMatchItem(cards[i]);
      if parsed.Some? {
        matches := matches + [parsed.value];
      }
    }
    assert cards[..|cards|] == cards;
  }

  /** The two card loops: the fc-flex cards are read only when the first loop gave nothing. */
  method ParseHistory(p: HistoryPage, raises: MatchCard -> bool) returns (matches: seq<PlayerMatch>)
    ensures matches == HistoryOf(p, raises)
  {
    matches := ParseCards(p.cards, raises);
    if matches == [] {
      matches := ParseCards(p.flexCards, raises);
    }
  }

  function PlayerMatchesUrl(playerId: string, page: int): string {
    VlrBase + "/player/matches/" + playerId + "/?page=" + IntToString(page)
  }

  function PlayerMatchesKey(playerId: string, page: int): CacheKey {
    MakeCacheKey([KStr("player_matches"), KStr(playerId), KInt(page)], map[])
  }

  /** `vlr_player_matches`: whatever the status, the page is parsed and cached. */
  method VlrPlayerMatches(cache: CacheManager<PlayerData<PlayerMatch>>, ttl: int, playerId: string, page: int,
                          fetch: string -> Result<Teams.Response<HistoryPage>, ScraperException>, raises: MatchCard -> bool)
    returns (r: Result<PlayerData<PlayerMatch>, ScraperException>)
    requires cache.Valid()
    modifies cache
    ensures cache.Valid()
    ensures Lookup(old(cache.caches), ttl, PlayerMatchesKey(playerId, page)).Some? ==>
      r == Success(Lookup(old(cache.caches), ttl, PlayerMatchesKey(playerId, page)).value)
      && cache.caches == WithNamespace(old(cache.caches), ttl)
    ensures Lookup(old(cache.caches), ttl, PlayerMatchesKey(playerId, page)).None? ==>
      match fetch(PlayerMatchesUrl(playerId, page))
      case Failure(e) => r == Failure(e) && cache.caches == WithNamespace(old(cache.caches), ttl)
      case Success(resp) =>
        && r == Success(PlayerData(resp.status, HistoryOf(resp.page, raises), Some(page)))
        && cache.caches == Stored(old(cache.caches), ttl, PlayerMatchesKey(playerId, page), r.value)
  {
    var cached := cache.Get(ttl, [KStr("player_matches"), KStr(playerId), KInt(page)], map[]);
    if cached.Some? {
      return Success(cached.value);
    }
    var resp := fetch(PlayerMatchesUrl(playerId, page));
    if resp.Failure? {
      return Failure(resp.error);
    }
    var matches := ParseHistory(resp.value.page, raises);
    var data := PlayerData(resp.value.status, matches, Some(page));
    cache.Set(ttl, data, [KStr("player_matches"), KStr(playerId), KInt(page)], map[]);
    r := Success(data);
  }

  /**
    The profile page: the identity elements, the team summary container's
    items (None without the container), the agent table's body rows (None
    without the table), the news section's, the dark card's and the page's
    anchors, the earnings elements' texts, and the page's full text.
  */
  datatype ProfilePage = ProfilePage(
    info: InfoPage, teamSummary: Option<seq<TeamItem>>, agentTable: Option<seq<seq<StatCell>>>,
    newsSection: Option<seq<NewsAnchor>>, newsCard: Option<seq<NewsAnchor>>, anchors: seq<NewsAnchor>,
    earningsTexts: seq<Option<string>>, pageText: string)

  datatype PlayerSegment = PlayerSegment(
    id: string, info: PlayerInfo, currentTeam: CurrentTeam, pastTeams: seq<PastTeam>,
    agentStats: seq<AgentStat>, news: seq<NewsItem>, totalWinnings: string)

  function SegmentOf(playerId: string, p: ProfilePage): PlayerSegment {
    var teams := TeamsOf(p.teamSummary);
    PlayerSegment(playerId, InfoOf(p.info), teams.0, teams.1, AgentStatsOf(p.agentTable),
      NewsItemsOf(NewsScope(p.newsSection, p.newsCard, p.anchors)), Winnings(p.earningsTexts, p.pageText))
  }

  /** The parsers of the profile page, in the order `vlr_player` calls them. */
  method ParseProfile(playerId: string, p: ProfilePage) returns (segment: PlayerSegment)
    ensures segment == SegmentOf(playerId, p)
  {
    var info := ParsePlayerInfo(p.info);
    var current, past := ParseTeams(p.teamSummary);
    var agentStats := ParseAgentStats(p.agentTable);
    var news := ParseNews(NewsScope(p.newsSection, p.newsCard, p.anchors));
    var winnings := TotalWinnings(p.earningsTexts, p.pageText);
    segment := PlayerSegment(playerId, info, current, past, agentStats, news, winnings);
  }

  function PlayerUrl(playerId: string, timespan: string): string {
    VlrBase + "/player/" + playerId + "/?timespan=" + timespan
  }

  function PlayerKey(playerId: string, timespan: string): CacheKey {
    MakeCacheKey([KStr("player"), KStr(playerId), KStr(timespan)], map[])
  }

  /** `vlr_player`: whatever the status, the page is parsed and cached. */
  method VlrPlayer(cache: CacheManager<PlayerData<PlayerSegment>>, ttl: int, playerId: string, timespan: string,
                   fetch: string -> Result<Teams.Response<ProfilePage>, ScraperException>)
    returns (r: Result<PlayerData<PlayerSegment>, ScraperException>)
    requires cache.Valid()
    modifies cache
    ensures cache.Valid()
    ensures Lookup(old(cache.caches), ttl, PlayerKey(playerId, timespan)).Some? ==>
      r == Success(Lookup(old(cache.caches), ttl, PlayerKey(playerId, timespan)).value)
      && cache.caches == WithNamespace(old(cache.caches), ttl)
    ensures Lookup(old(cache.caches), ttl, PlayerKey(playerId, timespan)).None? ==>
      match fetch(PlayerUrl(playerId, timespan))
      case Failure(e) => r == Failure(e) && cache.caches == WithNamespace(old(cache.caches), ttl)
      case Success(resp) =>
        && r == Success(PlayerData(resp.status, [SegmentOf(playerId, resp.page)], None))
        && cache.caches == Stored(old(cache.caches), ttl, PlayerKey(playerId, timespan), r.value)
  {
    var cached := cache.Get(ttl, [KStr("player"), KStr(playerId), KStr(timespan)], map[]);
    if cached.Some? {
      return Success(cached.value);
    }
    var resp := fetch(PlayerUrl(playerId, timespan));
    if resp.Failure? {
      return Failure(resp.error);
    }
    var segment := ParseProfile(playerId, resp.value.page);
    var data := PlayerData(resp.value.status, [segment], None);
    cache.Set(ttl, data, [KStr("player"), KStr(playerId), KStr(timespan)], map[]);
    r := Success(data);
  }
}
