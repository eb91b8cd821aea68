/**
  The team scrapers: the profile page (its link bar and roster), the paginated
  match history and the transaction log.

  Pages are given as the elements the scrapers select; an attribute read with
  `_attr` arrives as "" when it is absent, and a text read with `_text` as ""
  when its element is missing. Whether parsing one list item raises is an
  oracle `raises`, and fetching is an oracle `fetch` giving the response or
  the exception its request raised.
*/
module Teams {
  import opened Base
  import opened Text
  import opened Lists
  import opened Cache
  import opened ErrorHandling
  import opened HtmlParsers

  /** An HTTP response: its status and the page it carries. */
  datatype Response<P> = Response(status: int, page: P)

  // ---------------------------------------------------------------------------
  // _parse_social_links
  // ---------------------------------------------------------------------------

  /**
    One anchor: the node it is (anchors are compared as nodes), its `href` and
    `class` attributes, and the network location of its `href`.
  */
  datatype Anchor = Anchor(node: nat, href: string, cls: string, host: string)

  datatype SocialLink = SocialLink(platform: string, url: string)

  /** The anchors walked: the link bar's, then each `a.social` anchor not already among them. */
  function LinkAnchors(bar: seq<Anchor>, social: seq<Anchor>): seq<Anchor>
    decreases |social|
  {
    if social == [] then bar
    else
      var init := LinkAnchors(bar, social[..|social| - 1]);
      var a := social[|social| - 1];
      if a in init then init else init + [a]
  }

  /** The stripped `href`: the key links are deduplicated on. */
  function LinkUrl(a: Anchor): string {
    Strip(a.href)
  }

  /** A class token naming a platform: `mod-` followed by something. */
  predicate IsModToken(t: string) {
    StartsWith(t, "mod-") && t != "mod-"
  }

  /** The index of the first platform token from `i` on. */
  function FirstModToken(tokens: seq<string>, i: nat): (r: Option<nat>)
    requires i <= |tokens|
    ensures r.Some? ==> i <= r.value < |tokens| && IsModToken(tokens[r.value])
    ensures r.Some? ==> forall j | i <= j < r.value :: !IsModToken(tokens[j])
    ensures r.None? ==> forall j | i <= j < |tokens| :: !IsModToken(tokens[j])
    decreases |tokens| - i
  {
    if i == |tokens| then None
    else if IsModToken(tokens[i]) then Some(i)
    else FirstModToken(tokens, i + 1)
  }

  /** The platform of an anchor: its first `mod-X` class token's `X`, else the one its URL suggests. */
  function PlatformOf(a: Anchor): (r: string)
    ensures var f := FirstModToken(Words(a.cls), 0);
      && (f.Some? ==> r == Words(a.cls)[f.value][4..] && r != "")
      && (f.None? ==> r == InferPlatform(LinkUrl(a), a.host))
  {
    var tokens := Words(a.cls);
    var f := FirstModToken(tokens, 0);
    if f.Some? then tokens[f.value][4..] else InferPlatform(LinkUrl(a), a.host)
  }

  function LinkOf(a: Anchor): SocialLink {
    SocialLink(PlatformOf(a), LinkUrl(a))
  }

  /** `_parse_social_links`: one link per distinct non-empty stripped `href`, first anchor first. */
  function SocialLinksOf(anchors: seq<Anchor>): seq<SocialLink> {
    Map(Dedup(anchors, LinkUrl), LinkOf)
  }

  /** The links have non-empty, pairwise distinct URLs. */
  lemma SocialLinksDistinct(anchors: seq<Anchor>)
    ensures var links := SocialLinksOf(anchors);
      && (forall k | 0 <= k < |links| :: links[k].url != "")
      && (forall k, m | 0 <= k < m < |links| :: links[k].url != links[m].url)
  {
    DedupDistinct(anchors, LinkUrl);
  }

  /** Every link is built from one of the anchors. */
  lemma SocialLinksFromAnchors(anchors: seq<Anchor>, k: nat)
    requires k < |SocialLinksOf(anchors)|
    ensures exists a | a in anchors :: SocialLinksOf(anchors)[k] == LinkOf(a)
  {
    var d := Dedup(anchors, LinkUrl);
    DedupSubset(anchors, LinkUrl, d[k]);
  }

  /** The first anchor with a given non-empty URL gives a link. */
  lemma SocialLinksFirstWins(anchors: seq<Anchor>, i: nat)
    requires i < |anchors| && LinkUrl(anchors[i]) != ""
    requires forall j | 0 <= j < i :: LinkUrl(anchors[j]) != LinkUrl(anchors[i])
    ensures LinkOf(anchors[i]) in SocialLinksOf(anchors)
  {
    var d := Dedup(anchors, LinkUrl);
    DedupFirst(anchors, LinkUrl, i);
    var k :| 0 <= k < |d| && d[k] == anchors[i];
    assert SocialLinksOf(anchors)[k] == LinkOf(anchors[i]);
  }

  /** The class-token loop: the first platform token, without its `mod-` prefix. */
  method ClassPlatform(tokens: seq<string>) returns (platform: string)
    ensures var f := FirstModToken(tokens, 0);
      platform == if f.Some? then tokens[f.value][4..] else ""
  {
    platform := "";
    for k := 0 to |tokens|
      invariant forall j | 0 <= j < k :: !IsModToken(tokens[j])
    {
      if StartsWith(tokens[k], "mod-") && tokens[k] != "mod-" {
        platform := tokens[k][4..];
        assert FirstModToken(tokens, 0) == Some(k) by { FirstModTokenAt(tokens, 0, k); }
        return;
      }
    }
    NoModTokenFrom(tokens, 0);
  }

  lemma {:induction false} FirstModTokenAt(tokens: seq<string>, i: nat, k: nat)
    requires i <= k < |tokens| && IsModToken(tokens[k])
    requires forall j | i <= j < k :: !IsModToken(tokens[j])
    ensures FirstModToken(tokens, i) == Some(k)
    decreases k - i
  {
    if i < k {
      FirstModTokenAt(tokens, i + 1, k);
    }
  }

  lemma {:induction false} NoModTokenFrom(tokens: seq<string>, i: nat)
    requires i <= |tokens|
    requires forall j | i <= j < |tokens| :: !IsModToken(tokens[j])
    ensures FirstModToken(tokens, i).None?
    decreases |tokens| - i
  {
    if i < |tokens| {
      NoModTokenFrom(tokens, i + 1);
    }
  }

  /** The body of the link loop for one anchor. */
  method SocialLink1(a: Anchor) returns (link: SocialLink)
    ensures link == LinkOf(a)
  {
    var platform := ClassPlatform(Words(a.cls));
    if platform == "" {
      platform := InferPlatform(Strip(a.href), a.host);
    }
    link := SocialLink(platform, Strip(a.href));
  }

  /** `_parse_social_links`: gathers the anchors, then walks them with a `seen` set. */
  method ParseSocialLinks(bar: seq<Anchor>, social: seq<Anchor>) returns (links: seq<SocialLink>)
    ensures links == SocialLinksOf(LinkAnchors(bar, social))
  {
    var anchors := bar;
    for i := 0 to |social|
      invariant anchors == LinkAnchors(bar, social[..i])
    {
      assert social[..i + 1][..i] == social[..i];
      if social[i] !in anchors {
        anchors := anchors + [social[i]];
      }
    }
    assert social[..|social|] == social;
    links := [];
    var seen: set<string> := {};
    for i := 0 to |anchors|
      invariant links == SocialLinksOf(anchors[..i])
      invariant seen == Keys(Dedup(anchors[..i], LinkUrl), LinkUrl)
    {
      var a := anchors[i];
      assert anchors[..i + 1] == anchors[..i] + [a];
      DedupSnoc(anchors[..i], a, LinkUrl);
      var href := Strip(a.href);
      if href == "" || href in seen {
        continue;
      }
      KeysSnoc(Dedup(anchors[..i], LinkUrl), a, LinkUrl);
      MapSnoc(Dedup(anchors[..i], LinkUrl), a, LinkOf);
      seen := seen + {href};
      var link := SocialLink1(a);
      links := links + [link];
    }
    assert anchors[..|anchors|] == anchors;
  }

  // ---------------------------------------------------------------------------
  // _parse_roster
  // ---------------------------------------------------------------------------

  /**
    One `.team-roster-item` as `_parse_single_roster_item` reads it: the anchor
    `href`, the alias and real-name texts, the avatar `src`, the flag's class,
    whether a star icon is present, and the name block's text.
  */
  datatype RosterItem = RosterItem(
    href: string, alias: string, realName: string, avatarSrc: string,
    flagClass: Option<string>, hasStar: bool, nameBlock: Option<string>)

  datatype Player = Player(
    id: string, url: string, alias: string, realName: string, avatar: string,
    country: string, isCaptain: bool, role: string, isStaff: bool)

  /** `s.replace(pat, "")`; replacing the empty string by the empty string changes nothing. */
  function RemoveAll(s: string, pat: string): string {
    if pat == [] then s else ReplaceAll(s, pat, "")
  }

  /** The role: the name block without alias and real name, spaces collapsed, ends trimmed of ` -/|`. */
  function RoleOf(nameBlock: Option<string>, alias: string, realName: string): string {
    if nameBlock.None? then ""
    else StripChars(CollapseSpaces(Strip(RemoveAll(RemoveAll(nameBlock.value, alias), realName))), {' ', '-', '/', '|'})
  }

  /** The player id: the numeric segment of the link. */
  function HrefId(href: string): string {
    ParseHrefIdSlug(href).0
  }

  /** `_parse_single_roster_item(item, is_staff)`. */
  function PlayerOf(item: RosterItem, isStaff: bool): (p: Player)
    ensures p.isStaff == isStaff && p.alias == item.alias && p.isCaptain == item.hasStar
    // the id and URL come from the anchor's link
    ensures p.id == ParseHrefIdSlug(item.href).0 && p.url == BuildFullUrl(item.href, VlrBase)
    ensures p.realName == item.realName && p.avatar == NormalizeImageUrl(item.avatarSrc, VlrBase)
    ensures p.country == ExtractRegionFromFlag(item.flagClass)
    // the role is what the name block holds besides the names; none without a name block,
    // and it never starts or ends with a space or a separator
    ensures item.nameBlock.None? ==> p.role == ""
    ensures item.nameBlock.Some? ==> p.role == RoleOf(item.nameBlock, item.alias, item.realName)
    ensures p.role == [] || (p.role[0] !in {' ', '-', '/', '|'} && p.role[|p.role| - 1] !in {' ', '-', '/', '|'})
  {
    Player(HrefId(item.href), BuildFullUrl(item.href, VlrBase), item.alias, item.realName,
      NormalizeImageUrl(item.avatarSrc, VlrBase), ExtractRegionFromFlag(item.flagClass), item.hasStar,
      RoleOf(item.nameBlock, item.alias, item.realName), isStaff)
  }

  /** An item linking to `/<kind>/<id>/<slug>` (such as `/player/…`) gives a player with that id and the site URL of the link. */
  lemma RosterItemLink(item: RosterItem, isStaff: bool, kind: string, id: string, slug: string)
    requires Segment(kind) && !IsDigits(kind) && IsDigits(id) && Segment(slug)
    requires item.href == "/" + kind + "/" + id + "/" + slug
    ensures PlayerOf(item, isStaff).id == id
    ensures PlayerOf(item, isStaff).url == VlrBase + item.href
  {
    HrefRoundTrip(kind, id, slug);
    assert StartsWith(item.href, "/");
  }

  /** A roster item met by the walk, with the staff flag current at that point. */
  function PlayerOfMet(met: (RosterItem, bool)): Player {
    PlayerOf(met.0, met.1)
  }

  /** A node of the summary container: its class, its stripped text, and the roster item it would be. */
  datatype RosterNode = RosterNode(cls: string, text: string, item: RosterItem)

  const LabelClass: string := "wf-label"
  const ItemClass: string := "team-roster-item"
  const ItemPartClass: string := "team-roster-item-"

  predicate IsLabel(n: RosterNode) {
    Contains(n.cls, LabelClass) && !Contains(n.cls, ItemClass)
  }

  predicate IsRosterItem(n: RosterNode) {
    Contains(n.cls, ItemClass) && !Contains(n.cls, ItemPartClass)
  }

  /** The staff flag after a label: set by staff or coach, cleared by player, roster or active. */
  function StaffAfter(isStaff: bool, labelText: string): bool {
    var t := Lower(labelText);
    if Contains(t, "staff") || Contains(t, "coach") then true
    else if Contains(t, "player") || Contains(t, "roster") || Contains(t, "active") then false
    else isStaff
  }

  /** The walk over the container: the staff flag at the end, and every roster item met with the flag then current. */
  function Walk(nodes: seq<RosterNode>): (bool, seq<(RosterItem, bool)>) {
    if nodes == [] then (false, [])
    else
      var w := Walk(nodes[..|nodes| - 1]);
      var n := nodes[|nodes| - 1];
      if IsLabel(n) then (StaffAfter(w.0, n.text), w.1)
      else if IsRosterItem(n) then (w.0, w.1 + [(n.item, w.0)])
      else w
  }

  /** The key of the container walk: the alias, or the id when the alias is empty. */
  function RosterKey(p: Player): string {
    if p.alias != "" then p.alias else p.id
  }

  /** The key of the fallback without a container: the alias alone. */
  function AliasKey(p: Player): string {
    p.alias
  }

  function NonStaff(item: RosterItem): Player {
    PlayerOf(item, false)
  }

  /** The players of the walk, in the order met, before deduplication. */
  function Candidates(nodes: seq<RosterNode>): seq<Player> {
    Map(Walk(nodes).1, PlayerOfMet)
  }

  /** `_parse_roster`: with a container, the walk deduplicated by alias-or-id; without one, every item as a player, by alias. */
  function RosterOf(container: Option<seq<RosterNode>>, items: seq<RosterItem>): seq<Player> {
    if container.Some? then Dedup(Candidates(container.value), RosterKey)
    else Dedup(Map(items, NonStaff), AliasKey)
  }

  /** The roster has no two players with the same alias-or-id, and none without one. */
  lemma RosterDistinct(nodes: seq<RosterNode>)
    ensures var roster := RosterOf(Some(nodes), []);
      && (forall k | 0 <= k < |roster| :: RosterKey(roster[k]) != "")
      && (forall k, m | 0 <= k < m < |roster| :: RosterKey(roster[k]) != RosterKey(roster[m]))
  {
    DedupDistinct(Candidates(nodes), RosterKey);
  }

  /** The first player met with a given alias-or-id is the one kept. */
  lemma RosterFirstWins(nodes: seq<RosterNode>, i: nat)
    requires i < |Candidates(nodes)| && RosterKey(Candidates(nodes)[i]) != ""
    requires forall j | 0 <= j < i :: RosterKey(Candidates(nodes)[j]) != RosterKey(Candidates(nodes)[i])
    ensures Candidates(nodes)[i] in RosterOf(Some(nodes), [])
  {
    DedupFirst(Candidates(nodes), RosterKey, i);
  }

  /** Every player of the roster was met by the walk. */
  lemma RosterFromWalk(nodes: seq<RosterNode>, p: Player)
    requires p in RosterOf(Some(nodes), [])
    ensures p in Candidates(nodes)
  {
    DedupSubset(Candidates(nodes), RosterKey, p);
  }

  /** Without a container nobody is staff, and the players have distinct non-empty aliases. */
  lemma FallbackRoster(items: seq<RosterItem>)
    ensures var roster := RosterOf(None, items);
      && (forall k | 0 <= k < |roster| :: !roster[k].isStaff && roster[k].alias != "")
      && (forall k, m | 0 <= k < m < |roster| :: roster[k].alias != roster[m].alias)
  {
    var ps := Map(items, NonStaff);
    DedupDistinct(ps, AliasKey);
    forall k | 0 <= k < |RosterOf(None, items)|
      ensures !RosterOf(None, items)[k].isStaff
    {
      DedupSubset(ps, AliasKey, RosterOf(None, items)[k]);
    }
  }

  /**
    After a label, with no other label before them, every roster item walked
    takes the flag that label set; nodes that are neither labels nor items
    change nothing.
  */
  lemma {:induction false} StaffSection(prefix: seq<RosterNode>, lbl: RosterNode, rest: seq<RosterNode>)
    requires IsLabel(lbl)
    requires forall k | 0 <= k < |rest| :: !IsLabel(rest[k])
    ensures var before := Walk(prefix);
      var after := Walk(prefix + [lbl] + rest);
      && after.0 == StaffAfter(before.0, lbl.text)
      && |after.1| >= |before.1|
      && after.1[..|before.1|] == before.1
      && forall k | |before.1| <= k < |after.1| :: after.1[k].1 == StaffAfter(before.0, lbl.text)
    decreases |rest|
  {
    var head := prefix + [lbl];
    if rest != [] {
      var init, last := rest[..|rest| - 1], rest[|rest| - 1];
      StaffSection(prefix, lbl, init);
      assert head + rest == (head + init) + [last];
      WalkSnoc(head + init, last);
      var before, prev := Walk(prefix), Walk(head + init);
      if IsRosterItem(last) {
        assert (prev.1 + [(last.item, prev.0)])[..|before.1|] == prev.1[..|before.1|];
      }
    } else {
      assert head + rest == head;
      WalkSnoc(prefix, lbl);
    }
  }

  /** The walk over one more node. */
  lemma WalkSnoc(nodes: seq<RosterNode>, n: RosterNode)
    ensures var w := Walk(nodes);
      Walk(nodes + [n]) ==
        if IsLabel(n) then (StaffAfter(w.0, n.text), w.1)
        else if IsRosterItem(n) then (w.0, w.1 + [(n.item, w.0)])
        else w
  {
    assert (nodes + [n])[..|nodes|] == nodes;
  }

  /** One roster item of the walk. */
  method ParseSingleRosterItem(item: RosterItem, isStaff: bool) returns (p: Player)
    ensures p == PlayerOf(item, isStaff)
  {
    var id := ParseHrefIdSlug(item.href).0;
    var role := "";
    if item.nameBlock.Some? {
      var stripped := Strip(RemoveAll(RemoveAll(item.nameBlock.value, item.alias), item.realName));
      role := StripChars(CollapseSpaces(stripped), {' ', '-', '/', '|'});
    }
    p := Player(id, BuildFullUrl(item.href, VlrBase), item.alias, item.realName,
      NormalizeImageUrl(item.avatarSrc, VlrBase), ExtractRegionFromFlag(item.flagClass), item.hasStar, role, isStaff);
  }

  /** `_parse_roster`. */
  method ParseRoster(container: Option<seq<RosterNode>>, items: seq<RosterItem>) returns (roster: seq<Player>)
    ensures roster == RosterOf(container, items)
  {
    if container.None? {
      roster := FallbackWalk(items);
      return;
    }
    roster := ContainerWalk(container.value);
  }

  /** The fallback loop over every roster item, deduplicated by alias. */
  method FallbackWalk(items: seq<RosterItem>) returns (roster: seq<Player>)
    ensures roster == Dedup(Map(items, NonStaff), AliasKey)
  {
    roster := [];
    var seenIds: set<string> := {};
    for i := 0 to |items|
      invariant roster == Dedup(Map(items[..i], NonStaff), AliasKey)
      invariant seenIds == Keys(roster, AliasKey)
    {
      var player := ParseSingleRosterItem(items[i], false);
      roster, seenIds := KeepFirst(Map(items[..i], NonStaff), roster, seenIds, player, AliasKey);
      MapPrefix(items, i, NonStaff);
    }
    assert items[..|items|] == items;
  }

  /** One step of a `seen`-set walk: a player with a non-empty unseen key is appended. */
  method KeepFirst(ghost met: seq<Player>, roster0: seq<Player>, seen0: set<string>, player: Player, key: Player -> string)
    returns (roster: seq<Player>, seen: set<string>)
    requires roster0 == Dedup(met, key) && seen0 == Keys(roster0, key)
    ensures roster == Dedup(met + [player], key) && seen == Keys(roster, key)
  {
    DedupSnoc(met, player, key);
    roster, seen := roster0, seen0;
    var k := key(player);
    if k != "" && k !in seen {
      KeysSnoc(roster, player, key);
      seen := seen + {k};
      roster := roster + [player];
    }
  }

  /** The container walk: labels toggle the staff flag, roster items are deduplicated by alias-or-id. */
  method ContainerWalk(nodes: seq<RosterNode>) returns (roster: seq<Player>)
    ensures roster == Dedup(Candidates(nodes), RosterKey)
  {
    roster := [];
    var seenIds: set<string> := {};
    var isStaff := false;
    for i := 0 to |nodes|
      invariant isStaff == Walk(nodes[..i]).0
      invariant roster == Dedup(Candidates(nodes[..i]), RosterKey)
      invariant seenIds == Keys(roster, RosterKey)
    {
      var node := nodes[i];
      assert nodes[..i + 1][..i] == nodes[..i];
      if Contains(node.cls, LabelClass) && !Contains(node.cls, ItemClass) {
        isStaff := StaffAfter(isStaff, node.text);
        continue;
      }
      if Contains(node.cls, ItemClass) && !Contains(node.cls, ItemPartClass) {
        var player := ParseSingleRosterItem(node.item, isStaff);
        MapSnoc(Walk(nodes[..i]).1, (node.item, isStaff), PlayerOfMet);
        roster, seenIds := KeepFirst(Candidates(nodes[..i]), roster, seenIds, player, RosterKey);
      }
    }
    assert nodes[..|nodes|] == nodes;
  }

  // ---------------------------------------------------------------------------
  // _parse_team_match_item
  // ---------------------------------------------------------------------------

  /** One `.m-item-team`: name and tag texts and the logo `src`. */
  datatype TeamElem = TeamElem(name: string, tag: string, logoSrc: string)

  datatype TeamEntry = TeamEntry(name: string, tag: string, logo: string)

  const EmptyEntry: TeamEntry := TeamEntry("", "", "")

  /**
    One match row: its tag name, its own `href`, the `href` of its first child
    anchor (None without one), its class, the result block's class and text
    (None without one), its teams, and the event and date texts.
  */
  datatype MatchNode = MatchNode(
    tag: string, ownHref: string, anchorHref: Option<string>, cls: string,
    resultElem: Option<(string, string)>, teams: seq<TeamElem>, eventText: string, dateText: string)

  datatype TeamMatch = TeamMatch(
    matchId: string, url: string, event: string, date: string,
    team1: TeamEntry, team2: TeamEntry, score: string, result: string)

  /** The row's link: its own when it is an anchor, else its first anchor's, else its own attribute. */
  function MatchHref(item: MatchNode): string {
    if item.tag == "a" then item.ownHref else if item.anchorHref.Some? then item.anchorHref.value else item.ownHref
  }

  /** "win" when either class marks a win, else "loss" when either marks a loss, else "". */
  function ResultOf(item: MatchNode): (r: string)
    ensures r in {"win", "loss", ""}
  {
    var rc := if item.resultElem.Some? then item.resultElem.value.0 else "";
    if Contains(rc, "mod-win") || Contains(item.cls, "mod-win") then "win"
    else if Contains(rc, "mod-loss") || Contains(item.cls, "mod-loss") then "loss"
    else ""
  }

  function EntryOf(t: TeamElem): TeamEntry {
    TeamEntry(t.name, t.tag, NormalizeImageUrl(t.logoSrc, VlrBase))
  }

  /** The team entries, padded with empty ones up to two. */
  function MatchEntries(teams: seq<TeamElem>): (r: seq<TeamEntry>)
    ensures |r| >= 2 && |r| >= |teams|
    ensures forall k | 0 <= k < |teams| :: r[k] == EntryOf(teams[k])
    ensures forall k | |teams| <= k < |r| :: r[k] == EmptyEntry
  {
    PadToTwo(Map(teams, EntryOf), EmptyEntry)
  }

  /** `_parse_team_match_item`: None for a row without a link. */
  function MatchItemOf(item: MatchNode): (r: Option<TeamMatch>)
    ensures r.None? <==> MatchHref(item) == ""
    ensures r.Some? ==>
      && r.value.matchId == ParseHrefIdSlug(MatchHref(item)).0
      && r.value.url == BuildFullUrl(MatchHref(item), VlrBase)
      && r.value.result == ResultOf(item)
      && r.value.team1 == (if |item.teams| >= 1 then EntryOf(item.teams[0]) else EmptyEntry)
      && r.value.team2 == (if |item.teams| >= 2 then EntryOf(item.teams[1]) else EmptyEntry)
      && r.value.event == LastNonBlankLine(item.eventText)
      && r.value.date == item.dateText
      && r.value.score == (if item.resultElem.Some? then item.resultElem.value.1 else "")
  {
    var href := MatchHref(item);
    if href == "" then None
    else
      var teams := MatchEntries(item.teams);
      Some(TeamMatch(ParseHrefIdSlug(href).0, BuildFullUrl(href, VlrBase), LastNonBlankLine(item.eventText), item.dateText,
        teams[0], teams[1], if item.resultElem.Some? then item.resultElem.value.1 else "", ResultOf(item)))
  }

  /** The result classification in terms of the two classes. */
  lemma ResultCases(item: MatchNode)
    ensures var rc := if item.resultElem.Some? then item.resultElem.value.0 else "";
      && (ResultOf(item) == "win" <==> Contains(rc, "mod-win") || Contains(item.cls, "mod-win"))
      && (ResultOf(item) == "loss" <==>
            !Contains(rc, "mod-win") && !Contains(item.cls, "mod-win") && (Contains(rc, "mod-loss") || Contains(item.cls, "mod-loss")))
  {
  }

  /** The team loop and the padding loop of `_parse_team_match_item`. */
  method CollectEntries(teams: seq<TeamElem>) returns (entries: seq<TeamEntry>)
    ensures entries == MatchEntries(teams)
  {
    entries := [];
    for i := 0 to |teams|
      invariant entries == Map(teams[..i], EntryOf)
    {
      MapPrefix(teams, i, EntryOf);
      entries := entries + [TeamEntry(teams[i].name, teams[i].tag, NormalizeImageUrl(teams[i].logoSrc, VlrBase))];
    }
    assert teams[..|teams|] == teams;
    ghost var listed := entries;
    while |entries| < 2
      invariant |listed| <= |entries| && (|entries| > |listed| ==> |entries| <= 2)
      invariant entries[..|listed|] == listed && forall i | |listed| <= i < |entries| :: entries[i] == EmptyEntry
      decreases 2 - |entries|
    {
      entries := entries + [EmptyEntry];
    }
  }

  /** `_parse_team_match_item`. */
  method ParseTeamMatchItem(item: MatchNode) returns (r: Option<TeamMatch>)
    ensures r == MatchItemOf(item)
  {
    var href := if item.tag == "a" then item.ownHref else if item.anchorHref.Some? then item.anchorHref.value else item.ownHref;
    if href == "" {
      return None;
    }
    var result := ResultOf(item);
    var score := if item.resultElem.Some? then item.resultElem.value.1 else "";
    var teams := CollectEntries(item.teams);
    r := Some(TeamMatch(ParseHrefIdSlug(href).0, BuildFullUrl(href, VlrBase), LastNonBlankLine(item.eventText), item.dateText,
      teams[0], teams[1], score, result));
  }

  // ---------------------------------------------------------------------------
  // _parse_transaction_item
  // ---------------------------------------------------------------------------

  /**
    One transaction row: the date and action texts, the player anchor's `href`
    (None without an anchor), the player name text, the avatar `src` (None
    without an image), the flag's class, the role text, and whether it holds a
    link to a player page.
  */
  datatype TxnNode = TxnNode(
    dateText: string, actionText: string, anchorHref: Option<string>, nameText: string,
    avatarSrc: Option<string>, flagClass: Option<string>, roleText: string, hasPlayerLink: bool)

  datatype TxnPlayer = TxnPlayer(name: string, id: string, url: string, avatar: string, country: string)

  datatype Transaction = Transaction(date: string, action: string, player: TxnPlayer, role: string)

  /** The role, cleared when it only repeats the action. */
  function TxnRole(role: string, action: string): (r: string)
    ensures r == "" <==> role == "" || Lower(role) == Lower(action)
    ensures r != "" ==> r == role
  {
    if role != "" && Lower(role) == Lower(action) then "" else role
  }

  /** `_parse_transaction_item`: None when name, id and date are all empty. */
  function TransactionOf(n: TxnNode): (r: Option<Transaction>)
    ensures var id := if n.anchorHref.Some? then ParseHrefIdSlug(n.anchorHref.value).0 else "";
      r.None? <==> n.nameText == "" && id == "" && n.dateText == ""
    ensures r.Some? ==> r.value.action == Lower(n.actionText) && r.value.role == TxnRole(n.roleText, Lower(n.actionText))
    // the player is read off the anchor, the image and the flag, each "" when missing
    ensures r.Some? ==> r.value.date == n.dateText && r.value.player == TxnPlayer(
      n.nameText,
      if n.anchorHref.Some? then ParseHrefIdSlug(n.anchorHref.value).0 else "",
      if n.anchorHref.Some? then BuildFullUrl(n.anchorHref.value, VlrBase) else "",
      if n.avatarSrc.Some? then NormalizeImageUrl(n.avatarSrc.value, VlrBase) else "",
      ExtractRegionFromFlag(n.flagClass))
  {
    var action := Lower(n.actionText);
    var id := if n.anchorHref.Some? then ParseHrefIdSlug(n.anchorHref.value).0 else "";
    var url := if n.anchorHref.Some? then BuildFullUrl(n.anchorHref.value, VlrBase) else "";
    var avatar := if n.avatarSrc.Some? then NormalizeImageUrl(n.avatarSrc.value, VlrBase) else "";
    if n.nameText == "" && id == "" && n.dateText == "" then None
    else Some(Transaction(n.dateText, action,
      TxnPlayer(n.nameText, id, url, avatar, ExtractRegionFromFlag(n.flagClass)), TxnRole(n.roleText, action)))
  }

  // ---------------------------------------------------------------------------
  // The façades
  // ---------------------------------------------------------------------------

  /** `{"data": {"status": …, "segments": […], "meta": {"page": …}}}`; `meta` only on the match history. */
  datatype TeamData<S> = TeamData(status: int, segments: seq<S>, metaPage: Option<int>)

  /** The header fields kept: the name (the name block's `h1`, else the page title) and the tag. */
  datatype TeamHeader = TeamHeader(h1: string, title: string, h2: string)

  datatype TeamPage = TeamPage(
    header: TeamHeader, linkBar: seq<Anchor>, socialAnchors: seq<Anchor>,
    rosterContainer: Option<seq<RosterNode>>, rosterItems: seq<RosterItem>)

  datatype TeamSegment = TeamSegment(id: string, name: string, tag: string, socialLinks: seq<SocialLink>, roster: seq<Player>)

  function TeamSegmentOf(teamId: string, p: TeamPage): TeamSegment {
    TeamSegment(teamId, if p.header.h1 != "" then p.header.h1 else p.header.title, p.header.h2,
      SocialLinksOf(LinkAnchors(p.linkBar, p.socialAnchors)), RosterOf(p.rosterContainer, p.rosterItems))
  }

  function TeamUrl(teamId: string): string {
    VlrBase + "/team/" + teamId
  }

  function TeamKey(teamId: string): CacheKey {
    MakeCacheKey([KStr("team"), KStr(teamId)], map[])
  }

  /** `vlr_team`. */
  method VlrTeam(cache: CacheManager<TeamData<TeamSegment>>, ttl: int, teamId: string,
                 fetch: string -> Result<Response<TeamPage>, ScraperException>)
    returns (r: Result<TeamData<TeamSegment>, ScraperException>)
    requires cache.Valid()
    modifies cache
    ensures cache.Valid()
    ensures Lookup(old(cache.caches), ttl, TeamKey(teamId)).Some? ==>
      r == Success(Lookup(old(cache.caches), ttl, TeamKey(teamId)).value) && cache.caches == WithNamespace(old(cache.caches), ttl)
    ensures Lookup(old(cache.caches), ttl, TeamKey(teamId)).None? ==>
      match fetch(TeamUrl(teamId))
      // a raising request propagates
      case Failure(e) => r == Failure(e) && cache.caches == WithNamespace(old(cache.caches), ttl)
      // a non-200 page gives no segment and is not cached
      case Success(resp) =>
        if resp.status != 200 then
          r == Success(TeamData(resp.status, [], None)) && cache.caches == WithNamespace(old(cache.caches), ttl)
        else
          && r == Success(TeamData(200, [TeamSegmentOf(teamId, resp.page)], None))
          && cache.caches == Stored(old(cache.caches), ttl, TeamKey(teamId), r.value)
  {
    var cached := cache.Get(ttl, [KStr("team"), KStr(teamId)], map[]);
    if cached.Some? {
      return Success(cached.value);
    }
    var resp := fetch(VlrBase + "/team/" + teamId);
    if resp.Failure? {
      return Failure(resp.error);
    }
    var status := resp.value.status;
    if status != 200 {
      return Success(TeamData(status, [], None));
    }
    var page := resp.value.page;
    var socialLinks := ParseSocialLinks(page.linkBar, page.socialAnchors);
    var roster := ParseRoster(page.rosterContainer, page.rosterItems);
    var name := if page.header.h1 != "" then page.header.h1 else page.header.title;
    var data := TeamData(status, [TeamSegment(teamId, name, page.header.h2, socialLinks, roster)], None);
    cache.Set(ttl, data, [KStr("team"), KStr(teamId)], map[]);
    r := Success(data);
  }

  /** The match history page: the three selector results, then the content column's two anchor lists. */
  datatype MatchesPage = MatchesPage(selections: seq<seq<MatchNode>>, content: Option<(seq<MatchNode>, seq<MatchNode>)>)

  /** The rows the history is read from: the first selector with results, else the content column's links. */
  function MatchRows(p: MatchesPage): seq<MatchNode> {
    var items := FirstNonEmpty(p.selections);
    if items != [] || p.content.None? then items
    else if p.content.value.0 != [] then p.content.value.0 else p.content.value.1
  }

  /** `max(1, min(page, 100))`. */
  function ClampPage(page: int): (r: int)
    ensures 1 <= r <= 100
    ensures 1 <= page <= 100 ==> r == page
    ensures page < 1 ==> r == 1
    ensures page > 100 ==> r == 100
  {
    if page < 1 then 1 else if page > 100 then 100 else page
  }

  function TeamMatchesUrl(teamId: string, page: int): string {
    VlrBase + "/team/matches/" + teamId + "/?page=" + IntToString(page)
  }

  function TeamMatchesKey(teamId: string, page: int): CacheKey {
    MakeCacheKey([KStr("team_matches"), KStr(teamId), KInt(page)], map[])
  }

  /** The selector fallbacks of `vlr_team_matches`. */
  method SelectMatchRows(page: MatchesPage) returns (items: seq<MatchNode>)
    ensures items == MatchRows(page)
  {
    items := SelectFirst(page.selections);
    if items == [] && page.content.Some? {
      var content := page.content.value;
      items := if content.0 != [] then content.0 else content.1;
    }
  }

  /** The item loop: a raising row is skipped, a row without a link gives nothing. */
  method ParseTeamMatches(items: seq<MatchNode>, raises: MatchNode -> bool) returns (matches: seq<TeamMatch>)
    ensures matches == Parsed(items, raises, MatchItemOf)
  {
    matches := [];
    for i := 0 to |items|
      invariant matches == Parsed(items[..i], raises, MatchItemOf)
    {
      ParsedPrefix(items, i, raises, MatchItemOf);
      if raises(items[i]) {
        continue;
      }
      var parsed := ParseTeamMatchItem(items[i]);
      if parsed.Some? {
        matches := matches + [parsed.value];
      }
    }
    assert items[..|items|] == items;
  }

  /** `vlr_team_matches`: the page is clamped before it enters the key and the URL. */
  method VlrTeamMatches(cache: CacheManager<TeamData<TeamMatch>>, ttl: int, teamId: string, page: int,
                        fetch: string -> Result<Response<MatchesPage>, ScraperException>, raises: MatchNode -> bool)
    returns (r: Result<TeamData<TeamMatch>, ScraperException>)
    requires cache.Valid()
    modifies cache
    ensures cache.Valid()
    ensures var key := TeamMatchesKey(teamId, ClampPage(page));
      Lookup(old(cache.caches), ttl, key).Some? ==>
        r == Success(Lookup(old(cache.caches), ttl, key).value) && cache.caches == WithNamespace(old(cache.caches), ttl)
    ensures var key := TeamMatchesKey(teamId, ClampPage(page));
      Lookup(old(cache.caches), ttl, key).None? ==>
      match fetch(TeamMatchesUrl(teamId, ClampPage(page)))
      case Failure(e) => r == Failure(e) && cache.caches == WithNamespace(old(cache.caches), ttl)
      case Success(resp) =>
        if resp.status != 200 then
          r == Success(TeamData(resp.status, [], Some(ClampPage(page)))) && cache.caches == WithNamespace(old(cache.caches), ttl)
        else
          && r == Success(TeamData(200, Parsed(MatchRows(resp.page), raises, MatchItemOf), Some(ClampPage(page))))
          && cache.caches == Stored(old(cache.caches), ttl, key, r.value)
  {
    var p := ClampPage(page);
    var cached := cache.Get(ttl, [KStr("team_matches"), KStr(teamId), KInt(p)], map[]);
    if cached.Some? {
      return Success(cached.value);
    }
    var resp := fetch(TeamMatchesUrl(teamId, p));
    if resp.Failure? {
      return Failure(resp.error);
    }
    var status := resp.value.status;
    if status != 200 {
      return Success(TeamData(status, [], Some(p)));
    }
    var items := SelectMatchRows(resp.value.page);
    var matches := ParseTeamMatches(items, raises);
    var data := TeamData(status, matches, Some(p));
    cache.Set(ttl, data, [KStr("team_matches"), KStr(teamId), KInt(p)], map[]);
    r := Success(data);
  }

  /**
    The transactions page: the three selector results, every table row, and
    the content column's cards (None without a content column).
  */
  datatype TxnPage = TxnPage(selections: seq<seq<TxnNode>>, rows: seq<TxnNode>, content: Option<seq<TxnNode>>)

  predicate HasPlayerLink(n: TxnNode) {
    n.hasPlayerLink
  }

  /** The rows read: the first selector with results, else table rows with a player link, else such cards. */
  function TxnRows(p: TxnPage): seq<TxnNode> {
    var items := FirstNonEmpty(p.selections);
    if items != [] then items
    else
      var rows := Filter(p.rows, HasPlayerLink);
      if rows != [] || p.content.None? then rows else Filter(p.content.value, HasPlayerLink)
  }

  function TxnUrl(teamId: string): string {
    VlrBase + "/team/transactions/" + teamId + "/"
  }

  function TxnKey(teamId: string): CacheKey {
    MakeCacheKey([KStr("team_transactions"), KStr(teamId)], map[])
  }

  /** The item loop of `vlr_team_transactions`. */
  method ParseTransactions(items: seq<TxnNode>, raises: TxnNode -> bool) returns (transactions: seq<Transaction>)
    ensures transactions == Parsed(items, raises, TransactionOf)
  {
    transactions := [];
    for i := 0 to |items|
      invariant transactions == Parsed(items[..i], raises, TransactionOf)
    {
      ParsedPrefix(items, i, raises, TransactionOf);
      if raises(items[i]) {
        continue;
      }
      var parsed := TransactionOf(items[i]);
      if parsed.Some? {
        transactions := transactions + [parsed.value];
      }
    }
    assert items[..|items|] == items;
  }

  /** `vlr_team_transactions`. */
  method VlrTeamTransactions(cache: CacheManager<TeamData<Transaction>>, ttl: int, teamId: string,
                             fetch: string -> Result<Response<TxnPage>, ScraperException>, raises: TxnNode -> bool)
    returns (r: Result<TeamData<Transaction>, ScraperException>)
    requires cache.Valid()
    modifies cache
    ensures cache.Valid()
    ensures Lookup(old(cache.caches), ttl, TxnKey(teamId)).Some? ==>
      r == Success(Lookup(old(cache.caches), ttl, TxnKey(teamId)).value) && cache.caches == WithNamespace(old(cache.caches), ttl)
    ensures Lookup(old(cache.caches), ttl, TxnKey(teamId)).None? ==>
      match fetch(TxnUrl(teamId))
      case Failure(e) => r == Failure(e) && cache.caches == WithNamespace(old(cache.caches), ttl)
      case Success(resp) =>
        if resp.status != 200 then
          r == Success(TeamData(resp.status, [], None)) && cache.caches == WithNamespace(old(cache.caches), ttl)
        else
          && r == Success(TeamData(200, Parsed(TxnRows(resp.page), raises, TransactionOf), None))
          && cache.caches == Stored(old(cache.caches), ttl, TxnKey(teamId), r.value)
  {
    var cached := cache.Get(ttl, [KStr("team_transactions"), KStr(teamId)], map[]);
    if cached.Some? {
      return Success(cached.value);
    }
    var resp := fetch(VlrBase + "/team/transactions/" + teamId + "/");
    if resp.Failure? {
      return Failure(resp.error);
    }
    var status := resp.value.status;
    if status != 200 {
      return Success(TeamData(status, [], None));
    }
    var page := resp.value.page;
    var items := SelectFirst(page.selections);
    if items == [] {
      items := Filter(page.rows, HasPlayerLink);
    }
    if items == [] && page.content.Some? {
      items := Filter(page.content.value, HasPlayerLink);
    }
    var transactions := ParseTransactions(items, raises);
    var data := TeamData(status, transactions, None);
    cache.Set(ttl, data, [KStr("team_transactions"), KStr(teamId)], map[]);
    r := Success(data);
  }
}
