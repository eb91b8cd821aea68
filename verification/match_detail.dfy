/**
  The match page scraper: the two-namespace cache lookup, the base page with
  its optional performance and economy tabs, the TTL chosen by liveness, and
  the parsers of the team header, the round strips, the player tables and the
  tab tables.

  A page is given as the elements the scraper selects from it; texts read with
  `text(strip=True)` arrive already stripped. Fetching is an oracle:
  `fetchBase(url)` is the base page response or the exception its request
  raised, and `fetchTab(url)` is a tab page or None when its request raised.
*/
module MatchDetail {
  import opened Base
  import opened Text
  import opened Lists
  import opened Cache
  import opened ErrorHandling
  import opened HtmlParsers

  // ---------------------------------------------------------------------------
  // _is_live and _extract_game_ids
  // ---------------------------------------------------------------------------

  /** `_is_live`: the vs-note text, upper-cased, mentions LIVE; no vs-note is not live. */
  predicate IsLive(vsNote: Option<string>) {
    vsNote.Some? && Contains(Upper(vsNote.value), "LIVE")
  }

  /** A nav id the scraper keeps: present and not the "all" tab. */
  predicate IsGameId(gid: string) {
    gid != "" && gid != "all"
  }

  /** `_extract_game_ids`: the `data-game-id` values of the stats nav, in document order. */
  function ExtractGameIds(navIds: seq<string>): seq<string> {
    Filter(navIds, IsGameId)
  }

  /** An id is extracted exactly when it is in the nav, non-empty and not "all". */
  lemma GameIdsExact(navIds: seq<string>, gid: string)
    ensures gid in ExtractGameIds(navIds) <==> gid in navIds && gid != "" && gid != "all"
  {
    FilterMembers(navIds, IsGameId, gid);
  }

  /** The ids keep document order: the ids of a longer nav extend the ids of its prefix. */
  lemma GameIdsInOrder(navIds: seq<string>, more: seq<string>)
    ensures ExtractGameIds(navIds + more) == ExtractGameIds(navIds) + ExtractGameIds(more)
  {
    FilterAppend(navIds, more, IsGameId);
  }

  // ---------------------------------------------------------------------------
  // _parse_teams
  // ---------------------------------------------------------------------------

  /** One `.match-header-vs-score span`: its class attribute, if any, and its text. */
  datatype ScoreSpan = ScoreSpan(cls: Option<string>, text: string)

  /**
    The team header: the full text of each `.match-header-link-name`, the `src`
    of each image in `.match-header-vs` (None without that element), and the
    score spans.
  */
  datatype Header = Header(name1: Option<string>, name2: Option<string>, vsLogos: Option<seq<string>>, spans: seq<ScoreSpan>)

  datatype MatchTeam = MatchTeam(name: string, tag: string, logo: string, score: string, isWinner: bool)

  const WinnerClass: string := "match-header-vs-score-winner"

  /** The name and tag: the first two non-blank lines of the name block. */
  function NameTag(full: Option<string>): (r: (string, string))
    ensures full.None? ==> r == ("", "")
    // the name is the first non-blank stripped line and the tag the second, "" when missing
    ensures full.Some? ==> var lines := NonBlankLines(full.value);
      && r.0 == (if |lines| > 0 then lines[0] else "")
      && r.1 == (if |lines| > 1 then lines[1] else "")
    // so a tag never comes without a name, and neither has surrounding whitespace
    ensures r.0 == "" ==> r.1 == ""
    ensures IsStripped(r.0) && IsStripped(r.1)
  {
    var lines := if full.Some? then NonBlankLines(full.value) else [];
    (if |lines| > 0 then lines[0] else "", if |lines| > 1 then lines[1] else "")
  }

  /** A span whose text is all digits. */
  predicate IsScored(s: ScoreSpan) {
    IsDigits(s.text)
  }

  predicate IsWinnerSpan(s: ScoreSpan) {
    Contains(s.cls.GetOr(""), WinnerClass)
  }

  /** The logo of team `i`: its image among the first two, normalised, when the `src` is non-empty. */
  function LogoAt(logos: Option<seq<string>>, i: nat): string {
    if logos.Some? && i < |logos.value| && i < 2 && logos.value[i] != "" then NormalizeImageUrl(logos.value[i], VlrBase) else ""
  }

  /** The winner's index: decided by the first two scored spans only, -1 when there is none. */
  function WinnerIdx(scored: seq<ScoreSpan>): int {
    if |scored| < 2 then -1
    else if IsWinnerSpan(scored[0]) then 0
    else if IsWinnerSpan(scored[1]) then 1
    else -1
  }

  /** The two teams `_parse_teams` returns. */
  function TeamsOf(h: Header): seq<MatchTeam> {
    TeamsFrom(NameTag(h.name1), NameTag(h.name2), h.vsLogos, Filter(h.spans, IsScored))
  }

  /** The two teams, from their names and tags, the vs images and the scored spans. */
  function TeamsFrom(n1: (string, string), n2: (string, string), vsLogos: Option<seq<string>>, scored: seq<ScoreSpan>): seq<MatchTeam> {
    var w := WinnerIdx(scored);
    [MatchTeam(n1.0, n1.1, LogoAt(vsLogos, 0), if |scored| >= 2 then scored[0].text else "", w == 0),
     MatchTeam(n2.0, n2.1, LogoAt(vsLogos, 1), if |scored| >= 2 then scored[1].text else "", w == 1)]
  }

  /**
    Two teams always; at most one is the winner, and the winner's span is among
    the first two scored ones; the scores are set exactly when at least two
    spans are all digits, and are then those spans' texts.
  */
  lemma TeamsProperties(h: Header)
    ensures |TeamsOf(h)| == 2
    ensures !(TeamsOf(h)[0].isWinner && TeamsOf(h)[1].isWinner)
    ensures var scored := Filter(h.spans, IsScored);
      && (TeamsOf(h)[0].score != "" <==> |scored| >= 2)
      && (TeamsOf(h)[1].score != "" <==> |scored| >= 2)
      && (|scored| >= 2 ==> TeamsOf(h)[0].score == scored[0].text && TeamsOf(h)[1].score == scored[1].text)
      && (TeamsOf(h)[0].isWinner <==> |scored| >= 2 && IsWinnerSpan(scored[0]))
      && (TeamsOf(h)[1].isWinner <==> |scored| >= 2 && !IsWinnerSpan(scored[0]) && IsWinnerSpan(scored[1]))
  {
  }

  /** `_parse_teams`: builds the two team records, then fills in logos, scores and the winner flag. */
  method ParseTeams(h: Header) returns (teams: seq<MatchTeam>)
    ensures teams == TeamsOf(h)
  {
    var scored := Filter(h.spans, IsScored);
    teams := PlaceScores(NameTag(h.name1), NameTag(h.name2), h.vsLogos, scored);
  }

  /** The score and winner steps of `_parse_teams`. */
  method PlaceScores(n1: (string, string), n2: (string, string), vsLogos: Option<seq<string>>, scored: seq<ScoreSpan>) returns (teams: seq<MatchTeam>)
    ensures teams == TeamsFrom(n1, n2, vsLogos, scored)
  {
    teams := PlaceLogos(n1, n2, vsLogos);
    var winnerIdx := -1;
    if |scored| >= 2 {
      teams := teams[0 := teams[0].(score := scored[0].text)];
      teams := teams[1 := teams[1].(score := scored[1].text)];
      if IsWinnerSpan(scored[0]) {
        winnerIdx := 0;
      } else if IsWinnerSpan(scored[1]) {
        winnerIdx := 1;
      }
    }
    assert winnerIdx == WinnerIdx(scored);
    if winnerIdx >= 0 {
      teams := teams[winnerIdx := teams[winnerIdx].(isWinner := true)];
    }
  }

  /** The logo loop of `_parse_teams`: the first two images with a non-empty `src`. */
  method PlaceLogos(name1: (string, string), name2: (string, string), vsLogos: Option<seq<string>>) returns (teams: seq<MatchTeam>)
    ensures teams == [MatchTeam(name1.0, name1.1, LogoAt(vsLogos, 0), "", false), MatchTeam(name2.0, name2.1, LogoAt(vsLogos, 1), "", false)]
  {
    teams := [MatchTeam(name1.0, name1.1, "", "", false), MatchTeam(name2.0, name2.1, "", "", false)];
    if vsLogos.Some? {
      var logos := vsLogos.value;
      var n := if |logos| < 2 then |logos| else 2;
      for idx := 0 to n
        invariant teams == [MatchTeam(name1.0, name1.1, if 0 < idx then LogoAt(vsLogos, 0) else "", "", false),
                            MatchTeam(name2.0, name2.1, if 1 < idx then LogoAt(vsLogos, 1) else "", "", false)]
      {
        if logos[idx] != "" {
          teams := teams[idx := teams[idx].(logo := NormalizeImageUrl(logos[idx], VlrBase))];
        }
      }
    }
  }

  // ---------------------------------------------------------------------------
  // _parse_rounds
  // ---------------------------------------------------------------------------

  /** One `.vlr-rounds-row-col`: its class and the classes of its `.rnd-sq` squares. */
  datatype RoundCol = RoundCol(cls: string, squares: seq<string>)

  datatype Round = Round(roundNum: nat, winner: string, side: string)

  const SpacingClass: string := "mod-spacing"
  const WinClass: string := "mod-win"

  /** A column counts as a round when it is not spacing and has squares. */
  predicate Counted(c: RoundCol) {
    !Contains(c.cls, SpacingClass) && c.squares != []
  }

  /** The index of the first winning square from `k` on. */
  function FirstWin(sqs: seq<string>, k: nat): (r: Option<nat>)
    requires k <= |sqs|
    ensures r.Some? ==> k <= r.value < |sqs| && Contains(sqs[r.value], WinClass)
    ensures r.Some? ==> forall j | k <= j < r.value :: !Contains(sqs[j], WinClass)
    ensures r.None? ==> forall j | k <= j < |sqs| :: !Contains(sqs[j], WinClass)
    decreases |sqs| - k
  {
    if k == |sqs| then None
    else if Contains(sqs[k], WinClass) then Some(k)
    else FirstWin(sqs, k + 1)
  }

  /** The side of a winning square. */
  function SideOf(cls: string): (r: string) {
    if Contains(cls, "mod-ct") then "ct" else if Contains(cls, "mod-t") then "t" else ""
  }

  /** The winner of a round: the team of its first winning square. */
  function WinnerOf(sqs: seq<string>): string {
    var w := FirstWin(sqs, 0);
    if w.None? then "" else if w.value == 0 then "team1" else "team2"
  }

  /** The side of a round: the side of its first winning square. */
  function WinSideOf(sqs: seq<string>): string {
    var w := FirstWin(sqs, 0);
    if w.None? then "" else SideOf(sqs[w.value])
  }

  /** The counted columns, numbered from 1. */
  function Numbered(cols: seq<RoundCol>): (r: seq<Round>)
    ensures |r| == |cols|
    ensures forall k | 0 <= k < |cols| :: r[k] == Round(k + 1, WinnerOf(cols[k].squares), WinSideOf(cols[k].squares))
  {
    seq(|cols|, k requires 0 <= k < |cols| => Round(k + 1, WinnerOf(cols[k].squares), WinSideOf(cols[k].squares)))
  }

  /** The columns of every row, row after row. */
  function Flatten(rows: seq<seq<RoundCol>>): seq<RoundCol> {
    if rows == [] then [] else Flatten(rows[..|rows| - 1]) + rows[|rows| - 1]
  }

  /** The rounds of the counted columns among `cols`. */
  function CountedRounds(cols: seq<RoundCol>): seq<Round> {
    Numbered(Filter(cols, Counted))
  }

  /** The rounds of a game: none without a rounds container. */
  function RoundsOf(container: Option<seq<seq<RoundCol>>>): seq<Round> {
    if container.None? then [] else Numbered(Filter(Flatten(container.value), Counted))
  }

  /**
    Rounds are numbered consecutively from 1, one per counted column; the winner
    is team1 exactly when the first square wins, and is empty exactly when no
    square wins; the side is "ct", "t" or "".
  */
  lemma RoundsProperties(container: Option<seq<seq<RoundCol>>>)
    ensures var rs := RoundsOf(container);
      forall k | 0 <= k < |rs| ::
        && rs[k].roundNum == k + 1
        && rs[k].side in {"ct", "t", ""}
        && rs[k].winner in {"team1", "team2", ""}
  {
  }

  /** The winner of one column, in terms of its squares. */
  lemma WinnerOfSquares(sqs: seq<string>)
    ensures WinnerOf(sqs) == "team1" <==> sqs != [] && Contains(sqs[0], WinClass)
    ensures WinnerOf(sqs) == "" <==> forall j | 0 <= j < |sqs| :: !Contains(sqs[j], WinClass)
  {
    var w := FirstWin(sqs, 0);
    if w.None? && sqs != [] {
      assert !Contains(sqs[0], WinClass);
    }
    if w.Some? {
      assert Contains(sqs[w.value], WinClass);
    }
  }

  /** The square loop of one column: the first winning square decides, then the loop stops. */
  method ScanSquares(sqs: seq<string>) returns (winner: string, side: string)
    ensures winner == WinnerOf(sqs) && side == WinSideOf(sqs)
  {
    winner, side := "", "";
    for idx := 0 to |sqs|
      invariant forall j | 0 <= j < idx :: !Contains(sqs[j], WinClass)
    {
      if Contains(sqs[idx], WinClass) {
        assert FirstWin(sqs, 0) == Some(idx) by { FirstWinAt(sqs, 0, idx); }
        winner := if idx == 0 then "team1" else "team2";
        side := SideOf(sqs[idx]);
        return;
      }
    }
    assert FirstWin(sqs, 0).None? by { NoWinFrom(sqs, 0); }
  }

  lemma {:induction false} FirstWinAt(sqs: seq<string>, k: nat, idx: nat)
    requires k <= idx < |sqs| && Contains(sqs[idx], WinClass)
    requires forall j | k <= j < idx :: !Contains(sqs[j], WinClass)
    ensures FirstWin(sqs, k) == Some(idx)
    decreases idx - k
  {
    if k < idx {
      FirstWinAt(sqs, k + 1, idx);
    }
  }

  lemma {:induction false} NoWinFrom(sqs: seq<string>, k: nat)
    requires k <= |sqs|
    requires forall j | k <= j < |sqs| :: !Contains(sqs[j], WinClass)
    ensures FirstWin(sqs, k).None?
    decreases |sqs| - k
  {
    if k < |sqs| {
      NoWinFrom(sqs, k + 1);
    }
  }

  /** `_parse_rounds`: a counter over the columns of every row, skipping spacing and empty columns. */
  method ParseRounds(container: Option<seq<seq<RoundCol>>>) returns (rounds: seq<Round>)
    ensures rounds == RoundsOf(container)
  {
    rounds := [];
    if container.None? {
      return;
    }
    var rows := container.value;
    var roundNum := 0;
    for i := 0 to |rows|
      invariant rounds == CountedRounds(Flatten(rows[..i])) && roundNum == |rounds|
    {
      rounds, roundNum := CountRow(Flatten(rows[..i]), rounds, roundNum, rows[i]);
      assert rows[..i + 1][..i] == rows[..i];
    }
    assert rows[..|rows|] == rows;
  }

  /** The column loop of `_parse_rounds` over one row, continuing the count of the rows before it. */
  method CountRow(ghost done: seq<RoundCol>, rounds0: seq<Round>, roundNum0: nat, row: seq<RoundCol>) returns (rounds: seq<Round>, roundNum: nat)
    requires rounds0 == CountedRounds(done) && roundNum0 == |rounds0|
    ensures rounds == CountedRounds(done + row) && roundNum == |rounds|
  {
    rounds, roundNum := rounds0, roundNum0;
    assert done + row[..0] == done;
    for j := 0 to |row|
      invariant rounds == CountedRounds(done + row[..j]) && roundNum == |rounds|
    {
      rounds, roundNum := CountColumn(done + row[..j], rounds, roundNum, row[j]);
      PrefixStep(done, row, j);
    }
    assert row[..|row|] == row;
  }

  lemma PrefixStep<T>(done: seq<T>, row: seq<T>, j: nat)
    requires j < |row|
    ensures done + row[..j + 1] == (done + row[..j]) + [row[j]]
  {
    assert row[..j + 1] == row[..j] + [row[j]];
  }

  /** One column of `_parse_rounds`: spacing and empty columns are skipped, any other is the next round. */
  method CountColumn(ghost done: seq<RoundCol>, rounds0: seq<Round>, roundNum0: nat, col: RoundCol) returns (rounds: seq<Round>, roundNum: nat)
    requires rounds0 == CountedRounds(done) && roundNum0 == |rounds0|
    ensures rounds == CountedRounds(done + [col]) && roundNum == |rounds|
  {
    rounds, roundNum := rounds0, roundNum0;
    FilterSnoc(done, col, Counted);
    if Contains(col.cls, SpacingClass) {
      return;
    }
    if col.squares == [] {
      return;
    }
    roundNum := roundNum + 1;
    var winner, side := ScanSquares(col.squares);
    NumberedSnoc(Filter(done, Counted), col);
    rounds := rounds + [Round(roundNum, winner, side)];
  }

  lemma NumberedSnoc(cols: seq<RoundCol>, c: RoundCol)
    ensures Numbered(cols + [c]) == Numbered(cols) + [Round(|cols| + 1, WinnerOf(c.squares), WinSideOf(c.squares))]
  {
    assert forall k | 0 <= k < |cols| :: (cols + [c])[k] == cols[k];
  }

  // ---------------------------------------------------------------------------
  // Player tables
  // ---------------------------------------------------------------------------

  /** The agent icon's `title` and `alt` attributes. */
  datatype Img = Img(title: Option<string>, alt: Option<string>)

  /** One `td`: its text, the text of its `.side.mod-both` span and of its `.text-of` div, and its icon. */
  datatype Cell = Cell(text: string, both: Option<string>, nameDiv: Option<string>, img: Option<Img>)

  /** A player row: name, agent, and the twelve stat columns from rating to first-kill difference. */
  datatype PlayerRow = PlayerRow(name: string, agent: string, stats: seq<string>)

  /** `cell_val`: the `.side.mod-both` text, else the cell text. */
  function CellVal(c: Cell): string {
    if c.both.Some? then c.both.value else c.text
  }

  /** `safe_val`: a column beyond the row is empty. */
  function SafeVal(cells: seq<Cell>, idx: nat): (r: string)
    ensures idx >= |cells| ==> r == ""
  {
    if idx < |cells| then CellVal(cells[idx]) else ""
  }

  /** The agent: the icon's non-empty title, else its alt text. */
  function AgentOf(cells: seq<Cell>): string {
    if |cells| > 1 && cells[1].img.Some? then
      var title := cells[1].img.value.title.GetOr("");
      if title != "" then title else cells[1].img.value.alt.GetOr("")
    else ""
  }

  /** `_parse_player_row`. */
  function PlayerRowOf(cells: seq<Cell>): (r: PlayerRow)
    ensures |r.stats| == 12
    // stat `k` is column `k + 2`, and empty when the row is shorter
    ensures forall k | 0 <= k < 12 :: r.stats[k] == SafeVal(cells, k + 2)
    ensures forall k | 0 <= k < 12 && k + 2 >= |cells| :: r.stats[k] == ""
  {
    var name := if cells == [] then "" else if cells[0].nameDiv.Some? then cells[0].nameDiv.value else cells[0].text;
    PlayerRow(name, AgentOf(cells), seq(12, k requires 0 <= k < 12 => SafeVal(cells, k + 2)))
  }

  /** A row with fewer than five cells (a separator, or no cells at all) is skipped. */
  predicate IsPlayerRow(cells: seq<Cell>) {
    |cells| >= 5
  }

  /** The players of one table: one per row of at least five cells, in order. */
  function TablePlayers(rows: seq<seq<Cell>>): seq<PlayerRow> {
    Map(Filter(rows, IsPlayerRow), PlayerRowOf)
  }

  /** Every player comes from a row of at least five cells, and every such row gives one. */
  lemma TablePlayersExact(rows: seq<seq<Cell>>)
    ensures |TablePlayers(rows)| == |Filter(rows, IsPlayerRow)| <= |rows|
    ensures forall k | 0 <= k < |TablePlayers(rows)| :: |Filter(rows, IsPlayerRow)[k]| >= 5
    ensures forall cells | cells in rows && |cells| >= 5 :: cells in Filter(rows, IsPlayerRow)
  {
    forall cells | cells in rows && |cells| >= 5
      ensures cells in Filter(rows, IsPlayerRow)
    {
      FilterMembers(rows, IsPlayerRow, cells);
    }
  }

  /** `parse_table_rows`. */
  method ParseTableRows(rows: seq<seq<Cell>>) returns (players: seq<PlayerRow>)
    ensures players == TablePlayers(rows)
  {
    players := [];
    for i := 0 to |rows|
      invariant players == TablePlayers(rows[..i])
    {
      var cells := rows[i];
      FilterPrefix(rows, i, IsPlayerRow);
      if cells == [] {
        continue;
      }
      if |cells| < 5 {
        continue;
      }
      MapSnoc(Filter(rows[..i], IsPlayerRow), cells, PlayerRowOf);
      players := players + [PlayerRowOf(cells)];
    }
    assert rows[..|rows|] == rows;
  }

  // ---------------------------------------------------------------------------
  // _parse_maps
  // ---------------------------------------------------------------------------

  /** One `div.vm-stats-game`: its id, its rounds container and its overview tables. */
  datatype Game = Game(gameId: string, rounds: Option<seq<seq<RoundCol>>>, tables: seq<seq<seq<Cell>>>)

  datatype MapData = MapData(rounds: seq<Round>, team1: seq<PlayerRow>, team2: seq<PlayerRow>)

  /** The data of one game: the first table is team 1's, the second team 2's. */
  function MapDataOf(g: Game): MapData {
    MapData(RoundsOf(g.rounds),
      if |g.tables| >= 1 then TablePlayers(g.tables[0]) else [],
      if |g.tables| >= 2 then TablePlayers(g.tables[1]) else [])
  }

  /** Every game block except the "all" summary. */
  predicate IsMapGame(g: Game) {
    g.gameId != "all"
  }

  function MapsOf(games: seq<Game>): seq<MapData> {
    Map(Filter(games, IsMapGame), MapDataOf)
  }

  /** `_parse_maps`. */
  method ParseMaps(games: seq<Game>) returns (maps: seq<MapData>)
    ensures maps == MapsOf(games)
  {
    maps := [];
    for i := 0 to |games|
      invariant maps == MapsOf(games[..i])
    {
      var g := games[i];
      FilterPrefix(games, i, IsMapGame);
      if g.gameId == "all" {
        continue;
      }
      var rounds := ParseRounds(g.rounds);
      var team1: seq<PlayerRow> := [];
      var team2: seq<PlayerRow> := [];
      if |g.tables| >= 1 {
        team1 := ParseTableRows(g.tables[0]);
      }
      if |g.tables| >= 2 {
        team2 := ParseTableRows(g.tables[1]);
      }
      MapSnoc(Filter(games[..i], IsMapGame), g, MapDataOf);
      maps := maps + [MapData(rounds, team1, team2)];
    }
    assert games[..|games|] == games;
  }

  // ---------------------------------------------------------------------------
  // Tab tables
  // ---------------------------------------------------------------------------

  /** A tab table: its header labels (none without a header row) and the cell texts of each body row. */
  datatype Table = Table(headers: seq<string>, rows: seq<seq<string>>)

  /** The label of column `idx`: its header, or `str(idx)` past the header row. */
  function Label(headers: seq<string>, idx: nat): string {
    if idx < |headers| then headers[idx] else NatToString(idx)
  }

  /** A row dictionary after writing columns `from .. upto-1` into `d`, later columns overwriting earlier ones. */
  function Fill(d: map<string, string>, headers: seq<string>, cells: seq<string>, from: nat, upto: nat): map<string, string>
    requires upto <= |cells|
    decreases upto
  {
    if upto <= from then d else Fill(d, headers, cells, from, upto - 1)[Label(headers, upto - 1) := cells[upto - 1]]
  }

  /**
    Every written column's label is a key, and it holds that column's text
    unless a later column has the same label; keys already present stay.
  */
  lemma {:induction false} FillValues(d: map<string, string>, headers: seq<string>, cells: seq<string>, from: nat, upto: nat, i: nat)
    requires upto <= |cells| && from <= i < upto
    ensures Label(headers, i) in Fill(d, headers, cells, from, upto)
    ensures (forall j | i < j < upto :: Label(headers, j) != Label(headers, i)) ==>
      Fill(d, headers, cells, from, upto)[Label(headers, i)] == cells[i]
    decreases upto
  {
    if i < upto - 1 {
      FillValues(d, headers, cells, from, upto - 1, i);
    }
  }

  /** Columns past the header row are labelled by their index. */
  lemma LabelFallback(headers: seq<string>, idx: nat)
    requires idx >= |headers|
    ensures Label(headers, idx) == NatToString(idx) && IsDigits(Label(headers, idx))
  {
  }

  /** The loop that writes columns `from ..` of a row into a dictionary. */
  method FillRow(d: map<string, string>, headers: seq<string>, cells: seq<string>, from: nat) returns (r: map<string, string>)
    ensures r == Fill(d, headers, cells, from, |cells|)
  {
    r := d;
    if from >= |cells| {
      return;
    }
    for idx := from to |cells|
      invariant r == Fill(d, headers, cells, from, idx)
    {
      var col := if idx < |headers| then headers[idx] else NatToString(idx);
      r := r[col := cells[idx]];
    }
  }

  /** One kill matrix row: the player and the kills against each opponent. */
  datatype KillRow = KillRow(player: string, killsVs: map<string, string>)

  predicate NonEmptyRow(cells: seq<string>) {
    cells != []
  }

  function KillRowOf(headers: seq<string>, cells: seq<string>): KillRow
    requires cells != []
  {
    KillRow(cells[0], Fill(map[], headers, cells, 1, |cells|))
  }

  function AdvancedRowOf(headers: seq<string>, cells: seq<string>): map<string, string>
    requires cells != []
  {
    Fill(map["player" := cells[0]], headers, cells, 1, |cells|)
  }

  function EconomyRowOf(headers: seq<string>, cells: seq<string>): map<string, string> {
    Fill(map[], headers, cells, 0, |cells|)
  }

  /** The rows of a table that are kept: the ones with cells. */
  function BodyRows(t: Option<Table>): (r: seq<seq<string>>)
    ensures forall k | 0 <= k < |r| :: r[k] != []
  {
    if t.None? then [] else Filter(t.value.rows, NonEmptyRow)
  }

  /** `_parse_kill_matrix`: one row per body row with cells. */
  function KillMatrixOf(t: Option<Table>): (r: seq<KillRow>)
    ensures |r| == |BodyRows(t)|
    ensures forall k | 0 <= k < |r| :: r[k] == KillRowOf(t.value.headers, BodyRows(t)[k])
  {
    var rows := BodyRows(t);
    seq(|rows|, k requires 0 <= k < |rows| => KillRowOf(t.value.headers, rows[k]))
  }

  /** `_parse_advanced_stats`. */
  function AdvancedOf(t: Option<Table>): (r: seq<map<string, string>>)
    ensures |r| == |BodyRows(t)|
    ensures forall k | 0 <= k < |r| :: r[k] == AdvancedRowOf(t.value.headers, BodyRows(t)[k])
  {
    var rows := BodyRows(t);
    seq(|rows|, k requires 0 <= k < |rows| => AdvancedRowOf(t.value.headers, rows[k]))
  }

  /** `_parse_economy`. */
  function EconomyOf(t: Option<Table>): (r: seq<map<string, string>>)
    ensures |r| == |BodyRows(t)|
    ensures forall k | 0 <= k < |r| :: r[k] == EconomyRowOf(t.value.headers, BodyRows(t)[k])
  {
    var rows := BodyRows(t);
    seq(|rows|, k requires 0 <= k < |rows| => EconomyRowOf(t.value.headers, rows[k]))
  }

  /** `_parse_kill_matrix`'s loop. */
  method ParseKillMatrix(t: Option<Table>) returns (matrix: seq<KillRow>)
    ensures matrix == KillMatrixOf(t)
  {
    matrix := [];
    if t.None? {
      return;
    }
    var rows := t.value.rows;
    for i := 0 to |rows|
      invariant KillRowsSoFar(t.value.headers, rows[..i], matrix)
    {
      matrix := KillMatrixRow(t.value.headers, rows, i, matrix);
    }
    assert rows[..|rows|] == rows;
  }

  /** The kill matrix rows built from the rows with cells among `rows`. */
  predicate KillRowsSoFar(headers: seq<string>, rows: seq<seq<string>>, matrix: seq<KillRow>) {
    var kept := Filter(rows, NonEmptyRow);
    |matrix| == |kept| && forall k | 0 <= k < |matrix| :: matrix[k] == KillRowOf(headers, kept[k])
  }

  /** One iteration: a row without cells is skipped, any other adds its player's row. */
  method KillMatrixRow(headers: seq<string>, rows: seq<seq<string>>, i: nat, matrix0: seq<KillRow>) returns (matrix: seq<KillRow>)
    requires i < |rows| && KillRowsSoFar(headers, rows[..i], matrix0)
    ensures KillRowsSoFar(headers, rows[..i + 1], matrix)
  {
    var cells := rows[i];
    FilterPrefix(rows, i, NonEmptyRow);
    matrix := matrix0;
    if cells != [] {
      var killsVs := FillRow(map[], headers, cells, 1);
      matrix := matrix + [KillRow(cells[0], killsVs)];
    }
  }

  /** `_parse_advanced_stats`'s loop. */
  method ParseAdvancedStats(t: Option<Table>) returns (advanced: seq<map<string, string>>)
    ensures advanced == AdvancedOf(t)
  {
    advanced := [];
    if t.None? {
      return;
    }
    var rows := t.value.rows;
    for i := 0 to |rows|
      invariant AdvancedRowsSoFar(t.value.headers, rows[..i], advanced)
    {
      advanced := AdvancedStatsRow(t.value.headers, rows, i, advanced);
    }
    assert rows[..|rows|] == rows;
  }

  /** The advanced stats rows built from the rows with cells among `rows`. */
  predicate AdvancedRowsSoFar(headers: seq<string>, rows: seq<seq<string>>, advanced: seq<map<string, string>>) {
    var kept := Filter(rows, NonEmptyRow);
    |advanced| == |kept| && forall k | 0 <= k < |advanced| :: advanced[k] == AdvancedRowOf(headers, kept[k])
  }

  /** One iteration: a row without cells is skipped, any other adds its player's dictionary. */
  method AdvancedStatsRow(headers: seq<string>, rows: seq<seq<string>>, i: nat, advanced0: seq<map<string, string>>)
    returns (advanced: seq<map<string, string>>)
    requires i < |rows| && AdvancedRowsSoFar(headers, rows[..i], advanced0)
    ensures AdvancedRowsSoFar(headers, rows[..i + 1], advanced)
  {
    var cells := rows[i];
    FilterPrefix(rows, i, NonEmptyRow);
    advanced := advanced0;
    if cells != [] {
      var statDict := FillRow(map["player" := cells[0]], headers, cells, 1);
      advanced := advanced + [statDict];
    }
  }

  /** `_parse_economy`'s loop. */
  method ParseEconomy(t: Option<Table>) returns (economy: seq<map<string, string>>)
    ensures economy == EconomyOf(t)
  {
    economy := [];
    if t.None? {
      return;
    }
    var rows := t.value.rows;
    for i := 0 to |rows|
      invariant EconomyRowsSoFar(t.value.headers, rows[..i], economy)
    {
      economy := EconomyRow(t.value.headers, rows, i, economy);
    }
    assert rows[..|rows|] == rows;
  }

  /** The economy rows built from the rows with cells among `rows`. */
  predicate EconomyRowsSoFar(headers: seq<string>, rows: seq<seq<string>>, economy: seq<map<string, string>>) {
    var kept := Filter(rows, NonEmptyRow);
    |economy| == |kept| && forall k | 0 <= k < |economy| :: economy[k] == EconomyRowOf(headers, kept[k])
  }

  /** One iteration: a row without cells is skipped, any other adds its dictionary. */
  method EconomyRow(headers: seq<string>, rows: seq<seq<string>>, i: nat, economy0: seq<map<string, string>>)
    returns (economy: seq<map<string, string>>)
    requires i < |rows| && EconomyRowsSoFar(headers, rows[..i], economy0)
    ensures EconomyRowsSoFar(headers, rows[..i + 1], economy)
  {
    var cells := rows[i];
    FilterPrefix(rows, i, NonEmptyRow);
    economy := economy0;
    if cells != [] {
      var rowDict := FillRow(map[], headers, cells, 0);
      economy := economy + [rowDict];
    }
  }

  // ---------------------------------------------------------------------------
  // vlr_match_detail
  // ---------------------------------------------------------------------------

  /** The base match page. */
  datatype BasePage = BasePage(vsNote: Option<string>, header: Header, navIds: seq<string>, games: seq<Game>)

  /** A base page response: the HTTP status and the page. */
  datatype BaseResponse = BaseResponse(status: int, page: BasePage)

  /** A tab page: the kill matrix, advanced stats and economy tables it has. */
  datatype TabPage = TabPage(killTable: Option<Table>, advTable: Option<Table>, econTable: Option<Table>)

  datatype Performance = Performance(killMatrix: seq<KillRow>, advancedStats: seq<map<string, string>>)

  /** The match segment (the event, date, stream, VOD and head-to-head sections are not modelled). */
  datatype DetailSegment = DetailSegment(
    matchId: string, teams: seq<MatchTeam>, maps: seq<MapData>,
    performance: Performance, economy: seq<map<string, string>>)

  /** `{"data": {"status": http_status, "segments": [segment]}}`. */
  datatype DetailData = DetailData(status: int, segments: seq<DetailSegment>)

  /** `CACHE_TTL_MATCH_DETAIL_LIVE` and `CACHE_TTL_MATCH_DETAIL`. */
  datatype DetailTtls = DetailTtls(live: int, completed: int)

  function BaseUrl(matchId: string): string {
    VlrBase + "/" + matchId
  }

  function TabUrl(matchId: string, gameId: string, tab: string): string {
    BaseUrl(matchId) + "/?game=" + gameId + "&tab=" + tab
  }

  /** The tab pages: fetched only for a first game id; a failed fetch is None. */
  function Tabs(matchId: string, page: BasePage, fetchTab: string -> Option<TabPage>): (Option<TabPage>, Option<TabPage>) {
    var ids := ExtractGameIds(page.navIds);
    if ids == [] then (None, None)
    else (fetchTab(TabUrl(matchId, ids[0], "performance")), fetchTab(TabUrl(matchId, ids[0], "economy")))
  }

  /** The response built from a fetched base page. */
  function DetailOf(matchId: string, resp: BaseResponse, fetchTab: string -> Option<TabPage>): DetailData {
    var tabs := Tabs(matchId, resp.page, fetchTab);
    var perf := if tabs.0.Some? then Performance(KillMatrixOf(tabs.0.value.killTable), AdvancedOf(tabs.0.value.advTable)) else Performance([], []);
    var economy := if tabs.1.Some? then EconomyOf(tabs.1.value.econTable) else [];
    DetailData(resp.status, [DetailSegment(matchId, TeamsOf(resp.page.header), MapsOf(resp.page.games), perf, economy)])
  }

  /** The TTL the response is cached under. */
  function DetailTtl(ttls: DetailTtls, page: BasePage): int {
    if IsLive(page.vsNote) then ttls.live else ttls.completed
  }

  /** A page without game ids fetches no tab: its response does not depend on the tab pages at all. */
  lemma TabsOnlyWithGame(matchId: string, resp: BaseResponse, fetchTab1: string -> Option<TabPage>, fetchTab2: string -> Option<TabPage>)
    requires ExtractGameIds(resp.page.navIds) == []
    ensures DetailOf(matchId, resp, fetchTab1) == DetailOf(matchId, resp, fetchTab2)
    ensures DetailOf(matchId, resp, fetchTab1).segments[0].performance == Performance([], [])
  {
  }

  /** Failed tab fetches leave the tab sections empty and never fail the match. */
  lemma FailedTabsEmpty(matchId: string, resp: BaseResponse)
    ensures var d := DetailOf(matchId, resp, _ => None);
      && d.status == resp.status && |d.segments| == 1
      && d.segments[0].performance == Performance([], []) && d.segments[0].economy == []
      && d.segments[0].teams == TeamsOf(resp.page.header)
  {
  }

  /** The cache key `("match_detail", match_id)`. */
  function DetailKey(matchId: string): CacheKey {
    MakeCacheKey([KStr("match_detail"), KStr(matchId)], map[])
  }

  /** The URLs of the tab pages, when the nav has a first game id. */
  function TabUrls(matchId: string, page: BasePage): seq<string> {
    var ids := ExtractGameIds(page.navIds);
    if ids == [] then [] else [TabUrl(matchId, ids[0], "performance"), TabUrl(matchId, ids[0], "economy")]
  }

  /** The parsing half of `vlr_match_detail`: the tabs of the first game, then every section. */
  method BuildDetail(matchId: string, resp: BaseResponse, fetchTab: string -> Option<TabPage>)
    returns (data: DetailData, ghost tabUrls: seq<string>)
    ensures data == DetailOf(matchId, resp, fetchTab)
    ensures tabUrls == TabUrls(matchId, resp.page)
  {
    var page := resp.page;
    var gameIds := ExtractGameIds(page.navIds);
    var performancePage: Option<TabPage> := None;
    var economyPage: Option<TabPage> := None;
    tabUrls := [];
    if gameIds != [] {
      var perfUrl := TabUrl(matchId, gameIds[0], "performance");
      var econUrl := TabUrl(matchId, gameIds[0], "economy");
      tabUrls := [perfUrl, econUrl];
      performancePage, economyPage := fetchTab(perfUrl), fetchTab(econUrl);
    }
    var teams := ParseTeams(page.header);
    var maps := ParseMaps(page.games);
    var killMatrix: seq<KillRow> := [];
    var advancedStats: seq<map<string, string>> := [];
    var economy: seq<map<string, string>> := [];
    if performancePage.Some? {
      killMatrix := ParseKillMatrix(performancePage.value.killTable);
      advancedStats := ParseAdvancedStats(performancePage.value.advTable);
    }
    if economyPage.Some? {
      economy := ParseEconomy(economyPage.value.econTable);
    }
    var segment := DetailSegment(matchId, teams, maps, Performance(killMatrix, advancedStats), economy);
    data := DetailData(resp.status, [segment]);
  }

  /** `vlr_match_detail`. */
  method VlrMatchDetail(cache: CacheManager<DetailData>, ttls: DetailTtls, matchId: string,
                        fetchBase: string -> Result<BaseResponse, ScraperException>, fetchTab: string -> Option<TabPage>)
    returns (r: Result<DetailData, ScraperException>, ghost fetched: seq<string>)
    requires cache.Valid()
    modifies cache
    ensures cache.Valid()
    // the live namespace is consulted first, and a hit there returns without any fetch
    ensures var hit := Lookup(old(cache.caches), ttls.live, DetailKey(matchId));
      hit.Some? ==> r == Success(hit.value) && fetched == [] && cache.caches == WithNamespace(old(cache.caches), ttls.live)
    // then the completed namespace
    ensures var hit := Lookup(old(cache.caches), ttls.completed, DetailKey(matchId));
      Lookup(old(cache.caches), ttls.live, DetailKey(matchId)).None? && hit.Some? ==>
        && r == Success(hit.value) && fetched == []
        && cache.caches == WithNamespace(WithNamespace(old(cache.caches), ttls.live), ttls.completed)
    // on a double miss the base page is fetched first, and a raising fetch propagates
    ensures var miss := Lookup(old(cache.caches), ttls.live, DetailKey(matchId)).None?
      && Lookup(old(cache.caches), ttls.completed, DetailKey(matchId)).None?;
      var resp := fetchBase(BaseUrl(matchId));
      miss ==> fetched != [] && fetched[0] == BaseUrl(matchId)
    // a raising base fetch propagates and caches nothing
    ensures var miss := Lookup(old(cache.caches), ttls.live, DetailKey(matchId)).None?
      && Lookup(old(cache.caches), ttls.completed, DetailKey(matchId)).None?;
      var resp := fetchBase(BaseUrl(matchId));
      miss && resp.Failure? ==>
        && r == Failure(resp.error)
        && cache.caches == WithNamespace(WithNamespace(old(cache.caches), ttls.live), ttls.completed)
    // a fetched page is cached whatever its status, under the TTL its liveness picks,
    // and the tabs are fetched only for a first game id
    ensures var miss := Lookup(old(cache.caches), ttls.live, DetailKey(matchId)).None?
      && Lookup(old(cache.caches), ttls.completed, DetailKey(matchId)).None?;
      var resp := fetchBase(BaseUrl(matchId));
      miss && resp.Success? ==>
        && r == Success(DetailOf(matchId, resp.value, fetchTab))
        && fetched == [BaseUrl(matchId)] + TabUrls(matchId, resp.value.page)
        && cache.caches == Stored(WithNamespace(WithNamespace(old(cache.caches), ttls.live), ttls.completed),
                                  DetailTtl(ttls, resp.value.page), DetailKey(matchId), r.value)
  {
    fetched := [];
    var args := [KStr("match_detail"), KStr(matchId)];
    var cached := cache.Get(ttls.live, args, map[]);
    if cached.Some? {
      return Success(cached.value), fetched;
    }
    cached := cache.Get(ttls.completed, args, map[]);
    if cached.Some? {
      return Success(cached.value), fetched;
    }
    var baseUrl := VlrBase + "/" + matchId;
    fetched := [baseUrl];
    var baseResp := fetchBase(baseUrl);
    if baseResp.Failure? {
      return Failure(baseResp.error), fetched;
    }
    var data, tabUrls := BuildDetail(matchId, baseResp.value, fetchTab);
    fetched := fetched + tabUrls;
    var ttl := if IsLive(baseResp.value.page.vsNote) then ttls.live else ttls.completed;
    cache.Set(ttl, data, args, map[]);
    r := Success(data);
  }
}
