/**
  The string helpers every scraper applies to text and attributes it has
  already selected from a page: URL normalisation, id/slug splitting of VLR
  links, countdown parsing, prize classification, flag classes, two-team
  padding and social-platform inference.

  An HTML element the helpers read is given as the text or attribute they take
  from it, wrapped in an `Option` when the element may be missing.
*/
module HtmlParsers {
  import opened Base
  import opened Text
  import opened Lists

  /** The site root the helpers default to. */
  const VlrBase: string := "https://www.vlr.gg"

  // ---------------------------------------------------------------------------
  // URLs
  // ---------------------------------------------------------------------------

  /** `normalize_image_url(src, base_url)`. */
  function NormalizeImageUrl(src: string, base: string): (r: string)
    ensures src == [] ==> r == []
    // protocol-relative sources get the https scheme
    ensures StartsWith(src, "//") ==> r == "https:" + src
    // site-relative sources get the site root
    ensures StartsWith(src, "/") && !StartsWith(src, "//") ==> r == base + src
    ensures !StartsWith(src, "/") ==> r == src
  {
    if src == [] then ""
    else if StartsWith(src, "//") then "https:" + src
    else if StartsWith(src, "/") then base + src
    else src
  }

  /** Normalising twice is normalising once, for a site root that is itself absolute. */
  lemma NormalizeImageUrlIdempotent(src: string, base: string)
    requires base != [] && base[0] != '/'
    ensures NormalizeImageUrl(NormalizeImageUrl(src, base), base) == NormalizeImageUrl(src, base)
  {
    var r := NormalizeImageUrl(src, base);
    if StartsWith(src, "/") {
      assert r[0] != '/' by {
        if StartsWith(src, "//") { assert r[0] == 'h'; } else { assert r[0] == base[0]; }
      }
    }
  }

  /** `build_full_url(href, base_url)`: any href starting with `/`, `//` included, is prefixed. */
  function BuildFullUrl(href: string, base: string): (r: string)
    ensures href == [] ==> r == []
    ensures StartsWith(href, "/") ==> r == base + href
    ensures !StartsWith(href, "/") ==> r == href
  {
    if href == [] then ""
    else if StartsWith(href, "/") then base + href
    else href
  }

  /** Building twice is building once, for a site root that is itself absolute. */
  lemma BuildFullUrlIdempotent(href: string, base: string)
    requires base != [] && base[0] != '/'
    ensures BuildFullUrl(BuildFullUrl(href, base), base) == BuildFullUrl(href, base)
  {
    if StartsWith(href, "/") {
      assert BuildFullUrl(href, base)[0] == base[0];
    }
  }

  // ---------------------------------------------------------------------------
  // parse_href_id_slug
  // ---------------------------------------------------------------------------

  /** The segments of a link path once surrounding slashes are trimmed. */
  function PathSegments(href: string): (r: seq<string>)
    ensures |r| >= 1
  {
    Split(StripChars(href, {'/'}), '/')
  }

  /** The index of the first all-digit segment at or after `i`, if any. */
  function FirstNumeric(parts: seq<string>, i: nat): (r: Option<nat>)
    ensures r.Some? ==> i <= r.value < |parts| && IsDigits(parts[r.value])
    ensures r.Some? ==> forall j | i <= j < r.value :: !IsDigits(parts[j])
    ensures r.None? ==> forall j | i <= j < |parts| :: !IsDigits(parts[j])
    decreases |parts| - i
  {
    if i >= |parts| then None
    else if IsDigits(parts[i]) then Some(i)
    else FirstNumeric(parts, i + 1)
  }

  /** `parse_href_id_slug(href)`: the first numeric segment and the segment after it. */
  function ParseHrefIdSlug(href: string): (r: (string, string))
    // the id is empty or all digits, and the slug is empty when the id is
    ensures r.0 == [] || IsDigits(r.0)
    ensures r.0 == [] ==> r.1 == []
    // no numeric segment at all gives two empty strings
    ensures FirstNumeric(PathSegments(href), 0).None? ==> r == ("", "")
    // otherwise the id is the first numeric segment and the slug the one after it, if any
    ensures FirstNumeric(PathSegments(href), 0).Some? ==>
      var parts, i := PathSegments(href), FirstNumeric(PathSegments(href), 0).value;
      r.0 == parts[i] && r.1 == (if i + 1 < |parts| then parts[i + 1] else "")
  {
    if href == [] then ("", "")
    else
      var parts := PathSegments(href);
      var f := FirstNumeric(parts, 0);
      if f.None? then ("", "")
      else (parts[f.value], if f.value + 1 < |parts| then parts[f.value + 1] else "")
  }

  /** A segment: non-empty and free of slashes. */
  predicate Segment(s: string) {
    s != [] && '/' !in s
  }

  /** Trimming slashes from `/a/b/c` leaves `a/b/c` when `a` and `c` are segments. */
  lemma {:induction false} StripSlashes(body: string)
    requires body != [] && body[0] != '/' && body[|body| - 1] != '/'
    ensures StripChars("/" + body, {'/'}) == body
  {
    var s := "/" + body;
    assert s[1..] == body;
  }

  /** Three slash-free parts joined by slashes split back into the three parts. */
  lemma SplitThree(a: string, b: string, c: string)
    requires '/' !in a && '/' !in b && '/' !in c
    ensures Split(a + "/" + b + "/" + c, '/') == [a, b, c]
  {
    assert a + "/" + b + "/" + c == a + ['/'] + (b + ['/'] + c);
    SplitAround(a, b + ['/'] + c, '/');
    SplitAround(b, c, '/');
    SplitNoSep(a, '/');
    SplitNoSep(b, '/');
    SplitNoSep(c, '/');
  }

  /** The segments of `/<kind>/<id>/<slug>`. */
  lemma LinkSegments(kind: string, id: string, slug: string)
    requires Segment(kind) && Segment(id) && Segment(slug)
    ensures PathSegments("/" + kind + "/" + id + "/" + slug) == [kind, id, slug]
  {
    var body := kind + "/" + id + "/" + slug;
    assert "/" + kind + "/" + id + "/" + slug == "/" + body;
    assert body[0] == kind[0] && body[|body| - 1] == slug[|slug| - 1];
    StripSlashes(body);
    SplitThree(kind, id, slug);
  }

  /** The segments of `/<first>/<second>`. */
  lemma TwoSegments(first: string, second: string)
    requires Segment(first) && Segment(second)
    ensures PathSegments("/" + first + "/" + second) == [first, second]
  {
    var body := first + "/" + second;
    assert "/" + first + "/" + second == "/" + body;
    assert body[0] == first[0] && body[|body| - 1] == second[|second| - 1];
    StripSlashes(body);
    SplitTwo(first, second);
  }

  lemma SplitTwo(a: string, b: string)
    requires '/' !in a && '/' !in b
    ensures Split(a + "/" + b, '/') == [a, b]
  {
    assert a + "/" + b == a + ['/'] + b;
    SplitAround(a, b, '/');
    SplitNoSep(a, '/');
    SplitNoSep(b, '/');
  }

  /** Reading back a link `/<kind>/<id>/<slug>` gives its id and slug. */
  lemma HrefRoundTrip(kind: string, id: string, slug: string)
    requires Segment(kind) && Segment(slug) && !IsDigits(kind)
    requires IsDigits(id)
    ensures ParseHrefIdSlug("/" + kind + "/" + id + "/" + slug) == (id, slug)
  {
    assert '/' !in id;
    LinkSegments(kind, id, slug);
    var parts := [kind, id, slug];
    assert FirstNumeric(parts, 1) == Some(1);
    assert FirstNumeric(parts, 0) == Some(1);
  }

  // ---------------------------------------------------------------------------
  // parse_eta_to_timedelta
  // ---------------------------------------------------------------------------

  /** The units a countdown token may carry. */
  predicate IsUnit(c: char) {
    c == 'd' || c == 'h' || c == 'm'
  }

  /** What `\s*` skips: the leading whitespace. */
  function SkipSpaces(t: string): (r: string)
    ensures |r| <= |t|
  {
    LStripChars(t, Whitespace)
  }

  /** `re.findall(r"(\d+)\s*([dhm])", s)`: leftmost matches, scanning past each one. */
  function Tokens(s: string): (r: seq<(nat, char)>)
    decreases |s|
  {
    if s == [] then []
    else
      var d := DigitPrefix(s);
      var rest := SkipSpaces(s[|d|..]);
      if d != [] && rest != [] && IsUnit(rest[0]) then
        [(DigitsValue(d), rest[0])] + Tokens(rest[1..])
      else
        Tokens(s[1..])
  }

  /** Minutes in one unit. */
  function UnitMinutes(u: char): nat {
    if u == 'd' then 1440 else if u == 'h' then 60 else if u == 'm' then 1 else 0
  }

  /** The duration the tokens add up to, in minutes. */
  function TotalMinutes(tokens: seq<(nat, char)>): nat {
    if tokens == [] then 0
    else TotalMinutes(tokens[..|tokens| - 1]) + tokens[|tokens| - 1].0 * UnitMinutes(tokens[|tokens| - 1].1)
  }

  /** The text is a live marker or a past time, which has no countdown. */
  predicate LiveOrPast(t: string) {
    Contains(Upper(t), "LIVE") || Contains(Lower(t), "ago")
  }

  /** What `parse_eta_to_timedelta` returns, in minutes. */
  function EtaMinutes(etaText: Option<string>): (r: Option<nat>)
    // a countdown is always strictly positive
    ensures r.Some? ==> r.value > 0
    // missing, blank, live and past texts have none
    ensures etaText.None? || Strip(etaText.value) == [] ==> r.None?
    ensures etaText.Some? && LiveOrPast(Strip(etaText.value)) ==> r.None?
    // otherwise it is the sum of the tokens, when that is positive
    ensures etaText.Some? && Strip(etaText.value) != [] && !LiveOrPast(Strip(etaText.value)) ==>
      r == (var m := TotalMinutes(Tokens(Lower(Strip(etaText.value)))); if m > 0 then Some(m) else None)
  {
    if etaText.None? || etaText.value == [] then None
    else
      var t := Strip(etaText.value);
      if t == [] || LiveOrPast(t) then None
      else
        var tokens := Tokens(Lower(t));
        if tokens == [] then None
        else
          var m := TotalMinutes(tokens);
          if m > 0 then Some(m) else None
  }

  /** `parse_eta_to_timedelta(eta_text)`, returning the duration in minutes. */
  method ParseEta(etaText: Option<string>) returns (minutes: Option<nat>)
    ensures minutes == EtaMinutes(etaText)
  {
    if etaText.None? || etaText.value == [] {
      return None;
    }
    var t := Strip(etaText.value);
    if t == [] || Contains(Upper(t), "LIVE") || Contains(Lower(t), "ago") {
      return None;
    }
    var tokens := Tokens(Lower(t));
    if tokens == [] {
      return None;
    }
    var total := SumTokens(tokens);
    minutes := if total > 0 then Some(total) else None;
  }

  /** The accumulation loop of `parse_eta_to_timedelta`. */
  method SumTokens(tokens: seq<(nat, char)>) returns (total: nat)
    ensures total == TotalMinutes(tokens)
  {
    total := 0;
    for i := 0 to |tokens|
      invariant total == TotalMinutes(tokens[..i])
    {
      var (value, unit) := tokens[i];
      if unit == 'd' {
        total := total + value * 1440;
      } else if unit == 'h' {
        total := total + value * 60;
      } else if unit == 'm' {
        total := total + value;
      }
      assert tokens[..i + 1][..i] == tokens[..i];
    }
    assert tokens[..|tokens|] == tokens;
  }

  /** No unit letter is whitespace. */
  lemma UnitNotSpace(u: char)
    requires IsUnit(u)
    ensures u !in Whitespace
  {
  }

  /** A number followed directly by a unit is read as one token. */
  lemma {:induction false} TokensLead(d: string, u: char, rest: string)
    requires IsDigits(d) && IsUnit(u)
    ensures Tokens(d + [u] + rest) == [(DigitsValue(d), u)] + Tokens(rest)
  {
    var s := d + [u] + rest;
    var t := [u] + rest;
    assert s == d + t;
    DigitPrefixAppend(d, t);
    assert s[|d|..] == t;
    UnitNotSpace(u);
    assert SkipSpaces(t) == t;
    assert t[1..] == rest;
  }

  /** A leading space between tokens is skipped. */
  lemma TokensSpace(rest: string)
    ensures Tokens(" " + rest) == Tokens(rest)
  {
    var s := " " + rest;
    assert DigitPrefix(s) == [];
    assert s[1..] == rest;
  }

  /** The characters of a countdown written as `<h>h <m>m` or `<d>d <h>h`. */
  predicate CountdownChar(c: char) {
    IsDigit(c) || c == 'd' || c == 'h' || c == 'm' || c == ' '
  }

  /** No digit is whitespace. */
  lemma DigitNotSpace(c: char)
    requires IsDigit(c)
    ensures c !in Whitespace
  {
  }

  /** A countdown made of digits, units and spaces is neither live nor past, and is its own lower case. */
  lemma CountdownPlain(s: string)
    requires s != [] && IsDigit(s[0]) && IsUnit(s[|s| - 1])
    requires forall i | 0 <= i < |s| :: CountdownChar(s[i])
    ensures Strip(s) == s && Lower(s) == s && !LiveOrPast(s)
  {
    DigitNotSpace(s[0]);
    UnitNotSpace(s[|s| - 1]);
    StrippedIsFixed(s);
    CountdownCase(s);
    NotContainsFirstChar(Upper(s), "LIVE");
    NotContainsFirstChar(s, "ago");
  }

  /** Case mapping leaves a countdown's lower-case letters alone. */
  lemma CountdownCase(s: string)
    requires forall i | 0 <= i < |s| :: CountdownChar(s[i])
    ensures 'L' !in Upper(s) && Lower(s) == s && 'a' !in s
  {
    assert forall i | 0 <= i < |s| :: Upper(s)[i] != 'L' && s[i] != 'a';
  }

  /** The countdown text `<a><u> <b><v>`. */
  function TwoTokenText(a: nat, u: char, b: nat, v: char): string {
    NatToString(a) + [u] + " " + NatToString(b) + [v]
  }

  /** `<n><v>` is read as one token. */
  lemma OneToken(n: nat, v: char)
    requires IsUnit(v)
    ensures Tokens(NatToString(n) + [v]) == [(n, v)]
  {
    NatToStringValue(n);
    assert NatToString(n) + [v] == NatToString(n) + [v] + [];
    TokensLead(NatToString(n), v, []);
  }

  /** `<a><u> <b><v>` is read as the two tokens it spells. */
  lemma TwoTokens(a: nat, u: char, b: nat, v: char)
    requires IsUnit(u) && IsUnit(v)
    ensures Tokens(TwoTokenText(a, u, b, v)) == [(a, u), (b, v)]
  {
    var sa, t2 := NatToString(a), NatToString(b) + [v];
    NatToStringValue(a);
    assert TwoTokenText(a, u, b, v) == sa + [u] + (" " + t2);
    TokensLead(sa, u, " " + t2);
    TokensSpace(t2);
    OneToken(b, v);
  }

  /** `<a><u> <b><v>` is a plain countdown. */
  lemma TwoTokenChars(a: nat, u: char, b: nat, v: char)
    requires IsUnit(u) && IsUnit(v)
    ensures var s := TwoTokenText(a, u, b, v);
      s != [] && IsDigit(s[0]) && IsUnit(s[|s| - 1]) && forall i | 0 <= i < |s| :: CountdownChar(s[i])
  {
    var sa, sb := NatToString(a), NatToString(b);
    var s := TwoTokenText(a, u, b, v);
    assert s[0] == sa[0];
    forall i | 0 <= i < |s| ensures CountdownChar(s[i]) {
      if i < |sa| {
        assert s[i] == sa[i];
      } else if |sa| + 1 < i < |s| - 1 {
        assert s[i] == sb[i - |sa| - 2];
      }
    }
  }

  /** A plain countdown's minutes are the sum of its tokens. */
  lemma EtaOfPlain(s: string)
    requires s != [] && Strip(s) == s && Lower(s) == s && !LiveOrPast(s)
    ensures EtaMinutes(Some(s)) == (var m := TotalMinutes(Tokens(s)); if m > 0 then Some(m) else None)
  {
  }

  lemma TotalOfTwo(a: nat, u: char, b: nat, v: char)
    ensures TotalMinutes([(a, u), (b, v)]) == a * UnitMinutes(u) + b * UnitMinutes(v)
  {
    var ts: seq<(nat, char)> := [(a, u), (b, v)];
    assert ts[..1] == [(a, u)];
    assert ts[..1][..0] == [];
    assert TotalMinutes(ts[..1]) == a * UnitMinutes(u);
  }

  /** Two tokens `<a><u> <b><v>` read back as their minutes. */
  lemma TwoTokenCountdown(a: nat, u: char, b: nat, v: char)
    requires IsUnit(u) && IsUnit(v)
    ensures var m := a * UnitMinutes(u) + b * UnitMinutes(v);
      EtaMinutes(Some(TwoTokenText(a, u, b, v))) == if m > 0 then Some(m) else None
  {
    var s := TwoTokenText(a, u, b, v);
    TwoTokens(a, u, b, v);
    TwoTokenChars(a, u, b, v);
    CountdownPlain(s);
    EtaOfPlain(s);
    TotalOfTwo(a, u, b, v);
  }

  /** The repository's countdown cases with a duration: `4h 1m`, `1d 2h` and `30m`. */
  lemma EtaExamples(s: string)
    ensures s == "4h 1m" ==> EtaMinutes(Some(s)) == Some(241)
    ensures s == "1d 2h" ==> EtaMinutes(Some(s)) == Some(1560)
    ensures s == "30m" ==> EtaMinutes(Some(s)) == Some(30)
  {
    if s == "4h 1m" {
      TwoTokenCountdown(4, 'h', 1, 'm');
      SpellTwo(4, 'h', 1, 'm', s);
    } else if s == "1d 2h" {
      TwoTokenCountdown(1, 'd', 2, 'h');
      SpellTwo(1, 'd', 2, 'h', s);
    } else if s == "30m" {
      OneTokenCountdown(30, 'm');
      SpellThirty(s);
    }
  }

  /** A two-token countdown with one-digit numbers, spelled out. */
  lemma SpellTwo(a: nat, u: char, b: nat, v: char, s: string)
    requires a < 10 && b < 10
    requires s == [DigitChar(a), u, ' ', DigitChar(b), v]
    ensures TwoTokenText(a, u, b, v) == s
  {
  }

  lemma SpellThirty(s: string)
    requires s == "30m"
    ensures NatToString(30) + ['m'] == s
  {
    assert NatToString(30) == NatToString(3) + [DigitChar(0)];
  }

  /** One token `<n><v>` reads back as its minutes. */
  lemma OneTokenCountdown(n: nat, v: char)
    requires IsUnit(v)
    ensures EtaMinutes(Some(NatToString(n) + [v])) == if n * UnitMinutes(v) > 0 then Some(n * UnitMinutes(v)) else None
  {
    var s := NatToString(n) + [v];
    OneToken(n, v);
    assert s[0] == NatToString(n)[0];
    forall i | 0 <= i < |s| ensures CountdownChar(s[i]) {
      if i < |s| - 1 { assert s[i] == NatToString(n)[i]; }
    }
    CountdownPlain(s);
    EtaOfPlain(s);
    assert [(n, v)][..0] == [];
  }

  /** The repository's countdown cases without a duration. */
  lemma EtaNoneExamples()
    ensures EtaMinutes(Some("LIVE")) == None
    ensures EtaMinutes(Some("2h ago")) == None
    ensures EtaMinutes(Some("")) == None
    ensures EtaMinutes(None) == None
  {
    LiveText("LIVE");
    AgoText("2h ago");
  }

  lemma LiveText(s: string)
    requires s == "LIVE"
    ensures EtaMinutes(Some(s)) == None
  {
    assert forall i | 0 <= i < |s| :: 'A' <= s[i] <= 'Z';
    UpperOfCapitals(s);
    CapitalsNotSpace(s);
    StrippedIsFixed(s);
    StartsContain(s, "LIVE");
    assert LiveOrPast(Strip(s));
    MarkedHasNoEta(s);
  }

  /** A live or past text has no countdown. */
  lemma MarkedHasNoEta(s: string)
    requires s != [] && LiveOrPast(Strip(s))
    ensures EtaMinutes(Some(s)) == None
  {
  }

  /** Capitals are kept by `upper()`. */
  lemma UpperOfCapitals(s: string)
    requires forall i | 0 <= i < |s| :: 'A' <= s[i] <= 'Z'
    ensures Upper(s) == s
  {
  }

  /** A text contains its own prefix. */
  lemma StartsContain(s: string, pat: string)
    requires |pat| <= |s| && s[..|pat|] == pat
    ensures Contains(s, pat)
  {
    assert OccursAt(s, pat, 0);
  }

  lemma AgoText(s: string)
    requires s == "2h ago"
    ensures EtaMinutes(Some(s)) == None
  {
    assert s[0] !in Whitespace && s[5] !in Whitespace;
    StrippedIsFixed(s);
    assert Lower(s) == s;
    assert OccursAt(s, "ago", 3);
  }

  // ---------------------------------------------------------------------------
  // extract_prize_value
  // ---------------------------------------------------------------------------

  /** `[\d,]+`: a non-empty run of digits and commas. */
  predicate DigitsAndCommas(s: string) {
    s != [] && forall i | 0 <= i < |s| :: IsDigit(s[i]) || s[i] == ','
  }

  /** The text before the first "prize pool", compared case-insensitively. */
  function BeforePrizeLabel(text: string): (r: string)
    ensures |r| <= |text| && r == text[..|r|]
    ensures !Contains(Lower(text), "prize pool") ==> r == text
  {
    var f := Find(Lower(text), "prize pool", 0);
    if f.None? then text else text[..f.value]
  }

  /** The text the classifier looks at: before the label, stripped, whitespace runs collapsed. */
  function PrizeCandidate(text: string): string {
    CollapseSpaces(Strip(BeforePrizeLabel(text)))
  }

  /** `extract_prize_value(prize_elem)`, given the element's stripped text. */
  function ExtractPrizeValue(prizeText: Option<string>): (r: string)
    // the outcome is empty, TBD, or a dollar amount
    ensures r == "" || r == "TBD" || (r[0] == '$' && DigitsAndCommas(r[1..]))
    ensures prizeText.None? ==> r == ""
  {
    if prizeText.None? then "" else ClassifyPrize(PrizeCandidate(prizeText.value))
  }

  /** The classification applied to the candidate text. */
  function ClassifyPrize(v: string): (r: string)
    ensures r == "" || r == "TBD" || (r[0] == '$' && DigitsAndCommas(r[1..]))
  {
    if Upper(v) == "TBD" then "TBD"
    else if v != [] && v[0] == '$' && DigitsAndCommas(v[1..]) then v
    else if DigitsAndCommas(v) && |v| > 2 then "$" + v
    else ""
  }

  /** Text that upper-cases to TBD starts with a letter. */
  lemma TbdStartsWithLetter(s: string)
    requires Upper(s) == "TBD"
    ensures s != [] && (s[0] == 't' || s[0] == 'T')
  {
    assert Upper(s)[0] == 'T';
  }

  /** How the candidate text is classified: TBD in any case, a dollar amount kept, a bare amount of three characters or more given a dollar sign, anything else dropped. */
  lemma PrizeClassification(v: string)
    ensures Upper(v) == "TBD" ==> ClassifyPrize(v) == "TBD"
    ensures v != [] && v[0] == '$' && DigitsAndCommas(v[1..]) ==> ClassifyPrize(v) == v
    ensures DigitsAndCommas(v) && |v| > 2 ==> ClassifyPrize(v) == "$" + v
    // anything else, a dollar sign followed by other text included, is dropped
    ensures Upper(v) != "TBD" && !(v != [] && v[0] == '$' && DigitsAndCommas(v[1..])) && !(DigitsAndCommas(v) && |v| > 2) ==>
      ClassifyPrize(v) == ""
  {
    if Upper(v) == "TBD" {
      TbdStartsWithLetter(v);
    }
  }

  /** Text without whitespace is unchanged by collapsing runs of whitespace. */
  lemma CollapseNoSpaces(s: string)
    requires forall i | 0 <= i < |s| :: s[i] !in Whitespace
    ensures CollapseSpaces(s) == s
  {
    if s != [] {
      assert WordPrefix(s) == s;
      assert s[|s|..] == [];
      assert Words(s) == [s];
    }
  }

  /** A value the classifier produced is classified as itself. */
  lemma PrizeValueIdempotent(prizeText: Option<string>)
    ensures var r := ExtractPrizeValue(prizeText); ExtractPrizeValue(Some(r)) == r
  {
    var r := ExtractPrizeValue(prizeText);
    if r == "TBD" {
      PrizeOfTbd(r);
    } else if r != "" {
      PrizeOfAmount(r);
    } else {
      PrizeOfEmpty(r);
    }
  }

  /** Text with no `p` or `P` has no prize label, so all of it is classified. */
  lemma NoPrizeLabel(s: string)
    requires 'p' !in s && 'P' !in s
    ensures BeforePrizeLabel(s) == s
  {
    assert 'p' !in Lower(s) by {
      assert forall i | 0 <= i < |s| :: Lower(s)[i] != 'p';
    }
    NotContainsFirstChar(Lower(s), "prize pool");
  }

  /** Label-free text without whitespace is its own candidate. */
  lemma CandidateOfPlain(s: string)
    requires 'p' !in s && 'P' !in s
    requires forall i | 0 <= i < |s| :: s[i] !in Whitespace
    ensures PrizeCandidate(s) == s
  {
    NoPrizeLabel(s);
    StripPlain(s);
    CollapseNoSpaces(s);
  }

  /** Text whose ends are not whitespace is unchanged by stripping. */
  lemma StripPlain(s: string)
    requires forall i | 0 <= i < |s| :: s[i] !in Whitespace
    ensures Strip(s) == s
  {
    StrippedIsFixed(s);
  }

  lemma PrizeOfTbd(r: string)
    requires r == "TBD"
    ensures ExtractPrizeValue(Some(r)) == r
  {
    CapitalsNotSpace(r);
    CandidateOfPlain(r);
    assert Upper(r) == r;
  }

  lemma PrizeOfEmpty(r: string)
    requires r == ""
    ensures ExtractPrizeValue(Some(r)) == r
  {
    CandidateOfPlain(r);
  }

  lemma PrizeOfAmount(r: string)
    requires r != [] && r[0] == '$' && DigitsAndCommas(r[1..])
    ensures ExtractPrizeValue(Some(r)) == r
  {
    AmountChars(r);
    AmountNotSpace(r);
    CandidateOfPlain(r);
    assert Upper(r)[0] == '$';
  }

  lemma AmountChars(r: string)
    requires r != [] && r[0] == '$' && DigitsAndCommas(r[1..])
    ensures forall i | 0 <= i < |r| :: r[i] == '$' || IsDigit(r[i]) || r[i] == ','
  {
    forall i | 0 <= i < |r| ensures r[i] == '$' || IsDigit(r[i]) || r[i] == ',' {
      if i > 0 { assert r[i] == r[1..][i - 1]; }
    }
  }

  /** Capital letters are not whitespace. */
  lemma CapitalsNotSpace(r: string)
    requires forall i | 0 <= i < |r| :: 'A' <= r[i] <= 'Z'
    ensures forall i | 0 <= i < |r| :: r[i] !in Whitespace
  {
  }

  /** Dollar signs, digits and commas are not whitespace. */
  lemma AmountNotSpace(r: string)
    requires forall i | 0 <= i < |r| :: r[i] == '$' || IsDigit(r[i]) || r[i] == ','
    ensures forall i | 0 <= i < |r| :: r[i] !in Whitespace
  {
  }

  // ---------------------------------------------------------------------------
  // extract_region_from_flag
  // ---------------------------------------------------------------------------

  /** `extract_region_from_flag(flag_elem)`, given the element's class attribute ("" when absent). */
  function ExtractRegionFromFlag(flagClass: Option<string>): (r: string)
    ensures flagClass.None? ==> r == ""
    ensures IsStripped(r)
    // the marker is removed wherever it occurs
    ensures flagClass.Some? ==> r == Strip(ReplaceAll(flagClass.value, "flag mod-", ""))
  {
    if flagClass.None? then "" else Strip(ReplaceAll(flagClass.value, "flag mod-", ""))
  }

  /** The class `flag mod-<code>` gives back `<code>`. */
  lemma RegionRoundTrip(code: string)
    requires IsStripped(code) && !Contains(code, "flag mod-")
    ensures ExtractRegionFromFlag(Some("flag mod-" + code)) == code
  {
    ReplaceAllLeading("flag mod-", code, "");
    ReplaceAllAbsent(code, "flag mod-", "");
    assert ReplaceAll("flag mod-" + code, "flag mod-", "") == code;
    StrippedIsFixed(code);
  }

  // ---------------------------------------------------------------------------
  // extract_match_teams
  // ---------------------------------------------------------------------------

  /** One team element of a match item, by the texts the helper reads from it. */
  datatype TeamElem = TeamElem(nameText: Option<string>, flagClass: Option<string>, scoreText: Option<string>)

  datatype TeamInfo = TeamInfo(name: string, flag: string, score: string)

  /** The placeholder a missing team is padded with. */
  const PlaceholderTeam: TeamInfo := TeamInfo("TBD", "", "")

  /** The flag text the helper derives from a flag element's class. */
  function FlagOf(cls: string): string {
    var f := ReplaceAll(ReplaceAll(cls, " mod-", ""), "16", "_");
    if StartsWith(f, "flag ") then ReplaceAll(f, "flag ", "") else f
  }

  /** A class with none of the markers the helper rewrites is kept as it is. */
  lemma FlagOfPlain(cls: string)
    requires !Contains(cls, " mod-") && !Contains(cls, "16") && !StartsWith(cls, "flag ")
    ensures FlagOf(cls) == cls
  {
    ReplaceAllAbsent(cls, " mod-", "");
    ReplaceAllAbsent(cls, "16", "");
  }

  /** One team, with "TBD" for a missing name and "" for a missing flag or score. */
  function TeamOf(e: TeamElem): (t: TeamInfo)
    ensures e.nameText.None? ==> t.name == "TBD"
    ensures e.nameText.Some? ==> t.name == Strip(e.nameText.value)
    ensures e.flagClass.None? ==> t.flag == ""
    ensures e.flagClass.Some? ==> t.flag == FlagOf(e.flagClass.value)
    ensures e.scoreText.None? ==> t.score == ""
    ensures e.scoreText.Some? ==> t.score == Strip(e.scoreText.value)
  {
    TeamInfo(
      if e.nameText.Some? then Strip(e.nameText.value) else "TBD",
      if e.flagClass.Some? then FlagOf(e.flagClass.value) else "",
      if e.scoreText.Some? then Strip(e.scoreText.value) else "")
  }

  /** `xs` padded with `pad` up to two elements. */
  function PadToTwo<T>(xs: seq<T>, pad: T): (r: seq<T>)
    ensures |r| == if |xs| >= 2 then |xs| else 2
    ensures r[..|xs|] == xs
    ensures forall i | |xs| <= i < |r| :: r[i] == pad
  {
    if |xs| >= 2 then xs else if |xs| == 1 then xs + [pad] else [pad, pad]
  }

  /** `extract_match_teams(item)`: the first two teams, padded with placeholders. */
  method ExtractMatchTeams(elems: seq<TeamElem>) returns (team1: TeamInfo, team2: TeamInfo)
    ensures |elems| >= 1 ==> team1 == TeamOf(elems[0])
    ensures |elems| >= 2 ==> team2 == TeamOf(elems[1])
    ensures |elems| == 0 ==> team1 == PlaceholderTeam
    ensures |elems| <= 1 ==> team2 == PlaceholderTeam
  {
    var teams: seq<TeamInfo> := [];
    for i := 0 to |elems|
      invariant teams == Map(elems[..i], TeamOf)
    {
      assert elems[..i + 1] == elems[..i] + [elems[i]];
      MapSnoc(elems[..i], elems[i], TeamOf);
      teams := teams + [TeamOf(elems[i])];
    }
    assert elems[..|elems|] == elems;
    teams := PadTeams(teams);
    team1, team2 := teams[0], teams[1];
  }

  /** The `while len(teams) < 2` loop: placeholders appended up to two teams. */
  method PadTeams(teams0: seq<TeamInfo>) returns (teams: seq<TeamInfo>)
    ensures teams == PadToTwo(teams0, PlaceholderTeam)
  {
    teams := teams0;
    while |teams| < 2
      invariant |teams0| <= |teams| && teams[..|teams0|] == teams0
      invariant |teams| <= 2 || teams == teams0
      invariant forall i | |teams0| <= i < |teams| :: teams[i] == PlaceholderTeam
      decreases 2 - |teams|
    {
      teams := teams + [PlaceholderTeam];
    }
  }

  // ---------------------------------------------------------------------------
  // infer_platform
  // ---------------------------------------------------------------------------

  /** The platform table, in the order it is searched. */
  const PlatformPatterns: seq<(string, seq<string>)> := [
    ("twitter", ["twitter.com", "x.com"]),
    ("twitch", ["twitch.tv"]),
    ("instagram", ["instagram.com"]),
    ("youtube", ["youtube.com", "youtu.be"]),
    ("discord", ["discord.gg", "discord.com"]),
    ("facebook", ["facebook.com"]),
    ("vk", ["vk.com"])
  ]

  /** Some domain of the table entry occurs in the host. */
  predicate EntryMatches(entry: (string, seq<string>), host: string) {
    exists k | 0 <= k < |entry.1| :: Contains(host, entry.1[k])
  }

  /** The first entry from `i` on that matches the host, if any. */
  function FirstPlatform(table: seq<(string, seq<string>)>, host: string, i: nat): (r: Option<nat>)
    ensures r.Some? ==> i <= r.value < |table| && EntryMatches(table[r.value], host)
    ensures r.Some? ==> forall j | i <= j < r.value :: !EntryMatches(table[j], host)
    ensures r.None? ==> forall j | i <= j < |table| :: !EntryMatches(table[j], host)
    decreases |table| - i
  {
    if i >= |table| then None
    else if EntryMatches(table[i], host) then Some(i)
    else FirstPlatform(table, host, i + 1)
  }

  /** The host as the helper compares it: lower-cased, then `lstrip("www.")`, a strip of the characters `w` and `.`. */
  function PlatformHost(netloc: string): string {
    LStripChars(Lower(netloc), {'w', '.'})
  }

  /** `infer_platform(url)`, with the URL's network location given as `netloc`. */
  function InferPlatform(url: string, netloc: string): (r: string)
    ensures url == [] ==> r == "other"
    // a match names the first table entry with a domain inside the host
    ensures url != [] && FirstPlatform(PlatformPatterns, PlatformHost(netloc), 0).Some? ==>
      r == PlatformPatterns[FirstPlatform(PlatformPatterns, PlatformHost(netloc), 0).value].0
    // no entry matching means "other"
    ensures url != [] && (forall j | 0 <= j < |PlatformPatterns| :: !EntryMatches(PlatformPatterns[j], PlatformHost(netloc))) ==>
      r == "other"
  {
    if url == [] then "other"
    else
      var f := FirstPlatform(PlatformPatterns, PlatformHost(netloc), 0);
      if f.None? then "other" else PlatformPatterns[f.value].0
  }
}
