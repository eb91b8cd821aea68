/**
  Models of the Python `str` built-ins and the small regular expressions the
  scrapers apply to extracted text. Digits and letter case are ASCII; whitespace
  is the set of characters for which Python's `str.isspace()` holds.
*/
module Text {
  import opened Base

  /** The characters `str.strip()` and `str.split()` treat as whitespace. */
  const Whitespace: set<char> := {
    ' ', '\t', '\n', '\r', '\U{000B}', '\U{000C}', '\U{001C}', '\U{001D}', '\U{001E}', '\U{001F}',
    '\U{0085}', '\U{00A0}', '\U{1680}', '\U{2000}', '\U{2001}', '\U{2002}', '\U{2003}', '\U{2004}',
    '\U{2005}', '\U{2006}', '\U{2007}', '\U{2008}', '\U{2009}', '\U{200A}', '\U{2028}', '\U{2029}',
    '\U{202F}', '\U{205F}', '\U{3000}'
  }

  predicate IsDigit(c: char) {
    '0' <= c <= '9'
  }

  /** Every character of `s` is a digit. */
  predicate AllDigits(s: string) {
    forall i | 0 <= i < |s| :: IsDigit(s[i])
  }

  /** Python's `s.isdigit()`: at least one character, and every character a digit. */
  predicate IsDigits(s: string) {
    |s| > 0 && AllDigits(s)
  }

  predicate StartsWith(s: string, prefix: string) {
    |prefix| <= |s| && s[..|prefix|] == prefix
  }

  // ---------------------------------------------------------------------------
  // strip / lstrip / rstrip
  // ---------------------------------------------------------------------------

  /** `s.lstrip(cs)`: drops the longest prefix made of characters of `cs`. */
  function LStripChars(s: string, cs: set<char>): (r: string)
    ensures |r| <= |s| && r == s[|s| - |r|..]
    ensures forall i | 0 <= i < |s| - |r| :: s[i] in cs
    ensures r == [] || r[0] !in cs
    decreases |s|
  {
    if s != [] && s[0] in cs then
      var r := LStripChars(s[1..], cs);
      assert s[1..][|s| - 1 - |r|..] == s[|s| - |r|..];
      assert forall i | 1 <= i < |s| - |r| :: s[i] == s[1..][i - 1];
      r
    else s
  }

  /** `s.rstrip(cs)`: drops the longest suffix made of characters of `cs`. */
  function RStripChars(s: string, cs: set<char>): (r: string)
    ensures |r| <= |s| && r == s[..|r|]
    ensures forall i | |r| <= i < |s| :: s[i] in cs
    ensures r == [] || r[|r| - 1] !in cs
    decreases |s|
  {
    if s != [] && s[|s| - 1] in cs then RStripChars(s[..|s| - 1], cs) else s
  }

  /** `s.strip(cs)`. */
  function StripChars(s: string, cs: set<char>): (r: string)
    ensures |r| <= |s|
    ensures r == [] || (r[0] !in cs && r[|r| - 1] !in cs)
    ensures (s == [] || (s[0] !in cs && s[|s| - 1] !in cs)) ==> r == s
  {
    RStripChars(LStripChars(s, cs), cs)
  }

  /** `s.strip()`. */
  function Strip(s: string): (r: string)
    ensures |r| <= |s| && IsStripped(r)
  {
    StripChars(s, Whitespace)
  }

  /** Neither end of `s` is whitespace, so stripping leaves it unchanged. */
  predicate IsStripped(s: string) {
    s == [] || (s[0] !in Whitespace && s[|s| - 1] !in Whitespace)
  }

  // ---------------------------------------------------------------------------
  // Case mapping (ASCII letters)
  // ---------------------------------------------------------------------------

  function LowerChar(c: char): char {
    if 'A' <= c <= 'Z' then (c as int + 32) as char else c
  }

  function UpperChar(c: char): char {
    if 'a' <= c <= 'z' then (c as int - 32) as char else c
  }

  /** `s.lower()`. */
  function Lower(s: string): (r: string)
    ensures |r| == |s| && forall i | 0 <= i < |s| :: r[i] == LowerChar(s[i])
  {
    seq(|s|, i requires 0 <= i < |s| => LowerChar(s[i]))
  }

  /** `s.upper()`. */
  function Upper(s: string): (r: string)
    ensures |r| == |s| && forall i | 0 <= i < |s| :: r[i] == UpperChar(s[i])
  {
    seq(|s|, i requires 0 <= i < |s| => UpperChar(s[i]))
  }

  // ---------------------------------------------------------------------------
  // find / in / replace
  // ---------------------------------------------------------------------------

  /** `pat` occurs in `s` at position `j`. */
  predicate OccursAt(s: string, pat: string, j: nat) {
    j + |pat| <= |s| && s[j..j + |pat|] == pat
  }

  /** `s.find(pat, k)`: the first position from `k` on at which `pat` occurs in `s`, if any. */
  function Find(s: string, pat: string, k: nat): (r: Option<nat>)
    ensures r.Some? ==> k <= r.value && OccursAt(s, pat, r.value)
    ensures r.Some? ==> forall j | k <= j < r.value :: !OccursAt(s, pat, j)
    ensures r.None? ==> forall j | k <= j :: !OccursAt(s, pat, j)
    decreases |s| - k
  {
    if |s| < k + |pat| then None
    else if OccursAt(s, pat, k) then Some(k)
    else Find(s, pat, k + 1)
  }

  /** The first occurrence is the only position satisfying `Find`'s contract. */
  lemma FindIsFirst(s: string, pat: string, v: nat)
    requires OccursAt(s, pat, v)
    requires forall j | 0 <= j < v :: !OccursAt(s, pat, j)
    ensures Find(s, pat, 0) == Some(v)
  {
  }

  /** Python's `pat in s`. */
  predicate Contains(s: string, pat: string) {
    Find(s, pat, 0).Some?
  }

  /** A pattern whose first character never appears in `s` does not occur in `s`. */
  lemma NotContainsFirstChar(s: string, pat: string)
    requires pat != [] && pat[0] !in s
    ensures !Contains(s, pat)
  {
  }

  /** `s.replace(pat, rep)` for a non-empty `pat`: every non-overlapping occurrence, left to right. */
  function ReplaceAll(s: string, pat: string, rep: string): string
    requires pat != []
    decreases |s|
  {
    var f := Find(s, pat, 0);
    if f.None? then s else s[..f.value] + rep + ReplaceAll(s[f.value + |pat|..], pat, rep)
  }

  /** `s.replace(c, "")` for a one-character `c`: every occurrence of `c` removed. */
  function RemoveChar(s: string, c: char): (r: string)
    ensures c !in r && |r| <= |s|
    ensures c !in s ==> r == s
  {
    if s == [] then []
    else if s[0] == c then RemoveChar(s[1..], c)
    else [s[0]] + RemoveChar(s[1..], c)
  }

  /** Text without an occurrence of the pattern is left unchanged. */
  lemma ReplaceAllAbsent(s: string, pat: string, rep: string)
    requires pat != [] && !Contains(s, pat)
    ensures ReplaceAll(s, pat, rep) == s
  {
  }

  /** A leading occurrence is replaced and the rest is processed on its own. */
  lemma ReplaceAllLeading(pat: string, t: string, rep: string)
    requires pat != []
    ensures ReplaceAll(pat + t, pat, rep) == rep + ReplaceAll(t, pat, rep)
  {
    var s := pat + t;
    assert s[..|pat|] == pat;
    assert OccursAt(s, pat, 0);
    assert s[|pat|..] == t;
  }

  // ---------------------------------------------------------------------------
  // split / join
  // ---------------------------------------------------------------------------

  /** `s.split(sep)` for a one-character separator: never empty, separators removed. */
  function Split(s: string, sep: char): (r: seq<string>)
    ensures |r| >= 1
    ensures forall k | 0 <= k < |r| :: sep !in r[k]
    decreases |s|
  {
    if s == [] then [""]
    else
      var rest := Split(s[1..], sep);
      if s[0] == sep then [""] + rest else [[s[0]] + rest[0]] + rest[1..]
  }

  /** `sep.join(parts)`. */
  function Join(parts: seq<string>, sep: char): string
    requires |parts| >= 1
    decreases |parts|
  {
    if |parts| == 1 then parts[0] else parts[0] + [sep] + Join(parts[1..], sep)
  }

  /** Joining the pieces of a split gives back the original text. */
  lemma {:induction false} SplitJoin(s: string, sep: char)
    ensures Join(Split(s, sep), sep) == s
    decreases |s|
  {
    if s != [] {
      var rest := Split(s[1..], sep);
      SplitJoin(s[1..], sep);
      if s[0] != sep && |rest| > 1 {
        assert Join(rest, sep) == rest[0] + [sep] + Join(rest[1..], sep);
        assert ([[s[0]] + rest[0]] + rest[1..])[1..] == rest[1..];
      }
    }
  }

  /** Text without the separator is a single piece. */
  lemma {:induction false} SplitNoSep(s: string, sep: char)
    requires sep !in s
    ensures Split(s, sep) == [s]
    decreases |s|
  {
    if s != [] {
      assert s == [s[0]] + s[1..];
      SplitNoSep(s[1..], sep);
    }
  }

  /** A separator between two texts splits their pieces apart. */
  lemma {:induction false} SplitAround(x: string, y: string, sep: char)
    ensures Split(x + [sep] + y, sep) == Split(x, sep) + Split(y, sep)
    decreases |x|
  {
    if x == [] {
      assert x + [sep] + y == [sep] + y;
      assert ([sep] + y)[1..] == y;
    } else {
      assert (x + [sep] + y)[1..] == x[1..] + [sep] + y;
      SplitAround(x[1..], y, sep);
    }
  }

  /** Splitting a join of separator-free pieces gives back the pieces. */
  lemma {:induction false} JoinSplit(parts: seq<string>, sep: char)
    requires |parts| >= 1
    requires forall k | 0 <= k < |parts| :: sep !in parts[k]
    ensures Split(Join(parts, sep), sep) == parts
    decreases |parts|
  {
    SplitNoSep(parts[0], sep);
    if |parts| > 1 {
      JoinSplit(parts[1..], sep);
      SplitAround(parts[0], Join(parts[1..], sep), sep);
      assert [parts[0]] + parts[1..] == parts;
    }
  }

  // ---------------------------------------------------------------------------
  // Whitespace-separated words, lines
  // ---------------------------------------------------------------------------

  /** The longest prefix of `s` containing no whitespace. */
  function WordPrefix(s: string): (r: string)
    ensures |r| <= |s| && r == s[..|r|]
    ensures forall i | 0 <= i < |r| :: r[i] !in Whitespace
    ensures |r| == |s| || s[|r|] in Whitespace
    decreases |s|
  {
    if s == [] || s[0] in Whitespace then [] else [s[0]] + WordPrefix(s[1..])
  }

  /** `s.split()` with no argument: the maximal runs of non-whitespace characters. */
  function Words(s: string): (r: seq<string>)
    ensures forall k | 0 <= k < |r| :: r[k] != [] && forall i | 0 <= i < |r[k]| :: r[k][i] !in Whitespace
    decreases |s|
  {
    if s == [] then []
    else if s[0] in Whitespace then Words(s[1..])
    else
      var w := WordPrefix(s);
      [w] + Words(s[|w|..])
  }

  /** `" ".join(s.split())`: runs of whitespace collapse to one space, ends trimmed. */
  function CollapseSpaces(s: string): (r: string)
    ensures r == [] || (r[0] !in Whitespace && r[|r| - 1] !in Whitespace)
  {
    var ws := Words(s);
    if ws == [] then "" else JoinWords(ws)
  }

  function JoinWords(ws: seq<string>): (r: string)
    requires |ws| >= 1
    requires forall k | 0 <= k < |ws| :: ws[k] != [] && forall i | 0 <= i < |ws[k]| :: ws[k][i] !in Whitespace
    ensures r != [] && r[0] == ws[0][0] && r[|r| - 1] == ws[|ws| - 1][|ws[|ws| - 1]| - 1]
    decreases |ws|
  {
    if |ws| == 1 then ws[0] else ws[0] + " " + JoinWords(ws[1..])
  }

  /** The stripped, non-blank lines of `s` (`[l.strip() for l in s.split("\n") if l.strip()]`). */
  function NonBlankLines(s: string): (r: seq<string>)
    ensures forall k | 0 <= k < |r| :: r[k] != [] && IsStripped(r[k])
  {
    NonBlank(Split(s, '\n'))
  }

  function NonBlank(lines: seq<string>): (r: seq<string>)
    ensures |r| <= |lines|
    ensures forall k | 0 <= k < |r| :: r[k] != [] && IsStripped(r[k])
    decreases |lines|
  {
    if lines == [] then []
    else
      var l := Strip(lines[0]);
      if l == [] then NonBlank(lines[1..]) else [l] + NonBlank(lines[1..])
  }

  /** The last stripped non-blank line, or "" when there is none. */
  function LastNonBlankLine(s: string): string {
    var ls := NonBlankLines(s);
    if ls == [] then "" else ls[|ls| - 1]
  }

  /** Stripped text is a fixed point of `strip()`. */
  lemma StrippedIsFixed(s: string)
    requires IsStripped(s)
    ensures Strip(s) == s
  {
  }

  // ---------------------------------------------------------------------------
  // Numbers: int(), str(), f"{n:,}"
  // ---------------------------------------------------------------------------

  function DigitValue(c: char): nat
    requires IsDigit(c)
  {
    c as int - '0' as int
  }

  function DigitChar(d: nat): (c: char)
    requires d < 10
    ensures IsDigit(c) && DigitValue(c) == d
  {
    ('0' as int + d) as char
  }

  /** `int(s)` for a string of decimal digits. */
  function DigitsValue(s: string): nat
    requires AllDigits(s)
    decreases |s|
  {
    if s == [] then 0 else DigitsValue(s[..|s| - 1]) * 10 + DigitValue(s[|s| - 1])
  }

  /** The longest prefix of `s` made of digits (what `^\d+` matches, when non-empty). */
  function DigitPrefix(s: string): (r: string)
    ensures |r| <= |s| && r == s[..|r|]
    ensures AllDigits(r)
    ensures |r| == |s| || !IsDigit(s[|r|])
    decreases |s|
  {
    if s == [] || !IsDigit(s[0]) then [] else [s[0]] + DigitPrefix(s[1..])
  }

  /** The digit run of `d + t` is `d` when `t` does not start with a digit. */
  lemma {:induction false} DigitPrefixAppend(d: string, t: string)
    requires AllDigits(d) && (t == [] || !IsDigit(t[0]))
    ensures DigitPrefix(d + t) == d
    decreases |d|
  {
    if d != [] {
      assert (d + t)[1..] == d[1..] + t;
      DigitPrefixAppend(d[1..], t);
      assert d == [d[0]] + d[1..];
    }
  }

  /** `str(n)` for a natural number. */
  function NatToString(n: nat): (r: string)
    ensures IsDigits(r)
    ensures |r| > 1 ==> r[0] != '0'
    decreases n
  {
    if n < 10 then [DigitChar(n)] else NatToString(n / 10) + [DigitChar(n % 10)]
  }

  /** `str(i)` for any integer. */
  function IntToString(i: int): string {
    if i < 0 then "-" + NatToString(-i) else NatToString(i)
  }

  /** Reading back the decimal rendering of a number gives the number. */
  lemma {:induction false} NatToStringValue(n: nat)
    ensures DigitsValue(NatToString(n)) == n
    decreases n
  {
    if n >= 10 {
      NatToStringValue(n / 10);
      var s := NatToString(n);
      assert s[..|s| - 1] == NatToString(n / 10);
    }
  }

  /** Decimal renderings of distinct numbers differ. */
  lemma NatToStringInjective(m: nat, n: nat)
    requires NatToString(m) == NatToString(n)
    ensures m == n
  {
    NatToStringValue(m);
    NatToStringValue(n);
  }

  function Pow10(k: nat): (r: nat)
    ensures r >= 1
  {
    if k == 0 then 1 else 10 * Pow10(k - 1)
  }

  /** The value of a concatenation of digit strings. */
  lemma {:induction false} DigitsValueAppend(a: string, b: string)
    requires AllDigits(a) && AllDigits(b)
    ensures DigitsValue(a + b) == DigitsValue(a) * Pow10(|b|) + DigitsValue(b)
    decreases |b|
  {
    if b == [] {
      assert a + b == a;
    } else {
      var ab, b' := a + b, b[..|b| - 1];
      assert ab[..|ab| - 1] == a + b';
      assert ab[|ab| - 1] == b[|b| - 1];
      DigitsValueAppend(a, b');
      Regroup(DigitsValue(ab), DigitsValue(a + b'), DigitsValue(a), Pow10(|b'|), DigitsValue(b'), DigitValue(b[|b| - 1]));
    }
  }

  lemma Regroup(v: int, w: int, x: int, p: int, y: int, d: int)
    requires v == w * 10 + d && w == x * p + y
    ensures v == x * (10 * p) + (y * 10 + d)
  {
  }

  /** The three-digit, zero-padded rendering of `m < 1000`. */
  function Pad3(m: nat): (r: string)
    requires m < 1000
    ensures |r| == 3 && AllDigits(r)
  {
    [DigitChar(m / 100), DigitChar(m / 10 % 10), DigitChar(m % 10)]
  }

  lemma Pad3Value(m: nat)
    requires m < 1000
    ensures DigitsValue(Pad3(m)) == m
  {
    ThreeDigitsValue(DigitChar(m / 100), DigitChar(m / 10 % 10), DigitChar(m % 10));
    Decimal3(m);
  }

  lemma ThreeDigitsValue(a: char, b: char, c: char)
    requires IsDigit(a) && IsDigit(b) && IsDigit(c)
    ensures DigitsValue([a, b, c]) == (DigitValue(a) * 10 + DigitValue(b)) * 10 + DigitValue(c)
  {
    var r := [a, b, c];
    assert r[..2] == [a, b];
    assert r[..2][..1] == [a];
    assert r[..2][..1][..0] == [];
    assert DigitsValue([a]) == DigitValue(a);
    assert DigitsValue([a, b]) == DigitValue(a) * 10 + DigitValue(b);
  }

  lemma Decimal3(m: nat)
    requires m < 1000
    ensures (m / 100 * 10 + m / 10 % 10) * 10 + m % 10 == m
  {
  }

  /** Python's `f"{n:,}"`: decimal digits grouped by three with commas. */
  function FormatThousands(n: nat): (r: string)
    ensures r != [] && IsDigit(r[0]) && IsDigit(r[|r| - 1])
    ensures forall i | 0 <= i < |r| :: IsDigit(r[i]) || r[i] == ','
    decreases n
  {
    if n < 1000 then NatToString(n) else FormatThousands(n / 1000) + "," + Pad3(n % 1000)
  }

  /** Removing the group separators from `f"{n:,}"` and reading the digits gives `n`. */
  lemma {:induction false} FormatThousandsValue(n: nat)
    ensures AllDigits(RemoveChar(FormatThousands(n), ','))
    ensures DigitsValue(RemoveChar(FormatThousands(n), ',')) == n
    decreases n
  {
    if n < 1000 {
      NatToStringValue(n);
      NoCommaInDigits(NatToString(n));
    } else {
      var hi, lo := FormatThousands(n / 1000), Pad3(n % 1000);
      FormatThousandsValue(n / 1000);
      var h := RemoveChar(hi, ',');
      RemoveGroupSeparator(hi, lo);
      assert AllDigits(h + lo);
      DigitsValueAppend(h, lo);
      Pad3Value(n % 1000);
      assert Pow10(3) == 1000;
    }
  }

  lemma RemoveGroupSeparator(hi: string, lo: string)
    requires AllDigits(lo)
    ensures RemoveChar(hi + "," + lo, ',') == RemoveChar(hi, ',') + lo
  {
    assert hi + "," + lo == hi + ([','] + lo);
    RemoveCharAppend(hi, [','] + lo, ',');
    RemoveCharAppend([','], lo, ',');
    assert RemoveChar([','], ',') == [];
    NoCommaInDigits(lo);
  }

  lemma {:induction false} RemoveCharAppend(a: string, b: string, c: char)
    ensures RemoveChar(a + b, c) == RemoveChar(a, c) + RemoveChar(b, c)
    decreases |a|
  {
    if a != [] {
      assert (a + b)[1..] == a[1..] + b;
      RemoveCharAppend(a[1..], b, c);
    } else {
      assert a + b == b;
    }
  }

  lemma NoCommaInDigits(s: string)
    requires AllDigits(s)
    ensures RemoveChar(s, ',') == s
  {
    assert ',' !in s;
  }
}
