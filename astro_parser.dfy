/**
 * Tarot spreads from an external site: the spread table, the card-id request
 * parameter, the extraction of the spread's lines from the page text and their
 * formatting as Telegram HTML. The page text and the random card sample are inputs.
 */
module AstroParser {
  import opened Wrappers
  import opened Text

  /** The phrase after which the page lists the drawn cards. */
  const Marker: string := "Вам выпали карты"

  /** The rule printed above each position header. */
  const SpreadSeparator: string := "━━━━━━━━━━━━━━━"

  /** Card ids are drawn from 1 ..= 156 (`range(1, 157)`). */
  const CardIdMax: nat := 156

  /** The site the spreads are fetched from. */
  const SiteRoot: string := "https://www.astrocentr.ru"

  /** One entry of the spread table. */
  datatype SpreadInfo = SpreadInfo(url: string, title: string, description: string, numCards: nat)

  /** `SPREADS`: the spreads the bot offers, by key. */
  const Spreads: map<string, SpreadInfo> := map[
    "three_cards" := SpreadInfo(
      SiteRoot + "/index.php?przd=taro&str=3cards",
      "🃏 Расклад «Три карты»", "Прошлое · Настоящее · Будущее", 3),
    "lovers" := SpreadInfo(
      SiteRoot + "/index.php?przd=taro&str=rasklad_vlublennye",
      "💕 Расклад «Влюблённые»", "Расклад на отношения и любовь", 4)
  ]

  /** Every spread has an https URL and asks for between 1 and 156 cards. */
  lemma SpreadsWellFormed()
    ensures "three_cards" in Spreads && "lovers" in Spreads
    ensures forall k :: k in Spreads ==> StartsWith(Spreads[k].url, "https://") && 0 < Spreads[k].numCards <= CardIdMax
  {
    assert SiteRoot[..8] == "https://";
    assert (SiteRoot + "/index.php?przd=taro&str=3cards")[..8] == SiteRoot[..8];
    assert (SiteRoot + "/index.php?przd=taro&str=rasklad_vlublennye")[..8] == SiteRoot[..8];
  }

  // ---------------------------------------------------------------------------
  // `_POSITION_RE`: `^(\d+)\s*[–—-]\s*(.+)`

  /** The dash class `[–—-]`: en dash, em dash, hyphen. */
  predicate IsDash(c: char)
  {
    c == '–' || c == '—' || c == '-'
  }

  /** `\s*(.+)` matches at the start of `r`: after some whitespace comes a character other than a newline. */
  predicate AnyCharAfterSpaces(r: string)
  {
    |r| > 0 && (r[0] != '\n' || AnyCharAfterSpaces(r[1..]))
  }

  /** The rest of the pattern after the first digit: more digits (`\d+` is greedy), then `\s*`, a dash and `\s*(.+)`. */
  predicate AfterDigits(r: string)
  {
    |r| > 0 && if IsDigit(r[0]) then AfterDigits(r[1..]) else AfterSpaces(r)
  }

  /** `\s*[–—-]\s*(.+)`: whitespace (all of it, as a dash is not whitespace), a dash, then the rest. */
  predicate AfterSpaces(r: string)
  {
    |r| > 0 && if IsSpace(r[0]) then AfterSpaces(r[1..]) else IsDash(r[0]) && AnyCharAfterSpaces(r[1..])
  }

  /** `_POSITION_RE.match(s)` succeeds. */
  predicate IsPositionHeader(s: string)
  {
    |s| > 0 && IsDigit(s[0]) && AfterDigits(s[1..])
  }

  /** `s` splits as digits `s[..n]`, whitespace `s[n..m]`, a dash at `m` and a matching rest. */
  predicate HeaderAt(s: string, n: nat, m: nat)
  {
    0 < n <= m < |s|
    && (forall i :: 0 <= i < n ==> IsDigit(s[i]))
    && (forall i :: n <= i < m ==> IsSpace(s[i]))
    && IsDash(s[m])
    && AnyCharAfterSpaces(s[m + 1..])
  }

  /** A matched `\s*[–—-]\s*(.+)` has its dash at some `m` with only whitespace before it. */
  lemma {:induction false} SpacesSplit(r: string) returns (m: nat)
    requires AfterSpaces(r)
    ensures m < |r| && (forall i :: 0 <= i < m ==> IsSpace(r[i])) && IsDash(r[m]) && AnyCharAfterSpaces(r[m + 1..])
  {
    if IsSpace(r[0]) {
      var m' := SpacesSplit(r[1..]);
      m := m' + 1;
      assert forall i :: 1 <= i < m ==> r[i] == r[1..][i - 1];
      assert r[m + 1..] == r[1..][m' + 1..];
    } else {
      m := 0;
    }
  }

  /** A matched rest after the first digit splits into digits, whitespace, a dash and the rest. */
  lemma {:induction false} DigitsSplit(r: string) returns (n: nat, m: nat)
    requires AfterDigits(r)
    ensures n <= m < |r|
    ensures forall i :: 0 <= i < n ==> IsDigit(r[i])
    ensures forall i :: n <= i < m ==> IsSpace(r[i])
    ensures IsDash(r[m]) && AnyCharAfterSpaces(r[m + 1..])
  {
    if IsDigit(r[0]) {
      var n', m' := DigitsSplit(r[1..]);
      n, m := n' + 1, m' + 1;
      assert forall i :: 1 <= i < m ==> r[i] == r[1..][i - 1];
      assert r[m + 1..] == r[1..][m' + 1..];
    } else {
      n := 0;
      m := SpacesSplit(r);
    }
  }

  /** Whitespace, then a dash and a matching rest, is matched by `\s*[–—-]\s*(.+)`. */
  lemma {:induction false} SpacesThenDash(r: string, m: nat)
    requires m < |r| && (forall i :: 0 <= i < m ==> IsSpace(r[i])) && IsDash(r[m]) && AnyCharAfterSpaces(r[m + 1..])
    ensures AfterSpaces(r)
  {
    if m > 0 {
      assert forall i :: 0 <= i < m - 1 ==> r[1..][i] == r[i + 1];
      assert r[1..][m - 1 + 1..] == r[m + 1..];
      SpacesThenDash(r[1..], m - 1);
    }
  }

  /** Digits, whitespace, a dash and a matching rest are matched by the rest of the pattern. */
  lemma {:induction false} DigitsThenRest(r: string, n: nat, m: nat)
    requires n <= m < |r|
    requires forall i :: 0 <= i < n ==> IsDigit(r[i])
    requires forall i :: n <= i < m ==> IsSpace(r[i])
    requires IsDash(r[m]) && AnyCharAfterSpaces(r[m + 1..])
    ensures AfterDigits(r)
  {
    if n > 0 {
      assert forall i :: 0 <= i < m - 1 ==> r[1..][i] == r[i + 1];
      assert r[1..][m - 1 + 1..] == r[m + 1..];
      DigitsThenRest(r[1..], n - 1, m - 1);
    } else {
      assert !IsDigit(r[0]);
      SpacesThenDash(r, m);
    }
  }

  /** The matcher agrees with the regular expression: the line splits into the pattern's four parts. */
  lemma PositionHeaderDecomposition(s: string)
    ensures IsPositionHeader(s) <==> exists n: nat, m: nat :: HeaderAt(s, n, m)
  {
    if IsPositionHeader(s) {
      var n, m := DigitsSplit(s[1..]);
      assert forall i :: 1 <= i < m + 1 ==> s[i] == s[1..][i - 1];
      assert s[m + 2..] == s[1..][m + 1..];
      assert HeaderAt(s, n + 1, m + 1);
    }
    if exists n: nat, m: nat :: HeaderAt(s, n, m) {
      var n: nat, m: nat :| HeaderAt(s, n, m);
      assert forall i :: 0 <= i < m - 1 ==> s[1..][i] == s[i + 1];
      assert s[1..][m - 1 + 1..] == s[m + 1..];
      DigitsThenRest(s[1..], n - 1, m - 1);
    }
  }

  // ---------------------------------------------------------------------------
  // `_clean_text`

  /** The characters of `s` that are not whitespace, in order. */
  function Visible(s: string): string
  {
    if |s| == 0 then "" else Visible(s[..|s| - 1]) + (if IsSpace(s[|s| - 1]) then "" else [s[|s| - 1]])
  }

  /** Whitespace removal distributes over concatenation. */
  lemma {:induction false} VisibleAppend(a: string, b: string)
    ensures Visible(a + b) == Visible(a) + Visible(b)
  {
    if |b| == 0 {
      assert a + b == a;
    } else {
      VisibleAppend(a, b[..|b| - 1]);
      assert (a + b)[..|a + b| - 1] == a + b[..|b| - 1];
      assert (a + b)[|a + b| - 1] == b[|b| - 1];
    }
  }

  /** A string of whitespace has nothing visible. */
  lemma {:induction false} VisibleOfSpaces(s: string)
    requires forall i :: 0 <= i < |s| ==> IsSpace(s[i])
    ensures Visible(s) == ""
  {
    if |s| > 0 {
      VisibleOfSpaces(s[..|s| - 1]);
    }
  }

  /** No three newlines in a row. */
  predicate NoNewlineRun3(s: string)
  {
    forall i :: 0 <= i < |s| - 2 ==> !(s[i] == '\n' && s[i + 1] == '\n' && s[i + 2] == '\n')
  }

  /** No two spaces in a row. */
  predicate NoDoubleSpace(s: string)
  {
    forall i :: 0 <= i < |s| - 1 ==> !(s[i] == ' ' && s[i + 1] == ' ')
  }

  /** `s` ends with two newlines. */
  predicate EndsWith2Newlines(s: string)
  {
    |s| >= 2 && s[|s| - 2] == '\n' && s[|s| - 1] == '\n'
  }

  /** `re.sub(r"\n{3,}", "\n\n", s)`: a newline is kept unless two newlines of the same run were kept before it. */
  function CapNewlines(s: string): (r: string)
    ensures |r| <= |s|
    ensures NoNewlineRun3(r)
  {
    if |s| == 0 then ""
    else
      var p := CapNewlines(s[..|s| - 1]);
      var c := s[|s| - 1];
      if c == '\n' && EndsWith2Newlines(p) then p else p + [c]
  }

  /** The space-and-tab class `[ \t]`. */
  predicate IsBlank(c: char)
  {
    c == ' ' || c == '\t'
  }

  /**
   * `re.sub(r"[ \t]+", " ", s)`: each run of spaces and tabs becomes one space.
   * A kept character is never blank, so the output ends in a space exactly when
   * the input ends in a run of blanks.
   */
  function Squeeze(s: string): (r: string)
    ensures |r| <= |s|
    ensures '\t' !in r && NoDoubleSpace(r)
    ensures (|r| > 0 && r[|r| - 1] == '\n') <==> (|s| > 0 && s[|s| - 1] == '\n')
    ensures (|r| > 0 && r[|r| - 1] == ' ') <==> (|s| > 0 && IsBlank(s[|s| - 1]))
    ensures |s| > 0 ==> |r| > 0
  {
    if |s| == 0 then ""
    else
      var p := Squeeze(s[..|s| - 1]);
      var c := s[|s| - 1];
      if !IsBlank(c) then p + [c]
      else if |p| > 0 && p[|p| - 1] == ' ' then p
      else p + [' ']
  }

  /** Squeezing text that starts with a non-blank character continues where the text before it left off. */
  lemma {:induction false} SqueezeAppend(x: string, y: string)
    requires y == [] || !IsBlank(y[0])
    ensures Squeeze(x + y) == Squeeze(x) + Squeeze(y)
  {
    if |y| == 1 {
      assert (x + y)[..|x + y| - 1] == x;
    } else if |y| > 1 {
      var y' := y[..|y| - 1];
      SqueezeAppend(x, y');
      assert (x + y)[..|x + y| - 1] == x + y';
    } else {
      assert x + y == x;
    }
  }

  /** A run of blanks after text that does not end in one becomes exactly one space. */
  lemma {:induction false} SqueezeBlankRun(x: string, b: string)
    requires x == [] || !IsBlank(x[|x| - 1])
    requires |b| > 0 && forall i :: 0 <= i < |b| ==> IsBlank(b[i])
    ensures Squeeze(x + b) == Squeeze(x) + " "
  {
    if |b| == 1 {
      assert (x + b)[..|x + b| - 1] == x;
    } else {
      var b' := b[..|b| - 1];
      SqueezeBlankRun(x, b');
      assert (x + b)[..|x + b| - 1] == x + b';
    }
  }

  /**
   * `re.sub(r"[ \t]+", " ", …)` between two pieces of text: a run of spaces and tabs
   * that neither piece continues becomes exactly one space, and each piece is squeezed on its own.
   */
  lemma SqueezeCollapsesRun(x: string, b: string, y: string)
    requires x == [] || !IsBlank(x[|x| - 1])
    requires |b| > 0 && forall i :: 0 <= i < |b| ==> IsBlank(b[i])
    requires y == [] || !IsBlank(y[0])
    ensures Squeeze(x + b + y) == Squeeze(x) + " " + Squeeze(y)
  {
    SqueezeBlankRun(x, b);
    SqueezeAppend(x + b, y);
  }

  /** Capping newline runs removes only newlines. */
  lemma {:induction false} CapNewlinesKeepsVisible(s: string)
    ensures Visible(CapNewlines(s)) == Visible(s)
  {
    if |s| > 0 {
      var p := CapNewlines(s[..|s| - 1]);
      CapNewlinesKeepsVisible(s[..|s| - 1]);
      assert (p + [s[|s| - 1]])[..|p|] == p;
    }
  }

  /** Text without a run of three newlines is left as it is. */
  lemma {:induction false} CapNewlinesIdentity(s: string)
    requires NoNewlineRun3(s)
    ensures CapNewlines(s) == s
  {
    if |s| > 0 {
      var q := s[..|s| - 1];
      assert NoNewlineRun3(q) by {
        forall i | 0 <= i < |q| - 2 ensures !(q[i] == '\n' && q[i + 1] == '\n' && q[i + 2] == '\n') {
          assert q[i] == s[i] && q[i + 1] == s[i + 1] && q[i + 2] == s[i + 2];
        }
      }
      CapNewlinesIdentity(q);
      if |s| >= 3 {
        assert !(s[|s| - 3] == '\n' && s[|s| - 2] == '\n' && s[|s| - 1] == '\n');
      }
      assert s == q + [s[|s| - 1]];
    }
  }

  /** Squeezing blanks removes or replaces only whitespace. */
  lemma {:induction false} SqueezeKeepsVisible(s: string)
    ensures Visible(Squeeze(s)) == Visible(s)
  {
    if |s| > 0 {
      var p := Squeeze(s[..|s| - 1]);
      SqueezeKeepsVisible(s[..|s| - 1]);
      var c := s[|s| - 1];
      assert (p + [c])[..|p|] == p;
      assert (p + [' '])[..|p|] == p;
    }
  }

  /** Text with neither a tab nor two spaces in a row is left as it is. */
  lemma {:induction false} SqueezeIdentity(s: string)
    requires '\t' !in s && NoDoubleSpace(s)
    ensures Squeeze(s) == s
  {
    if |s| > 0 {
      var q := s[..|s| - 1];
      assert '\t' !in q;
      assert NoDoubleSpace(q) by {
        forall i | 0 <= i < |q| - 1 ensures !(q[i] == ' ' && q[i + 1] == ' ') {
          assert q[i] == s[i] && q[i + 1] == s[i + 1];
        }
      }
      SqueezeIdentity(q);
      if |s| >= 2 {
        assert !(s[|s| - 2] == ' ' && s[|s| - 1] == ' ');
      }
      assert s == q + [s[|s| - 1]];
    }
  }

  /** Squeezing blanks does not join newline runs. */
  lemma {:induction false} SqueezeKeepsNoNewlineRun3(s: string)
    requires NoNewlineRun3(s)
    ensures NoNewlineRun3(Squeeze(s))
  {
    if |s| > 0 {
      var q := s[..|s| - 1];
      assert NoNewlineRun3(q) by {
        forall i | 0 <= i < |q| - 2 ensures !(q[i] == '\n' && q[i + 1] == '\n' && q[i + 2] == '\n') {
          assert q[i] == s[i] && q[i + 1] == s[i + 1] && q[i + 2] == s[i + 2];
        }
      }
      SqueezeKeepsNoNewlineRun3(q);
      var p := Squeeze(q);
      var r := Squeeze(s);
      if EndsWith2Newlines(p) {
        // the last two characters of `p` come from the last two of `q`
        assert q[|q| - 1] == '\n';
        var pp := Squeeze(q[..|q| - 1]);
        assert p == pp + ['\n'];
        assert pp[|pp| - 1] == '\n';
        assert q[..|q| - 1][|q| - 2] == '\n';
        assert s[|s| - 3] == '\n' && s[|s| - 2] == '\n';
        assert s[|s| - 1] != '\n';
      }
      assert forall i :: 0 <= i < |p| ==> r[i] == p[i];
    }
  }

  /** Keeping the slice `s[a..b]` keeps the absence of newline runs and double spaces. */
  lemma SliceKeepsProperties(s: string, a: nat, b: nat)
    requires a <= b <= |s|
    ensures NoNewlineRun3(s) ==> NoNewlineRun3(s[a..b])
    ensures NoDoubleSpace(s) ==> NoDoubleSpace(s[a..b])
    ensures '\t' !in s ==> '\t' !in s[a..b]
  {
    assert forall i :: 0 <= i < b - a ==> s[a..b][i] == s[a + i];
  }

  /** `_clean_text(raw)`. */
  function CleanText(raw: string): string
  {
    Strip(Squeeze(CapNewlines(raw)))
  }

  /** Dropping leading whitespace keeps the visible characters. */
  lemma TrimStartKeepsVisible(s: string)
    ensures Visible(TrimStart(s)) == Visible(s)
  {
    var r := TrimStart(s);
    TrimStartSpec(s);
    var head := s[..|s| - |r|];
    assert s == head + r;
    forall i | 0 <= i < |head| ensures IsSpace(head[i]) {
      assert head[i] == s[i];
    }
    VisibleOfSpaces(head);
    VisibleAppend(head, r);
  }

  /** Dropping trailing whitespace keeps the visible characters. */
  lemma TrimEndKeepsVisible(s: string)
    ensures Visible(TrimEnd(s)) == Visible(s)
  {
    var r := TrimEnd(s);
    TrimEndSpec(s);
    var tail := s[|r|..];
    assert s == r + tail;
    forall i | 0 <= i < |tail| ensures IsSpace(tail[i]) {
      assert tail[i] == s[|r| + i];
    }
    VisibleOfSpaces(tail);
    VisibleAppend(r, tail);
  }

  /** Stripping keeps what lies between the surrounding whitespace. */
  lemma StripKeepsVisible(q: string)
    ensures Visible(Strip(q)) == Visible(q)
  {
    TrimStartKeepsVisible(q);
    TrimEndKeepsVisible(TrimStart(q));
  }


  /**
   * Cleaned text has no run of three newlines, no tab, no two spaces in a row and
   * no whitespace at either end, and it keeps every non-whitespace character of the input.
   */
  lemma CleanTextProperties(raw: string)
    ensures var r := CleanText(raw);
      && NoNewlineRun3(r) && NoDoubleSpace(r) && '\t' !in r
      && (r == [] || (!IsSpace(r[0]) && !IsSpace(r[|r| - 1])))
      && Visible(r) == Visible(raw)
  {
    var c := CapNewlines(raw);
    var q := Squeeze(c);
    SqueezeKeepsNoNewlineRun3(c);
    var a, b := StripSlice(q);
    SliceKeepsProperties(q, a, b);
    CapNewlinesKeepsVisible(raw);
    SqueezeKeepsVisible(c);
    StripKeepsVisible(q);
  }

  /** What cleaned text looks like: no triple newline, no tab, no double space, no whitespace at either end. */
  predicate IsClean(r: string)
  {
    && NoNewlineRun3(r) && NoDoubleSpace(r) && '\t' !in r
    && (r == [] || (!IsSpace(r[0]) && !IsSpace(r[|r| - 1])))
  }

  /** Cleaning twice is cleaning once. */
  lemma CleanTextIdempotent(raw: string)
    ensures CleanText(CleanText(raw)) == CleanText(raw)
  {
    var r := CleanText(raw);
    CleanTextProperties(raw);
    CapNewlinesIdentity(r);
    SqueezeIdentity(r);
    assert TrimStart(r) == r;
  }

  // ---------------------------------------------------------------------------
  // `_format_spread_lines`

  /** A line survives the filter: after stripping it is neither empty nor made of digits only. */
  predicate KeepsLine(line: string)
  {
    var s := Strip(line);
    s != "" && !IsDigits(s)
  }

  /** The stripped lines that survive the filter, in input order. */
  function Kept(lines: seq<string>): seq<string>
  {
    if |lines| == 0 then []
    else Kept(lines[..|lines| - 1]) + (if KeepsLine(lines[|lines| - 1]) then [Strip(lines[|lines| - 1])] else [])
  }

  /** Every kept line is the stripped form of a surviving input line. */
  lemma {:induction false} KeptComesFromLines(lines: seq<string>, x: string)
    requires x in Kept(lines)
    ensures exists k :: 0 <= k < |lines| && KeepsLine(lines[k]) && x == Strip(lines[k])
  {
    var q := lines[..|lines| - 1];
    if x in Kept(q) {
      KeptComesFromLines(q, x);
      var k :| 0 <= k < |q| && KeepsLine(q[k]) && x == Strip(q[k]);
      assert lines[k] == q[k];
    } else {
      assert KeepsLine(lines[|lines| - 1]) && x == Strip(lines[|lines| - 1]);
    }
  }

  /** Every surviving input line is kept. */
  lemma {:induction false} LinesReachKept(lines: seq<string>, k: nat)
    requires k < |lines| && KeepsLine(lines[k])
    ensures Strip(lines[k]) in Kept(lines)
  {
    var q := lines[..|lines| - 1];
    var last := lines[|lines| - 1];
    var extra := if KeepsLine(last) then [Strip(last)] else [];
    assert Kept(lines) == Kept(q) + extra;
    if k < |q| {
      assert q[k] == lines[k];
      LinesReachKept(q, k);
    } else {
      assert extra == [Strip(lines[k])];
    }
  }


  /** A line is kept exactly when it strips to a surviving line; blank and digit-only lines never are. */
  lemma KeptIsFilter(lines: seq<string>)
    ensures forall x :: x in Kept(lines) <==> exists k :: 0 <= k < |lines| && KeepsLine(lines[k]) && x == Strip(lines[k])
    ensures forall x :: x in Kept(lines) ==> x != "" && !IsDigits(x)
  {
    forall x | x in Kept(lines) ensures exists k :: 0 <= k < |lines| && KeepsLine(lines[k]) && x == Strip(lines[k]) {
      KeptComesFromLines(lines, x);
    }
    forall k | 0 <= k < |lines| && KeepsLine(lines[k]) ensures Strip(lines[k]) in Kept(lines) {
      LinesReachKept(lines, k);
    }
  }

  /** The part of a position header: a separator line and a pin before the escaped header. */
  function HeaderPart(s: string): string
  {
    "\n" + SpreadSeparator + "\n📍 " + HtmlEscape(s) + "\n"
  }

  /** The part of the card name right after a header: in bold, after a crystal ball. */
  function CardPart(s: string): string
  {
    "🔮 <b>" + HtmlEscape(s) + "</b>\n"
  }

  /** Any other kept line, escaped. */
  function PlainPart(s: string): string
  {
    HtmlEscape(s)
  }

  /** The part for the `j`-th kept line: a header part, the bold card part when the kept line before it is a header, or plain text. */
  function PartAt(kept: seq<string>, j: nat): string
    requires j < |kept|
  {
    if IsPositionHeader(kept[j]) then HeaderPart(kept[j])
    else if j > 0 && IsPositionHeader(kept[j - 1]) then CardPart(kept[j])
    else PlainPart(kept[j])
  }

  /** The parts of all kept lines, in order. */
  function Parts(kept: seq<string>): (parts: seq<string>)
  {
    seq(|kept|, j requires 0 <= j < |kept| => PartAt(kept, j))
  }


  /** What `_format_spread_lines(lines)` returns. */
  function SpreadText(lines: seq<string>): string
  {
    CleanText(Join(Parts(Kept(lines)), "\n"))
  }

  /** Kept lines of one more input line. */
  lemma KeptStep(lines: seq<string>, i: nat)
    requires i < |lines|
    ensures Kept(lines[..i + 1]) == Kept(lines[..i]) + (if KeepsLine(lines[i]) then [Strip(lines[i])] else [])
  {
    assert lines[..i + 1][..i] == lines[..i];
  }

  /** Appending a kept line leaves the parts of the earlier lines as they were. */
  lemma PartsStep(kept: seq<string>, s: string, j: nat)
    requires j < |kept|
    ensures PartAt(kept + [s], j) == PartAt(kept, j)
  {
    var k := kept + [s];
    assert k[j] == kept[j];
    assert j > 0 ==> k[j - 1] == kept[j - 1];
  }

  /** The parts of one more kept line: the earlier parts and the new line's part. */
  lemma PartsAppend(kept: seq<string>, s: string)
    ensures Parts(kept + [s]) == Parts(kept) + [PartAt(kept + [s], |kept|)]
  {
    forall j | 0 <= j < |kept| ensures Parts(kept + [s])[j] == Parts(kept)[j] {
      PartsStep(kept, s, j);
    }
  }


  /**
   * `_format_spread_lines`: one pass with an `expect_card_name` flag that a header
   * sets and the next kept non-header line clears.
   */
  method FormatSpreadLines(lines: seq<string>) returns (r: string)
    ensures r == SpreadText(lines)
  {
    var parts := SpreadParts(lines);
    r := CleanText(Join(parts, "\n"));
  }

  /** The part a surviving line gets, given whether the kept line before it is a header. */
  function NextPart(s: string, afterHeader: bool): string
  {
    if IsPositionHeader(s) then HeaderPart(s)
    else if afterHeader then CardPart(s)
    else PlainPart(s)
  }

  /** The kept lines with one more input line: its stripped form if it survives the filter. */
  function KeptWith(kept: seq<string>, line: string): seq<string>
  {
    kept + (if KeepsLine(line) then [Strip(line)] else [])
  }

  /** The flag of `_format_spread_lines`: the last kept line is a position header. */
  predicate AfterHeader(kept: seq<string>)
  {
    |kept| > 0 && IsPositionHeader(kept[|kept| - 1])
  }

  /** One iteration of `_format_spread_lines`: skip a blank or digit-only line, else append its part and update the flag. */
  method SpreadLine(line: string, parts: seq<string>, expectCard: bool, ghost kept: seq<string>)
    returns (parts': seq<string>, expectCard': bool)
    requires parts == Parts(kept) && (expectCard <==> AfterHeader(kept))
    ensures parts' == Parts(KeptWith(kept, line)) && (expectCard' <==> AfterHeader(KeptWith(kept, line)))
  {
    parts', expectCard' := parts, expectCard;
    var stripped := Strip(line);
    if stripped == "" {
      assert KeptWith(kept, line) == kept;
      return;
    }
    if IsDigits(stripped) {
      assert KeptWith(kept, line) == kept;
      return;
    }
    assert KeptWith(kept, line) == kept + [stripped];
    PartsAppend(kept, stripped);
    assert PartAt(kept + [stripped], |kept|) == NextPart(stripped, expectCard);
    if IsPositionHeader(stripped) {
      parts' := parts + [HeaderPart(stripped)];
      expectCard' := true;
    } else if expectCard {
      parts' := parts + [CardPart(stripped)];
      expectCard' := false;
    } else {
      parts' := parts + [PlainPart(stripped)];
    }
  }

  /** The loop of `_format_spread_lines` that builds `result_parts`. */
  method SpreadParts(lines: seq<string>) returns (parts: seq<string>)
    ensures parts == Parts(Kept(lines))
  {
    parts := [];
    var expectCard := false;
    ghost var kept: seq<string> := [];
    for i := 0 to |lines|
      invariant kept == Kept(lines[..i])
      invariant parts == Parts(kept) && (expectCard <==> AfterHeader(kept))
    {
      parts, expectCard := SpreadLine(lines[i], parts, expectCard, kept);
      KeptStep(lines, i);
      kept := KeptWith(kept, lines[i]);
    }
    assert lines[..|lines|] == lines;
  }



  /** Plain text and card names reach the output escaped: no markup character of their own survives. */
  lemma PartsAreEscaped(s: string)
    ensures '<' !in PlainPart(s) && '>' !in PlainPart(s)
    ensures CardPart(s) == "🔮 <b>" + HtmlEscape(s) + "</b>\n" && '<' !in HtmlEscape(s)
    ensures HtmlUnescape(HtmlEscape(s)) == s
  {
    EscapeHasNoMarkup(s);
    EscapeRoundTrip(s);
  }

  // ---------------------------------------------------------------------------
  // `_generate_card_ids`

  /** The character of a decimal digit. */
  function DigitChar(d: nat): (c: char)
    requires d <= 9
    ensures IsDigit(c) && DigitValue(c) == d
  {
    ('0' as int + d) as char
  }

  /** `str(n)`. */
  function NatToString(n: nat): (s: string)
    ensures |s| > 0 && forall i :: 0 <= i < |s| ==> IsDigit(s[i])
  {
    if n < 10 then [DigitChar(n)] else NatToString(n / 10) + [DigitChar(n % 10)]
  }

  /** `int(s)` for a string of decimal digits. */
  function ParseNat(s: string): nat
    requires forall i :: 0 <= i < |s| ==> IsDigit(s[i])
  {
    if |s| == 0 then 0 else 10 * ParseNat(s[..|s| - 1]) + DigitValue(s[|s| - 1])
  }

  /** `int(str(n)) == n`. */
  lemma {:induction false} ParseNatToString(n: nat)
    ensures ParseNat(NatToString(n)) == n
  {
    if n >= 10 {
      ParseNatToString(n / 10);
      var s := NatToString(n);
      assert s[..|s| - 1] == NatToString(n / 10);
    }
  }


  /** The decimal forms of the drawn ids. */
  function IdStrings(sample: seq<nat>): seq<string>
  {
    seq(|sample|, k requires 0 <= k < |sample| => NatToString(sample[k]))
  }

  /** `"i".join(str(c) for c in cards)`, the `act` form field. */
  function CardIds(sample: seq<nat>): string
  {
    Join(IdStrings(sample), "i")
  }

  /** What `random.sample(range(1, 157), n)` yields: `n` distinct ids in 1 ..= 156. */
  predicate IsSample(sample: seq<nat>, n: nat)
  {
    |sample| == n
    && (forall k :: 0 <= k < |sample| ==> 1 <= sample[k] <= CardIdMax)
    && (forall i, j :: 0 <= i < j < |sample| ==> sample[i] != sample[j])
  }

  /** The `act` field reads back, split on `i`, as exactly the drawn ids, so the site sees distinct ids in range. */
  lemma CardIdsRoundTrip(sample: seq<nat>, n: nat)
    requires n > 0 && IsSample(sample, n)
    ensures var parts := SplitOn(CardIds(sample), 'i');
      && |parts| == n
      && forall k :: 0 <= k < n ==> IsDigits(parts[k]) && ParseNat(parts[k]) == sample[k]
  {
    var ids := IdStrings(sample);
    forall k | 0 <= k < |ids| ensures 'i' !in ids[k] {
      assert forall c :: c in ids[k] ==> IsDigit(c);
    }
    SplitJoin(ids, 'i');
    forall k | 0 <= k < n ensures ParseNat(ids[k]) == sample[k] {
      ParseNatToString(sample[k]);
    }
  }

  // ---------------------------------------------------------------------------
  // `fetch_spread`

  /** The marker phrase occurs in the stripped line. */
  predicate HasMarker(line: string)
  {
    Contains(Strip(line), Marker)
  }

  /** Every line normalised by `norm`. */
  function MapLines(lines: seq<string>, norm: string -> string): (r: seq<string>)
    ensures |r| == |lines| && forall k :: 0 <= k < |lines| ==> r[k] == norm(lines[k])
  {
    if |lines| == 0 then [] else MapLines(lines[..|lines| - 1], norm) + [norm(lines[|lines| - 1])]
  }

  /** `lines[3:]`. */
  function SkipNavigation(lines: seq<string>): seq<string>
  {
    if |lines| >= 3 then lines[3..] else []
  }

  /**
   * The content lines for a marker test `isMarker` and a line normaliser `norm`:
   * the normalised lines after the first marker line; when there is no marker or
   * nothing after it, the raw lines from index 3 on.
   */
  function ContentBy(lines: seq<string>, isMarker: string -> bool, norm: string -> string): seq<string>
  {
    match FirstIndex(lines, isMarker)
    case Some(m) => if m + 1 < |lines| then MapLines(lines[m + 1..], norm) else SkipNavigation(lines)
    case None => SkipNavigation(lines)
  }

  /** The content lines of `fetch_spread`: after the marker phrase, each stripped. */
  function Content(lines: seq<string>): seq<string>
  {
    ContentBy(lines, HasMarker, Strip)
  }

  /** A marker line with none before it is the one `FirstIndex` finds. */
  lemma FirstMarker(lines: seq<string>, isMarker: string -> bool, m: nat)
    requires m < |lines| && isMarker(lines[m])
    requires forall k :: 0 <= k < m ==> !isMarker(lines[k])
    ensures FirstIndex(lines, isMarker) == Some(m)
  {
  }

  /** The content-extraction loop, with its `started` flag and the fallback. */
  method ExtractContentBy(lines: seq<string>, isMarker: string -> bool, norm: string -> string) returns (content: seq<string>)
    ensures content == ContentBy(lines, isMarker, norm)
  {
    content := [];
    var started := false;
    ghost var m := 0;
    for i := 0 to |lines|
      invariant started ==> m < i && isMarker(lines[m]) && (forall k :: 0 <= k < m ==> !isMarker(lines[k]))
      invariant started ==> content == MapLines(lines[m + 1..i], norm)
      invariant !started ==> content == [] && forall k :: 0 <= k < i ==> !isMarker(lines[k])
    {
      if !started && isMarker(lines[i]) {
        started := true;
        m := i;
        assert lines[m + 1..i + 1] == [];
        continue;
      }
      if started {
        assert lines[m + 1..i + 1][..i - m - 1] == lines[m + 1..i];
        content := content + [norm(lines[i])];
      }
    }
    if started {
      FirstMarker(lines, isMarker, m);
      assert lines[m + 1..|lines|] == lines[m + 1..];
    }
    if |content| == 0 {
      content := SkipNavigation(lines);
    }
  }

  /** The loop of `fetch_spread` over the `main_text` lines. */
  method ExtractContent(lines: seq<string>) returns (content: seq<string>)
    ensures content == Content(lines)
  {
    content := ExtractContentBy(lines, HasMarker, Strip);
  }

  /** The POST of one spread: the spread's URL and the `act` field. */
  datatype SpreadRequest = SpreadRequest(url: string, act: string)

  /** The outcome of the POST: a failure (timeout, request error, bad status) or the page, with the text of its `main_text` block if it has one. */
  datatype SpreadResponse = SpreadFailed | SpreadPage(mainText: Option<string>)

  /** The spread text of a response: None on failure, without a `main_text` block, or when formatting leaves nothing. */
  function SpreadResult(response: SpreadResponse): (result: Option<string>)
    ensures response.SpreadFailed? || response.mainText.None? ==> result.None?
    ensures result.Some? ==> result.value != "" && IsClean(result.value)
  {
    match response
    case SpreadFailed => None
    case SpreadPage(None) => None
    case SpreadPage(Some(raw)) =>
      var parts := Parts(Kept(Content(SplitOn(raw, '\n'))));
      CleanTextProperties(Join(parts, "\n"));
      var text := SpreadText(Content(SplitOn(raw, '\n')));
      if text == "" then None else Some(text)
  }

  /**
   * `fetch_spread(key)`: an unknown key gives None without any request; otherwise
   * one POST with the drawn ids and the formatted spread, or None.
   */
  method FetchSpread(key: string, sample: seq<nat>, respond: SpreadRequest -> SpreadResponse)
    returns (result: Option<string>, request: Option<SpreadRequest>)
    requires key in Spreads ==> IsSample(sample, Spreads[key].numCards)
    ensures key !in Spreads ==> result.None? && request.None?
    ensures key in Spreads ==> request == Some(SpreadRequest(Spreads[key].url, CardIds(sample)))
    ensures key in Spreads ==>
      var n := Spreads[key].numCards;
      var ids := SplitOn(request.value.act, 'i');
      && |ids| == n
      && (forall k :: 0 <= k < n ==> IsDigits(ids[k]) && 1 <= ParseNat(ids[k]) <= CardIdMax)
      && (forall i, j :: 0 <= i < j < n && IsDigits(ids[i]) && IsDigits(ids[j]) ==> ParseNat(ids[i]) != ParseNat(ids[j]))
    ensures key in Spreads ==> result == SpreadResult(respond(request.value))
    ensures result.Some? ==> result.value != "" && IsClean(result.value)
  {
    if key !in Spreads {
      return None, None;
    }
    var spread := Spreads[key];
    var act := CardIds(sample);
    SpreadsWellFormed();
    CardIdsRoundTrip(sample, spread.numCards);
    request := Some(SpreadRequest(spread.url, act));
    var response := respond(request.value);
    match response {
      case SpreadFailed =>
        result := None;
      case SpreadPage(mainText) =>
        if mainText.None? {
          return None, request;
        }
        var lines := SplitOn(mainText.value, '\n');
        var content := ExtractContent(lines);
        var text := FormatSpreadLines(content);
        result := if text == "" then None else Some(text);
    }
  }
}
