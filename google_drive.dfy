/** The parts of `saveToGoogleDocs` that compute text: `markdownToHtml`, a
    fixed sequence of regular-expression rewrites, the document's name and
    the multipart body of the upload. Each rewrite is written out here with
    the match its pattern selects (first occurrence, greedy or lazy end,
    within one line or across lines). A line ends at any of ECMAScript's
    line terminators, where `.` stops and the `m` flag's `^` and `$` match;
    the `i` flag of the heading patterns has no effect, as they hold no letter. */
module GoogleDrive {
  import opened Common

  // ---------------------------------------------------------------------------
  // Occurrences

  predicate Occurs(s: string, pat: string, k: nat) {
    k + |pat| <= |s| && s[k..k + |pat|] == pat
  }

  /** The first occurrence of `pat` at or after `from`. */
  function FirstAt(s: string, pat: string, from: nat): (r: Option<nat>)
    ensures r.Some? ==> from <= r.value && Occurs(s, pat, r.value)
    ensures r.Some? ==> forall j :: from <= j < r.value ==> !Occurs(s, pat, j)
    ensures r.None? ==> forall j :: from <= j ==> !Occurs(s, pat, j)
    decreases |s| - from
  {
    if from + |pat| > |s| then None
    else if s[from..from + |pat|] == pat then Some(from)
    else FirstAt(s, pat, from + 1)
  }

  /** The last occurrence of `pat` that starts before `k`. */
  function LastBefore(s: string, pat: string, k: nat): (r: Option<nat>)
    ensures r.Some? ==> r.value < k && Occurs(s, pat, r.value)
    ensures r.Some? ==> forall j :: r.value < j < k ==> !Occurs(s, pat, j)
    ensures r.None? ==> forall j :: 0 <= j < k ==> !Occurs(s, pat, j)
  {
    if k == 0 then None
    else if Occurs(s, pat, k - 1) then Some(k - 1)
    else LastBefore(s, pat, k - 1)
  }

  function LastAt(s: string, pat: string): Option<nat> {
    LastBefore(s, pat, |s| + 1)
  }

  predicate NoChar(s: string, c: char) {
    forall i :: 0 <= i < |s| ==> s[i] != c
  }

  // ---------------------------------------------------------------------------
  // Line-wise rewrites (patterns without the `s` flag, so `.` stops at a line
  // terminator)

  /** ECMAScript's line terminators: line feed, carriage return, line
      separator and paragraph separator. */
  predicate LineEnd(c: char) {
    c == '\n' || c == '\r' || c == '\U{2028}' || c == '\U{2029}'
  }

  /** A text that is one line: it holds no line terminator. */
  predicate NoLineEnd(s: string) {
    forall i :: 0 <= i < |s| ==> !LineEnd(s[i])
  }

  /** The first line terminator at or after `from`. */
  function FirstLineEnd(s: string, from: nat): (r: Option<nat>)
    ensures r.Some? ==> from <= r.value < |s| && LineEnd(s[r.value])
    ensures r.Some? ==> forall j :: from <= j < r.value ==> !LineEnd(s[j])
    ensures r.None? ==> forall j :: from <= j < |s| ==> !LineEnd(s[j])
    decreases |s| - from
  {
    if from >= |s| then None
    else if LineEnd(s[from]) then Some(from)
    else FirstLineEnd(s, from + 1)
  }

  datatype LineRule = Heading3 | Heading2 | Heading1 | Bold | Italic | ListItem

  /** `^### (.*$)`, `^## (.*$)`, `^# (.*$)` and `^\* (.+)$` on one line. */
  function Prefixed(line: string, marker: string, open: string, close: string, nonEmpty: bool): string {
    if StartsWith(line, marker) && (!nonEmpty || |line| > |marker|) then open + line[|marker|..] + close else line
  }

  /** `\*\*(.*)\*\*` and `\*(.*)\*` on one line: from the first marker to
      the last one that leaves room, greedily. Nothing after that last
      marker can start another match. */
  function Greedy(line: string, marker: string, open: string, close: string): string {
    var p := FirstAt(line, marker, 0);
    var q := LastAt(line, marker);
    if p.Some? && q.Some? && q.value >= p.value + |marker| then
      line[..p.value] + open + line[p.value + |marker|..q.value] + close + line[q.value + |marker|..]
    else line
  }

  function ApplyLine(rule: LineRule, line: string): string {
    match rule
    case Heading3 => Prefixed(line, "### ", "<h3>", "</h3>", false)
    case Heading2 => Prefixed(line, "## ", "<h2>", "</h2>", false)
    case Heading1 => Prefixed(line, "# ", "<h1>", "</h1>", false)
    case Bold => Greedy(line, "**", "<strong>", "</strong>")
    case Italic => Greedy(line, "*", "<em>", "</em>")
    case ListItem => Prefixed(line, "* ", "<li>", "</li>", true)
  }

  /** A line-wise rewrite of every line of `s`; the terminators are kept. */
  function OnLines(s: string, rule: LineRule): string
    decreases |s|
  {
    var i := FirstLineEnd(s, 0);
    if i.None? then ApplyLine(rule, s)
    else ApplyLine(rule, s[..i.value]) + [s[i.value]] + OnLines(s[i.value + 1..], rule)
  }

  /** A character at `k`, absent from `from` up to `k`, is the first
      occurrence from `from`. */
  lemma FirstChar(s: string, c: char, from: nat, k: nat)
    requires from <= k < |s| && s[k] == c
    requires forall j :: from <= j < k ==> s[j] != c
    ensures FirstAt(s, [c], from) == Some(k)
  {
    assert s[k..k + 1] == [c];
    forall j | from <= j < k
      ensures !Occurs(s, [c], j)
    {
      assert s[j..j + 1] == [s[j]];
    }
    FirstOccurrence(s, [c], from, k);
  }

  /** A character absent from `from` on has no occurrence from there. */
  lemma NoCharFrom(s: string, c: char, from: nat)
    requires forall j :: from <= j < |s| ==> s[j] != c
    ensures FirstAt(s, [c], from).None?
  {
    forall j | from <= j
      ensures !Occurs(s, [c], j)
    {
      if j + 1 <= |s| {
        assert s[j..j + 1] == [s[j]];
      }
    }
  }

  lemma OneLine(s: string, rule: LineRule)
    requires NoLineEnd(s)
    ensures OnLines(s, rule) == ApplyLine(rule, s)
  {
  }

  /** A line followed by a terminator is rewritten on its own, the
      terminator is kept, and the rest is rewritten line by line. */
  lemma LinesSplit(a: string, t: char, rest: string, rule: LineRule)
    requires NoLineEnd(a) && LineEnd(t)
    ensures OnLines(a + [t] + rest, rule) == ApplyLine(rule, a) + [t] + OnLines(rest, rule)
  {
    var s := a + [t] + rest;
    assert s[|a|] == t;
    forall j | 0 <= j < |a|
      ensures !LineEnd(s[j])
    {
      assert s[j] == a[j];
    }
    assert FirstLineEnd(s, 0) == Some(|a|);
    assert s[..|a|] == a && s[|a| + 1..] == rest;
  }

  // ---------------------------------------------------------------------------
  // Whole-text rewrites

  /** `\[([^\]]+)\]\(([^)]+)\)` with `g`: at a `[`, the text runs to the
      first `]`, which must be followed by `(`, and the address to the next
      `)`; both must be non-empty. A `[` that does not start a link is kept. */
  function Links(s: string): string
    decreases |s|
  {
    var p := FirstAt(s, "[", 0);
    if p.None? then s
    else
      var k := FirstAt(s, "]", p.value + 1);
      var m := if k.Some? then FirstAt(s, ")", k.value + 2) else None;
      if k.Some? && k.value >= p.value + 2 && k.value + 1 < |s| && s[k.value + 1] == '('
         && m.Some? && m.value >= k.value + 3 then
        s[..p.value] + "<a href=\"" + s[k.value + 2..m.value] + "\">" + s[p.value + 1..k.value] + "</a>"
        + Links(s[m.value + 1..])
      else s[..p.value + 1] + Links(s[p.value + 1..])
  }

  /** ```` ```(.*?)``` ```` with `g` and `s`: each opening fence up to the
      next fence. An opening fence without a closing one ends the rewrite. */
  function CodeBlocks(s: string): string
    decreases |s|
  {
    var p := FirstAt(s, "```", 0);
    var q := if p.Some? then FirstAt(s, "```", p.value + 3) else None;
    if p.None? || q.None? then s
    else s[..p.value] + "<pre><code>" + s[p.value + 3..q.value] + "</code></pre>" + CodeBlocks(s[q.value + 3..])
  }

  /** `` `([^`]+)` `` with `g`: a backtick, at least one other character,
      and the next backtick. Two adjacent backticks do not match at the
      first one. */
  function InlineCode(s: string): string
    decreases |s|
  {
    var p := FirstAt(s, "`", 0);
    var k := if p.Some? then FirstAt(s, "`", p.value + 1) else None;
    if p.None? || k.None? then s
    else if k.value == p.value + 1 then s[..p.value + 1] + InlineCode(s[p.value + 1..])
    else s[..p.value] + "<code>" + s[p.value + 1..k.value] + "</code>" + InlineCode(s[k.value + 1..])
  }

  /** `/\n\n/g` replaced by `</p><p>`: pairs taken from the left, without
      overlap. */
  function Paragraphs(s: string): string
    decreases |s|
  {
    if |s| < 2 then s
    else if s[0] == '\n' && s[1] == '\n' then "</p><p>" + Paragraphs(s[2..])
    else [s[0]] + Paragraphs(s[1..])
  }

  /** `(<li>.*<\/li>)` with `s` and without `g`: one `<ul>` around the
      first `<li>` through the last `</li>`. */
  function WrapList(s: string): string {
    var p := FirstAt(s, "<li>", 0);
    var q := LastAt(s, "</li>");
    if p.Some? && q.Some? && q.value >= p.value + 4 then
      s[..p.value] + "<ul>" + s[p.value..q.value + 5] + "</ul>" + s[q.value + 5..]
    else s
  }

  function Headers(s: string): string {
    OnLines(OnLines(OnLines(s, Heading3), Heading2), Heading1)
  }

  /** `markdownToHtml`: headings, bold, italic, links, code blocks, inline
      code, paragraphs, list items and the list wrapper, in that order. */
  function MarkdownToHtml(markdown: string): string {
    var emphasis := OnLines(OnLines(Headers(markdown), Bold), Italic);
    var code := InlineCode(CodeBlocks(Links(emphasis)));
    WrapList(OnLines("<p>" + Paragraphs(code) + "</p>", ListItem))
  }

  // ---------------------------------------------------------------------------
  // Properties of the conversion

  /** A text that starts with `<p>` keeps that start through the list item
      rewrite: its first line cannot start with `* `. */
  lemma ListItemsKeepStart(s: string)
    requires StartsWith(s, "<p>")
    ensures StartsWith(OnLines(s, ListItem), "<p>")
  {
    var i := FirstLineEnd(s, 0);
    assert s[0] == '<' && s[1] == 'p' && s[2] == '>';
    if i.Some? {
      var line := s[..i.value];
      assert line[..3] == "<p>";
      assert ApplyLine(ListItem, line) == line;
    } else {
      assert ApplyLine(ListItem, s) == s;
    }
  }

  /** Wrapping the list never touches the first three characters when the
      text starts with `<p>`: no `<li>` can start before them. */
  lemma WrapListKeepsStart(s: string)
    requires StartsWith(s, "<p>")
    ensures StartsWith(WrapList(s), "<p>")
  {
    var p := FirstAt(s, "<li>", 0);
    assert s[0] == '<' && s[1] == 'p' && s[2] == '>';
    if p.Some? {
      var k := p.value;
      assert s[k..k + 4] == "<li>";
      assert s[k] == '<' && s[k + 1] == 'l';
      assert k != 0 && k != 1 && k != 2;
    }
  }

  /** The result always begins with `<p>`. */
  lemma MarkdownStartsWithParagraph(markdown: string)
    ensures StartsWith(MarkdownToHtml(markdown), "<p>")
  {
    var emphasis := OnLines(OnLines(Headers(markdown), Bold), Italic);
    var code := InlineCode(CodeBlocks(Links(emphasis)));
    var wrapped := "<p>" + Paragraphs(code) + "</p>";
    assert wrapped[..3] == "<p>";
    ListItemsKeepStart(wrapped);
    WrapListKeepsStart(OnLines(wrapped, ListItem));
  }

  /** No two adjacent line feeds survive the paragraph rewrite. */
  lemma {:induction false} ParagraphsLeaveNoBlankLine(s: string)
    ensures forall i :: 0 <= i < |Paragraphs(s)| - 1 ==> !(Paragraphs(s)[i] == '\n' && Paragraphs(s)[i + 1] == '\n')
    ensures |s| > 0 && s[0] != '\n' ==> |Paragraphs(s)| > 0 && Paragraphs(s)[0] == s[0]
  {
    if |s| >= 2 {
      var rest := if s[0] == '\n' && s[1] == '\n' then s[2..] else s[1..];
      ParagraphsLeaveNoBlankLine(rest);
      if s[0] == '\n' && s[1] != '\n' {
        assert Paragraphs(s) == [s[0]] + Paragraphs(s[1..]);
        assert Paragraphs(s[1..])[0] == s[1];
      }
    }
  }

  /** A text without two adjacent line feeds comes through unchanged. */
  lemma {:induction false} ParagraphsWithoutBlankLine(s: string)
    requires forall i :: 0 <= i < |s| - 1 ==> !(s[i] == '\n' && s[i + 1] == '\n')
    ensures Paragraphs(s) == s
  {
    if |s| >= 2 {
      ParagraphsWithoutBlankLine(s[1..]);
      assert s == [s[0]] + s[1..];
    }
  }

  /** A blank line between two paragraphs becomes the paragraph break. */
  lemma ParagraphBreak(a: string, b: string)
    requires NoChar(a, '\n') && NoChar(b, '\n')
    ensures Paragraphs(a + "\n\n" + b) == a + "</p><p>" + b
  {
    var t := "\n\n" + b;
    assert a + "\n\n" + b == a + t;
    ParagraphsPrefix(a, t);
    assert t[0] == '\n' && t[1] == '\n' && t[2..] == b;
    assert Paragraphs(t) == "</p><p>" + Paragraphs(b);
    ParagraphsWithoutBlankLine(b);
    assert a + ("</p><p>" + b) == a + "</p><p>" + b;
  }

  lemma {:induction false} ParagraphsPrefix(a: string, t: string)
    requires NoChar(a, '\n')
    ensures Paragraphs(a + t) == a + Paragraphs(t)
  {
    if a != [] {
      var u := a + t;
      assert u[0] == a[0] && u[1..] == a[1..] + t;
      ParagraphsPrefix(a[1..], t);
      if |u| < 2 {
        assert t == [] && a[1..] == [] && u == a;
      } else {
        assert Paragraphs(u) == [u[0]] + Paragraphs(u[1..]);
      }
    } else {
      assert a + t == t;
    }
  }

  /** An occurrence at `k` with none between `from` and `k` is the first. */
  lemma FirstOccurrence(s: string, pat: string, from: nat, k: nat)
    requires from <= k && Occurs(s, pat, k)
    requires forall j :: from <= j < k ==> !Occurs(s, pat, j)
    ensures FirstAt(s, pat, from) == Some(k)
  {
  }

  /** An occurrence at `k` with none after it is the last. */
  lemma LastOccurrence(s: string, pat: string, k: nat)
    requires Occurs(s, pat, k)
    requires forall j :: k < j <= |s| ==> !Occurs(s, pat, j)
    ensures LastAt(s, pat) == Some(k)
  {
  }

  /** Joining two single lines gives a single line. */
  lemma JoinOneLine(a: string, b: string)
    requires NoLineEnd(a) && NoLineEnd(b)
    ensures NoLineEnd(a + b)
  {
    forall i | 0 <= i < |a + b|
      ensures !LineEnd((a + b)[i])
    {
      if i < |a| {
        assert (a + b)[i] == a[i];
      } else {
        assert (a + b)[i] == b[i - |a|];
      }
    }
  }

  /** `x` between two tags is one line when `x` is. */
  lemma TaggedOneLine(open: string, x: string, close: string)
    requires NoLineEnd(open) && NoLineEnd(x) && NoLineEnd(close)
    ensures NoLineEnd(open + x + close)
  {
    JoinOneLine(open, x);
    JoinOneLine(open + x, close);
  }

  /** `### ` is tried first: such a line becomes an `h3`, and the later
      heading rules leave it alone. */
  lemma Heading3Line(x: string)
    requires NoLineEnd(x)
    ensures Headers("### " + x) == "<h3>" + x + "</h3>"
  {
    var line := "### " + x;
    TaggedOneLine("### ", x, "");
    assert line + "" == line;
    OneLine(line, Heading3);
    assert line[..4] == "### " && line[4..] == x;
    var h := "<h3>" + x + "</h3>";
    TaggedOneLine("<h3>", x, "</h3>");
    assert h[..3][0] == '<' && h[..2][0] == '<';
    OneLine(h, Heading2);
    assert ApplyLine(Heading2, h) == h;
    OneLine(h, Heading1);
  }

  lemma Heading2Line(x: string)
    requires NoLineEnd(x)
    ensures Headers("## " + x) == "<h2>" + x + "</h2>"
  {
    var line := "## " + x;
    TaggedOneLine("## ", x, "");
    assert line + "" == line;
    OneLine(line, Heading3);
    assert |line| < 4 || line[..4][2] == ' ';
    assert ApplyLine(Heading3, line) == line;
    OneLine(line, Heading2);
    assert line[..3] == "## " && line[3..] == x;
    var h := "<h2>" + x + "</h2>";
    TaggedOneLine("<h2>", x, "</h2>");
    assert h[..2][0] == '<';
    OneLine(h, Heading1);
  }

  lemma Heading1Line(x: string)
    requires NoLineEnd(x)
    ensures Headers("# " + x) == "<h1>" + x + "</h1>"
  {
    var line := "# " + x;
    TaggedOneLine("# ", x, "");
    assert line + "" == line;
    OneLine(line, Heading3);
    assert |line| < 4 || line[..4][1] == ' ';
    assert ApplyLine(Heading3, line) == line;
    OneLine(line, Heading2);
    assert |line| < 3 || line[..3][1] == ' ';
    assert ApplyLine(Heading2, line) == line;
    OneLine(line, Heading1);
    assert line[..2] == "# " && line[2..] == x;
  }

  /** A heading stops at the first line terminator: only the text before it
      goes into the element, and the lines after it are rewritten on their
      own, so `### a`, carriage return, `b` gives `<h3>a</h3>`, carriage
      return, `b`. */
  lemma HeadingStopsAtLineEnd(x: string, t: char, rest: string)
    requires NoLineEnd(x) && LineEnd(t)
    ensures OnLines("### " + x + [t] + rest, Heading3) == "<h3>" + x + "</h3>" + [t] + OnLines(rest, Heading3)
  {
    var line := "### " + x;
    TaggedOneLine("### ", x, "");
    assert line + "" == line;
    LinesSplit(line, t, rest, Heading3);
    assert line[..4] == "### " && line[4..] == x;
  }

  /** Bold is greedy: on a line `a**m**b` whose ends hold no `*`, the span
      runs from the first `**` to the last, whatever `m` holds, further
      `**` included. */
  lemma BoldIsGreedy(a: string, m: string, b: string, line: string)
    requires NoChar(a, '*') && NoChar(b, '*') && NoLineEnd(line) && line == a + "**" + m + "**" + b
    ensures Greedy(line, "**", "<strong>", "</strong>") == a + "<strong>" + m + "</strong>" + b
  {
    var p := |a|;
    var q := |a| + 2 + |m|;
    assert Occurs(line, "**", p) by { assert line[p..p + 2] == "**"; }
    assert Occurs(line, "**", q) by { assert line[q..q + 2] == "**"; }
    forall j | 0 <= j < p
      ensures !Occurs(line, "**", j)
    {
      assert line[j..j + 2][0] == line[j] == a[j];
    }
    forall j | q < j <= |line|
      ensures !Occurs(line, "**", j)
    {
      if j + 2 <= |line| {
        assert line[j..j + 2][1] == line[j + 1] == b[j + 1 - q - 2];
      }
    }
    FirstOccurrence(line, "**", 0, p);
    LastOccurrence(line, "**", q);
    assert line[..p] == a;
    assert line[p + 2..q] == m;
    assert line[q + 2..] == b;
  }

  /** A line with a single `**` has no bold span. */
  lemma GreedyOneMarker(line: string, p: nat)
    requires Occurs(line, "**", p)
    requires forall j :: 0 <= j <= |line| && j != p ==> !Occurs(line, "**", j)
    ensures Greedy(line, "**", "<strong>", "</strong>") == line
  {
    FirstOccurrence(line, "**", 0, p);
    LastOccurrence(line, "**", p);
  }

  /** `**a` with no `*` in `a` has no bold span. */
  lemma OpenMarkerOnly(a: string)
    requires NoChar(a, '*')
    ensures Greedy("**" + a, "**", "<strong>", "</strong>") == "**" + a
  {
    var line := "**" + a;
    assert Occurs(line, "**", 0) by { assert line[0..2] == "**"; }
    forall j | 0 <= j <= |line| && j != 0
      ensures !Occurs(line, "**", j)
    {
      if j + 2 <= |line| {
        assert line[j..j + 2][1] == line[j + 1] == a[j - 1];
      }
    }
    GreedyOneMarker(line, 0);
  }

  /** `b**` with no `*` in `b` has no bold span. */
  lemma CloseMarkerOnly(b: string)
    requires NoChar(b, '*')
    ensures Greedy(b + "**", "**", "<strong>", "</strong>") == b + "**"
  {
    var line := b + "**";
    assert Occurs(line, "**", |b|) by { assert line[|b|..|b| + 2] == "**"; }
    forall j | 0 <= j <= |line| && j != |b|
      ensures !Occurs(line, "**", j)
    {
      if j + 2 <= |line| && j < |b| {
        assert line[j..j + 2][0] == line[j] == b[j];
      }
    }
    GreedyOneMarker(line, |b|);
  }

  /** Bold does not cross a line terminator: `**a`, a terminator, `b**`,
      with no other `*`, is left as it is. */
  lemma BoldStopsAtLineEnd(a: string, t: char, b: string, s: string)
    requires NoChar(a, '*') && NoChar(b, '*') && NoLineEnd(a) && NoLineEnd(b) && LineEnd(t)
    requires s == "**" + a + [t] + b + "**"
    ensures OnLines(s, Bold) == s
  {
    var first := "**" + a;
    var second := b + "**";
    TaggedOneLine("**", a, "");
    assert first + "" == first;
    TaggedOneLine(b, "**", "");
    assert second + "" == second;
    assert s == first + [t] + second;
    LinesSplit(first, t, second, Bold);
    OpenMarkerOnly(a);
    OneLine(second, Bold);
    CloseMarkerOnly(b);
  }

  /** A line without `*` is left alone by the italic rule. */
  lemma ItalicLeavesPlain(s: string)
    requires NoChar(s, '*') && NoLineEnd(s)
    ensures OnLines(s, Italic) == s
  {
    OneLine(s, Italic);
    NoCharFrom(s, '*', 0);
    assert "*" == ['*'];
  }

  /** The bold rule on one line `a**m**b` whose ends hold no `*`. */
  lemma BoldLine(a: string, m: string, b: string, line: string)
    requires NoChar(a, '*') && NoChar(b, '*') && NoLineEnd(line)
    requires line == a + "**" + m + "**" + b
    ensures OnLines(line, Bold) == a + "<strong>" + m + "</strong>" + b
  {
    OneLine(line, Bold);
    BoldIsGreedy(a, m, b, line);
  }

  /** Neither a line terminator nor a `*` enters with the `strong` tags. */
  lemma StrongIsPlain(x: string, s: string)
    requires NoChar(x, '*') && NoLineEnd(x) && s == "<strong>" + x + "</strong>"
    ensures NoChar(s, '*') && NoLineEnd(s)
  {
    TaggedOneLine("<strong>", x, "</strong>");
    forall i | 0 <= i < |s|
      ensures s[i] != '*'
    {
      if 8 <= i < 8 + |x| {
        assert s[i] == x[i - 8];
      }
    }
  }

  /** Bold runs before italic: a line `**x**` whose text holds no `*`
      becomes one `strong` element, which the italic rule leaves alone. */
  lemma BoldBeforeItalic(x: string, line: string, s: string)
    requires NoChar(x, '*') && NoLineEnd(x)
    requires line == "**" + x + "**" && s == "<strong>" + x + "</strong>"
    ensures OnLines(OnLines(line, Bold), Italic) == s
  {
    TaggedOneLine("**", x, "**");
    assert line == "" + "**" + x + "**" + "";
    BoldLine("", x, "", line);
    var bold := OnLines(line, Bold);
    assert bold == s by {
      assert "" + "<strong>" + x + "</strong>" + "" == s;
    }
    StrongIsPlain(x, s);
    ItalicLeavesPlain(s);
  }

  /** The characters of `[text](url)`, position by position. */
  lemma LinkChars(text: string, url: string, s: string)
    requires s == "[" + text + "](" + url + ")"
    ensures var k := 1 + |text|;
            var m := k + 2 + |url|;
            && |s| == m + 1 && s[0] == '[' && s[k] == ']' && s[k + 1] == '(' && s[m] == ')'
            && (forall j :: 1 <= j < k ==> s[j] == text[j - 1])
            && (forall j :: k + 2 <= j < m ==> s[j] == url[j - k - 2])
            && s[k + 2..m] == url && s[1..k] == text
  {
  }

  /** Where the pieces of `[text](url)` sit. */
  lemma LinkPositions(text: string, url: string, s: string)
    requires |text| > 0 && |url| > 0 && NoChar(text, ']') && NoChar(url, ')')
    requires s == "[" + text + "](" + url + ")"
    ensures var k := 1 + |text|;
            var m := k + 2 + |url|;
            && m + 1 == |s| && s[k + 1] == '('
            && FirstAt(s, "[", 0) == Some(0) && FirstAt(s, "]", 1) == Some(k) && FirstAt(s, ")", k + 2) == Some(m)
            && s[k + 2..m] == url && s[1..k] == text
  {
    LinkChars(text, url, s);
    var k := 1 + |text|;
    var m := k + 2 + |url|;
    assert "[" == ['['] && "]" == [']'] && ")" == [')'];
    FirstChar(s, '[', 0, 0);
    FirstChar(s, ']', 1, k);
    FirstChar(s, ')', k + 2, m);
  }

  /** `[text](url)` becomes an anchor when the text holds no `]` and the
      address no `)`, both non-empty. */
  lemma LinkRewrite(text: string, url: string, s: string)
    requires |text| > 0 && |url| > 0 && NoChar(text, ']') && NoChar(url, ')')
    requires s == "[" + text + "](" + url + ")"
    ensures Links(s) == "<a href=\"" + url + "\">" + text + "</a>"
  {
    LinkPositions(text, url, s);
    var m := 3 + |text| + |url|;
    assert s[m + 1..] == [];
    assert Links([]) == [];
    assert s[..0] == [];
  }

  /** A fenced block whose content holds no backtick becomes a `pre`
      element around a `code` element with that content. */
  lemma CodeBlockRewrite(x: string, s: string)
    requires NoChar(x, '`') && s == "```" + x + "```"
    ensures CodeBlocks(s) == "<pre><code>" + x + "</code></pre>"
  {
    var q := 3 + |x|;
    assert s[..3] == "```" && s[0..3] == "```";
    assert s[q..q + 3] == "```";
    FirstOccurrence(s, "```", 0, 0);
    forall j | 3 <= j < q
      ensures !Occurs(s, "```", j)
    {
      assert s[j..j + 3][0] == s[j] == x[j - 3];
    }
    FirstOccurrence(s, "```", 3, q);
    assert s[3..q] == x;
    assert s[q + 3..] == [];
    assert CodeBlocks([]) == [];
  }

  /** A backtick, a non-empty text without backticks and a backtick become
      a `code` element with that text. */
  lemma InlineCodeRewrite(x: string, s: string)
    requires |x| > 0 && NoChar(x, '`') && s == "`" + x + "`"
    ensures InlineCode(s) == "<code>" + x + "</code>"
  {
    var k := 1 + |x|;
    assert "`" == ['`'];
    FirstChar(s, '`', 0, 0);
    forall j | 1 <= j < k
      ensures s[j] != '`'
    {
      assert s[j] == x[j - 1];
    }
    FirstChar(s, '`', 1, k);
    assert s[1..k] == x;
    assert s[k + 1..] == [];
    assert InlineCode([]) == [];
  }

  // ---------------------------------------------------------------------------
  // The upload

  const DefaultTitle: string := "Claude Chat Export"
  const Boundary: string := "-------314159265358979323846"

  function Delimiter(): string {
    "\r\n--" + Boundary + "\r\n"
  }

  function CloseDelimiter(): string {
    "\r\n--" + Boundary + "--"
  }

  /** `JSON.stringify({mimeType: 'text/html'})`. */
  const Metadata: string := "{\"mimeType\":\"text/html\"}"

  /** Everything of the body before the document's HTML. */
  function BodyHead(): string {
    Delimiter() + "Content-Type: application/json\r\n\r\n" + Metadata + Delimiter() + "Content-Type: text/html\r\n\r\n"
  }

  /** The multipart body: the JSON part and the HTML part between the
      delimiters. */
  function MultipartBody(html: string): string {
    BodyHead() + html + CloseDelimiter()
  }

  /** The body starts with the delimiter, ends with the closing delimiter,
      and the HTML is recovered from it by dropping the fixed head and
      tail. */
  lemma MultipartShape(html: string)
    ensures var body := MultipartBody(html);
            && StartsWith(body, Delimiter())
            && EndsWith(body, CloseDelimiter())
            && |body| == |BodyHead()| + |html| + |CloseDelimiter()|
            && body[|BodyHead()|..|body| - |CloseDelimiter()|] == html
  {
    var body := MultipartBody(html);
    var head := BodyHead();
    assert head[..|Delimiter()|] == Delimiter();
    assert body[..|head|] == head;
    assert body[..|Delimiter()|] == head[..|Delimiter()|];
  }

  /** The new document's name: the title (the default when none is passed),
      ` - `, and the local date and time string. */
  function DocumentName(title: Option<string>, localTime: string): (r: string)
    ensures title.None? ==> r == DefaultTitle + " - " + localTime
    ensures title.Some? ==> r == title.value + " - " + localTime
    ensures EndsWith(r, " - " + localTime)
  {
    (if title.Some? then title.value else DefaultTitle) + " - " + localTime
  }
}
