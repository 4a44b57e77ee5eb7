/** Table-of-contents generation, `MarkdownWriter.add_table_of_contents`
    (src/claude_clis/tools/doc2md/markdown_writer.py). The two regular
    expressions it uses, `^(#{1,6})\s+(.+)$` with `findall` and `^#\s+.+$`
    with `search` (both multi-line), are written out as scanners over line
    starts, including the backtracking of `\s+` when the whitespace after the
    hashes runs to the end of the text. `\s` matches newlines, so a title may
    sit on a later line than its hashes. */
module MarkdownToc {
  import opened Base
  import opened Text

  /** One heading match: the number of '#', the `.+` group, and the index
      where the match ends (a '\n' or the end of the text). */
  datatype Heading = Heading(level: nat, title: string, end: nat)

  /** The number of consecutive '#' starting at p. */
  function HashRun(s: string, p: nat): (n: nat)
    requires p <= |s|
    ensures p + n <= |s|
    ensures forall k :: p <= k < p + n ==> s[k] == '#'
    ensures p + n == |s| || s[p + n] != '#'
    decreases |s| - p
  {
    if p < |s| && s[p] == '#' then 1 + HashRun(s, p + 1) else 0
  }

  /** The number of consecutive whitespace characters starting at p. */
  function SpaceRunAt(s: string, p: nat): (n: nat)
    requires p <= |s|
    ensures p + n <= |s|
    ensures forall k :: p <= k < p + n ==> IsSpace(s[k])
    ensures p + n == |s| || !IsSpace(s[p + n])
    decreases |s| - p
  {
    if p < |s| && IsSpace(s[p]) then 1 + SpaceRunAt(s, p + 1) else 0
  }

  /** Where multi-line `^` matches. */
  predicate LineStart(s: string, p: nat)
    requires p <= |s|
  {
    p == 0 || s[p - 1] == '\n'
  }

  /** Where `(.+)` starts when `\s+` may take 1 to m characters from q: the
      largest such count that leaves a non-newline character to match. */
  function TitleStart(s: string, q: nat, m: nat): (r: Option<nat>)
    requires q + m <= |s|
    ensures r.Some? ==> q < r.value <= q + m && r.value < |s| && s[r.value] != '\n'
    ensures forall j :: (if r.Some? then r.value else q) < j <= q + m && j < |s| ==> s[j] == '\n'
    decreases m
  {
    if m == 0 then None
    else if q + m < |s| && s[q + m] != '\n' then Some(q + m)
    else TitleStart(s, q, m - 1)
  }

  /** The match of the heading pattern at p, if any. `#{1,6}` must take the
      whole run of hashes (backing off leaves a '#' where `\s` is needed), so
      seven or more hashes never match; `.+` then runs to the end of its line. */
  function MatchAt(s: string, p: nat): (r: Option<Heading>)
    requires p <= |s|
    ensures r.Some? ==> LineStart(s, p)
    ensures r.Some? ==> var h := r.value;
      1 <= h.level <= 6 && h.level == HashRun(s, p)
      && p + h.level < h.end <= |s| && (h.end == |s| || s[h.end] == '\n')
      && h.title != [] && p + h.level + |h.title| < h.end
      && h.title == s[h.end - |h.title|..h.end]
      && forall k :: 0 <= k < |h.title| ==> h.title[k] != '\n'
  {
    if !LineStart(s, p) then None
    else
      var n := HashRun(s, p);
      if n < 1 || n > 6 then None
      else
        var q := p + n;
        var w := SpaceRunAt(s, q);
        if w == 0 then None
        else
          match TitleStart(s, q, w)
          case None => None
          case Some(t) =>
            var e := LineEnd(s, t);
            Some(Heading(n, s[t..e], e))
  }

  /** `re.findall` of the heading pattern from p on: after a match the search
      resumes at its end, where only the next line can start a match; after a
      failure it resumes at the next line start. */
  function FindHeadings(s: string, p: nat): (hs: seq<Heading>)
    requires p <= |s|
    ensures forall k :: 0 <= k < |hs| ==>
      (1 <= hs[k].level <= 6 && hs[k].title != []
       && forall j :: 0 <= j < |hs[k].title| ==> hs[k].title[j] != '\n')
    decreases |s| - p
  {
    if p == |s| then []
    else
      match MatchAt(s, p)
      case Some(h) => [h] + (if h.end < |s| then FindHeadings(s, h.end + 1) else [])
      case None =>
        var e := LineEnd(s, p);
        if e < |s| then FindHeadings(s, e + 1) else []
  }

  function Headings(s: string): seq<Heading>
  {
    FindHeadings(s, 0)
  }

  /** `re.search(r'^#\s+.+$', …)` from p on: the first line start where a
      single '#' heading matches. That pattern matches exactly where the
      heading pattern matches with level 1, and ends at the same place. */
  function FirstTitleFrom(s: string, p: nat): (r: Option<Heading>)
    requires p <= |s|
    ensures r.Some? ==>
      (r.value.level == 1 && r.value.end <= |s| && (r.value.end == |s| || s[r.value.end] == '\n'))
    decreases |s| - p
  {
    if p == |s| then None
    else
      match MatchAt(s, p)
      case Some(h) =>
        if h.level == 1 then Some(h)
        else
          var e := LineEnd(s, p);
          if e < |s| then FirstTitleFrom(s, e + 1) else None
      case None =>
        var e := LineEnd(s, p);
        if e < |s| then FirstTitleFrom(s, e + 1) else None
  }

  /** Characters `[^\w\s-]` does not remove. */
  predicate Kept(c: char)
  {
    IsWordChar(c) || IsSpace(c) || c == '-'
  }

  /** `re.sub(r'[^\w\s-]', '', t)`. */
  function DropPunctuation(t: string): (r: string)
    ensures forall k :: 0 <= k < |r| ==> Kept(r[k])
    ensures (forall k :: 0 <= k < |t| ==> Kept(t[k])) ==> r == t
  {
    if t == [] then []
    else if Kept(t[0]) then [t[0]] + DropPunctuation(t[1..])
    else DropPunctuation(t[1..])
  }

  /** `re.sub(r'\s+', '-', t)`: every maximal whitespace run becomes one '-'. */
  function DashRuns(t: string): (r: string)
    ensures forall k :: 0 <= k < |r| ==> !IsSpace(r[k])
    ensures forall k :: 0 <= k < |r| ==> r[k] == '-' || r[k] in t
    ensures (forall k :: 0 <= k < |t| ==> !IsSpace(t[k])) ==> r == t
    decreases |t|
  {
    if t == [] then []
    else if IsSpace(t[0]) then
      var n := SpaceRunAt(t, 0);
      ['-'] + DashRuns(t[n..])
    else [t[0]] + DashRuns(t[1..])
  }

  /** The anchor of a title: punctuation dropped, stripped, whitespace runs
      turned into '-', lower-cased. */
  function Anchor(title: string): (r: string)
  {
    Lower(DashRuns(Strip(DropPunctuation(title))))
  }

  /** An anchor holds only lower-case word characters and '-'. */
  lemma AnchorChars(title: string)
    ensures forall k :: 0 <= k < |Anchor(title)| ==>
      Anchor(title)[k] == '-' || (IsWordChar(Anchor(title)[k]) && !IsUpper(Anchor(title)[k]))
  {
    var d := DropPunctuation(title);
    var t := Strip(d);
    assert forall c :: c in t ==> Kept(c) by { StripChars(d); }
    var r := DashRuns(t);
    assert forall k :: 0 <= k < |r| ==> r[k] == '-' || IsWordChar(r[k]);
  }

  /** A title made of word characters is its own anchor, lower-cased. */
  lemma WordTitleAnchor(title: string)
    requires forall k :: 0 <= k < |title| ==> IsWordChar(title[k])
    ensures Anchor(title) == Lower(title)
  {
    assert forall k :: 0 <= k < |title| ==> !IsSpace(title[k]) && Kept(title[k]);
    assert DropPunctuation(title) == title;
    assert Strip(title) == title by {
      var l := TrimLeft(title, Whitespace);
      var r := TrimRight(l, Whitespace);
    }
    assert DashRuns(title) == title;
  }

  /** The headings that get an entry: level 2 and deeper, in order. */
  function Deep(hs: seq<Heading>): (r: seq<Heading>)
    ensures forall k :: 0 <= k < |r| ==> r[k].level >= 2
    ensures |r| <= |hs|
    ensures r == [] <==> forall k :: 0 <= k < |hs| ==> hs[k].level < 2
  {
    if hs == [] then []
    else if hs[0].level >= 2 then [hs[0]] + Deep(hs[1..])
    else
      var rest := Deep(hs[1..]);
      assert rest == [] <==> forall k :: 0 <= k < |hs| ==> hs[k].level < 2 by {
        assert forall k :: 1 <= k < |hs| ==> hs[k] == hs[1..][k - 1];
      }
      rest
  }

  /** One entry: two spaces per level below 2, then `- [title](#anchor)`. */
  function Entry(h: Heading): string
    requires h.level >= 2
  {
    Repeat(' ', 2 * (h.level - 2)) + "- [" + h.title + "](#" + Anchor(h.title) + ")"
  }

  function Entries(hs: seq<Heading>): (es: seq<string>)
    requires forall k :: 0 <= k < |hs| ==> hs[k].level >= 2
    ensures |es| == |hs| && forall k :: 0 <= k < |es| ==> es[k] == Entry(hs[k])
  {
    seq(|hs|, k requires 0 <= k < |hs| => Entry(hs[k]))
  }

  const TocHeader := "## Table of Contents\n"
  const TocFooter := "\n\n---\n\n"

  /** The block: the header line, then the entries, joined with '\n', then
      the footer. */
  function TocBlock(es: seq<string>): string
  {
    Join([TocHeader] + es, "\n") + TocFooter
  }

  /** `add_table_of_contents`. */
  function AddToc(s: string): string
  {
    var hs := Headings(s);
    if |hs| < 2 then s
    else
      var deep := Deep(hs);
      if deep == [] then s
      else
        var toc := TocBlock(Entries(deep));
        match FirstTitleFrom(s, 0)
        case Some(h) => s[..h.end] + "\n\n" + toc + s[h.end..]
        case None => toc + s
  }

  /** The text is left alone exactly when fewer than two headings are found
      or none of them is of level 2 or deeper. */
  lemma UnchangedIff(s: string)
    ensures AddToc(s) == s <==>
      |Headings(s)| < 2 || forall k :: 0 <= k < |Headings(s)| ==> Headings(s)[k].level < 2
  {
    var hs := Headings(s);
    if |hs| >= 2 && Deep(hs) != [] {
      assert |AddToc(s)| > |s|;
    }
  }

  /** Otherwise the block, built from one entry per deep heading in order, is
      inserted after two newlines right where the first level-1 heading ends
      (a line end), or put in front; the text around it is unchanged. */
  lemma Insertion(s: string)
    requires |Headings(s)| >= 2 && exists k :: 0 <= k < |Headings(s)| && Headings(s)[k].level >= 2
    ensures var toc := TocBlock(Entries(Deep(Headings(s))));
      match FirstTitleFrom(s, 0)
      case Some(h) =>
        h.end <= |s| && (h.end == |s| || s[h.end] == '\n')
        && AddToc(s) == s[..h.end] + "\n\n" + toc + s[h.end..]
      case None => AddToc(s) == toc + s
  {
  }

  /** The block starts with its header line followed by a blank line when
      there is an entry, and ends with the rule and a blank line. */
  lemma BlockShape(es: seq<string>)
    requires es != []
    ensures var b := TocBlock(es);
      b == TocHeader + "\n" + Join(es, "\n") + TocFooter
  {
    assert ([TocHeader] + es)[1..] == es;
  }

  /** The text of the two-heading example below. */
  function TwoHeadings(a: char, b: char): string
  {
    ['#', ' ', a, '\n', '#', '#', ' ', b]
  }

  lemma TitleMatch(a: char, b: char)
    requires IsWordChar(a) && IsWordChar(b)
    ensures MatchAt(TwoHeadings(a, b), 0) == Some(Heading(1, [a], 3))
  {
    var s := TwoHeadings(a, b);
    assert !IsSpace(a) && IsSpace(' ');
    assert HashRun(s, 1) == 0;
    assert HashRun(s, 0) == 1;
    assert SpaceRunAt(s, 1) == 1 by { assert SpaceRunAt(s, 2) == 0; }
    assert TitleStart(s, 1, 1) == Some(2);
    assert LineEnd(s, 2) == 3 by { assert LineEnd(s, 3) == 3; }
    assert s[2..3] == [a];
  }

  lemma SectionMatch(a: char, b: char)
    requires IsWordChar(a) && IsWordChar(b)
    ensures MatchAt(TwoHeadings(a, b), 4) == Some(Heading(2, [b], 8))
  {
    var s := TwoHeadings(a, b);
    assert !IsSpace(b) && IsSpace(' ');
    assert HashRun(s, 6) == 0;
    assert HashRun(s, 4) == 2 by { assert HashRun(s, 5) == 1; }
    assert SpaceRunAt(s, 6) == 1 by { assert SpaceRunAt(s, 7) == 0; }
    assert TitleStart(s, 6, 1) == Some(7);
    assert LineEnd(s, 7) == 8 by { assert LineEnd(s, 8) == 8; }
    assert s[7..8] == [b];
  }

  lemma TwoHeadingsFound(a: char, b: char)
    requires IsWordChar(a) && IsWordChar(b)
    ensures Headings(TwoHeadings(a, b)) == [Heading(1, [a], 3), Heading(2, [b], 8)]
    ensures FirstTitleFrom(TwoHeadings(a, b), 0) == Some(Heading(1, [a], 3))
  {
    var s := TwoHeadings(a, b);
    TitleMatch(a, b);
    SectionMatch(a, b);
    assert FindHeadings(s, 4) == [Heading(2, [b], 8)];
  }

  /** The entry of a level-2 heading has no indent. */
  lemma SectionEntry(h: Heading)
    requires h.level == 2
    ensures Entry(h) == "- [" + h.title + "](#" + Anchor(h.title) + ")"
  {
    var r := Repeat(' ', 2 * (h.level - 2));
    assert r == [];
    var x := "- [" + h.title + "](#" + Anchor(h.title) + ")";
    assert Entry(h) == r + x;
  }

  lemma CharAnchor(b: char)
    requires IsWordChar(b)
    ensures Anchor([b]) == [LowerChar(b)]
  {
    WordTitleAnchor([b]);
  }

  lemma TwoHeadingsEntries(a: char, b: char)
    requires IsWordChar(b)
    ensures Entries(Deep([Heading(1, [a], 3), Heading(2, [b], 8)])) == ["- [" + [b] + "](#" + [LowerChar(b)] + ")"]
  {
    var hs := [Heading(1, [a], 3), Heading(2, [b], 8)];
    var h2 := Heading(2, [b], 8);
    calc {
      Entries(Deep(hs));
    == { assert hs[1..] == [h2]; }
      Entries([h2]);
    ==
      [Entry(h2)];
    == { SectionEntry(h2); CharAnchor(b); }
      ["- [" + [b] + "](#" + [LowerChar(b)] + ")"];
    }
  }

  /** A title line and one section: both are found, only the section gets an
      entry, and the block goes right after the title line. */
  lemma TitleAndSection(a: char, b: char)
    requires IsWordChar(a) && IsWordChar(b)
    ensures Headings(TwoHeadings(a, b)) == [Heading(1, [a], 3), Heading(2, [b], 8)]
    ensures AddToc(TwoHeadings(a, b)) == ['#', ' ', a] + "\n\n"
      + TocBlock(["- [" + [b] + "](#" + [LowerChar(b)] + ")"]) + ['\n', '#', '#', ' ', b]
  {
    var s := TwoHeadings(a, b);
    var toc := TocBlock(["- [" + [b] + "](#" + [LowerChar(b)] + ")"]);
    TwoHeadingsFound(a, b);
    assert AddToc(s) == s[..3] + "\n\n" + toc + s[3..] by {
      TwoHeadingsEntries(a, b);
      assert Headings(s)[1].level >= 2;
      Insertion(s);
    }
    assert s[..3] == ['#', ' ', a] && s[3..] == ['\n', '#', '#', ' ', b];
  }
}
