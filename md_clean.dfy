/** `MarkdownWriter.clean_markdown` (src/claude_clis/tools/doc2md/markdown_writer.py):
    six regular-expression substitutions, written here as explicit scanners
    that consume the text from the left the way `re.sub` does, then a
    per-line right strip and a single final newline. `\s` is `Text.IsSpace`,
    `\w` is `Text.IsWordChar`, `\d` is `Text.IsDigit`. */
module MarkdownClean {
  import opened Base
  import opened Text

  /** Length of the longest prefix of `s` made of characters satisfying the
      class. */
  function SpaceRun(s: string): (n: nat)
    ensures n <= |s| && (n == |s| || !IsSpace(s[n]))
    ensures forall k :: 0 <= k < n ==> IsSpace(s[k])
  {
    if s != [] && IsSpace(s[0]) then 1 + SpaceRun(s[1..]) else 0
  }

  function WordRun(s: string): (n: nat)
    ensures n <= |s| && (n == |s| || !IsWordChar(s[n]))
    ensures forall k :: 0 <= k < n ==> IsWordChar(s[k])
  {
    if s != [] && IsWordChar(s[0]) then 1 + WordRun(s[1..]) else 0
  }

  function DigitRun(s: string): (n: nat)
    ensures n <= |s| && (n == |s| || !IsDigit(s[n]))
    ensures forall k :: 0 <= k < n ==> IsDigit(s[k])
  {
    if s != [] && IsDigit(s[0]) then 1 + DigitRun(s[1..]) else 0
  }

  /** One maximal whitespace run after `\n\s*\n\s*\n` -> `\n\n`: with three or
      more newlines in it, everything from its first to its last newline
      becomes one blank line; the whitespace around them stays. */
  function CollapseRun(w: string): string
  {
    if Count(w, "\n") >= 3 then
      var first := IndexOf(w, '\n');
      var last := LastIndexOf(w, '\n');
      CountedIsFound(w, '\n');
      w[..first] + "\n\n" + w[last + 1..]
    else w
  }

  /** A character counted at least once has a first and a last position. */
  lemma {:induction false} CountedIsFound(s: string, c: char)
    ensures Count(s, [c]) >= 1 ==> 0 <= IndexOf(s, c) <= LastIndexOf(s, c)
    decreases |s|
  {
    if s != [] && s[0] != c {
      CountedIsFound(s[1..], c);
    }
  }

  /** `re.sub(r'\n\s*\n\s*\n', '\n\n', content)`: a match starts at the first
      newline of a whitespace run and, the stars being greedy, ends at the
      last newline of that run. */
  function CollapseBlank(s: string): string
    decreases |s|
  {
    if s == [] then []
    else if !IsSpace(s[0]) then [s[0]] + CollapseBlank(s[1..])
    else
      var n := SpaceRun(s);
      CollapseRun(s[..n]) + CollapseBlank(s[n..])
  }

  /** `re.sub(r'\n(#{1,6})', r'\n\n\1', content)`: every newline followed by
      '#' is doubled. */
  function HeadingGap(s: string): string
  {
    if s == [] then []
    else if |s| >= 2 && s[0] == '\n' && s[1] == '#' then "\n\n" + HeadingGap(s[1..])
    else [s[0]] + HeadingGap(s[1..])
  }

  /** `re.sub(r'(#{1,6}[^\n]*)\n([^\n#])', r'\1\n\n\2', content)`: from a '#'
      the match runs to the end of its line, and succeeds when the next line
      starts with a character other than a newline or '#'; that character is
      consumed. When it fails, every later '#' on the same line fails the
      same way, so scanning resumes at the next line. */
  function HeadingBreak(s: string): string
    decreases |s|
  {
    if s == [] then []
    else if s[0] != '#' then [s[0]] + HeadingBreak(s[1..])
    else
      var e := IndexOf(s, '\n');
      if e < 0 then s
      else if e + 1 < |s| && s[e + 1] != '\n' && s[e + 1] != '#' then
        s[..e] + "\n\n" + [s[e + 1]] + HeadingBreak(s[e + 2..])
      else s[..e + 1] + HeadingBreak(s[e + 1..])
  }

  /** `re.sub(r'\n([*+-]|\d+\.)', r'\n\1', content)`. */
  function ListSpacing(s: string): string
    decreases |s|
  {
    if s == [] then []
    else if s[0] == '\n' && |s| >= 2 && s[1] in {'*', '+', '-'} then
      "\n" + [s[1]] + ListSpacing(s[2..])
    else if s[0] == '\n' && 0 < DigitRun(s[1..]) && 1 + DigitRun(s[1..]) < |s| && s[1 + DigitRun(s[1..])] == '.' then
      var d := DigitRun(s[1..]);
      "\n" + s[1..1 + d] + "." + ListSpacing(s[2 + d..])
    else [s[0]] + ListSpacing(s[1..])
  }

  /** `re.sub(r'```(\w*)\n\n', r'```\1\n', content)`. */
  function CodeOpen(s: string): string
    decreases |s|
  {
    if s == [] then []
    else if |s| >= 3 && s[..3] == "```" && 3 + WordRun(s[3..]) + 2 <= |s|
      && s[3 + WordRun(s[3..])] == '\n' && s[3 + WordRun(s[3..]) + 1] == '\n' then
      var k := 3 + WordRun(s[3..]);
      s[..k] + "\n" + CodeOpen(s[k + 2..])
    else [s[0]] + CodeOpen(s[1..])
  }

  /** `re.sub(r'\n\n```', r'\n```', content)`. */
  function CodeClose(s: string): string
    decreases |s|
  {
    if s == [] then []
    else if |s| >= 5 && s[..5] == "\n\n```" then "\n```" + CodeClose(s[5..])
    else [s[0]] + CodeClose(s[1..])
  }

  /** `'\n'.join(line.rstrip() for line in content.split('\n'))`. */
  function StripLines(s: string): string
  {
    Join(Map(Split(s, '\n'), RStrip), "\n")
  }

  /** `clean_markdown(content)`. */
  function Clean(s: string): string
  {
    var r := ListSpacing(HeadingBreak(HeadingGap(CollapseBlank(s))));
    RStrip(StripLines(CodeClose(CodeOpen(r)))) + "\n"
  }

  /** No line has whitespace at its end: whitespace is never directly
      followed by a newline, unless that whitespace is itself a newline. */
  predicate NoTrailingSpace(r: string)
  {
    forall i :: 0 <= i < |r| - 1 && r[i + 1] == '\n' ==> r[i] == '\n' || !IsSpace(r[i])
  }

  predicate CleanLine(l: string)
  {
    '\n' !in l && (l == [] || !IsSpace(l[|l| - 1]))
  }

  /** The cleaned text ends in exactly one newline, with no whitespace before
      it, and no line keeps trailing whitespace. */
  lemma CleanShape(s: string)
    ensures var r := Clean(s);
      |r| >= 1 && r[|r| - 1] == '\n' && (|r| == 1 || !IsSpace(r[|r| - 2])) && NoTrailingSpace(r)
  {
    var t := CodeClose(CodeOpen(ListSpacing(HeadingBreak(HeadingGap(CollapseBlank(s))))));
    assert Clean(s) == RStrip(StripLines(t)) + "\n";
    StripTail(t);
  }

  /** The last two steps alone give that shape, whatever text they get. */
  lemma StripTail(t: string)
    ensures var r := RStrip(StripLines(t)) + "\n";
      |r| >= 1 && r[|r| - 1] == '\n' && (|r| == 1 || !IsSpace(r[|r| - 2])) && NoTrailingSpace(r)
  {
    var j := StripLines(t);
    assert NoTrailingSpace(j) by {
      StrippedLinesClean(Split(t, '\n'));
    }
    var p := RStrip(j);
    assert NoTrailingSpace(p) by {
      assert p == j[..|p|];
    }
    FinalNewline(p);
  }

  lemma StrippedLinesClean(lines: seq<string>)
    requires forall k :: 0 <= k < |lines| ==> '\n' !in lines[k]
    ensures NoTrailingSpace(Join(Map(lines, RStrip), "\n"))
  {
    var m := Map(lines, RStrip);
    forall k | 0 <= k < |m|
      ensures CleanLine(m[k])
    {
      var l := lines[k];
      assert m[k] == l[..|m[k]|];
      forall i | 0 <= i < |m[k]|
        ensures m[k][i] != '\n'
      {
        assert m[k][i] == l[i];
      }
    }
    JoinClean(m);
  }

  lemma {:induction false} JoinClean(parts: seq<string>)
    requires forall k :: 0 <= k < |parts| ==> CleanLine(parts[k])
    ensures NoTrailingSpace(Join(parts, "\n"))
  {
    if |parts| == 1 {
      assert '\n' !in parts[0];
    } else if |parts| > 1 {
      var p := parts[0];
      var rest := Join(parts[1..], "\n");
      JoinClean(parts[1..]);
      var r := p + "\n" + rest;
      assert '\n' !in p;
      forall i | 0 <= i < |r| - 1 && r[i + 1] == '\n'
        ensures r[i] == '\n' || !IsSpace(r[i])
      {
        if i + 1 == |p| {
          assert r[i] == p[|p| - 1];
        } else if i > |p| {
          assert r[i] == rest[i - |p| - 1] && r[i + 1] == rest[i - |p|];
        }
      }
    }
  }

  lemma FinalNewline(p: string)
    requires NoTrailingSpace(p) && (p == [] || !IsSpace(p[|p| - 1]))
    ensures var r := p + "\n";
      r[|r| - 1] == '\n' && (|r| == 1 || !IsSpace(r[|r| - 2])) && NoTrailingSpace(r)
  {
    var r := p + "\n";
    forall i | 0 <= i < |r| - 1 && r[i + 1] == '\n'
      ensures r[i] == '\n' || !IsSpace(r[i])
    {
      if i + 1 < |p| {
        assert r[i] == p[i] && r[i + 1] == p[i + 1];
      }
    }
  }

  /** The list-spacing substitution puts back exactly what it matched. */
  lemma {:induction false} ListSpacingIdentity(s: string)
    ensures ListSpacing(s) == s
    decreases |s|
  {
    if s == [] {
    } else if s[0] == '\n' && |s| >= 2 && s[1] in {'*', '+', '-'} {
      ListSpacingIdentity(s[2..]);
      assert s == "\n" + [s[1]] + s[2..];
    } else if s[0] == '\n' && 0 < DigitRun(s[1..]) && 1 + DigitRun(s[1..]) < |s| && s[1 + DigitRun(s[1..])] == '.' {
      var d := DigitRun(s[1..]);
      ListSpacingIdentity(s[2 + d..]);
      assert s == "\n" + s[1..1 + d] + "." + s[2 + d..];
    } else {
      ListSpacingIdentity(s[1..]);
      assert s == [s[0]] + s[1..];
    }
  }

  /** Undoes `HeadingGap`: drops a newline followed by a newline and '#'. */
  function Ungap(t: string): string
  {
    if t == [] then []
    else if |t| >= 3 && t[0] == '\n' && t[1] == '\n' && t[2] == '#' then Ungap(t[1..])
    else [t[0]] + Ungap(t[1..])
  }

  /** The heading rule adds one newline before every '#' that follows a
      newline, and nothing else: removing those newlines gives the text back. */
  lemma {:induction false} UngapHeadingGap(s: string)
    ensures Ungap(HeadingGap(s)) == s
  {
    if s != [] {
      if |s| >= 2 && s[0] == '\n' && s[1] == '#' {
        var t := HeadingGap(s[2..]);
        assert HeadingGap(s[1..]) == "#" + t;
        assert HeadingGap(s) == "\n\n#" + t;
        assert ("\n\n#" + t)[1..] == "\n#" + t;
        assert ("\n#" + t)[1..] == "#" + t;
        assert ("#" + t)[1..] == t;
        UngapHeadingGap(s[2..]);
        assert Ungap("#" + t) == "#" + Ungap(t);
        assert Ungap("\n#" + t) == "\n" + Ungap("#" + t);
        assert Ungap("\n\n#" + t) == Ungap("\n#" + t);
        assert s == "\n#" + s[2..];
      } else {
        var t := HeadingGap(s[1..]);
        assert HeadingGap(s) == [s[0]] + t;
        if s[0] == '\n' {
          GapNoBareHeading(s[1..]);
        }
        assert ([s[0]] + t)[1..] == t;
        UngapHeadingGap(s[1..]);
        assert s == [s[0]] + s[1..];
      }
    }
  }

  /** `HeadingGap` never yields a text starting with a newline and '#'. */
  lemma GapNoBareHeading(s: string)
    ensures var t := HeadingGap(s); !(|t| >= 2 && t[0] == '\n' && t[1] == '#')
  {
    if |s| >= 2 && s[0] == '\n' && s[1] != '#' {
      assert HeadingGap(s) == "\n" + HeadingGap(s[1..]);
      if s[1] != '\n' {
        assert HeadingGap(s[1..])[0] == s[1];
      }
    }
  }

  /** A blank line before a heading does not stop the rule: it adds a newline
      all the same. */
  lemma HeadingGapAfterBlank()
    ensures HeadingGap("\n\n# b") == "\n\n\n# b"
  {
    assert "\n\n# b"[1..] == "\n# b";
    assert "\n# b"[1..] == "# b";
    assert HeadingGap("# b") == "# b" by {
      assert "# b"[1..] == " b";
      assert " b"[1..] == "b";
      assert "b"[1..] == [];
    }
  }

  /** Without backticks the code-block rules leave the text alone. */
  lemma {:induction false} NoFenceUnchanged(s: string)
    requires '`' !in s
    ensures CodeOpen(s) == s && CodeClose(s) == s
    decreases |s|
  {
    if s != [] {
      assert s[0] != '`' && '`' !in s[1..];
      if |s| >= 3 { assert s[..3][0] == s[0]; }
      if |s| >= 5 { assert s[..5][2] == s[2]; }
      NoFenceUnchanged(s[1..]);
      assert s == [s[0]] + s[1..];
    }
  }

  /** The lines of a text, each already right-stripped, are left alone. */
  lemma StripLinesOf(lines: seq<string>)
    requires |lines| >= 1
    requires forall k :: 0 <= k < |lines| ==> CleanLine(lines[k])
    ensures StripLines(Join(lines, "\n")) == Join(lines, "\n")
  {
    SplitJoin(lines, '\n');
    var m := Map(lines, RStrip);
    assert m == lines;
  }

  /** Cleaning is not idempotent: for characters `x` and `y` that are not
      whitespace, '#' or a backtick, "x\n# y" cleans to "x\n\n# y\n", and a
      second pass adds another newline before the heading, so the output
      holds three newlines in a row. */
  lemma CleanNotIdempotent(x: char, y: char)
    requires Plain(x) && Plain(y)
    ensures Clean([x, '\n', '#', ' ', y]) == [x, '\n', '\n', '#', ' ', y, '\n']
    ensures Clean([x, '\n', '\n', '#', ' ', y, '\n']) == [x, '\n', '\n', '\n', '#', ' ', y, '\n']
  {
    var g1, g2 := [x, '\n', '\n', '#', ' ', y], [x, '\n', '\n', '\n', '#', ' ', y, '\n'];
    assert Clean([x, '\n', '#', ' ', y]) == RStrip(StripLines(CodeClose(CodeOpen(g1)))) + "\n" by {
      FirstPass(x, y);
      ListSpacingIdentity(g1);
    }
    assert Clean([x, '\n', '#', ' ', y]) == g1 + "\n" by {
      NoFenceUnchanged(g1);
      FirstPassLines(x, y);
    }
    assert Clean([x, '\n', '\n', '#', ' ', y, '\n']) == RStrip(StripLines(CodeClose(CodeOpen(g2)))) + "\n" by {
      SecondPass(x, y);
      ListSpacingIdentity(g2);
    }
    assert Clean([x, '\n', '\n', '#', ' ', y, '\n']) == g2 by {
      NoFenceUnchanged(g2);
      SecondPassLines(x, y);
    }
  }

  predicate Plain(c: char)
  {
    !IsSpace(c) && c != '#' && c != '`'
  }

  lemma CollapseKeep(c: char, t: string)
    requires !IsSpace(c)
    ensures CollapseBlank([c] + t) == [c] + CollapseBlank(t)
  {
    assert ([c] + t)[1..] == t;
  }

  /** A whitespace run of fewer than three newlines, then a non-space
      character or the end, is kept. */
  lemma CollapseShortRun(w: string, t: string)
    requires w != [] && forall k :: 0 <= k < |w| ==> IsSpace(w[k])
    requires t == [] || !IsSpace(t[0])
    requires Count(w, "\n") < 3
    ensures CollapseBlank(w + t) == w + CollapseBlank(t)
  {
    var s := w + t;
    RunOfConcat(w, t);
    assert s[..|w|] == w && s[|w|..] == t;
  }

  lemma NewlinePairCount()
    ensures Count("\n\n", "\n") == 2
  {
    assert "\n\n"[1..] == "\n";
  }

  lemma {:induction false} CountAbsent(s: string, c: char)
    requires c !in s
    ensures Count(s, [c]) == 0
    decreases |s|
  {
    if s != [] {
      assert s[..1][0] == s[0];
      CountAbsent(s[1..], c);
    }
  }

  lemma {:induction false} RunOfConcat(w: string, t: string)
    requires forall k :: 0 <= k < |w| ==> IsSpace(w[k])
    requires t == [] || !IsSpace(t[0])
    ensures SpaceRun(w + t) == |w|
    decreases |w|
  {
    if w != [] {
      RunOfConcat(w[1..], t);
      assert (w + t)[1..] == w[1..] + t;
    } else {
      assert w + t == t;
    }
  }

  lemma GapKeep(c: char, t: string)
    requires c != '\n' || t == [] || t[0] != '#'
    ensures HeadingGap([c] + t) == [c] + HeadingGap(t)
  {
    assert ([c] + t)[1..] == t;
  }

  lemma GapAdd(t: string)
    requires t != [] && t[0] == '#'
    ensures HeadingGap("\n" + t) == "\n\n" + HeadingGap(t)
  {
    assert ("\n" + t)[1..] == t;
  }

  lemma BreakKeep(c: char, t: string)
    requires c != '#'
    ensures HeadingBreak([c] + t) == [c] + HeadingBreak(t)
  {
    assert ([c] + t)[1..] == t;
  }

  /** The first pass: the three scanners before list spacing. */
  lemma FirstPass(x: char, y: char)
    requires Plain(x) && Plain(y)
    ensures HeadingBreak(HeadingGap(CollapseBlank([x, '\n', '#', ' ', y]))) == [x, '\n', '\n', '#', ' ', y]
  {
    FirstCollapse(x, y);
    FirstGap(x, y);
    FirstBreak(x, y);
  }

  lemma FirstCollapse(x: char, y: char)
    requires Plain(x) && Plain(y)
    ensures CollapseBlank([x, '\n', '#', ' ', y]) == [x, '\n', '#', ' ', y]
  {
    assert IsSpace('\n') && IsSpace(' ') && !IsSpace('#');
    var t0 := [y];
    var t1 := " " + t0;
    var t2 := "#" + t1;
    var t3 := "\n" + t2;
    var t4 := [x] + t3;
    assert CollapseBlank(t0) == t0 by { CollapseKeep(y, []); assert [y] + [] == t0; }
    assert CollapseBlank(t1) == t1 by { CountAbsent(" ", '\n'); CollapseShortRun(" ", t0); }
    assert CollapseBlank(t2) == t2 by { CollapseKeep('#', t1); }
    assert CollapseBlank(t3) == t3 by { CollapseShortRun("\n", t2); }
    assert CollapseBlank(t4) == t4 by { CollapseKeep(x, t3); }
    assert t4 == [x, '\n', '#', ' ', y];
  }

  lemma FirstGap(x: char, y: char)
    requires Plain(x) && Plain(y)
    ensures HeadingGap([x, '\n', '#', ' ', y]) == [x, '\n', '\n', '#', ' ', y]
  {
    assert x != '\n' && y != '\n' by { assert IsSpace('\n'); }
    var t0 := [y];
    var t1 := " " + t0;
    var t2 := "#" + t1;
    var t3 := "\n" + t2;
    var t4 := [x] + t3;
    assert HeadingGap(t0) == t0 by { GapKeep(y, []); assert [y] + [] == t0; }
    assert HeadingGap(t1) == t1 by { GapKeep(' ', t0); }
    assert HeadingGap(t2) == t2 by { GapKeep('#', t1); }
    assert HeadingGap(t3) == "\n" + t3 by { GapAdd(t2); }
    assert HeadingGap(t4) == [x] + "\n" + t3 by { GapKeep(x, t3); }
    assert t4 == [x, '\n', '#', ' ', y];
    assert [x] + "\n" + t3 == [x, '\n', '\n', '#', ' ', y];
  }

  lemma FirstBreak(x: char, y: char)
    requires Plain(x) && Plain(y)
    ensures HeadingBreak([x, '\n', '\n', '#', ' ', y]) == [x, '\n', '\n', '#', ' ', y]
  {
    var h := ['#', ' ', y];
    assert y != '\n' by { assert IsSpace('\n'); }
    assert HeadingBreak(h) == h by {
      assert IndexOf(h, '\n') < 0 by { assert forall k :: 0 <= k < |h| ==> h[k] != '\n'; }
    }
    var t1 := "\n" + h;
    var t2 := "\n" + t1;
    var t3 := [x] + t2;
    BreakKeep('\n', h);
    BreakKeep('\n', t1);
    BreakKeep(x, t2);
    assert t3 == [x, '\n', '\n', '#', ' ', y];
  }

  lemma SecondPass(x: char, y: char)
    requires Plain(x) && Plain(y)
    ensures HeadingBreak(HeadingGap(CollapseBlank([x, '\n', '\n', '#', ' ', y, '\n'])))
      == [x, '\n', '\n', '\n', '#', ' ', y, '\n']
  {
    SecondCollapse(x, y);
    SecondGap(x, y);
    SecondBreak(x, y);
  }

  lemma SecondCollapse(x: char, y: char)
    requires Plain(x) && Plain(y)
    ensures CollapseBlank([x, '\n', '\n', '#', ' ', y, '\n']) == [x, '\n', '\n', '#', ' ', y, '\n']
  {
    var t3 := ['#', ' ', y, '\n'];
    var t4 := "\n\n" + t3;
    assert CollapseBlank(t3) == t3 by { HeadingLineCollapse(y); }
    assert CollapseBlank(t4) == t4 by {
      assert IsSpace('\n') && !IsSpace('#');
      NewlinePairCount();
      CollapseShortRun("\n\n", t3);
    }
    assert CollapseBlank([x] + t4) == [x] + t4 by { CollapseKeep(x, t4); }
    assert [x] + t4 == [x, '\n', '\n', '#', ' ', y, '\n'];
  }

  /** A heading line of one plain character and its newline is kept. */
  lemma HeadingLineCollapse(y: char)
    requires Plain(y)
    ensures CollapseBlank(['#', ' ', y, '\n']) == ['#', ' ', y, '\n']
  {
    assert IsSpace('\n') && IsSpace(' ') && !IsSpace('#');
    var t0 := "\n";
    var t1 := [y] + t0;
    var t2 := " " + t1;
    assert CollapseBlank(t0) == t0 by { CollapseShortRun("\n", []); assert "\n" + [] == t0; }
    assert CollapseBlank(t1) == t1 by { CollapseKeep(y, t0); }
    assert CollapseBlank(t2) == t2 by { CountAbsent(" ", '\n'); CollapseShortRun(" ", t1); }
    assert CollapseBlank("#" + t2) == "#" + t2 by { CollapseKeep('#', t2); }
    assert "#" + t2 == ['#', ' ', y, '\n'];
  }

  lemma SecondGap(x: char, y: char)
    requires Plain(x) && Plain(y)
    ensures HeadingGap([x, '\n', '\n', '#', ' ', y, '\n']) == [x, '\n', '\n', '\n', '#', ' ', y, '\n']
  {
    assert x != '\n' && y != '\n' by { assert IsSpace('\n'); }
    var t0 := "\n";
    var t1 := [y] + t0;
    var t2 := " " + t1;
    var t3 := "#" + t2;
    var t4 := "\n" + t3;
    var t5 := "\n" + t4;
    var t6 := [x] + t5;
    assert HeadingGap(t0) == t0 by { GapKeep('\n', []); assert "\n" + [] == t0; }
    assert HeadingGap(t1) == t1 by { GapKeep(y, t0); }
    assert HeadingGap(t2) == t2 by { GapKeep(' ', t1); }
    assert HeadingGap(t3) == t3 by { GapKeep('#', t2); }
    assert HeadingGap(t4) == "\n" + t4 by { GapAdd(t3); }
    assert HeadingGap(t5) == "\n\n" + t4 by { GapKeep('\n', t4); }
    assert HeadingGap(t6) == [x] + "\n\n" + t4 by { GapKeep(x, t5); }
    assert t6 == [x, '\n', '\n', '#', ' ', y, '\n'];
    assert [x] + "\n\n" + t4 == [x, '\n', '\n', '\n', '#', ' ', y, '\n'];
  }

  lemma SecondBreak(x: char, y: char)
    requires Plain(x) && Plain(y)
    ensures HeadingBreak([x, '\n', '\n', '\n', '#', ' ', y, '\n']) == [x, '\n', '\n', '\n', '#', ' ', y, '\n']
  {
    var h := ['#', ' ', y, '\n'];
    assert y != '\n' by { assert IsSpace('\n'); }
    assert HeadingBreak(h) == h by {
      assert IndexOf(h, '\n') == 3 by {
        assert h[3] == '\n';
        assert forall k :: 0 <= k < 3 ==> h[k] != '\n';
      }
      assert h[..4] == h && h[4..] == [];
    }
    var t1 := "\n" + h;
    var t2 := "\n" + t1;
    var t3 := "\n" + t2;
    var t4 := [x] + t3;
    BreakKeep('\n', h);
    BreakKeep('\n', t1);
    BreakKeep('\n', t2);
    BreakKeep(x, t3);
    assert t4 == [x, '\n', '\n', '\n', '#', ' ', y, '\n'];
  }

  lemma JoinCons(a: string, rest: seq<string>, sep: string)
    requires |rest| >= 1
    ensures Join([a] + rest, sep) == a + sep + Join(rest, sep)
  {
    assert ([a] + rest)[1..] == rest;
  }

  lemma FirstPassLines(x: char, y: char)
    requires Plain(x) && Plain(y)
    ensures RStrip(StripLines([x, '\n', '\n', '#', ' ', y])) == [x, '\n', '\n', '#', ' ', y]
  {
    assert IsSpace('\n');
    var h := ['#', ' ', y];
    var lines := [[x], "", h];
    assert Join(lines, "\n") == [x, '\n', '\n', '#', ' ', y] by {
      assert Join([h], "\n") == h;
      JoinCons("", [h], "\n");
      assert [[x]] + ["", h] == lines && [""] + [h] == ["", h];
      JoinCons([x], ["", h], "\n");
    }
    StripLinesOf(lines);
  }

  lemma SecondPassLines(x: char, y: char)
    requires Plain(x) && Plain(y)
    ensures RStrip(StripLines([x, '\n', '\n', '\n', '#', ' ', y, '\n'])) + "\n"
      == [x, '\n', '\n', '\n', '#', ' ', y, '\n']
  {
    assert IsSpace('\n');
    var g := [x, '\n', '\n', '\n', '#', ' ', y, '\n'];
    var h := ['#', ' ', y];
    var lines := [[x], "", "", h, ""];
    assert Join(lines, "\n") == g by {
      assert Join([""], "\n") == "";
      JoinCons(h, [""], "\n");
      JoinCons("", [h, ""], "\n");
      JoinCons("", ["", h, ""], "\n");
      JoinCons([x], ["", "", h, ""], "\n");
      assert [h] + [""] == [h, ""] && [""] + [h, ""] == ["", h, ""];
      assert [""] + ["", h, ""] == ["", "", h, ""] && [[x]] + ["", "", h, ""] == lines;
    }
    StripLinesOf(lines);
    assert RStrip(g) == g[..|g| - 1] by {
      assert g[..|g| - 1][|g| - 2] == y;
    }
  }
}
