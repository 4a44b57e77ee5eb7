/** The checks of `MarkdownWriter.validate_markdown`
    (src/claude_clis/tools/doc2md/markdown_writer.py): the issues a text
    raises, as functions, and the accumulating loops of the source, proved to
    produce them. The `^(#{1,6})` search over line starts is taken line by
    line over the '\n'-split text; the empty-link patterns are scanners. */
module MarkdownValidate {
  import opened Base
  import opened Text

  const UnbalancedMsg := "Unbalanced code blocks (``` count is odd)"

  /** `line.count('|')`. */
  function PipeCount(line: string): (n: nat)
    ensures n == 0 <==> '|' !in line
  {
    if line == [] then 0 else (if line[0] == '|' then 1 else 0) + PipeCount(line[1..])
  }

  /** `'|' in line and line.count('|') < 2`. */
  predicate Malformed(line: string)
  {
    '|' in line && PipeCount(line) < 2
  }

  function TableMsg(i: nat): string
  {
    "Line " + NatToString(i) + ": Possible malformed table"
  }

  /** The table issues of the first n lines, numbered from 1. */
  function TableIssues(lines: seq<string>, n: nat): seq<string>
    requires n <= |lines|
  {
    if n == 0 then []
    else TableIssues(lines, n - 1) + (if Malformed(lines[n - 1]) then [TableMsg(n)] else [])
  }

  /** The number of '#' a line starts with. */
  function LeadingHashes(line: string): (n: nat)
    ensures n <= |line| && forall k :: 0 <= k < n ==> line[k] == '#'
    ensures n == |line| || line[n] != '#'
  {
    if line != [] && line[0] == '#' then 1 + LeadingHashes(line[1..]) else 0
  }

  /** The heading levels of the first n lines: `#{1,6}` takes up to six of
      the hashes a line starts with. */
  function Levels(lines: seq<string>, n: nat): (ls: seq<nat>)
    requires n <= |lines|
    ensures forall k :: 0 <= k < |ls| ==> 1 <= ls[k] <= 6
  {
    if n == 0 then []
    else
      var line := lines[n - 1];
      Levels(lines, n - 1) + (if line != [] && line[0] == '#' then [Min(LeadingHashes(line), 6)] else [])
  }

  function SkipMsg(a: nat, b: nat): string
  {
    "Heading hierarchy " + "skip detected (jumped from h" + NatToString(a) + " to h" + NatToString(b) + ")"
  }

  /** The skips among the first n levels: a level more than one deeper than
      the one before it. */
  function HeadingIssues(levels: seq<nat>, n: nat): seq<string>
    requires n <= |levels|
  {
    if n <= 1 then []
    else
      HeadingIssues(levels, n - 1)
      + (if levels[n - 1] > levels[n - 2] + 1 then [SkipMsg(levels[n - 2], levels[n - 1])] else [])
  }

  /** The first index k >= q with s[k] == ']'. */
  function CloseBracket(s: string, q: nat): (r: Option<nat>)
    requires q <= |s|
    ensures r.Some? ==> q <= r.value < |s| && s[r.value] == ']'
    ensures forall k :: q <= k < (if r.Some? then r.value else |s|) ==> s[k] != ']'
    decreases |s| - q
  {
    if q == |s| then None
    else if s[q] == ']' then Some(q)
    else CloseBracket(s, q + 1)
  }

  function Blanks(s: string, q: nat): (n: nat)
    requires q <= |s|
    ensures q + n <= |s| && forall k :: q <= k < q + n ==> IsSpace(s[k])
    ensures q + n == |s| || !IsSpace(s[q + n])
    decreases |s| - q
  {
    if q < |s| && IsSpace(s[q]) then 1 + Blanks(s, q + 1) else 0
  }

  /** The end of a match of `\[([^\]]*)\]\(\s*\)` at p: '[', everything up
      to the first ']', then '(', whitespace and ')'. */
  function EmptyLinkAt(s: string, p: nat): (r: Option<nat>)
    requires p < |s|
    ensures r.Some? ==> p + 4 <= r.value <= |s| && s[p] == '[' && s[r.value - 1] == ')'
  {
    if s[p] != '[' then None
    else
      match CloseBracket(s, p + 1)
      case None => None
      case Some(j) =>
        if j + 1 < |s| && s[j + 1] == '(' then
          var e := j + 2 + Blanks(s, j + 2);
          if e < |s| && s[e] == ')' then Some(e + 1) else None
        else None
  }

  /** `len(re.findall(link pattern, s))` from p on. */
  function EmptyLinks(s: string, p: nat): nat
    requires p <= |s|
    decreases |s| - p
  {
    if p == |s| then 0
    else
      match EmptyLinkAt(s, p)
      case Some(e) => 1 + EmptyLinks(s, e)
      case None => EmptyLinks(s, p + 1)
  }

  /** The same for `!` followed by the link pattern. */
  function EmptyImages(s: string, p: nat): nat
    requires p <= |s|
    decreases |s| - p
  {
    if p == |s| then 0
    else if s[p] == '!' && p + 1 < |s| && EmptyLinkAt(s, p + 1).Some? then
      1 + EmptyImages(s, EmptyLinkAt(s, p + 1).value)
    else EmptyImages(s, p + 1)
  }

  function LinksMsg(n: nat): string { "Empty links found: " + NatToString(n) + " instances" }

  function ImagesMsg(n: nat): string { "Empty images found: " + NatToString(n) + " instances" }

  function LinkIssues(s: string): seq<string>
  {
    var links := EmptyLinks(s, 0);
    var images := EmptyImages(s, 0);
    (if links > 0 then [LinksMsg(links)] else []) + (if images > 0 then [ImagesMsg(images)] else [])
  }

  function CodeIssues(s: string): seq<string>
  {
    if Count(s, "```") % 2 != 0 then [UnbalancedMsg] else []
  }

  /** `validate_markdown`: the issues in the order the checks run. */
  function Issues(s: string): seq<string>
  {
    var lines := Split(s, '\n');
    var levels := Levels(lines, |lines|);
    CodeIssues(s) + TableIssues(lines, |lines|) + HeadingIssues(levels, |levels|) + LinkIssues(s)
  }

  /** `validate_markdown`: each check appends its issues in turn. */
  method ValidateMarkdown(content: string) returns (issues: seq<string>)
    ensures issues == Issues(content)
  {
    issues := [];
    var codeBlockCount := Count(content, "```");
    if codeBlockCount % 2 != 0 {
      issues := issues + [UnbalancedMsg];
    }
    assert issues == CodeIssues(content);
    var lines := Split(content, '\n');
    var tables := CheckTables(lines);
    var levels := HeadingLevels(lines);
    var skips := CheckHierarchy(levels);
    issues := issues + tables + skips;
    ghost var checked := issues;
    var emptyLinks := EmptyLinks(content, 0);
    if emptyLinks > 0 {
      issues := issues + [LinksMsg(emptyLinks)];
    }
    var emptyImages := EmptyImages(content, 0);
    if emptyImages > 0 {
      issues := issues + [ImagesMsg(emptyImages)];
    }
    assert issues == checked + LinkIssues(content);
    IssuesParts(content, checked, issues);
  }

  lemma IssuesParts(s: string, checked: seq<string>, issues: seq<string>)
    requires checked == CodeIssues(s) + TableIssues(Split(s, '\n'), |Split(s, '\n')|)
      + HeadingIssues(Levels(Split(s, '\n'), |Split(s, '\n')|), |Levels(Split(s, '\n'), |Split(s, '\n')|)|)
    requires issues == checked + LinkIssues(s)
    ensures issues == Issues(s)
  {
  }

  /** The loop over the numbered lines. */
  method CheckTables(lines: seq<string>) returns (found: seq<string>)
    ensures found == TableIssues(lines, |lines|)
  {
    found := [];
    for i := 0 to |lines|
      invariant found == TableIssues(lines, i)
    {
      var line := lines[i];
      if '|' in line && PipeCount(line) < 2 {
        found := found + [TableMsg(i + 1)];
      }
    }
  }

  /** The loop over the `^(#{1,6})` matches. */
  method HeadingLevels(lines: seq<string>) returns (levels: seq<nat>)
    ensures levels == Levels(lines, |lines|)
  {
    levels := [];
    for i := 0 to |lines|
      invariant levels == Levels(lines, i)
    {
      var line := lines[i];
      if line != [] && line[0] == '#' {
        levels := levels + [Min(LeadingHashes(line), 6)];
      }
    }
  }

  /** The loop over consecutive heading levels. */
  method CheckHierarchy(levels: seq<nat>) returns (found: seq<string>)
    ensures found == HeadingIssues(levels, |levels|)
  {
    found := [];
    if |levels| == 0 {
      return;
    }
    for i := 1 to |levels|
      invariant found == HeadingIssues(levels, i)
    {
      if levels[i] > levels[i - 1] + 1 {
        found := found + [SkipMsg(levels[i - 1], levels[i])];
      }
    }
  }

  lemma MalformedIff(line: string)
    ensures Malformed(line) <==> PipeCount(line) == 1
  {
  }

  lemma {:induction false} TableMsgInjective(i: nat, j: nat)
    requires TableMsg(i) == TableMsg(j)
    ensures i == j
  {
    var a, b := NatToString(i), NatToString(j);
    var tail := ": Possible malformed table";
    assert TableMsg(i) == "Line " + a + tail && TableMsg(j) == "Line " + b + tail;
    assert |a| == |b|;
    assert a == TableMsg(i)[5..5 + |a|];
    assert b == TableMsg(j)[5..5 + |b|];
    NatToStringInjective(i, j);
  }

  lemma {:induction false} TableIssuesIn(lines: seq<string>, n: nat, i: nat)
    requires n <= |lines| && 1 <= i
    ensures TableMsg(i) in TableIssues(lines, n) <==> i <= n && Malformed(lines[i - 1])
  {
    if n > 0 {
      TableIssuesIn(lines, n - 1, i);
      if TableMsg(i) == TableMsg(n) {
        TableMsgInjective(i, n);
      }
    }
  }

  lemma {:induction false} TableIssuesEmpty(lines: seq<string>, n: nat)
    requires n <= |lines|
    ensures TableIssues(lines, n) == [] <==> forall k :: 0 <= k < n ==> !Malformed(lines[k])
  {
    if n > 0 {
      TableIssuesEmpty(lines, n - 1);
    }
  }

  /** Every message of `HeadingIssues` names a rise of more than one level,
      and every such rise has its message. */
  lemma {:induction false} HeadingIssuesExact(levels: seq<nat>, n: nat)
    requires n <= |levels|
    ensures forall m :: m in HeadingIssues(levels, n) ==>
      exists i :: 1 <= i < n && levels[i] > levels[i - 1] + 1 && m == SkipMsg(levels[i - 1], levels[i])
    ensures forall i :: 1 <= i < n && levels[i] > levels[i - 1] + 1 ==>
      SkipMsg(levels[i - 1], levels[i]) in HeadingIssues(levels, n)
  {
    if n > 1 {
      HeadingIssuesExact(levels, n - 1);
    }
  }

  lemma {:induction false} HeadingIssuesHead(levels: seq<nat>, n: nat)
    requires n <= |levels|
    ensures forall m :: m in HeadingIssues(levels, n) ==> m != [] && m[0] == 'H'
  {
    if n > 1 {
      HeadingIssuesHead(levels, n - 1);
      SkipMsgHead(levels[n - 2], levels[n - 1]);
    }
  }

  lemma SkipMsgHead(a: nat, b: nat)
    ensures SkipMsg(a, b) != [] && SkipMsg(a, b)[0] == 'H'
  {
    var r := "skip detected (jumped from h" + NatToString(a) + " to h" + NatToString(b) + ")";
    assert SkipMsg(a, b) == "Heading hierarchy " + r;
  }

  lemma TableMsgHead(i: nat)
    ensures TableMsg(i) != [] && TableMsg(i)[0] == 'L'
  {
    assert TableMsg(i) == "Line " + (NatToString(i) + ": Possible malformed table");
  }

  lemma LinkIssuesHead(s: string)
    ensures forall m :: m in LinkIssues(s) ==> m != [] && m[0] == 'E'
  {
    var a, b := NatToString(EmptyLinks(s, 0)), NatToString(EmptyImages(s, 0));
    assert LinksMsg(EmptyLinks(s, 0)) == "Empty links found: " + (a + " instances");
    assert ImagesMsg(EmptyImages(s, 0)) == "Empty images found: " + (b + " instances");
  }

  /** A heading that goes back up, stays or goes one deeper is never
      reported: the skip issues are empty exactly when no level rises by
      more than one. */
  lemma NoSkipIff(levels: seq<nat>)
    ensures HeadingIssues(levels, |levels|) == [] <==>
      forall i :: 1 <= i < |levels| ==> levels[i] <= levels[i - 1] + 1
  {
    HeadingIssuesExact(levels, |levels|);
    if HeadingIssues(levels, |levels|) != [] {
      var m := HeadingIssues(levels, |levels|)[0];
      assert m in HeadingIssues(levels, |levels|);
    }
  }

  /** Line i (from 1) is reported as a malformed table exactly when it holds
      a single '|'. */
  lemma TableFlagged(s: string, i: nat)
    requires 1 <= i <= |Split(s, '\n')|
    ensures TableMsg(i) in Issues(s) <==> PipeCount(Split(s, '\n')[i - 1]) == 1
  {
    var lines := Split(s, '\n');
    var levels := Levels(lines, |lines|);
    var m := TableMsg(i);
    TableMsgElsewhere(s, levels, i);
    assert m in TableIssues(lines, |lines|) <==> PipeCount(lines[i - 1]) == 1 by {
      TableIssuesIn(lines, |lines|, i);
      MalformedIff(lines[i - 1]);
    }
    InSecond(m, CodeIssues(s), TableIssues(lines, |lines|), HeadingIssues(levels, |levels|), LinkIssues(s));
  }

  lemma TableMsgElsewhere(s: string, levels: seq<nat>, i: nat)
    ensures TableMsg(i) !in CodeIssues(s) && TableMsg(i) !in HeadingIssues(levels, |levels|)
    ensures TableMsg(i) !in LinkIssues(s)
  {
    var m := TableMsg(i);
    assert m != [] && m[0] == 'L' by { TableMsgHead(i); }
    assert m !in CodeIssues(s) by {
      assert UnbalancedMsg[0] == 'U';
    }
    assert m !in HeadingIssues(levels, |levels|) by {
      HeadingIssuesHead(levels, |levels|);
    }
    assert m !in LinkIssues(s) by {
      LinkIssuesHead(s);
    }
  }

  lemma InSecond<T>(x: T, a: seq<T>, b: seq<T>, c: seq<T>, d: seq<T>)
    requires x !in a && x !in c && x !in d
    ensures x in a + b + c + d <==> x in b
  {
  }

  /** A text raises no issue exactly when its ``` count is even, no line
      holds a single '|', no heading skips a level and there are no empty
      links or images. */
  lemma CleanIff(s: string)
    ensures Issues(s) == [] <==>
      Count(s, "```") % 2 == 0
      && (forall k :: 0 <= k < |Split(s, '\n')| ==> PipeCount(Split(s, '\n')[k]) != 1)
      && (forall i :: 1 <= i < |Levels(Split(s, '\n'), |Split(s, '\n')|)| ==>
            Levels(Split(s, '\n'), |Split(s, '\n')|)[i] <= Levels(Split(s, '\n'), |Split(s, '\n')|)[i - 1] + 1)
      && EmptyLinks(s, 0) == 0 && EmptyImages(s, 0) == 0
  {
    var lines := Split(s, '\n');
    var levels := Levels(lines, |lines|);
    TableIssuesEmpty(lines, |lines|);
    NoSkipIff(levels);
    forall k | 0 <= k < |lines|
      ensures Malformed(lines[k]) <==> PipeCount(lines[k]) == 1
    {
      MalformedIff(lines[k]);
    }
  }

  /** `![t]()` with no ']' in t is found by both patterns: one empty link
      and one empty image. */
  lemma ImageIsAlsoLink(t: string)
    requires ']' !in t
    ensures EmptyLinks("![" + t + "]()", 0) == 1
    ensures EmptyImages("![" + t + "]()", 0) == 1
    ensures LinkIssues("![" + t + "]()") == [LinksMsg(1), ImagesMsg(1)]
  {
    var s := "![" + t + "]()";
    var c := 2 + |t|;
    assert |s| == c + 3;
    assert s[0] == '!' && s[1] == '[' && s[c] == ']' && s[c + 1] == '(' && s[c + 2] == ')';
    assert forall k :: 2 <= k < c ==> s[k] == t[k - 2];
    assert CloseBracket(s, 2) == Some(c);
    assert Blanks(s, c + 2) == 0;
    assert EmptyLinkAt(s, 1) == Some(|s|);
    assert EmptyLinkAt(s, 0) == None;
    assert EmptyLinks(s, 1) == 1;
  }
}
