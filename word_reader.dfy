/** `WordReader` (src/claude_clis/tools/doc2md/readers/word.py) over abstract
    document values: the body is the sequence of its elements in document
    order; a paragraph has its text, its style name (if any) and its runs; a
    run has its text and whether it is bold and italic; a table is its rows
    of raw cell texts. */
module WordReader {
  import opened Base
  import opened Text
  import Paths

  datatype Run = Run(text: string, bold: bool, italic: bool)

  datatype Paragraph = Paragraph(text: string, style: Option<string>, runs: seq<Run>)

  /** A body element; anything other than a paragraph or a table is
      skipped. */
  datatype Element = Para(p: Paragraph) | Table(rows: seq<seq<string>>) | Other

  // ---------------------------------------------------------------- runs

  /** The number of '*' put on each side of a run's text. */
  function Stars(r: Run): nat
  {
    if r.bold && r.italic then 3 else if r.bold then 2 else if r.italic then 1 else 0
  }

  /** One run, with its emphasis markers. */
  function FormatRun(r: Run): string
  {
    if r.bold && r.italic then "***" + r.text + "***"
    else if r.bold then "**" + r.text + "**"
    else if r.italic then "*" + r.text + "*"
    else r.text
  }

  /** The run's text sits between equal runs of markers: three for bold and
      italic, two for bold, one for italic, none otherwise. */
  lemma FormatRunMarkers(r: Run)
    ensures FormatRun(r) == Repeat('*', Stars(r)) + r.text + Repeat('*', Stars(r))
  {
    var m := Repeat('*', Stars(r));
    if Stars(r) == 3 { assert m == "***"; }
    else if Stars(r) == 2 { assert m == "**"; }
    else if Stars(r) == 1 { assert m == "*"; }
    else { assert m == ""; }
  }

  /** The formatted parts of the first n runs; empty runs are skipped. */
  function RunParts(runs: seq<Run>, n: nat): seq<string>
    requires n <= |runs|
  {
    if n == 0 then []
    else RunParts(runs, n - 1) + (if runs[n - 1].text == "" then [] else [FormatRun(runs[n - 1])])
  }

  /** `_format_runs`. */
  method FormatRuns(runs: seq<Run>) returns (s: string)
    ensures s == Join(RunParts(runs, |runs|), "")
  {
    var formattedParts: seq<string> := [];
    for i := 0 to |runs|
      invariant formattedParts == RunParts(runs, i)
    {
      var run := runs[i];
      if run.text == "" {
        continue;
      }
      var text := run.text;
      if run.bold && run.italic {
        text := "***" + text + "***";
      } else if run.bold {
        text := "**" + text + "**";
      } else if run.italic {
        text := "*" + text + "*";
      }
      formattedParts := formattedParts + [text];
    }
    s := Join(formattedParts, "");
  }

  /** The plain concatenation of the first n run texts. */
  function RunTexts(runs: seq<Run>, n: nat): string
    requires n <= |runs|
  {
    if n == 0 then "" else RunTexts(runs, n - 1) + runs[n - 1].text
  }

  /** Without emphasis, the runs come out as their texts run together:
      skipping the empty ones changes nothing. */
  lemma {:induction false} PlainRuns(runs: seq<Run>, n: nat)
    requires n <= |runs|
    requires forall k :: 0 <= k < n ==> !runs[k].bold && !runs[k].italic
    ensures Join(RunParts(runs, n), "") == RunTexts(runs, n)
  {
    if n > 0 {
      PlainRuns(runs, n - 1);
      var ps := RunParts(runs, n - 1);
      var t := runs[n - 1].text;
      assert RunTexts(runs, n) == RunTexts(runs, n - 1) + t;
      if t != "" {
        assert FormatRun(runs[n - 1]) == t;
        assert RunParts(runs, n) == ps + [t];
        JoinOntoEmptySep(ps, t);
      } else {
        assert RunParts(runs, n) == ps;
      }
    }
  }

  lemma JoinOntoEmptySep(ps: seq<string>, t: string)
    ensures Join(ps + [t], "") == Join(ps, "") + t
  {
    if ps == [] {
      assert ps + [t] == [t];
    } else {
      JoinAppend(ps, [t], "");
    }
  }

  // ---------------------------------------------------------- paragraphs

  /** The lowercased style name, "" without a style. */
  function StyleName(p: Paragraph): string
  {
    match p.style
    case None => ""
    case Some(n) => Lower(n)
  }

  /** The heading name of level k. */
  function HeadingStyle(k: nat): string
    requires 1 <= k <= 9
  {
    "heading " + [(('0' as int) + k) as char]
  }

  /** The heading level a style name selects, 0 for none: the names are
      tested in order, and "title" anywhere in the name, "Subtitle" among
      them, gives the top level. */
  function Level(style: string): (k: nat)
    ensures k <= 6
  {
    if Contains(style, HeadingStyle(1)) || Contains(style, "title") then 1
    else if Contains(style, HeadingStyle(2)) then 2
    else if Contains(style, HeadingStyle(3)) then 3
    else if Contains(style, HeadingStyle(4)) then 4
    else if Contains(style, HeadingStyle(5)) then 5
    else if Contains(style, HeadingStyle(6)) then 6
    else 0
  }

  /** `_process_paragraph`: "" for a blank paragraph, the heading marker and
      the stripped text for a heading style, otherwise the formatted runs. */
  function ProcessParagraph(p: Paragraph): string
  {
    var text := Strip(p.text);
    if text == "" then ""
    else
      var level := Level(StyleName(p));
      if level > 0 then Repeat('#', level) + " " + text
      else Join(RunParts(p.runs, |p.runs|), "")
  }

  /** A paragraph whose style is "Heading k" (any case), 1 <= k <= 6, becomes
      k '#'s, a space and its stripped text. */
  lemma HeadingParagraph(p: Paragraph, k: nat)
    requires 1 <= k <= 6 && StyleName(p) == HeadingStyle(k)
    requires Strip(p.text) != ""
    ensures ProcessParagraph(p) == Repeat('#', k) + " " + Strip(p.text)
  {
    assert Level(HeadingStyle(k)) == k by {
      HeadingLevel(k);
    }
    HeadingOfLevel(p, k);
  }

  lemma HeadingLevel(k: nat)
    requires 1 <= k <= 6
    ensures Level(HeadingStyle(k)) == k
  {
    var style := HeadingStyle(k);
    assert !Contains(style, "title") by {
      NoTitle(k);
    }
    assert forall j :: 1 <= j <= 6 ==> (Contains(style, HeadingStyle(j)) <==> j == k) by {
      forall j | 1 <= j <= 6
        ensures Contains(style, HeadingStyle(j)) <==> j == k
      {
        ContainsShort(style, HeadingStyle(j));
        if j != k {
          assert style[8] != HeadingStyle(j)[8];
        }
      }
    }
  }

  lemma NoTitle(k: nat)
    requires 1 <= k <= 9
    ensures !Contains(HeadingStyle(k), "title")
  {
    var s := HeadingStyle(k);
    NotFound(s, "title", 0);
  }

  /** No occurrence of `sub` starting at or after q when its first
      character does not occur there. */
  lemma {:induction false} NotFound(s: string, sub: string, q: nat)
    requires sub != [] && q <= |s|
    requires forall j :: q <= j < |s| ==> s[j] != sub[0]
    ensures !Contains(s[q..], sub)
    decreases |s| - q
  {
    if q < |s| {
      assert s[q..][1..] == s[q + 1..];
      NotFound(s, sub, q + 1);
    }
  }

  /** "Subtitle" contains "title", so a subtitle becomes a top-level
      heading. */
  lemma SubtitleIsTopLevel(p: Paragraph)
    requires StyleName(p) == "subtitle" && Strip(p.text) != ""
    ensures ProcessParagraph(p) == "# " + Strip(p.text)
  {
    var style := StyleName(p);
    assert Level(style) == 1 by {
      assert style[3..8] == "title";
      ContainsAt(style, "title", 3);
    }
    HeadingOfLevel(p, 1);
    assert Repeat('#', 1) == "#";
  }

  /** A non-blank paragraph whose style selects a level becomes that many
      '#'s, a space and its stripped text. */
  lemma HeadingOfLevel(p: Paragraph, k: nat)
    requires Strip(p.text) != "" && Level(StyleName(p)) == k && k > 0
    ensures ProcessParagraph(p) == Repeat('#', k) + " " + Strip(p.text)
  {
  }

  // -------------------------------------------------------------- tables

  /** A cell's text: stripped, inner newlines turned into spaces. */
  function CellText(raw: string): (c: string)
    ensures '\n' !in c && |c| == |Strip(raw)|
  {
    var t := Strip(raw);
    seq(|t|, k requires 0 <= k < |t| => if t[k] == '\n' then ' ' else t[k])
  }

  /** The rows with cleaned cells. */
  function Data(rows: seq<seq<string>>): (d: seq<seq<string>>)
    ensures |d| == |rows| && forall i :: 0 <= i < |d| ==> |d[i]| == |rows[i]|
  {
    seq(|rows|, i requires 0 <= i < |rows| => seq(|rows[i]|, j requires 0 <= j < |rows[i]| => CellText(rows[i][j])))
  }

  /** A data row padded with "" or cut to n cells. */
  function Fit(row: seq<string>, n: nat): (r: seq<string>)
    ensures |r| == n
    ensures forall k :: 0 <= k < n ==> r[k] == (if k < |row| then row[k] else "")
  {
    if |row| >= n then row[..n] else row + seq(n - |row|, _ => "")
  }

  function RowLine(cells: seq<string>): string
  {
    "| " + Join(cells, " | ") + " |"
  }

  function RuleRow(n: nat): (r: seq<string>)
    ensures |r| == n && forall k :: 0 <= k < n ==> r[k] == "---"
  {
    seq(n, _ => "---")
  }

  /** The lines of the table: header, rule, then the data rows fitted to the
      header's width. */
  function TableLines(rows: seq<seq<string>>): (ls: seq<string>)
    requires rows != []
    ensures |ls| == |rows| + 1
  {
    LinesOf(Data(rows))
  }

  /** Header, rule and fitted rows of cleaned table data. */
  function LinesOf(d: seq<seq<string>>): (ls: seq<string>)
    requires d != []
    ensures |ls| == |d| + 1
  {
    [RowLine(d[0]), RowLine(RuleRow(|d[0]|))] + FittedLines(d[1..], |d[0]|)
  }

  lemma LinesOfAt(d: seq<seq<string>>, i: nat)
    requires 1 <= i < |d|
    ensures LinesOf(d)[i + 1] == RowLine(Fit(d[i], |d[0]|))
  {
    assert LinesOf(d)[i + 1] == FittedLines(d[1..], |d[0]|)[i - 1];
    FittedLineAt(d[1..], |d[0]|, i - 1);
    assert d[1..][i - 1] == d[i];
  }

  /** The data lines: each row fitted to n cells. */
  function FittedLines(d: seq<seq<string>>, n: nat): (ls: seq<string>)
    ensures |ls| == |d|
  {
    if d == [] then [] else [RowLine(Fit(d[0], n))] + FittedLines(d[1..], n)
  }

  lemma {:induction false} FittedLineAt(d: seq<seq<string>>, n: nat, j: nat)
    requires j < |d|
    ensures FittedLines(d, n)[j] == RowLine(Fit(d[j], n))
  {
    if j > 0 {
      FittedLineAt(d[1..], n, j - 1);
      assert d[1..][j - 1] == d[j];
    }
  }

  /** `_process_table`. */
  function TableMarkdown(rows: seq<seq<string>>): string
  {
    if rows == [] then "" else Join(TableLines(rows), "\n")
  }

  /** A table without rows gives nothing; otherwise the lines are the
      header row of cleaned cells, a rule of one "---" per header cell, and
      each further row fitted to the header's cell count. */
  lemma TableMarkdownShape(rows: seq<seq<string>>)
    ensures rows == [] ==> TableMarkdown(rows) == ""
    ensures rows != [] ==>
      var ls := TableLines(rows);
      TableMarkdown(rows) == Join(ls, "\n")
      && ls[0] == RowLine(Data(rows)[0])
      && ls[1] == RowLine(RuleRow(|rows[0]|))
      && forall i :: 1 <= i < |rows| ==> ls[i + 1] == RowLine(Fit(Data(rows)[i], |rows[0]|))
  {
    if rows != [] {
      forall i | 1 <= i < |rows|
        ensures TableLines(rows)[i + 1] == RowLine(Fit(Data(rows)[i], |rows[0]|))
      {
        TableLineAt(rows, i);
      }
    }
  }

  /** The table loops: cleaning every cell, then header, rule and rows,
      padding each short row cell by cell. */
  method ProcessTable(rows: seq<seq<string>>) returns (md: string)
    ensures md == TableMarkdown(rows)
  {
    if rows == [] {
      return "";
    }
    var tableData := CleanRows(rows);
    var header := tableData[0];
    ghost var ls := TableLines(rows);
    var markdownLines := [RowLine(header), RowLine(RuleRow(|header|))];
    assert markdownLines == ls[..2];
    for i := 1 to |tableData|
      invariant markdownLines == ls[..i + 1]
    {
      var row := PadRow(tableData[i], |header|);
      assert ls[i + 1] == RowLine(row[..|header|]) by { TableLineAt(rows, i); }
      assert ls[..i + 2] == ls[..i + 1] + [ls[i + 1]] by { PrefixSnoc(ls, i + 1); }
      markdownLines := markdownLines + [RowLine(row[..|header|])];
    }
    assert markdownLines == ls;
    md := Join(markdownLines, "\n");
  }

  /** Line i + 1 of the table is data row i fitted to the header. */
  lemma TableLineAt(rows: seq<seq<string>>, i: nat)
    requires 1 <= i < |rows|
    ensures TableLines(rows)[i + 1] == RowLine(Fit(Data(rows)[i], |Data(rows)[0]|))
  {
    LinesOfAt(Data(rows), i);
  }

  lemma PrefixSnoc<T>(s: seq<T>, n: nat)
    requires n < |s|
    ensures s[..n + 1] == s[..n] + [s[n]]
  {
  }

  /** The loops that read every row's cells. */
  method CleanRows(rows: seq<seq<string>>) returns (tableData: seq<seq<string>>)
    ensures tableData == Data(rows)
  {
    tableData := [];
    for i := 0 to |rows|
      invariant tableData == Data(rows)[..i]
    {
      var rowData := CleanCells(rows[i]);
      assert rowData == Data(rows)[i];
      tableData := tableData + [rowData];
    }
  }

  method CleanCells(row: seq<string>) returns (rowData: seq<string>)
    ensures |rowData| == |row| && forall j :: 0 <= j < |row| ==> rowData[j] == CellText(row[j])
  {
    rowData := [];
    for j := 0 to |row|
      invariant |rowData| == j && forall m :: 0 <= m < j ==> rowData[m] == CellText(row[m])
    {
      rowData := rowData + [CellText(row[j])];
    }
  }

  /** The `row.append("")` loop; the first n cells of its result are the
      fitted row. */
  method PadRow(row: seq<string>, n: nat) returns (padded: seq<string>)
    ensures |padded| >= n && padded[..n] == Fit(row, n)
  {
    padded := row;
    while |padded| < n
      invariant |padded| >= |row| && padded[..|row|] == row
      invariant forall k :: |row| <= k < |padded| ==> padded[k] == ""
      decreases n - |padded|
    {
      padded := padded + [""];
    }
  }

  /** Every cell of the table is stripped and on one line; every data line
      has exactly the header's number of cells, the missing ones empty. */
  lemma TableCells(rows: seq<seq<string>>, i: nat, k: nat)
    requires 0 < i < |rows| && k < |rows[0]|
    ensures var f := Fit(Data(rows)[i], |rows[0]|);
      |f| == |rows[0]| && '\n' !in f[k] && (k >= |rows[i]| ==> f[k] == "")
      && (k < |rows[i]| ==> f[k] == CellText(rows[i][k]))
  {
  }

  // ---------------------------------------------------------------- body

  /** The text one element contributes, "" for nothing. */
  function Part(e: Element): string
  {
    match e
    case Para(p) => ProcessParagraph(p)
    case Table(rows) => TableMarkdown(rows)
    case Other => ""
  }

  /** The non-empty parts, in document order. */
  function Parts(body: seq<Element>): (ps: seq<string>)
    ensures forall k :: 0 <= k < |ps| ==> ps[k] != ""
  {
    Kept(body, Part)
  }

  /** The non-empty texts `f` gives the elements, in order. */
  function Kept(body: seq<Element>, f: Element -> string): (ps: seq<string>)
    ensures forall k :: 0 <= k < |ps| ==> ps[k] != ""
  {
    if body == [] then []
    else Kept(body[..|body| - 1], f) + (if f(body[|body| - 1]) == "" then [] else [f(body[|body| - 1])])
  }

  /** Parts of consecutive stretches of the body come out one after the
      other: the order of the document is kept across paragraphs and
      tables. */
  lemma PartsAppend(a: seq<Element>, b: seq<Element>)
    ensures Parts(a + b) == Parts(a) + Parts(b)
  {
    KeptAppend(a, b, Part);
  }

  lemma {:induction false} KeptAppend(a: seq<Element>, b: seq<Element>, f: Element -> string)
    ensures Kept(a + b, f) == Kept(a, f) + Kept(b, f)
    decreases |b|
  {
    if b == [] {
      assert a + b == a;
    } else {
      var b' := b[..|b| - 1];
      assert (a + b)[..|a + b| - 1] == a + b';
      assert (a + b)[|a + b| - 1] == b[|b| - 1];
      KeptAppend(a, b', f);
    }
  }

  /** A blank paragraph, such as an empty line, leaves no trace. */
  lemma BlankParagraphVanishes(a: seq<Element>, p: Paragraph, b: seq<Element>)
    requires Strip(p.text) == ""
    ensures Parts(a + [Para(p)] + b) == Parts(a + b)
  {
    assert Parts([Para(p)]) == [] by {
      BlankPart(p);
      assert [Para(p)][..0] == [];
      assert Kept([Para(p)], Part) == Kept([], Part) + (if Part(Para(p)) == "" then [] else [Part(Para(p))]);
    }
    assert Parts(a + [Para(p)]) == Parts(a) by {
      PartsAppend(a, [Para(p)]);
    }
    PartsAppend(a + [Para(p)], b);
    PartsAppend(a, b);
  }

  lemma BlankPart(p: Paragraph)
    requires Strip(p.text) == ""
    ensures Part(Para(p)) == ""
  {
  }

  /** `_extract_content`: the loop over the body. */
  method ExtractContent(body: seq<Element>) returns (content: string)
    ensures content == Join(Parts(body), "\n\n")
  {
    var contentParts: seq<string> := [];
    for i := 0 to |body|
      invariant contentParts == Parts(body[..i])
    {
      assert body[..i + 1][..i] == body[..i];
      match body[i] {
        case Para(p) =>
          var text := ProcessParagraph(p);
          if text != "" {
            contentParts := contentParts + [text];
          }
        case Table(rows) =>
          var tableMd := ProcessTable(rows);
          if tableMd != "" {
            contentParts := contentParts + [tableMd];
          }
        case Other =>
      }
    }
    assert body[..|body|] == body;
    content := Join(contentParts, "\n\n");
  }

  /** `read_docx`: the guards, then the parse, whose failures are wrapped. */
  function ReadDocx(exists_: bool, path: string, parsed: Result<seq<Element>, string>): (r: Result<string, string>)
    ensures !exists_ ==> r == Failure("File not found: " + path)
    ensures exists_ && Lower(Paths.Suffix(path)) !in {".docx", ".doc"} ==> r == Failure("Not a Word document: " + path)
    ensures r.Success? <==> exists_ && Lower(Paths.Suffix(path)) in {".docx", ".doc"} && parsed.Success?
    ensures r.Success? ==> r.value == Join(Parts(parsed.value), "\n\n")
    ensures exists_ && Lower(Paths.Suffix(path)) in {".docx", ".doc"} && parsed.Failure? ==>
      r == Failure("Failed to read Word document: " + parsed.error)
  {
    if !exists_ then Failure("File not found: " + path)
    else if Lower(Paths.Suffix(path)) !in {".docx", ".doc"} then Failure("Not a Word document: " + path)
    else
      match parsed
      case Failure(e) => Failure("Failed to read Word document: " + e)
      case Success(body) => Success(Join(Parts(body), "\n\n"))
  }
}
