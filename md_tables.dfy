/** Table reflow, `MarkdownWriter.format_tables`
    (src/claude_clis/tools/doc2md/markdown_writer.py). The pattern
    `(\|[^\n]+\|(?:\n\|[^\n]*\|)*)` is written out as a scanner; each match
    is handed to `format_table`, which is modelled twice: as functions that
    say what it produces, and as the loops the source runs, proved equal. */
module MarkdownTables {
  import opened Base
  import opened Text

  /** The largest k in [lo, hi) with s[k] == '|'. */
  function LastPipe(s: string, lo: nat, hi: nat): (r: Option<nat>)
    requires hi <= |s|
    ensures r.Some? ==> lo <= r.value < hi && s[r.value] == '|'
    ensures forall k :: (if r.Some? then r.value + 1 else lo) <= k < hi ==> s[k] != '|'
    decreases hi
  {
    if hi <= lo then None
    else if s[hi - 1] == '|' then Some(hi - 1)
    else LastPipe(s, lo, hi - 1)
  }

  /** Grows a match ending at e (just after a closing '|') by the repeated
      group: a line break, a '|' and, greedily, the last '|' of that line. */
  function Extend(s: string, e: nat): (r: nat)
    requires 0 < e <= |s| && s[e - 1] == '|'
    ensures e <= r <= |s| && s[r - 1] == '|'
    decreases |s| - e
  {
    if e + 1 < |s| && s[e] == '\n' && s[e + 1] == '|' then
      match LastPipe(s, e + 2, LineEnd(s, e + 2))
      case None => e
      case Some(j) => Extend(s, j + 1)
    else e
  }

  /** Where a match starting at p ends: a '|', at least one character that
      is not a newline, and the last '|' of the line, then the group. */
  function MatchEnd(s: string, p: nat): (r: Option<nat>)
    requires p < |s|
    ensures r.Some? ==> s[p] == '|' && p + 3 <= r.value <= |s| && s[r.value - 1] == '|'
  {
    if s[p] != '|' then None
    else
      match LastPipe(s, p + 2, LineEnd(s, p + 1))
      case None => None
      case Some(j) => Some(Extend(s, j + 1))
  }

  /** `re.sub` from p on: a match is replaced by its reflowed form and the
      scan resumes after it; elsewhere one character is copied. */
  function Reflow(s: string, p: nat): string
    requires p <= |s|
    decreases |s| - p
  {
    if p == |s| then []
    else
      match MatchEnd(s, p)
      case Some(e) => FormatTable(s[p..e]) + Reflow(s, e)
      case None => [s[p]] + Reflow(s, p + 1)
  }

  function FormatTables(s: string): string
  {
    Reflow(s, 0)
  }

  /** `parts[1:-1]`. */
  function Inner(parts: seq<string>): seq<string>
  {
    if |parts| < 2 then [] else parts[1..|parts| - 1]
  }

  /** `[cell.strip() for cell in line.split('|')[1:-1]]`. */
  function Cells(line: string): seq<string>
  {
    Map(Inner(Split(line, '|')), Strip)
  }

  function Rows(lines: seq<string>): (rows: seq<seq<string>>)
    ensures |rows| == |lines| && forall i :: 0 <= i < |rows| ==> rows[i] == Cells(lines[i])
  {
    seq(|lines|, i requires 0 <= i < |lines| => Cells(lines[i]))
  }

  /** The largest number of cells in a row. */
  function MaxCols(rows: seq<seq<string>>): (n: nat)
    ensures forall i :: 0 <= i < |rows| ==> |rows[i]| <= n
    ensures rows == [] ==> n == 0
    ensures rows != [] ==> exists i :: 0 <= i < |rows| && |rows[i]| == n
  {
    if rows == [] then 0
    else
      var m := MaxCols(rows[..|rows| - 1]);
      assert forall i :: 0 <= i < |rows| - 1 ==> rows[..|rows| - 1][i] == rows[i];
      Max(m, |rows[|rows| - 1]|)
  }

  /** The longest cell in column c, 0 if no row reaches column c. */
  function MaxLen(rows: seq<seq<string>>, c: nat): (n: nat)
    ensures forall i :: 0 <= i < |rows| && c < |rows[i]| ==> |rows[i][c]| <= n
    ensures n == 0 || exists i :: 0 <= i < |rows| && c < |rows[i]| && |rows[i][c]| == n
  {
    if rows == [] then 0
    else
      var m := MaxLen(rows[..|rows| - 1], c);
      assert forall i :: 0 <= i < |rows| - 1 ==> rows[..|rows| - 1][i] == rows[i];
      var last := rows[|rows| - 1];
      Max(m, if c < |last| then |last[c]| else 0)
  }

  /** Column widths: at least 3, and at least the longest cell. */
  function Widths(rows: seq<seq<string>>): (ws: seq<nat>)
    ensures |ws| == MaxCols(rows)
    ensures forall c :: 0 <= c < |ws| ==> ws[c] == Max(MaxLen(rows, c), 3)
  {
    seq(MaxCols(rows), c requires 0 <= c => Max(MaxLen(rows, c), 3))
  }

  /** `row.append("")` until the row has n cells. */
  function Pad(row: seq<string>, n: nat): (r: seq<string>)
    ensures |row| <= n ==> |r| == n
    ensures forall j :: 0 <= j < |r| ==> r[j] == if j < |row| then row[j] else ""
  {
    if |row| < n then row + seq(n - |row|, _ => "") else row
  }

  /** `f"{cell:<{w}}"`: the cell padded on the right to w characters. */
  function LJust(cell: string, w: nat): (r: string)
    ensures |r| == Max(|cell|, w)
    ensures r[..|cell|] == cell && forall k :: |cell| <= k < |r| ==> r[k] == ' '
  {
    if |cell| < w then cell + Repeat(' ', w - |cell|) else cell
  }

  function Cell(cell: string, w: nat): string
  {
    " " + LJust(cell, w) + " "
  }

  function RowCells(row: seq<string>, ws: seq<nat>): (cs: seq<string>)
    requires |row| == |ws|
    ensures |cs| == |ws| && forall j :: 0 <= j < |cs| ==> cs[j] == Cell(row[j], ws[j])
  {
    seq(|ws|, j requires 0 <= j < |ws| => Cell(row[j], ws[j]))
  }

  function RuleCells(ws: seq<nat>): (cs: seq<string>)
    ensures |cs| == |ws| && forall j :: 0 <= j < |cs| ==> cs[j] == " " + Repeat('-', ws[j]) + " "
  {
    seq(|ws|, j requires 0 <= j < |ws| => " " + Repeat('-', ws[j]) + " ")
  }

  function Bar(cells: seq<string>): string
  {
    "|" + Join(cells, "|") + "|"
  }

  /** A row padded to the width count and formatted. */
  function Line(row: seq<string>, ws: seq<nat>): string
    requires |row| <= |ws|
  {
    Bar(RowCells(Pad(row, |ws|), ws))
  }

  function Rule(ws: seq<nat>): string
  {
    Bar(RuleCells(ws))
  }

  function RowLines(rows: seq<seq<string>>, ws: seq<nat>): (ls: seq<string>)
    requires forall k :: 0 <= k < |rows| ==> |rows[k]| <= |ws|
    ensures |ls| == |rows| && forall k :: 0 <= k < |rows| ==> ls[k] == Line(rows[k], ws)
  {
    seq(|rows|, k requires 0 <= k < |rows| => Line(rows[k], ws))
  }

  /** The order of the emitted lines, for the first i of them: the first
      row, the dash row when there is more than one row, then the others. */
  function Layout(ls: seq<string>, rule: string, i: nat): (r: seq<string>)
    requires i <= |ls|
  {
    if i == 0 then [] else [ls[0]] + (if |ls| > 1 then [rule] else []) + ls[1..i]
  }

  /** The lines emitted for the first i rows. */
  function LinesUpTo(rows: seq<seq<string>>, ws: seq<nat>, i: nat): seq<string>
    requires i <= |rows| && forall k :: 0 <= k < |rows| ==> |rows[k]| <= |ws|
  {
    Layout(RowLines(rows, ws), Rule(ws), i)
  }

  /** `format_table` on the text of one match. */
  function FormatTable(t: string): string
  {
    var lines := Split(Strip(t), '\n');
    if |lines| < 2 then t
    else
      var rows := Rows(lines);
      Join(LinesUpTo(rows, Widths(rows), |rows|), "\n")
  }

  /** The loops of `format_table`. */
  method FormatTableLoops(t: string) returns (r: string)
    ensures r == FormatTable(t)
  {
    var lines := Split(Strip(t), '\n');
    if |lines| < 2 {
      return t;
    }
    var rows := ParseRows(lines);
    var maxCols := CountCols(rows);
    var widths := ColumnWidths(rows, maxCols);
    var formatted := EmitLines(rows, maxCols, widths);
    r := Join(formatted, "\n");
  }

  /** The loop over the rows that fills `formatted_lines`. */
  method EmitLines(rows: seq<seq<string>>, maxCols: nat, widths: seq<nat>) returns (formatted: seq<string>)
    requires |widths| == maxCols && forall k :: 0 <= k < |rows| ==> |rows[k]| <= maxCols
    ensures formatted == LinesUpTo(rows, widths, |rows|)
  {
    formatted := [];
    for i := 0 to |rows|
      invariant formatted == LinesUpTo(rows, widths, i)
    {
      var row := PadRow(rows[i], maxCols);
      var cells := FormatCells(row, widths);
      ghost var before := formatted;
      formatted := formatted + [Bar(cells)];
      if i == 0 && |rows| > 1 {
        formatted := formatted + [Bar(RuleCells(widths))];
      }
      assert formatted == LinesUpTo(rows, widths, i + 1) by {
        assert Bar(cells) == Line(rows[i], widths);
        LinesStep(rows, i, widths, before, formatted);
      }
    }
  }

  lemma LinesStep(rows: seq<seq<string>>, i: nat, ws: seq<nat>, before: seq<string>, after: seq<string>)
    requires forall k :: 0 <= k < |rows| ==> |rows[k]| <= |ws|
    requires i < |rows| && before == LinesUpTo(rows, ws, i)
    requires after == before + [Line(rows[i], ws)] + (if i == 0 && |rows| > 1 then [Rule(ws)] else [])
    ensures after == LinesUpTo(rows, ws, i + 1)
  {
    LayoutStep(RowLines(rows, ws), Rule(ws), i);
  }

  lemma LayoutStep(ls: seq<string>, rule: string, i: nat)
    requires i < |ls|
    ensures Layout(ls, rule, i + 1) == Layout(ls, rule, i) + [ls[i]] + (if i == 0 && |ls| > 1 then [rule] else [])
  {
    if i > 0 {
      assert ls[1..i + 1] == ls[1..i] + [ls[i]];
    }
  }

  /** `rows.append(cells)` for each line. */
  method ParseRows(lines: seq<string>) returns (rows: seq<seq<string>>)
    ensures rows == Rows(lines)
  {
    rows := [];
    for i := 0 to |lines|
      invariant rows == Rows(lines[..i])
    {
      rows := rows + [Cells(lines[i])];
    }
    assert lines[..|lines|] == lines;
  }

  /** `max(len(row) for row in rows)`. */
  method CountCols(rows: seq<seq<string>>) returns (maxCols: nat)
    ensures maxCols == MaxCols(rows)
  {
    maxCols := 0;
    for i := 0 to |rows|
      invariant maxCols == MaxCols(rows[..i])
    {
      assert rows[..i + 1][..i] == rows[..i];
      maxCols := Max(maxCols, |rows[i]|);
    }
    assert rows[..|rows|] == rows;
  }

  /** The nested loops building `col_widths`. */
  method ColumnWidths(rows: seq<seq<string>>, maxCols: nat) returns (widths: seq<nat>)
    requires maxCols == MaxCols(rows)
    ensures widths == Widths(rows)
  {
    widths := [];
    for col := 0 to maxCols
      invariant widths == Widths(rows)[..col]
    {
      var maxWidth := ColumnMax(rows, col);
      assert Widths(rows)[..col + 1] == widths + [Max(maxWidth, 3)] by {
        assert Widths(rows)[col] == Max(MaxLen(rows, col), 3);
        assert Widths(rows)[..col + 1] == Widths(rows)[..col] + [Widths(rows)[col]];
      }
      widths := widths + [Max(maxWidth, 3)];
    }
  }

  /** The inner loop: the longest cell of one column. */
  method ColumnMax(rows: seq<seq<string>>, col: nat) returns (maxWidth: nat)
    ensures maxWidth == MaxLen(rows, col)
  {
    maxWidth := 0;
    for i := 0 to |rows|
      invariant maxWidth == MaxLen(rows[..i], col)
    {
      assert rows[..i + 1][..i] == rows[..i];
      if col < |rows[i]| {
        maxWidth := Max(maxWidth, |rows[i][col]|);
      }
    }
    assert rows[..|rows|] == rows;
  }

  /** `while len(row) < max_cols: row.append("")`. */
  method PadRow(row0: seq<string>, maxCols: nat) returns (row: seq<string>)
    ensures row == Pad(row0, maxCols)
  {
    row := row0;
    while |row| < maxCols
      invariant |row0| <= |row| <= Max(|row0|, maxCols)
      invariant forall j :: 0 <= j < |row| ==> row[j] == if j < |row0| then row0[j] else ""
      decreases maxCols - |row|
    {
      row := row + [""];
    }
  }

  /** The loop building `formatted_cells`. */
  method FormatCells(row: seq<string>, widths: seq<nat>) returns (cells: seq<string>)
    requires |row| == |widths|
    ensures cells == RowCells(row, widths)
  {
    cells := [];
    for j := 0 to |row|
      invariant cells == RowCells(row, widths)[..j]
    {
      cells := cells + [Cell(row[j], widths[j])];
    }
  }

  /** Every width is at least 3 and at least every cell of its column; it is
      3 or the length of some cell of that column. */
  lemma WidthsBound(rows: seq<seq<string>>)
    ensures var ws := Widths(rows);
      forall c :: 0 <= c < |ws| ==>
        ws[c] >= 3
        && (forall i :: 0 <= i < |rows| && c < |rows[i]| ==> |rows[i][c]| <= ws[c])
        && (ws[c] == 3 || exists i :: 0 <= i < |rows| && c < |rows[i]| && |rows[i][c]| == ws[c])
  {
  }

  /** A row whose cells fit their widths is as long as the dash row. */
  lemma RowLength(row: seq<string>, ws: seq<nat>)
    requires |row| == |ws| && forall j :: 0 <= j < |ws| ==> |row[j]| <= ws[j]
    ensures |Bar(RowCells(row, ws))| == |Bar(RuleCells(ws))|
  {
    var a := RowCells(row, ws);
    var b := RuleCells(ws);
    forall j | 0 <= j < |ws|
      ensures |a[j]| == |b[j]|
    {
      assert |a[j]| == ws[j] + 2;
    }
    JoinSameLengths(a, b, "|");
  }

  /** A row padded to the widest row fits the widths. */
  lemma PaddedFits(rows: seq<seq<string>>, i: nat)
    requires i < |rows|
    ensures var ws := Widths(rows); var row := Pad(rows[i], |ws|);
      |row| == |ws| && forall j :: 0 <= j < |ws| ==> |row[j]| <= ws[j]
  {
  }

  /** Every line of a reflowed table has the same length as its dash row. */
  lemma SameLengths(rows: seq<seq<string>>)
    ensures var ws := Widths(rows); var ls := RowLines(rows, ws);
      forall k :: 0 <= k < |ls| ==> |ls[k]| == |Rule(ws)|
  {
    var ws := Widths(rows);
    forall r | 0 <= r < |rows|
      ensures |Line(rows[r], ws)| == |Rule(ws)|
    {
      PaddedFits(rows, r);
      RowLength(Pad(rows[r], |ws|), ws);
    }
  }

  /** Laid out, lines of one length stay of that length, the rule included. */
  lemma LayoutLengths(ls: seq<string>, rule: string)
    requires |ls| >= 2 && forall k :: 0 <= k < |ls| ==> |ls[k]| == |rule|
    ensures var r := Layout(ls, rule, |ls|);
      |r| == |ls| + 1 && r[1] == rule && r[0] == ls[0]
      && (forall k :: 1 <= k < |ls| ==> r[k + 1] == ls[k])
      && forall k :: 0 <= k < |r| ==> |r[k]| == |rule|
  {
  }

  /** The lines of a table of two or more rows: one per row plus the dash
      row, which comes second, all of the same length. */
  lemma LinesShape(rows: seq<seq<string>>)
    requires |rows| >= 2
    ensures var ws := Widths(rows); var ls := LinesUpTo(rows, ws, |rows|);
      |ls| == |rows| + 1 && ls[1] == Rule(ws) && ls[0] == Line(rows[0], ws)
      && (forall k :: 1 <= k < |rows| ==> ls[k + 1] == Line(rows[k], ws))
      && forall k :: 0 <= k < |ls| ==> |ls[k]| == |ls[1]|
  {
    var ws := Widths(rows);
    SameLengths(rows);
    LayoutLengths(RowLines(rows, ws), Rule(ws));
  }

  /** `format_table` on a match of two or more lines: the rows of the lines,
      each padded to the widest row, are emitted with the dash row after the
      first, and every emitted line has the same length. */
  lemma TableShape(t: string)
    requires |Split(Strip(t), '\n')| >= 2
    ensures var rows := Rows(Split(Strip(t), '\n')); var ls := LinesUpTo(rows, Widths(rows), |rows|);
      FormatTable(t) == Join(ls, "\n")
      && |ls| == |rows| + 1 && ls[1] == Rule(Widths(rows))
      && ls[0] == Line(rows[0], Widths(rows))
      && (forall k :: 1 <= k < |rows| ==> ls[k + 1] == Line(rows[k], Widths(rows)))
      && forall k :: 0 <= k < |ls| ==> |ls[k]| == |ls[1]|
  {
    var rows := Rows(Split(Strip(t), '\n'));
    var ls := LinesUpTo(rows, Widths(rows), |rows|);
    assert FormatTable(t) == Join(ls, "\n") by { FormatTableIs(t); }
    assert |ls| == |rows| + 1 && ls[1] == Rule(Widths(rows))
      && ls[0] == Line(rows[0], Widths(rows))
      && (forall k :: 1 <= k < |rows| ==> ls[k + 1] == Line(rows[k], Widths(rows)))
      && forall k :: 0 <= k < |ls| ==> |ls[k]| == |ls[1]|
    by { LinesShape(rows); }
  }

  lemma FormatTableIs(t: string)
    requires |Split(Strip(t), '\n')| >= 2
    ensures var rows := Rows(Split(Strip(t), '\n'));
      FormatTable(t) == Join(LinesUpTo(rows, Widths(rows), |rows|), "\n")
  {
  }

  /** An existing separator line is parsed as an ordinary row: when its
      cells are dashes exactly as wide as their columns, it comes out equal to
      the inserted dash row, which then appears twice in a row. */
  lemma SeparatorRowRepeated(rows: seq<seq<string>>)
    requires |rows| >= 2
    requires |rows[1]| == |Widths(rows)|
    requires forall c :: 0 <= c < |rows[1]| ==> rows[1][c] == Repeat('-', Widths(rows)[c])
    ensures var ls := LinesUpTo(rows, Widths(rows), |rows|); ls[2] == ls[1]
  {
    var ws := Widths(rows);
    var row := Pad(rows[1], |ws|);
    assert row == rows[1];
    assert RowCells(row, ws) == RuleCells(ws);
    LinesShape(rows);
  }

  /** A match on one line is left as it is. */
  lemma OneLineKept(t: string)
    requires '\n' !in t
    ensures FormatTable(t) == t
  {
    StripChars(t);
    SplitPlain(Strip(t), '\n');
  }

  /** Text without a line break is left as it is. */
  lemma {:induction false} NoBreakKept(s: string, p: nat)
    requires p <= |s| && '\n' !in s
    ensures Reflow(s, p) == s[p..]
    decreases |s| - p
  {
    if p < |s| {
      match MatchEnd(s, p)
      case Some(e) =>
        assert '\n' !in s[p..e] by { SliceLacks(s, p, e, '\n'); }
        OneLineKept(s[p..e]);
        NoBreakKept(s, e);
        assert s[p..] == s[p..e] + s[e..];
      case None =>
        NoBreakKept(s, p + 1);
        assert s[p..] == [s[p]] + s[p + 1..];
    }
  }

  /** Text without a '|' is left as it is. */
  lemma {:induction false} NoPipeKept(s: string, p: nat)
    requires p <= |s| && '|' !in s
    ensures Reflow(s, p) == s[p..]
    decreases |s| - p
  {
    if p < |s| {
      assert s[p] != '|';
      NoPipeKept(s, p + 1);
      assert s[p..] == [s[p]] + s[p + 1..];
    }
  }

  lemma SliceLacks(s: string, p: nat, e: nat, c: char)
    requires p <= e <= |s| && c !in s
    ensures c !in s[p..e]
  {
  }

  lemma NoTableKept(s: string)
    requires '\n' !in s || '|' !in s
    ensures FormatTables(s) == s
  {
    if '\n' !in s { NoBreakKept(s, 0); } else { NoPipeKept(s, 0); }
  }
}
