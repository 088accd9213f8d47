/**
 * The text-table renderer of pkg/table/table.go: a TextTable collects a
 * header and data rows of strings, keeps the widest cell of every column,
 * and draws the table as bordered lines of text. A string with newlines
 * spreads over several table rows, one line per row.
 */
module Table {
  import opened Wrappers
  import opened Strings

  /** How a cell's text sits in its column. */
  datatype Alignment = AlignLeft | AlignRight

  /** One cell: its text, a single line, and its alignment. */
  datatype Cell = Cell(content: string, alignment: Alignment)

  /** A row of cells, or a horizontal rule added by AddRowLine. */
  datatype RowKind = RowLine | RowCells

  datatype Row = Row(cells: seq<Cell>, kind: RowKind)

  /** The errors SetHeader and AddRow report. */
  datatype TableError =
    | NoHeaders   // SetHeader with no strings
    | NoRows      // AddRow with no strings
    | RowTooWide  // AddRow with more strings than the header has columns

  /** The display width of a string (stringWidth, table.go:211-213): one
      column per character. */
  function Width(s: string): nat
  {
    |s|
  }

  // ---------------------------------------------------------------------
  // calcMaxHeight (table.go:197-209)

  /** How many lines strings.Split(s, "\n") gives: always at least one. */
  function Height(s: string): (h: nat)
    ensures h >= 1
  {
    SplitLinesJoin(s);
    |SplitLines(s)|
  }

  /** The largest height among `strs`, found from the front as the loop of
      calcMaxHeight does; -1 when there are none. */
  function MaxHeight(strs: seq<string>): int
  {
    if strs == [] then -1
    else
      var max := MaxHeight(strs[..|strs| - 1]);
      var height := Height(strs[|strs| - 1]);
      if height > max then height else max
  }

  /** MaxHeight is the maximum: no string is taller, and a non-empty list
      has a string exactly that tall. */
  lemma {:induction false} MaxHeightIsMax(strs: seq<string>)
    ensures strs == [] ==> MaxHeight(strs) == -1
    ensures forall i :: 0 <= i < |strs| ==> Height(strs[i]) <= MaxHeight(strs)
    ensures strs != [] ==> exists i :: 0 <= i < |strs| && Height(strs[i]) == MaxHeight(strs)
  {
    if strs != [] {
      var init := strs[..|strs| - 1];
      MaxHeightIsMax(init);
      assert forall i :: 0 <= i < |init| ==> init[i] == strs[i];
      if init != [] && MaxHeight(strs) == MaxHeight(init) {
        var i :| 0 <= i < |init| && Height(init[i]) == MaxHeight(init);
        assert Height(strs[i]) == MaxHeight(strs);
      }
    }
  }

  /** calcMaxHeight: the number of table rows the strings need. */
  method CalcMaxHeight(strs: seq<string>) returns (max: int)
    ensures max == MaxHeight(strs)
  {
    max := -1;
    for k := 0 to |strs|
      invariant max == MaxHeight(strs[..k])
    {
      assert strs[..k + 1][..k] == strs[..k];
      var lines := SplitLines(strs[k]);
      var height := |lines|;
      if height > max {
        max := height;
      }
    }
    assert strs[..|strs|] == strs;
  }

  // ---------------------------------------------------------------------
  // stringsToTableRow (table.go:129-164)

  /** Line `j` of `s`, or the empty string below its last line. */
  function LineOf(s: string, j: nat): string
  {
    if j < Height(s) then SplitLines(s)[j] else ""
  }

  /** The rows a list of strings spreads over: as many as the tallest
      string has lines, row `j` holding line `j` of every string, left
      aligned. */
  function TableRows(strs: seq<string>): seq<Row>
    requires strs != []
  {
    MaxHeightIsMax(strs);
    seq(MaxHeight(strs), j requires 0 <= j < MaxHeight(strs) =>
      Row(seq(|strs|, i requires 0 <= i < |strs| => Cell(LineOf(strs[i], j), AlignLeft)), RowCells))
  }

  /** Row splitting: there are MaxHeight rows of |strs| left-aligned cells
      each, and reading column `i` down gives back the lines of `strs[i]`
      followed by empty cells, so that joining its first Height(strs[i])
      cells with newlines restores `strs[i]`. */
  lemma TableRowsSplit(strs: seq<string>)
    requires strs != []
    ensures var rows := TableRows(strs);
      && |rows| == MaxHeight(strs)
      && (forall j :: 0 <= j < |rows| ==> rows[j].kind == RowCells && |rows[j].cells| == |strs|)
      && (forall j, i :: 0 <= j < |rows| && 0 <= i < |strs| ==> rows[j].cells[i].alignment == AlignLeft)
      && (forall j, i :: 0 <= j < |rows| && 0 <= i < |strs| ==> '\n' !in rows[j].cells[i].content)
      && (forall i :: 0 <= i < |strs| ==> Height(strs[i]) <= |rows|)
      && (forall i :: 0 <= i < |strs| ==>
            Join(seq(Height(strs[i]), j requires 0 <= j < Height(strs[i]) => rows[j].cells[i].content), "\n") == strs[i])
      && (forall j, i :: 0 <= j < |rows| && 0 <= i < |strs| && Height(strs[i]) <= j ==> rows[j].cells[i].content == "")
  {
    var rows := TableRows(strs);
    MaxHeightIsMax(strs);
    forall j, i | 0 <= j < |rows| && 0 <= i < |strs|
      ensures '\n' !in rows[j].cells[i].content
    {
      SplitLinesJoin(strs[i]);
    }
    forall i | 0 <= i < |strs|
      ensures Join(seq(Height(strs[i]), j requires 0 <= j < Height(strs[i]) => rows[j].cells[i].content), "\n") == strs[i]
    {
      SplitLinesJoin(strs[i]);
      assert seq(Height(strs[i]), j requires 0 <= j < Height(strs[i]) => rows[j].cells[i].content) == SplitLines(strs[i]);
    }
  }

  /** The lines of `strs` dealt into `strLines` so far: those of the
      strings before `i`, and the first `j` lines of string `i`; every other
      entry is still empty. */
  predicate Dealt(strLines: seq<seq<string>>, strs: seq<string>, i: nat, j: nat)
    requires forall j' :: 0 <= j' < |strLines| ==> |strLines[j']| == |strs|
  {
    forall j', i' {:trigger strLines[j'][i']} :: 0 <= j' < |strLines| && 0 <= i' < |strs| ==>
      strLines[j'][i'] == if i' < i || (i' == i && j' < j) then LineOf(strs[i'], j') else ""
  }

  /** Dealing line `j` of string `i` keeps the dealing in order. */
  lemma DealOne(strLines: seq<seq<string>>, strs: seq<string>, i: nat, j: nat)
    requires forall j' :: 0 <= j' < |strLines| ==> |strLines[j']| == |strs|
    requires i < |strs| && j < Height(strs[i]) && j < |strLines| && Dealt(strLines, strs, i, j)
    ensures var next := strLines[j := strLines[j][i := SplitLines(strs[i])[j]]];
      && (forall j' :: 0 <= j' < |next| ==> |next[j']| == |strs|)
      && Dealt(next, strs, i, j + 1)
  {
    var next := strLines[j := strLines[j][i := SplitLines(strs[i])[j]]];
    forall j', i' | 0 <= j' < |next| && 0 <= i' < |strs|
      ensures next[j'][i'] == if i' < i || (i' == i && j' < j + 1) then LineOf(strs[i'], j') else ""
    {
      if j' != j || i' != i {
        assert next[j'][i'] == strLines[j'][i'];
      }
    }
  }

  /** Once every line of string `i` is dealt, the entries below them are
      the empty cells they should be. */
  lemma DealtAll(strLines: seq<seq<string>>, strs: seq<string>, i: nat)
    requires forall j' :: 0 <= j' < |strLines| ==> |strLines[j']| == |strs|
    requires i < |strs| && Dealt(strLines, strs, i, Height(strs[i]))
    ensures Dealt(strLines, strs, i + 1, 0)
  {
    forall j', i' | 0 <= j' < |strLines| && 0 <= i' < |strs|
      ensures strLines[j'][i'] == if i' < i + 1 then LineOf(strs[i'], j') else ""
    {
      if i' == i && Height(strs[i]) <= j' {
        assert LineOf(strs[i'], j') == "";
      }
    }
  }

  /** stringsToTableRow: splits every string at its newlines and deals the
      lines out over as many rows as the tallest string needs. Go panics
      on an empty list (it makes a slice of length -1). */
  method StringsToTableRow(strs: seq<string>) returns (rows: seq<Row>)
    requires strs != []
    ensures rows == TableRows(strs)
  {
    var maxHeight := CalcMaxHeight(strs);
    MaxHeightIsMax(strs);
    var strLines: seq<seq<string>> := seq(maxHeight, _ => seq(|strs|, _ => ""));

    var alignments: seq<Alignment> := [];
    for i := 0 to |strs|
      invariant alignments == seq(i, _ => AlignLeft)
    {
      alignments := alignments + [AlignLeft];
    }

    for i := 0 to |strs|
      invariant |strLines| == maxHeight
      invariant forall j :: 0 <= j < maxHeight ==> |strLines[j]| == |strs|
      invariant Dealt(strLines, strs, i, 0)
    {
      var divideds := SplitLines(strs[i]);
      for j := 0 to |divideds|
        invariant |strLines| == maxHeight
        invariant forall j' :: 0 <= j' < maxHeight ==> |strLines[j']| == |strs|
        invariant Dealt(strLines, strs, i, j)
      {
        DealOne(strLines, strs, i, j);
        strLines := strLines[j := strLines[j][i := divideds[j]]];
      }
      DealtAll(strLines, strs, i);
    }

    rows := [];
    for j := 0 to maxHeight
      invariant rows == TableRows(strs)[..j]
    {
      var cells: seq<Cell> := [];
      for i := 0 to |strs|
        invariant cells == seq(i, i' requires 0 <= i' < i => Cell(LineOf(strs[i'], j), AlignLeft))
      {
        cells := cells + [Cell(strLines[j][i], alignments[i])];
      }
      assert cells == TableRows(strs)[j].cells;
      rows := rows + [Row(cells, RowCells)];
      assert rows == TableRows(strs)[..j + 1];
    }
  }

  // ---------------------------------------------------------------------
  // formatCellUnit (table.go:258-272)

  /** The text of a cell padded with spaces to `maxWidth`, on the left for
      right alignment and on the right otherwise, with one space of margin
      on each side. strings.Repeat panics on a negative count, so the cell
      must fit. */
  function FormatCellUnit(unit: Cell, maxWidth: nat): (r: string)
    requires Width(unit.content) <= maxWidth
    ensures |r| == maxWidth + 2
  {
    var str := unit.content;
    var padding := Repeat(' ', maxWidth - Width(str));
    var ret := if unit.alignment == AlignRight then padding + str else str + padding;
    " " + ret + " "
  }

  /** A formatted cell is its content between spaces: a margin on each
      side, and the padding after left-aligned content or before
      right-aligned content. */
  lemma FormatCellShape(unit: Cell, maxWidth: nat)
    requires Width(unit.content) <= maxWidth
    ensures var r := FormatCellUnit(unit, maxWidth);
      && r[0] == ' ' && r[|r| - 1] == ' '
      && (unit.alignment == AlignLeft ==>
          && r[1..1 + |unit.content|] == unit.content
          && forall k :: 1 + |unit.content| <= k < |r| ==> r[k] == ' ')
      && (unit.alignment == AlignRight ==>
          && r[|r| - 1 - |unit.content|..|r| - 1] == unit.content
          && forall k :: 0 <= k < |r| - 1 - |unit.content| ==> r[k] == ' ')
  {
  }

  // ---------------------------------------------------------------------
  // borderString and generateRowString (table.go:115-127, 274-284)

  /** A rule: "+", then for every column width `w`, `w + 2` dashes and a
      "+". */
  function Border(ws: seq<nat>): string
  {
    if ws == [] then "+"
    else Border(ws[..|ws| - 1]) + Repeat('-', ws[|ws| - 1] + 2) + "+"
  }

  /** The length of every line of a table with column widths `ws`: each
      column takes its width, two margins and one separator, and the line
      starts with one more separator. */
  function Span(ws: seq<nat>): nat
  {
    if ws == [] then 1 else Span(ws[..|ws| - 1]) + ws[|ws| - 1] + 3
  }

  /** Where the separator in front of column `k` stands. */
  function Offset(ws: seq<nat>, k: nat): nat
    requires k <= |ws|
  {
    Span(ws[..k]) - 1
  }

  /** A rule is Span(ws) long, with a "+" at every column boundary and a
      dash everywhere else. */
  lemma {:induction false} BorderShape(ws: seq<nat>)
    ensures |Border(ws)| == Span(ws)
    ensures forall k :: 0 <= k < |Border(ws)| ==> Border(ws)[k] == '+' || Border(ws)[k] == '-'
    ensures forall c :: 0 <= c <= |ws| ==> Offset(ws, c) < |Border(ws)| && Border(ws)[Offset(ws, c)] == '+'
    ensures forall k :: 0 <= k < |Border(ws)| ==>
      Border(ws)[k] == '-' || exists c :: 0 <= c <= |ws| && Offset(ws, c) == k
    decreases |ws|
  {
    if ws != [] {
      var init := ws[..|ws| - 1];
      BorderShape(init);
      forall k | 0 <= k < |Border(ws)|
        ensures Border(ws)[k] == '-' || exists c :: 0 <= c <= |ws| && Offset(ws, c) == k
      {
        if k < |Border(init)| {
          if Border(init)[k] != '-' {
            var c :| 0 <= c <= |init| && Offset(init, c) == k;
            assert ws[..c] == init[..c];
            assert Offset(ws, c) == k;
          }
        } else if k == |Border(ws)| - 1 {
          assert ws[..|ws|] == ws;
          assert Offset(ws, |ws|) == k;
        }
      }
      forall c | 0 <= c <= |ws|
        ensures Offset(ws, c) < |Border(ws)| && Border(ws)[Offset(ws, c)] == '+'
      {
        if c < |ws| {
          assert ws[..c] == init[..c];
          assert Offset(ws, c) == Offset(init, c);
        } else {
          assert ws[..c] == ws;
          assert Offset(ws, c) == |Border(ws)| - 1;
        }
      }
    } else {
      assert ws[..0] == ws;
      assert Offset(ws, 0) == 0;
    }
  }

  /** Spans grow with the prefix they cover. */
  lemma {:induction false} SpanPrefix(ws: seq<nat>, c: nat)
    requires c <= |ws|
    ensures Span(ws[..c]) <= Span(ws)
    decreases |ws|
  {
    if c < |ws| {
      var init := ws[..|ws| - 1];
      assert ws[..c] == init[..c];
      SpanPrefix(init, c);
    } else {
      assert ws[..c] == ws;
    }
  }

  /** The cells of a row fit the column widths: there are no more cells
      than columns, and no cell is wider than its column. */
  predicate Fits(cells: seq<Cell>, ws: seq<nat>)
  {
    |cells| <= |ws| && forall i :: 0 <= i < |cells| ==> Width(cells[i].content) <= ws[i]
  }

  /** A row line: "|", then every cell formatted to its column's width and
      followed by "|". */
  function RowText(cells: seq<Cell>, ws: seq<nat>): string
    requires Fits(cells, ws)
  {
    if cells == [] then "|"
    else RowText(cells[..|cells| - 1], ws) + FormatCellUnit(cells[|cells| - 1], ws[|cells| - 1]) + "|"
  }

  /** A row line is as long as the rule over the columns it fills, and a
      "|" stands at every column boundary, just where the rule has its
      "+": a row with a cell for every column lines up with the rules. */
  lemma {:induction false} RowTextShape(cells: seq<Cell>, ws: seq<nat>)
    requires Fits(cells, ws)
    ensures |RowText(cells, ws)| == Span(ws[..|cells|])
    ensures forall c :: 0 <= c <= |cells| ==>
      Offset(ws, c) < |RowText(cells, ws)| && RowText(cells, ws)[Offset(ws, c)] == '|'
    decreases |cells|
  {
    var n := |cells|;
    if n > 0 {
      var init := cells[..n - 1];
      RowTextShape(init, ws);
      assert ws[..n][..n - 1] == ws[..n - 1];
      forall c | 0 <= c <= n
        ensures Offset(ws, c) < |RowText(cells, ws)| && RowText(cells, ws)[Offset(ws, c)] == '|'
      {
        if c < n {
          assert ws[..n][..c] == ws[..c];
          SpanPrefix(ws[..n - 1], c);
          assert ws[..n - 1][..c] == ws[..c];
        }
      }
    }
  }

  // ---------------------------------------------------------------------
  // Draw (table.go:220-256)

  /** The line Draw makes of a data row: a row of cells, or a rule. */
  function RowString(row: Row, ws: seq<nat>): string
    requires row.kind == RowCells ==> Fits(row.cells, ws)
  {
    if row.kind == RowCells then RowText(row.cells, ws) else Border(ws)
  }

  /** Every row of cells in `rows` fits the column widths. */
  predicate AllFit(rows: seq<Row>, ws: seq<nat>)
  {
    forall j :: 0 <= j < |rows| && rows[j].kind == RowCells ==> Fits(rows[j].cells, ws)
  }

  /** Rows Draw can lay out against the column widths `ws`: every row of
      cells, header or data, fits them. */
  predicate Placeable(header: seq<Row>, rows: seq<Row>, ws: seq<nat>)
  {
    (forall j :: 0 <= j < |header| ==> Fits(header[j].cells, ws)) && AllFit(rows, ws)
  }

  /** The number of lines of a drawn table. */
  function LineCount(header: seq<Row>, rows: seq<Row>): nat
  {
    |header| + |rows| + if |rows| != 0 then 3 else 2
  }

  /** Line `k` of a drawn table: a rule, the header rows, a rule, the data
      rows (a rule for each AddRowLine), and a closing rule only when there
      are data rows. */
  function LayoutLine(header: seq<Row>, rows: seq<Row>, ws: seq<nat>, k: nat): string
    requires Placeable(header, rows, ws) && k < LineCount(header, rows)
  {
    if k == 0 || k == |header| + 1 || k == |header| + |rows| + 2 then Border(ws)
    else if k <= |header| then RowText(header[k - 1].cells, ws)
    else RowString(rows[k - |header| - 2], ws)
  }

  /** The lines of a drawn table. */
  function Layout(header: seq<Row>, rows: seq<Row>, ws: seq<nat>): seq<string>
    requires Placeable(header, rows, ws)
  {
    seq(LineCount(header, rows), k requires 0 <= k < LineCount(header, rows) => LayoutLine(header, rows, ws, k))
  }

  /** Draw layout: the table has a line per header row and per data row,
      two rules, and a third one under data rows; it starts and ends with a
      rule and has one under the header. */
  lemma LayoutShape(header: seq<Row>, rows: seq<Row>, ws: seq<nat>)
    requires Placeable(header, rows, ws)
    ensures var lines := Layout(header, rows, ws);
      && |lines| == |header| + |rows| + (if |rows| != 0 then 3 else 2)
      && lines[0] == Border(ws) && lines[|lines| - 1] == Border(ws)
      && lines[|header| + 1] == Border(ws)
      && (forall k :: 1 <= k <= |header| ==> lines[k] == RowText(header[k - 1].cells, ws))
      && (forall j :: 0 <= j < |rows| ==> lines[|header| + 2 + j] == RowString(rows[j], ws))
  {
    var lines := Layout(header, rows, ws);
    forall j | 0 <= j < |rows| ensures lines[|header| + 2 + j] == RowString(rows[j], ws) {
      assert lines[|header| + 2 + j] == LayoutLine(header, rows, ws, |header| + 2 + j);
    }
  }

  /** When every row has a cell for every column, every line of the drawn
      table is Span(ws) characters long. */
  lemma LayoutWidths(header: seq<Row>, rows: seq<Row>, ws: seq<nat>)
    requires Placeable(header, rows, ws)
    requires forall j :: 0 <= j < |header| ==> |header[j].cells| == |ws|
    requires forall j :: 0 <= j < |rows| && rows[j].kind == RowCells ==> |rows[j].cells| == |ws|
    ensures forall k :: 0 <= k < |Layout(header, rows, ws)| ==> |Layout(header, rows, ws)[k]| == Span(ws)
  {
    var lines := Layout(header, rows, ws);
    BorderShape(ws);
    assert ws[..|ws|] == ws;
    forall k | 0 <= k < |lines| ensures |lines[k]| == Span(ws) {
      assert lines[k] == LayoutLine(header, rows, ws, k);
      if 1 <= k <= |header| {
        RowTextShape(header[k - 1].cells, ws);
      } else if |header| + 2 <= k < |header| + 2 + |rows| && rows[k - |header| - 2].kind == RowCells {
        RowTextShape(rows[k - |header| - 2].cells, ws);
      }
    }
  }

  /** No line of a table holds a newline when no cell does. */
  predicate NoNewlines(rows: seq<Row>)
  {
    forall j, i :: 0 <= j < |rows| && 0 <= i < |rows[j].cells| ==> '\n' !in rows[j].cells[i].content
  }

  /** Rules and row lines hold no newline, given cells without one. */
  lemma {:induction false} RowTextSingleLine(cells: seq<Cell>, ws: seq<nat>)
    requires Fits(cells, ws) && forall i :: 0 <= i < |cells| ==> '\n' !in cells[i].content
    ensures '\n' !in RowText(cells, ws)
    ensures '\n' !in Border(ws)
    decreases |cells|
  {
    BorderShape(ws);
    if cells != [] {
      var c := cells[|cells| - 1];
      RowTextSingleLine(cells[..|cells| - 1], ws);
      var f := FormatCellUnit(c, ws[|cells| - 1]);
      FormatCellShape(c, ws[|cells| - 1]);
      forall k | 0 <= k < |f| ensures f[k] != '\n' {
        if c.alignment == AlignLeft && 1 <= k < 1 + |c.content| {
          assert f[k] == c.content[k - 1];
        } else if c.alignment == AlignRight && |f| - 1 - |c.content| <= k < |f| - 1 {
          assert f[k] == c.content[k - (|f| - 1 - |c.content|)];
        }
      }
    }
  }

  // ---------------------------------------------------------------------
  // updateColumnWidth (table.go:45-54)

  /** The width of column `i` after the cells of `rows` have been measured
      against a starting width `w`, row by row as updateColumnWidth does. */
  function Widest(rows: seq<Row>, i: nat, w: nat): nat
  {
    if rows == [] then w
    else
      var m := Widest(rows[..|rows| - 1], i, w);
      var last := rows[|rows| - 1];
      if i < |last.cells| && m < Width(last.cells[i].content) then Width(last.cells[i].content) else m
  }

  /** Widest is the maximum of `w` and the widths of column `i`: it is no
      smaller than any of them, and it is one of them. */
  lemma {:induction false} WidestIsMax(rows: seq<Row>, i: nat, w: nat)
    ensures w <= Widest(rows, i, w)
    ensures forall j :: 0 <= j < |rows| && i < |rows[j].cells| ==> Width(rows[j].cells[i].content) <= Widest(rows, i, w)
    ensures Widest(rows, i, w) == w
         || exists j :: 0 <= j < |rows| && i < |rows[j].cells| && Width(rows[j].cells[i].content) == Widest(rows, i, w)
    decreases |rows|
  {
    if rows != [] {
      var init := rows[..|rows| - 1];
      WidestIsMax(init, i, w);
      assert forall j :: 0 <= j < |init| ==> init[j] == rows[j];
      if Widest(rows, i, w) != w && Widest(rows, i, w) == Widest(init, i, w) {
        var j :| 0 <= j < |init| && i < |init[j].cells| && Width(init[j].cells[i].content) == Widest(init, i, w);
        assert rows[j] == init[j];
      }
    }
  }

  /** Column widths after measuring `rows`: every row's cells fit them. */
  lemma WidestFits(rows: seq<Row>, init: seq<nat>, ws: seq<nat>)
    requires |ws| == |init| && forall j :: 0 <= j < |rows| ==> |rows[j].cells| <= |ws|
    requires forall i :: 0 <= i < |ws| ==> ws[i] == Widest(rows, i, init[i])
    ensures AllFit(rows, ws)
    ensures forall i :: 0 <= i < |ws| ==> init[i] <= ws[i]
  {
    forall i | 0 <= i < |ws| ensures init[i] <= ws[i] {
      WidestIsMax(rows, i, init[i]);
    }
    forall j | 0 <= j < |rows| && rows[j].kind == RowCells ensures Fits(rows[j].cells, ws) {
      forall i | 0 <= i < |rows[j].cells| ensures Width(rows[j].cells[i].content) <= ws[i] {
        WidestIsMax(rows, i, init[i]);
      }
    }
  }

  /** Rows that fit narrower columns fit wider ones. */
  lemma AllFitWider(rows: seq<Row>, narrow: seq<nat>, ws: seq<nat>)
    requires AllFit(rows, narrow) && |narrow| == |ws| && forall i :: 0 <= i < |ws| ==> narrow[i] <= ws[i]
    ensures AllFit(rows, ws)
  {
  }

  /** `strs` padded with empty strings to `width` entries, as AddRow's
      make and copy do. */
  function Pad(strs: seq<string>, width: nat): (padded: seq<string>)
    requires |strs| <= width
    ensures |padded| == width
    ensures forall i :: 0 <= i < |strs| ==> padded[i] == strs[i]
    ensures forall i :: |strs| <= i < width ==> padded[i] == ""
  {
    strs + seq(width - |strs|, _ => "")
  }

  /** Every row of TableRows(strs) is a row of cells, one per string, and
      none holds a newline. */
  lemma TableRowsWellFormed(strs: seq<string>)
    requires strs != []
    ensures forall j :: 0 <= j < |TableRows(strs)| ==>
      TableRows(strs)[j].kind == RowCells && |TableRows(strs)[j].cells| == |strs|
    ensures NoNewlines(TableRows(strs))
  {
    TableRowsSplit(strs);
  }

  /** The invariant a TextTable keeps over its header, its data rows and
      its column widths `ws`: header rows have a cell per column, data rows
      added since row `since` are rules or have a cell per column, all of
      those fit the widths, and no cell holds a newline. */
  predicate Consistent(header: seq<Row>, rows: seq<Row>, since: nat, ws: seq<nat>)
  {
    && since <= |rows|
    && (forall j :: 0 <= j < |header| ==> header[j].kind == RowCells && |header[j].cells| == |ws|)
    && (forall j :: since <= j < |rows| ==> rows[j].kind == RowLine || |rows[j].cells| == |ws|)
    && AllFit(header, ws)
    && (forall j :: since <= j < |rows| && rows[j].kind == RowCells ==> Fits(rows[j].cells, ws))
    && NoNewlines(header) && NoNewlines(rows)
  }

  /** A fresh header measured on its own keeps the invariant, the rows
      already there counting as added before it. */
  lemma HeaderKeeps(headers: seq<string>, rows: seq<Row>, ws: seq<nat>)
    requires headers != [] && NoNewlines(rows)
    requires |ws| == |headers| && forall i :: 0 <= i < |ws| ==> ws[i] == Widest(TableRows(headers), i, 0)
    ensures Consistent(TableRows(headers), rows, |rows|, ws)
  {
    TableRowsWellFormed(headers);
    WidestFits(TableRows(headers), seq(|ws|, _ => 0), ws);
  }

  /** Appending well-formed rows and widening the columns to fit them keeps
      the invariant. */
  lemma AppendKeeps(header: seq<Row>, rows: seq<Row>, since: nat, ws: seq<nat>, newRows: seq<Row>, after: seq<nat>)
    requires Consistent(header, rows, since, ws)
    requires forall j :: 0 <= j < |newRows| ==>
      |newRows[j].cells| <= |ws| && (newRows[j].kind == RowLine || |newRows[j].cells| == |ws|)
    requires NoNewlines(newRows)
    requires |after| == |ws| && forall i :: 0 <= i < |ws| ==> after[i] == Widest(newRows, i, ws[i])
    ensures Consistent(header, rows + newRows, since, after)
  {
    var all := rows + newRows;
    WidestFits(newRows, ws, after);
    AllFitWider(header, ws, after);
    forall j | since <= j < |all| && all[j].kind == RowCells ensures Fits(all[j].cells, after) {
      if j >= |rows| {
        assert all[j] == newRows[j - |rows|];
      }
    }
    assert NoNewlines(all) by {
      forall j, i | 0 <= j < |all| && 0 <= i < |all[j].cells| ensures '\n' !in all[j].cells[i].content {
        if j >= |rows| {
          assert all[j] == newRows[j - |rows|];
        }
      }
    }
  }

  /** Every line of a table whose rows are all covered by the invariant is
      a single line of Span(ws) characters, so the drawing splits at its
      newlines back into the table's lines. */
  lemma LayoutLines(header: seq<Row>, rows: seq<Row>, ws: seq<nat>)
    requires Consistent(header, rows, 0, ws)
    ensures Placeable(header, rows, ws)
    ensures var lines := Layout(header, rows, ws);
      && SplitLines(Join(lines, "\n")) == lines
      && forall k :: 0 <= k < |lines| ==> |lines[k]| == Span(ws)
  {
    var lines := Layout(header, rows, ws);
    LayoutShape(header, rows, ws);
    LayoutWidths(header, rows, ws);
    RowTextSingleLine([], ws);
    forall k | 0 <= k < |lines| ensures '\n' !in lines[k] {
      if 1 <= k < |header| + 1 {
        RowTextSingleLine(header[k - 1].cells, ws);
      } else if |header| + 2 <= k < |header| + 2 + |rows| && rows[k - |header| - 2].kind == RowCells {
        RowTextSingleLine(rows[k - |header| - 2].cells, ws);
      }
    }
    SplitLinesOfJoin(lines);
  }

  /** A padded row of strings spreads over as many table rows as the
      strings alone: an empty string has one line, no more than any other. */
  lemma PadHeight(strs: seq<string>, width: nat)
    requires 0 < |strs| <= width
    ensures MaxHeight(Pad(strs, width)) == MaxHeight(strs)
  {
    var padded := Pad(strs, width);
    MaxHeightIsMax(strs);
    MaxHeightIsMax(padded);
    var k :| 0 <= k < |padded| && Height(padded[k]) == MaxHeight(padded);
    if k >= |strs| {
      assert padded[k] == "" && SplitLines("") == [""];
      assert Height(strs[0]) <= MaxHeight(strs);
    } else {
      assert Height(strs[k]) <= MaxHeight(strs);
    }
    var k' :| 0 <= k' < |strs| && Height(strs[k']) == MaxHeight(strs);
    assert padded[k'] == strs[k'];
  }

  /** AddRow padding: a padded row of strings spreads over as many table
      rows as the strings alone, and every one of them has `width` cells,
      the padding columns empty. */
  lemma PadRows(strs: seq<string>, width: nat)
    requires 0 < |strs| <= width
    ensures |TableRows(Pad(strs, width))| == MaxHeight(strs)
    ensures var rows := TableRows(Pad(strs, width));
      && (forall j :: 0 <= j < |rows| ==> rows[j].kind == RowCells && |rows[j].cells| == width)
      && (forall j, i :: 0 <= j < |rows| && |strs| <= i < width ==> rows[j].cells[i].content == "")
  {
    var padded := Pad(strs, width);
    PadHeight(strs, width);
    TableRowsWellFormed(padded);
    assert SplitLines("") == [""];
  }

  // ---------------------------------------------------------------------
  // TextTable (table.go:38-43)

  /** A text table: the header rows, the data rows, the number of columns
      and the widest cell of every column. `since` counts the data rows
      added before the latest SetHeader, which the column widths do not
      cover: SetHeader measures the new header only. */
  class TextTable {
    var header: seq<Row>
    var rows: seq<Row>
    var width: nat
    var maxWidths: array<nat>
    ghost var since: nat

    /** One width per column, and the rows Consistent. */
    ghost predicate Valid()
      reads this, maxWidths
    {
      maxWidths.Length == width && Consistent(header, rows, since, maxWidths[..])
    }

    /** Draw can lay out every row: each row of cells fits the widths. */
    predicate Drawable()
      reads this, maxWidths
    {
      Placeable(header, rows, maxWidths[..])
    }

    /** The zero TextTable, `&TextTable{}`. */
    constructor ()
      ensures Valid() && fresh(maxWidths)
      ensures header == [] && rows == [] && width == 0 && since == 0
    {
      header := [];
      rows := [];
      width := 0;
      maxWidths := new nat[0];
      since := 0;
    }

    /** updateColumnWidth: widens every column to its widest cell in
        `newRows`; Go indexes maxWidths by cell, so no row may have more
        cells than there are columns. */
    method UpdateColumnWidth(newRows: seq<Row>)
      requires forall j :: 0 <= j < |newRows| ==> |newRows[j].cells| <= maxWidths.Length
      modifies maxWidths
      ensures forall i :: 0 <= i < maxWidths.Length ==> maxWidths[i] == Widest(newRows, i, old(maxWidths[i]))
    {
      ghost var init := maxWidths[..];
      for r := 0 to |newRows|
        invariant forall i :: 0 <= i < maxWidths.Length ==> maxWidths[i] == Widest(newRows[..r], i, init[i])
      {
        var row := newRows[r];
        assert newRows[..r + 1][..r] == newRows[..r];
        for i := 0 to |row.cells|
          invariant forall i' :: 0 <= i' < i ==> maxWidths[i'] == Widest(newRows[..r + 1], i', init[i'])
          invariant forall i' :: i <= i' < maxWidths.Length ==> maxWidths[i'] == Widest(newRows[..r], i', init[i'])
        {
          var width := Width(row.cells[i].content);
          if maxWidths[i] < width {
            maxWidths[i] := width;
          }
        }
      }
      assert newRows[..|newRows|] == newRows;
    }

    /** SetHeader: fails on no strings; otherwise the table gets as many
        columns as strings, fresh widths measured on the header alone, and
        the header rows the strings spread over. Data rows stay. */
    method SetHeader(headers: seq<string>) returns (err: Option<TableError>)
      requires Valid()
      modifies this
      ensures Valid()
      ensures headers == [] ==>
        && err == Some(NoHeaders)
        && header == old(header) && rows == old(rows) && width == old(width) && maxWidths == old(maxWidths)
        && since == old(since)
      ensures headers != [] ==>
        && err == None
        && width == |headers| && header == TableRows(headers) && rows == old(rows)
        && fresh(maxWidths) && since == |rows|
        && forall i :: 0 <= i < width ==> maxWidths[i] == Widest(header, i, 0)
    {
      if |headers| == 0 {
        return Some(NoHeaders);
      }
      var columnSize := |headers|;
      width := columnSize;
      maxWidths := new nat[columnSize](_ => 0);
      var newRows := StringsToTableRow(headers);
      TableRowsWellFormed(headers);
      UpdateColumnWidth(newRows);
      header := newRows;
      since := |rows|;
      HeaderKeeps(headers, rows, maxWidths[..]);
      return None;
    }

    /** AddRow: fails on no strings and on more strings than columns,
        leaving the table as it was; otherwise pads the strings to the
        column count, appends the rows they spread over and widens the
        columns to fit them. */
    method AddRow(strs: seq<string>) returns (err: Option<TableError>)
      requires Valid()
      modifies this, maxWidths
      ensures Valid()
      ensures header == old(header) && width == old(width) && maxWidths == old(maxWidths) && since == old(since)
      ensures strs == [] ==> err == Some(NoRows) && rows == old(rows) && maxWidths[..] == old(maxWidths[..])
      ensures strs != [] && |strs| > width ==>
        err == Some(RowTooWide) && rows == old(rows) && maxWidths[..] == old(maxWidths[..])
      ensures 0 < |strs| <= width ==>
        && err == None
        && rows == old(rows) + TableRows(Pad(strs, width))
        && forall i :: 0 <= i < width ==> maxWidths[i] == Widest(TableRows(Pad(strs, width)), i, old(maxWidths[i]))
    {
      if |strs| == 0 {
        return Some(NoRows);
      }
      if |strs| > width {
        return Some(RowTooWide);
      }
      var padded := Pad(strs, width);
      var newRows := StringsToTableRow(padded);
      TableRowsWellFormed(padded);
      ghost var before := maxWidths[..];
      rows := rows + newRows;
      UpdateColumnWidth(newRows);
      AppendKeeps(header, old(rows), since, before, newRows, maxWidths[..]);
      return None;
    }

    /** AddRowLine: appends a rule; it never fails. */
    method AddRowLine() returns (err: Option<TableError>)
      requires Valid()
      modifies this
      ensures Valid()
      ensures rows == old(rows) + [Row([], RowLine)] && err == None
      ensures header == old(header) && width == old(width) && maxWidths == old(maxWidths) && since == old(since)
    {
      AppendKeeps(header, rows, since, maxWidths[..], [Row([], RowLine)], maxWidths[..]);
      rows := rows + [Row([], RowLine)];
      return None;
    }

    /** borderString: the rule over the current column widths. */
    method BorderString() returns (s: string)
      ensures s == Border(maxWidths[..])
    {
      var margin := 2;
      s := "+";
      for c := 0 to maxWidths.Length
        invariant s == Border(maxWidths[..c])
      {
        var width := maxWidths[c];
        for i := 0 to width + margin
          invariant s == Border(maxWidths[..c]) + Repeat('-', i)
        {
          s := s + "-";
        }
        s := s + "+";
        assert maxWidths[..c + 1][..c] == maxWidths[..c];
      }
      assert maxWidths[..maxWidths.Length] == maxWidths[..];
    }

    /** generateRowString: the line of a row of cells; Go indexes maxWidths
        by cell and strings.Repeat refuses a cell wider than its column, so
        the cells must fit. */
    method GenerateRowString(row: Row) returns (s: string)
      requires Fits(row.cells, maxWidths[..])
      ensures s == RowText(row.cells, maxWidths[..])
    {
      var separator := "|";
      s := separator;
      for i := 0 to |row.cells|
        invariant s == RowText(row.cells[..i], maxWidths[..])
      {
        s := s + FormatCellUnit(row.cells[i], maxWidths[i]);
        s := s + separator;
        assert row.cells[..i + 1][..i] == row.cells[..i];
      }
      assert row.cells[..|row.cells|] == row.cells;
    }

    /** Draw: the table's lines, as Layout gives them, joined by newlines. */
    method Draw() returns (s: string)
      requires Drawable()
      ensures s == Join(Layout(header, rows, maxWidths[..]), "\n")
    {
      ghost var ws := maxWidths[..];
      var drawedRows := new string[|header| + |rows| + 3];
      var index := 0;
      var border := BorderString();

      drawedRows[index] := border;
      index := index + 1;

      for j := 0 to |header|
        invariant index == j + 1 && maxWidths[..] == ws
        invariant forall k :: 0 <= k < index ==> drawedRows[k] == LayoutLine(header, rows, ws, k)
      {
        var line := GenerateRowString(header[j]);
        drawedRows[index] := line;
        index := index + 1;
      }

      drawedRows[index] := border;
      index := index + 1;

      for j := 0 to |rows|
        invariant index == |header| + 2 + j && maxWidths[..] == ws
        invariant forall k :: 0 <= k < index ==> drawedRows[k] == LayoutLine(header, rows, ws, k)
      {
        var rowStr: string;
        if rows[j].kind == RowCells {
          rowStr := GenerateRowString(rows[j]);
        } else {
          rowStr := border;
        }
        drawedRows[index] := rowStr;
        index := index + 1;
      }

      if |rows| != 0 {
        drawedRows[index] := border;
        index := index + 1;
      }

      assert drawedRows[..index] == Layout(header, rows, ws);
      s := Join(drawedRows[..index], "\n");
    }

    /** Draw layout: a table whose header was set before any row was added
        can be drawn, and its drawing splits at the newlines back into
        Layout's lines, all equally long. */
    lemma DrawnLines()
      requires Valid() && since == 0
      ensures Drawable()
      ensures var lines := Layout(header, rows, maxWidths[..]);
        && SplitLines(Join(lines, "\n")) == lines
        && forall k :: 0 <= k < |lines| ==> |lines[k]| == Span(maxWidths[..])
    {
      LayoutLines(header, rows, maxWidths[..]);
    }
  }
}
