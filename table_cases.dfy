/** Concrete cases of the table stated on the model: the cases of the
    repository's table tests. */
module TableCases {
  import opened Strings
  import opened Table

  /** A string joined from `n` newline-free parts is `n` lines high. */
  lemma HeightOfJoin(parts: seq<string>)
    requires parts != [] && forall k :: 0 <= k < |parts| ==> '\n' !in parts[k]
    ensures Height(Join(parts, "\n")) == |parts|
  {
    SplitLinesOfJoin(parts);
  }

  /** A rule over four columns. */
  lemma BorderOfFour(a: nat, b: nat, c: nat, d: nat)
    ensures Border([a, b, c, d])
      == "+" + Repeat('-', a + 2) + "+" + Repeat('-', b + 2) + "+" + Repeat('-', c + 2) + "+" + Repeat('-', d + 2) + "+"
  {
    assert [a, b, c, d][..3] == [a, b, c] && [a, b, c][..2] == [a, b] && [a, b][..1] == [a] && [a][..0] == [];
    var ra, rb, rc, rd := Repeat('-', a + 2), Repeat('-', b + 2), Repeat('-', c + 2), Repeat('-', d + 2);
    assert Border([a]) == "+" + ra + "+";
    assert Border([a, b]) == "+" + ra + "+" + rb + "+";
    assert Border([a, b, c]) == "+" + ra + "+" + rb + "+" + rc + "+";
  }

  /** borderString over the widths 4, 5, 3, 2. */
  lemma BorderExample()
    ensures Border([4, 5, 3, 2]) == "+------+-------+-----+----+"
  {
    BorderOfFour(4, 5, 3, 2);
    assert Repeat('-', 6) == "------" && Repeat('-', 7) == "-------";
    assert Repeat('-', 5) == "-----" && Repeat('-', 4) == "----";
  }

  /** borderString over a single empty column. */
  lemma BorderOfEmptyColumn()
    ensures Border([0]) == "+--+"
  {
    assert [0][..0] == [];
    assert Repeat('-', 2) == "--";
  }

  /** formatCellUnit of a right-aligned cell as wide as its column. */
  lemma FormatRightFull()
    ensures FormatCellUnit(Cell("apple", AlignRight), 5) == " apple "
  {
    assert Repeat(' ', 0) == "";
  }

  /** formatCellUnit pads a right-aligned cell on the left. */
  lemma FormatRightPadded()
    ensures FormatCellUnit(Cell("apple", AlignRight), 10) == "      apple "
  {
    assert Repeat(' ', 5) == "     ";
  }

  /** formatCellUnit of a left-aligned cell as wide as its column. */
  lemma FormatLeftFull()
    ensures FormatCellUnit(Cell("orange", AlignLeft), 6) == " orange "
  {
    assert Repeat(' ', 0) == "";
  }

  /** formatCellUnit pads a left-aligned cell on the right. */
  lemma FormatLeftPadded()
    ensures FormatCellUnit(Cell("orange", AlignLeft), 10) == " orange     "
  {
    assert Repeat(' ', 4) == "    ";
  }

  /** The cells of the generateRowString example. */
  lemma RowCells()
    ensures FormatCellUnit(Cell("apple", AlignRight), 8) == "    apple "
    ensures FormatCellUnit(Cell("melon", AlignRight), 5) == " melon "
  {
    assert Repeat(' ', 3) == "   ";
    assert Repeat(' ', 0) == "";
  }

  /** A row line of two cells. */
  lemma RowTextOfTwo(c: Cell, d: Cell, v: nat, w: nat)
    requires Width(c.content) <= v && Width(d.content) <= w
    ensures RowText([c, d], [v, w]) == "|" + FormatCellUnit(c, v) + "|" + FormatCellUnit(d, w) + "|"
  {
    assert [c, d][..1] == [c] && [c][..0] == [];
    assert RowText([c], [v, w]) == "|" + FormatCellUnit(c, v) + "|";
  }

  /** generateRowString over the widths 8 and 5. */
  lemma RowTextExample()
    ensures RowText([Cell("apple", AlignRight), Cell("melon", AlignRight)], [8, 5]) == "|    apple | melon |"
  {
    RowTextOfTwo(Cell("apple", AlignRight), Cell("melon", AlignRight), 8, 5);
    RowCells();
  }

  /** The multi-line strings of the calcMaxHeight example, as their lines
      joined. */
  lemma HeightLines()
    ensures Join(["apple", "melon", "orange"], "\n") == "apple\nmelon\norange"
    ensures Join(["1", "2"], "\n") == "1\n2"
  {
    assert ["apple", "melon", "orange"][1..][1..] == ["orange"];
  }

  /** The multi-line strings of the stringsToTableRow example, as their
      lines joined. */
  lemma RowsLines()
    ensures Join(["orange", "melon", "grape", "nuts"], "\n") == "orange\nmelon\ngrape\nnuts"
    ensures Join(["peach", "banana"], "\n") == "peach\nbanana"
  {
    assert ["orange", "melon", "grape", "nuts"][1..][1..][1..] == ["nuts"];
  }

  /** The height of three strings is the largest of theirs. */
  lemma MaxHeightOfThree(a: string, b: string, c: string)
    ensures MaxHeight([a, b, c]) == Max(Max(Height(a), Height(b)), Height(c))
  {
    assert [a, b, c][..2] == [a, b] && [a, b][..1] == [a] && [a][..0] == [];
    assert MaxHeight([a]) == Height(a);
    assert MaxHeight([a, b]) == Max(Height(a), Height(b));
  }

  /** The larger of two integers. */
  function Max(x: int, y: int): int
  {
    if x < y then y else x
  }

  /** The heights of the calcMaxHeight example's strings. */
  lemma HeightsOfExample()
    ensures Height("hello") == 1 && Height("apple\nmelon\norange") == 3 && Height("1\n2") == 2
  {
    HeightOfJoin(["hello"]);
    HeightOfJoin(["apple", "melon", "orange"]);
    HeightOfJoin(["1", "2"]);
    HeightLines();
  }

  /** calcMaxHeight finds the three lines of the tallest string. */
  lemma MaxHeightExample()
    ensures MaxHeight(["hello", "apple\nmelon\norange", "1\n2"]) == 3
  {
    MaxHeightOfThree("hello", "apple\nmelon\norange", "1\n2");
    HeightsOfExample();
  }

  /** The heights of the stringsToTableRow example's strings. */
  lemma HeightsOfRows()
    ensures Height("apple") == 1 && Height("orange\nmelon\ngrape\nnuts") == 4 && Height("peach\nbanana") == 2
  {
    HeightOfJoin(["apple"]);
    HeightOfJoin(["orange", "melon", "grape", "nuts"]);
    HeightOfJoin(["peach", "banana"]);
    RowsLines();
  }

  /** stringsToTableRow spreads three strings of one, four and two lines
      over four rows of three cells. */
  lemma TableRowsExample()
    ensures var rows := TableRows(["apple", "orange\nmelon\ngrape\nnuts", "peach\nbanana"]);
      && |rows| == 4
      && forall j :: 0 <= j < |rows| ==> |rows[j].cells| == 3
  {
    var strs := ["apple", "orange\nmelon\ngrape\nnuts", "peach\nbanana"];
    MaxHeightOfThree(strs[0], strs[1], strs[2]);
    HeightsOfRows();
    TableRowsWellFormed(strs);
  }
}
