/** What the score of a move is and is not (app/utils/gameLogic.ts). The sum of
    all tile values on the board never changes under a move, while
    `calculateScore` adds the value of every tile that now stands where a
    different cell stood: merged tiles and tiles that only slid alike. */
module Scoring {
  import opened Grid
  import opened Lines
  import opened Moves

  /** The value a cell adds to a sum: its tile's value, or nothing. */
  function CellValue(c: Cell): int {
    if c.Tile? then c.value else 0
  }

  /** The sum of the first `k` cells of a line. */
  function CellsSum(line: Line, k: nat): int
    requires k <= |line|
  {
    if k == 0 then 0 else CellsSum(line, k - 1) + CellValue(line[k - 1])
  }

  /** The sum of the tiles of the first `k` rows. */
  function RowsTotal(b: Board, k: nat): int
    requires k <= |b|
  {
    if k == 0 then 0 else RowsTotal(b, k - 1) + LineSum(b[k - 1])
  }

  /** The sum of the tiles of the first `k` columns. */
  function ColumnsTotal(b: Board, k: nat): int
    requires IsBoard(b) && k <= BoardSize
  {
    if k == 0 then 0 else ColumnsTotal(b, k - 1) + LineSum(Column(b, k - 1))
  }

  /** The sum of all tile values on the board. */
  function Total(b: Board): int
    requires IsBoard(b)
  {
    RowsTotal(b, BoardSize)
  }

  /** The tile sum of a prefix of a line, cell by cell. */
  lemma {:induction false} LineSumByCells(line: Line, k: nat)
    requires k <= |line|
    ensures LineSum(line[..k]) == CellsSum(line, k)
  {
    if k > 0 {
      LineSumByCells(line, k - 1);
      var prefix := line[..k];
      assert prefix[..k - 1] == line[..k - 1];
      assert Values(prefix) == Values(line[..k - 1]) + CellValues(line[k - 1]);
      SumAppend(Values(line[..k - 1]), CellValues(line[k - 1]));
    }
  }

  /** The tile sum of a line of BoardSize cells, written out. */
  lemma LineSumOfFour(line: Line)
    requires |line| == BoardSize
    ensures LineSum(line) == CellValue(line[0]) + CellValue(line[1]) + CellValue(line[2]) + CellValue(line[3])
  {
    LineSumByCells(line, BoardSize);
    assert line[..BoardSize] == line;
    assert CellsSum(line, 1) == CellValue(line[0]);
    assert CellsSum(line, 2) == CellsSum(line, 1) + CellValue(line[1]);
    assert CellsSum(line, 3) == CellsSum(line, 2) + CellValue(line[2]);
  }

  /** Adding up the rows or adding up the columns gives the same total. */
  lemma TotalByColumns(b: Board)
    requires IsBoard(b)
    ensures Total(b) == ColumnsTotal(b, BoardSize)
  {
    LineSumOfFour(b[0]);
    LineSumOfFour(b[1]);
    LineSumOfFour(b[2]);
    LineSumOfFour(b[3]);
    LineSumOfFour(Column(b, 0));
    LineSumOfFour(Column(b, 1));
    LineSumOfFour(Column(b, 2));
    LineSumOfFour(Column(b, 3));
    assert RowsTotal(b, 1) == LineSum(b[0]);
    assert RowsTotal(b, 2) == RowsTotal(b, 1) + LineSum(b[1]);
    assert RowsTotal(b, 3) == RowsTotal(b, 2) + LineSum(b[2]);
    assert ColumnsTotal(b, 1) == LineSum(Column(b, 0));
    assert ColumnsTotal(b, 2) == ColumnsTotal(b, 1) + LineSum(Column(b, 1));
    assert ColumnsTotal(b, 3) == ColumnsTotal(b, 2) + LineSum(Column(b, 2));
  }

  lemma {:induction false} RowsTotalAgree(a: Board, b: Board, k: nat)
    requires k <= |a| && k <= |b|
    requires forall i :: 0 <= i < k ==> LineSum(a[i]) == LineSum(b[i])
    ensures RowsTotal(a, k) == RowsTotal(b, k)
  {
    if k > 0 {
      RowsTotalAgree(a, b, k - 1);
    }
  }

  lemma {:induction false} ColumnsTotalAgree(a: Board, b: Board, k: nat)
    requires IsBoard(a) && IsBoard(b) && k <= BoardSize
    requires forall j :: 0 <= j < k ==> LineSum(Column(a, j)) == LineSum(Column(b, j))
    ensures ColumnsTotal(a, k) == ColumnsTotal(b, k)
  {
    if k > 0 {
      ColumnsTotalAgree(a, b, k - 1);
    }
  }

  /** No move changes the sum of all tile values on the board: a merge turns
      two tiles of value v into one of value 2v. */
  lemma TotalKept(b: Board, d: Direction)
    requires IsBoard(b)
    ensures Total(Move(b, d)) == Total(b)
  {
    var m := Move(b, d);
    match d {
      case Left =>
        RowSumsKept(b);
        RowsTotalAgree(m, b, BoardSize);
      case Right =>
        RowSumsKept(b);
        RowsTotalAgree(m, b, BoardSize);
      case Up =>
        ColumnSumsKept(b);
        TotalByColumns(b);
        TotalByColumns(m);
        ColumnsTotalAgree(m, b, BoardSize);
      case Down =>
        ColumnSumsKept(b);
        TotalByColumns(b);
        TotalByColumns(m);
        ColumnsTotalAgree(m, b, BoardSize);
    }
  }

  /** The score is not what the move adds to the board: the total after a
      move equals the total before plus the move's score only when the score
      is zero. */
  lemma ScoreIsNotTotalGain(b: Board, d: Direction)
    requires IsBoard(b)
    ensures Total(Move(b, d)) == Total(b) + ScoreOf(b, Move(b, d)) <==> ScoreOf(b, Move(b, d)) == 0
  {
    TotalKept(b, d);
  }

  // ---------------------------------------------------------------------------
  // Lines moved to the left, and what each scores

  /** The score a row earns when it is moved to the left. */
  function RowScoreLeft(row: Line): int
    requires |row| == BoardSize
  {
    LineGain(row, SlideLeft(row), BoardSize)
  }

  lemma ValuesOfFour(line: Line)
    requires |line| == 4
    ensures Values(line) == CellValues(line[0]) + CellValues(line[1]) + CellValues(line[2]) + CellValues(line[3])
  {
    assert line[..1][..0] == [];
    assert Values(line[..1]) == CellValues(line[0]);
    assert line[..2][..1] == line[..1];
    assert Values(line[..2]) == Values(line[..1]) + CellValues(line[1]);
    assert line[..3][..2] == line[..2];
    assert Values(line[..3]) == Values(line[..2]) + CellValues(line[2]);
    assert line[..3] == line[..4][..3] && line[..4] == line;
  }

  /** Three equal tiles: only the first pair merges. The 2 left over lands
      where a 2 stood, so only the merged 4 is scored. */
  lemma MergeExampleTriple()
    ensures SlideLeft([Tile(2), Tile(2), Tile(2), Empty]) == [Tile(4), Tile(2), Empty, Empty]
    ensures RowScoreLeft([Tile(2), Tile(2), Tile(2), Empty]) == 4
  {
    ValuesOfFour([Tile(2), Tile(2), Tile(2), Empty]);
    assert Values([Tile(2), Tile(2), Tile(2), Empty]) == [2, 2, 2];
    assert [2, 2, 2][2..] == [2];
    assert [2][1..] == [];
    assert MergeForward([2, 2, 2]) == [4, 2];
  }

  /** Two pairs merge separately, and 4 + 8 is scored. */
  lemma MergeExampleTwoPairs()
    ensures SlideLeft([Tile(2), Tile(2), Tile(4), Tile(4)]) == [Tile(4), Tile(8), Empty, Empty]
    ensures RowScoreLeft([Tile(2), Tile(2), Tile(4), Tile(4)]) == 12
  {
    ValuesOfFour([Tile(2), Tile(2), Tile(4), Tile(4)]);
    assert Values([Tile(2), Tile(2), Tile(4), Tile(4)]) == [2, 2, 4, 4];
    assert [2, 2, 4, 4][2..] == [4, 4];
    assert [4, 4][2..] == [];
    assert MergeForward([2, 2, 4, 4]) == [4, 8];
  }

  /** A gap closes before merging; the last 2 has no partner left. The slid 2
      at the second position is scored as well: 4 + 2. */
  lemma MergeExampleGap()
    ensures SlideLeft([Tile(2), Empty, Tile(2), Tile(2)]) == [Tile(4), Tile(2), Empty, Empty]
    ensures RowScoreLeft([Tile(2), Empty, Tile(2), Tile(2)]) == 6
  {
    ValuesOfFour([Tile(2), Empty, Tile(2), Tile(2)]);
    assert Values([Tile(2), Empty, Tile(2), Tile(2)]) == [2, 2, 2];
    assert [2, 2, 2][2..] == [2];
    assert [2][1..] == [];
    assert MergeForward([2, 2, 2]) == [4, 2];
  }

  /** A tile made by a merge is not merged again in the same move, and the 4
      that only slid is scored beside the merged one: 4 + 4. */
  lemma MergeExampleNoChain()
    ensures SlideLeft([Tile(2), Tile(2), Tile(4), Empty]) == [Tile(4), Tile(4), Empty, Empty]
    ensures RowScoreLeft([Tile(2), Tile(2), Tile(4), Empty]) == 8
  {
    ValuesOfFour([Tile(2), Tile(2), Tile(4), Empty]);
    assert Values([Tile(2), Tile(2), Tile(4), Empty]) == [2, 2, 4];
    assert [2, 2, 4][2..] == [4];
    assert [4][1..] == [];
    assert MergeForward([2, 2, 4]) == [4, 4];
  }

  /** A lone tile that only slides scores its value. */
  lemma MergeExampleSlideOnly()
    ensures SlideLeft([Empty, Tile(2), Empty, Empty]) == [Tile(2), Empty, Empty, Empty]
    ensures RowScoreLeft([Empty, Tile(2), Empty, Empty]) == 2
  {
    ValuesOfFour([Empty, Tile(2), Empty, Empty]);
    assert Values([Empty, Tile(2), Empty, Empty]) == [2];
    assert [2][1..] == [];
    assert MergeForward([2]) == [2];
  }

  /** A tile that slides onto a cell holding an equal tile adds nothing: the
      last 4 lands where a 4 stood, so only the merged 8 is scored. */
  lemma MergeExampleSlidOntoEqual()
    ensures SlideLeft([Tile(2), Tile(4), Tile(4), Tile(4)]) == [Tile(2), Tile(8), Tile(4), Empty]
    ensures RowScoreLeft([Tile(2), Tile(4), Tile(4), Tile(4)]) == 8
  {
    ValuesOfFour([Tile(2), Tile(4), Tile(4), Tile(4)]);
    assert Values([Tile(2), Tile(4), Tile(4), Tile(4)]) == [2, 4, 4, 4];
    assert [2, 4, 4, 4][1..] == [4, 4, 4];
    assert [4, 4, 4][2..] == [4];
    assert [4][1..] == [];
    assert MergeForward([2, 4, 4, 4]) == [2, 8, 4];
  }

  /** A merge can score nothing: the merged 4 lands where a 4 stood, and only
      the 4 that slid into the first cell is scored. */
  lemma MergeExampleUnscoredMerge()
    ensures SlideLeft([Empty, Tile(4), Tile(2), Tile(2)]) == [Tile(4), Tile(4), Empty, Empty]
    ensures RowScoreLeft([Empty, Tile(4), Tile(2), Tile(2)]) == 4
  {
    ValuesOfFour([Empty, Tile(4), Tile(2), Tile(2)]);
    assert Values([Empty, Tile(4), Tile(2), Tile(2)]) == [4, 2, 2];
    assert [4, 2, 2][1..] == [2, 2];
    assert [2, 2][2..] == [];
    assert MergeForward([4, 2, 2]) == [4, 4];
  }
}
