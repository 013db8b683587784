/** The 2048 board as a value: a grid of cells, each empty or holding a number.
    A board is never updated in place by the engine; every operation returns a new one. */
module Grid {

  /** Side length of the square board. */
  const BoardSize: nat := 4

  /** The tile value whose presence means the player has won. */
  const WinningTile: int := 2048

  /** A cell is empty (`null` in the game) or holds a number. Nothing forces the
      number to be a power of two, or even positive. */
  datatype Cell = Empty | Tile(value: int)

  /** One row or one column of the board. */
  type Line = seq<Cell>

  /** Rows of cells, top to bottom; each row left to right. */
  type Board = seq<Line>

  /** The board has BoardSize rows of BoardSize cells each. */
  predicate IsBoard(b: Board) {
    |b| == BoardSize && forall i :: 0 <= i < |b| ==> |b[i]| == BoardSize
  }

  /** Every tile on the line holds a value of at least zero. */
  predicate LineNonNegative(line: Line) {
    forall c :: c in line && c.Tile? ==> c.value >= 0
  }

  /** Every tile on the board holds a value of at least zero. */
  predicate NonNegative(b: Board) {
    forall i :: 0 <= i < |b| ==> LineNonNegative(b[i])
  }

  /** Column `c` of the board, read top to bottom. */
  function Column(b: Board, c: nat): (col: Line)
    requires IsBoard(b) && c < BoardSize
    ensures |col| == BoardSize
    ensures forall r :: 0 <= r < BoardSize ==> col[r] == b[r][c]
  {
    seq(BoardSize, r requires 0 <= r < BoardSize => b[r][c])
  }

  /** The board mirrored along its main diagonal: row `i` of the result is column `i`. */
  function Transpose(b: Board): (t: Board)
    requires IsBoard(b)
    ensures IsBoard(t)
    ensures forall i, j :: 0 <= i < BoardSize && 0 <= j < BoardSize ==> t[i][j] == b[j][i]
  {
    seq(BoardSize, i requires 0 <= i < BoardSize => Column(b, i))
  }

  /** Some cell of the board is empty. */
  predicate HasEmptyCell(b: Board)
    requires IsBoard(b)
  {
    exists i, j :: 0 <= i < BoardSize && 0 <= j < BoardSize && b[i][j].Empty?
  }
}
