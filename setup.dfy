/** Building boards: the empty board, spawning one random tile, and the starting
    board with two spawned tiles (app/utils/gameLogic.ts). The two `Math.random()`
    draws of a spawn come in as parameters: `roll` picks the empty cell, `coin`
    picks the value. */
module Setup {
  import opened Grid
  import opened Lines

  /** The board with no tile. */
  function CreateEmptyBoard(): (b: Board)
    ensures IsBoard(b)
    ensures forall i, j :: 0 <= i < BoardSize && 0 <= j < BoardSize ==> b[i][j] == Empty
  {
    seq(BoardSize, _ => Empties(BoardSize))
  }

  /** A (row, column) position on the board. */
  type Position = p: (nat, nat) | p.0 < BoardSize && p.1 < BoardSize witness (0, 0)

  /** The empty cells of row `i` among its first `j` columns, left to right. */
  function EmptyInRow(b: Board, i: nat, j: nat): seq<Position>
    requires IsBoard(b) && i < BoardSize && j <= BoardSize
  {
    if j == 0 then []
    else EmptyInRow(b, i, j - 1) + (if b[i][j - 1].Empty? then [(i, j - 1)] else [])
  }

  /** The empty cells of the first `i` rows, row by row. */
  function EmptyInRows(b: Board, i: nat): seq<Position>
    requires IsBoard(b) && i <= BoardSize
  {
    if i == 0 then []
    else EmptyInRows(b, i - 1) + EmptyInRow(b, i - 1, BoardSize)
  }

  /** All empty cells of the board as (row, column), in reading order. */
  function EmptyCells(b: Board): seq<Position>
    requires IsBoard(b)
  {
    EmptyInRows(b, BoardSize)
  }

  lemma {:induction false} EmptyInRowMembers(b: Board, i: nat, j: nat)
    requires IsBoard(b) && i < BoardSize && j <= BoardSize
    ensures forall p: Position :: p in EmptyInRow(b, i, j) <==> p.0 == i && p.1 < j && b[i][p.1].Empty?
  {
    if j > 0 {
      EmptyInRowMembers(b, i, j - 1);
    }
  }

  lemma {:induction false} EmptyInRowsMembers(b: Board, i: nat)
    requires IsBoard(b) && i <= BoardSize
    ensures forall p: Position :: p in EmptyInRows(b, i) <==> p.0 < i && b[p.0][p.1].Empty?
  {
    if i > 0 {
      EmptyInRowsMembers(b, i - 1);
      EmptyInRowMembers(b, i - 1, BoardSize);
    }
  }

  /** The list of empty cells holds exactly the positions of the empty cells. */
  lemma EmptyCellsMembers(b: Board)
    requires IsBoard(b)
    ensures forall p: Position :: p in EmptyCells(b) <==> b[p.0][p.1].Empty?
  {
    EmptyInRowsMembers(b, BoardSize);
  }

  /** `Math.floor(roll * n)` for a draw `roll` in [0, 1): an index below `n`. */
  function PickIndex(roll: real, n: nat): (k: nat)
    requires 0.0 <= roll < 1.0 && n > 0
    ensures k < n
  {
    assert 0.0 <= roll * n as real < n as real;
    (roll * n as real).Floor
  }

  /** A new tile is a 2 when the draw is below 0.9, and a 4 otherwise. */
  function NewTileValue(coin: real): int {
    if coin < 0.9 then 2 else 4
  }

  /** The board after `addRandomTile`: unchanged when it has no empty cell,
      otherwise the empty cell picked by `roll` gets the value picked by `coin`. */
  function SpawnTile(b: Board, roll: real, coin: real): (r: Board)
    requires IsBoard(b) && 0.0 <= roll < 1.0
    ensures IsBoard(r)
  {
    var cells := EmptyCells(b);
    if |cells| == 0 then b
    else
      var p := cells[PickIndex(roll, |cells|)];
      b[p.0 := b[p.0][p.1 := Tile(NewTileValue(coin))]]
  }

  /** The number of tiles on the board. */
  function TileCount(b: Board): nat {
    if b == [] then 0 else |Values(b[0])| + TileCount(b[1..])
  }

  /** Every tile on the board is a 2 or a 4. */
  predicate OnlySpawnedValues(b: Board)
    requires IsBoard(b)
  {
    forall i, j :: 0 <= i < BoardSize && 0 <= j < BoardSize && b[i][j].Tile? ==> b[i][j].value == 2 || b[i][j].value == 4
  }

  // ---------------------------------------------------------------------------
  // Counting tiles

  /** Filling an empty cell of a line adds one value. */
  lemma FillLineCount(line: Line, j: nat, v: int)
    requires j < |line| && line[j].Empty?
    ensures |Values(line[j := Tile(v)])| == |Values(line)| + 1
  {
    var before, after := line[..j], line[j + 1..];
    assert line == before + [line[j]] + after;
    assert line[j := Tile(v)] == before + [Tile(v)] + after;
    ValuesAppend(before + [line[j]], after);
    ValuesAppend(before, [line[j]]);
    ValuesAppend(before + [Tile(v)], after);
    ValuesAppend(before, [Tile(v)]);
    assert Values([line[j]]) == [] by { assert [line[j]][..0] == []; }
    assert Values([Tile(v)]) == [v] by { assert [Tile(v)][..0] == []; }
  }

  /** Filling an empty cell of the board adds one tile. */
  lemma {:induction false} FillBoardCount(b: Board, i: nat, j: nat, v: int)
    requires i < |b| && j < |b[i]| && b[i][j].Empty?
    ensures TileCount(b[i := b[i][j := Tile(v)]]) == TileCount(b) + 1
  {
    var b' := b[i := b[i][j := Tile(v)]];
    if i == 0 {
      assert b'[1..] == b[1..];
      FillLineCount(b[0], j, v);
    } else {
      assert b'[1..] == b[1..][i - 1 := b[i][j := Tile(v)]];
      FillBoardCount(b[1..], i - 1, j, v);
    }
  }

  lemma {:induction false} FullRowsCount(b: Board)
    requires forall i :: 0 <= i < |b| ==> |b[i]| == BoardSize
    requires forall i, j :: 0 <= i < |b| && 0 <= j < BoardSize ==> b[i][j].Tile?
    ensures TileCount(b) == BoardSize * |b|
  {
    if b != [] {
      FullLineValues(b[0]);
      FullRowsCount(b[1..]);
    }
  }

  /** A board with no empty cell holds BoardSize * BoardSize tiles. */
  lemma FullBoardCount(b: Board)
    requires IsBoard(b) && !HasEmptyCell(b)
    ensures TileCount(b) == BoardSize * BoardSize
  {
    FullRowsCount(b);
  }

  lemma {:induction false} EmptyRowsCount(b: Board)
    requires forall i :: 0 <= i < |b| ==> b[i] == Empties(BoardSize)
    ensures TileCount(b) == 0
  {
    if b != [] {
      ValuesOfEmpties(BoardSize);
      EmptyRowsCount(b[1..]);
    }
  }

  // ---------------------------------------------------------------------------
  // What a spawn does

  /** A spawn on a board with no empty cell returns it unchanged. Otherwise
      exactly one empty cell gets a tile of the value picked by `coin` (2 or 4),
      every other cell is kept, and the board holds one more tile. */
  lemma SpawnTileEffect(b: Board, roll: real, coin: real)
    requires IsBoard(b) && 0.0 <= roll < 1.0
    ensures !HasEmptyCell(b) ==> SpawnTile(b, roll, coin) == b
    ensures HasEmptyCell(b) ==> TileCount(SpawnTile(b, roll, coin)) == TileCount(b) + 1
    ensures HasEmptyCell(b) ==>
      exists i, j :: 0 <= i < BoardSize && 0 <= j < BoardSize && b[i][j].Empty? &&
        SpawnTile(b, roll, coin)[i][j] == Tile(NewTileValue(coin)) &&
        forall i', j' :: 0 <= i' < BoardSize && 0 <= j' < BoardSize && (i', j') != (i, j) ==>
          SpawnTile(b, roll, coin)[i'][j'] == b[i'][j']
  {
    var cells := EmptyCells(b);
    EmptyCellsMembers(b);
    if HasEmptyCell(b) {
      var i, j :| 0 <= i < BoardSize && 0 <= j < BoardSize && b[i][j].Empty?;
      assert (i, j) in cells;
    }
    if |cells| != 0 {
      var p := cells[PickIndex(roll, |cells|)];
      assert p in cells;
      FillBoardCount(b, p.0, p.1, NewTileValue(coin));
    }
  }

  /** The starting board holds exactly two tiles, each a 2 or a 4. */
  lemma InitialBoardFacts(roll1: real, coin1: real, roll2: real, coin2: real)
    requires 0.0 <= roll1 < 1.0 && 0.0 <= roll2 < 1.0
    ensures var board := SpawnTile(SpawnTile(CreateEmptyBoard(), roll1, coin1), roll2, coin2);
      TileCount(board) == 2 && OnlySpawnedValues(board)
  {
    var empty := CreateEmptyBoard();
    EmptyRowsCount(empty);
    assert empty[0][0].Empty?;
    SpawnTileEffect(empty, roll1, coin1);
    SpawnKeepsSpawnedValues(empty, roll1, coin1);
    var first := SpawnTile(empty, roll1, coin1);
    if !HasEmptyCell(first) {
      FullBoardCount(first);
    }
    SpawnTileEffect(first, roll2, coin2);
    SpawnKeepsSpawnedValues(first, roll2, coin2);
  }

  /** Spawning keeps "every tile is a 2 or a 4". */
  lemma SpawnKeepsSpawnedValues(b: Board, roll: real, coin: real)
    requires IsBoard(b) && 0.0 <= roll < 1.0 && OnlySpawnedValues(b)
    ensures OnlySpawnedValues(SpawnTile(b, roll, coin))
  {
    SpawnTileEffect(b, roll, coin);
  }

  /** Spawning keeps every tile value non-negative. */
  lemma SpawnKeepsNonNegative(b: Board, roll: real, coin: real)
    requires IsBoard(b) && 0.0 <= roll < 1.0 && NonNegative(b)
    ensures NonNegative(SpawnTile(b, roll, coin))
  {
    SpawnTileEffect(b, roll, coin);
    var r := SpawnTile(b, roll, coin);
    forall i | 0 <= i < BoardSize
      ensures LineNonNegative(r[i])
    {
      forall c: Cell | c in r[i] && c.Tile?
        ensures c.value >= 0
      {
        var j :| 0 <= j < BoardSize && r[i][j] == c;
        if r[i][j] != b[i][j] {
          assert c == Tile(NewTileValue(coin));
        } else {
          assert b[i][j] in b[i];
        }
      }
    }
  }

  // ---------------------------------------------------------------------------
  // The operations

  /** `addRandomTile`: collect the empty cells in reading order, then give the
      picked one a 2 or a 4 on a copy of the board. */
  method AddRandomTile(board: Board, roll: real, coin: real) returns (r: Board)
    requires IsBoard(board) && 0.0 <= roll < 1.0
    ensures r == SpawnTile(board, roll, coin)
  {
    var emptyCells: seq<Position> := [];
    for i := 0 to BoardSize
      invariant emptyCells == EmptyInRows(board, i)
    {
      for j := 0 to BoardSize
        invariant emptyCells == EmptyInRows(board, i) + EmptyInRow(board, i, j)
      {
        if board[i][j].Empty? {
          emptyCells := emptyCells + [(i, j)];
        }
      }
    }
    if |emptyCells| == 0 {
      return board;
    }
    var p := emptyCells[PickIndex(roll, |emptyCells|)];
    var row, col := p.0, p.1;
    var newBoard := board;
    newBoard := newBoard[row := newBoard[row][col := Tile(NewTileValue(coin))]];
    return newBoard;
  }

  /** `initializeBoard`: two spawns on the empty board. The result holds exactly
      two tiles, each a 2 or a 4. */
  method InitializeBoard(roll1: real, coin1: real, roll2: real, coin2: real) returns (board: Board)
    requires 0.0 <= roll1 < 1.0 && 0.0 <= roll2 < 1.0
    ensures board == SpawnTile(SpawnTile(CreateEmptyBoard(), roll1, coin1), roll2, coin2)
    ensures TileCount(board) == 2 && OnlySpawnedValues(board)
  {
    var empty := CreateEmptyBoard();
    var first := AddRandomTile(empty, roll1, coin1);
    InitialBoardFacts(roll1, coin1, roll2, coin2);
    board := AddRandomTile(first, roll2, coin2);
  }
}
