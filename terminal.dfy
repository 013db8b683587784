/** When the game can go on and when it is won (app/utils/gameLogic.ts):
    `canMove`, `hasWon` and `isGameOver`, each a scan of the board, and what
    `canMove` means in terms of the four moves. */
module Terminal {
  import opened Grid
  import opened Lines
  import opened Moves

  /** The tile at (i, j) equals its right or its bottom neighbour. */
  predicate MatchesNeighbour(b: Board, i: nat, j: nat)
    requires IsBoard(b) && i < BoardSize && j < BoardSize
  {
    b[i][j].Tile? &&
    ((j < BoardSize - 1 && b[i][j + 1] == b[i][j]) || (i < BoardSize - 1 && b[i + 1][j] == b[i][j]))
  }

  /** Some tile equals one of its neighbours. */
  predicate HasEqualNeighbours(b: Board)
    requires IsBoard(b)
  {
    exists i, j :: 0 <= i < BoardSize && 0 <= j < BoardSize && MatchesNeighbour(b, i, j)
  }

  /** What `canMove` answers: an empty cell or two equal neighbours exist. */
  predicate Movable(b: Board)
    requires IsBoard(b)
  {
    HasEmptyCell(b) || HasEqualNeighbours(b)
  }

  /** Some cell holds exactly the winning value. */
  predicate HasWinningTile(b: Board)
    requires IsBoard(b)
  {
    exists i, j :: 0 <= i < BoardSize && 0 <= j < BoardSize && b[i][j] == Tile(WinningTile)
  }

  /** Every cell of the board is empty. */
  predicate AllEmpty(b: Board)
    requires IsBoard(b)
  {
    forall i, j :: 0 <= i < BoardSize && 0 <= j < BoardSize ==> b[i][j].Empty?
  }

  // ---------------------------------------------------------------------------
  // The scans

  /** `canMove`: first look for an empty cell, then for a tile equal to its
      right or bottom neighbour. */
  method CanMove(board: Board) returns (movable: bool)
    requires IsBoard(board)
    ensures movable <==> Movable(board)
  {
    for i := 0 to BoardSize
      invariant forall r, c :: 0 <= r < i && 0 <= c < BoardSize ==> board[r][c].Tile?
    {
      for j := 0 to BoardSize
        invariant forall r, c :: 0 <= r < i && 0 <= c < BoardSize ==> board[r][c].Tile?
        invariant forall c :: 0 <= c < j ==> board[i][c].Tile?
      {
        if board[i][j].Empty? {
          return true;
        }
      }
    }
    assert !HasEmptyCell(board);
    for i := 0 to BoardSize
      invariant forall r, c :: 0 <= r < i && 0 <= c < BoardSize ==> !MatchesNeighbour(board, r, c)
    {
      for j := 0 to BoardSize
        invariant forall r, c :: 0 <= r < i && 0 <= c < BoardSize ==> !MatchesNeighbour(board, r, c)
        invariant forall c :: 0 <= c < j ==> !MatchesNeighbour(board, i, c)
      {
        var current := board[i][j];
        if current.Empty? {
          continue;
        }
        if j < BoardSize - 1 && board[i][j + 1] == current {
          assert MatchesNeighbour(board, i, j);
          return true;
        }
        if i < BoardSize - 1 && board[i + 1][j] == current {
          assert MatchesNeighbour(board, i, j);
          return true;
        }
      }
    }
    return false;
  }

  /** `hasWon`: look for a cell holding the winning value. */
  method HasWon(board: Board) returns (won: bool)
    requires IsBoard(board)
    ensures won <==> HasWinningTile(board)
  {
    for i := 0 to BoardSize
      invariant forall r, c :: 0 <= r < i && 0 <= c < BoardSize ==> board[r][c] != Tile(WinningTile)
    {
      for j := 0 to BoardSize
        invariant forall r, c :: 0 <= r < i && 0 <= c < BoardSize ==> board[r][c] != Tile(WinningTile)
        invariant forall c :: 0 <= c < j ==> board[i][c] != Tile(WinningTile)
      {
        if board[i][j] == Tile(WinningTile) {
          return true;
        }
      }
    }
    return false;
  }

  /** `isGameOver`: the negation of `canMove`. */
  method IsGameOver(board: Board) returns (over: bool)
    requires IsBoard(board)
    ensures over <==> !Movable(board)
  {
    var movable := CanMove(board);
    over := !movable;
  }

  // ---------------------------------------------------------------------------
  // What canMove means

  /** Every cell of the line is empty. */
  predicate LineEmpty(line: Line) {
    forall k :: 0 <= k < |line| ==> line[k].Empty?
  }

  /** Every cell of the line holds a tile and no two neighbouring tiles are equal. */
  predicate LineLocked(line: Line) {
    (forall k :: 0 <= k < |line| ==> line[k].Tile?) &&
    (forall k :: 0 <= k < |line| - 1 ==> line[k] != line[k + 1])
  }

  /** A locked line comes back unchanged from a move in either direction. */
  lemma LockedLineFrozen(line: Line)
    requires |line| == BoardSize && LineLocked(line)
    ensures SlideLeft(line) == line && SlideRight(line) == line
  {
    FullLineValues(line);
    var v := Values(line);
    forall i, j | 0 <= i < j < |v| && j == i + 1
      ensures v[i] != v[j]
    {
      assert line[i] != line[i + 1];
    }
    SlideLeftFixedPoint(line);
    SlideRightFixedPoint(line);
  }

  /** A line that comes back unchanged from a move in both directions is all
      empty or locked. */
  lemma StuckLine(line: Line)
    requires |line| == BoardSize && SlideLeft(line) == line && SlideRight(line) == line
    ensures LineEmpty(line) || LineLocked(line)
  {
    SlideLeftFixedPoint(line);
    SlideRightFixedPoint(line);
    PackedBothWays(line);
    if forall k :: 0 <= k < BoardSize ==> line[k].Tile? {
      FullLineValues(line);
      var v := Values(line);
      forall k | 0 <= k < BoardSize - 1
        ensures line[k] != line[k + 1]
      {
        assert v[k] != v[k + 1];
      }
    }
  }

  /** On a board `canMove` rejects, every row and every column is locked. */
  lemma GameOverLocked(b: Board)
    requires IsBoard(b) && !Movable(b)
    ensures forall i :: 0 <= i < BoardSize ==> LineLocked(b[i])
    ensures forall j :: 0 <= j < BoardSize ==> LineLocked(Column(b, j))
  {
    forall i | 0 <= i < BoardSize
      ensures LineLocked(b[i])
    {
      forall k | 0 <= k < BoardSize - 1
        ensures b[i][k] != b[i][k + 1]
      {
        assert !MatchesNeighbour(b, i, k);
      }
    }
    forall j | 0 <= j < BoardSize
      ensures LineLocked(Column(b, j))
    {
      forall k | 0 <= k < BoardSize - 1
        ensures Column(b, j)[k] != Column(b, j)[k + 1]
      {
        assert !MatchesNeighbour(b, k, j);
      }
    }
  }

  /** On a board `canMove` rejects, no move changes anything. */
  lemma GameOverFrozen(b: Board, d: Direction)
    requires IsBoard(b) && !Movable(b)
    ensures Move(b, d) == b
  {
    GameOverLocked(b);
    forall i | 0 <= i < BoardSize
      ensures SlideLeft(b[i]) == b[i] && SlideRight(b[i]) == b[i]
    {
      LockedLineFrozen(b[i]);
    }
    forall j | 0 <= j < BoardSize
      ensures SlideLeft(Column(b, j)) == Column(b, j) && SlideRight(Column(b, j)) == Column(b, j)
    {
      LockedLineFrozen(Column(b, j));
    }
    var m := Move(b, d);
    forall i | 0 <= i < BoardSize
      ensures m[i] == b[i]
    {
      forall j | 0 <= j < BoardSize
        ensures m[i][j] == b[i][j]
      {
        assert Column(b, j)[i] == b[i][j];
      }
    }
  }

  /** On a board that no move changes, every row and every column is all empty
      or locked. */
  lemma StuckLines(b: Board)
    requires IsBoard(b)
    requires forall d :: Move(b, d) == b
    ensures forall i :: 0 <= i < BoardSize ==> LineEmpty(b[i]) || LineLocked(b[i])
    ensures forall j :: 0 <= j < BoardSize ==> LineEmpty(Column(b, j)) || LineLocked(Column(b, j))
  {
    assert Move(b, Left) == b && Move(b, Right) == b && Move(b, Up) == b && Move(b, Down) == b;
    forall i | 0 <= i < BoardSize
      ensures LineEmpty(b[i]) || LineLocked(b[i])
    {
      assert MoveLeftBoard(b)[i] == b[i] && MoveRightBoard(b)[i] == b[i];
      StuckLine(b[i]);
    }
    forall j | 0 <= j < BoardSize
      ensures LineEmpty(Column(b, j)) || LineLocked(Column(b, j))
    {
      ColumnsOfVerticalMoves(b, j);
      StuckLine(Column(b, j));
    }
  }

  /** A board that no move changes is all empty, or one `canMove` rejects. */
  lemma StuckBoard(b: Board)
    requires IsBoard(b)
    requires forall d :: Move(b, d) == b
    ensures AllEmpty(b) || !Movable(b)
  {
    StuckLines(b);
    if HasEmptyCell(b) {
      var i0, j0 :| 0 <= i0 < BoardSize && 0 <= j0 < BoardSize && b[i0][j0].Empty?;
      assert !LineLocked(b[i0]);
      forall i, j | 0 <= i < BoardSize && 0 <= j < BoardSize
        ensures b[i][j].Empty?
      {
        assert Column(b, j)[i0].Empty?;
        assert Column(b, j)[i] == b[i][j];
      }
    } else {
      forall i, j | 0 <= i < BoardSize && 0 <= j < BoardSize
        ensures !MatchesNeighbour(b, i, j)
      {
        assert b[i][j].Tile?;
        assert !LineEmpty(b[i]) && !LineEmpty(Column(b, j));
        if i < BoardSize - 1 {
          assert Column(b, j)[i] == b[i][j] && Column(b, j)[i + 1] == b[i + 1][j];
        }
      }
    }
  }

  /** `canMove` holds exactly when the board is all empty or some move changes
      it: the check for empty cells and equal neighbours decides "a move does
      something" on every board but the empty one. */
  lemma CanMoveCharacterisation(b: Board)
    requires IsBoard(b)
    ensures Movable(b) <==> AllEmpty(b) || exists d :: Move(b, d) != b
  {
    if AllEmpty(b) {
      assert b[0][0].Empty?;
    }
    if exists d :: Move(b, d) != b {
      var d :| Move(b, d) != b;
      if !Movable(b) {
        GameOverFrozen(b, d);
      }
    }
    if Movable(b) && !AllEmpty(b) && forall d :: Move(b, d) == b {
      StuckBoard(b);
    }
  }
}
