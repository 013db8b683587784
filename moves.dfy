/** The four moves and the score of a move (app/utils/gameLogic.ts). Each move
    returns a new board and the score `calculateScore` gives it; the input board
    is a value and is never changed. */
module Moves {
  import opened Grid
  import opened Lines
  import Setup

  datatype Direction = Left | Right | Up | Down

  /** Every row moved to the left. */
  function MoveLeftBoard(b: Board): (r: Board)
    requires IsBoard(b)
    ensures IsBoard(r)
  {
    seq(BoardSize, i requires 0 <= i < BoardSize => SlideLeft(b[i]))
  }

  /** Every row moved to the right. */
  function MoveRightBoard(b: Board): (r: Board)
    requires IsBoard(b)
    ensures IsBoard(r)
  {
    seq(BoardSize, i requires 0 <= i < BoardSize => SlideRight(b[i]))
  }

  /** Every column moved up: column `j` of the result is column `j` of `b` slid
      towards its top. */
  function MoveUpBoard(b: Board): (r: Board)
    requires IsBoard(b)
    ensures IsBoard(r)
  {
    seq(BoardSize, i requires 0 <= i < BoardSize =>
      seq(BoardSize, j requires 0 <= j < BoardSize => SlideLeft(Column(b, j))[i]))
  }

  /** Every column moved down. */
  function MoveDownBoard(b: Board): (r: Board)
    requires IsBoard(b)
    ensures IsBoard(r)
  {
    seq(BoardSize, i requires 0 <= i < BoardSize =>
      seq(BoardSize, j requires 0 <= j < BoardSize => SlideRight(Column(b, j))[i]))
  }

  /** The board after a move in direction `d`. */
  function Move(b: Board, d: Direction): (r: Board)
    requires IsBoard(b)
    ensures IsBoard(r)
  {
    match d
    case Left => MoveLeftBoard(b)
    case Right => MoveRightBoard(b)
    case Up => MoveUpBoard(b)
    case Down => MoveDownBoard(b)
  }

  // ---------------------------------------------------------------------------
  // The score rule of calculateScore

  /** What one position adds to the score: the new cell's value when it holds a
      tile that differs from the old cell, whether the tile was merged or only slid. */
  function CellGain(o: Cell, n: Cell): int {
    if n.Tile? && n != o then n.value else 0
  }

  /** The gain of the first `k` positions of a line. */
  function LineGain(o: Line, n: Line, k: nat): int
    requires k <= |o| && k <= |n|
  {
    if k == 0 then 0 else LineGain(o, n, k - 1) + CellGain(o[k - 1], n[k - 1])
  }

  /** The gain of the first `k` rows. */
  function BoardGain(o: Board, n: Board, k: nat): int
    requires IsBoard(o) && IsBoard(n) && k <= BoardSize
  {
    if k == 0 then 0 else BoardGain(o, n, k - 1) + LineGain(o[k - 1], n[k - 1], BoardSize)
  }

  /** The score of going from board `o` to board `n`. */
  function ScoreOf(o: Board, n: Board): int
    requires IsBoard(o) && IsBoard(n)
  {
    BoardGain(o, n, BoardSize)
  }

  lemma {:induction false} LineGainZero(o: Line, n: Line, k: nat)
    requires k <= |o| && k <= |n|
    requires forall x :: 0 <= x < k ==> n[x].Empty? || n[x] == o[x]
    ensures LineGain(o, n, k) == 0
  {
    if k > 0 {
      LineGainZero(o, n, k - 1);
    }
  }

  lemma {:induction false} LineGainNonNegative(o: Line, n: Line, k: nat)
    requires k <= |o| && k <= |n| && LineNonNegative(n)
    ensures LineGain(o, n, k) >= 0
  {
    if k > 0 {
      LineGainNonNegative(o, n, k - 1);
      assert n[k - 1] in n;
    }
  }

  /** A board that did not change scores nothing. */
  lemma ScoreOfUnchanged(b: Board)
    requires IsBoard(b)
    ensures ScoreOf(b, b) == 0
  {
    forall k | 0 <= k < BoardSize
      ensures LineGain(b[k], b[k], BoardSize) == 0
    {
      LineGainZero(b[k], b[k], BoardSize);
    }
    assert BoardGain(b, b, 1) == 0;
    assert BoardGain(b, b, 2) == 0;
    assert BoardGain(b, b, 3) == 0;
  }

  /** A score is never negative when the new board's values are not. */
  lemma ScoreOfNonNegative(o: Board, n: Board)
    requires IsBoard(o) && IsBoard(n) && NonNegative(n)
    ensures ScoreOf(o, n) >= 0
  {
    forall k | 0 <= k < BoardSize
      ensures LineGain(o[k], n[k], BoardSize) >= 0
    {
      LineGainNonNegative(o[k], n[k], BoardSize);
    }
    assert BoardGain(o, n, 1) >= 0;
    assert BoardGain(o, n, 2) >= 0;
    assert BoardGain(o, n, 3) >= 0;
  }

  // ---------------------------------------------------------------------------
  // The methods

  lemma EmptiesGrow(n: nat)
    ensures Empties(n + 1) == Empties(n) + [Empty] == [Empty] + Empties(n)
  {
  }

  lemma PaddedAtEnd(merged: Line, m: Line, pads: nat)
    requires merged == m + Empties(pads) && BoardSize <= |merged|
    requires |m| < BoardSize ==> |merged| <= BoardSize
    requires |m| >= BoardSize ==> pads == 0
    ensures merged == PadEnd(m)
  {
    assert Empties(0) == [];
  }

  lemma PaddedAtStart(merged: Line, m: Line, pads: nat)
    requires merged == Empties(pads) + m && BoardSize <= |merged|
    requires |m| < BoardSize ==> |merged| <= BoardSize
    requires |m| >= BoardSize ==> pads == 0
    ensures merged == PadStart(m)
  {
    assert Empties(0) == [];
  }

  /** A tile for a value in front of tiles for the rest. */
  lemma TilesCons(x: int, rest: seq<int>)
    ensures Tiles([x] + rest) == [Tile(x)] + Tiles(rest)
  {
  }

  /** A tile for a value after tiles for the rest. */
  lemma TilesSnoc(rest: seq<int>, x: int)
    ensures Tiles(rest + [x]) == Tiles(rest) + [Tile(x)]
  {
  }

  lemma AppendFront(done: Line, c: Cell, rest: Line, whole: Line)
    requires done + ([c] + rest) == whole
    ensures (done + [c]) + rest == whole
  {
  }

  lemma AppendBack(rest: Line, c: Cell, done: Line, whole: Line)
    requires (rest + [c]) + done == whole
    ensures rest + ([c] + done) == whole
  {
  }

  /** The forward scan at position `i`: a pair is emitted as its double, any
      other value as itself. */
  lemma MergeForwardAt(f: seq<int>, i: nat)
    requires i < |f|
    ensures i < |f| - 1 && f[i] == f[i + 1] ==> MergeForward(f[i..]) == [f[i] * 2] + MergeForward(f[i + 2..])
    ensures !(i < |f| - 1 && f[i] == f[i + 1]) ==> MergeForward(f[i..]) == [f[i]] + MergeForward(f[i + 1..])
  {
    assert f[i..][0] == f[i];
    if i < |f| - 1 {
      assert f[i..][1] == f[i + 1];
      assert f[i..][2..] == f[i + 2..];
    }
    assert f[i..][1..] == f[i + 1..];
  }

  /** The backward scan at position `i`: a pair is emitted as its double, any
      other value as itself. */
  lemma MergeBackwardAt(f: seq<int>, i: nat)
    requires i < |f|
    ensures i > 0 && f[i] == f[i - 1] ==> MergeBackward(f[..i + 1]) == MergeBackward(f[..i - 1]) + [f[i] * 2]
    ensures !(i > 0 && f[i] == f[i - 1]) ==> MergeBackward(f[..i + 1]) == MergeBackward(f[..i]) + [f[i]]
  {
    assert f[..i + 1][i] == f[i];
    if i > 0 {
      assert f[..i + 1][i - 1] == f[i - 1];
      assert f[..i + 1][..i - 1] == f[..i - 1];
    }
    assert f[..i + 1][..i] == f[..i];
  }

  /** One step of the forward scan: what has been emitted, followed by the merge
      of what is left, is the merge of the whole. */
  lemma MergeForwardStep(f: seq<int>, i: nat, merged: Line)
    requires i < |f| && merged + Tiles(MergeForward(f[i..])) == Tiles(MergeForward(f))
    ensures i < |f| - 1 && f[i] == f[i + 1] ==>
      (merged + [Tile(f[i] * 2)]) + Tiles(MergeForward(f[i + 2..])) == Tiles(MergeForward(f))
    ensures !(i < |f| - 1 && f[i] == f[i + 1]) ==>
      (merged + [Tile(f[i])]) + Tiles(MergeForward(f[i + 1..])) == Tiles(MergeForward(f))
  {
    MergeForwardAt(f, i);
    var whole := Tiles(MergeForward(f));
    if i < |f| - 1 && f[i] == f[i + 1] {
      var rest := MergeForward(f[i + 2..]);
      TilesCons(f[i] * 2, rest);
      AppendFront(merged, Tile(f[i] * 2), Tiles(rest), whole);
    } else {
      var rest := MergeForward(f[i + 1..]);
      TilesCons(f[i], rest);
      AppendFront(merged, Tile(f[i]), Tiles(rest), whole);
    }
  }

  /** One step of the backward scan: the merge of what is left, followed by what
      has been emitted, is the merge of the whole. */
  lemma MergeBackwardStep(f: seq<int>, i: nat, merged: Line)
    requires i < |f| && Tiles(MergeBackward(f[..i + 1])) + merged == Tiles(MergeBackward(f))
    ensures i > 0 && f[i] == f[i - 1] ==>
      Tiles(MergeBackward(f[..i - 1])) + ([Tile(f[i] * 2)] + merged) == Tiles(MergeBackward(f))
    ensures !(i > 0 && f[i] == f[i - 1]) ==>
      Tiles(MergeBackward(f[..i])) + ([Tile(f[i])] + merged) == Tiles(MergeBackward(f))
  {
    MergeBackwardAt(f, i);
    var whole := Tiles(MergeBackward(f));
    if i > 0 && f[i] == f[i - 1] {
      var rest := MergeBackward(f[..i - 1]);
      TilesSnoc(rest, f[i] * 2);
      AppendBack(Tiles(rest), Tile(f[i] * 2), merged, whole);
    } else {
      var rest := MergeBackward(f[..i]);
      TilesSnoc(rest, f[i]);
      AppendBack(Tiles(rest), Tile(f[i]), merged, whole);
    }
  }

  /** `line.filter(cell => cell !== null)`. */
  method NonEmptyValues(line: Line) returns (filtered: seq<int>)
    ensures filtered == Values(line)
  {
    filtered := [];
    for k := 0 to |line|
      invariant filtered == Values(line[..k])
    {
      assert line[..k + 1][..k] == line[..k];
      if line[k].Tile? {
        filtered := filtered + [line[k].value];
      }
    }
    assert line[..|line|] == line;
  }

  /** The merge loop of `moveLeft` and `moveUp` followed by the padding loop:
      the result is the line slid towards its start. */
  method MergeTowardsStart(filtered: seq<int>) returns (merged: Line)
    ensures merged == PadEnd(Tiles(MergeForward(filtered)))
  {
    merged := [];
    var i := 0;
    while i < |filtered|
      invariant 0 <= i <= |filtered|
      invariant merged + Tiles(MergeForward(filtered[i..])) == Tiles(MergeForward(filtered))
    {
      MergeForwardStep(filtered, i, merged);
      if i < |filtered| - 1 && filtered[i] == filtered[i + 1] {
        merged := merged + [Tile(filtered[i] * 2)];
        i := i + 2;  // the partner is consumed with it
      } else {
        merged := merged + [Tile(filtered[i])];
        i := i + 1;
      }
    }
    assert merged == Tiles(MergeForward(filtered));
    ghost var m := merged;
    ghost var pads: nat := 0;
    while |merged| < BoardSize
      invariant |merged| == |m| + pads
      invariant |m| < BoardSize ==> |merged| <= BoardSize
      invariant |m| >= BoardSize ==> pads == 0
      invariant merged == m + Empties(pads)
    {
      EmptiesGrow(pads);
      merged := merged + [Empty];
      pads := pads + 1;
    }
    PaddedAtEnd(merged, m, pads);
  }

  /** The merge loop of `moveRight` and `moveDown`, scanning from the back and
      prepending, followed by the padding loop that prepends empty cells: the
      result is the line slid towards its end. */
  method MergeTowardsEnd(filtered: seq<int>) returns (merged: Line)
    ensures merged == PadStart(Tiles(MergeBackward(filtered)))
  {
    merged := [];
    var i := |filtered| - 1;
    assert filtered[..i + 1] == filtered;
    while i >= 0
      invariant -1 <= i < |filtered|
      invariant Tiles(MergeBackward(filtered[..i + 1])) + merged == Tiles(MergeBackward(filtered))
    {
      MergeBackwardStep(filtered, i, merged);
      if i > 0 && filtered[i] == filtered[i - 1] {
        merged := [Tile(filtered[i] * 2)] + merged;
        i := i - 2;  // the partner is consumed with it
      } else {
        merged := [Tile(filtered[i])] + merged;
        i := i - 1;
      }
    }
    assert merged == Tiles(MergeBackward(filtered));
    ghost var m := merged;
    ghost var pads: nat := 0;
    while |merged| < BoardSize
      invariant |merged| == |m| + pads
      invariant |m| < BoardSize ==> |merged| <= BoardSize
      invariant |m| >= BoardSize ==> pads == 0
      invariant merged == Empties(pads) + m
    {
      EmptiesGrow(pads);
      merged := [Empty] + merged;
      pads := pads + 1;
    }
    PaddedAtStart(merged, m, pads);
  }

  /** `calculateScore`: add up, position by position, every new tile that
      differs from the old cell. */
  method CalculateScore(oldBoard: Board, newBoard: Board) returns (score: int)
    requires IsBoard(oldBoard) && IsBoard(newBoard)
    ensures score == ScoreOf(oldBoard, newBoard)
  {
    score := 0;
    for i := 0 to BoardSize
      invariant score == BoardGain(oldBoard, newBoard, i)
    {
      for j := 0 to BoardSize
        invariant score == BoardGain(oldBoard, newBoard, i) + LineGain(oldBoard[i], newBoard[i], j)
      {
        if newBoard[i][j].Tile? && newBoard[i][j] != oldBoard[i][j] {
          score := score + newBoard[i][j].value;
        }
      }
    }
  }

  /** `moveLeft`: each row is compacted, merged from the left and padded at its end. */
  method MoveLeft(board: Board) returns (newBoard: Board, score: int)
    requires IsBoard(board)
    ensures newBoard == MoveLeftBoard(board)
    ensures score == ScoreOf(board, newBoard)
  {
    newBoard := [];
    for i := 0 to BoardSize
      invariant |newBoard| == i
      invariant forall k :: 0 <= k < i ==> newBoard[k] == SlideLeft(board[k])
    {
      var filtered := NonEmptyValues(board[i]);
      var merged := MergeTowardsStart(filtered);
      newBoard := newBoard + [merged];
    }
    score := CalculateScore(board, newBoard);
  }

  /** `moveRight`: each row is compacted, merged from the right and padded at its start. */
  method MoveRight(board: Board) returns (newBoard: Board, score: int)
    requires IsBoard(board)
    ensures newBoard == MoveRightBoard(board)
    ensures score == ScoreOf(board, newBoard)
  {
    newBoard := [];
    for i := 0 to BoardSize
      invariant |newBoard| == i
      invariant forall k :: 0 <= k < i ==> newBoard[k] == SlideRight(board[k])
    {
      var filtered := NonEmptyValues(board[i]);
      var merged := MergeTowardsEnd(filtered);
      newBoard := newBoard + [merged];
    }
    score := CalculateScore(board, newBoard);
  }

  /** `moveUp`: starting from an empty board, each column is compacted, merged
      from the top, padded at the bottom and written back cell by cell. */
  method MoveUp(board: Board) returns (newBoard: Board, score: int)
    requires IsBoard(board)
    ensures newBoard == MoveUpBoard(board)
    ensures score == ScoreOf(board, newBoard)
  {
    newBoard := Setup.CreateEmptyBoard();
    for col := 0 to BoardSize
      invariant IsBoard(newBoard)
      invariant forall r, c :: 0 <= r < BoardSize && 0 <= c < col ==> newBoard[r][c] == SlideLeft(Column(board, c))[r]
    {
      var column := NonEmptyValues(Column(board, col));
      var merged := MergeTowardsStart(column);
      for row := 0 to BoardSize
        invariant IsBoard(newBoard)
        invariant forall r, c :: 0 <= r < BoardSize && 0 <= c < col ==> newBoard[r][c] == SlideLeft(Column(board, c))[r]
        invariant forall r :: 0 <= r < row ==> newBoard[r][col] == merged[r]
      {
        newBoard := newBoard[row := newBoard[row][col := merged[row]]];
      }
    }
    forall r | 0 <= r < BoardSize
      ensures newBoard[r] == MoveUpBoard(board)[r]
    {
      assert |newBoard[r]| == |MoveUpBoard(board)[r]|;
    }
    score := CalculateScore(board, newBoard);
  }

  /** `moveDown`: as `moveUp`, merging from the bottom and padding at the top. */
  method MoveDown(board: Board) returns (newBoard: Board, score: int)
    requires IsBoard(board)
    ensures newBoard == MoveDownBoard(board)
    ensures score == ScoreOf(board, newBoard)
  {
    newBoard := Setup.CreateEmptyBoard();
    for col := 0 to BoardSize
      invariant IsBoard(newBoard)
      invariant forall r, c :: 0 <= r < BoardSize && 0 <= c < col ==> newBoard[r][c] == SlideRight(Column(board, c))[r]
    {
      var column := NonEmptyValues(Column(board, col));
      var merged := MergeTowardsEnd(column);
      for row := 0 to BoardSize
        invariant IsBoard(newBoard)
        invariant forall r, c :: 0 <= r < BoardSize && 0 <= c < col ==> newBoard[r][c] == SlideRight(Column(board, c))[r]
        invariant forall r :: 0 <= r < row ==> newBoard[r][col] == merged[r]
      {
        newBoard := newBoard[row := newBoard[row][col := merged[row]]];
      }
    }
    forall r | 0 <= r < BoardSize
      ensures newBoard[r] == MoveDownBoard(board)[r]
    {
      assert |newBoard[r]| == |MoveDownBoard(board)[r]|;
    }
    score := CalculateScore(board, newBoard);
  }

  // ---------------------------------------------------------------------------
  // Properties of the moves

  /** A move to the left or right keeps the sum of the tiles of every row. */
  lemma RowSumsKept(b: Board)
    requires IsBoard(b)
    ensures forall i :: 0 <= i < BoardSize ==> LineSum(MoveLeftBoard(b)[i]) == LineSum(b[i])
    ensures forall i :: 0 <= i < BoardSize ==> LineSum(MoveRightBoard(b)[i]) == LineSum(b[i])
  {
    forall i | 0 <= i < BoardSize
      ensures LineSum(MoveLeftBoard(b)[i]) == LineSum(b[i])
      ensures LineSum(MoveRightBoard(b)[i]) == LineSum(b[i])
    {
      SlideLeftSum(b[i]);
      SlideRightSum(b[i]);
    }
  }

  /** After a move every line is packed towards the move's side, and no line
      holds more tiles than before. */
  lemma MovedLinesPacked(b: Board)
    requires IsBoard(b)
    ensures forall i :: 0 <= i < BoardSize ==>
      LeftPacked(MoveLeftBoard(b)[i]) && |Values(MoveLeftBoard(b)[i])| <= |Values(b[i])|
    ensures forall i :: 0 <= i < BoardSize ==>
      RightPacked(MoveRightBoard(b)[i]) && |Values(MoveRightBoard(b)[i])| <= |Values(b[i])|
    ensures forall j :: 0 <= j < BoardSize ==>
      LeftPacked(Column(MoveUpBoard(b), j)) && |Values(Column(MoveUpBoard(b), j))| <= |Values(Column(b, j))|
    ensures forall j :: 0 <= j < BoardSize ==>
      RightPacked(Column(MoveDownBoard(b), j)) && |Values(Column(MoveDownBoard(b), j))| <= |Values(Column(b, j))|
  {
    forall i | 0 <= i < BoardSize
      ensures LeftPacked(MoveLeftBoard(b)[i]) && |Values(MoveLeftBoard(b)[i])| <= |Values(b[i])|
      ensures RightPacked(MoveRightBoard(b)[i]) && |Values(MoveRightBoard(b)[i])| <= |Values(b[i])|
    {
      SlideLeftPacked(b[i]);
      SlideRightPacked(b[i]);
    }
    forall j | 0 <= j < BoardSize
      ensures LeftPacked(Column(MoveUpBoard(b), j)) && |Values(Column(MoveUpBoard(b), j))| <= |Values(Column(b, j))|
      ensures RightPacked(Column(MoveDownBoard(b), j)) && |Values(Column(MoveDownBoard(b), j))| <= |Values(Column(b, j))|
    {
      ColumnsOfVerticalMoves(b, j);
      SlideLeftPacked(Column(b, j));
      SlideRightPacked(Column(b, j));
    }
  }

  /** Column `j` after a move up or down is column `j` slid up or down. */
  lemma ColumnsOfVerticalMoves(b: Board, j: nat)
    requires IsBoard(b) && j < BoardSize
    ensures Column(MoveUpBoard(b), j) == SlideLeft(Column(b, j))
    ensures Column(MoveDownBoard(b), j) == SlideRight(Column(b, j))
  {
  }

  /** A move up or down keeps the sum of the tiles of every column. */
  lemma ColumnSumsKept(b: Board)
    requires IsBoard(b)
    ensures forall j :: 0 <= j < BoardSize ==> LineSum(Column(MoveUpBoard(b), j)) == LineSum(Column(b, j))
    ensures forall j :: 0 <= j < BoardSize ==> LineSum(Column(MoveDownBoard(b), j)) == LineSum(Column(b, j))
  {
    forall j | 0 <= j < BoardSize
      ensures LineSum(Column(MoveUpBoard(b), j)) == LineSum(Column(b, j))
      ensures LineSum(Column(MoveDownBoard(b), j)) == LineSum(Column(b, j))
    {
      ColumnsOfVerticalMoves(b, j);
      SlideLeftSum(Column(b, j));
      SlideRightSum(Column(b, j));
    }
  }

  /** Each row moved right is the reversed row moved left, reversed back. */
  lemma MoveRightMirrorsLeft(b: Board)
    requires IsBoard(b)
    ensures forall i :: 0 <= i < BoardSize ==> MoveRightBoard(b)[i] == Reverse(SlideLeft(Reverse(b[i])))
  {
    forall i | 0 <= i < BoardSize
      ensures MoveRightBoard(b)[i] == Reverse(SlideLeft(Reverse(b[i])))
    {
      SlideRightMirror(b[i]);
    }
  }

  /** Moving up is moving left on the transposed board, transposed back; moving
      down is moving right on the transposed board, transposed back. */
  lemma VerticalMovesByTranspose(b: Board)
    requires IsBoard(b)
    ensures MoveUpBoard(b) == Transpose(MoveLeftBoard(Transpose(b)))
    ensures MoveDownBoard(b) == Transpose(MoveRightBoard(Transpose(b)))
  {
    var t := Transpose(b);
    forall i | 0 <= i < BoardSize
      ensures MoveUpBoard(b)[i] == Transpose(MoveLeftBoard(t))[i]
      ensures MoveDownBoard(b)[i] == Transpose(MoveRightBoard(t))[i]
    {
      forall j | 0 <= j < BoardSize
        ensures MoveUpBoard(b)[i][j] == Transpose(MoveLeftBoard(t))[i][j]
        ensures MoveDownBoard(b)[i][j] == Transpose(MoveRightBoard(t))[i][j]
      {
        assert t[j] == Column(b, j);
      }
    }
  }

  /** Every move keeps every tile value non-negative. */
  lemma MoveKeepsNonNegative(b: Board, d: Direction)
    requires IsBoard(b) && NonNegative(b)
    ensures NonNegative(Move(b, d))
  {
    forall j | 0 <= j < BoardSize
      ensures LineNonNegative(Column(b, j))
    {
      forall c: Cell | c in Column(b, j) && c.Tile?
        ensures c.value >= 0
      {
        var r :| 0 <= r < BoardSize && Column(b, j)[r] == c;
        assert b[r][j] in b[r];
      }
    }
    var m := Move(b, d);
    forall i | 0 <= i < BoardSize
      ensures LineNonNegative(m[i])
    {
      match d {
        case Left => SlideLeftNonNegative(b[i]);
        case Right => SlideRightNonNegative(b[i]);
        case Up =>
          forall c: Cell | c in m[i] && c.Tile?
            ensures c.value >= 0
          {
            var j :| 0 <= j < BoardSize && m[i][j] == c;
            SlideLeftNonNegative(Column(b, j));
            assert SlideLeft(Column(b, j))[i] in SlideLeft(Column(b, j));
          }
        case Down =>
          forall c: Cell | c in m[i] && c.Tile?
            ensures c.value >= 0
          {
            var j :| 0 <= j < BoardSize && m[i][j] == c;
            SlideRightNonNegative(Column(b, j));
            assert SlideRight(Column(b, j))[i] in SlideRight(Column(b, j));
          }
      }
    }
  }
}
