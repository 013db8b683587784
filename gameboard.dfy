/** The turn state machine of the game component (app/components/GameBoard.tsx).
    The component holds one record of five fields and replaces it on a move, on
    a reset and on "keep playing". The transitions are first stated as pure
    functions on that record; the class `Game` holds the fields and runs the
    transitions step by step, and each of its methods is proved to follow the
    function of its transition. Writes of the best score to the browser store
    are recorded in a ghost log. */
module GameBoard {
  import opened Grid
  import opened Setup
  import opened Moves
  import opened Terminal

  /** The component's state record. */
  datatype GameState = GameState(board: Board, score: int, bestScore: int, gameOver: bool, won: bool)

  /** A key press: one of the four arrows, or anything else. */
  datatype Key = ArrowLeft | ArrowRight | ArrowUp | ArrowDown | OtherKey

  /** What holds of every state the component can reach: a 4x4 board with no
      negative value, 0 <= score <= bestScore, `gameOver` exactly when
      `canMove` fails, and `won` only with a winning tile on the board. */
  ghost predicate ValidState(s: GameState) {
    IsBoard(s.board) && NonNegative(s.board) &&
    0 <= s.score <= s.bestScore &&
    (s.gameOver <==> !Movable(s.board)) &&
    (s.won ==> HasWinningTile(s.board))
  }

  /** `Math.max` on the scores. */
  function Max(a: int, b: int): (m: int)
    ensures m >= a && m >= b && (m == a || m == b)
  {
    if a >= b then a else b
  }

  /** The state the component starts with, and the one `resetGame` builds
      before it puts the best score back: a fresh board, no score, no flag. */
  function InitialState(roll1: real, coin1: real, roll2: real, coin2: real): GameState
    requires 0.0 <= roll1 < 1.0 && 0.0 <= roll2 < 1.0
  {
    GameState(SpawnTile(SpawnTile(CreateEmptyBoard(), roll1, coin1), roll2, coin2), 0, 0, false, false)
  }

  /** The updater inside `handleMove`: when the move leaves the board as it
      was, the previous state; otherwise the moved board with one spawned tile,
      the move's score added, the best score raised to it, and both flags read
      off the board after the spawn. */
  function MoveStep(s: GameState, d: Direction, roll: real, coin: real): GameState
    requires IsBoard(s.board) && 0.0 <= roll < 1.0
  {
    var moved := Move(s.board, d);
    if moved == s.board then s
    else
      var updated := SpawnTile(moved, roll, coin);
      var newScore := s.score + ScoreOf(s.board, moved);
      GameState(updated, newScore, Max(s.bestScore, newScore), !Movable(updated), HasWinningTile(updated))
  }

  /** The best score is written to the store on a move exactly when the move
      raises it. */
  predicate WritesBest(s: GameState, d: Direction, roll: real, coin: real)
    requires IsBoard(s.board) && 0.0 <= roll < 1.0
  {
    MoveStep(s, d, roll, coin).bestScore > s.bestScore
  }

  /** The direction an arrow key asks for. */
  function KeyDirection(key: Key): Direction
    requires key != OtherKey
  {
    match key
    case ArrowLeft => Left
    case ArrowRight => Right
    case ArrowUp => Up
    case ArrowDown => Down
  }

  /** `handleKeyDown`: nothing after a loss that is not also a win, nothing for
      a key other than an arrow, otherwise the move of that arrow. */
  function KeyDownStep(s: GameState, key: Key, roll: real, coin: real): GameState
    requires IsBoard(s.board) && 0.0 <= roll < 1.0
  {
    if s.gameOver && !s.won then s
    else if key == OtherKey then s
    else MoveStep(s, KeyDirection(key), roll, coin)
  }

  /** `resetGame`: a fresh game that keeps the best score. */
  function ResetStep(s: GameState, roll1: real, coin1: real, roll2: real, coin2: real): GameState
    requires 0.0 <= roll1 < 1.0 && 0.0 <= roll2 < 1.0
  {
    InitialState(roll1, coin1, roll2, coin2).(bestScore := s.bestScore)
  }

  /** `continueGame`: clear the `won` flag. */
  function ContinueStep(s: GameState): GameState {
    s.(won := false)
  }

  // ---------------------------------------------------------------------------
  // Properties of the transitions

  /** A move that does not change the board changes nothing at all: no spawn,
      no score, no flag, no store write. */
  lemma NoOpMoveKeepsState(s: GameState, d: Direction, roll: real, coin: real)
    requires IsBoard(s.board) && 0.0 <= roll < 1.0
    requires Move(s.board, d) == s.board
    ensures MoveStep(s, d, roll, coin) == s
    ensures !WritesBest(s, d, roll, coin)
  {
  }

  /** On a move that changes the board, the new score is the old one plus the
      move's score, which is never negative; the best score is the larger of
      the old best and the new score; the store is written exactly when the
      best score rises. */
  lemma MoveStepScores(s: GameState, d: Direction, roll: real, coin: real)
    requires ValidState(s) && 0.0 <= roll < 1.0
    requires Move(s.board, d) != s.board
    ensures MoveStep(s, d, roll, coin).score == s.score + ScoreOf(s.board, Move(s.board, d))
    ensures MoveStep(s, d, roll, coin).score >= s.score
    ensures MoveStep(s, d, roll, coin).bestScore == Max(s.bestScore, MoveStep(s, d, roll, coin).score)
    ensures WritesBest(s, d, roll, coin) <==> MoveStep(s, d, roll, coin).score > s.bestScore
  {
    MoveKeepsNonNegative(s.board, d);
    ScoreOfNonNegative(s.board, Move(s.board, d));
  }

  /** On a move that changes the board, the new board is the moved board with
      one tile spawned, and `won` and `gameOver` are read off that board, not
      off the board before the spawn. */
  lemma MoveStepFlags(s: GameState, d: Direction, roll: real, coin: real)
    requires IsBoard(s.board) && 0.0 <= roll < 1.0
    requires Move(s.board, d) != s.board
    ensures var t := MoveStep(s, d, roll, coin);
      t.board == SpawnTile(Move(s.board, d), roll, coin) &&
      t.won == HasWinningTile(t.board) && t.gameOver == !Movable(t.board)
  {
  }

  /** A move keeps every state property, and neither the score nor the best
      score goes down. */
  lemma MoveStepValid(s: GameState, d: Direction, roll: real, coin: real)
    requires ValidState(s) && 0.0 <= roll < 1.0
    ensures ValidState(MoveStep(s, d, roll, coin))
    ensures MoveStep(s, d, roll, coin).score >= s.score
    ensures MoveStep(s, d, roll, coin).bestScore >= s.bestScore
  {
    var moved := Move(s.board, d);
    if moved != s.board {
      MoveKeepsNonNegative(s.board, d);
      ScoreOfNonNegative(s.board, moved);
      SpawnKeepsNonNegative(moved, roll, coin);
    }
  }

  /** In a reachable state the key guard never decides anything: after a loss
      no move changes the board, so every key leaves the state as it is, and
      the handler behaves as if the guard were not there. */
  lemma KeyGuardRedundant(s: GameState, key: Key, roll: real, coin: real)
    requires ValidState(s) && 0.0 <= roll < 1.0
    ensures KeyDownStep(s, key, roll, coin) ==
      (if key == OtherKey then s else MoveStep(s, KeyDirection(key), roll, coin))
    ensures s.gameOver ==> KeyDownStep(s, key, roll, coin) == s
  {
    if s.gameOver && key != OtherKey {
      GameOverFrozen(s.board, KeyDirection(key));
    }
  }

  /** A key press keeps every state property. */
  lemma KeyDownStepValid(s: GameState, key: Key, roll: real, coin: real)
    requires ValidState(s) && 0.0 <= roll < 1.0
    ensures ValidState(KeyDownStep(s, key, roll, coin))
  {
    if key != OtherKey {
      MoveStepValid(s, KeyDirection(key), roll, coin);
    }
  }

  /** A board with two tiles, each a 2 or a 4, has no negative value and no
      winning tile, and is not over. */
  lemma TwoSpawnedTiles(b: Board)
    requires IsBoard(b) && TileCount(b) == 2 && OnlySpawnedValues(b)
    ensures NonNegative(b) && Movable(b) && !HasWinningTile(b)
  {
    if !HasEmptyCell(b) {
      FullBoardCount(b);
    }
    forall i | 0 <= i < BoardSize
      ensures LineNonNegative(b[i])
    {
      forall c: Cell | c in b[i] && c.Tile?
        ensures c.value >= 0
      {
        var j :| 0 <= j < BoardSize && b[i][j] == c;
      }
    }
    forall i, j | 0 <= i < BoardSize && 0 <= j < BoardSize
      ensures b[i][j] != Tile(WinningTile)
    {
      if b[i][j].Tile? {
        assert b[i][j].value == 2 || b[i][j].value == 4;
      }
    }
  }

  /** The board of a fresh game: two tiles, each a 2 or a 4, so it is not over. */
  lemma InitialBoardValid(roll1: real, coin1: real, roll2: real, coin2: real)
    requires 0.0 <= roll1 < 1.0 && 0.0 <= roll2 < 1.0
    ensures var b := InitialState(roll1, coin1, roll2, coin2).board;
      IsBoard(b) && NonNegative(b) && Movable(b) && !HasWinningTile(b)
  {
    InitialBoardFacts(roll1, coin1, roll2, coin2);
    TwoSpawnedTiles(InitialState(roll1, coin1, roll2, coin2).board);
  }

  /** `resetGame` gives a valid state with no score and no flag that keeps the
      best score. */
  lemma ResetStepValid(s: GameState, roll1: real, coin1: real, roll2: real, coin2: real)
    requires ValidState(s) && 0.0 <= roll1 < 1.0 && 0.0 <= roll2 < 1.0
    ensures var t := ResetStep(s, roll1, coin1, roll2, coin2);
      ValidState(t) && t.score == 0 && t.bestScore == s.bestScore && !t.gameOver && !t.won
  {
    InitialBoardValid(roll1, coin1, roll2, coin2);
  }

  /** `continueGame` clears `won` only, and keeps every state property. */
  lemma ContinueStepValid(s: GameState)
    requires ValidState(s)
    ensures ValidState(ContinueStep(s))
    ensures var t := ContinueStep(s);
      !t.won && t.board == s.board && t.score == s.score && t.bestScore == s.bestScore && t.gameOver == s.gameOver
  {
  }

  /** Continuing does not stop the game from being won again: `won` is read
      off the board on every move that changes it, so after `continueGame` the
      next such move sets `won` exactly when the moved board still holds a
      winning tile (the spawned tile is only a 2 or a 4). */
  lemma ContinueThenWonAgain(s: GameState, d: Direction, roll: real, coin: real)
    requires IsBoard(s.board) && 0.0 <= roll < 1.0
    requires Move(s.board, d) != s.board
    ensures MoveStep(ContinueStep(s), d, roll, coin).won <==> HasWinningTile(Move(s.board, d))
  {
    var moved := Move(s.board, d);
    var updated := SpawnTile(moved, roll, coin);
    SpawnTileEffect(moved, roll, coin);
    if HasEmptyCell(moved) {
      var si, sj :| 0 <= si < BoardSize && 0 <= sj < BoardSize && moved[si][sj].Empty? &&
        updated[si][sj] == Tile(NewTileValue(coin)) &&
        forall i', j' :: 0 <= i' < BoardSize && 0 <= j' < BoardSize && (i', j') != (si, sj) ==>
          updated[i'][j'] == moved[i'][j'];
      if HasWinningTile(moved) {
        var i, j :| 0 <= i < BoardSize && 0 <= j < BoardSize && moved[i][j] == Tile(WinningTile);
        assert updated[i][j] == moved[i][j];
      }
      if HasWinningTile(updated) {
        var i, j :| 0 <= i < BoardSize && 0 <= j < BoardSize && updated[i][j] == Tile(WinningTile);
        assert (i, j) != (si, sj);
        assert moved[i][j] == updated[i][j];
      }
    }
  }

  // ---------------------------------------------------------------------------
  // The component

  /** The move function `handleMove` is handed for a direction. */
  method MoveBy(board: Board, d: Direction) returns (newBoard: Board, score: int)
    requires IsBoard(board)
    ensures newBoard == Move(board, d) && score == ScoreOf(board, newBoard)
  {
    match d {
      case Left => newBoard, score := MoveLeft(board);
      case Right => newBoard, score := MoveRight(board);
      case Up => newBoard, score := MoveUp(board);
      case Down => newBoard, score := MoveDown(board);
    }
  }

  class Game {
    var board: Board
    var score: int
    var bestScore: int
    var gameOver: bool
    var won: bool
    /** Every value written to the best-score store, oldest first. */
    ghost var storeWrites: seq<int>

    /** The fields as one state record. */
    function State(): GameState
      reads this
    {
      GameState(board, score, bestScore, gameOver, won)
    }

    ghost predicate Valid()
      reads this
    {
      ValidState(State())
    }

    /** The initial state: a fresh board, no score, a best score of 0. */
    constructor (roll1: real, coin1: real, roll2: real, coin2: real)
      requires 0.0 <= roll1 < 1.0 && 0.0 <= roll2 < 1.0
      ensures State() == InitialState(roll1, coin1, roll2, coin2)
      ensures storeWrites == []
      ensures Valid()
    {
      var initial := InitializeBoard(roll1, coin1, roll2, coin2);
      board := initial;
      score := 0;
      bestScore := 0;
      gameOver := false;
      won := false;
      storeWrites := [];
      InitialBoardValid(roll1, coin1, roll2, coin2);
    }

    /** `handleMove`: apply the move; stop if the board did not change;
        otherwise spawn a tile, add the score, raise the best score (writing it
        to the store when it rises) and recompute both flags. */
    method HandleMove(d: Direction, roll: real, coin: real)
      requires Valid() && 0.0 <= roll < 1.0
      modifies this
      ensures State() == MoveStep(old(State()), d, roll, coin)
      ensures storeWrites == old(storeWrites) + (if bestScore > old(bestScore) then [bestScore] else [])
      ensures Valid()
    {
      MoveStepValid(State(), d, roll, coin);
      var newBoard, gain := MoveBy(board, d);
      if newBoard == board {
        return;
      }
      var updatedBoard := AddRandomTile(newBoard, roll, coin);
      var newScore := score + gain;
      var newBestScore := Max(bestScore, newScore);
      var hasWon := HasWon(updatedBoard);
      var isOver := IsGameOver(updatedBoard);
      if newBestScore > bestScore {
        storeWrites := storeWrites + [newBestScore];
      }
      board, score, bestScore, won, gameOver := updatedBoard, newScore, newBestScore, hasWon, isOver;
    }

    /** `handleKeyDown`: ignore every key after a loss that is not also a win;
        move on an arrow key; ignore any other key. */
    method HandleKeyDown(key: Key, roll: real, coin: real)
      requires Valid() && 0.0 <= roll < 1.0
      modifies this
      ensures State() == KeyDownStep(old(State()), key, roll, coin)
      ensures storeWrites == old(storeWrites) + (if bestScore > old(bestScore) then [bestScore] else [])
      ensures Valid()
    {
      if gameOver && !won {
        return;
      }
      match key {
        case ArrowLeft => HandleMove(Left, roll, coin);
        case ArrowRight => HandleMove(Right, roll, coin);
        case ArrowUp => HandleMove(Up, roll, coin);
        case ArrowDown => HandleMove(Down, roll, coin);
        case OtherKey =>
      }
    }

    /** `resetGame`: a fresh board, score 0, both flags cleared, best score kept. */
    method ResetGame(roll1: real, coin1: real, roll2: real, coin2: real)
      requires Valid() && 0.0 <= roll1 < 1.0 && 0.0 <= roll2 < 1.0
      modifies this
      ensures State() == ResetStep(old(State()), roll1, coin1, roll2, coin2)
      ensures storeWrites == old(storeWrites)
      ensures Valid()
    {
      ghost var previous := State();
      var newBoard := InitializeBoard(roll1, coin1, roll2, coin2);
      board := newBoard;
      score := 0;
      gameOver := false;
      won := false;
      ResetStepValid(previous, roll1, coin1, roll2, coin2);
    }

    /** `continueGame`: clear `won` and nothing else. */
    method ContinueGame()
      requires Valid()
      modifies this
      ensures State() == ContinueStep(old(State()))
      ensures storeWrites == old(storeWrites)
      ensures Valid()
    {
      won := false;
    }
  }
}
