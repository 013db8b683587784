# 2048: the board engine and the turn state machine

A Dafny model of the core of a browser 2048 game: the board engine of
`app/utils/gameLogic.ts` and the state transitions of the game component in
`app/components/GameBoard.tsx`.

A board is four rows of four cells. A cell is empty or holds a number
(`Grid.Cell`). Nothing forces the numbers to be powers of two, so the model
does not assume it. A move works line by line. It drops the empty cells, merges
equal neighbours pairwise from the side it moves towards, and pads the line
back to four cells. A tile made by a merge is not merged again in the same move.
The score of a move is computed by `calculateScore`. It adds the value of every
non-empty new cell that differs from the old cell at the same position. A tile
counts when the cell it lands on held something else, whether it merged or
only slid; a merged tile that lands on an equal tile adds nothing.

The component holds a record of five fields: the board, the score, the best
score, `gameOver` and `won`. A move that leaves the board as it was changes
nothing. Any other move spawns a tile, adds the move's score, raises the best
score when needed, writes it to the browser store when it rises, and reads
both flags off the board after the spawn. `resetGame` starts a fresh board and
keeps the best score. `continueGame` clears `won`.

Modules, in dependency order:

- `Grid`: cells, lines, boards, columns, the transpose.
- `Lines`: what a move does to one line, as specification functions (`SlideLeft`,
  `SlideRight`), with their sums, packing, mirror image and fixed points.
- `Setup`: `createEmptyBoard`, `addRandomTile` and `initializeBoard`.
- `Moves`: the four moves and `calculateScore`. Each is a method with the
  source's loops, proved equal to a specification function on boards.
- `Terminal`: `canMove`, `hasWon` and `isGameOver` as scanning methods, and
  what `canMove` means in terms of the moves.
- `Scoring`: the total of the board under a move, and worked examples of
  merges and scores.
- `GameBoard`: the transitions as functions on a `GameState` record, their
  invariants, and the class `Game` whose methods run them on fields.

Randomness is passed in. `addRandomTile` draws `Math.random()` twice. The model
takes the two draws as reals `roll` and `coin` in [0, 1). The cell is
`floor(roll * n)` among the `n` empty cells in reading order, with the product
taken in exact arithmetic, and the value is a 2 when `coin < 0.9`, otherwise a 4.

The score of a move is not the sum of the tiles its merges create, and it is
not what the move adds to the board:

- `Scoring.TotalKept` proves that no move changes the sum of all tile values
  on the board. `Scoring.ScoreIsNotTotalGain` proves that "total after = total
  before + score" holds only for moves that score nothing.
- The row `[2, _, 2, 2]` moved left becomes `[4, 2, _, _]` and scores 6, not
  4: the 2 that slid into the second cell differs from the empty cell that
  stood there, so it is counted (`Scoring.MergeExampleGap`).

`canMove` answers "an empty cell, or two equal neighbours". That is exactly
"some move changes the board" on every board except the all-empty one
(`Terminal.CanMoveCharacterisation`). So in every reachable state, the guard
in `handleKeyDown` never changes the outcome (`GameBoard.KeyGuardRedundant`).

## Model

| member | source | states |
|---|---|---|
| Setup.CreateEmptyBoard | app/utils/gameLogic.ts:15-17 | the result is a 4x4 board and every cell is empty |
| Setup.PickIndex | app/utils/gameLogic.ts:32 | `floor(roll * n)` for a draw in [0, 1) and `n > 0` is an index below `n` |
| Setup.EmptyCellsMembers | app/utils/gameLogic.ts:20-28 | the collected list holds a position exactly when that cell is empty |
| Setup.SpawnTileEffect | app/utils/gameLogic.ts:19-37 | with no empty cell the board comes back unchanged; otherwise exactly one empty cell gets the tile picked by `coin`, every other cell is kept, and the tile count rises by one |
| Setup.SpawnKeepsSpawnedValues | app/utils/gameLogic.ts:34 | a spawn adds only a 2 or a 4, so "every tile is a 2 or a 4" is kept |
| Setup.SpawnKeepsNonNegative | app/utils/gameLogic.ts:34 | a spawn keeps every tile value non-negative |
| Setup.AddRandomTile | app/utils/gameLogic.ts:19-37 | the collecting loops and the single-cell write on a copy yield the board `SpawnTile` describes |
| Setup.InitialBoardFacts | app/utils/gameLogic.ts:39-44 | two spawns on the empty board leave exactly two tiles, each a 2 or a 4 |
| Setup.InitializeBoard | app/utils/gameLogic.ts:39-44 | the result is the empty board after two spawns: two tiles, each a 2 or a 4 |
| Lines.MergeForwardIdentity | app/utils/gameLogic.ts:51-58 | the merge scan returns its input exactly when no two neighbours are equal, and is strictly shorter otherwise |
| Lines.MergeForwardSum | app/utils/gameLogic.ts:51-58 | the merge scan keeps the sum of the values |
| Lines.MergeBackwardMirror | app/utils/gameLogic.ts:76-83 | the scan from the back is the scan from the front on the reversed values, reversed |
| Lines.SlideLeftSum | app/utils/gameLogic.ts:46-65 | a line moved towards its start keeps the sum of its tiles |
| Lines.SlideRightSum | app/utils/gameLogic.ts:71-90 | a line moved towards its end keeps the sum of its tiles |
| Lines.SlideLeftPacked | app/utils/gameLogic.ts:46-65 | after a move towards the start, no empty cell stands before a tile, and the tile count does not grow |
| Lines.SlideRightPacked | app/utils/gameLogic.ts:71-90 | after a move towards the end, no empty cell stands after a tile, and the tile count does not grow |
| Lines.SlideLeftFixedPoint | app/utils/gameLogic.ts:46-65 | a 4-cell line comes back unchanged exactly when it is packed at its start with no two equal neighbouring tiles |
| Lines.SlideRightFixedPoint | app/utils/gameLogic.ts:71-90 | a 4-cell line comes back unchanged from a move to the end exactly when it is packed at its end with no two equal neighbouring tiles |
| Lines.SlideRightMirror | app/utils/gameLogic.ts:71-90 | a line moved right is the reversed line moved left, reversed |
| Lines.PackedBothWays | app/utils/gameLogic.ts:46-94 | a line packed at both ends is all empty or all tiles |
| Lines.SlideLeftNonNegative | app/utils/gameLogic.ts:46-65 | moving a line keeps its values non-negative |
| Moves.Move | app/utils/gameLogic.ts:46-152 | every move returns a 4x4 board |
| Moves.ScoreOfUnchanged | app/utils/gameLogic.ts:154-164 | a board compared with itself scores 0 |
| Moves.ScoreOfNonNegative | app/utils/gameLogic.ts:154-164 | the score is at least 0 when the new board has no negative value |
| Moves.MergeForwardStep | app/utils/gameLogic.ts:51-58 | one step of the merge loop (a pair pushed as its double and skipped, or one value pushed) keeps "emitted so far, then the merge of the rest, is the merge of the whole" |
| Moves.MergeBackwardStep | app/utils/gameLogic.ts:76-83 | the same for the loop from the back that prepends |
| Moves.NonEmptyValues | app/utils/gameLogic.ts:48 | the filter keeps the values of the tiles, in order |
| Moves.MergeTowardsStart | app/utils/gameLogic.ts:49-64 | the merge loop and the padding loop yield the line's values merged from the front and padded at the end |
| Moves.MergeTowardsEnd | app/utils/gameLogic.ts:74-89 | the merge loop from the back and the prepending pad loop yield the values merged from the back and padded at the start |
| Moves.CalculateScore | app/utils/gameLogic.ts:154-164 | the double loop sums the value of every non-empty new cell that differs from the old cell |
| Moves.MoveLeft | app/utils/gameLogic.ts:46-69 | every row moved to the left, and the score of the two boards |
| Moves.MoveRight | app/utils/gameLogic.ts:71-94 | every row moved to the right, and the score of the two boards |
| Moves.MoveUp | app/utils/gameLogic.ts:96-123 | writing the merged columns cell by cell into a fresh board yields every column moved up, and the score |
| Moves.MoveDown | app/utils/gameLogic.ts:125-152 | the same with every column moved down |
| Moves.RowSumsKept | app/utils/gameLogic.ts:46-94 | moving left or right keeps the sum of every row |
| Moves.ColumnSumsKept | app/utils/gameLogic.ts:96-152 | moving up or down keeps the sum of every column |
| Moves.MovedLinesPacked | app/utils/gameLogic.ts:46-152 | after each move every row or column is packed towards the move's side and holds no more tiles than before |
| Moves.ColumnsOfVerticalMoves | app/utils/gameLogic.ts:96-152 | column j after a move up or down is column j moved towards its top or bottom |
| Moves.MoveRightMirrorsLeft | app/utils/gameLogic.ts:71-94 | each row moved right equals the reversed row moved left, reversed |
| Moves.VerticalMovesByTranspose | app/utils/gameLogic.ts:96-152 | moving up is transpose, move left, transpose; moving down is transpose, move right, transpose |
| Moves.MoveKeepsNonNegative | app/utils/gameLogic.ts:46-152 | every move keeps every value non-negative |
| Terminal.CanMove | app/utils/gameLogic.ts:166-188 | the two scans answer true exactly when a cell is empty or a tile equals its right or bottom neighbour |
| Terminal.HasWon | app/utils/gameLogic.ts:190-197 | the scan answers true exactly when some cell holds 2048 |
| Terminal.IsGameOver | app/utils/gameLogic.ts:199-201 | the answer is exactly the negation of `canMove` |
| Lines.FullLineValues | app/utils/gameLogic.ts:48 | the values of a line without empty cells are its cells' values, one for one |
| Terminal.LockedLineFrozen | app/utils/gameLogic.ts:46-94 | a full line with no two equal neighbours comes back unchanged from either horizontal move |
| Terminal.StuckLine | app/utils/gameLogic.ts:46-94 | a line unchanged by both moves is all empty, or full with no two equal neighbours |
| Terminal.GameOverLocked | app/utils/gameLogic.ts:166-188 | when `canMove` fails every row and every column is full with no two equal neighbours |
| Terminal.GameOverFrozen | app/utils/gameLogic.ts:166-188 | when `canMove` fails no move changes the board |
| Terminal.StuckLines | app/utils/gameLogic.ts:46-152 | on a board no move changes, every row and column is all empty or full with no equal neighbours |
| Terminal.StuckBoard | app/utils/gameLogic.ts:166-188 | a board no move changes is all empty or one `canMove` rejects |
| Terminal.CanMoveCharacterisation | app/utils/gameLogic.ts:166-188 | `canMove` holds exactly when the board is all empty or some move changes it |
| Scoring.LineSumByCells | app/utils/gameLogic.ts:48 | the sum of a line's tiles is the sum of its cells' values, empty cells counting 0 |
| Scoring.TotalByColumns | app/utils/gameLogic.ts:96-152 | summing a board by rows or by columns gives the same total |
| Scoring.TotalKept | app/utils/gameLogic.ts:46-152 | no move changes the sum of all tile values on the board |
| Scoring.ScoreIsNotTotalGain | app/utils/gameLogic.ts:154-164 | "total after = total before + score" holds exactly when the move scores 0 |
| Scoring.MergeExampleTriple | app/utils/gameLogic.ts:51-58 | `[2,2,2,_]` moved left is `[4,2,_,_]` and scores 4 |
| Scoring.MergeExampleTwoPairs | app/utils/gameLogic.ts:51-58 | `[2,2,4,4]` moved left is `[4,8,_,_]` and scores 12 |
| Scoring.MergeExampleGap | app/utils/gameLogic.ts:46-65 | `[2,_,2,2]` moved left is `[4,2,_,_]` and scores 6 |
| Scoring.MergeExampleNoChain | app/utils/gameLogic.ts:51-58 | `[2,2,4,_]` moved left is `[4,4,_,_]`: the new 4 is not merged again, and the move scores 8 |
| Scoring.MergeExampleSlideOnly | app/utils/gameLogic.ts:154-164 | `[_,2,_,_]` moved left is `[2,_,_,_]` and scores 2, though nothing merged |
| Scoring.MergeExampleSlidOntoEqual | app/utils/gameLogic.ts:154-164 | `[2,4,4,4]` moved left is `[2,8,4,_]` and scores 8: the slid 4 lands where a 4 stood and adds nothing |
| Scoring.MergeExampleUnscoredMerge | app/utils/gameLogic.ts:154-164 | `[_,4,2,2]` moved left is `[4,4,_,_]` and scores 4: the merged 4 lands where a 4 stood and adds nothing, only the slid 4 counts |
| GameBoard.Max | app/components/GameBoard.tsx:47 | `Math.max`: the larger of the two, and one of them |
| GameBoard.NoOpMoveKeepsState | app/components/GameBoard.tsx:35-40 | a move that leaves the board unchanged leaves the whole state unchanged and writes nothing to the store |
| GameBoard.MoveStepScores | app/components/GameBoard.tsx:46-56 | after a changing move the score is the old score plus the move's score, never lower; the best score is the larger of the old best and the new score; the store is written exactly when the new score beats the old best |
| GameBoard.MoveStepFlags | app/components/GameBoard.tsx:43-51 | after a changing move the board is the moved board with one tile spawned, and both flags are read off that board |
| GameBoard.MoveStepValid | app/components/GameBoard.tsx:33-67 | a move keeps 0 <= score <= best, no negative value, `gameOver` exactly when `canMove` fails, and `won` only with a 2048 on the board; score and best never decrease |
| GameBoard.KeyGuardRedundant | app/components/GameBoard.tsx:69-90 | in a reachable state, a key press is the move of its arrow or nothing for another key, and after a loss every key leaves the state unchanged |
| GameBoard.KeyDownStepValid | app/components/GameBoard.tsx:69-90 | a key press keeps the state invariant |
| GameBoard.TwoSpawnedTiles | app/utils/gameLogic.ts:39-44 | a board of two tiles, each a 2 or a 4, is not over, not won and has no negative value |
| GameBoard.InitialBoardValid | app/components/GameBoard.tsx:20-26 | the starting board is a valid board that is neither over nor won |
| GameBoard.ResetStepValid | app/components/GameBoard.tsx:97-105 | a reset gives a valid state with score 0, both flags cleared and the best score kept |
| GameBoard.ContinueStepValid | app/components/GameBoard.tsx:107-109 | continuing clears `won` and keeps board, score, best score and `gameOver` |
| GameBoard.ContinueThenWonAgain | app/components/GameBoard.tsx:34-66 | after `continueGame`, a move that changes the board sets `won` again exactly when the moved board still holds a winning tile, since `won` is recomputed on every such move and the spawned tile is only a 2 or a 4 |
| GameBoard.MoveBy | app/components/GameBoard.tsx:35 | the move function for a direction returns the moved board and its score |
| GameBoard.Game.constructor | app/components/GameBoard.tsx:20-26 | the fields start as the initial state, with an empty store log and the invariant holding |
| GameBoard.Game.HandleMove | app/components/GameBoard.tsx:33-67 | the fields become the updater's result, the store log grows by the new best exactly when it rose, and the invariant is kept |
| GameBoard.Game.HandleKeyDown | app/components/GameBoard.tsx:69-90 | the fields become the key handler's result, and the invariant is kept |
| GameBoard.Game.ResetGame | app/components/GameBoard.tsx:97-105 | the fields become a fresh game that keeps the best score, and nothing is written to the store |
| GameBoard.Game.ContinueGame | app/components/GameBoard.tsx:107-109 | only `won` changes, to false |

## Left out

- `getBestScore` and `setBestScore` (app/utils/gameLogic.ts:203-211) read and write the browser's localStorage and parse the stored text. They are not modelled. A write is recorded in the ghost log `Game.storeWrites` instead.
- The effect that loads the stored best score when the component mounts (app/components/GameBoard.tsx:28-31) is not modelled. `Game` starts with a best score of 0, as the initial `useState` value does.
- React machinery is not modelled: `useState`, `useEffect`, `useCallback`, the window key listener, `preventDefault` and all rendering (app/components/GameBoard.tsx:92-95, 111-181).
- `handleKeyDown` reads `gameOver` and `won` from the render it was created in, which can be stale, and React batches updates. The model reads the current fields; timing and batching are framework concerns.
- `JSON.stringify(newBoard) !== JSON.stringify(prev.board)` is modelled as structural inequality of the two boards.
- Only the formulas that turn the `Math.random()` draws into a cell and a value are modelled, not their probabilities.
- Setup.PickIndex: the draw and the product `roll * n` are exact reals. The floating-point rounding of `Math.random() * n` is not modelled, so for a few draws just below a multiple of `1/n` the model picks the empty cell before the one the source picks. No proved property depends on which empty cell is picked.
- Cell values are unbounded integers rather than JavaScript doubles. Rounding above 2^53 and `NaN` are not modelled.
- Every operation requires a 4x4 board (`Grid.IsBoard`). The source's type allows any nested arrays, but every function indexes up to `BOARD_SIZE` and relies on that shape.
