# React-Chess referee, clock and move list in Dafny

This project models the game controller of a browser chess game and proves
properties about it. The controller lives in the `Referee` component. It
decides whether an attempted move is accepted: the piece must have a
computed move list, its side must be the one to move, and the destination
must be in the list. For an accepted move it then:

- detects en passant;
- works out which piece was captured;
- advances the turn counter on a copy of the board;
- records the move in the history and files the captured piece under its owner;
- opens a pending promotion when a pawn reaches its last row.

It also resolves a promotion, handles a clock running out and restarts the
game. Next to it are the countdown clock (`Timer`), with its `m:ss`
display, and the move list (`MoveHistory`), which turns each history record
into text and numbers the move pairs.

Modules, one per component plus two shared ones:

- `ChessTypes` (`chess_types.dfy`): teams, piece kinds, coordinates, pieces, board snapshots, history records, and the first-match search behind `find`.
- `Decimal` (`decimal.dfy`): how an integer is written in a template literal, and reading it back.
- `Referee` (`referee.dfy`): notation, the acceptance guards, en passant, capture, promotion, and the class `Game` that holds the referee's state (board, pending promotion, history, the two captured lists, the clock settings and the two clocks).
- `Timer` (`timer.dfy`): `FormatTime`, the countdown rule, and the class `Clock` holding one timer's state.
- `MoveHistory` (`move_history.dfy`): piece symbols, move text, and the rendered list.

The board's own move application (`Board.playMove`) and move generation
(`calculateAllMoves`) are not part of this model. `Game.PlayMove` takes the
board's move as a function parameter of type `BoardPlay`. Its result is
the new piece list, the winner and a success flag, so it cannot change the
turn counter; the referee alone advances that counter. `Game.PromotePawn`
takes the move generator as a parameter of type `MoveRules`, and
`CalculateAllMoves` gives every piece a fresh move list from it and changes
nothing else. The initial arrangement (`initialBoard`) is a parameter of the
constructor and of `RestartGame`.

The model does what the code does, including these behaviours that are
easy to miss:

- the en passant test does not check the team of the flagged pawn;
- an accepted attempt advances the turn counter even when the board's own move reports failure (only the history and the captured lists wait for success);
- resolving a promotion does not clear the pending promotion, and neither does a restart;
- a clock reports a timeout whenever it shows zero or less, active or not;
- restart does not set the clocks back (see Findings).

The code writes a square's rank as `8 - y`
(src/components/Referee/Referee.tsx:49). OUR (White) pawns move toward larger
`y` (lines 80 and 144) and promote on row 7 (line 125), so row 0 is White's
back row, and `8 - y` gives White's squares Black's ranks: White's e-pawn on
row 1 is written "e7". The history records use the notation as written
(`PositionToNotationAsWritten`); the corrected notation `PositionToNotation`
is defined beside it and is the corrected half of the first Finding.

## Model

| member | source | states |
|---|---|---|
| `ChessTypes.FindFirst` | src/components/Referee/Referee.tsx:73-77 | the index found satisfies the predicate and no earlier element does; none is found exactly when no element satisfies it |
| `ChessTypes.Find` | src/components/Referee/Referee.tsx:151-157 | the element found is in the list, satisfies the predicate and is the first that does; none is found iff no element satisfies it |
| `Decimal.NatToString` | src/components/Timer/Timer.tsx:37 | the decimal spelling is all digits and non-empty; it is one digit iff the number is below ten, and it starts with '0' only for zero |
| `Decimal.NatToStringRoundTrip` | src/components/Timer/Timer.tsx:37 | reading the digits back gives the number |
| `Referee.PositionToNotationAsWritten` | src/components/Referee/Referee.tsx:47-51 | the notation as coded, file letter then `8 - y`, names each square of the board as its mirror across the middle row |
| `Referee.AsWrittenMisnamesWhitePawnSquare` | src/components/Referee/Referee.tsx:49 | as coded, White's e-pawn square (4, 1) is written "e7" where the corrected notation writes "e2" |
| `Referee.AsWrittenRoundTrip` | src/components/Referee/Referee.tsx:47-51 | the notation as coded of a board square is a square name, and reading its rank r back as row `8 - r` gives the coordinate |
| `Referee.AsWrittenInjective` | src/components/Referee/Referee.tsx:47-51 | the notation as coded still gives distinct squares of the 8 x 8 board distinct names |
| `Referee.PositionToNotation` | src/components/Referee/Referee.tsx:47-51 | for a board square: a square name whose first character is `"abcdefgh"[x]`, followed by the digit of rank `y + 1` |
| `Referee.NotationRoundTrip` | src/components/Referee/Referee.tsx:47-51 | parsing the name of a board square gives back the coordinate |
| `Referee.NotationInjective` | src/components/Referee/Referee.tsx:47-51 | two board squares share a name iff they are the same square |
| `Referee.TurnAllows` | src/components/Referee/Referee.tsx:56-59 | the two parity checks let a team move iff it is the side to move: OUR on an odd turn count, OPPONENT on an even one |
| `Referee.Accepts` | src/components/Referee/Referee.tsx:53-64 | an attempt is accepted iff the piece has a move list, its team is the side to move, and some listed move matches the destination in x and y |
| `Referee.ClockActive` | src/components/Referee/Referee.tsx:204-229 | a clock runs iff its team is the side to move, so exactly one clock runs for each parity |
| `Referee.IsEnPassantMove` | src/components/Referee/Referee.tsx:138-162 | true iff the mover is a pawn, moves one file sideways and one row in its team's direction, and a pawn with the en passant flag stands on the square behind the destination; that pawn's team is not checked |
| `Referee.CapturedPiece` | src/components/Referee/Referee.tsx:73-86 | a captured piece is in the piece list, belongs to the other team and stands on the destination, or on the square behind it for en passant, and no earlier piece of the list is of the other team on that square; there is none iff no piece of the other team stands on that square |
| `Referee.HistoryRecord` | src/components/Referee/Referee.tsx:100-106 | the record carries the mover's kind and team; its squares are in the notation as written and read back (rank r as row `8 - r`) to the mover's and the destination's coordinates; it carries a captured kind iff a piece was captured, and then that piece's kind |
| `Referee.HistoryRecordReadsBack` | src/components/Referee/Referee.tsx:100-106 | for a move between board squares, the move list's text for the record recovers the mover's kind, both coordinates (reading rank r as row `8 - r`, as the notation is written) and whether it captured |
| `Referee.RouteCapture` | src/components/Referee/Referee.tsx:109-115 | with a capture, exactly one list grows by exactly the captured kind: the first when the victim is OUR, the second when it is OPPONENT; without one both stay |
| `Referee.CapturesByAppend` | src/components/Referee/Referee.tsx:107-115 | appending a record adds its captured kind to the captures of its team, and adds nothing to the other team's |
| `Referee.PromotionRow` | src/components/Referee/Referee.tsx:125 | the promotion row is a row of the board, and one more step in the team's pawn direction would leave the board |
| `Referee.OpensPromotion` | src/components/Referee/Referee.tsx:125-126 | a move opens a promotion iff the mover is a pawn and the destination is on row 7 for OUR or row 0 for OPPONENT |
| `Referee.PromoteOne` | src/components/Referee/Referee.tsx:170-176 | a piece off the pending square is kept as it is; a piece on it keeps its position and team and becomes a moved piece of the chosen kind, without the en passant flag and without a move list |
| `Referee.Promoted` | src/components/Referee/Referee.tsx:169-178 | the rebuilt piece list is as long as the old one, and its last entry is the old last entry passed through the promotion |
| `Referee.PromotedAt` | src/components/Referee/Referee.tsx:169-178 | each entry of the rebuilt list is the old entry at the same index, promoted if it stood on the pending square |
| `Referee.PromotionReplacesOnlyPending` | src/components/Referee/Referee.tsx:169-178 | promotion keeps length and order and leaves every piece off the pending square unchanged; on that square it leaves only moved pieces of the chosen kind, each of its former team |
| `Referee.PromotedPieces` | src/components/Referee/Referee.tsx:169-178 | the loop that pushes one piece per step builds exactly the promoted list |
| `Referee.CalculateAllMoves` | src/components/Referee/Referee.tsx:179 | recomputing the move lists keeps every piece's position, kind, team and flags, gives each a move list, and keeps the turn count and winner |
| `Referee.RestartAsWrittenKeepsExpiredClock` | src/components/Referee/Referee.tsx:190-198 | as coded, restart passes the clock the same 600 it had, so a clock at zero stays at zero and reports a timeout again |
| `Referee.RestartedClockRunsFullTime` | src/components/Timer/Timer.tsx:20-32 | a clock at 600 seconds, as the constructor and `Game.RestartGameResettingClocks` leave both clocks, times out while active only after more than 600 ticks |
| `Referee.OpeningMoveRecord` | src/components/Referee/Referee.tsx:47-51 | as coded, White's pawn from (4, 1) to (4, 3) with no capture is recorded as PAWN, OUR, "e7", "e5" and shown as "e7-e5", where the corrected notation names those squares "e2" and "e4" |
| `Referee.Game.constructor` | src/components/Referee/Referee.tsx:36-42 | the game starts on the initial board with no pending promotion, empty history and captured lists, and both clocks at 600 seconds |
| `Referee.Game.PlayMove` | src/components/Referee/Referee.tsx:53-136 | the result is `Accepts`. A rejected attempt changes nothing. An accepted one puts the turn count up by one on the new board and gives the board's move the en passant verdict. If that move succeeds, the history grows by exactly the record of the move (squares in the notation as written) and the capture is filed by `RouteCapture`. The pending promotion is set iff a pawn reaches its promotion row (7 for OUR, 0 for OPPONENT). The captured lists stay equal to the captures in the history |
| `Referee.Game.Record` | src/components/Referee/Referee.tsx:88-133 | the new board, the history record (`HistoryRecord`, notation as written) and the filed capture when the board's move succeeded, and the pending promotion at the destination of a pawn on its promotion row |
| `Referee.Game.PromotePawn` | src/components/Referee/Referee.tsx:164-184 | with nothing pending the board is unchanged; otherwise the board is the promoted piece list with every move list recomputed; the history, captured lists and pending promotion stay |
| `Referee.Game.OnTimeOut` | src/components/Referee/Referee.tsx:208-234 | the side whose clock ran out loses: the winner becomes the other side and nothing else changes |
| `Referee.Game.TickClocks` | src/components/Referee/Referee.tsx:204-235 | each clock takes one countdown step, active iff its side is to move; a clock at zero or less reports a timeout and the other side is made the winner |
| `Referee.Game.RestartGame` | src/components/Referee/Referee.tsx:190-198 | as coded: the board is the initial one, the history and both captured lists are empty and both time states are 600; each clock receives the `initialTime` of 600 it already had, so it keeps its time left; the pending promotion stays |
| `Referee.Game.RestartGameResettingClocks` | src/components/Referee/Referee.tsx:190-198 | the corrected restart: as `RestartGame`, except that both clocks show 600 seconds again |
| `Timer.JsRemainder` | src/components/Timer/Timer.tsx:36 | JavaScript's `%` by a positive divisor: equal to the mathematical remainder for a non-negative dividend, strictly between minus and plus the divisor, and dividend = truncated quotient times divisor plus remainder |
| `Timer.FormatTime` | src/components/Timer/Timer.tsx:34-38 | for a non-negative count: the minutes `seconds div 60` in decimal, a colon, then exactly two digits worth `seconds mod 60`, the first of them '0' iff the second count is below ten |
| `Timer.FormatTimeRoundTrip` | src/components/Timer/Timer.tsx:34-38 | the clock text of a non-negative count reads back as that count |
| `Timer.FormatTimeExamples` | src/components/Timer/Timer.tsx:34-38 | 600 seconds show as "10:00" and 65 as "1:05" |
| `Timer.ClockStep` | src/components/Timer/Timer.tsx:20-32 | the countdown is scheduled iff the clock is active with time left; the timeout callback fires iff no time is left, so a positive clock never times out |
| `Timer.NextTimeLeft` | src/components/Timer/Timer.tsx:23-25 | a scheduled countdown takes exactly one second off; otherwise the time left stays |
| `Timer.ActiveClockTimesOutAtZero` | src/components/Timer/Timer.tsx:20-32 | an active clock started at t seconds shows t - n after n steps (never below zero) and has timed out within n steps iff n > t |
| `Timer.InactiveClockStands` | src/components/Timer/Timer.tsx:23-28 | an inactive clock with time left keeps its time and never times out, however many steps pass |
| `Timer.SyncedTimeLeft` | src/components/Timer/Timer.tsx:16-18 | the time left is reset to the new initial time iff the initial time changed; otherwise it is kept |
| `Timer.Clock.constructor` | src/components/Timer/Timer.tsx:14 | a new clock shows its initial time |
| `Timer.Clock.SyncInitialTime` | src/components/Timer/Timer.tsx:16-18 | after a render with an initial time, the clock holds that initial time and its time left is `SyncedTimeLeft` of the old state |
| `Timer.Clock.Tick` | src/components/Timer/Timer.tsx:20-32 | one step reports a timeout iff the time left was zero or less, and leaves `NextTimeLeft` of the old time |
| `Timer.Clock.Reset` | src/components/Timer/Timer.tsx:17 | the reset effect's body applied unconditionally: the clock is set to the given time, whatever it showed; the corrected restart uses it |
| `Timer.Clock.Display` | src/components/Timer/Timer.tsx:43 | the displayed text of a non-negative time reads back as that time |
| `MoveHistory.PieceSymbol` | src/components/MoveHistory/MoveHistory.tsx:19-29 | at most one letter, empty iff the kind is PAWN, and the kind can be recovered from the symbol, so distinct kinds get distinct symbols |
| `MoveHistory.MoveText` | src/components/MoveHistory/MoveHistory.tsx:39-40 | the text is as long as the symbol, origin, a dash, destination and an optional `x` together, has the dash right after the symbol and origin, and (for a square-name destination) ends in `x` iff something was captured |
| `MoveHistory.MoveTextRoundTrip` | src/components/MoveHistory/MoveHistory.tsx:39-40 | the text symbol, from-square, "-", to-square, then "x" iff something was captured, reads back as the kind, both squares and the capture flag |
| `MoveHistory.RenderEntry` | src/components/MoveHistory/MoveHistory.tsx:35-40 | the entry at an index carries a move number iff the index is even, and that number is index / 2 + 1; its text is the record's move text, and it is White's iff the record's team is OUR |
| `MoveHistory.RenderMoves` | src/components/MoveHistory/MoveHistory.tsx:35-43 | one entry per record, in history order, each with that record's move text and side, and a move number exactly at even indices, equal to index / 2 + 1 |
| `MoveHistory.ShownNumbersCount` | src/components/MoveHistory/MoveHistory.tsx:37 | the move numbers shown, top to bottom, are 1, 2, 3, ..., one for each pair of moves, the last pair possibly half full |

## Left out

- Board move application, move generation, check filtering, checkmate detection and `clone`: their code is not part of this model. They enter as the parameters `BoardPlay` and `MoveRules`. Board snapshots are values, so the deep copy is implicit.
- CalculateAllMoves: modelled as "recompute every piece's move list and nothing else", which is what its call site at src/components/Referee/Referee.tsx:179 relies on. The board's real method may do more, for instance set a winner; that code is not part of this model.
- The initial arrangement (`initialBoard` from the constants file): a parameter of `Game.constructor`, `Game.RestartGame` and `Game.RestartGameResettingClocks`.
- React plumbing: state setters and updater callbacks, refs and the modals they show and hide, JSX rendering, the `Chessboard` and `CapturedPieces` components, the promotion images and `promotionTeamType`. The checkmate dialog shown when the new board has a winner is not modelled; the winner is part of the board state.
- Timer scheduling: `setInterval`, `clearInterval` and real time are left out. `Clock.Tick` is one run of the countdown effect plus the decrement it schedules. The effect also re-runs on each render, because the timeout handler is a new function every time; that repetition is left out.
- Game.PlayMove: the piece is a value, not a reference into the live board, so aliasing between it and the board's pieces is not modelled. The board's move always gets `validated = true`, as in the code.
- Numbers are JavaScript floating-point values; the model uses unbounded integers, which is exact for the integer counts involved.
- Referee.PromoteOne: the move list of the new piece is left undefined. The `Piece` constructor's default is not part of this model, and `calculateAllMoves` replaces it at once.

## Findings

| source | as written | input that shows it | evidently intended | confidence | as-written member | corrected member |
|---|---|---|---|---|---|---|
| src/components/Referee/Referee.tsx:49 | the rank is `8 - position.y` | White's e-pawn on (4, 1): OUR pawns move toward y = 7 and promote there, so row 1 is White's pawn row, but it is written "e7" | rank `y + 1`, giving "e2" | high, not executed | `Referee.AsWrittenMisnamesWhitePawnSquare` | `Referee.PositionToNotation` |
| src/components/Referee/Referee.tsx:196-197 | restart calls `setWhiteTime(600)` and `setBlackTime(600)`, but both are already 600. The timer's reset effect (src/components/Timer/Timer.tsx:16-18) runs only when `initialTime` changes, so it does not run | a clock that ran out (time left 0): after restart it is still 0 and reports a timeout again | both clocks back at 600 seconds on restart | medium, not executed | `Referee.RestartAsWrittenKeepsExpiredClock` | `Referee.Game.RestartGameResettingClocks` |
