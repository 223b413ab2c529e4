/**
 The referee: it decides whether an attempted move is accepted (a computed
 move list, the right side to move, a listed destination), detects en
 passant, works out which piece is captured, advances the turn counter,
 records the move and the capture, opens a pending promotion, resolves it,
 and handles clock timeouts and restarts.

 The board's own move application and move generation are not part of this
 model: they enter as the function parameters `BoardPlay` and `MoveRules`.
 */
module Referee {
  import opened ChessTypes
  import opened Decimal
  import MoveHistory
  import Timer

  /** `Board.playMove(enPassant, validated, piece, destination)` applied to a board snapshot. */
  datatype PlayOutcome = PlayOutcome(valid: bool, pieces: seq<Piece>, winningTeam: Option<Team>)
  type BoardPlay = (Board, bool, bool, Piece, Position) -> PlayOutcome

  /** The move generator that `Board.calculateAllMoves` applies to every piece. */
  type MoveRules = (Piece, Board) -> seq<Position>

  /** Both clocks start at ten minutes, and restart sets them back to it. */
  const InitialClockSeconds: int := 600

  const Files: string := "abcdefgh"

  // ---------------------------------------------------------------------------
  // Notation

  /** The file letter of a coordinate; a file index off the board reads `undefined`, as the array lookup does. */
  function FileName(x: int): string {
    if 0 <= x < 8 then [Files[x]] else "undefined"
  }

  /**
   The notation exactly as the referee computes it: the file letter, then
   `8 - y` as the rank. Row 0 is White's back row, so this names White's
   squares with Black's ranks.
   */
  function PositionToNotationAsWritten(p: Position): (r: string)
    ensures OnBoard(p) ==> r == PositionToNotation(Position(p.x, 7 - p.y))
  {
    FileName(p.x) + IntToString(8 - p.y)
  }

  /** White's e-pawn starts on e2, but the notation as written names it e7. */
  lemma AsWrittenMisnamesWhitePawnSquare()
    ensures PositionToNotationAsWritten(Position(4, 1)) == "e7"
    ensures PositionToNotation(Position(4, 1)) == "e2"
  {
  }

  /**
   A coordinate in algebraic notation: the file letter, then the rank
   `y + 1`, so that White's back row (row 0) is rank 1.
   */
  function PositionToNotation(p: Position): (r: string)
    ensures OnBoard(p) ==> MoveHistory.IsSquareName(r)
    ensures OnBoard(p) ==> r[0] == Files[p.x] && r[1] as int - '0' as int == p.y + 1
  {
    FileName(p.x) + IntToString(p.y + 1)
  }

  /** The coordinate a square name stands for. */
  function ParseNotation(s: string): Option<Position> {
    if MoveHistory.IsSquareName(s) then
      Some(Position(s[0] as int - 'a' as int, (s[1] as int - '0' as int) - 1))
    else None
  }

  lemma NotationRoundTrip(p: Position)
    requires OnBoard(p)
    ensures ParseNotation(PositionToNotation(p)) == Some(p)
  {
    var r := PositionToNotation(p);
    assert r[0] as int - 'a' as int == p.x by {
      assert Files[p.x] as int == 'a' as int + p.x;
    }
  }

  /** Different squares of the board get different names. */
  lemma NotationInjective(p: Position, q: Position)
    requires OnBoard(p) && OnBoard(q)
    ensures PositionToNotation(p) == PositionToNotation(q) <==> p == q
  {
    NotationRoundTrip(p);
    NotationRoundTrip(q);
  }

  /** The coordinate a square name stands for under the notation as written: row `8 - rank`. */
  function ParseNotationAsWritten(s: string): Option<Position> {
    if MoveHistory.IsSquareName(s) then
      Some(Position(s[0] as int - 'a' as int, 8 - (s[1] as int - '0' as int)))
    else None
  }

  /** The notation as written is a square name and can be read back. */
  lemma AsWrittenRoundTrip(p: Position)
    ensures OnBoard(p) ==> MoveHistory.IsSquareName(PositionToNotationAsWritten(p))
    ensures OnBoard(p) ==> ParseNotationAsWritten(PositionToNotationAsWritten(p)) == Some(p)
  {
    if OnBoard(p) {
      NotationRoundTrip(Position(p.x, 7 - p.y));
    }
  }

  /** The notation as written is wrong but still tells the squares apart. */
  lemma AsWrittenInjective(p: Position, q: Position)
    requires OnBoard(p) && OnBoard(q)
    ensures PositionToNotationAsWritten(p) == PositionToNotationAsWritten(q) <==> p == q
  {
    NotationInjective(Position(p.x, 7 - p.y), Position(q.x, 7 - q.y));
  }

  // ---------------------------------------------------------------------------
  // Turn order and the acceptance guards

  /** OUR (White) moves on odd turn counts, OPPONENT (Black) on even ones. */
  function SideToMove(totalTurns: nat): Team {
    if totalTurns % 2 == 1 then Our else Opponent
  }

  /** The two parity checks of `playMove`. */
  function TurnAllows(team: Team, totalTurns: nat): (r: bool)
    ensures r <==> team == SideToMove(totalTurns)
  {
    !(team == Our && totalTurns % 2 != 1) && !(team == Opponent && totalTurns % 2 != 0)
  }

  /**
   The guards of `playMove`: the piece has a move list, its side is to
   move, and the destination matches an entry of the list by x and y.
   */
  function Accepts(totalTurns: nat, piece: Piece, dest: Position): (r: bool)
    ensures r <==>
      && piece.possibleMoves.Some?
      && piece.team == SideToMove(totalTurns)
      && exists i :: 0 <= i < |piece.possibleMoves.value|
           && piece.possibleMoves.value[i].x == dest.x && piece.possibleMoves.value[i].y == dest.y
  {
    && piece.possibleMoves.Some?
    && TurnAllows(piece.team, totalTurns)
    && dest in piece.possibleMoves.value
  }

  /** Each clock runs while its own side is to move, so exactly one runs at a time. */
  function ClockActive(team: Team, totalTurns: nat): (r: bool)
    ensures r <==> team == SideToMove(totalTurns)
  {
    match team
    case Opponent => totalTurns % 2 == 0
    case Our => totalTurns % 2 == 1
  }

  // ---------------------------------------------------------------------------
  // En passant and capture

  /** The row step of a pawn of `team`. */
  function Direction(team: Team): int {
    if team == Our then 1 else -1
  }

  /**
   A pawn move one file sideways and one row forward whose square behind
   the destination holds a pawn with the en passant flag (of either team).
   */
  function IsEnPassantMove(pieces: seq<Piece>, from: Position, to: Position, kind: PieceKind, team: Team): (r: bool)
    ensures r <==>
      && kind == Pawn
      && (to.x - from.x == 1 || to.x - from.x == -1)
      && to.y - from.y == Direction(team)
      && exists i :: 0 <= i < |pieces| && pieces[i].position == Position(to.x, to.y - Direction(team))
           && pieces[i].kind == Pawn && pieces[i].enPassant
  {
    var dir := Direction(team);
    if kind == Pawn && (to.x - from.x == -1 || to.x - from.x == 1) && to.y - from.y == dir then
      var flagged := Find(pieces, (p: Piece) =>
        p.position.x == to.x && p.position.y == to.y - dir && p.kind == Pawn && p.enPassant);
      flagged.Some?
    else false
  }

  /** The square whose occupant a move captures: the destination, or the square behind it for en passant. */
  function CaptureSquare(team: Team, dest: Position, enPassant: bool): Position {
    if enPassant then Position(dest.x, dest.y - Direction(team)) else dest
  }

  /** The first piece of the other team on `square`. */
  function OpposingPieceAt(pieces: seq<Piece>, square: Position, team: Team): Option<Piece> {
    Find(pieces, (p: Piece) => p.position.x == square.x && p.position.y == square.y && p.team != team)
  }

  /** The piece a move captures, if any. */
  function CapturedPiece(pieces: seq<Piece>, mover: Piece, dest: Position, enPassant: bool): (r: Option<Piece>)
    ensures r.Some? ==>
      && r.value in pieces
      && r.value.position == CaptureSquare(mover.team, dest, enPassant)
      && r.value.team == Opposite(mover.team)
    ensures r.None? <==> forall i :: 0 <= i < |pieces| ==>
      !(pieces[i].position == CaptureSquare(mover.team, dest, enPassant) && pieces[i].team != mover.team)
    ensures r.Some? ==> exists i :: 0 <= i < |pieces| && pieces[i] == r.value
                           && forall j :: 0 <= j < i ==>
                                !(pieces[j].position == CaptureSquare(mover.team, dest, enPassant) && pieces[j].team != mover.team)
  {
    var atDestination := OpposingPieceAt(pieces, dest, mover.team);
    if enPassant then
      OpposingPieceAt(pieces, Position(dest.x, dest.y - Direction(mover.team)), mover.team)
    else atDestination
  }

  /**
   The history record of an accepted move: the mover's kind and team, both
   squares in the notation as written, and the captured piece's kind.
   */
  function HistoryRecord(mover: Piece, dest: Position, captured: Option<Piece>): (r: Move)
    ensures r.piece == mover.kind && r.team == mover.team
    ensures r.captured.Some? <==> captured.Some?
    ensures captured.Some? ==> r.captured.value == captured.value.kind
    ensures OnBoard(mover.position) ==> ParseNotationAsWritten(r.from) == Some(mover.position)
    ensures OnBoard(dest) ==> ParseNotationAsWritten(r.to) == Some(dest)
  {
    AsWrittenRoundTrip(mover.position);
    AsWrittenRoundTrip(dest);
    Move(mover.kind, mover.team, PositionToNotationAsWritten(mover.position), PositionToNotationAsWritten(dest),
         if captured.Some? then Some(captured.value.kind) else None)
  }

  /**
   What the move list shows for a move between two board squares is enough
   to recover the mover's kind, both coordinates (read with the rank as
   written) and whether it captured.
   */
  lemma HistoryRecordReadsBack(mover: Piece, dest: Position, captured: Option<Piece>)
    requires OnBoard(mover.position) && OnBoard(dest)
    ensures var reading := MoveHistory.ParseMoveText(MoveHistory.MoveText(HistoryRecord(mover, dest, captured)));
      && reading.Some?
      && reading.value.piece == mover.kind
      && ParseNotationAsWritten(reading.value.from) == Some(mover.position)
      && ParseNotationAsWritten(reading.value.to) == Some(dest)
      && reading.value.captures == captured.Some?
  {
    AsWrittenRoundTrip(mover.position);
    AsWrittenRoundTrip(dest);
    MoveHistory.MoveTextRoundTrip(HistoryRecord(mover, dest, captured));
  }

  /**
   Files a captured piece under its owner: OUR pieces in the first list
   (`whiteCaptured`), OPPONENT pieces in the second (`blackCaptured`).
   */
  function RouteCapture(white: seq<PieceKind>, black: seq<PieceKind>, captured: Option<Piece>)
    : (r: (seq<PieceKind>, seq<PieceKind>))
    ensures |r.0| + |r.1| == |white| + |black| + (if captured.Some? then 1 else 0)
    ensures captured.None? ==> r == (white, black)
    ensures captured.Some? && captured.value.team == Our ==> r == (white + [captured.value.kind], black)
    ensures captured.Some? && captured.value.team == Opponent ==> r == (white, black + [captured.value.kind])
  {
    if captured.Some? then
      if captured.value.team == Our then (white + [captured.value.kind], black)
      else (white, black + [captured.value.kind])
    else (white, black)
  }

  /** The kinds captured by `team`'s moves, in history order. */
  function CapturesBy(moves: seq<Move>, team: Team): seq<PieceKind> {
    if moves == [] then []
    else
      var last := moves[|moves| - 1];
      CapturesBy(moves[..|moves| - 1], team)
        + (if last.team == team && last.captured.Some? then [last.captured.value] else [])
  }

  lemma CapturesByAppend(moves: seq<Move>, m: Move, team: Team)
    ensures CapturesBy(moves + [m], team)
      == CapturesBy(moves, team) + (if m.team == team && m.captured.Some? then [m.captured.value] else [])
  {
    assert (moves + [m])[..|moves|] == moves;
  }

  // ---------------------------------------------------------------------------
  // Promotion

  /** The row on which a pawn of `team` promotes: the last row of the board in its direction of travel. */
  function PromotionRow(team: Team): (r: int)
    ensures 0 <= r < 8 && !(0 <= r + Direction(team) < 8)
  {
    if team == Our then 7 else 0
  }

  /** Whether an accepted move opens a promotion: a pawn arriving on its promotion row. */
  function OpensPromotion(mover: Piece, dest: Position): (r: bool)
    ensures r <==> mover.kind == Pawn && ((mover.team == Our && dest.y == 7) || (mover.team == Opponent && dest.y == 0))
  {
    dest.y == PromotionRow(mover.team) && mover.kind == Pawn
  }

  /** A piece on the pending square becomes a moved piece of the chosen kind; any other stays as it is. */
  function PromoteOne(p: Piece, at: Position, kind: PieceKind): (r: Piece)
    ensures r.position == p.position && r.team == p.team
    ensures p.position != at ==> r == p
    ensures p.position == at ==> r.kind == kind && r.hasMoved && !r.enPassant && r.possibleMoves.None?
  {
    if p.position == at then Piece(p.position, kind, p.team, true, false, None) else p
  }

  /** The piece list `promotePawn` builds by pushing one piece at a time. */
  function Promoted(pieces: seq<Piece>, at: Position, kind: PieceKind): (r: seq<Piece>)
    ensures |r| == |pieces|
    ensures pieces != [] ==> r[|r| - 1] == PromoteOne(pieces[|pieces| - 1], at, kind)
  {
    if pieces == [] then []
    else Promoted(pieces[..|pieces| - 1], at, kind) + [PromoteOne(pieces[|pieces| - 1], at, kind)]
  }

  /** Every piece of the promoted list is the promotion of the piece at the same index. */
  lemma {:induction false} PromotedAt(pieces: seq<Piece>, at: Position, kind: PieceKind, i: nat)
    requires i < |pieces|
    ensures Promoted(pieces, at, kind)[i] == PromoteOne(pieces[i], at, kind)
    decreases |pieces|
  {
    var n := |pieces|;
    if i < n - 1 {
      PromotedAt(pieces[..n - 1], at, kind, i);
    }
  }

  /**
   Promotion keeps the list's length and order, touches no piece off the
   pending square, and leaves on that square only moved pieces of the
   chosen kind, each of its former team.
   */
  lemma PromotionReplacesOnlyPending(pieces: seq<Piece>, at: Position, kind: PieceKind)
    ensures var r := Promoted(pieces, at, kind);
      && |r| == |pieces|
      && (forall i :: 0 <= i < |r| && pieces[i].position != at ==> r[i] == pieces[i])
      && (forall i :: 0 <= i < |r| && pieces[i].position == at ==>
            r[i].position == at && r[i].kind == kind && r[i].team == pieces[i].team && r[i].hasMoved)
  {
    forall i | 0 <= i < |pieces| ensures Promoted(pieces, at, kind)[i] == PromoteOne(pieces[i], at, kind) {
      PromotedAt(pieces, at, kind, i);
    }
  }

  /** The `reduce` of `promotePawn`, pushing one piece per step. */
  method PromotedPieces(pieces: seq<Piece>, at: Position, kind: PieceKind) returns (results: seq<Piece>)
    ensures results == Promoted(pieces, at, kind)
  {
    results := [];
    var i := 0;
    while i < |pieces|
      invariant 0 <= i <= |pieces|
      invariant results == Promoted(pieces[..i], at, kind)
    {
      var piece := pieces[i];
      if piece.position == at {
        results := results + [Piece(piece.position, kind, piece.team, true, false, None)];
      } else {
        results := results + [piece];
      }
      assert pieces[..i + 1][..i] == pieces[..i];
      i := i + 1;
    }
    assert pieces[..i] == pieces;
  }

  /** A piece with its move list dropped: what identifies it on the board. */
  function Identity(p: Piece): Piece {
    p.(possibleMoves := None)
  }

  /** `Board.calculateAllMoves`: every piece gets a fresh move list from `rules`; nothing else changes. */
  function CalculateAllMoves(b: Board, rules: MoveRules): (r: Board)
    ensures |r.pieces| == |b.pieces| && r.totalTurns == b.totalTurns && r.winningTeam == b.winningTeam
    ensures forall i :: 0 <= i < |r.pieces| ==>
      Identity(r.pieces[i]) == Identity(b.pieces[i]) && r.pieces[i].possibleMoves.Some?
  {
    b.(pieces := seq(|b.pieces|, i requires 0 <= i < |b.pieces| =>
                   b.pieces[i].(possibleMoves := Some(rules(b.pieces[i], b)))))
  }

  // ---------------------------------------------------------------------------
  // Restart and the clocks

  /**
   As written, restart hands each clock the same `initialTime` of 600 it
   already had, so the clock's reset effect does not run: a clock that ran
   out stays at zero and reports a timeout again at once.
   */
  lemma RestartAsWrittenKeepsExpiredClock(isActive: bool)
    ensures Timer.SyncedTimeLeft(InitialClockSeconds, 0, InitialClockSeconds) == 0
    ensures Timer.ClockStep(isActive, Timer.SyncedTimeLeft(InitialClockSeconds, 0, InitialClockSeconds)) == Timer.TimeOut
  {
  }

  /**
   A clock at ten minutes, as the constructor and `RestartGameResettingClocks`
   leave both clocks, runs its full ten minutes while active before timing out.
   */
  lemma RestartedClockRunsFullTime(steps: nat)
    ensures Timer.Run(true, InitialClockSeconds, steps).timedOut <==> steps > InitialClockSeconds
  {
    Timer.ActiveClockTimesOutAtZero(InitialClockSeconds, steps);
  }

  /**
   White's opening pawn move from e2 to e4 (rows 1 to 3) is recorded with
   Black's ranks: the move list shows e7-e5.
   */
  lemma OpeningMoveRecord(pawn: Piece)
    requires pawn.position == Position(4, 1) && pawn.kind == Pawn && pawn.team == Our
    ensures HistoryRecord(pawn, Position(4, 3), None) == Move(Pawn, Our, "e7", "e5", None)
    ensures MoveHistory.MoveText(HistoryRecord(pawn, Position(4, 3), None)) == "e7-e5"
    ensures PositionToNotation(pawn.position) == "e2" && PositionToNotation(Position(4, 3)) == "e4"
  {
  }

  // ---------------------------------------------------------------------------
  // The referee's state

  class Game {
    var board: Board
    var promotionPawn: Option<Piece>
    var moves: seq<Move>
    var whiteCaptured: seq<PieceKind>
    var blackCaptured: seq<PieceKind>
    var whiteTime: int
    var blackTime: int
    const whiteClock: Timer.Clock
    const blackClock: Timer.Clock

    /**
     The two captured lists are exactly the captures recorded in the history:
     OUR pieces lost to OPPONENT moves, and OPPONENT pieces lost to OUR moves.
     The time states only ever hold ten minutes, and each clock's last
     `initialTime` prop is its side's time state.
     */
    ghost predicate Valid()
      reads this, whiteClock, blackClock
    {
      && whiteClock != blackClock
      && whiteCaptured == CapturesBy(moves, Opponent)
      && blackCaptured == CapturesBy(moves, Our)
      && whiteTime == InitialClockSeconds && blackTime == InitialClockSeconds
      && whiteClock.initialTime == whiteTime && blackClock.initialTime == blackTime
    }

    constructor (initial: Board)
      ensures Valid()
      ensures board == initial && promotionPawn == None
      ensures moves == [] && whiteCaptured == [] && blackCaptured == []
      ensures whiteTime == InitialClockSeconds && blackTime == InitialClockSeconds
      ensures whiteClock.timeLeft == InitialClockSeconds && blackClock.timeLeft == InitialClockSeconds
      ensures fresh(whiteClock) && fresh(blackClock)
    {
      board := initial;
      promotionPawn := None;
      moves, whiteCaptured, blackCaptured := [], [], [];
      whiteTime, blackTime := InitialClockSeconds, InitialClockSeconds;
      whiteClock := new Timer.Clock(InitialClockSeconds);
      blackClock := new Timer.Clock(InitialClockSeconds);
    }

    /**
     An attempt to move `playedPiece` to `destination`. A rejected attempt
     changes nothing. An accepted one advances the turn counter on the new
     board whatever the board's own move reports; only when that move
     succeeds are the history record and the capture recorded. A pawn that
     reaches its promotion row becomes the pending promotion.
     */
    method PlayMove(playedPiece: Piece, destination: Position, boardPlay: BoardPlay) returns (accepted: bool)
      requires Valid()
      modifies this
      ensures Valid()
      ensures accepted == Accepts(old(board.totalTurns), playedPiece, destination)
      ensures !accepted ==>
        && board == old(board) && promotionPawn == old(promotionPawn) && moves == old(moves)
        && whiteCaptured == old(whiteCaptured) && blackCaptured == old(blackCaptured)
      ensures accepted ==>
        var enPassant := IsEnPassantMove(old(board.pieces), playedPiece.position, destination,
                                         playedPiece.kind, playedPiece.team);
        var captured := CapturedPiece(old(board.pieces), playedPiece, destination, enPassant);
        var outcome := boardPlay(old(board).(totalTurns := old(board.totalTurns) + 1),
                                 enPassant, true, playedPiece, destination);
        && board == Board(outcome.pieces, old(board.totalTurns) + 1, outcome.winningTeam)
        && moves == (if outcome.valid then old(moves) + [HistoryRecord(playedPiece, destination, captured)]
                     else old(moves))
        && (whiteCaptured, blackCaptured)
             == (if outcome.valid then RouteCapture(old(whiteCaptured), old(blackCaptured), captured)
                 else (old(whiteCaptured), old(blackCaptured)))
        && promotionPawn == (if OpensPromotion(playedPiece, destination)
                             then Some(playedPiece.(position := destination)) else old(promotionPawn))
      ensures whiteTime == old(whiteTime) && blackTime == old(blackTime)
    {
      if playedPiece.possibleMoves.None? {
        return false;
      }
      if playedPiece.team == Our && board.totalTurns % 2 != 1 {
        return false;
      }
      if playedPiece.team == Opponent && board.totalTurns % 2 != 0 {
        return false;
      }
      var validMove := destination in playedPiece.possibleMoves.value;
      if !validMove {
        return false;
      }

      var enPassantMove := IsEnPassantMove(board.pieces, playedPiece.position, destination,
                                           playedPiece.kind, playedPiece.team);
      var capturedPiece := CapturedPiece(board.pieces, playedPiece, destination, enPassantMove);

      var clonedBoard := board.(totalTurns := board.totalTurns + 1);
      var outcome := boardPlay(clonedBoard, enPassantMove, validMove, playedPiece, destination);
      Record(playedPiece, destination, capturedPiece, outcome, clonedBoard.totalTurns);
      return true;
    }

    /**
     The part of an accepted attempt after the board's own move: the new
     board, the history record and captured piece when that move succeeded,
     and the pending promotion.
     */
    method Record(playedPiece: Piece, destination: Position, captured: Option<Piece>,
                  outcome: PlayOutcome, totalTurns: nat)
      requires Valid()
      requires captured.Some? ==> captured.value.team == Opposite(playedPiece.team)
      modifies this
      ensures Valid()
      ensures board == Board(outcome.pieces, totalTurns, outcome.winningTeam)
      ensures moves == (if outcome.valid then old(moves) + [HistoryRecord(playedPiece, destination, captured)]
                        else old(moves))
      ensures (whiteCaptured, blackCaptured)
                == (if outcome.valid then RouteCapture(old(whiteCaptured), old(blackCaptured), captured)
                    else (old(whiteCaptured), old(blackCaptured)))
      ensures promotionPawn == (if OpensPromotion(playedPiece, destination)
                                then Some(playedPiece.(position := destination)) else old(promotionPawn))
      ensures whiteTime == old(whiteTime) && blackTime == old(blackTime)
    {
      if outcome.valid {
        var record := HistoryRecord(playedPiece, destination, captured);
        CapturesByAppend(moves, record, Our);
        CapturesByAppend(moves, record, Opponent);
        var routed := RouteCapture(whiteCaptured, blackCaptured, captured);
        moves := moves + [record];
        whiteCaptured, blackCaptured := routed.0, routed.1;
      }
      board := Board(outcome.pieces, totalTurns, outcome.winningTeam);

      if destination.y == PromotionRow(playedPiece.team) && playedPiece.kind == Pawn {
        promotionPawn := Some(playedPiece.(position := destination));
      }
    }

    /**
     Replaces the pending pawn with a moved piece of `kind` and recomputes
     every move list; does nothing when no promotion is pending. The pending
     promotion itself is kept.
     */
    method PromotePawn(kind: PieceKind, rules: MoveRules)
      requires Valid()
      modifies this
      ensures Valid()
      ensures old(promotionPawn).None? ==> board == old(board)
      ensures old(promotionPawn).Some? ==>
        board == CalculateAllMoves(old(board).(pieces := Promoted(old(board.pieces), old(promotionPawn).value.position, kind)), rules)
      ensures promotionPawn == old(promotionPawn) && moves == old(moves)
      ensures whiteCaptured == old(whiteCaptured) && blackCaptured == old(blackCaptured)
      ensures whiteTime == old(whiteTime) && blackTime == old(blackTime)
    {
      if promotionPawn.None? {
        return;
      }
      var pieces := PromotedPieces(board.pieces, promotionPawn.value.position, kind);
      board := CalculateAllMoves(board.(pieces := pieces), rules);
    }

    /** A clock ran out: the other side wins, and nothing else changes. */
    method OnTimeOut(expired: Team)
      requires Valid()
      modifies this
      ensures Valid()
      ensures board == old(board).(winningTeam := Some(Opposite(expired)))
      ensures promotionPawn == old(promotionPawn) && moves == old(moves)
      ensures whiteCaptured == old(whiteCaptured) && blackCaptured == old(blackCaptured)
      ensures whiteTime == old(whiteTime) && blackTime == old(blackTime)
    {
      board := board.(winningTeam := Some(Opposite(expired)));
    }

    /**
     One second of play: each clock runs its countdown rule, active while its
     side is to move, and a clock that reports a timeout calls its handler
     (Black's clock first, as the clocks are laid out).
     */
    method TickClocks() returns (whiteTimedOut: bool, blackTimedOut: bool)
      requires Valid()
      modifies this, whiteClock, blackClock
      ensures Valid()
      ensures whiteTimedOut <==> old(whiteClock.timeLeft) <= 0
      ensures blackTimedOut <==> old(blackClock.timeLeft) <= 0
      ensures whiteClock.timeLeft == Timer.NextTimeLeft(ClockActive(Our, old(board.totalTurns)), old(whiteClock.timeLeft))
      ensures blackClock.timeLeft == Timer.NextTimeLeft(ClockActive(Opponent, old(board.totalTurns)), old(blackClock.timeLeft))
      ensures whiteClock.initialTime == old(whiteClock.initialTime) && blackClock.initialTime == old(blackClock.initialTime)
      ensures board == old(board).(winningTeam :=
        if whiteTimedOut then Some(Opponent) else if blackTimedOut then Some(Our) else old(board.winningTeam))
      ensures promotionPawn == old(promotionPawn) && moves == old(moves)
      ensures whiteCaptured == old(whiteCaptured) && blackCaptured == old(blackCaptured)
      ensures whiteTime == old(whiteTime) && blackTime == old(blackTime)
    {
      var turns := board.totalTurns;
      blackTimedOut := blackClock.Tick(ClockActive(Opponent, turns));
      whiteTimedOut := whiteClock.Tick(ClockActive(Our, turns));
      if blackTimedOut {
        OnTimeOut(Opponent);
      }
      if whiteTimedOut {
        OnTimeOut(Our);
      }
    }

    /**
     Restart as written: back to the initial board with an empty history and
     empty captured lists, and both time states set to ten minutes. The
     clocks are then rendered with an `initialTime` equal to the one they
     already had, so neither resets: each keeps the time it showed. The
     pending promotion is kept.
     */
    method RestartGame(initial: Board)
      requires Valid()
      modifies this, whiteClock, blackClock
      ensures Valid()
      ensures board == initial && moves == [] && whiteCaptured == [] && blackCaptured == []
      ensures whiteTime == InitialClockSeconds && blackTime == InitialClockSeconds
      ensures whiteClock.timeLeft == old(whiteClock.timeLeft) && blackClock.timeLeft == old(blackClock.timeLeft)
      ensures whiteClock.initialTime == InitialClockSeconds && blackClock.initialTime == InitialClockSeconds
      ensures promotionPawn == old(promotionPawn)
    {
      board := initial;
      moves, whiteCaptured, blackCaptured := [], [], [];
      whiteTime, blackTime := InitialClockSeconds, InitialClockSeconds;
      whiteClock.SyncInitialTime(whiteTime);
      blackClock.SyncInitialTime(blackTime);
    }

    /**
     Restart as evidently intended: the same as `RestartGame`, except that
     both clocks are set back to ten minutes, whatever they showed.
     */
    method RestartGameResettingClocks(initial: Board)
      requires Valid()
      modifies this, whiteClock, blackClock
      ensures Valid()
      ensures board == initial && moves == [] && whiteCaptured == [] && blackCaptured == []
      ensures whiteTime == InitialClockSeconds && blackTime == InitialClockSeconds
      ensures whiteClock.timeLeft == InitialClockSeconds && blackClock.timeLeft == InitialClockSeconds
      ensures whiteClock.initialTime == InitialClockSeconds && blackClock.initialTime == InitialClockSeconds
      ensures promotionPawn == old(promotionPawn)
    {
      board := initial;
      moves, whiteCaptured, blackCaptured := [], [], [];
      whiteTime, blackTime := InitialClockSeconds, InitialClockSeconds;
      whiteClock.Reset(whiteTime);
      blackClock.Reset(blackTime);
    }
  }
}
