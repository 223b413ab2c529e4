/**
 The values shared by the referee, the move history and the captured-piece
 lists: teams, piece kinds, board coordinates, pieces, board snapshots and
 history records, plus the first-match search that the referee's
 `Array.prototype.find` lookups perform.
 */
module ChessTypes {

  datatype Option<T> = None | Some(value: T)

  /** OUR is White (moves on odd turns), OPPONENT is Black. */
  datatype Team = Our | Opponent

  datatype PieceKind = Pawn | Knight | Bishop | Rook | Queen | King

  /** A board coordinate; `x` is the file index, `y` the row index (0 is White's back row). */
  datatype Position = Position(x: int, y: int)

  /**
   A piece as the referee sees it. `enPassant` is the flag that a `Pawn`
   object carries after a two-square advance (always false for other kinds);
   `possibleMoves` is `None` until the board has computed it.
   */
  datatype Piece = Piece(
    position: Position,
    kind: PieceKind,
    team: Team,
    hasMoved: bool,
    enPassant: bool,
    possibleMoves: Option<seq<Position>>)

  /** A board snapshot: the piece list, the turn counter and the winner, if any. */
  datatype Board = Board(pieces: seq<Piece>, totalTurns: nat, winningTeam: Option<Team>)

  /** One record of the move history; squares are already in algebraic notation. */
  datatype Move = Move(piece: PieceKind, team: Team, from: string, to: string, captured: Option<PieceKind>)

  function Opposite(team: Team): (r: Team)
    ensures r != team
  {
    match team
    case Our => Opponent
    case Opponent => Our
  }

  predicate OnBoard(p: Position) {
    0 <= p.x < 8 && 0 <= p.y < 8
  }

  /**
   The index of the first element of `s` that satisfies `p`, or `None` when
   no element does: the behaviour of `find` (which returns that element).
   */
  function FindFirst<T>(s: seq<T>, p: T -> bool): (r: Option<nat>)
    ensures r.Some? ==> r.value < |s| && p(s[r.value])
    ensures r.Some? ==> forall j :: 0 <= j < r.value ==> !p(s[j])
    ensures r.None? <==> forall j :: 0 <= j < |s| ==> !p(s[j])
  {
    if |s| == 0 then None
    else if p(s[0]) then Some(0)
    else
      match FindFirst(s[1..], p)
      case None => None
      case Some(i) => Some(i + 1)
  }

  /** The first element of `s` satisfying `p`, as `find` returns it. */
  function Find<T>(s: seq<T>, p: T -> bool): (r: Option<T>)
    ensures r.Some? ==> r.value in s && p(r.value)
    ensures r.None? <==> forall j :: 0 <= j < |s| ==> !p(s[j])
    ensures r.Some? ==> exists i :: 0 <= i < |s| && s[i] == r.value
                          && forall j :: 0 <= j < i ==> !p(s[j])
  {
    match FindFirst(s, p)
    case None => None
    case Some(i) => Some(s[i])
  }
}
