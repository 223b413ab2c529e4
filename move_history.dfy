/**
 The move-list display: each history record becomes a line of text
 `<symbol><from>-<to>` with an `x` when something was captured, and every
 second line (White's moves) is preceded by its move number.
 */
module MoveHistory {
  import opened ChessTypes
  import opened Decimal

  /** The one-letter symbol of a piece kind; pawns have none. */
  function PieceSymbol(kind: PieceKind): (s: string)
    ensures |s| <= 1
    ensures s == "" <==> kind == Pawn
    ensures KindOfSymbol(s) == Some(kind)
  {
    match kind
    case King => "K"
    case Queen => "Q"
    case Rook => "R"
    case Bishop => "B"
    case Knight => "N"
    case Pawn => ""
  }

  /** The piece kind a symbol stands for (the empty symbol is a pawn's). */
  function KindOfSymbol(s: string): Option<PieceKind> {
    if s == "" then Some(Pawn)
    else if s == "K" then Some(King)
    else if s == "Q" then Some(Queen)
    else if s == "R" then Some(Rook)
    else if s == "B" then Some(Bishop)
    else if s == "N" then Some(Knight)
    else None
  }

  /** A square in algebraic notation: a file letter a-h followed by a rank digit 1-8. */
  predicate IsSquareName(s: string) {
    |s| == 2 && 'a' <= s[0] <= 'h' && '1' <= s[1] <= '8'
  }

  /**
   The text shown for one history record: the piece's symbol, the origin,
   a dash, the destination, and an `x` exactly when something was captured.
   */
  function MoveText(m: Move): (t: string)
    ensures |t| == |PieceSymbol(m.piece)| + |m.from| + 1 + |m.to| + (if m.captured.Some? then 1 else 0)
    ensures t[|PieceSymbol(m.piece)| + |m.from|] == '-'
    ensures IsSquareName(m.to) ==> (t[|t| - 1] == 'x' <==> m.captured.Some?)
  {
    PieceSymbol(m.piece) + m.from + "-" + m.to + (if m.captured.Some? then "x" else "")
  }

  /** What can be read back from a move text. */
  datatype MoveReading = MoveReading(piece: PieceKind, from: string, to: string, captures: bool)

  function ParseMoveText(t: string): Option<MoveReading> {
    var captures := |t| > 0 && t[|t| - 1] == 'x';
    var core := if captures then t[..|t| - 1] else t;
    if |core| == 5 && core[2] == '-' && IsSquareName(core[..2]) && IsSquareName(core[3..]) then
      Some(MoveReading(Pawn, core[..2], core[3..], captures))
    else if |core| == 6 && core[3] == '-' && IsSquareName(core[1..3]) && IsSquareName(core[4..]) then
      match KindOfSymbol(core[..1])
      case Some(kind) => Some(MoveReading(kind, core[1..3], core[4..], captures))
      case None => None
    else None
  }

  /**
   A move text between two well-formed squares determines the moving
   piece's kind, both squares and whether the move captured.
   */
  lemma MoveTextRoundTrip(m: Move)
    requires IsSquareName(m.from) && IsSquareName(m.to)
    ensures ParseMoveText(MoveText(m)) == Some(MoveReading(m.piece, m.from, m.to, m.captured.Some?))
  {
    var t := MoveText(m);
    var sym := PieceSymbol(m.piece);
    var core := sym + m.from + "-" + m.to;
    assert t == core + (if m.captured.Some? then "x" else "");
    assert t[|t| - 1] == 'x' <==> m.captured.Some?;
    if m.captured.Some? {
      assert t[..|t| - 1] == core;
    }
    if sym == "" {
      assert core[..2] == m.from && core[3..] == m.to;
    } else {
      assert |core| == 6 && core[3] == '-';
      assert core[..1] == sym && core[1..3] == m.from && core[4..] == m.to;
      assert KindOfSymbol(core[..1]) == Some(m.piece);
    }
    assert (if |t| > 0 && t[|t| - 1] == 'x' then t[..|t| - 1] else t) == core;
  }

  /** One rendered line: its move number, if any, its text and whether it is White's. */
  datatype Entry = Entry(number: Option<int>, text: string, white: bool)

  /** The entry at `index` of the list: White's entries (even indices) carry the move number. */
  function RenderEntry(m: Move, index: nat): (e: Entry)
    ensures e.number.Some? <==> index % 2 == 0
    ensures e.number.Some? ==> 2 * e.number.value == index + 2
    ensures e.text == MoveText(m) && (e.white <==> m.team == Our)
  {
    Entry(if index % 2 == 0 then Some(index / 2 + 1) else None, MoveText(m), m.team == Our)
  }

  /** The rendered move list: one entry per record, in history order. */
  function RenderMoves(moves: seq<Move>): (r: seq<Entry>)
    ensures |r| == |moves|
    ensures forall i :: 0 <= i < |r| ==> r[i].text == MoveText(moves[i]) && r[i].white == (moves[i].team == Our)
    ensures forall i :: 0 <= i < |r| ==> (r[i].number.Some? <==> i % 2 == 0)
    ensures forall i :: 0 <= i < |r| && r[i].number.Some? ==> r[i].number.value == i / 2 + 1
  {
    seq(|moves|, i requires 0 <= i < |moves| => RenderEntry(moves[i], i))
  }

  /** The move numbers that appear, top to bottom. */
  function ShownNumbers(entries: seq<Entry>): seq<int> {
    if entries == [] then []
    else
      var last := entries[|entries| - 1];
      ShownNumbers(entries[..|entries| - 1]) + (if last.number.Some? then [last.number.value] else [])
  }

  /** The move numbers shown are 1, 2, 3, ..., one per pair of moves (the last pair may be half full). */
  lemma {:induction false} ShownNumbersCount(moves: seq<Move>)
    ensures var ns := ShownNumbers(RenderMoves(moves));
      |ns| == (|moves| + 1) / 2 && forall j :: 0 <= j < |ns| ==> ns[j] == j + 1
  {
    if moves != [] {
      var n := |moves|;
      var prefix := moves[..n - 1];
      ShownNumbersCount(prefix);
      assert RenderMoves(moves)[..n - 1] == RenderMoves(prefix);
    }
  }
}
