/** `Piece::get_translations`: each kind's move generator. */
module PieceMoves {
  import opened Wrappers
  import opened Teams
  import opened Pieces
  import opened Squares
  import opened Boards
  import Rooks
  import Bishops
  import Queens
  import Knights
  import Kings
  import Pawns

  /** `Piece::get_translations`: the generator of each kind, as the function value the source returns. */
  function Generator(kind: Piece): (g: (Board, Sq, Team, Option<Piece>) -> seq<Sq>)
  {
    match kind
    case Rook => Rooks.Moves
    case Bishop => Bishops.Moves
    case Knight => Knights.Moves
    case King => Kings.Moves
    case Queen => Queens.Moves
    case Pawn => Pawns.Moves
  }

  /**
   * The destinations of the piece of kind `kind` and side `team` on `from`,
   * as its own generator lists them; the kind also filters the origin.
   */
  function Moves(b: Board, kind: Piece, from: Sq, team: Team): (r: seq<Sq>)
    ensures b.Find(from, Some(team), Some(kind)).None? ==> r == []
  {
    Generator(kind)(b, from, team, Some(kind))
  }

  method GetTranslations(b: Board, kind: Piece, from: Sq, team: Team) returns (r: seq<Sq>)
    ensures r == Moves(b, kind, from, team)
  {
    match kind {
      case Rook => r := Rooks.GetTranslations(b, from, team, Some(kind));
      case Bishop => r := Bishops.GetTranslations(b, from, team, Some(kind));
      case Knight => r := Knights.GetTranslations(b, from, team, Some(kind));
      case King => r := Kings.GetTranslations(b, from, team, Some(kind));
      case Queen => r := Queens.GetTranslations(b, from, team, Some(kind));
      case Pawn => r := Pawns.GetTranslations(b, from, team, Some(kind));
    }
  }

  /** Every generated destination lies on the board. */
  lemma {:induction false} MovesOnBoard(b: Board, kind: Piece, from: Sq, team: Team)
    ensures forall t :: t in Moves(b, kind, from, team) ==> t.OnBoard()
  {
    match kind {
      case Rook =>
      case Bishop => Bishops.MovesOnDiagonal(b, from, team, Some(kind));
      case Queen =>
        Bishops.MovesOnDiagonal(b, from, team, Some(kind));
        Queens.MovesLines(b, from, team, Some(kind));
      case Knight =>
        forall t | t in Moves(b, kind, from, team)
          ensures t.OnBoard()
        {
          Knights.MovesExact(b, from, team, Some(kind), t);
        }
      case King =>
        forall t | t in Moves(b, kind, from, team)
          ensures t.OnBoard()
        {
          Kings.MovesExact(b, from, team, Some(kind), t);
        }
      case Pawn =>
        forall t | t in Moves(b, kind, from, team)
          ensures t.OnBoard()
        {
          Pawns.MovesOnBoard(b, from, team, Some(kind), t);
        }
    }
  }
}
