/** The dispatch from a piece kind to its `locate`, and the locators built on it. */
module PieceLocate {
  import opened Wrappers
  import opened Teams
  import opened Pieces
  import opened Squares
  import opened Boards
  import opened Locates
  import OptSquares
  import PieceMoves
  import Rules
  import RookLocate
  import BishopLocate
  import QueenLocate
  import KnightLocate
  import KingLocate
  import PawnLocate

  /** The candidates the `locate` of `piece` tries, in order. */
  function Candidates(piece: Piece, to: Sq, from: OptSquares.OptSq): seq<Option<Sq>>
  {
    match piece
    case Rook => RookLocate.Candidates(to, from)
    case Bishop => BishopLocate.Candidates(to, from)
    case Knight => KnightLocate.Candidates(to, from)
    case King => KingLocate.Candidates(to)
    case Queen => QueenLocate.Candidates(to, from)
    case Pawn => PawnLocate.Candidates(to, from)
  }

  /** The test the `locate` of `piece` applies to each candidate. */
  function Test(b: Board, to: Sq, team: Team, piece: Piece): Sq -> bool
  {
    if piece == Pawn then PawnLocate.PawnAt(b, to, team, piece) else LegalAt(b, to, team, piece)
  }

  /** What `locate` of `piece` returns: its first candidate that passes its test. */
  function Located(b: Board, to: Sq, from: OptSquares.OptSq, team: Team, piece: Piece): Option<Sq>
  {
    First(Test(b, to, team, piece), Candidates(piece, to, from))
  }

  /** `locator`: `piece.get_locate()` applied to the arguments. */
  method Locator(b: Board, to: Sq, from: OptSquares.OptSq, team: Team, piece: Piece) returns (r: Option<Sq>)
    ensures r == Located(b, to, from, team, piece)
  {
    match piece {
      case Rook => r := RookLocate.Locate(b, to, from, team, piece);
      case Bishop => r := BishopLocate.Locate(b, to, from, team, piece);
      case Knight => r := KnightLocate.Locate(b, to, from, team, piece);
      case King => r := KingLocate.Locate(b, to, from, team, piece);
      case Queen => r := QueenLocate.Locate(b, to, from, team, piece);
      case Pawn => r := PawnLocate.Locate(b, to, from, team, piece);
    }
  }

  /** `locator_from_char`: a piece letter of the side to move, or nothing for any other character. */
  method LocatorFromChar(b: Board, to: Sq, from: OptSquares.OptSq, c: char) returns (r: Option<Sq>)
    ensures r == match FromChar(c)
      case Some(p) => Located(b, to, from, b.turnOrder, p)
      case None => None
  {
    match FromChar(c) {
      case Some(p) => r := Locator(b, to, from, b.turnOrder, p);
      case None => r := None;
    }
  }

  /**
   * The origin found holds a piece of the kind asked for, of `team` (of the
   * side to move, for a pawn), and that piece's generator produces the
   * target; every piece but the pawn also passes `translate` without leaving
   * its king in check.
   */
  lemma LocatedSound(b: Board, to: Sq, from: OptSquares.OptSq, team: Team, piece: Piece)
    requires Located(b, to, from, team, piece).Some?
    ensures var s := Located(b, to, from, team, piece).value;
      && b.Get(s) == Some(Entity(piece, if piece == Pawn then b.turnOrder else team))
      && to in PieceMoves.Moves(b, piece, s, team)
      && (piece != Pawn ==> Rules.Movable(b, s, to) && !Rules.Checked(Rules.Translate(b, s, to).0, b.turnOrder))
  {
    var cands := Candidates(piece, to, from);
    if piece == Pawn {
      FirstSound(PawnLocate.PawnAt(b, to, team, piece), cands);
      var s := Located(b, to, from, team, piece).value;
      assert PawnLocate.PawnAt(b, to, team, piece)(s);
    } else {
      LocatedIsLegal(b, to, team, piece, cands);
    }
  }

  /** Nothing is found exactly when no candidate passes the test. */
  lemma NotLocated(b: Board, to: Sq, from: OptSquares.OptSq, team: Team, piece: Piece)
    ensures Located(b, to, from, team, piece).None? <==>
      forall i :: 0 <= i < |Candidates(piece, to, from)| && Candidates(piece, to, from)[i].Some? ==>
        !Test(b, to, team, piece)(Candidates(piece, to, from)[i].value)
  {
    FirstNone(Test(b, to, team, piece), Candidates(piece, to, from));
  }
}
