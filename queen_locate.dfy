/** Finding the queen that can reach a square: diagonals first, then lines. */
module QueenLocate {
  import opened Wrappers
  import opened Teams
  import opened Pieces
  import opened Squares
  import opened Boards
  import opened Locates
  import OptSquares
  import Bishops
  import BishopLocate
  import RookLocate

  /** The bishop's candidates, then the rook's. */
  function Candidates(to: Sq, from: OptSquares.OptSq): seq<Option<Sq>>
  {
    BishopLocate.Candidates(to, from) + RookLocate.Candidates(to, from)
  }

  method Locate(b: Board, to: Sq, from: OptSquares.OptSq, team: Team, piece: Piece) returns (r: Option<Sq>)
    ensures r == First(LegalAt(b, to, team, piece), Candidates(to, from))
  {
    FirstAppend(LegalAt(b, to, team, piece), BishopLocate.Candidates(to, from), RookLocate.Candidates(to, from));
    r := BishopLocate.Locate(b, to, from, team, piece);
    if r.Some? {
      return;
    }
    r := RookLocate.Locate(b, to, from, team, piece);
  }

  /**
   * Whatever the acceptance test, the square found satisfies the bishop's or
   * the rook's reading of the disambiguator; without one, it lies on a
   * diagonal, a file or a rank of the target.
   */
  lemma LocateMeaning(accept: Sq -> bool, to: Sq, from: OptSquares.OptSq)
    requires to.OnBoard()
    ensures var r := First(accept, Candidates(to, from));
      r.Some? ==> BishopLocate.Honours(r.value, to, from) || RookLocate.Honours(r.value, to, from)
  {
    FirstAppend(accept, BishopLocate.Candidates(to, from), RookLocate.Candidates(to, from));
    BishopLocate.LocateMeaning(accept, to, from);
    RookLocate.LocateMeaning(accept, to, from);
  }

  /** Without a disambiguator, an accepted square on a line or a diagonal of the target is never missed. */
  lemma LocateFinds(accept: Sq -> bool, to: Sq, s: Sq)
    requires to.OnBoard() && s.OnBoard() && accept(s)
    requires Bishops.OnDiagonal(to, s) || s.letter == to.letter || s.digit == to.digit
    ensures First(accept, Candidates(to, OptSquares.New())).Some?
  {
    var none := OptSquares.New();
    FirstAppend(accept, BishopLocate.Candidates(to, none), RookLocate.Candidates(to, none));
    if Bishops.OnDiagonal(to, s) {
      BishopLocate.LocateFinds(accept, to, s);
    } else {
      RookLocate.LocateFinds(accept, to, s);
    }
  }
}
