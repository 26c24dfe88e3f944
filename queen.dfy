/** Queen moves: the bishop's destinations followed by the rook's. */
module Queens {
  import opened Wrappers
  import opened Teams
  import opened Pieces
  import opened Squares
  import opened Boards
  import Bishops
  import Rooks

  function Moves(b: Board, from: Sq, team: Team, filter: Option<Piece>): (r: seq<Sq>)
    ensures b.Find(from, Some(team), filter).None? ==> r == []
  {
    Bishops.Moves(b, from, team, filter) + Rooks.Moves(b, from, team, filter)
  }

  method GetTranslations(b: Board, from: Sq, team: Team, filter: Option<Piece>) returns (vec: seq<Sq>)
    ensures vec == Moves(b, from, team, filter)
  {
    vec := Bishops.GetTranslations(b, from, team, filter);
    var straight := Rooks.GetTranslations(b, from, team, filter);
    vec := vec + straight;
  }

  /**
   * Every queen destination shares a rank, file or diagonal with the origin,
   * and no square is both a bishop-part and a rook-part destination.
   */
  lemma MovesLines(b: Board, from: Sq, team: Team, filter: Option<Piece>)
    ensures forall t :: t in Moves(b, from, team, filter) ==>
      Rooks.OnLine(from, t) || Bishops.OnDiagonal(from, t)
    ensures forall t :: t in Bishops.Moves(b, from, team, filter) ==> t !in Rooks.Moves(b, from, team, filter)
  {
    Bishops.MovesOnDiagonal(b, from, team, filter);
  }
}
