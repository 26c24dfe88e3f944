/** Finding the king that can reach a square; a disambiguator is ignored. */
module KingLocate {
  import opened Wrappers
  import opened Teams
  import opened Pieces
  import opened Squares
  import opened Boards
  import opened Locates
  import OptSquares
  import Kings

  /** The neighbours of the target, in the order of the offset tables. */
  function Candidates(to: Sq): seq<Option<Sq>>
  {
    Kings.Targets(to)
  }

  method Locate(b: Board, to: Sq, from: OptSquares.OptSq, team: Team, piece: Piece) returns (r: Option<Sq>)
    ensures r == First(LegalAt(b, to, team, piece), Candidates(to))
  {
    ghost var accept := LegalAt(b, to, team, piece);
    ghost var cands := Candidates(to);
    for idx := 0 to 8
      invariant First(accept, cands) == First(accept, cands[idx..])
    {
      FirstStep(accept, cands, idx);
      assert cands[idx] == Kings.Neighbour(to, idx);
      var checkRank := to.digit + Kings.RANKS[idx];
      var checkFile := to.letter + Kings.FILES[idx];
      assert cands[idx] == if ValidIdx(checkRank, checkFile) then Some(Sq(checkRank, checkFile)) else None;
      var sq := Probe(b, to, team, piece, checkRank, checkFile);
      if sq.Some? {
        return sq;
      }
    }
    assert cands[8..] == [];
    return None;
  }

  /**
   * Whatever the acceptance test, the square found is a neighbour of the
   * target, and an accepted neighbour is never missed.
   */
  lemma LocateMeaning(accept: Sq -> bool, to: Sq)
    ensures First(accept, Candidates(to)).Some? ==> Kings.Adjacent(to, First(accept, Candidates(to)).value)
    ensures (exists s :: Kings.Adjacent(to, s) && accept(s)) ==> First(accept, Candidates(to)).Some?
  {
    forall s | Some(s) in Candidates(to)
      ensures Kings.Adjacent(to, s)
    {
      Kings.TargetsExact(to, s);
    }
    FirstSound(accept, Candidates(to));
    if exists s :: Kings.Adjacent(to, s) && accept(s) {
      var s :| Kings.Adjacent(to, s) && accept(s);
      Kings.TargetsExact(to, s);
      var idx :| 0 <= idx < 8 && Candidates(to)[idx] == Some(s);
      FirstFinds(accept, Candidates(to), idx);
    }
  }
}
