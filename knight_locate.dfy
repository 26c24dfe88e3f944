/** Finding the knight that can reach a square, trying the leaps in table order. */
module KnightLocate {
  import opened Wrappers
  import opened Teams
  import opened Pieces
  import opened Squares
  import opened Boards
  import opened Locates
  import OptSquares
  import Knights

  /**
   * Candidate idx: the target shifted by leap idx, each coordinate replaced
   * by the disambiguator's when given; missing when off the board.
   */
  function LeapAt(to: Sq, from: OptSquares.OptSq, idx: nat): Option<Sq>
    requires idx < 8
  {
    var rank: int := if from.digit.Some? then from.digit.value else to.digit + Knights.RANKS[idx];
    var file: int := if from.letter.Some? then from.letter.value else to.letter + Knights.FILES[idx];
    if ValidIdx(rank, file) then Some(Squares.New(rank as nat, file as nat)) else None
  }

  function Candidates(to: Sq, from: OptSquares.OptSq): (c: seq<Option<Sq>>)
    ensures |c| == 8
  {
    seq(8, idx requires 0 <= idx < 8 => LeapAt(to, from, idx))
  }

  method Locate(b: Board, to: Sq, from: OptSquares.OptSq, team: Team, piece: Piece) returns (r: Option<Sq>)
    ensures r == First(LegalAt(b, to, team, piece), Candidates(to, from))
  {
    ghost var accept := LegalAt(b, to, team, piece);
    ghost var cands := Candidates(to, from);
    for idx := 0 to 8
      invariant First(accept, cands) == First(accept, cands[idx..])
    {
      FirstStep(accept, cands, idx);
      var checkRank: int := match from.digit
        case Some(x) => x
        case None => to.digit + Knights.RANKS[idx];
      var checkFile: int := match from.letter
        case Some(x) => x
        case None => to.letter + Knights.FILES[idx];
      LeapCoordinates(to, from, idx, checkRank, checkFile);
      var sq := Probe(b, to, team, piece, checkRank, checkFile);
      if sq.Some? {
        return sq;
      }
    }
    assert cands[8..] == [];
    return None;
  }

  /** The coordinates the loop computes name candidate `idx`. */
  lemma LeapCoordinates(to: Sq, from: OptSquares.OptSq, idx: nat, rank: int, file: int)
    requires idx < 8
    requires rank == if from.digit.Some? then from.digit.value else to.digit + Knights.RANKS[idx]
    requires file == if from.letter.Some? then from.letter.value else to.letter + Knights.FILES[idx]
    ensures Candidates(to, from)[idx] == if ValidIdx(rank, file) then Some(Sq(rank, file)) else None
  {
    assert Candidates(to, from)[idx] == LeapAt(to, from, idx);
  }

  /** Without a disambiguator the candidates are exactly the knight's leaps from the target. */
  lemma PlainCandidates(to: Sq)
    ensures Candidates(to, OptSquares.New()) == Knights.Targets(to)
  {
    var c := Candidates(to, OptSquares.New());
    forall idx | 0 <= idx < 8
      ensures c[idx] == Knights.Targets(to)[idx]
    {
      assert c[idx] == LeapAt(to, OptSquares.New(), idx);
    }
  }

  /** `s` agrees with each disambiguating coordinate, and without one is a leap away from `to`. */
  predicate Honours(s: Sq, to: Sq, from: OptSquares.OptSq)
  {
    && (from.digit.Some? ==> s.digit == from.digit.value)
    && (from.letter.Some? ==> s.letter == from.letter.value)
    && (from == OptSquares.New() ==> Some(s) in Knights.Targets(to))
  }

  /** Whatever the acceptance test, the square found honours the disambiguator. */
  lemma LocateMeaning(accept: Sq -> bool, to: Sq, from: OptSquares.OptSq)
    ensures First(accept, Candidates(to, from)).Some? ==> Honours(First(accept, Candidates(to, from)).value, to, from)
  {
    var c := Candidates(to, from);
    forall idx | 0 <= idx < 8 && c[idx].Some?
      ensures Honours(c[idx].value, to, from)
    {
      assert c[idx] == LeapAt(to, from, idx);
      if from == OptSquares.New() {
        PlainCandidates(to);
        assert Knights.Targets(to)[idx] == c[idx];
      }
    }
    FirstWithin(accept, c, s => Honours(s, to, from));
  }

  /** Without a disambiguator, an accepted square a leap away from the target is never missed. */
  lemma LocateFinds(accept: Sq -> bool, to: Sq, s: Sq)
    requires Some(s) in Knights.Targets(to) && accept(s)
    ensures First(accept, Candidates(to, OptSquares.New())).Some?
  {
    PlainCandidates(to);
    var idx :| 0 <= idx < 8 && Knights.Targets(to)[idx] == Some(s);
    FirstFinds(accept, Knights.Targets(to), idx);
  }
}
