/** Finding the rook that can reach a square, honouring a disambiguator. */
module RookLocate {
  import opened Wrappers
  import opened Teams
  import opened Pieces
  import opened Squares
  import OptSquares
  import opened Boards
  import opened Locates
  import Rules

  /** Candidate x of the first scan: rank x of the target's file, unless disambiguated. */
  function FileAt(to: Sq, from: OptSquares.OptSq, x: nat): Sq
  {
    Squares.New(from.digit.GetOr(x), from.letter.GetOr(to.letter))
  }

  /** Candidate x of the second scan: file x of the target's rank, unless disambiguated. */
  function RankAt(to: Sq, from: OptSquares.OptSq, x: nat): Sq
  {
    Squares.New(from.digit.GetOr(to.digit), from.letter.GetOr(x))
  }

  function FileScan(to: Sq, from: OptSquares.OptSq): (c: seq<Option<Sq>>)
  {
    seq(8, x requires 0 <= x => Some(FileAt(to, from, x)))
  }

  function RankScan(to: Sq, from: OptSquares.OptSq): (c: seq<Option<Sq>>)
  {
    seq(8, x requires 0 <= x => Some(RankAt(to, from, x)))
  }

  function Candidates(to: Sq, from: OptSquares.OptSq): seq<Option<Sq>>
  {
    FileScan(to, from) + RankScan(to, from)
  }

  method Locate(b: Board, to: Sq, from: OptSquares.OptSq, team: Team, piece: Piece) returns (r: Option<Sq>)
    ensures r == First(LegalAt(b, to, team, piece), Candidates(to, from))
  {
    FirstAppend(LegalAt(b, to, team, piece), FileScan(to, from), RankScan(to, from));
    r := ScanFile(b, to, from, team, piece);
    if r.None? {
      r := ScanRank(b, to, from, team, piece);
    }
  }

  /** The first loop of `locate`. */
  method ScanFile(b: Board, to: Sq, from: OptSquares.OptSq, team: Team, piece: Piece) returns (r: Option<Sq>)
    ensures r == First(LegalAt(b, to, team, piece), FileScan(to, from))
  {
    ghost var accept := LegalAt(b, to, team, piece);
    ghost var cands := FileScan(to, from);
    for x := 0 to 8
      invariant First(accept, cands) == First(accept, cands[x..])
    {
      var target := Squares.New(from.digit.GetOr(x), from.letter.GetOr(to.letter));
      assert target == FileAt(to, from, x);
      FirstStep(accept, cands, x);
      var sq := Rules.LegalTarget(b, target, to, team, piece);
      if sq.Some? {
        return sq;
      }
    }
    assert cands[8..] == [];
    return None;
  }

  /** The second loop of `locate`. */
  method ScanRank(b: Board, to: Sq, from: OptSquares.OptSq, team: Team, piece: Piece) returns (r: Option<Sq>)
    ensures r == First(LegalAt(b, to, team, piece), RankScan(to, from))
  {
    ghost var accept := LegalAt(b, to, team, piece);
    ghost var cands := RankScan(to, from);
    for x := 0 to 8
      invariant First(accept, cands) == First(accept, cands[x..])
    {
      var target := Squares.New(from.digit.GetOr(to.digit), from.letter.GetOr(x));
      assert target == RankAt(to, from, x);
      FirstStep(accept, cands, x);
      var sq := Rules.LegalTarget(b, target, to, team, piece);
      if sq.Some? {
        return sq;
      }
    }
    assert cands[8..] == [];
    return None;
  }

  /**
   * `s` agrees with each disambiguating coordinate that names a square on the
   * board, and without a disambiguator shares the file or the rank of `to`.
   */
  predicate Honours(s: Sq, to: Sq, from: OptSquares.OptSq)
  {
    && (from.digit.Some? && from.digit.value < SIZE ==> s.digit == from.digit.value)
    && (from.letter.Some? && from.letter.value < SIZE ==> s.letter == from.letter.value)
    && (from == OptSquares.New() ==> s.letter == to.letter || s.digit == to.digit)
  }

  /**
   * Whatever the acceptance test, every disambiguating coordinate is honoured,
   * and without one the square found shares the target's file or rank.
   */
  lemma LocateMeaning(accept: Sq -> bool, to: Sq, from: OptSquares.OptSq)
    requires to.OnBoard()
    ensures First(accept, Candidates(to, from)).Some? ==> Honours(First(accept, Candidates(to, from)).value, to, from)
  {
    var cands := Candidates(to, from);
    forall i | 0 <= i < |cands| && cands[i].Some?
      ensures Honours(cands[i].value, to, from)
    {
      if i < 8 {
        assert cands[i] == FileScan(to, from)[i];
      } else {
        assert cands[i] == RankScan(to, from)[i - 8];
      }
    }
    FirstWithin(accept, cands, s => Honours(s, to, from));
  }

  /**
   * Without a disambiguator, an accepted square on the target's file or rank
   * is never missed; with `LegalAt` as the test, a legal rook there is found.
   */
  lemma LocateFinds(accept: Sq -> bool, to: Sq, s: Sq)
    requires to.OnBoard() && s.OnBoard()
    requires s.letter == to.letter || s.digit == to.digit
    requires accept(s)
    ensures First(accept, Candidates(to, OptSquares.New())).Some?
  {
    var cands := Candidates(to, OptSquares.New());
    if s.letter == to.letter {
      assert cands[s.digit] == FileScan(to, OptSquares.New())[s.digit] == Some(s);
      FirstFinds(accept, cands, s.digit);
    } else {
      assert cands[8 + s.letter] == RankScan(to, OptSquares.New())[s.letter] == Some(s);
      FirstFinds(accept, cands, 8 + s.letter);
    }
  }
}
