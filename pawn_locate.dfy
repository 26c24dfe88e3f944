/**
 * Finding the pawn that can reach a square: every rank of the target's file
 * (or the disambiguated file), bottom to top. Unlike the other pieces the test
 * is the pawn's own generator, not `legal_target`: the side to move must own
 * the pawn, and whether the move would leave the king in check is not asked.
 */
module PawnLocate {
  import opened Wrappers
  import opened Teams
  import opened Pieces
  import opened Squares
  import opened Boards
  import opened Locates
  import OptSquares
  import Pawns

  /** The test of the pawn's `locate`. */
  function PawnAt(b: Board, to: Sq, team: Team, piece: Piece): (f: Sq -> bool)
  {
    s => b.Find(s, Some(b.turnOrder), Some(piece)).Some? && to in Pawns.Moves(b, s, team, Some(piece))
  }

  /** Candidate x: rank x of the target's file, or of the disambiguated file. */
  function FileAt(to: Sq, from: OptSquares.OptSq, x: nat): Sq
  {
    Squares.New(x, from.letter.GetOr(to.letter))
  }

  function Candidates(to: Sq, from: OptSquares.OptSq): (c: seq<Option<Sq>>)
    ensures |c| == 8
  {
    seq(8, x requires 0 <= x => Some(FileAt(to, from, x)))
  }

  method Locate(b: Board, to: Sq, from: OptSquares.OptSq, team: Team, piece: Piece) returns (r: Option<Sq>)
    ensures r == First(PawnAt(b, to, team, piece), Candidates(to, from))
  {
    ghost var accept := PawnAt(b, to, team, piece);
    ghost var cands := Candidates(to, from);
    for x := 0 to 8
      invariant First(accept, cands) == First(accept, cands[x..])
    {
      FirstStep(accept, cands, x);
      var origin := Squares.New(x, from.letter.GetOr(to.letter));
      assert cands[x] == Some(origin);
      if b.Find(origin, Some(b.turnOrder), Some(piece)).Some? {
        var translations := Pawns.GetTranslations(b, origin, team, Some(piece));
        if to in translations {
          return Some(origin);
        }
      }
    }
    assert cands[8..] == [];
    return None;
  }

  /**
   * Whatever the board, the pawn found is of the side to move and of kind
   * `piece`, moves to `to`, and stands on the disambiguated file or, without
   * one, on the target's file.
   */
  lemma LocateMeaning(b: Board, to: Sq, from: OptSquares.OptSq, team: Team, piece: Piece)
    requires to.OnBoard()
    ensures var r := First(PawnAt(b, to, team, piece), Candidates(to, from));
      r.Some? ==>
        && b.Get(r.value) == Some(Entity(piece, b.turnOrder))
        && to in Pawns.Moves(b, r.value, team, Some(piece))
        && r.value.letter == (if from.letter.Some? && from.letter.value < SIZE then from.letter.value else if from.letter.Some? then 7 else to.letter)
  {
    var accept := PawnAt(b, to, team, piece);
    var c := Candidates(to, from);
    FirstSound(accept, c);
    var r := First(accept, c);
    if r.Some? {
      assert accept(r.value);
      var x :| 0 <= x < 8 && c[x] == r;
      assert r.value == FileAt(to, from, x);
    }
  }

  /** A pawn of the side to move on the target's file that reaches the target is never missed. */
  lemma LocateFinds(b: Board, to: Sq, team: Team, piece: Piece, s: Sq)
    requires to.OnBoard() && s.OnBoard() && s.letter == to.letter
    requires PawnAt(b, to, team, piece)(s)
    ensures First(PawnAt(b, to, team, piece), Candidates(to, OptSquares.New())).Some?
  {
    var c := Candidates(to, OptSquares.New());
    assert c[s.digit] == Some(FileAt(to, OptSquares.New(), s.digit)) == Some(s);
    FirstFinds(PawnAt(b, to, team, piece), c, s.digit);
  }
}
