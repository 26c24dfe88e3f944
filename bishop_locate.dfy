/** Finding the bishop that can reach a square, walking the diagonals outward. */
module BishopLocate {
  import opened Wrappers
  import opened Teams
  import opened Pieces
  import opened Squares
  import opened Boards
  import opened Locates
  import OptSquares
  import Bishops
  import Rays
  import Rules

  /** Step k of a diagonal from the target, with the disambiguator laid over it. */
  function RayAt(to: Sq, from: OptSquares.OptSq, dir: (int, int), k: nat): Option<Sq>
    requires k < 7
  {
    match Bishops.Diag(to, dir)[k]
    case None => None
    case Some(t) => Some(t.Union(from))
  }

  /** The candidates along direction `dir`, nearest first. */
  function Ray(to: Sq, from: OptSquares.OptSq, dir: (int, int)): (c: seq<Option<Sq>>)
    ensures |c| == 7
  {
    seq(7, k requires 0 <= k < 7 => RayAt(to, from, dir, k))
  }

  /** The candidates of directions i .. 3 of `Bishops.PATTERN`, in that order. */
  function Directions(to: Sq, from: OptSquares.OptSq, i: nat): seq<Option<Sq>>
    requires i <= 4
    decreases 4 - i
  {
    if i == 4 then [] else Ray(to, from, Bishops.PATTERN[i]) + Directions(to, from, i + 1)
  }

  function Candidates(to: Sq, from: OptSquares.OptSq): seq<Option<Sq>>
  {
    Directions(to, from, 0)
  }

  method Locate(b: Board, to: Sq, from: OptSquares.OptSq, team: Team, piece: Piece) returns (r: Option<Sq>)
    ensures r == First(LegalAt(b, to, team, piece), Candidates(to, from))
  {
    ghost var accept := LegalAt(b, to, team, piece);
    for i := 0 to 4
      invariant First(accept, Candidates(to, from)) == First(accept, Directions(to, from, i))
    {
      FirstAppend(accept, Ray(to, from, Bishops.PATTERN[i]), Directions(to, from, i + 1));
      r := ScanRay(b, to, from, team, piece, Bishops.PATTERN[i]);
      if r.Some? {
        return;
      }
    }
    return None;
  }

  /** The inner loop of `locate`: steps c = 1 .. 7 in direction `dir`. */
  method ScanRay(b: Board, to: Sq, from: OptSquares.OptSq, team: Team, piece: Piece, dir: (int, int))
    returns (r: Option<Sq>)
    ensures r == First(LegalAt(b, to, team, piece), Ray(to, from, dir))
  {
    ghost var accept := LegalAt(b, to, team, piece);
    ghost var cands := Ray(to, from, dir);
    var (a, d) := dir;
    for c := 1 to 8
      invariant First(accept, cands) == First(accept, cands[c - 1..])
    {
      FirstStep(accept, cands, c - 1);
      assert cands[c - 1] == RayAt(to, from, dir, c - 1);
      assert c * a == (c - 1 + 1) * dir.0 && c * d == (c - 1 + 1) * dir.1;
      var status := Probe(b, to, from, team, piece, c * a, c * d);
      if status.Some? {
        return status;
      }
    }
    assert cands[7..] == [];
    return None;
  }

  /**
   * The closure of `locate`: the target shifted by (rank, file), with the
   * disambiguator laid over it, when that is a legal origin.
   */
  method Probe(b: Board, to: Sq, from: OptSquares.OptSq, team: Team, piece: Piece, rank: int, file: int)
    returns (status: Option<Sq>)
    ensures status == match to.Mutate(rank, file)
      case None => None
      case Some(t) => if LegalAt(b, to, team, piece)(t.Union(from)) then Some(t.Union(from)) else None
  {
    var step := to.Mutate(rank, file);
    if step.Some? {
      var target := step.value.Union(from);
      status := Rules.LegalTarget(b, target, to, team, piece);
      return;
    }
    return None;
  }

  /** `s` agrees with each disambiguating coordinate, and without one lies on a diagonal of `to`. */
  predicate Honours(s: Sq, to: Sq, from: OptSquares.OptSq)
  {
    && (from.digit.Some? ==> s.digit == from.digit.value)
    && (from.letter.Some? ==> s.letter == from.letter.value)
    && (from == OptSquares.New() ==> Bishops.OnDiagonal(to, s))
  }

  lemma {:induction false} DirectionsHonour(to: Sq, from: OptSquares.OptSq, i: nat)
    requires i <= 4
    ensures forall j :: 0 <= j < |Directions(to, from, i)| && Directions(to, from, i)[j].Some? ==>
      Honours(Directions(to, from, i)[j].value, to, from)
    decreases 4 - i
  {
    if i < 4 {
      DirectionsHonour(to, from, i + 1);
      var dir := Bishops.PATTERN[i];
      var ray := Ray(to, from, dir);
      var rest := Directions(to, from, i + 1);
      var all: seq<Option<Sq>> := ray + rest;
      forall j | 0 <= j < |all| && all[j].Some?
        ensures Honours(all[j].value, to, from)
      {
        if j < 7 {
          assert all[j] == ray[j] == RayAt(to, from, dir, j);
          Bishops.DiagOnDiagonal(to, dir, j);
        } else {
          assert all[j] == rest[j - 7];
        }
      }
    }
  }

  /**
   * Whatever the acceptance test, the square found honours the disambiguator
   * and, without one, lies on a diagonal of the target.
   */
  lemma LocateMeaning(accept: Sq -> bool, to: Sq, from: OptSquares.OptSq)
    ensures First(accept, Candidates(to, from)).Some? ==> Honours(First(accept, Candidates(to, from)).value, to, from)
  {
    DirectionsHonour(to, from, 0);
    FirstWithin(accept, Candidates(to, from), s => Honours(s, to, from));
  }

  /** Direction index and distance of a square on a diagonal of `to`. */
  lemma DiagonalIndex(to: Sq, s: Sq) returns (i: nat, k: nat)
    requires to.OnBoard() && Bishops.OnDiagonal(to, s)
    ensures i < 4 && k < 7 && Bishops.Diag(to, Bishops.PATTERN[i])[k] == Some(s)
  {
    var dd := s.digit - to.digit;
    var dl := s.letter - to.letter;
    i := if dd > 0 && dl > 0 then 0 else if dd < 0 && dl > 0 then 1 else if dd < 0 then 2 else 3;
    k := Rays.Abs(dd) - 1;
    var dir := Bishops.PATTERN[i];
    assert (k + 1) * dir.0 == dd && (k + 1) * dir.1 == dl;
    assert to.Mutate((k + 1) * dir.0, (k + 1) * dir.1) == Some(s);
  }

  /** Searching from direction i on finds an accepted square of direction i. */
  lemma {:induction false} DirectionsFind(accept: Sq -> bool, to: Sq, from: OptSquares.OptSq, i: nat, j: nat, k: nat)
    requires i <= j < 4 && k < 7
    requires RayAt(to, from, Bishops.PATTERN[j], k).Some? && accept(RayAt(to, from, Bishops.PATTERN[j], k).value)
    ensures First(accept, Directions(to, from, i)).Some?
    decreases 4 - i
  {
    var ray := Ray(to, from, Bishops.PATTERN[i]);
    FirstAppend(accept, ray, Directions(to, from, i + 1));
    if i == j {
      assert ray[k] == RayAt(to, from, Bishops.PATTERN[j], k);
      FirstFinds(accept, ray, k);
    } else {
      DirectionsFind(accept, to, from, i + 1, j, k);
    }
  }

  /** Without a disambiguator, an accepted square on a diagonal of the target is never missed. */
  lemma LocateFinds(accept: Sq -> bool, to: Sq, s: Sq)
    requires to.OnBoard() && Bishops.OnDiagonal(to, s)
    requires accept(s)
    ensures First(accept, Candidates(to, OptSquares.New())).Some?
  {
    var i, k := DiagonalIndex(to, s);
    assert s.Union(OptSquares.New()) == s;
    DirectionsFind(accept, to, OptSquares.New(), 0, i, k);
  }
}
