/** Bishop moves: four diagonal rays walked in `PATTERN` order. */
module Bishops {
  import opened Wrappers
  import opened Teams
  import opened Pieces
  import opened Squares
  import opened Boards
  import opened Rays

  /** The four diagonal directions, as (rank step, file step). */
  const PATTERN: seq<(int, int)> := [(1, 1), (-1, 1), (-1, -1), (1, -1)]

  /** `t` lies on a diagonal through `from`, at distance at least one. */
  predicate OnDiagonal(from: Sq, t: Sq)
  {
    t.OnBoard() && Abs(t.digit - from.digit) == Abs(t.letter - from.letter) >= 1
  }

  /** The ray in direction (a, b): `from` shifted by c·(a, b) for c = 1 .. 7. */
  function Diag(from: Sq, dir: (int, int)): (p: seq<Option<Sq>>)
    ensures |p| == 7
  {
    seq(7, k requires 0 <= k < 7 => from.Mutate((k + 1) * dir.0, (k + 1) * dir.1))
  }

  /** The rays of the directions `dirs`, walked in order. */
  function Diagonals(b: Board, team: Team, from: Sq, dirs: seq<(int, int)>): (r: seq<Sq>)
    decreases |dirs|
  {
    if dirs == [] then []
    else Diagonals(b, team, from, dirs[..|dirs| - 1]) + Walk(b, team, Diag(from, dirs[|dirs| - 1]))
  }

  /**
   * The bishop's destinations from `from`: nothing unless a piece of `team`
   * (and of kind `filter`, when given) stands there; otherwise the four
   * diagonal rays.
   */
  function Moves(b: Board, from: Sq, team: Team, filter: Option<Piece>): (r: seq<Sq>)
    ensures b.Find(from, Some(team), filter).None? ==> r == []
  {
    if b.Find(from, Some(team), filter).None? then [] else Diagonals(b, team, from, PATTERN)
  }

  /** The source's nested loops over `PATTERN` and c = 1 .. 7, each breaking where the closure ends the ray. */
  method GetTranslations(b: Board, from: Sq, team: Team, filter: Option<Piece>) returns (vec: seq<Sq>)
    ensures vec == Moves(b, from, team, filter)
  {
    vec := [];
    if b.Find(from, Some(team), filter).None? {
      return;
    }
    for p := 0 to |PATTERN|
      invariant vec == Diagonals(b, team, from, PATTERN[..p])
    {
      assert PATTERN[..p + 1][..p] == PATTERN[..p];
      vec := Cast(b, team, Diag(from, PATTERN[p]), vec);
    }
    assert PATTERN[..|PATTERN|] == PATTERN;
  }

  /** Every square of a pattern ray that exists lies on a diagonal through the origin. */
  lemma DiagOnDiagonal(from: Sq, dir: (int, int), k: nat)
    requires dir in PATTERN && k < 7
    requires Diag(from, dir)[k].Some?
    ensures OnDiagonal(from, Diag(from, dir)[k].value)
  {
    var t := Diag(from, dir)[k].value;
    assert from.Mutate((k + 1) * dir.0, (k + 1) * dir.1) == Some(t);
    if dir.0 == 1 {
      assert t.digit == from.digit + k + 1;
    } else {
      assert t.digit == from.digit - (k + 1);
    }
    if dir.1 == 1 {
      assert t.letter == from.letter + k + 1;
    } else {
      assert t.letter == from.letter - (k + 1);
    }
  }

  lemma {:induction false} DiagonalsOnDiagonal(b: Board, team: Team, from: Sq, dirs: seq<(int, int)>)
    requires forall d :: d in dirs ==> d in PATTERN
    ensures forall t :: t in Diagonals(b, team, from, dirs) ==> OnDiagonal(from, t)
    decreases |dirs|
  {
    if dirs != [] {
      var dir := dirs[|dirs| - 1];
      DiagonalsOnDiagonal(b, team, from, dirs[..|dirs| - 1]);
      var w := Walk(b, team, Diag(from, dir));
      forall t | t in w
        ensures OnDiagonal(from, t)
      {
        var i :| 0 <= i < |w| && w[i] == t;
        DiagOnDiagonal(from, dir, i);
      }
    }
  }

  /** Every bishop destination satisfies |Δrank| = |Δfile| ≥ 1. */
  lemma MovesOnDiagonal(b: Board, from: Sq, team: Team, filter: Option<Piece>)
    ensures forall t :: t in Moves(b, from, team, filter) ==> OnDiagonal(from, t)
  {
    DiagonalsOnDiagonal(b, team, from, PATTERN);
  }
}
