/** Knight moves: the eight leaps of the offset tables. */
module Knights {
  import opened Wrappers
  import opened Teams
  import opened Pieces
  import opened Squares
  import opened Boards
  import opened Rays

  /** The offset tables: leap i is (RANKS[i], FILES[i]). */
  const RANKS: seq<int> := [2, 2, 1, -1, -2, -2, 1, -1]
  const FILES: seq<int> := [-1, 1, 2, 2, -1, 1, -2, -2]

  /** The candidate squares, in table order; missing where the leap leaves the board. */
  function Targets(from: Sq): (c: seq<Option<Sq>>)
    ensures |c| == 8
  {
    seq(8, i requires 0 <= i < 8 => from.Mutate(RANKS[i], FILES[i]))
  }

  /**
   * The knight's destinations: nothing unless a piece of `team` (and of kind
   * `filter`) stands on `from`; otherwise the candidates not held by `team`.
   */
  function Moves(b: Board, from: Sq, team: Team, filter: Option<Piece>): (r: seq<Sq>)
    ensures b.Find(from, Some(team), filter).None? ==> r == []
    ensures |r| <= 8
  {
    if b.Find(from, Some(team), filter).None? then [] else Leaps(b, team, Targets(from))
  }

  method GetTranslations(b: Board, from: Sq, team: Team, filter: Option<Piece>) returns (vec: seq<Sq>)
    ensures vec == Moves(b, from, team, filter)
  {
    vec := [];
    if b.Find(from, Some(team), filter).None? {
      return;
    }
    ghost var cands := Targets(from);
    for idx := 0 to 8
      invariant vec == Leaps(b, team, cands[..idx])
    {
      LeapsStep(b, team, cands, idx);
      assert cands[idx] == from.Mutate(RANKS[idx], FILES[idx]);
      var target;
      match from.Mutate(RANKS[idx], FILES[idx]) {
        case None =>
          continue;
        case Some(sq) =>
          target := sq;
      }
      match b.Find(target, None, None) {
        case None =>
          vec := vec + [target];
        case Some(entity) =>
          if entity.team != team {
            vec := vec + [target];
          }
      }
    }
    assert cands[..8] == cands;
  }

  /**
   * The tables hold eight distinct leaps, each moving one square one way and
   * two the other, and the set of leaps is closed under negation.
   */
  lemma OffsetTables()
    ensures |RANKS| == 8 && |FILES| == 8
    ensures forall i, j :: 0 <= i < j < 8 ==> (RANKS[i], FILES[i]) != (RANKS[j], FILES[j])
    ensures forall i :: 0 <= i < 8 ==>
      (Abs(RANKS[i]) == 1 && Abs(FILES[i]) == 2) || (Abs(RANKS[i]) == 2 && Abs(FILES[i]) == 1)
    ensures forall i :: 0 <= i < 8 ==> exists j :: 0 <= j < 8 && RANKS[j] == -RANKS[i] && FILES[j] == -FILES[i]
  {
    assert RANKS[5] == -RANKS[0] && FILES[5] == -FILES[0];
    assert RANKS[4] == -RANKS[1] && FILES[4] == -FILES[1];
    assert RANKS[7] == -RANKS[2] && FILES[7] == -FILES[2];
    assert RANKS[6] == -RANKS[3] && FILES[6] == -FILES[3];
  }

  /**
   * A square is a destination exactly when the origin holds the piece, the
   * square is the origin shifted by one of the leaps, and no piece of `team`
   * stands on it.
   */
  lemma MovesExact(b: Board, from: Sq, team: Team, filter: Option<Piece>, t: Sq)
    ensures t in Moves(b, from, team, filter) <==>
      b.Find(from, Some(team), filter).Some?
      && (exists i :: 0 <= i < 8 && from.Mutate(RANKS[i], FILES[i]) == Some(t))
      && (b.Get(t).None? || b.Get(t).value.team != team)
  {
    LeapsMembers(b, team, Targets(from), t);
    if Some(t) in Targets(from) {
      var i :| 0 <= i < 8 && Targets(from)[i] == Some(t);
      assert from.Mutate(RANKS[i], FILES[i]) == Some(t);
    }
    if exists i :: 0 <= i < 8 && from.Mutate(RANKS[i], FILES[i]) == Some(t) {
      var i :| 0 <= i < 8 && from.Mutate(RANKS[i], FILES[i]) == Some(t);
      assert Targets(from)[i] == Some(t);
    }
  }
}
