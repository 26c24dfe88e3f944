/** King moves: the eight neighbouring squares. */
module Kings {
  import opened Wrappers
  import opened Teams
  import opened Pieces
  import opened Squares
  import opened Boards
  import opened Rays

  /** The offset tables: neighbour i is (RANKS[i], FILES[i]). */
  const RANKS: seq<int> := [-1, -1, 0, 1, 1, 1, 0, -1]
  const FILES: seq<int> := [0, 1, 1, 1, 0, -1, -1, -1]

  /** `sq` shifted by neighbour offset i, when that is a valid index pair. */
  function Neighbour(sq: Sq, i: nat): (r: Option<Sq>)
    requires i < 8
    ensures r.Some? <==> ValidIdx(sq.digit + RANKS[i], sq.letter + FILES[i])
    ensures r.Some? ==> r.value == Sq(sq.digit + RANKS[i], sq.letter + FILES[i])
  {
    var rank := sq.digit + RANKS[i];
    var file := sq.letter + FILES[i];
    if !ValidIdx(rank, file) then None else Some(Squares.New(rank as nat, file as nat))
  }

  function Targets(from: Sq): (c: seq<Option<Sq>>)
    ensures |c| == 8
  {
    seq(8, i requires 0 <= i < 8 => Neighbour(from, i))
  }

  /**
   * The king's destinations: nothing unless a piece of `team` (and of kind
   * `filter`) stands on `from`; otherwise the neighbours not held by `team`.
   */
  function Moves(b: Board, from: Sq, team: Team, filter: Option<Piece>): (r: seq<Sq>)
    ensures b.Find(from, Some(team), filter).None? ==> r == []
    ensures |r| <= 8
  {
    if b.Find(from, Some(team), filter).None? then [] else Leaps(b, team, Targets(from))
  }

  method GetTranslations(b: Board, from: Sq, team: Team, filter: Option<Piece>) returns (vec: seq<Sq>)
    ensures vec == Moves(b, from, team, filter)
  {
    vec := [];
    if b.Find(from, Some(team), filter).None? {
      return;
    }
    ghost var cands := Targets(from);
    for idx := 0 to 8
      invariant vec == Leaps(b, team, cands[..idx])
    {
      LeapsStep(b, team, cands, idx);
      assert cands[idx] == Neighbour(from, idx);
      var checkRank := from.digit + RANKS[idx];
      var checkFile := from.letter + FILES[idx];
      if !ValidIdx(checkRank, checkFile) {
        continue;
      }
      var target := Squares.New(checkRank as nat, checkFile as nat);
      match b.Find(target, None, None) {
        case None =>
          vec := vec + [target];
        case Some(entity) =>
          if entity.team != team {
            vec := vec + [target];
          }
      }
    }
    assert cands[..8] == cands;
  }

  /** The tables hold the eight distinct neighbours, a set closed under negation. */
  lemma OffsetTables()
    ensures |RANKS| == 8 && |FILES| == 8
    ensures forall i, j :: 0 <= i < j < 8 ==> (RANKS[i], FILES[i]) != (RANKS[j], FILES[j])
    ensures forall i :: 0 <= i < 8 ==>
      -1 <= RANKS[i] <= 1 && -1 <= FILES[i] <= 1 && (RANKS[i], FILES[i]) != (0, 0)
    ensures forall i :: 0 <= i < 8 ==> exists j :: 0 <= j < 8 && RANKS[j] == -RANKS[i] && FILES[j] == -FILES[i]
  {
    assert RANKS[4] == -RANKS[0] && FILES[4] == -FILES[0];
    assert RANKS[5] == -RANKS[1] && FILES[5] == -FILES[1];
    assert RANKS[6] == -RANKS[2] && FILES[6] == -FILES[2];
    assert RANKS[7] == -RANKS[3] && FILES[7] == -FILES[3];
  }

  /** `t` is an on-board neighbour of `from`. */
  predicate Adjacent(from: Sq, t: Sq)
  {
    t.OnBoard() && t != from && -1 <= t.digit - from.digit <= 1 && -1 <= t.letter - from.letter <= 1
  }

  /** The table entry holding a given neighbour offset. */
  function OffsetIndex(dr: int, df: int): (i: nat)
    requires -1 <= dr <= 1 && -1 <= df <= 1 && (dr, df) != (0, 0)
    ensures i < 8 && RANKS[i] == dr && FILES[i] == df
  {
    if dr == -1 then (if df == 0 then 0 else if df == 1 then 1 else 7)
    else if dr == 0 then (if df == 1 then 2 else 6)
    else (if df == 1 then 3 else if df == 0 then 4 else 5)
  }

  lemma TargetsExact(from: Sq, t: Sq)
    ensures Some(t) in Targets(from) <==> Adjacent(from, t)
  {
    if Some(t) in Targets(from) {
      var i :| 0 <= i < 8 && Targets(from)[i] == Some(t);
      assert Neighbour(from, i) == Some(t);
    }
    if Adjacent(from, t) {
      var i := OffsetIndex(t.digit - from.digit, t.letter - from.letter);
      assert Targets(from)[i] == Some(t);
    }
  }

  /** Each destination is an on-board neighbour of the origin not held by `team`, and every such neighbour is one. */
  lemma MovesExact(b: Board, from: Sq, team: Team, filter: Option<Piece>, t: Sq)
    ensures t in Moves(b, from, team, filter) <==>
      b.Find(from, Some(team), filter).Some? && Adjacent(from, t)
      && (b.Get(t).None? || b.Get(t).value.team != team)
  {
    LeapsMembers(b, team, Targets(from), t);
    TargetsExact(from, t);
  }
}
