/**
 * What the generators share: a sliding ray (rook, bishop, queen) and a set of
 * single leaps (knight, king).
 */
module Rays {
  import opened Wrappers
  import opened Teams
  import opened Squares
  import opened Boards

  function Abs(x: int): nat
  {
    if x < 0 then -x else x
  }

  /**
   * The squares a sliding piece of `team` reaches along one ray of candidate
   * squares: each empty square is taken and the ray goes on; the first
   * occupied square is taken only if it holds an enemy, and ends the ray; a
   * missing candidate (off the board) ends it too.
   */
  function Walk(b: Board, team: Team, path: seq<Option<Sq>>): (r: seq<Sq>)
    decreases |path|
    ensures |r| <= |path|
    ensures forall i :: 0 <= i < |r| ==> path[i] == Some(r[i])
  {
    if path == [] || path[0].None? then []
    else
      match b.Find(path[0].value, None, None)
      case None => [path[0].value] + Walk(b, team, path[1..])
      case Some(e) => if e.team != team then [path[0].value] else []
  }

  /**
   * The ray's closure: looks at one candidate, takes it when it is empty or an
   * enemy, and says whether the ray goes on.
   */
  method Probe(b: Board, team: Team, target: Option<Sq>, vec: seq<Sq>) returns (out: seq<Sq>, go: bool)
    ensures go <==> target.Some? && b.Find(target.value, None, None).None?
    ensures go ==> out == vec + [target.value]
    ensures !go ==> out == vec + Walk(b, team, [target])
  {
    out := vec;
    if target.None? {
      return out, false;
    }
    var sq := target.value;
    match b.Find(sq, None, None) {
      case None =>
        out := out + [sq];
        go := true;
      case Some(entity) =>
        if entity.team != team {
          out := out + [sq];
        }
        go := false;
    }
  }

  /**
   * One ray loop of a sliding piece: feeds the candidates to the closure in
   * order and stops at the first one where it says the ray ends.
   */
  method Cast(b: Board, team: Team, path: seq<Option<Sq>>, vec: seq<Sq>) returns (out: seq<Sq>)
    ensures out == vec + Walk(b, team, path)
  {
    out := vec;
    var go: bool;
    for k := 0 to |path|
      invariant out + Walk(b, team, path[k..]) == vec + Walk(b, team, path)
    {
      var next;
      next, go := Probe(b, team, path[k], out);
      if !go {
        WalkStop(b, team, path, k);
        assert next == out + Walk(b, team, path[k..]);
        out := next;
        break;
      }
      WalkStep(b, team, path, k);
      Associate(out, [path[k].value], Walk(b, team, path[k + 1..]));
      out := next;
    }
  }

  lemma Associate<T>(x: seq<T>, y: seq<T>, z: seq<T>)
    ensures (x + y) + z == x + (y + z)
  {
  }

  /** A step along the ray while it goes on. */
  lemma WalkStep(b: Board, team: Team, path: seq<Option<Sq>>, k: nat)
    requires k < |path| && path[k].Some? && b.Find(path[k].value, None, None).None?
    ensures Walk(b, team, path[k..]) == [path[k].value] + Walk(b, team, path[k + 1..])
  {
    assert path[k..][1..] == path[k + 1..];
  }

  /** Where the ray stops, it yields what the closure took at the stopping candidate. */
  lemma WalkStop(b: Board, team: Team, path: seq<Option<Sq>>, k: nat)
    requires k < |path| && !(path[k].Some? && b.Find(path[k].value, None, None).None?)
    ensures Walk(b, team, path[k..]) == Walk(b, team, [path[k]])
  {
  }

  /**
   * Ray semantics: all but the last square taken are empty, the last is empty
   * or an enemy, and where the ray stops early the next candidate is missing
   * or occupied, or the last square taken was a capture.
   */
  lemma {:induction false} WalkSemantics(b: Board, team: Team, path: seq<Option<Sq>>)
    ensures var r := Walk(b, team, path);
      (forall i :: 0 <= i < |r| - 1 ==> b.Find(r[i], None, None).None?)
      && (|r| > 0 ==> b.Find(r[|r| - 1], None, None).None? || b.Find(r[|r| - 1], None, None).value.team != team)
      && (|r| < |path| ==>
            path[|r|].None? || b.Find(path[|r|].value, None, None).Some?
            || (|r| > 0 && b.Find(r[|r| - 1], None, None).Some?))
    decreases |path|
  {
    if path != [] && path[0].Some? && b.Find(path[0].value, None, None).None? {
      WalkSemantics(b, team, path[1..]);
      var r := Walk(b, team, path[1..]);
      assert Walk(b, team, path) == [path[0].value] + r;
    }
  }

  /** On a ray of empty on-board squares every square is taken. */
  lemma {:induction false} WalkClear(b: Board, team: Team, path: seq<Option<Sq>>)
    requires forall i :: 0 <= i < |path| ==> path[i].Some? && b.Find(path[i].value, None, None).None?
    ensures |Walk(b, team, path)| == |path|
    decreases |path|
  {
    if path != [] {
      WalkClear(b, team, path[1..]);
    }
  }

  /**
   * The leaping pieces' loop: each candidate on the board is taken unless a
   * piece of `team` stands on it.
   */
  function Leaps(b: Board, team: Team, cands: seq<Option<Sq>>): (r: seq<Sq>)
    decreases |cands|
    ensures |r| <= |cands|
  {
    if cands == [] then []
    else
      Leaps(b, team, cands[..|cands| - 1]) +
      match cands[|cands| - 1]
      case None => []
      case Some(t) =>
        match b.Find(t, None, None)
        case None => [t]
        case Some(e) => if e.team != team then [t] else []
  }

  lemma LeapsStep(b: Board, team: Team, cands: seq<Option<Sq>>, k: nat)
    requires k < |cands|
    ensures Leaps(b, team, cands[..k + 1]) == Leaps(b, team, cands[..k]) + Leaps(b, team, [cands[k]])
  {
    assert cands[..k + 1][..k] == cands[..k];
  }

  /** A square is taken exactly when it is a candidate not held by the leaper's own side. */
  lemma {:induction false} LeapsMembers(b: Board, team: Team, cands: seq<Option<Sq>>, t: Sq)
    ensures t in Leaps(b, team, cands) <==>
      Some(t) in cands && (b.Find(t, None, None).None? || b.Find(t, None, None).value.team != team)
    decreases |cands|
  {
    if cands != [] {
      LeapsMembers(b, team, cands[..|cands| - 1], t);
      assert cands == cands[..|cands| - 1] + [cands[|cands| - 1]];
    }
  }
}
