/**
 * What every piece's `locate` shares: a fixed order of candidate origins for
 * a target square, of which the first accepted one is returned. Missing
 * entries stand for candidates the source skips (off the board).
 */
module Locates {
  import opened Wrappers
  import opened Teams
  import opened Pieces
  import opened Squares
  import opened Boards
  import Rules
  import PieceMoves

  /** The first candidate present in `cands` that `accept` holds for. */
  function First(accept: Sq -> bool, cands: seq<Option<Sq>>): (r: Option<Sq>)
    decreases |cands|
  {
    if cands == [] then None
    else if cands[0].Some? && accept(cands[0].value) then cands[0]
    else First(accept, cands[1..])
  }

  /** The test of all locates but the pawn's: `legal_target` for the piece. */
  function LegalAt(b: Board, to: Sq, team: Team, piece: Piece): (f: Sq -> bool)
  {
    s => Rules.Legal(b, s, to, team, piece).Some?
  }

  /** What is found is an accepted candidate. */
  lemma {:induction false} FirstSound(accept: Sq -> bool, cands: seq<Option<Sq>>)
    ensures var r := First(accept, cands);
      r.Some? ==> Some(r.value) in cands && accept(r.value)
    decreases |cands|
  {
    if cands != [] && !(cands[0].Some? && accept(cands[0].value)) {
      FirstSound(accept, cands[1..]);
    }
  }

  /** A property of every present candidate holds of what is found. */
  lemma FirstWithin(accept: Sq -> bool, cands: seq<Option<Sq>>, p: Sq -> bool)
    requires forall i :: 0 <= i < |cands| && cands[i].Some? ==> p(cands[i].value)
    ensures First(accept, cands).Some? ==> p(First(accept, cands).value)
  {
    FirstSound(accept, cands);
  }

  /**
   * The body of the knight's and the king's loops: the square (rank, file),
   * skipped unless it is a valid index pair, and kept when it is a legal origin.
   */
  method Probe(b: Board, to: Sq, team: Team, piece: Piece, rank: int, file: int) returns (sq: Option<Sq>)
    ensures sq == if ValidIdx(rank, file) && LegalAt(b, to, team, piece)(Sq(rank, file))
      then Some(Sq(rank, file)) else None
  {
    if !ValidIdx(rank, file) {
      return None;
    }
    var target := Squares.New(rank as nat, file as nat);
    sq := Rules.LegalTarget(b, target, to, team, piece);
  }

  /** One loop step: the candidate at `x` is taken or the search goes on after it. */
  lemma FirstStep(accept: Sq -> bool, cands: seq<Option<Sq>>, x: nat)
    requires x < |cands|
    ensures First(accept, cands[x..]) ==
      if cands[x].Some? && accept(cands[x].value) then cands[x] else First(accept, cands[x + 1..])
  {
    assert cands[x..][1..] == cands[x + 1..];
  }

  /** Searching two lists in turn is searching their concatenation. */
  lemma {:induction false} FirstAppend(accept: Sq -> bool, c1: seq<Option<Sq>>, c2: seq<Option<Sq>>)
    ensures First(accept, c1 + c2) == if First(accept, c1).Some? then First(accept, c1) else First(accept, c2)
    decreases |c1|
  {
    if c1 != [] {
      assert (c1 + c2)[1..] == c1[1..] + c2;
      FirstAppend(accept, c1[1..], c2);
    } else {
      assert c1 + c2 == c2;
    }
  }

  /** Nothing is found exactly when no present candidate is accepted. */
  lemma {:induction false} FirstNone(accept: Sq -> bool, cands: seq<Option<Sq>>)
    ensures First(accept, cands).None? <==>
      forall i :: 0 <= i < |cands| && cands[i].Some? ==> !accept(cands[i].value)
    decreases |cands|
  {
    if cands != [] {
      FirstNone(accept, cands[1..]);
      assert forall i :: 1 <= i < |cands| ==> cands[i] == cands[1..][i - 1];
    }
  }

  /** A present candidate that is accepted guarantees that something is found. */
  lemma FirstFinds(accept: Sq -> bool, cands: seq<Option<Sq>>, i: nat)
    requires i < |cands| && cands[i].Some? && accept(cands[i].value)
    ensures First(accept, cands).Some?
  {
    FirstNone(accept, cands);
  }

  /** What is found is the earliest accepted candidate. */
  lemma {:induction false} FirstIsEarliest(accept: Sq -> bool, cands: seq<Option<Sq>>)
    requires First(accept, cands).Some?
    ensures exists i ::
      && 0 <= i < |cands| && cands[i] == First(accept, cands)
      && forall j :: 0 <= j < i ==> cands[j].None? || !accept(cands[j].value)
    decreases |cands|
  {
    if cands[0].Some? && accept(cands[0].value) {
      assert cands[0] == First(accept, cands);
    } else {
      FirstIsEarliest(accept, cands[1..]);
      var i :| 0 <= i < |cands[1..]| && cands[1..][i] == First(accept, cands[1..])
        && forall j :: 0 <= j < i ==> cands[1..][j].None? || !accept(cands[1..][j].value);
      assert cands[i + 1] == First(accept, cands);
      forall j | 0 <= j < i + 1
        ensures cands[j].None? || !accept(cands[j].value)
      {
        if j > 0 {
          assert cands[j] == cands[1..][j - 1];
        }
      }
    }
  }

  /**
   * An origin found with `legal_target` holds the piece, generates the move,
   * passes `translate` and does not leave the mover in check.
   */
  lemma LocatedIsLegal(b: Board, to: Sq, team: Team, piece: Piece, cands: seq<Option<Sq>>)
    requires First(LegalAt(b, to, team, piece), cands).Some?
    ensures var s := First(LegalAt(b, to, team, piece), cands).value;
      && Some(s) in cands
      && b.Get(s) == Some(Entity(piece, team))
      && to in PieceMoves.Moves(b, piece, s, team)
      && Rules.Movable(b, s, to)
      && !Rules.Checked(Rules.Translate(b, s, to).0, b.turnOrder)
  {
    FirstSound(LegalAt(b, to, team, piece), cands);
    var s := First(LegalAt(b, to, team, piece), cands).value;
    assert LegalAt(b, to, team, piece)(s);
    Rules.LegalMeaning(b, s, to, team, piece);
  }
}
