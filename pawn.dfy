/** Pawn moves: diagonal captures (with en passant), the step and the double step. */
module Pawns {
  import opened Wrappers
  import opened Teams
  import opened Pieces
  import opened Squares
  import opened Boards
  import Rays

  /** The direction of travel: up the ranks for White, down for Black. */
  function Mul(team: Team): (m: int)
    ensures m == 1 <==> team == White
    ensures m == -1 <==> team == Black
  {
    match team
    case White => 1
    case Black => -1
  }

  /**
   * The en-passant target the pawn may take: the board's target when a Black
   * pawn stands on rank 3 or a White pawn on rank 4, else none.
   */
  function EnPassantTo(b: Board, from: Sq, team: Team): (r: Option<Sq>)
    ensures r.Some? ==> r == b.enPassant
    ensures r.Some? <==> b.enPassant.Some? && ((team == Black && from.digit == 3) || (team == White && from.digit == 4))
  {
    if (team == Black && from.digit == 3) || (team == White && from.digit == 4) then b.enPassant else None
  }

  /**
   * The square `steps` ranks ahead on the same file, built as the source does:
   * a signed sum cast to an unsigned machine word, then clamped.
   */
  function Ahead(from: Sq, team: Team, steps: int): (r: Sq)
    ensures r.OnBoard() && r.letter == Clamp(from.letter)
    ensures 0 <= from.digit + steps * Mul(team) < 8 ==> r.digit == from.digit + steps * Mul(team)
  {
    Squares.New(AsUsize(from.digit + steps * Mul(team)), from.letter)
  }

  /** The home rank, from which the double step is allowed. */
  predicate OnStartRank(from: Sq, team: Team)
  {
    (team == Black && from.digit == 6) || (team == White && from.digit == 1)
  }

  /**
   * The capture closure at (rank, file): nothing off the board; the square if
   * it is the en-passant target; otherwise the square if it holds an enemy.
   */
  function Capture(b: Board, team: Team, ep: Option<Sq>, rank: int, file: int): (r: seq<Sq>)
    ensures |r| <= 1
    ensures r != [] <==>
      (TryInto(rank, file).Some? &&
       (ep == TryInto(rank, file) || (b.Get(TryInto(rank, file).value).Some? && b.Get(TryInto(rank, file).value).value.team != team)))
    ensures r != [] ==> r == [Sq(rank, file)]
  {
    match TryInto(rank, file)
    case None => []
    case Some(sq2) =>
      if ep == Some(sq2) then [sq2]
      else
        match b.Get(sq2)
        case None => []
        case Some(entity) => if entity.team != team then [sq2] else []
  }

  /** The step forward when it is empty, then the double step from the home rank when that is empty too. */
  function Advance(b: Board, from: Sq, team: Team): (r: seq<Sq>)
  {
    var sq := Ahead(from, team, 1);
    if b.Find(sq, None, None).Some? then []
    else
      var sq2 := Ahead(from, team, 2);
      [sq] + if OnStartRank(from, team) && b.Find(sq2, None, None).None? then [sq2] else []
  }

  /**
   * The pawn's destinations: nothing unless a pawn of `team` (or a piece of
   * kind `filter`) stands on `from`; otherwise the left and right captures
   * next to the square ahead, then the advances.
   */
  function Moves(b: Board, from: Sq, team: Team, filter: Option<Piece>): (r: seq<Sq>)
    ensures b.Find(from, Some(team), filter).None? ==> r == []
    ensures |r| <= 4
  {
    if b.Find(from, Some(team), filter).None? then []
    else
      var ep := EnPassantTo(b, from, team);
      var sq := Ahead(from, team, 1);
      Capture(b, team, ep, sq.digit, sq.letter - 1) + Capture(b, team, ep, sq.digit, sq.letter + 1) + Advance(b, from, team)
  }

  /** The capture closure, pushing onto the caller's vector. */
  method Corner(b: Board, team: Team, canEnPassantTo: Option<Sq>, rank: int, file: int, vec: seq<Sq>) returns (out: seq<Sq>)
    ensures out == vec + Capture(b, team, canEnPassantTo, rank, file)
  {
    out := vec;
    var target := TryInto(rank, file);
    if target.None? {
      return;
    }
    var sq2 := target.value;
    if canEnPassantTo.Some? && sq2 == canEnPassantTo.value {
      out := out + [sq2];
      return;
    }
    match b.Get(sq2) {
      case None =>
      case Some(entity) =>
        if entity.team != team {
          out := out + [sq2];
        }
    }
  }

  method GetTranslations(b: Board, from: Sq, team: Team, filter: Option<Piece>) returns (vec: seq<Sq>)
    ensures vec == Moves(b, from, team, filter)
  {
    vec := [];
    if b.Find(from, Some(team), filter).None? {
      return;
    }
    var canEnPassantTo := EnPassantCandidate(b, from, team);
    var mul := Mul(team);
    var sq := Squares.New(AsUsize(from.digit + mul), from.letter);
    assert sq == Ahead(from, team, 1);
    vec := Corners(b, team, canEnPassantTo, sq, vec);
    assert vec == Capture(b, team, canEnPassantTo, sq.digit, sq.letter - 1)
                  + Capture(b, team, canEnPassantTo, sq.digit, sq.letter + 1);
    vec := Steps(b, from, team, mul, sq, vec);
  }

  /** The source's mutable `can_en_passant_to`, set only on the capturing rank. */
  method EnPassantCandidate(b: Board, from: Sq, team: Team) returns (canEnPassantTo: Option<Sq>)
    ensures canEnPassantTo == EnPassantTo(b, from, team)
  {
    canEnPassantTo := None;
    if (team == Black && from.digit == 3) || (team == White && from.digit == 4) {
      if b.enPassant.Some? {
        canEnPassantTo := b.enPassant;
      }
    }
  }

  /** The two closure calls, left of the square ahead and then right of it. */
  method Corners(b: Board, team: Team, canEnPassantTo: Option<Sq>, sq: Sq, vec: seq<Sq>) returns (out: seq<Sq>)
    ensures out == vec + Capture(b, team, canEnPassantTo, sq.digit, sq.letter - 1)
                       + Capture(b, team, canEnPassantTo, sq.digit, sq.letter + 1)
  {
    ghost var left := Capture(b, team, canEnPassantTo, sq.digit, sq.letter - 1);
    ghost var right := Capture(b, team, canEnPassantTo, sq.digit, sq.letter + 1);
    out := Corner(b, team, canEnPassantTo, sq.digit, sq.letter - 1, vec);
    out := Corner(b, team, canEnPassantTo, sq.digit, sq.letter + 1, out);
    Rays.Associate(vec, left, right);
  }

  /** The source's conditional pushes of the step and the double step. */
  method Steps(b: Board, from: Sq, team: Team, mul: int, sq: Sq, vec: seq<Sq>) returns (out: seq<Sq>)
    requires mul == Mul(team) && sq == Ahead(from, team, 1)
    ensures out == vec + Advance(b, from, team)
  {
    out := vec;
    if b.Find(sq, None, None).None? {
      out := out + [sq];
      if (team == Black && from.digit == 6) || (team == White && from.digit == 1) {
        var sq2 := Squares.New(AsUsize(from.digit + 2 * mul), from.letter);
        assert sq2 == Ahead(from, team, 2);
        if b.Find(sq2, None, None).None? {
          out := out + [sq2];
          Rays.Associate(vec, [sq], [sq2]);
        }
      }
    }
  }

  /**
   * From a square on the board, the square one step ahead is a destination
   * iff it is empty, and from the home rank the double step is one iff both
   * squares are empty.
   */
  lemma AdvanceRule(b: Board, from: Sq, team: Team, filter: Option<Piece>)
    requires b.Find(from, Some(team), filter).Some?
    ensures Ahead(from, team, 1) in Moves(b, from, team, filter) <==> b.Get(Ahead(from, team, 1)).None?
    ensures OnStartRank(from, team) ==>
      (Ahead(from, team, 2) in Moves(b, from, team, filter) <==>
         b.Get(Ahead(from, team, 1)).None? && b.Get(Ahead(from, team, 2)).None?)
  {
    var ep := EnPassantTo(b, from, team);
    var sq := Ahead(from, team, 1);
    var left := Capture(b, team, ep, sq.digit, sq.letter - 1);
    var right := Capture(b, team, ep, sq.digit, sq.letter + 1);
    assert Moves(b, from, team, filter) == left + right + Advance(b, from, team);
    assert from.OnBoard();
    assert sq !in left && sq !in right;
    if OnStartRank(from, team) {
      assert Ahead(from, team, 2) !in left && Ahead(from, team, 2) !in right;
      assert Ahead(from, team, 2) != sq;
    }
  }

  /**
   * A diagonal square next to the square ahead is a destination iff it holds
   * an enemy or it is the en-passant target the pawn may take.
   */
  lemma CaptureRule(b: Board, from: Sq, team: Team, filter: Option<Piece>, df: int, t: Sq)
    requires b.Find(from, Some(team), filter).Some?
    requires df == -1 || df == 1
    requires TryInto(Ahead(from, team, 1).digit, Ahead(from, team, 1).letter + df) == Some(t)
    ensures t in Moves(b, from, team, filter) <==>
      EnPassantTo(b, from, team) == Some(t) || (b.Get(t).Some? && b.Get(t).value.team != team)
  {
    var ep := EnPassantTo(b, from, team);
    var sq := Ahead(from, team, 1);
    var left := Capture(b, team, ep, sq.digit, sq.letter - 1);
    var right := Capture(b, team, ep, sq.digit, sq.letter + 1);
    var adv := Advance(b, from, team);
    assert Moves(b, from, team, filter) == left + right + adv;
    assert from.OnBoard();
    assert t.letter == from.letter + df;
    assert t !in adv by {
      assert forall s :: s in adv ==> s.letter == from.letter;
    }
    var mine := if df == -1 then left else right;
    var other := if df == -1 then right else left;
    assert t in mine <==> mine != [];
    assert t !in other;
  }

  /** Every pawn destination lies on the board. */
  lemma MovesOnBoard(b: Board, from: Sq, team: Team, filter: Option<Piece>, t: Sq)
    requires t in Moves(b, from, team, filter)
    ensures t.OnBoard()
  {
    var ep := EnPassantTo(b, from, team);
    var sq := Ahead(from, team, 1);
    var left := Capture(b, team, ep, sq.digit, sq.letter - 1);
    var right := Capture(b, team, ep, sq.digit, sq.letter + 1);
    assert Moves(b, from, team, filter) == left + right + Advance(b, from, team);
  }

  /**
   * In the initial position every pawn has exactly its step and its double
   * step: nothing stands ahead of it and nothing on the diagonals.
   */
  lemma InitialPawns(team: Team, f: nat)
    requires f < 8
    ensures var d := if team == White then 1 else 6;
      Moves(Starting(), Sq(d, f), team, Some(Pawn)) ==
        [Sq(d + Mul(team), f), Sq(d + 2 * Mul(team), f)]
  {
    var b := Starting();
    var d := if team == White then 1 else 6;
    var from := Sq(d, f);
    assert b.Get(from) == Some(Entity(Pawn, team));
    var sq := Ahead(from, team, 1);
    assert sq == Sq(d + Mul(team), f);
    assert Ahead(from, team, 2) == Sq(d + 2 * Mul(team), f);
    assert forall x :: 0 <= x < 8 ==> b.grid[sq.digit][x].None?;
    var far := Ahead(from, team, 2);
    assert forall x :: 0 <= x < 8 ==> b.grid[far.digit][x].None?;
  }
}
