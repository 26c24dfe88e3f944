/** Rook moves: four rays along the origin's rank and file. */
module Rooks {
  import opened Wrappers
  import opened Teams
  import opened Pieces
  import opened Squares
  import opened Boards
  import opened Rays

  /** The ray towards rank 7: ranks from+1 .. 7 on the origin's file. */
  function Up(from: Sq): (p: seq<Option<Sq>>)
    requires from.OnBoard()
    ensures |p| == 7 - from.digit
  {
    seq(7 - from.digit, k requires 0 <= k < 7 - from.digit => Some(Squares.New(from.digit + 1 + k, from.letter)))
  }

  /** The ray towards rank 0: ranks from-1 down to 0. */
  function Down(from: Sq): (p: seq<Option<Sq>>)
    requires from.OnBoard()
    ensures |p| == from.digit
  {
    seq(from.digit, k requires 0 <= k < from.digit => Some(Squares.New(from.digit - 1 - k, from.letter)))
  }

  /** The ray towards file 7. */
  function Right(from: Sq): (p: seq<Option<Sq>>)
    requires from.OnBoard()
    ensures |p| == 7 - from.letter
  {
    seq(7 - from.letter, k requires 0 <= k < 7 - from.letter => Some(Squares.New(from.digit, from.letter + 1 + k)))
  }

  /** The ray towards file 0. */
  function Left(from: Sq): (p: seq<Option<Sq>>)
    requires from.OnBoard()
    ensures |p| == from.letter
  {
    seq(from.letter, k requires 0 <= k < from.letter => Some(Squares.New(from.digit, from.letter - 1 - k)))
  }

  /** Every square of the four rays is on the board, on the origin's rank or file, and not the origin. */
  predicate OnLine(from: Sq, t: Sq)
  {
    t.OnBoard() && t != from && (t.digit == from.digit || t.letter == from.letter)
  }

  lemma WalkOnLine(b: Board, team: Team, from: Sq, path: seq<Option<Sq>>)
    requires forall i :: 0 <= i < |path| ==> path[i].Some? && OnLine(from, path[i].value)
    ensures forall t :: t in Walk(b, team, path) ==> OnLine(from, t)
  {
    var r := Walk(b, team, path);
    forall t | t in r
      ensures OnLine(from, t)
    {
      var i :| 0 <= i < |r| && r[i] == t;
      assert path[i] == Some(t);
    }
  }

  /**
   * The rook's destinations from `from`: nothing unless a piece of `team`
   * (and of kind `filter`, when given) stands there; otherwise the up, down,
   * right and left rays in that order.
   */
  function Moves(b: Board, from: Sq, team: Team, filter: Option<Piece>): (r: seq<Sq>)
    ensures b.Find(from, Some(team), filter).None? ==> r == []
    ensures forall t :: t in r ==> OnLine(from, t)
  {
    if b.Find(from, Some(team), filter).None? then []
    else
      RaysOnLine(from);
      WalkOnLine(b, team, from, Up(from));
      WalkOnLine(b, team, from, Down(from));
      WalkOnLine(b, team, from, Right(from));
      WalkOnLine(b, team, from, Left(from));
      Walk(b, team, Up(from)) + Walk(b, team, Down(from)) + Walk(b, team, Right(from)) + Walk(b, team, Left(from))
  }

  /** The ray squares: on the board, on the origin's rank or file, never the origin. */
  lemma RaysOnLine(from: Sq)
    requires from.OnBoard()
    ensures forall i :: 0 <= i < |Up(from)| ==> Up(from)[i].Some? && OnLine(from, Up(from)[i].value)
    ensures forall i :: 0 <= i < |Down(from)| ==> Down(from)[i].Some? && OnLine(from, Down(from)[i].value)
    ensures forall i :: 0 <= i < |Right(from)| ==> Right(from)[i].Some? && OnLine(from, Right(from)[i].value)
    ensures forall i :: 0 <= i < |Left(from)| ==> Left(from)[i].Some? && OnLine(from, Left(from)[i].value)
  {
    forall i | 0 <= i < |Up(from)|
      ensures Up(from)[i] == Some(Sq(from.digit + 1 + i, from.letter))
    {
      assert Up(from)[i] == Some(Squares.New(from.digit + 1 + i, from.letter));
    }
    forall i | 0 <= i < |Down(from)|
      ensures Down(from)[i] == Some(Sq(from.digit - 1 - i, from.letter))
    {
      assert Down(from)[i] == Some(Squares.New(from.digit - 1 - i, from.letter));
    }
    forall i | 0 <= i < |Right(from)|
      ensures Right(from)[i] == Some(Sq(from.digit, from.letter + 1 + i))
    {
      assert Right(from)[i] == Some(Squares.New(from.digit, from.letter + 1 + i));
    }
    forall i | 0 <= i < |Left(from)|
      ensures Left(from)[i] == Some(Sq(from.digit, from.letter - 1 - i))
    {
      assert Left(from)[i] == Some(Squares.New(from.digit, from.letter - 1 - i));
    }
  }

  /**
   * The source's four `for` loops with `break` (up, down, right, left), each
   * feeding the shared closure the squares of one ray.
   */
  method GetTranslations(b: Board, from: Sq, team: Team, filter: Option<Piece>) returns (vec: seq<Sq>)
    ensures vec == Moves(b, from, team, filter)
  {
    vec := [];
    if b.Find(from, Some(team), filter).None? {
      return;
    }
    vec := Cast(b, team, Up(from), vec);
    assert [] + Walk(b, team, Up(from)) == Walk(b, team, Up(from));
    vec := Cast(b, team, Down(from), vec);
    vec := Cast(b, team, Right(from), vec);
    vec := Cast(b, team, Left(from), vec);
  }

  /** A board whose only piece stands on `from`. */
  ghost predicate Alone(b: Board, from: Sq)
  {
    forall s: Sq :: s.OnBoard() && s != from ==> b.Get(s).None?
  }

  /** A lone rook has 14 destinations wherever it stands. */
  lemma LoneRook(b: Board, from: Sq, team: Team)
    requires b.Get(from) == Some(Entity(Rook, team)) && Alone(b, from)
    ensures |Moves(b, from, team, Some(Rook))| == 14
  {
    RaysOnLine(from);
    WalkClear(b, team, Up(from));
    WalkClear(b, team, Down(from));
    WalkClear(b, team, Right(from));
    WalkClear(b, team, Left(from));
  }

  /** A piece of `team` stands on `s`. */
  predicate Friendly(b: Board, s: Sq, team: Team)
  {
    b.Get(s).Some? && b.Get(s).value.team == team
  }

  /** The first square of a ray is friendly: the ray yields nothing. */
  lemma RayBlocked(b: Board, team: Team, path: seq<Option<Sq>>)
    requires path != [] && path[0].Some? && Friendly(b, path[0].value, team)
    ensures Walk(b, team, path) == []
  {
  }

  /**
   * A rook whose neighbours on its rank and file are all friendly (or off the
   * board) has no destination; the initial a1 rook is one.
   */
  lemma Hemmed(b: Board, from: Sq, team: Team, filter: Option<Piece>)
    requires from.OnBoard()
    requires from.digit < 7 ==> Friendly(b, Sq(from.digit + 1, from.letter), team)
    requires from.digit > 0 ==> Friendly(b, Sq(from.digit - 1, from.letter), team)
    requires from.letter < 7 ==> Friendly(b, Sq(from.digit, from.letter + 1), team)
    requires from.letter > 0 ==> Friendly(b, Sq(from.digit, from.letter - 1), team)
    ensures Moves(b, from, team, filter) == []
  {
    if b.Find(from, Some(team), filter).Some? {
      if from.digit < 7 {
        assert Up(from)[0] == Some(Squares.New(from.digit + 1 + 0, from.letter));
        assert Up(from)[0] == Some(Sq(from.digit + 1, from.letter));
        RayBlocked(b, team, Up(from));
      }
      if from.digit > 0 {
        assert Down(from)[0] == Some(Squares.New(from.digit - 1 - 0, from.letter));
        assert Down(from)[0] == Some(Sq(from.digit - 1, from.letter));
        RayBlocked(b, team, Down(from));
      }
      if from.letter < 7 {
        assert Right(from)[0] == Some(Squares.New(from.digit, from.letter + 1 + 0));
        assert Right(from)[0] == Some(Sq(from.digit, from.letter + 1));
        RayBlocked(b, team, Right(from));
      }
      if from.letter > 0 {
        assert Left(from)[0] == Some(Squares.New(from.digit, from.letter - 1 - 0));
        assert Left(from)[0] == Some(Sq(from.digit, from.letter - 1));
        RayBlocked(b, team, Left(from));
      }
    }
  }

  /** In the initial position the rook on a1 cannot move. */
  lemma InitialRook()
    ensures Moves(Starting(), Sq(0, 0), White, Some(Rook)) == []
  {
    Hemmed(Starting(), Sq(0, 0), White, Some(Rook));
  }
  /** A ray whose first square is empty and whose second is occupied yields one square, or two on a capture. */
  lemma RayAtTwo(b: Board, team: Team, path: seq<Option<Sq>>)
    requires |path| >= 2 && path[0].Some? && path[1].Some?
    requires b.Get(path[0].value).None? && b.Get(path[1].value).Some?
    ensures |Walk(b, team, path)| == if b.Get(path[1].value).value.team == team then 1 else 2
  {
    assert path[1..][0] == path[1];
  }

  /**
   * A rook on the inner board whose neighbours on its rank and file are empty
   * and whose squares at distance two all hold pieces of `other`: 4
   * destinations when they are friendly, 8 when they are enemies.
   */
  lemma AtDistanceTwo(b: Board, from: Sq, team: Team, other: Team)
    requires 2 <= from.digit <= 5 && 2 <= from.letter <= 5
    requires b.Get(from) == Some(Entity(Rook, team))
    requires b.Get(Sq(from.digit + 1, from.letter)).None? && b.Get(Sq(from.digit - 1, from.letter)).None?
    requires b.Get(Sq(from.digit, from.letter + 1)).None? && b.Get(Sq(from.digit, from.letter - 1)).None?
    requires Friendly(b, Sq(from.digit + 2, from.letter), other) && Friendly(b, Sq(from.digit - 2, from.letter), other)
    requires Friendly(b, Sq(from.digit, from.letter + 2), other) && Friendly(b, Sq(from.digit, from.letter - 2), other)
    ensures |Moves(b, from, team, Some(Rook))| == if other == team then 4 else 8
  {
    assert Up(from)[0] == Some(Squares.New(from.digit + 1 + 0, from.letter));
    assert Up(from)[1] == Some(Squares.New(from.digit + 1 + 1, from.letter));
    RayAtTwo(b, team, Up(from));
    assert Down(from)[0] == Some(Squares.New(from.digit - 1 - 0, from.letter));
    assert Down(from)[1] == Some(Squares.New(from.digit - 1 - 1, from.letter));
    RayAtTwo(b, team, Down(from));
    assert Right(from)[0] == Some(Squares.New(from.digit, from.letter + 1 + 0));
    assert Right(from)[1] == Some(Squares.New(from.digit, from.letter + 1 + 1));
    RayAtTwo(b, team, Right(from));
    assert Left(from)[0] == Some(Squares.New(from.digit, from.letter - 1 - 0));
    assert Left(from)[1] == Some(Squares.New(from.digit, from.letter - 1 - 1));
    RayAtTwo(b, team, Left(from));
  }
}
