/** The per-side list of committed moves. */
module Histories {
  import opened Wrappers
  import opened Teams
  import opened Pieces
  import opened Squares

  datatype Move = Move(piece: Piece, from: Sq, to: Sq, lbl: Option<string>)

  /**
   * `History`. The source pushes onto and pops from the two vectors in place;
   * the history is a field of the board value, so the model returns the
   * updated history instead.
   */
  datatype History = History(whiteMoves: seq<Move>, blackMoves: seq<Move>)
  {
    /** `resolve_type`: the list of one side. */
    function Moves(team: Team): (r: seq<Move>)
    {
      match team
      case White => whiteMoves
      case Black => blackMoves
    }

    /** `History::len`. */
    function Len(team: Team): (r: nat)
      ensures r == |Moves(team)|
    {
      |Moves(team)|
    }

    /** `History::get`: the `idx`-th move of a side, if it has that many. */
    function Get(team: Team, idx: nat): (r: Option<Move>)
      ensures r.Some? <==> idx < Len(team)
      ensures r.Some? ==> r.value == Moves(team)[idx]
    {
      var v := Moves(team);
      if idx < |v| then Some(v[idx]) else None
    }

    /** `History::last`. */
    function Last(team: Team): (r: Option<Move>)
      ensures r.None? <==> Len(team) == 0
      ensures r.Some? ==> r == Get(team, Len(team) - 1)
    {
      var v := Moves(team);
      if |v| == 0 then None else Some(v[|v| - 1])
    }

    /** `History::push`: one more move for `team`; the other side's list is untouched. */
    function Push(team: Team, piece: Piece, from: Sq, to: Sq, lbl: Option<string>): (r: History)
      ensures r.Moves(team) == Moves(team) + [Move(piece, from, to, lbl)]
      ensures r.Moves(team.Not()) == Moves(team.Not())
    {
      var m := Move(piece, from, to, lbl);
      match team
      case White => this.(whiteMoves := whiteMoves + [m])
      case Black => this.(blackMoves := blackMoves + [m])
    }

    /** `History::pop`: the last move of `team` is removed and returned. */
    function Pop(team: Team): (r: (History, Option<Move>))
      ensures r.1 == Last(team)
      ensures r.0.Moves(team) == if Len(team) == 0 then [] else Moves(team)[..Len(team) - 1]
      ensures r.0.Moves(team.Not()) == Moves(team.Not())
    {
      var v := Moves(team);
      if |v| == 0 then (this, None)
      else
        match team
        case White => (this.(whiteMoves := v[..|v| - 1]), Some(v[|v| - 1]))
        case Black => (this.(blackMoves := v[..|v| - 1]), Some(v[|v| - 1]))
    }

    /** `History::tuple`: the `idx`-th move of White and of Black. */
    function Tuple(idx: nat): (r: (Option<Move>, Option<Move>))
      ensures r == (Get(White, idx), Get(Black, idx))
    {
      (if idx < |whiteMoves| then Some(whiteMoves[idx]) else None,
       if idx < |blackMoves| then Some(blackMoves[idx]) else None)
    }
  }

  /** `History::new`: no moves for either side. */
  function New(): (r: History)
    ensures r.Len(White) == 0 && r.Len(Black) == 0
  {
    History([], [])
  }

  /** After a push the side has one more move, and it is both the last and the newest indexed. */
  lemma PushLast(h: History, team: Team, piece: Piece, from: Sq, to: Sq, lbl: Option<string>)
    ensures h.Push(team, piece, from, to, lbl).Len(team) == h.Len(team) + 1
    ensures h.Push(team, piece, from, to, lbl).Len(team.Not()) == h.Len(team.Not())
    ensures h.Push(team, piece, from, to, lbl).Last(team) == Some(Move(piece, from, to, lbl))
    ensures h.Push(team, piece, from, to, lbl).Get(team, h.Len(team)) == Some(Move(piece, from, to, lbl))
    ensures forall i: nat :: i < h.Len(team) ==> h.Push(team, piece, from, to, lbl).Get(team, i) == h.Get(team, i)
  {
  }

  /** Popping right after a push returns the pushed move and restores the history. */
  lemma PopPush(h: History, team: Team, piece: Piece, from: Sq, to: Sq, lbl: Option<string>)
    ensures h.Push(team, piece, from, to, lbl).Pop(team) == (h, Some(Move(piece, from, to, lbl)))
  {
    var p := h.Push(team, piece, from, to, lbl);
    assert p.Moves(team)[..p.Len(team) - 1] == h.Moves(team);
    match team {
      case White =>
        assert p.Pop(team).0 == h.(whiteMoves := h.whiteMoves);
      case Black =>
        assert p.Pop(team).0 == h.(blackMoves := h.blackMoves);
    }
  }
}
