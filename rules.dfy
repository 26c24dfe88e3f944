/**
 * Move application and the check rules of `Board`: `translate` (a raw move
 * with its own validation), `in_check`, `can_translate`, `checked_translate`,
 * `legal_target`, `check_mate` and `stalemate`.
 *
 * `translate` is straight-line code on a board the caller has cloned, so it is
 * a function from the board before to the board after. The query and commit
 * operations run the move generators and `in_check` loops, so they are methods
 * proved against specification functions of the same name family.
 */
module Rules {
  import opened Wrappers
  import opened Teams
  import opened Pieces
  import opened Squares
  import opened Boards
  import Strings
  import Histories
  import PieceMoves
  import Rays

  /** `board[to] = board[from]; board[from] = None`. */
  function Relocate(g: Grid, from: Sq, to: Sq): (r: Grid)
    requires from.OnBoard() && to.OnBoard()
    ensures r[from.digit][from.letter] == None
    ensures from != to ==> r[to.digit][to.letter] == g[from.digit][from.letter]
    ensures forall d, f :: 0 <= d < 8 && 0 <= f < 8 && Sq(d, f) != from && Sq(d, f) != to ==> r[d][f] == g[d][f]
  {
    SetCell(SetCell(g, to, g[from.digit][from.letter]), from, None)
  }

  /**
   * The square of the pawn taken en passant: `to.digit + (from.digit - to.digit)`
   * computed in `isize`, which is the origin's rank, on the target's file.
   */
  function CleanUp(from: Sq, to: Sq): (r: Sq)
    requires from.OnBoard()
    ensures r == Squares.New(from.digit, to.letter)
  {
    Squares.New(AsUsize(to.digit as int + (from.digit as int - to.digit as int)), to.letter)
  }

  /** A pawn moves off its file onto an empty square while an en-passant target is recorded. */
  predicate EnPassantAttempt(b: Board, from: Sq, to: Sq)
  {
    b.Get(from).Some? && b.Get(from).value.kind == Pawn && b.Get(to).None?
    && b.enPassant.Some? && from.letter != to.letter
  }

  /** The en-passant target after a pawn move: the square passed over by a double step. */
  function PawnTarget(from: Sq, to: Sq): (r: Option<Sq>)
    ensures r.Some? <==> Rays.Abs(from.digit - to.digit) == 2
  {
    if Rays.Abs(from.digit as int - to.digit as int) == 2
    then Some(Squares.New((to.digit + from.digit) / 2, to.letter))
    else None
  }

  /**
   * The common tail of `translate`: Black's move completes a full move, the
   * side to move flips, the target is appended to the label and a pawn move
   * resets the half-move clock and records or clears the en-passant target.
   */
  function Finish(b: Board, mover: Entity, from: Sq, to: Sq, lbl: string): (r: (Board, Result<string>))
    requires to.OnBoard()
  {
    var b1 := b.(fullmove := if b.turnOrder == Black then b.fullmove + 1 else b.fullmove,
                 turnOrder := b.turnOrder.Not());
    var lbl := lbl + to.Name();
    if mover.kind == Pawn then (b1.(halfmove := 0, enPassant := PawnTarget(from, to)), Ok(lbl))
    else (b1, Ok(lbl))
  }

  /** The messages of `translate`'s refusals. */
  const NOTHING_AT_FROM := "illegal move, nothing at from"
  const TARGET_FRIENDLY := "illegal move, target is friendly"
  const TARGET_KING := "illegal move, target is King"

  /** The message for a piece of the side not to move. */
  function WrongTurn(piece: Team, turn: Team): (msg: string)
  {
    "illegal move, (piece: " + piece.Display() + ", turn: " + turn.Display() + ")"
  }

  /** The message for an en passant without a pawn to take; `Name` is how the square displays. */
  function NoPawnAt(clean: Sq): (msg: string)
    requires clean.OnBoard()
  {
    "illegal en passant, no Pawn at " + clean.Name()
  }

  /**
   * `Board::translate`: moves the piece on `from` to `to` for the side to move
   * and returns the move's label. It is not atomic: the en-passant error
   * leaves the half-move clock already incremented, and an off-board target
   * aborts with an index panic after the checks.
   */
  function Translate(b: Board, from: Sq, to: Sq): (r: (Board, Result<string>))
  {
    match b.Get(from)
    case None => (b, Err(Failed(NOTHING_AT_FROM)))
    case Some(mover) =>
      if mover.team != b.Turn() then
        (b, Err(Failed(WrongTurn(mover.team, b.Turn()))))
      else
        var lbl := mover.kind.ToStr();
        match b.Get(to)
        case Some(target) =>
          if mover.team == target.team then (b, Err(Failed(TARGET_FRIENDLY)))
          else if target.kind == King then (b, Err(Failed(TARGET_KING)))
          else
            var lbl := lbl + (if mover.kind == Pawn then [from.FileChar()] else []) + "x";
            Finish(b.(halfmove := 0, grid := Relocate(b.grid, from, to)), mover, from, to, lbl)
        case None =>
          var b1 := b.(halfmove := b.halfmove + 1);
          if mover.kind == Pawn && b.enPassant.Some? && from.letter != to.letter then
            var clean := CleanUp(from, to);
            match b1.Find(clean, Some(b1.NotTurn()), Some(Pawn))
            case None => (b1, Err(Failed(NoPawnAt(clean))))
            case Some(_) =>
              var b2 := b1.(grid := SetCell(b1.grid, clean, None));
              if !to.OnBoard() then (b2, Err(Panicked(OUT_OF_BOUNDS)))
              else Finish(b2.(grid := Relocate(b2.grid, from, to)), mover, from, to, lbl + [from.FileChar()] + "x")
          else if !to.OnBoard() then (b1, Err(Panicked(OUT_OF_BOUNDS)))
          else Finish(b1.(grid := Relocate(b1.grid, from, to)), mover, from, to, lbl)
  }

  /** The checks `translate` makes before it moves anything. */
  predicate Movable(b: Board, from: Sq, to: Sq)
  {
    b.Get(from).Some? && b.Get(from).value.team == b.turnOrder
    && (b.Get(to).Some? ==> b.Get(to).value.team != b.turnOrder && b.Get(to).value.kind != King)
    && (EnPassantAttempt(b, from, to) ==> b.Find(CleanUp(from, to), Some(b.NotTurn()), Some(Pawn)).Some?)
  }

  /** The moves `translate` makes with a capture: onto an enemy, or en passant. */
  predicate Captures(b: Board, from: Sq, to: Sq)
  {
    b.Get(to).Some? || EnPassantAttempt(b, from, to)
  }

  /**
   * `translate` succeeds exactly when its checks pass and the target is on the
   * board; with the checks passed and the target off the board it panics.
   */
  lemma TranslateOutcome(b: Board, from: Sq, to: Sq)
    ensures Translate(b, from, to).1.Ok? <==> Movable(b, from, to) && to.OnBoard()
    ensures Translate(b, from, to).1.Err? && Translate(b, from, to).1.error.Panicked? <==>
      Movable(b, from, to) && !to.OnBoard()
  {
  }

  /** Each failed check of `translate`, with its message and the board it leaves. */
  lemma TranslateErrors(b: Board, from: Sq, to: Sq)
    ensures b.Get(from).None? ==>
      Translate(b, from, to) == (b, Err(Failed(NOTHING_AT_FROM)))
    ensures b.Get(from).Some? && b.Get(from).value.team != b.turnOrder ==>
      Translate(b, from, to) == (b, Err(Failed(WrongTurn(b.Get(from).value.team, b.turnOrder))))
    ensures b.Get(from).Some? && b.Get(from).value.team == b.turnOrder
            && b.Get(to).Some? && b.Get(to).value.team == b.turnOrder ==>
      Translate(b, from, to) == (b, Err(Failed(TARGET_FRIENDLY)))
    ensures b.Get(from).Some? && b.Get(from).value.team == b.turnOrder
            && b.Get(to).Some? && b.Get(to).value.team != b.turnOrder && b.Get(to).value.kind == King ==>
      Translate(b, from, to) == (b, Err(Failed(TARGET_KING)))
    ensures b.Get(from).Some? && b.Get(from).value.team == b.turnOrder && EnPassantAttempt(b, from, to)
            && b.Find(CleanUp(from, to), Some(b.NotTurn()), Some(Pawn)).None? ==>
      Translate(b, from, to) ==
        (b.(halfmove := b.halfmove + 1), Err(Failed(NoPawnAt(CleanUp(from, to)))))
  {
  }

  /** A failed `translate` changes nothing, except the clock tick of a failed en passant. */
  lemma TranslateFailure(b: Board, from: Sq, to: Sq)
    requires Translate(b, from, to).1.Err? && Translate(b, from, to).1.error.Failed?
    ensures Translate(b, from, to).0 ==
      if b.Get(from).Some? && b.Get(from).value.team == b.turnOrder && EnPassantAttempt(b, from, to)
      then b.(halfmove := b.halfmove + 1) else b
  {
  }

  /** The board a successful `translate` leaves. */
  lemma TranslateEffect(b: Board, from: Sq, to: Sq)
    requires Movable(b, from, to) && to.OnBoard()
    ensures var (a, _) := Translate(b, from, to);
      && a.Get(to) == b.Get(from)
      && a.Get(from).None?
      && (forall s: Sq :: s != from && s != to && !(EnPassantAttempt(b, from, to) && s == CleanUp(from, to))
            ==> a.Get(s) == b.Get(s))
      && (EnPassantAttempt(b, from, to) && CleanUp(from, to) != to ==> a.Get(CleanUp(from, to)).None?)
      && a.turnOrder == b.turnOrder.Not()
      && a.fullmove == (if b.turnOrder == Black then b.fullmove + 1 else b.fullmove)
      && a.halfmove == (if Captures(b, from, to) || b.Get(from).value.kind == Pawn then 0 else b.halfmove + 1)
      && a.enPassant == (if b.Get(from).value.kind == Pawn then PawnTarget(from, to) else b.enPassant)
      && a.history == b.history && a.castling == b.castling && a.state == b.state
  {
    var mover := b.Get(from).value;
    assert from.OnBoard();
    assert from != to;
  }

  /**
   * The label of a successful `translate`: the piece letter (none for a pawn),
   * the pawn's file when it captures, `x` on a capture, then the target.
   */
  lemma TranslateLabel(b: Board, from: Sq, to: Sq)
    requires Movable(b, from, to) && to.OnBoard()
    ensures from.OnBoard()
    ensures Translate(b, from, to).1 == Ok(
      b.Get(from).value.kind.ToStr()
      + (if Captures(b, from, to) && b.Get(from).value.kind == Pawn then [from.FileChar()] else [])
      + (if Captures(b, from, to) then "x" else "")
      + to.Display())
  {
    assert from.OnBoard();
    NameDisplay(to);
    var k := b.Get(from).value.kind.ToStr();
    if Captures(b, from, to) && b.Get(from).value.kind == Pawn {
      assert k + [from.FileChar()] + "x" + to.Display() == k + [from.FileChar()] + "x" + to.Display();
    } else if !Captures(b, from, to) {
      assert k + [] + "" + to.Display() == k + to.Display();
    } else {
      assert k + [] + "x" + to.Display() == k + "x" + to.Display();
    }
  }

  /** `translate` never removes a piece of the side that moves, other than the mover from its origin. */
  lemma TranslateKeepsOwn(b: Board, from: Sq, to: Sq, s: Sq)
    requires Movable(b, from, to) && to.OnBoard()
    requires s != from && b.Get(s).Some? && b.Get(s).value.team == b.turnOrder
    ensures Translate(b, from, to).0.Get(s) == b.Get(s)
  {
    TranslateEffect(b, from, to);
  }

  /** Remark made by the first pawn move of the tests: "e4" from the initial position. */
  lemma OpeningDoubleStep()
    ensures Translate(Starting(), Sq(1, 4), Sq(3, 4)).1 == Ok("e4")
    ensures Translate(Starting(), Sq(1, 4), Sq(3, 4)).0.enPassant == Some(Sq(2, 4))
    ensures Translate(Starting(), Sq(1, 4), Sq(3, 4)).0.halfmove == 0
    ensures Translate(Starting(), Sq(1, 4), Sq(3, 4)).0.turnOrder == Black
  {
    var b := Starting();
    assert b.Get(Sq(1, 4)) == Some(Entity(Pawn, White));
    assert b.Get(Sq(3, 4)) == None;
    assert Sq(3, 4).Display() == "e4" by {
      assert Strings.NatToString(4) == "4";
    }
    assert Pawn.ToStr() + Sq(3, 4).Display() == "e4";
  }

  /** A square holding the King of `team`. */
  predicate KingOn(b: Board, team: Team, t: Sq)
  {
    b.Find(t, Some(team), Some(King)).Some?
  }

  /** The opposing piece `se` has a generated destination on the King of `team`. */
  predicate Hits(b: Board, team: Team, se: SqEntity)
  {
    exists t :: t in PieceMoves.Moves(b, se.entity.kind, se.sq, team.Not()) && KingOn(b, team, t)
  }

  /** `team` is in check: the generator of some opposing piece reaches its King. */
  predicate Checked(b: Board, team: Team)
  {
    exists se :: se in Occupants(b, team.Not()) && Hits(b, team, se)
  }

  /** `Board::in_check`: the opposing pieces in scan order, each one's destinations in turn. */
  method InCheck(b: Board, team: Team) returns (r: bool)
    ensures r == Checked(b, team)
  {
    var entities := FindByTeam(b, team.Not());
    r := AnyHits(b, team, entities);
    CheckedAmong(b, team, entities);
  }

  /** The outer loop of `in_check`: does any listed piece reach the King of `team`? */
  method AnyHits(b: Board, team: Team, entities: seq<SqEntity>) returns (r: bool)
    ensures r <==> exists j :: 0 <= j < |entities| && Hits(b, team, entities[j])
  {
    for i := 0 to |entities|
      invariant !exists j :: 0 <= j < i && Hits(b, team, entities[j])
    {
      var hit := CoversKing(b, team, entities[i]);
      if hit {
        return true;
      }
    }
    return false;
  }

  /** Check is decided by the opposing pieces as `find_by_team` lists them. */
  lemma CheckedAmong(b: Board, team: Team, ses: seq<SqEntity>)
    requires ses == Occupants(b, team.Not())
    ensures Checked(b, team) <==> exists j :: 0 <= j < |ses| && Hits(b, team, ses[j])
  {
  }

  /** The inner loop of `in_check`: does this piece's generator reach the King of `team`? */
  method CoversKing(b: Board, team: Team, se: SqEntity) returns (r: bool)
    ensures r == Hits(b, team, se)
  {
    var translations := PieceMoves.GetTranslations(b, se.entity.kind, se.sq, team.Not());
    for k := 0 to |translations|
      invariant forall j :: 0 <= j < k ==> !KingOn(b, team, translations[j])
    {
      if b.Find(translations[k], Some(team), Some(King)).Some? {
        assert KingOn(b, team, translations[k]);
        return true;
      }
    }
    return false;
  }

  /** `Checked` read square by square: an opposing piece on the board whose destination holds the King. */
  lemma CheckedMeaning(b: Board, team: Team)
    ensures Checked(b, team) <==>
      exists s: Sq, t: Sq :: s.OnBoard() && b.Get(s).Some? && b.Get(s).value.team == team.Not()
        && t in PieceMoves.Moves(b, b.Get(s).value.kind, s, team.Not()) && KingOn(b, team, t)
  {
    if Checked(b, team) {
      var se :| se in Occupants(b, team.Not()) && Hits(b, team, se);
      OccupantsExact(b, team.Not(), se);
      var t :| t in PieceMoves.Moves(b, se.entity.kind, se.sq, team.Not()) && KingOn(b, team, t);
      assert se.sq.OnBoard() && b.Get(se.sq).value == se.entity;
    }
    if exists s: Sq, t: Sq :: s.OnBoard() && b.Get(s).Some? && b.Get(s).value.team == team.Not()
        && t in PieceMoves.Moves(b, b.Get(s).value.kind, s, team.Not()) && KingOn(b, team, t) {
      var s: Sq, t: Sq :| s.OnBoard() && b.Get(s).Some? && b.Get(s).value.team == team.Not()
        && t in PieceMoves.Moves(b, b.Get(s).value.kind, s, team.Not()) && KingOn(b, team, t);
      var se := SqEntity(b.Get(s).value, s);
      OccupantsExact(b, team.Not(), se);
      assert Hits(b, team, se);
    }
  }

  /**
   * `can_translate`: the move passes `translate` on a copy and does not leave
   * the side that made it in check. A panic inside `translate` propagates.
   */
  function Permitted(b: Board, from: Sq, to: Sq): (r: Result<bool>)
    ensures r.Err? ==> r.error.Panicked?
  {
    var (other, res) := Translate(b, from, to);
    match res
    case Err(Panicked(m)) => Err(Panicked(m))
    case Err(Failed(_)) => Ok(false)
    case Ok(_) => Ok(!Checked(other, b.turnOrder))
  }

  method CanTranslate(b: Board, from: Sq, to: Sq) returns (r: Result<bool>)
    ensures r == Permitted(b, from, to)
  {
    var turn := b.Turn();
    var (other, res) := Translate(b, from, to);
    if res.Err? {
      if res.error.Panicked? {
        return Err(res.error);
      }
      return Ok(false);
    }
    var check := InCheck(other, turn);
    return Ok(!check);
  }

  /** A move is permitted iff `translate` accepts it and the mover's King is then not attacked. */
  lemma PermittedMeaning(b: Board, from: Sq, to: Sq)
    ensures to.OnBoard() ==> Permitted(b, from, to).Ok?
    ensures Permitted(b, from, to) == Ok(true) <==>
      Movable(b, from, to) && to.OnBoard() && !Checked(Translate(b, from, to).0, b.turnOrder)
  {
    TranslateOutcome(b, from, to);
  }

  /** The history after a committed move: one entry for the side that moved, when its piece is found. */
  function Recorded(b: Board, from: Sq, to: Sq, lbl: string): (h: Histories.History)
    ensures b.Find(from, Some(b.turnOrder), None).Some? ==>
      h.Moves(b.turnOrder) == b.history.Moves(b.turnOrder) + [Histories.Move(b.Get(from).value.kind, from, to, Some(lbl))]
    ensures h.Moves(b.turnOrder.Not()) == b.history.Moves(b.turnOrder.Not())
  {
    match b.Find(from, Some(b.turnOrder), None)
    case None => b.history
    case Some(e) => b.history.Push(b.turnOrder, e.kind, from, to, Some(lbl))
  }

  /**
   * `checked_translate` as written: the move is tried on a copy and, when it
   * does not place the mover in check, the history gets the move and board,
   * turn, castling, en-passant target and half-move clock are copied back.
   * The full-move number is not copied.
   */
  function CommitAsWritten(b: Board, from: Sq, to: Sq): (r: (Board, Result<()>))
  {
    var turn := b.turnOrder;
    var (other, res) := Translate(b, from, to);
    match res
    case Err(e) => (b, Err(e))
    case Ok(lbl) =>
      if Checked(other, turn) then
        (b, Err(Failed("illegal move for " + turn.Display() + ", places yourself in check.")))
      else
        (b.(history := Recorded(b, from, to, lbl), grid := other.grid, turnOrder := other.turnOrder,
            castling := other.castling, enPassant := other.enPassant, halfmove := other.halfmove), Ok(()))
  }

  /** `checked_translate` with the trial copy's full-move number copied back as well. */
  function Commit(b: Board, from: Sq, to: Sq): (r: (Board, Result<()>))
    ensures r.1 == CommitAsWritten(b, from, to).1
  {
    var (a, res) := CommitAsWritten(b, from, to);
    if res.Ok? then (a.(fullmove := Translate(b, from, to).0.fullmove), res) else (a, res)
  }

  /**
   * `Board::checked_translate`: the trial on a copy, then the history entry
   * and the copy-back of every field the source copies (not the full-move number).
   */
  method CheckedTranslate(b: Board, from: Sq, to: Sq) returns (a: Board, res: Result<()>)
    ensures (a, res) == CommitAsWritten(b, from, to)
  {
    var other := b;
    var turn := other.turnOrder;
    var (trial, moved) := Translate(other, from, to);
    other := trial;
    if moved.Err? {
      return b, Err(moved.error);
    }
    var check := InCheck(other, turn);
    if check {
      return b, Err(Failed("illegal move for " + turn.Display() + ", places yourself in check."));
    }
    a := b;
    match b.Find(from, Some(turn), None) {
      case None =>
      case Some(entity) =>
        a := a.(history := a.history.Push(turn, entity.kind, from, to, Some(moved.value)));
    }
    a := a.(grid := other.grid, turnOrder := other.Turn(), castling := other.castling,
            enPassant := other.enPassant, halfmove := other.halfmove);
    res := Ok(());
  }

  /**
   * The commit succeeds exactly when `can_translate` holds for the same move,
   * and panics exactly when it panics (the corrected commit has the same outcome).
   */
  lemma CommitIffPermitted(b: Board, from: Sq, to: Sq)
    ensures CommitAsWritten(b, from, to).1 == Ok(()) <==> Permitted(b, from, to) == Ok(true)
    ensures CommitAsWritten(b, from, to).1.Err? && CommitAsWritten(b, from, to).1.error.Panicked? <==> Permitted(b, from, to).Err?
  {
  }

  /** A rejected commit, as written or corrected, leaves the board as it was. */
  lemma CommitFailure(b: Board, from: Sq, to: Sq)
    requires CommitAsWritten(b, from, to).1.Err?
    ensures CommitAsWritten(b, from, to).0 == b
    ensures Commit(b, from, to).0 == b
  {
  }

  /**
   * A successful commit is the trial move plus one history entry for the
   * mover, with the full-move number left as it was (corrected: the trial's),
   * and it never leaves the side that moved in check.
   */
  lemma CommitEffect(b: Board, from: Sq, to: Sq)
    requires CommitAsWritten(b, from, to).1.Ok?
    ensures Movable(b, from, to) && to.OnBoard()
    ensures var trial := Translate(b, from, to);
      var h := b.history.Push(b.turnOrder, b.Get(from).value.kind, from, to, Some(trial.1.value));
      && CommitAsWritten(b, from, to).0 == trial.0.(history := h, fullmove := b.fullmove)
      && Commit(b, from, to).0 == trial.0.(history := h)
      && !Checked(trial.0, b.turnOrder)
  {
    TranslateOutcome(b, from, to);
    TranslateEffect(b, from, to);
  }

  /** As written, a commit never advances the full-move number, though Black's trial move does. */
  lemma FullmoveLost(b: Board, from: Sq, to: Sq)
    requires CommitAsWritten(b, from, to).1.Ok?
    ensures CommitAsWritten(b, from, to).0.fullmove == b.fullmove
    ensures b.turnOrder == Black ==> Translate(b, from, to).0.fullmove == b.fullmove + 1
  {
    TranslateOutcome(b, from, to);
    TranslateEffect(b, from, to);
  }

  /** With the copy corrected, the full-move number grows by one exactly after Black's move. */
  lemma CommitFullmove(b: Board, from: Sq, to: Sq)
    requires Commit(b, from, to).1.Ok?
    ensures Commit(b, from, to).0.fullmove == if b.turnOrder == Black then b.fullmove + 1 else b.fullmove
    ensures Commit(b, from, to).0.turnOrder == b.turnOrder.Not()
  {
    TranslateOutcome(b, from, to);
    TranslateEffect(b, from, to);
  }

  /**
   * `legal_target`: `from` when it holds the given piece of `team`, its
   * generator lists `to`, and `can_translate` holds for the move.
   */
  function Legal(b: Board, from: Sq, to: Sq, team: Team, piece: Piece): (r: Option<Sq>)
    ensures r.Some? ==> r.value == from
  {
    if b.Find(from, Some(team), Some(piece)).Some? && to in PieceMoves.Moves(b, piece, from, team)
       && Permitted(b, from, to) == Ok(true)
    then Some(from) else None
  }

  method LegalTarget(b: Board, from: Sq, to: Sq, team: Team, piece: Piece) returns (r: Option<Sq>)
    ensures r == Legal(b, from, to, team, piece)
  {
    if b.Find(from, Some(team), Some(piece)).Some? {
      var translations := PieceMoves.GetTranslations(b, piece, from, team);
      if to in translations {
        var can := CanTranslate(b, from, to);
        if can == Ok(true) {
          return Some(from);
        }
      }
    }
    return None;
  }

  /**
   * A located origin is sound: the piece is there, the move is generated,
   * `translate` accepts it and the mover is not in check afterwards; and any
   * such origin is located.
   */
  lemma LegalMeaning(b: Board, from: Sq, to: Sq, team: Team, piece: Piece)
    ensures Legal(b, from, to, team, piece) == Some(from) <==>
      b.Get(from) == Some(Entity(piece, team)) && to in PieceMoves.Moves(b, piece, from, team)
      && Movable(b, from, to) && !Checked(Translate(b, from, to).0, b.turnOrder)
  {
    PieceMoves.MovesOnBoard(b, piece, from, team);
    PermittedMeaning(b, from, to);
  }

  /** Some destination of the piece `se` is permitted on `other`. */
  predicate Escapes(other: Board, team: Team, se: SqEntity)
  {
    exists t :: t in PieceMoves.Moves(other, se.entity.kind, se.sq, team) && Accepts(other, se.sq, t)
  }

  /** The closure of `check_mate` and `stalemate`: true when the piece has no permitted move. */
  function Blocked(other: Board, team: Team): (f: SqEntity -> bool)
  {
    se => !Escapes(other, team, se)
  }

  /** No piece of `team` has a permitted move, with `team` set to move on a copy. */
  predicate Stuck(b: Board, team: Team)
  {
    AllAccepted(Blocked(b.(turnOrder := team), team), Occupants(b, team))
  }

  /** A move `can_translate` accepts. */
  predicate Accepts(other: Board, from: Sq, to: Sq)
  {
    Permitted(other, from, to) == Ok(true)
  }

  /** The body of the closure: the piece's destinations, then the search for an accepted one. */
  method NoEscape(other: Board, team: Team, se: SqEntity) returns (r: bool)
    ensures r == Blocked(other, team)(se)
  {
    var translations := PieceMoves.GetTranslations(other, se.entity.kind, se.sq, team);
    r := NoneAccepted(other, se.sq, translations);
    assert r <==> forall t :: t in translations ==> !Accepts(other, se.sq, t) by {
      if !r {
        var j :| 0 <= j < |translations| && Accepts(other, se.sq, translations[j]);
        assert translations[j] in translations;
      }
    }
  }

  /** The closure's loop: false at the first destination `can_translate` accepts. */
  method NoneAccepted(other: Board, from: Sq, translations: seq<Sq>) returns (r: bool)
    ensures r <==> forall j :: 0 <= j < |translations| ==> !Accepts(other, from, translations[j])
  {
    for k := 0 to |translations|
      invariant forall j :: 0 <= j < k ==> !Accepts(other, from, translations[j])
    {
      var can := CanTranslate(other, from, translations[k]);
      if can == Ok(true) {
        return false;
      }
    }
    return true;
  }

  /**
   * `Board::check_mate`, which assumes `team` is already in check. Its body
   * is the same as `stalemate`'s, so the two agree on every board.
   */
  method CheckMate(b: Board, team: Team) returns (r: bool)
    ensures r == Stuck(b, team)
  {
    var other := b;
    other := other.(turnOrder := team);
    r := FindByTeamClosure(b, team, Blocked(other, team));
  }

  /** `Board::stalemate`: the side has no permitted move. */
  method Stalemate(b: Board, team: Team) returns (r: bool)
    ensures r == Stuck(b, team)
  {
    var other := b;
    other := other.(turnOrder := team);
    r := FindByTeamClosure(b, team, Blocked(other, team));
  }

  /**
   * `Stuck` read square by square: no piece of `team` on the board has a
   * generated destination that `translate` accepts without leaving `team` in check.
   */
  lemma StuckMeaning(b: Board, team: Team)
    ensures Stuck(b, team) <==>
      forall s: Sq, t: Sq :: s.OnBoard() && b.Get(s).Some? && b.Get(s).value.team == team
        && t in PieceMoves.Moves(b.(turnOrder := team), b.Get(s).value.kind, s, team)
        ==> !(Movable(b.(turnOrder := team), s, t) && !Checked(Translate(b.(turnOrder := team), s, t).0, team))
  {
    var other := b.(turnOrder := team);
    var occ := Occupants(b, team);
    forall s: Sq, t: Sq | s.OnBoard() && b.Get(s).Some? && b.Get(s).value.team == team
      ensures t in PieceMoves.Moves(other, b.Get(s).value.kind, s, team) ==>
        (Permitted(other, s, t) == Ok(true) <==> Movable(other, s, t) && !Checked(Translate(other, s, t).0, team))
    {
      PieceMoves.MovesOnBoard(other, b.Get(s).value.kind, s, team);
      PermittedMeaning(other, s, t);
    }
    if Stuck(b, team) {
      forall s: Sq, t: Sq | s.OnBoard() && b.Get(s).Some? && b.Get(s).value.team == team
        && t in PieceMoves.Moves(other, b.Get(s).value.kind, s, team)
        ensures !(Movable(other, s, t) && !Checked(Translate(other, s, t).0, team))
      {
        var se := SqEntity(b.Get(s).value, s);
        OccupantsExact(b, team, se);
        var i :| 0 <= i < |occ| && occ[i] == se;
        assert Blocked(other, team)(occ[i]);
      }
    } else {
      var i :| 0 <= i < |occ| && !Blocked(other, team)(occ[i]);
      var se := occ[i];
      OccupantsExact(b, team, se);
      var t :| t in PieceMoves.Moves(other, se.entity.kind, se.sq, team) && Permitted(other, se.sq, t) == Ok(true);
      PieceMoves.MovesOnBoard(other, se.entity.kind, se.sq, team);
      PermittedMeaning(other, se.sq, t);
    }
  }
}
