/** The two move tokens that `execute` hands on whole: castling and promotion. */
module Special {
  import opened Wrappers
  import opened Teams
  import opened Pieces
  import opened Squares
  import opened Boards
  import opened Strings
  import OptSquares
  import Input
  import Rules

  const NO_ROOK := "no Rook to castle with"
  const NO_KING := "no King to castle with"

  /** The back rank of the side to move. */
  function HomeRank(team: Team): (r: nat)
    ensures r < 8
  {
    if team == White then 0 else 7
  }

  /** Short castling unless the token starts with "O-O-O". */
  predicate Short(token: string)
  {
    !StartsWith(token, "O-O-O")
  }

  /** The king's target file, the rook's home file and the rook's target file. */
  function CastleFiles(short: bool): (f: (nat, nat, nat))
    ensures f.0 < 8 && f.1 < 8 && f.2 < 8
  {
    if short then (6, 7, 5) else (2, 0, 3)
  }

  /**
   * `castle`: the side to move needs its rook and its king on their home
   * squares; the king is moved with `translate`, the turn is given back, and
   * the rook is moved with `translate`. The path between them, earlier moves
   * and the castling rights are not looked at; a failing second move leaves
   * the first one made.
   */
  function Castle(b: Board, token: string): (r: (Board, Result<()>))
  {
    var rank := HomeRank(b.turnOrder);
    var (kingFile, rookFrom, rookTo) := CastleFiles(Short(token));
    if b.Find(Squares.New(rank, rookFrom), Some(b.turnOrder), Some(Rook)).None? then (b, Err(Failed(NO_ROOK)))
    else if b.Find(Squares.New(rank, 4), Some(b.turnOrder), Some(King)).None? then (b, Err(Failed(NO_KING)))
    else
      var tmp := b.turnOrder;
      var (b1, r1) := Rules.Translate(b, Squares.New(rank, 4), Squares.New(rank, kingFile));
      if r1.Err? then (b1, Err(r1.error))
      else
        var b2 := b1.(turnOrder := tmp);
        var (b3, r3) := Rules.Translate(b2, Squares.New(rank, rookFrom), Squares.New(rank, rookTo));
        if r3.Err? then (b3, Err(r3.error)) else (b3, Ok(()))
  }

  /** The four squares of castling `short` on `rank`: king home and target, rook home and target. */
  function CastleSquares(rank: nat, short: bool): (s: (Sq, Sq, Sq, Sq))
    requires rank < 8
  {
    var (kingFile, rookFrom, rookTo) := CastleFiles(short);
    (Sq(rank, 4), Sq(rank, kingFile), Sq(rank, rookFrom), Sq(rank, rookTo))
  }

  /** The two refusals of `castle`, which leave the board as it was. */
  lemma CastleRefusals(b: Board, token: string)
    ensures var (_, _, r, _) := CastleSquares(HomeRank(b.turnOrder), Short(token));
      b.Get(r) != Some(Entity(Rook, b.turnOrder)) ==> Castle(b, token) == (b, Err(Failed(NO_ROOK)))
    ensures var (k, _, r, _) := CastleSquares(HomeRank(b.turnOrder), Short(token));
      b.Get(r) == Some(Entity(Rook, b.turnOrder)) && b.Get(k) != Some(Entity(King, b.turnOrder))
      ==> Castle(b, token) == (b, Err(Failed(NO_KING)))
  {
  }

  /**
   * A successful `castle` leaves the king and the rook on their targets and
   * both home squares empty, touches no other square, flips the side to move
   * once, and keeps castling rights, history and the en-passant target.
   */
  lemma CastleEffect(b: Board, token: string)
    requires Castle(b, token).1.Ok?
    ensures var (k, kt, r, rt) := CastleSquares(HomeRank(b.turnOrder), Short(token));
      var a := Castle(b, token).0;
      && a.Get(kt) == Some(Entity(King, b.turnOrder))
      && a.Get(rt) == Some(Entity(Rook, b.turnOrder))
      && a.Get(k).None? && a.Get(r).None?
      && (forall s: Sq :: s != k && s != kt && s != r && s != rt ==> a.Get(s) == b.Get(s))
      && a.turnOrder == b.turnOrder.Not()
      && a.castling == b.castling && a.history == b.history && a.enPassant == b.enPassant
  {
    var rank := HomeRank(b.turnOrder);
    var (k, kt, r, rt) := CastleSquares(rank, Short(token));
    var b1 := Rules.Translate(b, k, kt).0;
    Rules.TranslateOutcome(b, k, kt);
    Rules.TranslateEffect(b, k, kt);
    var b2 := b1.(turnOrder := b.turnOrder);
    Rules.TranslateOutcome(b2, r, rt);
    Rules.TranslateEffect(b2, r, rt);
  }

  /** With both pieces at home and both targets empty, `castle` succeeds. */
  lemma CastleSucceeds(b: Board, token: string)
    requires var (k, kt, r, rt) := CastleSquares(HomeRank(b.turnOrder), Short(token));
      && b.Get(k) == Some(Entity(King, b.turnOrder)) && b.Get(r) == Some(Entity(Rook, b.turnOrder))
      && b.Get(kt).None? && b.Get(rt).None?
    ensures Castle(b, token).1.Ok?
  {
    var rank := HomeRank(b.turnOrder);
    var (k, kt, r, rt) := CastleSquares(rank, Short(token));
    Rules.TranslateOutcome(b, k, kt);
    Rules.TranslateEffect(b, k, kt);
    var b2 := Rules.Translate(b, k, kt).0.(turnOrder := b.turnOrder);
    Rules.TranslateOutcome(b2, r, rt);
  }

  /**
   * As written, both moves of `castle` tick the clocks: with empty targets the
   * half-move clock grows by 2, and a Black castling adds 2 to the full-move
   * number.
   */
  lemma CastleClocksTwice(b: Board, token: string)
    requires var (_, kt, _, rt) := CastleSquares(HomeRank(b.turnOrder), Short(token));
      Castle(b, token).1.Ok? && b.Get(kt).None? && b.Get(rt).None?
    ensures Castle(b, token).0.halfmove == b.halfmove + 2
    ensures Castle(b, token).0.fullmove == if b.turnOrder == Black then b.fullmove + 2 else b.fullmove
  {
    var rank := HomeRank(b.turnOrder);
    var (k, kt, r, rt) := CastleSquares(rank, Short(token));
    Rules.TranslateOutcome(b, k, kt);
    Rules.TranslateEffect(b, k, kt);
    var b2 := Rules.Translate(b, k, kt).0.(turnOrder := b.turnOrder);
    Rules.TranslateOutcome(b2, r, rt);
    Rules.TranslateEffect(b2, r, rt);
  }

  /** `castle` as the source runs it: two `translate` calls with the turn given back between them. */
  method CastleSteps(b: Board, token: string) returns (a: Board, r: Result<()>)
    ensures (a, r) == Castle(b, token)
  {
    var rank := HomeRank(b.turnOrder);
    var (kingFile, rookFrom, rookTo) := CastleFiles(Short(token));
    if b.Find(Squares.New(rank, rookFrom), Some(b.turnOrder), Some(Rook)).None? {
      return b, Err(Failed(NO_ROOK));
    }
    if b.Find(Squares.New(rank, 4), Some(b.turnOrder), Some(King)).None? {
      return b, Err(Failed(NO_KING));
    }
    var tmp := b.turnOrder;
    var step := Rules.Translate(b, Squares.New(rank, 4), Squares.New(rank, kingFile));
    a := step.0;
    if step.1.Err? {
      return a, Err(step.1.error);
    }
    a := a.(turnOrder := tmp);
    step := Rules.Translate(a, Squares.New(rank, rookFrom), Squares.New(rank, rookTo));
    a := step.0;
    if step.1.Err? {
      return a, Err(step.1.error);
    }
    r := Ok(());
  }

  /**
   * Castling as one move: `castle`, with the clocks as the king's move alone
   * leaves them.
   */
  function CastleMove(b: Board, token: string): (r: (Board, Result<()>))
  {
    var (a, res) := Castle(b, token);
    if res.Err? then (a, res)
    else
      var (k, kt, _, _) := CastleSquares(HomeRank(b.turnOrder), Short(token));
      var b1 := Rules.Translate(b, k, kt).0;
      (a.(halfmove := b1.halfmove, fullmove := b1.fullmove), res)
  }

  /**
   * Castling as one move agrees with `castle` on its outcome and on every
   * square, and ticks the clocks once: the half-move clock by 1 (reset by a
   * capture on the king's target), the full-move number by 1 when Black castles.
   */
  lemma CastleMoveClocks(b: Board, token: string)
    ensures CastleMove(b, token).1 == Castle(b, token).1
    ensures forall s :: CastleMove(b, token).0.Get(s) == Castle(b, token).0.Get(s)
    ensures var (_, kt, _, _) := CastleSquares(HomeRank(b.turnOrder), Short(token));
      CastleMove(b, token).1.Ok? ==>
        && CastleMove(b, token).0.halfmove == (if b.Get(kt).Some? then 0 else b.halfmove + 1)
        && CastleMove(b, token).0.fullmove == (if b.turnOrder == Black then b.fullmove + 1 else b.fullmove)
  {
    var rank := HomeRank(b.turnOrder);
    var (k, kt, r, rt) := CastleSquares(rank, Short(token));
    if Castle(b, token).1.Ok? {
      Rules.TranslateOutcome(b, k, kt);
      Rules.TranslateEffect(b, k, kt);
    }
  }

  const PROMOTION_FORMAT := "promotions with check, invalid format"
  const NO_EQUALS := "invalid promotion chars, second to last char must be '='"

  /**
   * The promoted piece: the last character, or the one before it when the
   * last is not a piece letter (a check marker); running out of characters
   * is an unwrap panic.
   */
  function PromotedPiece(chars: string): (r: (string, Result<Piece>))
    ensures |r.0| <= |chars| && r.0 == chars[..|r.0|]
  {
    match Input.Pop(chars)
    case None => ([], Err(Panicked(UNWRAP_NONE)))
    case Some((last, rest)) =>
      match FromChar(last)
      case Some(p) => (rest, Ok(p))
      case None =>
        match Input.Pop(rest)
        case None => ([], Err(Panicked(UNWRAP_NONE)))
        case Some((c, rest')) =>
          match FromChar(c)
          case Some(p) => (rest', Ok(p))
          case None => (rest', Err(Failed(PROMOTION_FORMAT)))
  }

  /**
   * The capture indicator before the target: after an 'x' the next character
   * gives a rank or a file (an unwrap panic when there is none); anything else
   * gives no indicator.
   */
  function CaptureIndicator(chars: string): (r: Result<OptSquares.OptSq>)
  {
    match Input.Pop(chars)
    case None => Ok(OptSquares.New())
    case Some((c, rest)) =>
      if c != 'x' then Ok(OptSquares.New())
      else
        match Input.Pop(rest)
        case None => Err(Panicked(UNWRAP_NONE))
        case Some((n, _)) => Ok(Input.PositionIndicator(n))
  }

  /**
   * The origin of a promotion: the target with the indicated coordinates, and
   * the rank next to the target's when the target is on the last or the first
   * rank.
   */
  function PromotionOrigin(target: Sq, opt: OptSquares.OptSq): (from: Sq)
  {
    var opt := if target.digit == 7 then opt.(digit := Some(6))
      else if target.digit == 0 then opt.(digit := Some(1))
      else opt;
    target.Union(opt)
  }

  /**
   * `promote`: reads the piece, the '=' and the target from the end of the
   * token, then the capture indicator, moves from the origin with `translate`
   * (no test of the mover's own king) and puts the mover's promoted piece on
   * the target.
   */
  function Promote(b: Board, chars: string): (r: (Board, Result<()>))
  {
    var (rest, piece) := PromotedPiece(chars);
    if piece.Err? then (b, Err(piece.error))
    else
      match Input.Pop(rest)
      case None => (b, Err(Panicked(UNWRAP_NONE)))
      case Some((c, rest)) =>
        if c != '=' then (b, Err(Failed(NO_EQUALS)))
        else
          var (rest, target) := Input.CharsToSq(rest);
          if target.Err? then (b, Err(target.error))
          else
            var opt := CaptureIndicator(rest);
            if opt.Err? then (b, Err(opt.error))
            else
              PromoteFrom(b, PromotionOrigin(target.value, opt.value), target.value, piece.value)
  }

  /**
   * `promote` as the source runs it: the characters are consumed from the end
   * of the token, the origin is assembled in an `OptSq`, and the board is
   * changed by `translate` and then `place`.
   */
  method PromoteSteps(b: Board, chars: string) returns (a: Board, r: Result<()>)
    ensures (a, r) == Promote(b, chars)
  {
    var (rest, piece) := PromotedPiece(chars);
    if piece.Err? {
      return b, Err(piece.error);
    }
    var eq := Input.Pop(rest);
    if eq.None? {
      return b, Err(Panicked(UNWRAP_NONE));
    }
    if eq.value.0 != '=' {
      return b, Err(Failed(NO_EQUALS));
    }
    var (before, target) := Input.CharsToSq(eq.value.1);
    if target.Err? {
      return b, Err(target.error);
    }
    var opt := OptSquares.New();
    var next := Input.Pop(before);
    if next.Some? && next.value.0 == 'x' {
      var after := Input.Pop(next.value.1);
      if after.None? {
        return b, Err(Panicked(UNWRAP_NONE));
      }
      opt := Input.PositionIndicator(after.value.0);
    }
    var to := target.value;
    if to.digit == 7 {
      opt := opt.(digit := Some(6));
    } else if to.digit == 0 {
      opt := opt.(digit := Some(1));
    }
    var from := to.Union(opt);
    var turnOrder := b.turnOrder;
    var step := Rules.Translate(b, from, to);
    if step.1.Err? {
      return step.0, Err(step.1.error);
    }
    a := step.0.Place(to, Entity(piece.value, turnOrder));
    r := Ok(());
  }

  /** The move of a promotion: `translate`, then the mover's new piece on the target. */
  function PromoteFrom(b: Board, from: Sq, to: Sq, piece: Piece): (r: (Board, Result<()>))
    requires to.OnBoard()
  {
    var (b1, res) := Rules.Translate(b, from, to);
    if res.Err? then (b1, Err(res.error))
    else (b1.Place(to, Entity(piece, b.turnOrder)), Ok(()))
  }

  /** The capture part of a promotion token: nothing, or an indicator and an 'x'. */
  predicate CapturePart(capture: string)
  {
    capture == [] || (|capture| == 2 && capture[1] == 'x')
  }

  /**
   * A token of the form [indicator 'x'] target '=' piece [marker] promotes
   * from the origin that the target and the indicator give.
   */
  lemma PromotionReads(b: Board, capture: string, t: Sq, p: Piece, m: string)
    requires t.OnBoard() && Input.Marker(m) && CapturePart(capture)
    ensures var opt := if capture == [] then OptSquares.New() else Input.PositionIndicator(capture[0]);
      Promote(b, capture + t.Name() + "=" + p.Letter() + m) == PromoteFrom(b, PromotionOrigin(t, opt), t, p)
  {
    var token := capture + t.Name() + "=" + p.Letter() + m;
    var body := capture + t.Name() + "=";
    LetterRoundTrip(p);
    assert p.Letter() == [p.Letter()[0]];
    if m == [] {
      assert token == body + [p.Letter()[0]];
    } else {
      assert token == (body + [p.Letter()[0]]) + [m[0]];
      assert FromChar(m[0]).None?;
    }
    assert PromotedPiece(token) == (body, Ok(p));
    assert body == (capture + t.Name()) + ['='];
    Input.ReadsSquare(capture, t, "");
    assert capture + t.Name() + "" == capture + t.Name();
    if capture != [] {
      assert capture == [capture[0]] + ['x'];
    }
  }

  /** The refusals of `promote` that leave the board as it was. */
  lemma PromotionRefusals(b: Board, chars: string)
    ensures chars == [] ==> Promote(b, chars) == (b, Err(Panicked(UNWRAP_NONE)))
    ensures |chars| >= 2 && FromChar(chars[|chars| - 1]).None? && FromChar(chars[|chars| - 2]).None?
      ==> Promote(b, chars) == (b, Err(Failed(PROMOTION_FORMAT)))
    ensures |chars| >= 2 && FromChar(chars[|chars| - 1]).Some? && chars[|chars| - 2] != '='
      ==> Promote(b, chars) == (b, Err(Failed(NO_EQUALS)))
  {
  }

  /**
   * A promotion whose move passes `translate` leaves the mover's new piece on
   * the target, empties the origin, keeps every other square but an en-passant
   * victim, flips the side to move and keeps the history; one that does not
   * pass reports the error of `translate`.
   */
  lemma PromotionEffect(b: Board, from: Sq, to: Sq, p: Piece)
    requires to.OnBoard()
    ensures PromoteFrom(b, from, to, p).1.Ok? <==> Rules.Movable(b, from, to)
    ensures var (a, res) := PromoteFrom(b, from, to, p);
      res.Ok? ==>
        && a.Get(to) == Some(Entity(p, b.turnOrder))
        && a.Get(from).None?
        && (forall s: Sq :: s != from && s != to && !(Rules.EnPassantAttempt(b, from, to) && s == Rules.CleanUp(from, to))
              ==> a.Get(s) == b.Get(s))
        && a.turnOrder == b.turnOrder.Not()
        && a.history == b.history
    ensures var (a, res) := PromoteFrom(b, from, to, p);
      res.Err? ==> a == Rules.Translate(b, from, to).0 && res.error == Rules.Translate(b, from, to).1.error
  {
    Rules.TranslateOutcome(b, from, to);
    if Rules.Movable(b, from, to) {
      Rules.TranslateEffect(b, from, to);
    }
  }
}
