/**
 * `execute`: one move token in algebraic notation played on the board.
 * Promotions and castling are handed on whole; any other token is read from
 * its end: the target square, then an optional piece letter, capture mark and
 * up to two rank or file indicators, from which the origin is located. The
 * move is made with the checked commit, and the token's claim about the
 * opponent's king is compared with the board.
 */
module Execute {
  import opened Wrappers
  import opened Teams
  import opened Pieces
  import opened Squares
  import opened Boards
  import opened Strings
  import opened KingStatuses
  import OptSquares
  import Input
  import Rules
  import PieceLocate
  import PawnLocate
  import Special
  import PieceMoves

  /** `EResult`; the source's `EResult::Ok` is `Moved`. */
  datatype EResult = Moved | Stalemate | Checkmate

  const NOTHING_TO_MOVE := "nothing to move"
  const UNEXPECTED_CHECK := "Your move went through, but you checked when not expected to"
  const NO_CHECKMATE := "Your move went through, but your move did not checkmate"
  const NO_CHECK := "Your move went through, but your move did not check"

  /** `locator_from_char`: the located origin of the piece the letter names, for the side to move. */
  function LocatedFromChar(b: Board, to: Sq, from: OptSquares.OptSq, c: char): (r: Option<Sq>)
  {
    match FromChar(c)
    case Some(p) => PieceLocate.Located(b, to, from, b.turnOrder, p)
    case None => None
  }

  /** `pawn::locate` for the side to move. */
  function PawnOrigin(b: Board, to: Sq, from: OptSquares.OptSq): (r: Option<Sq>)
  {
    PieceLocate.Located(b, to, from, b.turnOrder, Pawn)
  }

  /**
   * One indicator step: a character that names no piece is a rank or a file
   * for the disambiguator, and the next character (if any) is read; a piece
   * letter is left for the locate.
   */
  function Indicator(from: OptSquares.OptSq, next: char, rest: string): (r: (OptSquares.OptSq, char, string))
    ensures |r.2| <= |rest|
  {
    if FromChar(next).Some? then (from, next, rest)
    else
      var from := from.Overwrite(Input.PositionIndicator(next));
      match Input.Pop(rest)
      case Some((n, rest')) => (from, n, rest')
      case None => (from, next, rest)
  }

  /**
   * The origin of a plain move with target `to`, from the characters in front
   * of the target: a piece letter right before it is located at once; else a
   * capture mark is skipped (an unwrap panic when nothing precedes it), up to
   * two indicators are read, and the piece letter then reached is located.
   * The last step is `last(from, next)`: the as-written search falls back to
   * a pawn whatever `next` is, the corrected one only when `next` names no piece.
   */
  function Search(b: Board, to: Sq, chars: string, last: (OptSquares.OptSq, char) -> Option<Sq>): (r: Result<Option<Sq>>)
  {
    match Input.Pop(chars)
    case None => Ok(PawnOrigin(b, to, OptSquares.New()))
    case Some((next, rest)) =>
      if LocatedFromChar(b, to, OptSquares.New(), next).Some? then Ok(LocatedFromChar(b, to, OptSquares.New(), next))
      else if next == 'x' && rest == [] then Err(Panicked(UNWRAP_NONE))
      else
        var (next, rest) := if next == 'x' then (rest[|rest| - 1], rest[..|rest| - 1]) else (next, rest);
        var (from, next, rest) := Indicator(OptSquares.New(), next, rest);
        var (from, next, _) := Indicator(from, next, rest);
        Ok(last(from, next))
  }

  /** The last step as written: the named piece, else a pawn. */
  function LastAsWritten(b: Board, to: Sq): (f: (OptSquares.OptSq, char) -> Option<Sq>)
  {
    (from, next) => match LocatedFromChar(b, to, from, next)
      case Some(s) => Some(s)
      case None => PawnOrigin(b, to, from)
  }

  /** The last step corrected: the named piece; a pawn only when no piece is named. */
  function LastCorrected(b: Board, to: Sq): (f: (OptSquares.OptSq, char) -> Option<Sq>)
  {
    (from, next) => if FromChar(next).Some? then LocatedFromChar(b, to, from, next) else PawnOrigin(b, to, from)
  }

  /** The origin search of `execute` as written. */
  function OriginAsWritten(b: Board, to: Sq, chars: string): (r: Result<Option<Sq>>)
  {
    Search(b, to, chars, LastAsWritten(b, to))
  }

  /** The origin search with a named piece never replaced by a pawn. */
  function OriginCorrected(b: Board, to: Sq, chars: string): (r: Result<Option<Sq>>)
  {
    Search(b, to, chars, LastCorrected(b, to))
  }

  /**
   * The comparison of the token's claim with the board after the move: a
   * claimed check or mate must hold, an unclaimed check is refused, and a
   * quiet move that leaves the opponent without a permitted move is a
   * stalemate. The move has been made in every case.
   */
  function Verdict(a: Board, status: KingStatus): (r: Result<EResult>)
  {
    var checked := Rules.Checked(a, a.turnOrder);
    match status
    case Safe =>
      if checked then Err(Failed(UNEXPECTED_CHECK))
      else if Rules.Stuck(a, a.turnOrder) then Ok(Stalemate)
      else Ok(Moved)
    case Mate =>
      if !checked || !Rules.Stuck(a, a.turnOrder) then Err(Failed(NO_CHECKMATE)) else Ok(Moved)
    case Check =>
      if !checked then Err(Failed(NO_CHECK)) else Ok(Moved)
  }

  /** The result of a special move, lifted to `execute`'s result. */
  function Lift(r: (Board, Result<()>)): (e: (Board, Result<EResult>))
    ensures e.0 == r.0
    ensures e.1.Ok? <==> r.1.Ok?
    ensures e.1.Ok? ==> e.1.value == Moved
    ensures e.1.Err? ==> e.1.error == r.1.error
  {
    if r.1.Err? then (r.0, Err(r.1.error)) else (r.0, Ok(Moved))
  }

  /** The outcome of a commit, followed by the verdict when the commit went through. */
  function Settle(made: (Board, Result<()>), status: KingStatus): (r: (Board, Result<EResult>))
  {
    var (a, res) := made;
    if res.Err? then (a, Err(res.error)) else (a, Verdict(a, status))
  }

  /** The move found by the origin search, made with `checked_translate` as written, and the verdict on it. */
  function Play(b: Board, to: Sq, origin: Result<Option<Sq>>, status: KingStatus): (r: (Board, Result<EResult>))
  {
    match origin
    case Err(e) => (b, Err(e))
    case Ok(None) => (b, Err(Failed(NOTHING_TO_MOVE)))
    case Ok(Some(from)) => Settle(Rules.CommitAsWritten(b, from, to), status)
  }

  /** `Play` with the corrected commit, which also copies the full-move number back. */
  function PlayCorrected(b: Board, to: Sq, origin: Result<Option<Sq>>, status: KingStatus): (r: (Board, Result<EResult>))
  {
    match origin
    case Err(e) => (b, Err(e))
    case Ok(None) => (b, Err(Failed(NOTHING_TO_MOVE)))
    case Ok(Some(from)) => Settle(Rules.Commit(b, from, to), status)
  }

  /** `execute` on a plain move token: target, origin, checked commit, verdict. */
  function PlainMove(b: Board, token: string): (r: (Board, Result<EResult>))
  {
    var (rest, target) := Input.CharsToSq(token);
    if target.Err? then (b, Err(target.error))
    else Play(b, target.value, OriginAsWritten(b, target.value, rest), FromToken(token))
  }

  /** A plain move with the corrected origin search and the corrected commit. */
  function PlainMoveCorrected(b: Board, token: string): (r: (Board, Result<EResult>))
  {
    var (rest, target) := Input.CharsToSq(token);
    if target.Err? then (b, Err(target.error))
    else PlayCorrected(b, target.value, OriginCorrected(b, target.value, rest), FromToken(token))
  }

  /**
   * `execute`: a token containing '=' is a promotion and one starting with
   * "O-O" a castling (two translates, each counted on the clocks); every
   * other token is a plain move.
   */
  function Execute(b: Board, token: string): (r: (Board, Result<EResult>))
  {
    if '=' in token then Lift(Special.Promote(b, token))
    else if StartsWith(token, "O-O") then Lift(Special.Castle(b, token))
    else PlainMove(b, token)
  }

  /**
   * `execute` with the three corrections: a castling counted as one move, a
   * named piece never replaced by a pawn, and the full-move number committed.
   */
  function ExecuteCorrected(b: Board, token: string): (r: (Board, Result<EResult>))
  {
    if '=' in token then Lift(Special.Promote(b, token))
    else if StartsWith(token, "O-O") then Lift(Special.CastleMove(b, token))
    else PlainMoveCorrected(b, token)
  }

  /** The indicator step of the source, as a method. */
  method ReadIndicator(from: OptSquares.OptSq, next: char, rest: string) returns (r: (OptSquares.OptSq, char, string))
    ensures r == Indicator(from, next, rest)
  {
    r := (from, next, rest);
    if FromChar(next).None? {
      var from' := from.Overwrite(Input.PositionIndicator(next));
      var nextAfter := Input.Pop(rest);
      r := (from', next, rest);
      if nextAfter.Some? {
        r := (from', nextAfter.value.0, nextAfter.value.1);
      }
    }
  }

  /** The locate part of `execute`, calling the locate methods. */
  method FindOrigin(b: Board, to: Sq, chars: string) returns (r: Result<Option<Sq>>)
    ensures r == OriginAsWritten(b, to, chars)
  {
    var first := Input.Pop(chars);
    if first.None? {
      var s := PawnLocate.Locate(b, to, OptSquares.New(), b.turnOrder, Pawn);
      return Ok(s);
    }
    var (next, rest) := first.value;
    var hold := PieceLocate.LocatorFromChar(b, to, OptSquares.New(), next);
    if hold.Some? {
      return Ok(hold);
    }
    if next == 'x' {
      var taken := Input.Pop(rest);
      if taken.None? {
        return Err(Panicked(UNWRAP_NONE));
      }
      next, rest := taken.value.0, taken.value.1;
    }
    var from := OptSquares.New();
    var step := ReadIndicator(from, next, rest);
    from, next, rest := step.0, step.1, step.2;
    step := ReadIndicator(from, next, rest);
    from, next, rest := step.0, step.1, step.2;
    hold := PieceLocate.LocatorFromChar(b, to, from, next);
    if hold.Some? {
      r := Ok(hold);
    } else {
      var s := PawnLocate.Locate(b, to, from, b.turnOrder, Pawn);
      r := Ok(s);
    }
    assert r == Ok(LastAsWritten(b, to)(from, next));
  }

  /** The verdict part of `execute`, calling `in_check`, `stalemate` and `check_mate`. */
  method Judge(a: Board, status: KingStatus) returns (r: Result<EResult>)
    ensures r == Verdict(a, status)
  {
    var checked := Rules.InCheck(a, a.turnOrder);
    match status {
      case Safe =>
        if checked {
          return Err(Failed(UNEXPECTED_CHECK));
        }
        var stale := Rules.Stalemate(a, a.turnOrder);
        r := if stale then Ok(Stalemate) else Ok(Moved);
      case Mate =>
        var mate := false;
        if checked {
          mate := Rules.CheckMate(a, a.turnOrder);
        }
        r := if !checked || !mate then Err(Failed(NO_CHECKMATE)) else Ok(Moved);
      case Check =>
        r := if !checked then Err(Failed(NO_CHECK)) else Ok(Moved);
    }
  }

  /** `execute` as the source runs it, returning the board after the call and the result. */
  method Run(b: Board, token: string) returns (a: Board, r: Result<EResult>)
    ensures (a, r) == Execute(b, token)
  {
    if '=' in token {
      var res;
      a, res := Special.PromoteSteps(b, token);
      r := Lift((a, res)).1;
      return;
    } else if StartsWith(token, "O-O") {
      var res;
      a, res := Special.CastleSteps(b, token);
      r := Lift((a, res)).1;
      return;
    }
    var (rest, target) := Input.CharsToSq(token);
    if target.Err? {
      return b, Err(target.error);
    }
    var hold := FindOrigin(b, target.value, rest);
    if hold.Err? {
      return b, Err(hold.error);
    }
    if hold.value.None? {
      return b, Err(Failed(NOTHING_TO_MOVE));
    }
    var res;
    a, res := Rules.CheckedTranslate(b, hold.value.value, target.value);
    if res.Err? {
      return a, Err(res.error);
    }
    r := Judge(a, FromToken(token));
  }

  /** A token that is neither a promotion nor a castling. */
  predicate Plain(token: string)
  {
    '=' !in token && !StartsWith(token, "O-O")
  }

  /** The move `execute` made: a piece of the side to move, a generated destination, a passed commit. */
  predicate MadeMove(b: Board, from: Sq, to: Sq)
  {
    && b.Get(from).Some? && b.Get(from).value.team == b.turnOrder
    && to in PieceMoves.Moves(b, b.Get(from).value.kind, from, b.turnOrder)
    && Rules.CommitAsWritten(b, from, to).1.Ok?
  }

  /** What the search locates is a piece of the side to move that can reach the target. */
  lemma LocatedFromCharSound(b: Board, to: Sq, from: OptSquares.OptSq, c: char)
    requires LocatedFromChar(b, to, from, c).Some?
    ensures var s := LocatedFromChar(b, to, from, c).value;
      && b.Get(s) == Some(Entity(FromChar(c).value, b.turnOrder))
      && to in PieceMoves.Moves(b, FromChar(c).value, s, b.turnOrder)
  {
    PieceLocate.LocatedSound(b, to, from, b.turnOrder, FromChar(c).value);
  }

  /** A square holding a piece of the side to move whose generator reaches `to`. */
  predicate Reaches(b: Board, s: Sq, to: Sq)
  {
    b.Get(s).Some? && b.Get(s).value.team == b.turnOrder
    && to in PieceMoves.Moves(b, b.Get(s).value.kind, s, b.turnOrder)
  }

  /** A search whose last step locates a named piece or a pawn finds only origins that reach the target. */
  lemma SearchSound(b: Board, to: Sq, chars: string, last: (OptSquares.OptSq, char) -> Option<Sq>)
    requires forall from, c :: last(from, c) == LocatedFromChar(b, to, from, c) || last(from, c) == PawnOrigin(b, to, from)
    requires Search(b, to, chars, last).Ok? && Search(b, to, chars, last).value.Some?
    ensures Reaches(b, Search(b, to, chars, last).value.value, to)
  {
    match Input.Pop(chars)
    case None =>
      PieceLocate.LocatedSound(b, to, OptSquares.New(), b.turnOrder, Pawn);
    case Some((next, rest)) =>
      if LocatedFromChar(b, to, OptSquares.New(), next).Some? {
        LocatedFromCharSound(b, to, OptSquares.New(), next);
      } else {
        var (c1, rest1) := if next == 'x' then (rest[|rest| - 1], rest[..|rest| - 1]) else (next, rest);
        var (from2, c2, rest2) := Indicator(OptSquares.New(), c1, rest1);
        var (from3, c3, _) := Indicator(from2, c2, rest2);
        if last(from3, c3) == LocatedFromChar(b, to, from3, c3) {
          LocatedFromCharSound(b, to, from3, c3);
        } else {
          PieceLocate.LocatedSound(b, to, from3, b.turnOrder, Pawn);
        }
      }
  }

  /** Every origin the search of `execute` finds holds a piece of the side to move that can reach the target. */
  lemma OriginSound(b: Board, to: Sq, chars: string)
    requires OriginAsWritten(b, to, chars).Ok? && OriginAsWritten(b, to, chars).value.Some?
    ensures Reaches(b, OriginAsWritten(b, to, chars).value.value, to)
  {
    SearchSound(b, to, chars, LastAsWritten(b, to));
  }

  /** The same for the corrected search. */
  lemma OriginCorrectedSound(b: Board, to: Sq, chars: string)
    requires OriginCorrected(b, to, chars).Ok? && OriginCorrected(b, to, chars).value.Some?
    ensures Reaches(b, OriginCorrected(b, to, chars).value.value, to)
  {
    SearchSound(b, to, chars, LastCorrected(b, to));
  }

  /**
   * As written, a piece letter right before the target that locates no such
   * piece falls back to a pawn: the token names one piece and moves another.
   */
  lemma NamedPieceAsWritten(b: Board, to: Sq, p: Piece, pre: string)
    requires p != Pawn && PieceLocate.Located(b, to, OptSquares.New(), b.turnOrder, p).None?
    ensures OriginAsWritten(b, to, pre + p.Letter()) == Ok(PawnOrigin(b, to, OptSquares.New()))
    ensures PawnOrigin(b, to, OptSquares.New()).Some? ==>
      b.Get(PawnOrigin(b, to, OptSquares.New()).value) == Some(Entity(Pawn, b.turnOrder))
  {
    LetterRoundTrip(p);
    var l := p.Letter()[0];
    assert pre + p.Letter() == pre + [l];
    assert LastAsWritten(b, to)(OptSquares.New(), l) == PawnOrigin(b, to, OptSquares.New());
    PawnOriginSound(b, to, OptSquares.New());
  }

  /** What the pawn search finds is a pawn of the side to move. */
  lemma PawnOriginSound(b: Board, to: Sq, from: OptSquares.OptSq)
    ensures PawnOrigin(b, to, from).Some? ==> b.Get(PawnOrigin(b, to, from).value) == Some(Entity(Pawn, b.turnOrder))
  {
    if PawnOrigin(b, to, from).Some? {
      PieceLocate.LocatedSound(b, to, from, b.turnOrder, Pawn);
    }
  }

  /**
   * Corrected, a piece letter right before the target moves that piece or
   * nothing: the origin is the piece's own located origin.
   */
  lemma NamedPiece(b: Board, to: Sq, p: Piece, pre: string)
    ensures OriginCorrected(b, to, pre + p.Letter()) == Ok(PieceLocate.Located(b, to, OptSquares.New(), b.turnOrder, p))
    ensures OriginCorrected(b, to, pre + p.Letter()).value.Some? ==>
      b.Get(OriginCorrected(b, to, pre + p.Letter()).value.value) == Some(Entity(p, b.turnOrder))
  {
    LetterRoundTrip(p);
    assert pre + p.Letter() == pre + [p.Letter()[0]];
    if PieceLocate.Located(b, to, OptSquares.New(), b.turnOrder, p).Some? {
      PieceLocate.LocatedSound(b, to, OptSquares.New(), b.turnOrder, p);
    }
  }

  /**
   * A disambiguated or capturing move: the piece letter, then a file or rank
   * indicator or a capture mark (or both, in that order), then the target.
   * The piece is located with the indicated coordinate; as written, when it
   * is not found a pawn is looked for with the same coordinate.
   */
  lemma IndicatedPiece(b: Board, to: Sq, p: Piece, pre: string, c: char, x: string)
    requires FromChar(c).None? && c != 'x' && (x == [] || x == ['x'])
    ensures var located := PieceLocate.Located(b, to, Input.PositionIndicator(c), b.turnOrder, p);
      OriginAsWritten(b, to, pre + p.Letter() + [c] + x) ==
        Ok(if located.Some? then located else PawnOrigin(b, to, Input.PositionIndicator(c)))
    ensures OriginCorrected(b, to, pre + p.Letter() + [c] + x) ==
      Ok(PieceLocate.Located(b, to, Input.PositionIndicator(c), b.turnOrder, p))
  {
    LetterRoundTrip(p);
    var chars := pre + p.Letter() + [c] + x;
    assert pre + p.Letter() == pre + [p.Letter()[0]];
    if x == [] {
      assert chars == (pre + p.Letter()) + [c];
      assert Input.Pop(chars) == Some((c, pre + p.Letter()));
    } else {
      assert Input.Pop(chars) == Some(('x', pre + p.Letter() + [c]));
      assert Input.Pop(pre + p.Letter() + [c]) == Some((c, pre + p.Letter()));
    }
    OptSquares.OverwriteNew(Input.PositionIndicator(c));
  }

  /** A pawn capture: a file letter, the capture mark, then the target; both searches agree. */
  lemma PawnCapture(b: Board, to: Sq, f: char)
    requires 'a' <= f <= 'h'
    ensures OriginAsWritten(b, to, [f, 'x']) == Ok(PawnOrigin(b, to, Input.PositionIndicator(f)))
    ensures OriginCorrected(b, to, [f, 'x']) == Ok(PawnOrigin(b, to, Input.PositionIndicator(f)))
  {
    assert FromChar('x').None? && FromChar(f).None?;
    assert [f, 'x'][..1] == [f];
    OptSquares.OverwriteNew(Input.PositionIndicator(f));
    OptSquares.OverwriteIdempotent(OptSquares.New(), Input.PositionIndicator(f));
  }

  /**
   * A plain token is read as its parts: the target square at its end, the
   * characters in front of it for the origin search, and the check or mate
   * marker for the claim.
   */
  lemma ReadsPlain(b: Board, pre: string, t: Sq, m: string)
    requires t.OnBoard() && Input.Marker(m)
    requires '=' !in pre && '+' !in pre && '#' !in pre && (pre == [] || pre[0] != 'O')
    ensures Plain(pre + t.Name() + m)
    ensures Execute(b, pre + t.Name() + m) == Play(b, t, OriginAsWritten(b, t, pre), FromToken(m))
    ensures ExecuteCorrected(b, pre + t.Name() + m) == PlayCorrected(b, t, OriginCorrected(b, t, pre), FromToken(m))
  {
    PlainToken(pre, t, m);
  }

  /** The parts of a plain token, read without a board. */
  lemma PlainToken(pre: string, t: Sq, m: string)
    requires t.OnBoard() && Input.Marker(m)
    requires '=' !in pre && '+' !in pre && '#' !in pre && (pre == [] || pre[0] != 'O')
    ensures Plain(pre + t.Name() + m)
    ensures Input.CharsToSq(pre + t.Name() + m) == (pre, Ok(t))
    ensures FromToken(pre + t.Name() + m) == FromToken(m)
  {
    var token := pre + t.Name() + m;
    Input.ReadsSquare(pre, t, m);
    assert 'a' <= t.FileChar() <= 'h';
    assert t.Name() == [t.FileChar()] + [DigitChar(t.digit + 1)];
    assert forall c :: c in token <==> c in pre || c in t.Name() || c in m;
    assert '=' !in token;
    assert token[0] != 'O';
    OtherTextIrrelevant(m, pre + t.Name(), []);
    assert pre + t.Name() + m + [] == token;
  }

  /** The claim of the token about the opponent's king, held against the board `a` after the move. */
  predicate ClaimHolds(a: Board, status: KingStatus, r: EResult)
  {
    && (status == Safe ==>
          !Rules.Checked(a, a.turnOrder) && (r == Stalemate <==> Rules.Stuck(a, a.turnOrder)))
    && (status == Check ==> Rules.Checked(a, a.turnOrder))
    && (status == Mate ==> Rules.Checked(a, a.turnOrder) && Rules.Stuck(a, a.turnOrder))
  }

  /**
   * An accepted plain token made a move of the side to move, the board after
   * it is the one `checked_translate` leaves, and its claim about the
   * opponent's king holds there; a quiet move is reported as a stalemate
   * exactly when the opponent has no permitted move. `execute` never
   * reports a checkmate.
   */
  lemma ClaimsHold(b: Board, token: string)
    ensures Execute(b, token).1 != Ok(EResult.Checkmate)
    ensures var (a, r) := Execute(b, token);
      Plain(token) && r.Ok? ==>
        && (exists from: Sq :: MadeMove(b, from, Input.CharsToSq(token).1.value)
              && a == Rules.CommitAsWritten(b, from, Input.CharsToSq(token).1.value).0)
        && ClaimHolds(a, FromToken(token), r.value)
  {
    var (a, r) := Execute(b, token);
    if Plain(token) && r.Ok? {
      var (rest, target) := Input.CharsToSq(token);
      var from := OriginAsWritten(b, target.value, rest).value.value;
      OriginSound(b, target.value, rest);
      assert MadeMove(b, from, target.value);
    }
  }

  /** The same for the corrected `execute`, whose board after the move is the corrected commit's. */
  lemma ClaimsHoldCorrected(b: Board, token: string)
    ensures ExecuteCorrected(b, token).1 != Ok(EResult.Checkmate)
    ensures var (a, r) := ExecuteCorrected(b, token);
      Plain(token) && r.Ok? ==>
        && (exists from: Sq :: MadeMove(b, from, Input.CharsToSq(token).1.value)
              && a == Rules.Commit(b, from, Input.CharsToSq(token).1.value).0)
        && ClaimHolds(a, FromToken(token), r.value)
  {
    var (a, r) := ExecuteCorrected(b, token);
    if Plain(token) && r.Ok? {
      var (rest, target) := Input.CharsToSq(token);
      var from := OriginCorrected(b, target.value, rest).value.value;
      OriginCorrectedSound(b, target.value, rest);
      assert MadeMove(b, from, target.value);
    }
  }

  /**
   * The refusals that leave the board as it was: an unreadable target, a
   * panic in the search, nothing located, a commit that is rejected; after a
   * commit the board is the one `checked_translate` leaves, whatever the verdict.
   */
  lemma RefusalsKeepBoard(b: Board, to: Sq, origin: Result<Option<Sq>>, status: KingStatus)
    ensures origin.Err? ==> Play(b, to, origin, status) == (b, Err(origin.error))
    ensures origin == Ok(None) ==> Play(b, to, origin, status) == (b, Err(Failed(NOTHING_TO_MOVE)))
    ensures origin.Ok? && origin.value.Some? && Rules.CommitAsWritten(b, origin.value.value, to).1.Err? ==>
      Play(b, to, origin, status) == (b, Err(Rules.CommitAsWritten(b, origin.value.value, to).1.error))
    ensures origin.Ok? && origin.value.Some? && Rules.CommitAsWritten(b, origin.value.value, to).1.Ok? ==>
      Play(b, to, origin, status).0 == Rules.CommitAsWritten(b, origin.value.value, to).0
  {
    if origin.Ok? && origin.value.Some? && Rules.CommitAsWritten(b, origin.value.value, to).1.Err? {
      Rules.CommitFailure(b, origin.value.value, to);
    }
  }
}
