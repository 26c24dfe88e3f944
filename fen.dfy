/**
 * Forsyth-Edwards Notation (section 16.1 of the PGN Standard): `Board::fen`
 * and `impl TryFrom<String> for Board`. A record holds six fields separated
 * by single spaces: the placement (ranks 8 down to 1, '/' between them, runs
 * of empty squares as digits), the side to move, castling rights, the
 * en-passant target, the half-move clock and the full-move number.
 */
module Fen {
  import opened Wrappers
  import opened Teams
  import opened Pieces
  import opened Squares
  import opened Boards
  import opened Strings
  import Castlings
  import Histories

  /** The FEN letter of a piece: the kind's one-letter label, lower-cased for Black. */
  function Symbol(e: Entity): (c: char)
  {
    if e.team == White then e.kind.Letter()[0] else LowerChar(e.kind.Letter()[0])
  }

  /** The text `fen` pushes for a piece. */
  function EntityText(e: Entity): (r: string)
    ensures |r| == 1
  {
    [Symbol(e)]
  }

  /**
   * `impl From<char> for Entity` (its body is not part of this model): the
   * piece of either case, White for an upper-case letter and Black for a
   * lower-case one; any other letter panics.
   */
  function EntityFromChar(c: char): (r: Result<Entity>)
    ensures r.Ok? <==> c in "BKRPQNbkrpqn"
  {
    match FromAnyCase(c)
    case Ok(p) => Ok(Entity(p, if 'a' <= c <= 'z' then Black else White))
    case Err(e) => Err(e)
  }

  /** Pending empty squares, written as their count. */
  function Run(n: nat): (r: string)
  {
    if n > 0 then NatToString(n) else ""
  }

  /** The text of the cells of one rank, `run` empty squares being pending before them. */
  function RowText(cells: seq<Cell>, run: nat): (r: string)
    decreases |cells|
  {
    if cells == [] then Run(run)
    else
      match cells[0]
      case Some(e) => Run(run) + EntityText(e) + RowText(cells[1..], 0)
      case None => RowText(cells[1..], run + 1)
  }

  /** The ranks below `rank`, from `rank - 1` down to 0, with '/' after every rank but rank 0. */
  function RanksText(g: Grid, rank: nat): (r: string)
    requires rank <= 8
  {
    if rank == 0 then ""
    else if rank == 1 then RowText(g[0], 0)
    else (RowText(g[rank - 1], 0) + "/") + RanksText(g, rank - 1)
  }

  /** The en-passant field: "-" or the square's name. */
  function EnPassantText(ep: Option<Sq>): (r: string)
    requires ep.Some? ==> ep.value.letter % 256 <= 158
  {
    match ep
    case None => "-"
    case Some(sq) => sq.Display()
  }

  /** A board whose en-passant square prints without overflowing the `u8` file character. */
  predicate Printable(b: Board)
  {
    b.enPassant.Some? ==> b.enPassant.value.letter % 256 <= 158
  }

  /** The six fields of the record. */
  function Fields(b: Board): (r: seq<string>)
    requires Printable(b)
  {
    [RanksText(b.grid, 8), ToLower(b.Turn().Abrev()), b.castling.FenField(),
     EnPassantText(b.enPassant), NatToString(b.halfmove), NatToString(b.fullmove)]
  }

  /** `Board::fen`: the fields joined by single spaces. */
  function FenText(b: Board): (r: string)
    requires Printable(b)
  {
    Join(Fields(b), ' ')
  }

  /** One step of a rank's text: a piece flushes the pending run, an empty square extends it. */
  lemma RowStep(cells: seq<Cell>, file: nat, run: nat)
    requires file < |cells|
    ensures RowText(cells[file..], run) ==
      if cells[file].Some? then Run(run) + EntityText(cells[file].value) + RowText(cells[file + 1..], 0)
      else RowText(cells[file + 1..], run + 1)
  {
    assert cells[file..][1..] == cells[file + 1..];
  }

  /** `find` without filters reads the cell. */
  lemma FindAny(b: Board, rank: nat, file: nat)
    requires rank < 8 && file < 8
    ensures b.Find(Squares.New(rank, file), None, None) == b.grid[rank][file]
  {
  }

  /** One rank's text, built square by square with a run counter. */
  method RankFen(b: Board, rank: nat) returns (s: string)
    requires rank < 8
    ensures s == RowText(b.grid[rank], 0)
  {
    s := "";
    var run: nat := 0;
    ghost var cells := b.grid[rank];
    for file := 0 to 8
      invariant run <= file
      invariant s + RowText(cells[file..], run) == RowText(cells, 0)
    {
      RowStep(cells, file, run);
      var found := b.Find(Squares.New(rank, file), None, None);
      FindAny(b, rank, file);
      if found.Some? {
        s := s + Run(run);
        run := 0;
        s := s + EntityText(found.value);
      } else {
        run := run + 1;
      }
    }
    assert cells[8..] == [];
    s := s + Run(run);
  }

  /** `Board::fen` as the source builds it: ranks 7 down to 0, then the other fields. */
  method Encode(b: Board) returns (res: string)
    requires Printable(b)
    ensures res == FenText(b)
  {
    res := "";
    var rank := 8;
    while rank > 0
      invariant rank <= 8
      invariant res + RanksText(b.grid, rank) == RanksText(b.grid, 8)
    {
      rank := rank - 1;
      var text := RankFen(b, rank);
      res := res + text;
      if rank != 0 {
        res := res + "/";
      }
    }
    assert res + "" == res;
    ghost var f := Fields(b);
    assert res == f[0];
    res := res + " " + ToLower(b.Turn().Abrev()) + " " + b.castling.FenField() + " ";
    res := res + EnPassantText(b.enPassant);
    res := res + " " + NatToString(b.halfmove) + " " + NatToString(b.fullmove);
    assert res == f[0] + " " + f[1] + " " + f[2] + " " + f[3] + " " + f[4] + " " + f[5];
    Join6(f, ' ');
  }

  /** Six fields joined by a separator. */
  lemma Join6(f: seq<string>, sep: char)
    requires |f| == 6
    ensures Join(f, sep) == f[0] + [sep] + f[1] + [sep] + f[2] + [sep] + f[3] + [sep] + f[4] + [sep] + f[5]
  {
    assert f[5..][1..] == [];
    assert f[4..][1..] == f[5..];
    assert f[3..][1..] == f[4..];
    assert f[2..][1..] == f[3..];
    assert f[1..][1..] == f[2..];
    var j5 := Join(f[5..], sep);
    var j4 := Join(f[4..], sep);
    var j3 := Join(f[3..], sep);
    var j2 := Join(f[2..], sep);
    var j1 := Join(f[1..], sep);
    assert j5 == f[5];
    assert j4 == f[4] + [sep] + j5;
    assert j3 == f[3] + [sep] + j4;
    assert j2 == f[2] + [sep] + j3;
    assert j1 == f[1] + [sep] + j2;
  }

  /** The FEN symbols of the pieces. */
  lemma Symbols()
    ensures Symbol(Entity(Rook, White)) == 'R' && Symbol(Entity(Rook, Black)) == 'r'
    ensures Symbol(Entity(Knight, White)) == 'N' && Symbol(Entity(Knight, Black)) == 'n'
    ensures Symbol(Entity(Bishop, White)) == 'B' && Symbol(Entity(Bishop, Black)) == 'b'
    ensures Symbol(Entity(Queen, White)) == 'Q' && Symbol(Entity(Queen, Black)) == 'q'
    ensures Symbol(Entity(King, White)) == 'K' && Symbol(Entity(King, Black)) == 'k'
    ensures Symbol(Entity(Pawn, White)) == 'P' && Symbol(Entity(Pawn, Black)) == 'p'
  {
  }

  /** A rank with a piece on every square is the eight symbols. */
  lemma FullRow(row: seq<Cell>)
    requires |row| == 8 && forall f :: 0 <= f < 8 ==> row[f].Some?
    ensures RowText(row, 0) ==
      [Symbol(row[0].value), Symbol(row[1].value), Symbol(row[2].value), Symbol(row[3].value),
       Symbol(row[4].value), Symbol(row[5].value), Symbol(row[6].value), Symbol(row[7].value)]
  {
    assert row[8..] == [];
    RowStep(row, 7, 0);
    RowStep(row, 6, 0);
    RowStep(row, 5, 0);
    RowStep(row, 4, 0);
    RowStep(row, 3, 0);
    RowStep(row, 2, 0);
    RowStep(row, 1, 0);
    RowStep(row, 0, 0);
    assert row[0..] == row;
  }

  /** An empty rank. */
  lemma EmptyRow()
    ensures RowText(EMPTY_ROW, 0) == "8"
  {
  }

  /** Home ranks of the initial position: rook, knight, bishop, queen, king, bishop, knight, rook. */
  lemma HomeRow(d: nat, t: Team)
    requires (d == 0 && t == White) || (d == 7 && t == Black)
    ensures RowText(Starting().grid[d], 0) ==
      [Symbol(Entity(Rook, t)), Symbol(Entity(Knight, t)), Symbol(Entity(Bishop, t)), Symbol(Entity(Queen, t)),
       Symbol(Entity(King, t)), Symbol(Entity(Bishop, t)), Symbol(Entity(Knight, t)), Symbol(Entity(Rook, t))]
  {
    var r := Starting().grid[d];
    assert r[0] == Some(Entity(Rook, t)) && r[1] == Some(Entity(Knight, t));
    assert r[2] == Some(Entity(Bishop, t)) && r[3] == Some(Entity(Queen, t));
    assert r[4] == Some(Entity(King, t)) && r[5] == Some(Entity(Bishop, t));
    assert r[6] == Some(Entity(Knight, t)) && r[7] == Some(Entity(Rook, t));
    FullRow(r);
  }

  /** Pawn ranks of the initial position. */
  lemma PawnRow(d: nat, t: Team)
    requires (d == 1 && t == White) || (d == 6 && t == Black)
    ensures var p := Symbol(Entity(Pawn, t));
      RowText(Starting().grid[d], 0) == [p, p, p, p, p, p, p, p]
  {
    var r := Starting().grid[d];
    assert forall f :: 0 <= f < 8 ==> r[f] == Some(Entity(Pawn, t));
    FullRow(r);
  }

  /** The rank texts of the initial position. */
  lemma StartingRows()
    ensures RowText(Starting().grid[7], 0) == "rnbqkbnr" && RowText(Starting().grid[0], 0) == "RNBQKBNR"
    ensures RowText(Starting().grid[6], 0) == "pppppppp" && RowText(Starting().grid[1], 0) == "PPPPPPPP"
    ensures forall d :: 2 <= d < 6 ==> RowText(Starting().grid[d], 0) == "8"
  {
    Symbols();
    HomeRow(0, White);
    HomeRow(7, Black);
    PawnRow(1, White);
    PawnRow(6, Black);
    EmptyRow();
    forall d | 2 <= d < 6
      ensures RowText(Starting().grid[d], 0) == "8"
    {
      assert Starting().grid[d] == EMPTY_ROW;
    }
  }

  /** The placement field spelled out rank by rank. */
  lemma RanksUnfold(g: Grid)
    ensures RanksText(g, 8) ==
      (RowText(g[7], 0) + "/") + ((RowText(g[6], 0) + "/") + ((RowText(g[5], 0) + "/") + ((RowText(g[4], 0) + "/") +
      ((RowText(g[3], 0) + "/") + ((RowText(g[2], 0) + "/") + ((RowText(g[1], 0) + "/") + RowText(g[0], 0)))))))
  {
    assert RanksText(g, 2) == (RowText(g[1], 0) + "/") + RanksText(g, 1);
    assert RanksText(g, 3) == (RowText(g[2], 0) + "/") + RanksText(g, 2);
    assert RanksText(g, 4) == (RowText(g[3], 0) + "/") + RanksText(g, 3);
    assert RanksText(g, 5) == (RowText(g[4], 0) + "/") + RanksText(g, 4);
    assert RanksText(g, 6) == (RowText(g[5], 0) + "/") + RanksText(g, 5);
    assert RanksText(g, 7) == (RowText(g[6], 0) + "/") + RanksText(g, 6);
  }

  /** Regrouping the ranks of the placement field. */
  lemma Regroup(r7: string, r6: string, r5: string, r4: string, r3: string, r2: string, r1: string, r0: string)
    ensures (r7 + "/") + ((r6 + "/") + ((r5 + "/") + ((r4 + "/") + ((r3 + "/") + ((r2 + "/") + ((r1 + "/") + r0))))))
      == r7 + "/" + r6 + "/" + r5 + "/" + r4 + "/" + r3 + "/" + r2 + "/" + r1 + "/" + r0
  {
  }

  /** The placement field of the initial position, rank 8 first. */
  lemma StartingPlacement()
    ensures RanksText(Starting().grid, 8) ==
      "rnbqkbnr" + "/" + "pppppppp" + "/" + "8" + "/" + "8" + "/" + "8" + "/" + "8" + "/" + "PPPPPPPP" + "/" + "RNBQKBNR"
  {
    var g := Starting().grid;
    StartingRows();
    RanksUnfold(g);
    Regroup(RowText(g[7], 0), RowText(g[6], 0), RowText(g[5], 0), RowText(g[4], 0),
            RowText(g[3], 0), RowText(g[2], 0), RowText(g[1], 0), RowText(g[0], 0));
  }

  /** The initial position's record: its placement, then "w KQkq - 0 1". */
  lemma StartingFen()
    ensures FenText(Starting()) ==
      "rnbqkbnr" + "/" + "pppppppp" + "/" + "8" + "/" + "8" + "/" + "8" + "/" + "8" + "/" + "PPPPPPPP" + "/" + "RNBQKBNR"
      + " " + "w" + " " + "KQkq" + " " + "-" + " " + "0" + " " + "1"
  {
    var f := Fields(Starting());
    Join6(f, ' ');
    StartingPlacement();
    Castlings.NewFen();
    AbrevRoundTrip(White);
    assert f[1] == "w" && f[2] == "KQkq" && f[3] == "-" && f[4] == "0" && f[5] == "1";
  }

  // Decoding: `impl TryFrom<String> for Board`.

  const INVALID_INDICATOR := "invalid FEN indicator "
  const WRONG_COUNT := "Wrong number of space seperated arguments to decode FEN, expected 6, got "

  /** A character that selects the letter arm of the decoder. */
  predicate AsciiLetter(c: char)
  {
    'a' <= c <= 'z' || 'A' <= c <= 'Z'
  }

  /**
   * The characters of placement rank `i` (rank 8 - i on the board) read
   * from file `file` on: a letter is placed and moves one file on, a digit
   * 1 to 8 skips that many files, anything else panics. A letter in a
   * ninth or later rank panics on `7 - i`; a file past the board is
   * clamped by `Sq::new` to the last one.
   */
  function PlaceRow(b: Board, i: nat, rank: string, file: nat): (r: Result<Board>)
    ensures r.Ok? ==> r.value == b.(grid := r.value.grid)
    ensures r.Ok? ==> forall d :: 0 <= d < 8 && d != 7 - i ==> r.value.grid[d] == b.grid[d]
    decreases |rank|
  {
    if rank == [] then Ok(b)
    else
      var ch := rank[0];
      if AsciiLetter(ch) then
        match EntityFromChar(ch)
        case Err(e) => Err(e)
        case Ok(e) =>
          if i > 7 then Err(Panicked(SUB_OVERFLOW))
          else PlaceRow(b.Place(Squares.New(7 - i, file), e), i, rank[1..], file + 1)
      else if '1' <= ch <= '8' then PlaceRow(b, i, rank[1..], file + ToDigit(ch, 10).value)
      else Err(Panicked(INVALID_INDICATOR + [ch]))
  }

  /** The ranks of the placement field, `i` being the index of the first. */
  function PlaceRanks(b: Board, ranks: seq<string>, i: nat): (r: Result<Board>)
    ensures r.Ok? ==> r.value == b.(grid := r.value.grid)
    decreases |ranks|
  {
    if ranks == [] then Ok(b)
    else
      match PlaceRow(b, i, ranks[0], 0)
      case Err(e) => Err(e)
      case Ok(b1) => PlaceRanks(b1, ranks[1..], i + 1)
  }

  /** The en-passant field: a square, `None` for a refused notation, or the panic of `notation`. */
  function EnPassantOf(field: string): (r: Result<Option<Sq>>)
    ensures r.Ok? && r.value.Some? <==> Notation(field).Ok?
    ensures r.Err? <==> Notation(field).Err? && Notation(field).error.Panicked?
  {
    match Notation(field)
    case Ok(sq) => Ok(Some(sq))
    case Err(e) => if e.Panicked? then Err(e) else Ok(None)
  }

  /** The board with everything but the placement taken from `Board::new`. */
  function Blank(): (b: Board)
  {
    Starting().(grid := EmptyGrid())
  }

  /**
   * `Board::try_from`: six whitespace-separated fields, of which the
   * half-move clock and the full-move number are not read; state, history
   * and clocks are those of a new board.
   */
  function Decode(item: string): (r: Result<Board>)
    ensures |SplitWhitespace(item)| != 6 ==>
      r == Err(Failed(WRONG_COUNT + NatToString(|SplitWhitespace(item)|)))
    ensures r.Ok? ==> r.value == Starting().(grid := r.value.grid, turnOrder := r.value.turnOrder,
      castling := r.value.castling, enPassant := r.value.enPassant)
  {
    var fields := SplitWhitespace(item);
    if |fields| != 6 then Err(Failed(WRONG_COUNT + NatToString(|fields|)))
    else
      match PlaceRanks(Blank(), Split(fields[0], '/'), 0)
      case Err(e) => Err(e)
      case Ok(placed) =>
        match Teams.FromStr(fields[1])
        case Err(e) => Err(e)
        case Ok(team) =>
          match EnPassantOf(fields[3])
          case Err(e) => Err(e)
          case Ok(ep) =>
            Ok(placed.(turnOrder := team, castling := Castlings.FromFen(fields[2]), enPassant := ep))
  }

  /** One character of a rank. */
  lemma RowCharStep(b: Board, i: nat, rank: string, k: nat, file: nat)
    requires k < |rank|
    ensures PlaceRow(b, i, rank[k..], file) ==
      var ch := rank[k];
      if AsciiLetter(ch) then
        match EntityFromChar(ch)
        case Err(e) => Err(e)
        case Ok(e) =>
          if i > 7 then Err(Panicked(SUB_OVERFLOW))
          else PlaceRow(b.Place(Squares.New(7 - i, file), e), i, rank[k + 1..], file + 1)
      else if '1' <= ch <= '8' then PlaceRow(b, i, rank[k + 1..], file + ToDigit(ch, 10).value)
      else Err(Panicked(INVALID_INDICATOR + [ch]))
  {
    assert rank[k..][1..] == rank[k + 1..];
  }

  /** One rank, read character by character as the source does. */
  method PlaceRank(board: Board, i: nat, rank: string) returns (r: Result<Board>)
    ensures r == PlaceRow(board, i, rank, 0)
  {
    var b := board;
    var file: nat := 0;
    for k := 0 to |rank|
      invariant PlaceRow(board, i, rank, 0) == PlaceRow(b, i, rank[k..], file)
    {
      RowCharStep(b, i, rank, k, file);
      var ch := rank[k];
      if AsciiLetter(ch) {
        var entity := EntityFromChar(ch);
        if entity.Err? {
          return Err(entity.error);
        }
        if i > 7 {
          return Err(Panicked(SUB_OVERFLOW));
        }
        var target := Squares.New(7 - i, file);
        b := b.Place(target, entity.value);
        file := file + 1;
      } else if '1' <= ch <= '8' {
        // `to_digit(10)` of '1'..'8' is always `Some`.
        var dig := ToDigit(ch, 10).value;
        file := file + dig;
      } else {
        return Err(Panicked(INVALID_INDICATOR + [ch]));
      }
    }
    assert rank[|rank|..] == [];
    r := Ok(b);
  }

  /** One rank of the placement field. */
  lemma RanksStep(b: Board, ranks: seq<string>, i: nat)
    requires i < |ranks|
    ensures PlaceRanks(b, ranks[i..], i) ==
      match PlaceRow(b, i, ranks[i], 0)
      case Err(e) => Err(e)
      case Ok(b1) => PlaceRanks(b1, ranks[i + 1..], i + 1)
  {
    assert ranks[i..][1..] == ranks[i + 1..];
  }

  /** `Board::try_from` as the source runs it. */
  method TryFrom(item: string) returns (r: Result<Board>)
    ensures r == Decode(item)
  {
    var board := Boards.New();
    board := board.(grid := EmptyGrid());
    var fields := SplitWhitespace(item);
    if |fields| != 6 {
      return Err(Failed(WRONG_COUNT + NatToString(|fields|)));
    }
    var ranks := Split(fields[0], '/');
    for i := 0 to |ranks|
      invariant PlaceRanks(Blank(), ranks, 0) == PlaceRanks(board, ranks[i..], i)
    {
      RanksStep(board, ranks, i);
      var placed := PlaceRank(board, i, ranks[i]);
      if placed.Err? {
        return Err(placed.error);
      }
      board := placed.value;
    }
    assert ranks[|ranks|..] == [];
    var team := Teams.FromStr(fields[1]);
    if team.Err? {
      return Err(team.error);
    }
    board := board.(turnOrder := team.value);
    board := board.(castling := Castlings.FromFen(fields[2]));
    var ep := Notation(fields[3]);
    match ep {
      case Ok(sq) =>
        board := board.(enPassant := Some(sq));
      case Err(e) =>
        if e.Panicked? {
          return Err(e);
        }
        board := board.(enPassant := None);
    }
    r := Ok(board);
  }

  // The round trip: what `fen` writes, `try_from` reads back.

  /** The characters of a rank's text. */
  predicate RankChar(c: char)
  {
    AsciiLetter(c) || '1' <= c <= '8'
  }

  /** A piece's symbol is a letter that decodes to the piece. */
  lemma SymbolRoundTrip(e: Entity)
    ensures EntityText(e) == [Symbol(e)]
    ensures AsciiLetter(Symbol(e))
    ensures EntityFromChar(Symbol(e)) == Ok(e)
  {
    Symbols();
    match e.kind
    case Rook =>
    case Knight =>
    case Bishop =>
    case Queen =>
    case King =>
    case Pawn =>
  }

  /** A rank's text is non-empty and made of letters and the digits 1 to 8. */
  lemma {:induction false} RowChars(cells: seq<Cell>, run: nat)
    requires run + |cells| <= 8
    ensures run + |cells| >= 1 ==> |RowText(cells, run)| >= 1
    ensures forall j :: 0 <= j < |RowText(cells, run)| ==> RankChar(RowText(cells, run)[j])
    decreases |cells|
  {
    assert run > 0 ==> Run(run) == [DigitChar(run)];
    if cells != [] {
      RowChars(cells[1..], if cells[0].Some? then 0 else run + 1);
      if cells[0].Some? {
        SymbolRoundTrip(cells[0].value);
      }
    }
  }

  /**
   * `row` is `before` with `cells` read in from file `file` on, `run` empty
   * squares pending: nothing before `file` changes, the pending squares are
   * empty and each later file holds its cell.
   */
  predicate RowPlaced(row: Row, before: Row, cells: seq<Cell>, run: nat, file: nat)
    requires file + run + |cells| == 8
  {
    && (forall k :: 0 <= k < file ==> row[k] == before[k])
    && (forall k :: file <= k < file + run ==> row[k].None?)
    && (forall k :: 0 <= k < |cells| ==> row[file + run + k] == cells[k])
  }

  /** The squares of `row` from `file` on are empty. */
  predicate EmptyFrom(row: Row, file: nat)
  {
    forall k :: file <= k < 8 ==> row[k].None?
  }

  /** Reading back a pending run at the end of a rank leaves the board as it is. */
  lemma RunDecode(b: Board, i: nat, run: nat, file: nat)
    requires run <= 8
    ensures PlaceRow(b, i, Run(run), file) == Ok(b)
  {
    if run > 0 {
      assert Run(run) == [DigitChar(run)];
      assert [DigitChar(run)][1..] == [];
    }
  }

  /** Reading back a pending run followed by a piece skips the run and places the piece. */
  lemma PieceDecode(b: Board, i: nat, e: Entity, rest: string, run: nat, file: nat)
    requires i < 8 && run <= 8
    ensures PlaceRow(b, i, Run(run) + EntityText(e) + rest, file) ==
      PlaceRow(b.Place(Squares.New(7 - i, file + run), e), i, rest, file + run + 1)
  {
    var c := Symbol(e);
    SymbolRoundTrip(e);
    assert ([c] + rest)[0] == c && ([c] + rest)[1..] == rest;
    if run > 0 {
      var t := Run(run) + EntityText(e) + rest;
      assert t == [DigitChar(run)] + ([c] + rest);
      assert t[0] == DigitChar(run) && t[1..] == [c] + rest;
    } else {
      assert Run(run) + EntityText(e) + rest == [c] + rest;
    }
  }

  /** Reading back a rank's text succeeds and fills the rank, whose squares from `file` on were empty. */
  lemma {:induction false} RowDecode(b: Board, i: nat, cells: seq<Cell>, run: nat, file: nat)
    requires i < 8 && file + run + |cells| == 8
    requires EmptyFrom(b.grid[7 - i], file)
    ensures PlaceRow(b, i, RowText(cells, run), file).Ok?
    ensures RowPlaced(PlaceRow(b, i, RowText(cells, run), file).value.grid[7 - i], b.grid[7 - i], cells, run, file)
    decreases |cells|
  {
    if cells == [] {
      RunDecode(b, i, run, file);
    } else if cells[0].None? {
      RowDecode(b, i, cells[1..], run + 1, file);
      PlacedSkip(PlaceRow(b, i, RowText(cells, run), file).value.grid[7 - i], b.grid[7 - i], cells, run, file);
    } else {
      var e := cells[0].value;
      var b1 := b.Place(Squares.New(7 - i, file + run), e);
      assert b1.grid[7 - i] == b.grid[7 - i][file + run := Some(e)];
      PieceDecode(b, i, e, RowText(cells[1..], 0), run, file);
      RowDecode(b1, i, cells[1..], 0, file + run + 1);
      PlacedPiece(PlaceRow(b, i, RowText(cells, run), file).value.grid[7 - i], b.grid[7 - i], cells, run, file);
    }
  }

  /** An empty square extends the pending run. */
  lemma PlacedSkip(row: Row, before: Row, cells: seq<Cell>, run: nat, file: nat)
    requires file + run + |cells| == 8 && cells != [] && cells[0].None?
    requires RowPlaced(row, before, cells[1..], run + 1, file)
    ensures RowPlaced(row, before, cells, run, file)
  {
    assert forall k :: 1 <= k < |cells| ==> cells[k] == cells[1..][k - 1];
  }

  /** A piece after the pending run is placed on the square after it. */
  lemma PlacedPiece(row: Row, before: Row, cells: seq<Cell>, run: nat, file: nat)
    requires file + run + |cells| == 8 && cells != [] && cells[0].Some?
    requires EmptyFrom(before, file)
    requires RowPlaced(row, before[file + run := cells[0]], cells[1..], 0, file + run + 1)
    ensures RowPlaced(row, before, cells, run, file)
  {
    assert forall k :: 1 <= k < |cells| ==> cells[k] == cells[1..][k - 1];
  }

  /** The texts of ranks `rank - 1` down to 0, in the order `fen` writes them. */
  function Rows(g: Grid, rank: nat): (r: seq<string>)
    requires rank <= 8
    ensures |r| == rank
  {
    if rank == 0 then [] else [RowText(g[rank - 1], 0)] + Rows(g, rank - 1)
  }

  /** The k-th text, counting from the top rank. */
  lemma {:induction false} RowsAt(g: Grid, rank: nat, k: nat)
    requires k < rank <= 8
    ensures Rows(g, rank)[k] == RowText(g[rank - 1 - k], 0)
    decreases k
  {
    if k > 0 {
      RowsAt(g, rank - 1, k - 1);
    }
  }

  /** The placement field is the rank texts joined by '/'. */
  lemma {:induction false} RanksJoin(g: Grid, rank: nat)
    requires 1 <= rank <= 8
    ensures RanksText(g, rank) == Join(Rows(g, rank), '/')
    decreases rank
  {
    if rank > 1 {
      RanksJoin(g, rank - 1);
      assert Rows(g, rank)[1..] == Rows(g, rank - 1);
    }
  }

  /** Reading the rank texts back into a board whose ranks below `rank` are empty. */
  lemma {:induction false} RanksDecode(b: Board, g: Grid, rank: nat)
    requires rank <= 8
    requires forall d :: 0 <= d < rank ==> EmptyFrom(b.grid[d], 0)
    ensures PlaceRanks(b, Rows(g, rank), 8 - rank).Ok?
    ensures forall d :: 0 <= d < rank ==> PlaceRanks(b, Rows(g, rank), 8 - rank).value.grid[d] == g[d]
    ensures forall d :: rank <= d < 8 ==> PlaceRanks(b, Rows(g, rank), 8 - rank).value.grid[d] == b.grid[d]
    decreases rank
  {
    if rank > 0 {
      var i := 8 - rank;
      RankDecode(b, i, g[rank - 1]);
      var b1 := PlaceRow(b, i, Rows(g, rank)[0], 0).value;
      RanksCons(b, Rows(g, rank), i);
      RanksDecode(b1, g, rank - 1);
      var r := PlaceRanks(b1, Rows(g, rank - 1), 8 - (rank - 1)).value;
      GridStep(r.grid, b1.grid, b.grid, g, rank);
    }
  }

  /** Reading back the text of an empty rank `7 - i` sets it to the written cells. */
  lemma RankDecode(b: Board, i: nat, row: Row)
    requires i < 8 && EmptyFrom(b.grid[7 - i], 0)
    ensures PlaceRow(b, i, RowText(row, 0), 0).Ok?
    ensures PlaceRow(b, i, RowText(row, 0), 0).value.grid[7 - i] == row
  {
    RowDecode(b, i, row, 0, 0);
    RowFilled(PlaceRow(b, i, RowText(row, 0), 0).value.grid[7 - i], b.grid[7 - i], row);
  }

  /** Rank `rank - 1` read in last, on top of the ranks below it. */
  lemma GridStep(r: Grid, b1: Grid, b: Grid, g: Grid, rank: nat)
    requires 1 <= rank <= 8
    requires forall d :: 0 <= d < rank - 1 ==> r[d] == g[d]
    requires forall d :: rank - 1 <= d < 8 ==> r[d] == b1[d]
    requires b1[rank - 1] == g[rank - 1]
    requires forall d :: 0 <= d < 8 && d != rank - 1 ==> b1[d] == b[d]
    ensures forall d :: 0 <= d < rank ==> r[d] == g[d]
    ensures forall d :: rank <= d < 8 ==> r[d] == b[d]
  {
  }

  /** The first rank of the placement is read, then the rest from the next index. */
  lemma RanksCons(b: Board, ranks: seq<string>, i: nat)
    requires ranks != [] && PlaceRow(b, i, ranks[0], 0).Ok?
    ensures PlaceRanks(b, ranks, i) == PlaceRanks(PlaceRow(b, i, ranks[0], 0).value, ranks[1..], i + 1)
  {
  }

  /** A rank read in from its first file holds exactly the cells read. */
  lemma RowFilled(row: Row, before: Row, cells: seq<Cell>)
    requires |cells| == 8 && RowPlaced(row, before, cells, 0, 0)
    ensures row == cells
  {
  }

  /** The characters of the placement field. */
  lemma {:induction false} RanksChars(g: Grid, rank: nat)
    requires rank <= 8
    ensures rank >= 1 ==> |RanksText(g, rank)| >= 1
    ensures forall j :: 0 <= j < |RanksText(g, rank)| ==> RankChar(RanksText(g, rank)[j]) || RanksText(g, rank)[j] == '/'
    decreases rank
  {
    if rank > 0 {
      RowChars(g[rank - 1], 0);
      RanksChars(g, rank - 1);
    }
  }

  /** The castling field is non-empty and without whitespace. */
  lemma CastlingWord(c: Castlings.Castling)
    ensures c.FenField() != [] && NoWhitespace(c.FenField())
  {
    Castlings.FenLetters(c);
    if !c.NoneGranted() {
      var k1, k2 := Castlings.Keep(c.white.short, 'K'), Castlings.Keep(c.white.long, 'Q');
      var k3, k4 := Castlings.Keep(c.black.short, 'k'), Castlings.Keep(c.black.long, 'q');
      assert c.FenField() == k1 + k2 + k3 + k4;
      WordConcat(k1, k2);
      WordConcat(k1 + k2, k3);
      WordConcat(k1 + k2 + k3, k4);
    }
  }

  /** Two words without whitespace make one. */
  lemma WordConcat(a: string, b: string)
    requires NoWhitespace(a) && NoWhitespace(b)
    ensures NoWhitespace(a + b)
  {
    assert forall j :: |a| <= j < |a + b| ==> (a + b)[j] == b[j - |a|];
  }

  /** The placement field is non-empty and without whitespace. */
  lemma PlacementWord(g: Grid)
    ensures RanksText(g, 8) != [] && NoWhitespace(RanksText(g, 8))
  {
    RanksChars(g, 8);
  }

  /** The en-passant field is non-empty and without whitespace. */
  lemma EnPassantWord(ep: Option<Sq>)
    requires ep.Some? ==> ep.value.OnBoard()
    ensures EnPassantText(ep) != [] && NoWhitespace(EnPassantText(ep))
  {
  }

  /** A number is non-empty and without whitespace. */
  lemma NumberWord(n: nat)
    ensures NatToString(n) != [] && NoWhitespace(NatToString(n))
  {
  }

  /** Every field that `fen` writes is a non-empty word. */
  lemma FieldWords(b: Board)
    requires b.enPassant.Some? ==> b.enPassant.value.OnBoard()
    ensures forall k :: 0 <= k < 6 ==> Fields(b)[k] != [] && NoWhitespace(Fields(b)[k])
  {
    PlacementWord(b.grid);
    AbrevRoundTrip(b.turnOrder);
    CastlingWord(b.castling);
    EnPassantWord(b.enPassant);
    NumberWord(b.halfmove);
    NumberWord(b.fullmove);
  }

  /** The rank texts contain no '/'. */
  lemma RowsFree(g: Grid)
    ensures forall k :: 0 <= k < 8 ==> Free(Rows(g, 8)[k], '/')
  {
    forall k | 0 <= k < 8
      ensures Free(Rows(g, 8)[k], '/')
    {
      RowsAt(g, 8, k);
      RowChars(g[7 - k], 0);
    }
  }

  /** The en-passant field reads back as the square it was written from. */
  lemma EnPassantRoundTrip(ep: Option<Sq>)
    requires ep.Some? ==> ep.value.OnBoard()
    ensures EnPassantOf(EnPassantText(ep)) == Ok(ep)
  {
    NotationErrors();
    if ep.Some? {
      NotationDisplay(ep.value);
    }
  }

  /**
   * Decoding an encoded board restores its placement, side to move,
   * castling rights and en-passant square; state, history and clocks are
   * those of a new board, since `try_from` does not read the clocks.
   */
  lemma DecodeEncode(b: Board)
    requires b.enPassant.Some? ==> b.enPassant.value.OnBoard()
    ensures Printable(b)
    ensures Decode(FenText(b)) ==
      Ok(Starting().(grid := b.grid, turnOrder := b.turnOrder, castling := b.castling, enPassant := b.enPassant))
  {
    var f := Fields(b);
    FieldWords(b);
    SplitJoinWords(f);
    RanksJoin(b.grid, 8);
    RowsFree(b.grid);
    SplitJoin(Rows(b.grid, 8), '/');
    RanksDecode(Blank(), b.grid, 8);
    var placed := PlaceRanks(Blank(), Rows(b.grid, 8), 0).value;
    assert placed.grid == b.grid;
    AbrevRoundTrip(b.turnOrder);
    Castlings.FenRoundTrip(b.castling);
    EnPassantRoundTrip(b.enPassant);
  }

  /** The initial record decodes to the initial board. */
  lemma StartingDecodes()
    ensures Decode(
      "rnbqkbnr" + "/" + "pppppppp" + "/" + "8" + "/" + "8" + "/" + "8" + "/" + "8" + "/" + "PPPPPPPP" + "/" + "RNBQKBNR"
      + " " + "w" + " " + "KQkq" + " " + "-" + " " + "0" + " " + "1") == Ok(Starting())
  {
    StartingFen();
    DecodeEncode(Starting());
  }

  /**
   * A rank past the eighth is accepted only when it holds digits alone,
   * and then changes nothing; its first piece letter panics on `7 - i`.
   */
  lemma {:induction false} ExtraRank(b: Board, i: nat, rank: string, file: nat)
    requires i > 7
    ensures PlaceRow(b, i, rank, file).Ok? <==> forall j :: 0 <= j < |rank| ==> '1' <= rank[j] <= '8'
    ensures PlaceRow(b, i, rank, file).Ok? ==> PlaceRow(b, i, rank, file).value == b
    decreases |rank|
  {
    if rank != [] && '1' <= rank[0] <= '8' {
      ExtraRank(b, i, rank[1..], file + ToDigit(rank[0], 10).value);
      assert forall j :: 1 <= j < |rank| ==> rank[j] == rank[1..][j - 1];
    }
  }
}
