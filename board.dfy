/**
 * The board value: an 8x8 grid of optional pieces plus the side to move,
 * move history, en-passant target, castling rights and the two clocks.
 * The engine clones the board for every trial move, so the model treats it
 * as a value and each operation returns the board it produces.
 */
module Boards {
  import opened Wrappers
  import opened Teams
  import opened Pieces
  import opened Squares
  import Castlings
  import Histories

  /** A piece of one side (`Entity`). */
  datatype Entity = Entity(kind: Piece, team: Team)

  /** A piece together with the square it stands on (`SqEntity`). */
  datatype SqEntity = SqEntity(entity: Entity, sq: Sq)

  /** `BoardState`: recorded with the board but never read by the core. */
  datatype DrawState = ThreefoldRepetion | FiftyMoveRule | StalemateDraw | Agreement | InsufficientMatingMaterial
  datatype GameState = Checkmate | Active | Draw(draw: DrawState)
  datatype BoardState = BoardState(winner: Option<Team>, result: GameState)

  /** `BoardState::new`. */
  function StateNew(): (r: BoardState)
  {
    BoardState(None, Active)
  }

  type Cell = Option<Entity>
  type Row = r: seq<Cell> | |r| == 8 witness [None, None, None, None, None, None, None, None]
  const EMPTY_ROW: Row := [None, None, None, None, None, None, None, None]
  type Grid = g: seq<Row> | |g| == 8
    witness [EMPTY_ROW, EMPTY_ROW, EMPTY_ROW, EMPTY_ROW, EMPTY_ROW, EMPTY_ROW, EMPTY_ROW, EMPTY_ROW]

  /** `[[None; SIZE]; SIZE]`. */
  function EmptyGrid(): (g: Grid)
    ensures forall d, f :: 0 <= d < 8 && 0 <= f < 8 ==> g[d][f].None?
  {
    [EMPTY_ROW, EMPTY_ROW, EMPTY_ROW, EMPTY_ROW, EMPTY_ROW, EMPTY_ROW, EMPTY_ROW, EMPTY_ROW]
  }

  /** `board[sq.digit][sq.letter] = cell`. */
  function SetCell(g: Grid, sq: Sq, c: Cell): (r: Grid)
    requires sq.OnBoard()
    ensures r[sq.digit][sq.letter] == c
    ensures forall d, f :: 0 <= d < 8 && 0 <= f < 8 && (d != sq.digit || f != sq.letter) ==> r[d][f] == g[d][f]
  {
    g[sq.digit := g[sq.digit][sq.letter := c]]
  }

  datatype Board = Board(
    state: BoardState,
    turnOrder: Team,
    history: Histories.History,
    grid: Grid,
    enPassant: Option<Sq>,
    castling: Castlings.Castling,
    fullmove: nat,
    halfmove: nat)
  {
    /** `Board::get`: the occupant of a square; nothing off the board. */
    function Get(sq: Sq): (r: Option<Entity>)
      ensures !sq.OnBoard() ==> r.None?
      ensures sq.OnBoard() ==> r == grid[sq.digit][sq.letter]
    {
      if sq.digit > 7 || sq.letter > 7 then None else grid[sq.digit][sq.letter]
    }

    /**
     * `Board::find`: the occupant of a square provided it matches every
     * filter that is given; with no filter, any occupant.
     */
    function Find(sq: Sq, team: Option<Team>, piece: Option<Piece>): (r: Option<Entity>)
      ensures r.Some? <==>
        Get(sq).Some? && (team.None? || team.value == Get(sq).value.team)
        && (piece.None? || piece.value == Get(sq).value.kind)
      ensures r.Some? ==> r == Get(sq) && sq.OnBoard()
    {
      match Get(sq)
      case None => None
      case Some(e) =>
        if team.None? && piece.None? then Some(e)
        else if team.Some? && team.value != e.team then None
        else if piece.Some? && piece.value != e.kind then None
        else Get(sq)
    }

    /** `Board::place`: puts a piece on an on-board square, nothing else changes. */
    function Place(sq: Sq, e: Entity): (r: Board)
      requires sq.OnBoard()
      ensures r.Get(sq) == Some(e)
      ensures forall s :: s != sq ==> r.Get(s) == Get(s)
      ensures r == this.(grid := r.grid)
    {
      this.(grid := SetCell(grid, sq, Some(e)))
    }

    /** `Board::not_turn`. */
    function NotTurn(): (r: Team)
      ensures r != turnOrder
    {
      turnOrder.Not()
    }

    /** `Board::turn`. */
    function Turn(): (r: Team)
    {
      turnOrder
    }
  }

  /** The pieces of the back ranks, file by file. */
  function BackRank(f: nat): (p: Piece)
    requires f < 8
  {
    [Rook, Knight, Bishop, Queen, King, Bishop, Knight, Rook][f]
  }

  /** The occupant of a square in the initial position. */
  function InitialCell(d: nat, f: nat): (c: Cell)
    requires f < 8
  {
    if d == 0 then Some(Entity(BackRank(f), White))
    else if d == 1 then Some(Entity(Pawn, White))
    else if d == 6 then Some(Entity(Pawn, Black))
    else if d == 7 then Some(Entity(BackRank(f), Black))
    else None
  }

  /** The initial position with White to move. */
  function Starting(): (b: Board)
  {
    Board(StateNew(), White, Histories.New(),
          seq(8, d requires 0 <= d < 8 => seq(8, f requires 0 <= f < 8 => InitialCell(d, f))),
          None, Castlings.New(), 1, 0)
  }

  /** `Board::new`: back ranks first, then the two pawn ranks. */
  method New() returns (b: Board)
    ensures b == Starting()
  {
    var board := EmptyGrid();
    var homes := [(White, 0), (Black, 7)];
    for k := 0 to 2
      invariant forall d, f :: 0 <= d < 8 && 0 <= f < 8 ==>
        board[d][f] == if (d == 0 && k > 0) || (d == 7 && k > 1) then InitialCell(d, f) else None
    {
      var (team, rank) := homes[k];
      board := SetCell(board, Sq(rank, 0), Some(Entity(Rook, team)));
      board := SetCell(board, Sq(rank, 1), Some(Entity(Knight, team)));
      board := SetCell(board, Sq(rank, 2), Some(Entity(Bishop, team)));
      board := SetCell(board, Sq(rank, 3), Some(Entity(Queen, team)));
      board := SetCell(board, Sq(rank, 4), Some(Entity(King, team)));
      board := SetCell(board, Sq(rank, 5), Some(Entity(Bishop, team)));
      board := SetCell(board, Sq(rank, 6), Some(Entity(Knight, team)));
      board := SetCell(board, Sq(rank, 7), Some(Entity(Rook, team)));
    }
    for n := 0 to SIZE
      invariant forall d, f :: 0 <= d < 8 && 0 <= f < 8 ==>
        board[d][f] == if (d == 1 || d == 6) && f >= n then None else InitialCell(d, f)
    {
      board := SetCell(board, Sq(1, n), Some(Entity(Pawn, White)));
      board := SetCell(board, Sq(6, n), Some(Entity(Pawn, Black)));
    }
    b := Board(StateNew(), White, Histories.New(), board, None, Castlings.New(), 1, 0);
    forall d | 0 <= d < 8
      ensures board[d] == Starting().grid[d]
    {
    }
  }

  /** Which rank or file comes `i`-th in a side's scan: upward for White, downward for Black. */
  function Idx(team: Team, i: nat): (r: nat)
    requires i < 8
    ensures r < 8
    ensures r == if team == White then i else 7 - i
  {
    Order(team)[i]
  }

  /** The source's index arrays: 0 .. 7 for White, 7 .. 0 for Black. */
  function Order(team: Team): (r: seq<nat>)
    ensures |r| == 8
  {
    if team == White then [0, 1, 2, 3, 4, 5, 6, 7] else [7, 6, 5, 4, 3, 2, 1, 0]
  }

  /** The 64 squares in the order `find_by_team` visits them. */
  function ScanOrder(team: Team): (r: seq<Sq>)
    ensures |r| == 64
  {
    seq(64, k requires 0 <= k < 64 => Squares.New(Idx(team, k / 8), Idx(team, k % 8)))
  }

  /** The pieces of `team` on the squares `sqs`, in that order. */
  function Collect(b: Board, team: Team, sqs: seq<Sq>): (r: seq<SqEntity>)
    decreases |sqs|
  {
    if sqs == [] then []
    else
      var rest := Collect(b, team, sqs[..|sqs| - 1]);
      var s := sqs[|sqs| - 1];
      match b.Find(s, Some(team), None)
      case Some(e) => rest + [SqEntity(e, s)]
      case None => rest
  }

  /** Every piece of `team` on the board, in scan order. */
  function Occupants(b: Board, team: Team): (r: seq<SqEntity>)
  {
    Collect(b, team, ScanOrder(team))
  }

  lemma ScanAt(team: Team, r: nat, f: nat)
    requires r < 8 && f < 8
    ensures (8 * r + f) / 8 == r && (8 * r + f) % 8 == f
    ensures ScanOrder(team)[8 * r + f] == Sq(Idx(team, r), Idx(team, f))
  {
  }

  /** One more square scanned: its piece, if it is the side's, is appended. */
  lemma CollectStep(b: Board, team: Team, sqs: seq<Sq>, k: nat)
    requires k < |sqs|
    ensures Collect(b, team, sqs[..k + 1]) ==
      Collect(b, team, sqs[..k]) + match b.Find(sqs[k], Some(team), None)
                                   case Some(e) => [SqEntity(e, sqs[k])]
                                   case None => []
  {
    assert sqs[..k + 1][..k] == sqs[..k];
  }

  /** `Board::find_by_team`: rank by rank, file by file, in the side's scan order. */
  method FindByTeam(b: Board, team: Team) returns (vec: seq<SqEntity>)
    ensures vec == Occupants(b, team)
  {
    var order := Order(team);
    vec := [];
    for ri := 0 to 8
      invariant order == Order(team)
      invariant vec == Collect(b, team, ScanOrder(team)[..8 * ri])
    {
      vec := FindRank(b, team, order, ri, vec);
    }
    assert ScanOrder(team)[..64] == ScanOrder(team);
  }

  /** One rank of `find_by_team`'s scan, file by file in the side's order. */
  method FindRank(b: Board, team: Team, order: seq<nat>, ri: nat, vec: seq<SqEntity>)
    returns (out: seq<SqEntity>)
    requires ri < 8 && order == Order(team)
    requires vec == Collect(b, team, ScanOrder(team)[..8 * ri])
    ensures out == Collect(b, team, ScanOrder(team)[..8 * ri + 8])
  {
    out := vec;
    for fi := 0 to 8
      invariant out == Collect(b, team, ScanOrder(team)[..8 * ri + fi])
    {
      var sq := Squares.New(order[ri], order[fi]);
      ScanAt(team, ri, fi);
      CollectStep(b, team, ScanOrder(team), 8 * ri + fi);
      match b.Find(sq, Some(team), None) {
        case Some(e) =>
          out := out + [SqEntity(e, sq)];
        case None =>
      }
    }
  }

  /** The closure accepts every entry of `ses`. */
  predicate AllAccepted(closure: SqEntity -> bool, ses: seq<SqEntity>)
  {
    forall i :: 0 <= i < |ses| ==> closure(ses[i])
  }

  /** Scanning a prefix of the squares collects a prefix of the pieces. */
  lemma {:induction false} CollectPrefix(b: Board, team: Team, sqs: seq<Sq>, k: nat)
    requires k <= |sqs|
    ensures Collect(b, team, sqs[..k]) <= Collect(b, team, sqs)
    decreases |sqs| - k
  {
    if k < |sqs| {
      CollectPrefix(b, team, sqs, k + 1);
      CollectStep(b, team, sqs, k);
    } else {
      assert sqs[..k] == sqs;
    }
  }

  lemma AcceptedStep(closure: SqEntity -> bool, ses: seq<SqEntity>, se: SqEntity)
    requires AllAccepted(closure, ses)
    ensures AllAccepted(closure, ses + [se]) <==> closure(se)
  {
    assert (ses + [se])[|ses|] == se;
  }

  /** A piece the closure rejects, found while scanning, is one of the side's pieces. */
  lemma Rejected(b: Board, team: Team, closure: SqEntity -> bool, n: nat)
    requires n <= 64
    requires var seen := Collect(b, team, ScanOrder(team)[..n]);
      |seen| > 0 && !closure(seen[|seen| - 1])
    ensures !AllAccepted(closure, Occupants(b, team))
  {
    CollectPrefix(b, team, ScanOrder(team), n);
    var seen := Collect(b, team, ScanOrder(team)[..n]);
    assert Occupants(b, team)[|seen| - 1] == seen[|seen| - 1];
  }

  /**
   * `Board::find_by_team_closure`: scans like `find_by_team` and stops with
   * false at the first piece of `team` the closure rejects.
   */
  method FindByTeamClosure(b: Board, team: Team, closure: SqEntity -> bool) returns (r: bool)
    ensures r == AllAccepted(closure, Occupants(b, team))
  {
    var order := Order(team);
    for ri := 0 to 8
      invariant order == Order(team)
      invariant AllAccepted(closure, Collect(b, team, ScanOrder(team)[..8 * ri]))
    {
      var ok := ClosureRank(b, team, closure, order, ri);
      if !ok {
        return false;
      }
    }
    assert ScanOrder(team)[..64] == ScanOrder(team);
    return true;
  }

  /** One rank of `find_by_team_closure`'s scan, file by file in the side's order. */
  method ClosureRank(b: Board, team: Team, closure: SqEntity -> bool, order: seq<nat>, ri: nat)
    returns (ok: bool)
    requires ri < 8 && order == Order(team)
    requires AllAccepted(closure, Collect(b, team, ScanOrder(team)[..8 * ri]))
    ensures ok ==> AllAccepted(closure, Collect(b, team, ScanOrder(team)[..8 * ri + 8]))
    ensures !ok ==> !AllAccepted(closure, Occupants(b, team))
  {
    for fi := 0 to 8
      invariant AllAccepted(closure, Collect(b, team, ScanOrder(team)[..8 * ri + fi]))
    {
      ok := ClosureAt(b, team, closure, order[ri], order[fi], ri, fi);
      if !ok {
        return;
      }
    }
    ok := true;
  }

  /** One square of `find_by_team_closure`'s scan: false when the closure rejects its piece. */
  method ClosureAt(b: Board, team: Team, closure: SqEntity -> bool, rank: nat, file: nat, ri: nat, fi: nat)
    returns (ok: bool)
    requires ri < 8 && fi < 8 && rank == Idx(team, ri) && file == Idx(team, fi)
    requires AllAccepted(closure, Collect(b, team, ScanOrder(team)[..8 * ri + fi]))
    ensures ok <==> AllAccepted(closure, Collect(b, team, ScanOrder(team)[..8 * ri + fi + 1]))
    ensures !ok ==> !AllAccepted(closure, Occupants(b, team))
  {
    var sq := Squares.New(rank, file);
    ScanAt(team, ri, fi);
    CollectStep(b, team, ScanOrder(team), 8 * ri + fi);
    ghost var seen := Collect(b, team, ScanOrder(team)[..8 * ri + fi]);
    match b.Find(sq, Some(team), None) {
      case Some(e) =>
        AcceptedStep(closure, seen, SqEntity(e, sq));
        ok := closure(SqEntity(e, sq));
        if !ok {
          Rejected(b, team, closure, 8 * ri + fi + 1);
        }
      case None =>
        ok := true;
    }
  }

  /** `Collect` keeps exactly the squares holding a piece of the side. */
  lemma {:induction false} CollectMembers(b: Board, team: Team, sqs: seq<Sq>, se: SqEntity)
    ensures se in Collect(b, team, sqs) <==> se.sq in sqs && b.Find(se.sq, Some(team), None) == Some(se.entity)
    decreases |sqs|
  {
    if sqs != [] {
      CollectMembers(b, team, sqs[..|sqs| - 1], se);
      assert sqs == sqs[..|sqs| - 1] + [sqs[|sqs| - 1]];
    }
  }

  /** The scan visits every square of the board and nothing else. */
  lemma ScanCovers(team: Team, s: Sq)
    ensures s in ScanOrder(team) <==> s.OnBoard()
  {
    if s.OnBoard() {
      ScanAt(team, Idx(team, s.digit), Idx(team, s.letter));
      assert ScanOrder(team)[8 * Idx(team, s.digit) + Idx(team, s.letter)] == s;
    }
  }

  /** `find_by_team` lists exactly the side's pieces with their squares. */
  lemma OccupantsExact(b: Board, team: Team, se: SqEntity)
    ensures se in Occupants(b, team) <==>
      se.sq.OnBoard() && b.Get(se.sq) == Some(se.entity) && se.entity.team == team
  {
    CollectMembers(b, team, ScanOrder(team), se);
    ScanCovers(team, se.sq);
  }

  /** Signed material of one piece: positive for White. */
  function Signed(e: Entity): (r: int)
  {
    if e.team == White then e.kind.Value() else -(e.kind.Value() as int)
  }

  /** Material balance over a list of squares. */
  function Score(b: Board, sqs: seq<Sq>): (r: int)
    decreases |sqs|
  {
    if sqs == [] then 0
    else
      Score(b, sqs[..|sqs| - 1]) +
      match b.Find(sqs[|sqs| - 1], None, None)
      case Some(e) => Signed(e)
      case None => 0
  }

  /** Total material of one side over a list of squares. */
  function SideMaterial(b: Board, team: Team, sqs: seq<Sq>): (r: nat)
    decreases |sqs|
  {
    if sqs == [] then 0
    else
      SideMaterial(b, team, sqs[..|sqs| - 1]) +
      match b.Find(sqs[|sqs| - 1], Some(team), None)
      case Some(e) => e.kind.Value()
      case None => 0
  }

  /** The balance `evaluation` computes, squares taken rank by rank. */
  function Material(b: Board): (r: int)
  {
    Score(b, ScanOrder(White))
  }

  /** One more square scanned: its piece's signed value is added. */
  lemma ScoreStep(b: Board, sqs: seq<Sq>, k: nat)
    requires k < |sqs|
    ensures Score(b, sqs[..k + 1]) ==
      Score(b, sqs[..k]) + match b.Find(sqs[k], None, None)
                           case Some(e) => Signed(e)
                           case None => 0
  {
    assert sqs[..k + 1][..k] == sqs[..k];
  }

  /** `Board::evaluation`. */
  method Evaluation(b: Board) returns (result: int)
    ensures result == Material(b)
  {
    result := 0;
    for rank := 0 to SIZE
      invariant result == Score(b, ScanOrder(White)[..8 * rank])
    {
      result := EvaluateRank(b, rank, result);
    }
    assert ScanOrder(White)[..64] == ScanOrder(White);
  }

  /** One rank of `evaluation`'s scan, file by file. */
  method EvaluateRank(b: Board, rank: nat, sum: int) returns (result: int)
    requires rank < 8
    requires sum == Score(b, ScanOrder(White)[..8 * rank])
    ensures result == Score(b, ScanOrder(White)[..8 * rank + 8])
  {
    result := sum;
    for file := 0 to SIZE
      invariant result == Score(b, ScanOrder(White)[..8 * rank + file])
    {
      var sq := Squares.New(rank, file);
      ScanAt(White, rank, file);
      ScoreStep(b, ScanOrder(White), 8 * rank + file);
      match b.Find(sq, None, None) {
        case Some(entity) =>
          match entity.team {
            case White =>
              result := result + entity.kind.Value();
            case Black =>
              result := result - entity.kind.Value();
          }
        case None =>
      }
    }
  }

  /** The balance is White's material minus Black's. */
  lemma {:induction false} ScoreSplit(b: Board, sqs: seq<Sq>)
    ensures Score(b, sqs) == SideMaterial(b, White, sqs) - SideMaterial(b, Black, sqs)
    decreases |sqs|
  {
    if sqs != [] {
      ScoreSplit(b, sqs[..|sqs| - 1]);
    }
  }

  lemma MaterialSplit(b: Board)
    ensures Material(b) == SideMaterial(b, White, ScanOrder(White)) - SideMaterial(b, Black, ScanOrder(White))
  {
    ScoreSplit(b, ScanOrder(White));
  }

  /** Scanning two lists of squares in turn collects both lists' pieces in turn. */
  lemma {:induction false} CollectAppend(b: Board, team: Team, x: seq<Sq>, y: seq<Sq>)
    ensures Collect(b, team, x + y) == Collect(b, team, x) + Collect(b, team, y)
    decreases |y|
  {
    if y != [] {
      var y' := y[..|y| - 1];
      assert (x + y)[..|x + y| - 1] == x + y';
      CollectAppend(b, team, x, y');
    } else {
      assert x + y == x;
    }
  }

  /** A list of squares all holding the side's pieces collects one entry per square. */
  lemma {:induction false} CollectFull(b: Board, team: Team, sqs: seq<Sq>)
    requires forall i :: 0 <= i < |sqs| ==> b.Find(sqs[i], Some(team), None).Some?
    ensures |Collect(b, team, sqs)| == |sqs|
    decreases |sqs|
  {
    if sqs != [] {
      CollectFull(b, team, sqs[..|sqs| - 1]);
    }
  }

  /** A list of squares none of which holds the side's pieces collects nothing. */
  lemma {:induction false} CollectNone(b: Board, team: Team, sqs: seq<Sq>)
    requires forall i :: 0 <= i < |sqs| ==> b.Find(sqs[i], Some(team), None).None?
    ensures Collect(b, team, sqs) == []
    decreases |sqs|
  {
    if sqs != [] {
      CollectNone(b, team, sqs[..|sqs| - 1]);
    }
  }

  /** The `ri`-th rank of a side's scan. */
  function ScanRank(team: Team, ri: nat): (r: seq<Sq>)
    requires ri < 8
    ensures |r| == 8
  {
    seq(8, fi requires 0 <= fi < 8 => Sq(Idx(team, ri), Idx(team, fi)))
  }

  /** The `ri`-th rank of the scan is the slice of the scan at it. */
  lemma ScanSlice(team: Team, ri: nat)
    requires ri < 8
    ensures ScanOrder(team)[8 * ri..8 * ri + 8] == ScanRank(team, ri)
  {
    forall fi | 0 <= fi < 8
      ensures ScanOrder(team)[8 * ri + fi] == ScanRank(team, ri)[fi]
    {
      ScanAt(team, ri, fi);
    }
  }

  /** A prefix of the scan grows by one rank at a time. */
  lemma ScanRanks(team: Team, ri: nat)
    requires ri < 8
    ensures ScanOrder(team)[..8 * ri + 8] == ScanOrder(team)[..8 * ri] + ScanRank(team, ri)
  {
    ScanSlice(team, ri);
    assert ScanOrder(team)[..8 * ri + 8] == ScanOrder(team)[..8 * ri] + ScanOrder(team)[8 * ri..8 * ri + 8];
  }

  /** The side's pieces fill the first two ranks of its scan and stand nowhere else. */
  predicate HomeRanks(b: Board, team: Team)
  {
    forall ri, fi :: 0 <= ri < 8 && 0 <= fi < 8 ==>
      (b.Find(Sq(Idx(team, ri), Idx(team, fi)), Some(team), None).Some? <==> ri < 2)
  }

  /** A side on exactly its two home ranks has sixteen pieces in its scan. */
  lemma HomeRanksOccupants(b: Board, team: Team)
    requires HomeRanks(b, team)
    ensures |Occupants(b, team)| == 16
  {
    var scan := ScanOrder(team);
    for ri := 0 to 8
      invariant |Collect(b, team, scan[..8 * ri])| == 8 * (if ri < 2 then ri else 2)
    {
      HomeRankStep(b, team, ri);
    }
    assert scan[..64] == scan;
  }

  /** One rank more of the scan adds eight pieces on a home rank and none elsewhere. */
  lemma HomeRankStep(b: Board, team: Team, ri: nat)
    requires ri < 8 && HomeRanks(b, team)
    ensures |Collect(b, team, ScanOrder(team)[..8 * ri + 8])| ==
      |Collect(b, team, ScanOrder(team)[..8 * ri])| + (if ri < 2 then 8 else 0)
  {
    ScanRanks(team, ri);
    CollectAppend(b, team, ScanOrder(team)[..8 * ri], ScanRank(team, ri));
    RankCount(b, team, ri);
  }

  /** A rank of the scan holds eight of the side's pieces when it is a home rank and none otherwise. */
  lemma RankCount(b: Board, team: Team, ri: nat)
    requires ri < 8 && HomeRanks(b, team)
    ensures |Collect(b, team, ScanRank(team, ri))| == if ri < 2 then 8 else 0
  {
    var row := ScanRank(team, ri);
    if ri < 2 {
      CollectFull(b, team, row);
    } else {
      CollectNone(b, team, row);
    }
  }

  /** In the initial position each side stands on exactly its two home ranks. */
  lemma StartingHomeRanks(team: Team)
    ensures HomeRanks(Starting(), team)
  {
  }

  /** `find_by_team` finds sixteen pieces of either side in the initial position. */
  lemma StartingOccupants(team: Team)
    ensures |Occupants(Starting(), team)| == 16
  {
    StartingHomeRanks(team);
    HomeRanksOccupants(Starting(), team);
  }

  /** Two cells hold the same kind for opposite sides, or are both empty. */
  predicate Mirrored(c: Option<Entity>, d: Option<Entity>)
  {
    (c.None? && d.None?) || (c.Some? && d.Some? && c.value.kind == d.value.kind && c.value.team != d.value.team)
  }

  /** Every square's occupant is its mirror image's, across the middle of the board, with the colour swapped. */
  predicate ColourSymmetric(b: Board)
  {
    forall d, f :: 0 <= d < 8 && 0 <= f < 8 ==> Mirrored(b.Find(Sq(d, f), None, None), b.Find(Sq(7 - d, f), None, None))
  }

  /** Material over two lists of squares in turn is the sum of both. */
  lemma {:induction false} ScoreAppend(b: Board, x: seq<Sq>, y: seq<Sq>)
    ensures Score(b, x + y) == Score(b, x) + Score(b, y)
    decreases |y|
  {
    if y != [] {
      var y' := y[..|y| - 1];
      assert (x + y)[..|x + y| - 1] == x + y';
      ScoreAppend(b, x, y');
    } else {
      assert x + y == x;
    }
  }

  /** Squares paired with their colour-swapped images balance to nothing. */
  lemma {:induction false} MirroredScore(b: Board, x: seq<Sq>, y: seq<Sq>)
    requires |x| == |y|
    requires forall i :: 0 <= i < |x| ==> Mirrored(b.Find(x[i], None, None), b.Find(y[i], None, None))
    ensures Score(b, x) + Score(b, y) == 0
    decreases |x|
  {
    if x != [] {
      MirroredScore(b, x[..|x| - 1], y[..|y| - 1]);
    }
  }

  /** The scan from a rank onward is that rank followed by the ranks after it. */
  lemma ScanSuffix(team: Team, ri: nat)
    requires ri < 8
    ensures ScanOrder(team)[8 * ri..] == ScanRank(team, ri) + ScanOrder(team)[8 * ri + 8..]
  {
    ScanSlice(team, ri);
    assert ScanOrder(team)[8 * ri..] == ScanOrder(team)[8 * ri..8 * ri + 8] + ScanOrder(team)[8 * ri + 8..];
  }

  /** The material of the first `n` ranks together with the last `n`, rank paired with mirror rank. */
  function PairScore(b: Board, n: nat): (r: int)
    requires n <= 4
  {
    if n == 0 then 0 else PairScore(b, n - 1) + Score(b, ScanRank(White, n - 1)) + Score(b, ScanRank(White, 8 - n))
  }

  /** `evaluation`'s scan, taken from both ends a rank at a time. */
  lemma {:induction false} ScoreByPairs(b: Board, n: nat)
    requires n <= 4
    ensures Score(b, ScanOrder(White)[..8 * n]) + Score(b, ScanOrder(White)[64 - 8 * n..]) == PairScore(b, n)
  {
    var scan := ScanOrder(White);
    if n == 0 {
      assert scan[..0] == [] && scan[64..] == [];
    } else {
      ScoreByPairs(b, n - 1);
      ScanRanks(White, n - 1);
      ScoreAppend(b, scan[..8 * (n - 1)], ScanRank(White, n - 1));
      ScanSuffix(White, 8 - n);
      assert 8 * (8 - n) + 8 == 64 - 8 * (n - 1);
      ScoreAppend(b, ScanRank(White, 8 - n), scan[64 - 8 * (n - 1)..]);
    }
  }

  /** On a colour-symmetric board every pair of mirror ranks balances. */
  lemma {:induction false} PairsBalance(b: Board, n: nat)
    requires n <= 4 && ColourSymmetric(b)
    ensures PairScore(b, n) == 0
  {
    if n > 0 {
      PairsBalance(b, n - 1);
      MirroredRanks(b, n - 1);
    }
  }

  /** A rank and its mirror rank balance on a colour-symmetric board. */
  lemma MirroredRanks(b: Board, ri: nat)
    requires ri < 8 && ColourSymmetric(b)
    ensures Score(b, ScanRank(White, ri)) + Score(b, ScanRank(White, 7 - ri)) == 0
  {
    var x, y := ScanRank(White, ri), ScanRank(White, 7 - ri);
    assert forall i :: 0 <= i < 8 ==> x[i] == Sq(ri, i) && y[i] == Sq(7 - ri, i);
    MirroredScore(b, x, y);
  }

  /** `evaluation` of a colour-symmetric board is 0. */
  lemma SymmetricMaterial(b: Board)
    requires ColourSymmetric(b)
    ensures Material(b) == 0
  {
    var scan := ScanOrder(White);
    ScoreByPairs(b, 4);
    PairsBalance(b, 4);
    assert scan[..32] + scan[32..] == scan;
    ScoreAppend(b, scan[..32], scan[32..]);
  }

  /** The initial position is colour-symmetric, so its `evaluation` is 0. */
  lemma StartingMaterial()
    ensures ColourSymmetric(Starting())
    ensures Material(Starting()) == 0
  {
    SymmetricMaterial(Starting());
  }
}
