# A verified model of a chess rules engine

This project models the rules core of a small chess engine written in Rust, and proves properties of that model. The core covers:

- squares and their arithmetic;
- teams, pieces, castling rights and move history;
- the six pseudo-legal move generators and their inverse "locate" searches;
- board state with move application (`translate`, `checked_translate`);
- check, checkmate and stalemate detection, and material evaluation;
- Forsyth-Edwards Notation (FEN, section 16.1 of the PGN Standard) output and input;
- the decoding of move tokens in Standard Algebraic Notation (section 8.2.3 of the PGN Standard) and of PGN movetext.

How the model is built:

- **Value types.** The board, its castling rights and its history are values. The engine clones the board for every trial move, and the rights and history are plain fields of the board that are copied with it.
- **Mutating operations as functions.** A mutating operation (`&mut self`) becomes a function that returns the new value. One that can stop half-way returns a pair: the board as it stands when the operation stops, and the result. This covers `translate`, `castle`, `promote` and `execute`, so the board a failed call leaves behind is modelled too.
- **Panics.** Errors are values: `Failed(msg)` stands for the engine's `Err(..)`, and `Panicked(msg)` for a panic. A panic here is an `unwrap` of nothing, an explicit `panic!`, a debug-build arithmetic overflow or an index out of range.
- **Loops.** Where the engine works with loops and pushes into vectors, the model has a `method` with loop invariants. That method is proved equal to a specification function, and the properties are proved about that function. This covers:
  - the generators and the locates;
  - `find_by_team`, `evaluation`, `in_check`, `check_mate` and `stalemate`;
  - `fen` and `try_from`;
  - `Board::new`, `pgn::parse`, and the castling `fen`.

- **Bugs kept.** `checked_translate`, `castle` and `execute` are modelled as written, including the three bugs under "## Findings". The corrected versions are kept beside them: `Rules.Commit`, `Special.CastleMove`, and `Execute.OriginCorrected` and `Execute.ExecuteCorrected`. Their properties are proved too.

Modules, from the bottom up:

- `Wrappers`: Option, Error and Result.
- `Strings`: digits, whitespace splitting, `split`, and lower-casing.
- `OptSquares`, `Squares`, `Teams`, `Pieces`, `KingStatuses`, `Castlings`, `Histories`.
- `Boards`: the board, `find_by_team`, `evaluation`.
- `Rays` (the shared sliding ray and single leaps), then `Rooks`, `Bishops`, `Queens`, `Knights`, `Kings`, `Pawns`, and the `PieceMoves` dispatch.
- `Rules`: `translate`, the checked commit, check, mate and stalemate.
- `Locates` (shared candidate search), the six per-piece locate modules, and the `PieceLocate` dispatch.
- `Input` (`to_index_pos` and friends), `Special` (`castle`, `promote`), `Execute`, `Pgn`, `Fen`.

## Model

| member | source | states |
|---|---|---|
| Squares.New | src/place/sq.rs:37-42 | every square built is on the board; a coordinate below 8 is kept and any other becomes 7 |
| Squares.Clamp | src/place/sq.rs:37-42 | a coordinate up to 7 is kept and a larger one becomes 7 |
| Squares.Sq.Add | src/place/sq.rs:121-130 | the sum is on the board and never exceeds the plain sum; it is the plain sum whenever `can_add` holds |
| Squares.AddIff | src/place/sq.rs:44-46 | `can_add` holds exactly when `+` equals the unclamped sum |
| Squares.AddZero | src/place/sq.rs:121-130 | adding (0,0) leaves an on-board square unchanged |
| Squares.Sq.Sub | src/place/sq.rs:110-119 | the difference never exceeds the minuend; it is exact under `can_sub`; a coordinate subtracted by as much or more saturates at 0 |
| Squares.SubIff | src/place/sq.rs:48-50 | `can_sub` holds exactly when `-` is exact in both coordinates |
| Squares.ArithmeticExamples | src/board/mod.rs:612-630 | (3,4)+(1,0)=(4,4), (4,7)+(6,5)=(7,7), (1,1)-(2,2)=(0,0) |
| Squares.TryInto | src/place/sq.rs:81-86 | a square exactly when both indices are in 0..7, and then the unclamped pair |
| Squares.Sq.Mutate | src/place/sq.rs:97-104 | the shifted square exactly when `valid_idx` holds for the shifted pair, holding exactly that pair |
| Squares.MutateTryInto | src/place/sq.rs:97-104 | `mutate` is `try_into` of the shifted coordinates |
| Squares.Sq.Union | src/place/sq.rs:87-96 | each coordinate present in the partial square replaces the square's own, and each absent one keeps it |
| Squares.UnionOverwrite | src/place/sq.rs:87-96 | two unions in a row equal one union with the overwritten partial square |
| Squares.Sq.FileChar | src/place/sq.rs:105-107 | the character is 'a' plus the file taken modulo 256 (the `u8` addition); files on the board give 'a'..'h' |
| Squares.Sq.Display | src/place/sq.rs:138-142 | the file character followed by the decimal rank number; two characters, rank '1'..'8', for an on-board square |
| Squares.Notation | src/place/sq.rs:52-72 | it fails on empty input; it succeeds exactly when the last character is '1'..'9' and the one before is a file letter, giving the clamped square they name; it panics exactly on a '0' rank or on a digit standing before the rank |
| Squares.NotationErrors | src/place/sq.rs:52-72 | "" and "4" fail on length, "-" is invalid notation, "e3" is (2,4) |
| Squares.NotationDisplay | src/place/sq.rs:138-142 | `notation` of the printed square is the square, for every on-board square |
| Squares.NameDisplay | src/place/sq.rs:138-142 | the two-character name equals `Display`, and `notation` reads it back |
| Squares.DarkSquareParity | src/place/sq.rs:73-75 | a square is dark exactly when rank and file have the same parity |
| Squares.AsUsize | src/execute/pawn.rs:41 | the signed-to-`usize` cast: values in range are kept, negative ones wrap around modulo 2^64 |
| OptSquares.OptSq.Overwrite | src/place/optsq.rs:15-24 | each coordinate present in the argument is taken, each absent one is kept, independently |
| OptSquares.OverwriteNew | src/place/optsq.rs:8-13 | the empty partial square is a left and right identity of `overwrite` |
| OptSquares.OverwriteIdempotent | src/place/optsq.rs:15-24 | overwriting twice with the same argument equals overwriting once |
| OptSquares.OverwriteCompose | src/place/optsq.rs:15-24 | consecutive overwrites compose associatively |
| Teams.Team.Not | src/board/team.rs:30-35 | the opposite team is never the team itself |
| Teams.NotInvolution | src/board/team.rs:30-35 | `not` has no fixed point and undoes itself; White and Black swap |
| Teams.FromStr | src/board/team.rs:19-27 | exactly the six spellings decode, "w"/"White"/"white" to White and the Black ones to Black; anything else panics |
| Teams.AbrevRoundTrip | src/board/team.rs:40-45 | the lower-cased abbreviation is "w" or "b" and decodes back to the team |
| Teams.DisplayRoundTrip | src/board/team.rs:9-17 | the printed name decodes back to the team |
| Pieces.Piece.Letter | src/board/piece.rs:46-57 | each piece's label is one upper-case letter |
| Pieces.Piece.ToStr | src/board/piece.rs:71-80 | the pawn's label is empty and every other piece's is its letter |
| Pieces.Piece.Value | src/board/piece.rs:105-114 | each value identifies its kind: pawn 1, knight and bishop 3, rook 5, queen 10, king 15 |
| Pieces.FromChar | src/board/piece.rs:60-70 | exactly the letters B K R P Q N name a piece, the one whose letter it is |
| Pieces.FromAnyCase | src/board/piece.rs:32-44 | both cases of the six letters name the piece of the upper-case letter; every other character panics |
| Pieces.FromStr | src/board/piece.rs:16-30 | exactly the six one-letter strings decode, to the piece with that letter |
| Pieces.LetterRoundTrip | src/board/piece.rs:46-57 | every piece's letter decodes back to it through `from_char`, `from_str` and `From<char>` |
| Pieces.LetterInjective | src/board/piece.rs:46-57 | distinct pieces have distinct letters |
| Pieces.FromCharRejects | src/board/piece.rs:148-162 | ' ', 'x' and 'd' name no piece, and neither does "Z" |
| Castlings.Castling.Revoke | src/board/castling.rs:22-27 | both rights of the team are cleared and the other team's are unchanged |
| Castlings.RevokeProperties | src/board/castling.rs:71-77 | revoking is idempotent, and revoking both teams leaves no right and the field "-" |
| Castlings.Fen | src/board/castling.rs:28-47 | the pushes build the rights field |
| Castlings.FenDash | src/board/castling.rs:28-47 | the field is "-" exactly when no right is granted |
| Castlings.FenLetters | src/board/castling.rs:28-47 | each of K, Q, k, q occurs exactly when its right is granted; the field has 1 to 4 characters |
| Castlings.NewFen | src/board/castling.rs:66-70 | a new castling grants every right, and its field is "KQkq" |
| Castlings.FromFen | src/board/mod.rs:86 | a right is read as granted exactly when its letter occurs in the field |
| Castlings.FenRoundTrip | src/board/mod.rs:86 | reading back the printed field restores every right |
| Histories.New | src/board/history.rs:18-23 | neither team has a move recorded |
| Histories.History.Len | src/board/history.rs:68-70 | the length of the team's list |
| Histories.History.Get | src/board/history.rs:64-66 | a move exactly when the index is below the length, the one at that index |
| Histories.History.Last | src/board/history.rs:39-42 | none exactly for an empty list, otherwise the move at the last index |
| Histories.History.Push | src/board/history.rs:44-52 | exactly one move is appended to that team's list and the other list is unchanged |
| Histories.History.Pop | src/board/history.rs:55-57 | returns the last move and drops it from that team's list, the other list unchanged |
| Histories.History.Tuple | src/board/history.rs:60-62 | the index-th move of White and of Black |
| Histories.PushLast | src/board/history.rs:44-52 | after a push, the length grows by one for that team only, `last` and `get(len-1)` are the pushed move, and earlier moves are kept |
| Histories.PopPush | src/board/history.rs:55-57 | a pop right after a push returns the pushed move and the previous history |
| KingStatuses.FromToken | src/board/king_status.rs:8-18 | a '+' anywhere gives Check; otherwise a '#' gives Mate; otherwise Safe |
| KingStatuses.OnlyMarkersMatter | src/board/king_status.rs:8-18 | tokens with the same markers have the same status |
| KingStatuses.OtherTextIrrelevant | src/board/king_status.rs:8-18 | wrapping a token in marker-free text keeps its status |
| Boards.Board.Get | src/board/mod.rs:432-437 | nothing off the board; the cell of an on-board square |
| Boards.Board.Find | src/board/mod.rs:438-463 | the occupant exactly when there is one and every supplied team or kind filter matches it |
| Boards.Board.Place | src/board/mod.rs:136-138 | the square holds the piece afterwards and every other square, and every other field, is unchanged |
| Boards.Board.NotTurn | src/board/mod.rs:143-145 | the team not to move |
| Boards.New | src/board/mod.rs:105-135 | the nested loops build the initial position |
| Boards.FindByTeam | src/board/mod.rs:464-480 | the scan lists the team's occupants in scan order, White from rank 0 up and Black from rank 7 down |
| Boards.OccupantsExact | src/board/mod.rs:464-480 | an entry is listed exactly when it is an on-board square holding that entity of the team |
| Boards.ScanCovers | src/board/mod.rs:464-480 | both scan orders visit exactly the 64 squares |
| Boards.HomeRanksOccupants | src/board/mod.rs:673-679 | a board whose first two ranks from the team's side are full of the team's pieces, with none elsewhere, lists 16 |
| Boards.StartingOccupants | src/board/mod.rs:673-679 | each team has 16 occupants in the initial position |
| Boards.FindByTeamClosure | src/board/mod.rs:481-498 | true exactly when the predicate holds for every occupant of the team |
| Boards.Evaluation | src/board/mod.rs:229-244 | the scan computes the signed material sum |
| Boards.MaterialSplit | src/board/mod.rs:229-244 | the evaluation is White material minus Black material |
| Boards.SymmetricMaterial | src/board/mod.rs:229-244 | a board that mirrors colours between rank r and rank 7-r evaluates to 0 |
| Boards.StartingMaterial | src/board/mod.rs:539-542 | the initial position is colour-symmetric and evaluates to 0 |
| Rays.Walk | src/execute/rook.rs:11-26 | the squares taken are a prefix of the ray, in its order |
| Rays.WalkSemantics | src/execute/rook.rs:11-26 | every square taken but the last is empty, the last is empty or an enemy, and the ray stops early only at the board edge, an occupied square or a capture |
| Rays.WalkClear | src/execute/rook.rs:11-26 | on an empty ray every square is taken |
| Rays.Probe | src/execute/rook.rs:11-26 | the closure goes on exactly at an empty square, pushing it, and otherwise pushes what the ray takes there |
| Rays.Cast | src/execute/rook.rs:28-55 | a `for` loop with `break` feeding the closure pushes exactly the ray's squares |
| Rays.Leaps | src/execute/knight.rs:11-24 | at most one square per candidate |
| Rays.LeapsMembers | src/execute/knight.rs:11-24 | a square is taken exactly when it is a candidate and is empty or an enemy |
| Rooks.Moves | src/execute/rook.rs:3-58 | nothing unless the team's piece of the kind stands on the origin; every destination shares its rank or file and is not the origin |
| Rooks.GetTranslations | src/execute/rook.rs:3-58 | the four ray loops compute the rook's destinations |
| Rooks.RaysOnLine | src/execute/rook.rs:28-55 | each ray is the consecutive squares away from the origin on its rank or file |
| Rooks.LoneRook | src/execute/rook.rs:87-136 | a lone rook has 14 destinations from any square |
| Rooks.Hemmed | src/execute/rook.rs:138-159 | a rook whose rank and file neighbours are all friendly or off the board has no destination |
| Rooks.AtDistanceTwo | src/execute/rook.rs:161-221 | with empty neighbours and pieces two squares away on all four rays: 4 destinations when those are friendly, 8 when they are enemies |
| Rooks.InitialRook | src/execute/rook.rs:82-86 | the a1 rook has no destination in the initial position |
| Bishops.Moves | src/execute/bishop.rs:5-41 | nothing unless the team's piece (of the kind, when given) stands on the origin |
| Bishops.GetTranslations | src/execute/bishop.rs:5-41 | the nested `PATTERN` loops compute the bishop's destinations |
| Bishops.MovesOnDiagonal | src/execute/bishop.rs:32-38 | every destination is on the board with \|Δrank\| = \|Δfile\| ≥ 1 |
| Queens.Moves | src/execute/queen.rs:4-8 | nothing unless the team's piece stands on the origin |
| Queens.GetTranslations | src/execute/queen.rs:4-8 | the bishop results followed by the rook results |
| Queens.MovesLines | src/execute/queen.rs:4-8 | every destination shares a rank, file or diagonal with the origin, and no bishop-part square is also a rook-part square |
| Knights.Moves | src/execute/knight.rs:6-26 | nothing unless the team's piece stands on the origin; at most 8 destinations |
| Knights.GetTranslations | src/execute/knight.rs:6-26 | the offset loop computes the knight's destinations |
| Knights.OffsetTables | src/execute/knight.rs:3-4 | 8 distinct offsets, each a (1,2) or (2,1) leap, closed under negation |
| Knights.MovesExact | src/execute/knight.rs:11-24 | a destination exactly when the knight is there and the square is an on-board leap target not held by a friend |
| Kings.Moves | src/execute/king.rs:6-30 | nothing unless the team's piece stands on the origin; at most 8 destinations |
| Kings.GetTranslations | src/execute/king.rs:6-30 | the offset loop computes the king's destinations |
| Kings.OffsetTables | src/execute/king.rs:3-4 | 8 distinct offsets with both components in -1..1, never (0,0), closed under negation |
| Kings.TargetsExact | src/execute/king.rs:12-28 | the candidate squares are exactly the on-board neighbours |
| Kings.MovesExact | src/execute/king.rs:12-28 | a destination exactly when the king is there and the square is a neighbour not held by a friend |
| Pawns.Mul | src/execute/pawn.rs:37-40 | +1 exactly for White, -1 exactly for Black |
| Pawns.EnPassantTo | src/execute/pawn.rs:10-17 | the board's en-passant target exactly when a Black pawn is on rank 3 or a White pawn on rank 4 and a target is set |
| Pawns.EnPassantCandidate | src/execute/pawn.rs:10-17 | the mutable candidate ends as that target |
| Pawns.Ahead | src/execute/pawn.rs:41 | the forward square goes through the cast and the clamp: on the board, on the clamped file, and exact when the rank stays in 0..7 |
| Pawns.Capture | src/execute/pawn.rs:19-34 | the closure yields at most the one square, exactly when it is on the board and is the en-passant target or holds an enemy |
| Pawns.Corner | src/execute/pawn.rs:19-34 | the closure pushes exactly that |
| Pawns.Corners | src/execute/pawn.rs:43-44 | left then right of the square ahead |
| Pawns.Steps | src/execute/pawn.rs:46-55 | the conditional pushes of the step and double step |
| Pawns.Moves | src/execute/pawn.rs:3-58 | nothing unless the team's pawn (or filtered piece) stands on the origin; at most 4 destinations |
| Pawns.GetTranslations | src/execute/pawn.rs:3-58 | the method computes the pawn's destinations |
| Pawns.AdvanceRule | src/execute/pawn.rs:46-55 | the step is a destination exactly when it is empty; from the home rank the double step is one exactly when both squares are empty |
| Pawns.CaptureRule | src/execute/pawn.rs:19-44 | a diagonal square ahead is a destination exactly when it is the permitted en-passant target or holds an enemy |
| Pawns.MovesOnBoard | src/execute/pawn.rs:3-58 | every destination is on the board |
| Pawns.InitialPawns | src/execute/mod.rs:250-279 | in the initial position each pawn's destinations are exactly one and two squares ahead |
| PieceMoves.Moves | src/board/piece.rs:81-92 | each kind dispatches to its own generator; nothing unless that piece is on the origin |
| PieceMoves.GetTranslations | src/board/piece.rs:81-92 | the dispatch through the generator table |
| PieceMoves.MovesOnBoard | src/board/piece.rs:81-92 | every generated destination of every kind is on the board |
| Locates.Probe | src/execute/knight.rs:28-55 | an off-board candidate pair is skipped, and an on-board one is kept exactly when `legal_target` accepts it |
| Locates.FirstIsEarliest | src/execute/rook.rs:60-74 | the origin found is the earliest accepted candidate |
| Locates.FirstNone | src/execute/rook.rs:60-74 | nothing is found exactly when no candidate is accepted |
| Locates.LocatedIsLegal | src/board/mod.rs:422-430 | an origin found through `legal_target` holds the piece, generates the move, passes `translate` and leaves no self-check |
| RookLocate.Locate | src/execute/rook.rs:60-74 | the first accepted square of the target's file from rank 0 up, then of its rank from file 0 up |
| RookLocate.ScanFile | src/execute/rook.rs:62-66 | the file loop with early return |
| RookLocate.ScanRank | src/execute/rook.rs:68-72 | the rank loop with early return |
| RookLocate.LocateMeaning | src/execute/rook.rs:60-74 | the origin found agrees with each on-board coordinate of the disambiguator, and without a disambiguator shares the target's file or rank |
| RookLocate.LocateFinds | src/execute/rook.rs:60-74 | without a disambiguator, an accepted square on the target's rank or file is always found |
| BishopLocate.Locate | src/execute/bishop.rs:43-65 | the first accepted square along the four diagonals from the target |
| BishopLocate.ScanRay | src/execute/bishop.rs:43-65 | one diagonal loop with early return |
| BishopLocate.Probe | src/execute/bishop.rs:43-65 | one candidate: an off-board one is skipped and the scan goes on, otherwise `legal_target` decides |
| BishopLocate.LocateMeaning | src/execute/bishop.rs:43-65 | the origin found agrees with each coordinate of the disambiguator, and without a disambiguator lies on a diagonal of the target |
| BishopLocate.LocateFinds | src/execute/bishop.rs:43-65 | without a disambiguator an accepted square on a diagonal of the target is always found |
| QueenLocate.Locate | src/execute/queen.rs:10-18 | the bishop-style search first, then the rook-style one |
| QueenLocate.LocateMeaning | src/execute/queen.rs:10-18 | the origin found satisfies the bishop or the rook condition: it agrees with the disambiguator, and without one lies on the target's diagonal, rank or file |
| QueenLocate.LocateFinds | src/execute/queen.rs:10-18 | an accepted square on a line with the target is always found |
| KnightLocate.Locate | src/execute/knight.rs:28-55 | the first accepted of the eight leap candidates, with disambiguated coordinates substituted |
| KnightLocate.LeapCoordinates | src/execute/knight.rs:28-55 | candidate i is the substituted pair when it is a valid index pair, else skipped |
| KnightLocate.PlainCandidates | src/execute/knight.rs:28-55 | without a disambiguator the candidates are the knight's leap targets |
| KnightLocate.LocateMeaning | src/execute/knight.rs:28-55 | the origin found agrees with each coordinate of the disambiguator, and without a disambiguator is one of the knight's leap targets |
| KnightLocate.LocateFinds | src/execute/knight.rs:28-55 | an accepted leap square is always found |
| KingLocate.Locate | src/execute/king.rs:33-48 | the first accepted neighbour, ignoring the disambiguator |
| KingLocate.LocateMeaning | src/execute/king.rs:33-48 | the origin found is a neighbour, and one is found whenever a neighbour is accepted |
| PawnLocate.Locate | src/execute/pawn.rs:60-71 | the first square of the disambiguated file (else the target's) from rank 0 up holding a pawn of the side to move whose destinations contain the target |
| PawnLocate.LocateMeaning | src/execute/pawn.rs:60-71 | the origin found holds the mover's pawn, lies on that file and generates the target; no self-check test is made |
| PawnLocate.LocateFinds | src/execute/pawn.rs:60-71 | such a pawn on the target's file is always found |
| PieceLocate.Locator | src/execute/mod.rs:31-36 | dispatch to the kind's locate |
| PieceLocate.LocatorFromChar | src/execute/mod.rs:38-43 | the locate of the piece the letter names for the side to move, nothing for any other character |
| PieceLocate.LocatedSound | src/board/piece.rs:93-102 | the origin found holds the piece, of the given team (the side to move for a pawn), and generates the target |
| PieceLocate.NotLocated | src/board/piece.rs:93-102 | nothing is found exactly when no candidate passes the kind's test |
| Rules.PawnTarget | src/board/mod.rs:398-417 | an en-passant target exactly for a two-rank move |
| Rules.TranslateOutcome | src/board/mod.rs:313-420 | `translate` succeeds exactly on a movable pair with the target on the board, and panics on a movable pair with an off-board target |
| Rules.TranslateErrors | src/board/mod.rs:316-379 | the five refusals (nothing at origin, wrong turn, friendly target, King target, en passant without a pawn to take), each with its message and the board it leaves |
| Rules.TranslateFailure | src/board/mod.rs:353-379 | a refused move leaves the board unchanged, except that the en-passant refusal has already counted a half move |
| Rules.TranslateEffect | src/board/mod.rs:345-417 | the mover stands on the target and the origin is empty; an en-passant victim is removed; fullmove grows by one exactly after Black; the turn flips; halfmove resets on captures and pawn moves and grows otherwise; a double step sets the target in between, another pawn move clears it, and other moves keep it |
| Rules.TranslateLabel | src/board/mod.rs:332-394 | the label is the piece letter, the pawn's file on a capture, 'x' on a capture, then the target's name |
| Rules.TranslateKeepsOwn | src/board/mod.rs:313-420 | the mover's other pieces stay where they are |
| Rules.OpeningDoubleStep | src/board/mod.rs:512-520 | e2-e4 from the start is labelled "e4", sets target e3, resets halfmove and passes the turn to Black |
| Rules.InCheck | src/board/mod.rs:190-208 | the nested loops return true exactly when the team is in check |
| Rules.AnyHits | src/board/mod.rs:190-208 | the outer loop finds a hit exactly when some listed piece reaches the king |
| Rules.CheckedAmong | src/board/mod.rs:190-208 | check is a hit among the opponent's occupants |
| Rules.CoversKing | src/board/mod.rs:190-208 | a piece hits when its destinations include the team's king square |
| Rules.CheckedMeaning | src/board/mod.rs:190-208 | a team is in check exactly when some opposing piece on the board has that team's king square among its destinations |
| Rules.CanTranslate | src/board/mod.rs:178-188 | the trial on a copy |
| Rules.PermittedMeaning | src/board/mod.rs:178-188 | `can_translate` is Ok for on-board targets, and true exactly when the raw move succeeds and leaves the mover out of check |
| Rules.Recorded | src/board/mod.rs:150-177 | the history with exactly one move appended for the mover |
| Rules.Commit | src/board/mod.rs:150-177 | the corrected commit succeeds, fails and panics exactly as the one written |
| Rules.CheckedTranslate | src/board/mod.rs:150-177 | the method computes `checked_translate` as written, full-move number not copied back |
| Rules.CommitIffPermitted | src/board/mod.rs:150-188 | `checked_translate` succeeds exactly when `can_translate` is true, and panics exactly when it panics |
| Rules.CommitFailure | src/board/mod.rs:150-177 | a refused commit, as written or corrected, leaves the board unchanged |
| Rules.CommitEffect | src/board/mod.rs:150-177 | a commit is the trial board with one history entry pushed for the mover and, as written, the old full-move number; the corrected commit keeps the trial's |
| Rules.FullmoveLost | src/board/mod.rs:167-171 | as written, the committed board keeps the old fullmove even after Black's move, for which the trial board counted one more |
| Rules.CommitFullmove | src/board/mod.rs:167-171 | corrected, the fullmove grows by one exactly after Black's move and the turn flips |
| Rules.Legal | src/board/mod.rs:422-430 | only the origin itself is returned |
| Rules.LegalTarget | src/board/mod.rs:422-430 | the method computes `legal_target` |
| Rules.LegalMeaning | src/board/mod.rs:422-430 | the origin is returned exactly when it holds the piece, generates the target, and the move is permitted |
| Rules.NoEscape | src/board/mod.rs:210-227 | one piece's inner loop: true exactly when none of its moves is permitted |
| Rules.NoneAccepted | src/board/mod.rs:210-227 | the loop over one piece's destinations finds none permitted |
| Rules.CheckMate | src/board/mod.rs:210-227 | `check_mate` decides that the team has no permitted move |
| Rules.Stalemate | src/board/mod.rs:291-312 | `stalemate` decides the same predicate as `check_mate` |
| Rules.StuckMeaning | src/board/mod.rs:210-227 | stuck exactly when no piece of the team has a generated destination that is permitted, with that team to move |
| Special.HomeRank | src/execute/special.rs:8-16 | the castling rank is on the board: 0 for White, 7 for Black |
| Special.CastleFiles | src/execute/special.rs:8-16 | the king, king-target and rook files are on the board |
| Special.CastleRefusals | src/execute/special.rs:19-37 | no rook of the side on its home square gives "no Rook", and otherwise no king gives "no King", each with the board untouched |
| Special.CastleSucceeds | src/execute/special.rs:19-37 | with king and rook home and the two targets empty, castling succeeds |
| Special.CastleEffect | src/execute/special.rs:28-31 | on success:<br>• the king and rook stand on their targets;<br>• their home squares are empty;<br>• other squares are unchanged;<br>• castling rights and history are untouched;<br>• the turn has flipped once |
| Special.CastleSteps | src/execute/special.rs:7-39 | the two translates with the turn reset in between |
| Special.CastleClocksTwice | src/execute/special.rs:28-31 | as written, a castling counts two half moves, and two full moves for Black |
| Special.CastleMoveClocks | src/execute/special.rs:28-31 | corrected, castling has the same result and squares as written, and counts the clocks of the king's move alone |
| Special.PromotedPiece | src/execute/special.rs:48-59 | the piece letter is taken from the end of the token, leaving a prefix |
| Special.PromoteSteps | src/execute/special.rs:47-97 | the source's sequence of reads computes `promote` |
| Special.PromotionReads | src/execute/special.rs:61-94 | a token "[f x] target = piece [marker]" is read as the move from the origin rank next to the target (on files f or the target's) with that piece |
| Special.PromotionRefusals | src/execute/special.rs:48-66 | empty input panics; no piece letter in the last two places fails; no '=' before the piece fails |
| Special.PromotionEffect | src/execute/special.rs:92-94 | it succeeds exactly when the raw move is movable: the target then holds the promoted piece of the mover and no history is recorded; a refusal leaves what `translate` left |
| Input.LetterIndex | src/input/mod.rs:17-22 | 'a'..'h' and 'A'..'H' give 0..7, decimal digits underflow, other characters give none |
| Input.ToIndexPos | src/input/mod.rs:24-72 | only a suffix of the input is consumed |
| Input.CharsToSq | src/input/mod.rs:74-77 | the clamped square of `to_index_pos`, with its errors and remaining input |
| Input.ReadsSquare | src/input/mod.rs:24-77 | a token ending in a square name and an optional marker reads as that square, leaving exactly the prefix |
| Input.Examples | src/input/mod.rs:84-119 | a1→[0,0], b4→[3,1], h7→[6,7], Qh5+ leaves "Q"; letters a, f, h index 0, 5, 7 and j none |
| Input.ReadFailures | src/input/mod.rs:25-68 | no digit, only a marker, a non-digit rank and a missing file each fail with their message; panics need two characters |
| Input.PositionIndicator | src/execute/mod.rs:101 | '1'..'8' sets the rank, 'a'..'h' sets the file, anything else sets nothing |
| Execute.Indicator | src/execute/mod.rs:96-116 | one indicator step consumes at most the remaining input |
| Execute.ReadIndicator | src/execute/mod.rs:96-116 | the source's indicator block computes that step |
| Execute.FindOrigin | src/execute/mod.rs:80-135 | the match over the next character computes the origin search as written, including the pawn fallback after a failed piece locate |
| Execute.Judge | src/execute/mod.rs:145-181 | the status comparison computes the verdict |
| Execute.Run | src/execute/mod.rs:51-182 | the whole of `execute` as written: the pawn fallback, `checked_translate` without the full-move copy, and castling's two translates |
| Execute.LocatedFromCharSound | src/execute/mod.rs:38-43 | an origin found for a letter holds that piece of the side to move |
| Execute.OriginSound | src/execute/mod.rs:80-135 | the origin the search as written finds holds a piece of the side to move that generates the target |
| Execute.OriginCorrectedSound | src/execute/mod.rs:80-135 | the same for the corrected search |
| Execute.PawnOriginSound | src/execute/mod.rs:124 | the pawn fallback finds only the mover's pawns |
| Execute.NamedPieceAsWritten | src/execute/mod.rs:118-126 | as written, when the named piece cannot be located a pawn that reaches the target is moved instead |
| Execute.NamedPiece | src/execute/mod.rs:118-126 | corrected, a piece letter before the target locates exactly that piece, and no other kind is moved |
| Execute.IndicatedPiece | src/execute/mod.rs:96-126 | an indicator before the target (with an optional 'x') narrows the named piece's locate; as written, when that piece is not found the pawn locate runs with the same indicator |
| Execute.PawnCapture | src/execute/mod.rs:88-105 | "fx" before the target locates a pawn on file f, in both searches |
| Execute.PlainToken | src/execute/mod.rs:69 | the target is the square before a single trailing marker, the rest being the prefix; the status comes from the marker |
| Execute.ReadsPlain | src/execute/mod.rs:59-69 | a token that is not a promotion or castling goes to the plain path with its target, origin search and marker, both as written and corrected |
| Execute.ClaimsHold | src/execute/mod.rs:145-181 | `Checkmate` is never returned; a plain move that succeeds made a move of the side to move, the board is what `checked_translate` as written leaves, and the marker's claim holds on it |
| Execute.ClaimsHoldCorrected | src/execute/mod.rs:145-181 | the same for the corrected `execute`, whose board is the corrected commit's |
| Execute.RefusalsKeepBoard | src/execute/mod.rs:137-143 | an unreadable origin, "nothing to move", or a refused commit leaves the board unchanged; after a commit the board is the one `checked_translate` as written leaves, whatever the verdict |
| Pgn.ParseGame | src/input/pgn.rs:53-91 | the draining loop computes the turn sequence |
| Pgn.TurnsBound | src/input/pgn.rs:59 | at most (tokens-1)/3 turns, none from three tokens or fewer |
| Pgn.TurnsFromGroups | src/input/pgn.rs:66-88 | turn k comes from group k: a number token without '{', the white move second, the black move third unless it holds '{' |
| Pgn.MissingBlackEnds | src/input/pgn.rs:75-88 | a turn without a black move is the last |
| Pgn.TurnsWithoutAnnotations | src/input/pgn.rs:57-64 | without '{', the turn count is exactly (tokens-1)/3 and every turn has a black move |
| Pgn.Examples | src/input/pgn.rs:53-91 | three tokens give no turn, a fourth lets the group through, and a '{' ends the game with or without the turn |
| Fen.EntityFromChar | src/board/mod.rs:65 | exactly the twelve piece letters decode |
| Fen.EntityText | src/board/mod.rs:259-263 | each piece prints as one character |
| Fen.SymbolRoundTrip | src/board/mod.rs:259-263 | each piece's FEN letter is an ASCII letter that decodes back to the same piece and team |
| Fen.Symbols | src/board/mod.rs:259-263 | the twelve FEN letters |
| Fen.RankFen | src/board/mod.rs:250-275 | the inner loop prints one rank |
| Fen.Encode | src/board/mod.rs:247-289 | the loops print the six-field record |
| Fen.EmptyRow | src/board/mod.rs:255-270 | an empty rank prints "8" |
| Fen.StartingRows | src/board/mod.rs:543-574 | the ranks of the initial position print "rnbqkbnr", "pppppppp", four "8", "PPPPPPPP", "RNBQKBNR" |
| Fen.StartingPlacement | src/board/mod.rs:543-574 | the placement field of the initial position, rank 8 first |
| Fen.StartingFen | src/board/mod.rs:543-574 | the initial position prints "rnbqkbnr/pppppppp/8/8/8/8/PPPPPPPP/RNBQKBNR w KQkq - 0 1" |
| Fen.FieldWords | src/board/mod.rs:276-287 | every printed field is a non-empty word without whitespace |
| Fen.PlaceRow | src/board/mod.rs:58-81 | decoding a rank changes only the grid, and only that rank |
| Fen.PlaceRank | src/board/mod.rs:61-80 | the character loop decodes one rank |
| Fen.PlaceRanks | src/board/mod.rs:56-81 | decoding the ranks changes only the grid |
| Fen.ExtraRank | src/board/mod.rs:58-81 | a ninth or later rank decodes only when it holds digits, and then changes nothing |
| Fen.RankDecode | src/board/mod.rs:58-81 | reading back a printed rank restores it |
| Fen.RanksDecode | src/board/mod.rs:56-81 | reading back the printed ranks restores every rank |
| Fen.EnPassantOf | src/board/mod.rs:89-92 | a square exactly when `notation` reads one; a panic exactly when `notation` panics |
| Fen.EnPassantRoundTrip | src/board/mod.rs:89-92 | reading back a printed en-passant field restores it |
| Fen.Decode | src/board/mod.rs:40-101 | a record without exactly six fields fails with the count; a success equals a new board except for placement, turn, castling and en-passant square |
| Fen.TryFrom | src/board/mod.rs:40-101 | the loops decode the record |
| Fen.DecodeEncode | src/board/mod.rs:40-101 | reading back a printed board restores placement, turn, castling and en-passant square, with a new board's clocks and history |
| Fen.StartingDecodes | src/board/mod.rs:543-574 | the initial record decodes to the initial position |

## Left out

- **Value semantics.** An `OptSq::overwrite`, a `Castling::revoke` or a `History::push`/`pop` that mutates in place is modelled as a function returning the new value. The board that holds these is itself cloned for every trial move. The model therefore captures no aliasing.
- **Machine integers.** Integers are unbounded. Only the overflows the engine can reach are written out:
  - the `isize`-to-`usize` cast of the pawn's forward square (`Squares.AsUsize`);
  - the `u8` file character of a printed square (the `Printable` precondition of `Fen.FenText`);
  - the `usize` underflows of `letter_index` on digits and of `7 - i` in a ninth FEN rank.

  Clock overflow is not modelled.
- **Not modelled at all:**
  - `println!` debugging and the test-only prints;
  - display, game loop, computer player, opening book, `main`, `input::read` and the dead `board_result.rs`, because they do I/O or are not compiled.
- **Helpers whose bodies are not shown get assumed contracts:**
  - `Entity::from(char)`: case gives the team, via `From<char> for Piece`;
  - `Castling` from `&str`: a right is granted when its letter occurs;
  - `get_king_status`: as `KingStatus::from`;
  - `position_indicator`: a rank digit or a file letter.
- **Unified generator signatures.** The generators take differing `Piece` and `Option<Piece>` filters; they all take `Option<Piece>` here, and `helper::get_translations` passes `Some(kind)`.
- **FEN clocks:** `try_from` does not read the half-move clock and full-move number, and neither does the model.
- **Signatures and output types:**
  - the `SqLike` result type of the generators is always `Sq`;
  - `Display` of `Instruction` and of a PGN turn is not modelled.
- **No checkmate result:** `Checkmate` is declared but never returned by `execute`. `Execute.ClaimsHold` proves that and no more.
- **Concrete game tests:** not modelled, because each needs every generated move of a concrete board to pass through the check test. These are:
  - the history after "a4";
  - "e4 f5 Qh5+" and "Re3+";
  - "c3 d5 c4 d4 e4 dxe3";
  - the knight locates (b1 to a3, Nf6, Ncb5/Ndb4/N4c6, the pinned knight);
  - the bishop located from (4,4), and its unreachable and own-square cases;
  - the promotion games (bxc8=Q#, a8=Q, h1=N);
  - "e4#" failing;
  - "a6" while in check;
  - check_mate and stalemate being false initially, and the stalemate game.

  The general lemmas behind them are proved: `LocatedIsLegal`, `PermittedMeaning`, `ClaimsHold`, `StuckMeaning`, `CastleEffect`, `PromotionEffect`.
- Squares.Sq.Display: stated only for on-board squares and for files whose `u8` character does not overflow.

## Findings

| source | as written | input that shows it | evidently intended | confidence | as-written member | corrected member |
|---|---|---|---|---|---|---|
| src/board/mod.rs:167-171 | `checked_translate` copies board, turn, castling, en-passant square and halfmove back from the trial copy, but not fullmove | any Black move played with `checked_translate`, e.g. "e4" then "e5": fullmove stays 1 | fullmove grows by one after Black's move, as `translate` counts it | not executed; high | Rules.FullmoveLost | Rules.CommitFullmove |
| src/execute/special.rs:28-31 | castling runs `translate` twice (king, then rook), so both clocks are counted twice | Black castles short with king and rook home and f8, g8 empty: halfmove grows by 2 and fullmove by 2 | a castling counts as one move | not executed; medium | Special.CastleClocksTwice | Special.CastleMoveClocks |
| src/execute/mod.rs:118-126 | when the named piece cannot be located, the pawn locate runs even though a piece letter was read | "Bf3" from the initial position: no bishop reaches f3, so the f2 pawn is moved to f3 | a token naming a piece moves only that piece, and otherwise reports "nothing to move" | not executed; high | Execute.NamedPieceAsWritten | Execute.NamedPiece |
