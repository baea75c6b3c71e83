# TerminalChess rules engine in Dafny

This project models the rules engine of TerminalChess, a terminal chess
program with three variants on one shared engine:

- standard chess (`ChessGame`);
- King of the Hill (`KOTHChessGame`), where a king reaching one of the four
  centre squares wins;
- Spooky chess (`SpookyChessGame`), where a neutral ghost jumps to a
  pseudo-random square after every move and destroys what stands there.

Module by module:

- **Pieces, positions, status codes.** Pieces are values:
  `Piece(owner, kind, moved)`. Positions are pairs of naturals. The status
  codes of `Game.h` form a datatype that carries its integer codes.
- **Shape tests** (`ChessPiece.cpp`). These are specification functions
  (`Shape`), with one method per `valid_move_shape` that builds the
  trajectory with the source's loops and is proved to yield `Shape`.
- **Engine** (`Game.cpp`). `Game` is a class over an `array<Option<Piece>>`
  (the `_pieces` vector) with a turn counter and a factory registry.
  - Each engine routine is a method proved against a specification function
    of module `Rules`:
    - `check_blocked` against `TrajectoryBlocked`;
    - `checked` against `InCheck`;
    - `can_castle` and `check_castle_checking` against `CastleAllowed` and
      `CastleWalk`;
    - `can_make_move` against the layered `Verdict`;
    - `player_can_move` against `CanMove`;
    - `make_move_helper` against `MoveHelper`.
  - The central guarantees are proved in `RulesFacts`:
    - a move the engine accepts never leaves the mover's king attacked;
    - it keeps both kings on the board;
    - it changes only the squares it touches.
- **Variants.** Each variant class holds the engine and resolves an accepted
  move into check, checkmate, stalemate, a captured hill, or a ghost move.
  That resolution is proved against a function of the board. Lemmas state
  when each outcome is reported and when the turn passes.

## Model

| member | source | states |
|---|---|---|
| `Enumerations.Opponent` | Game.cpp:476 | `1 - play` maps each real player to the other one, never to NO_ONE, and the codes satisfy `code(o) == 1 - code(p)` |
| `Enumerations.OpponentInvolution` | Game.cpp:476 | taking the opponent twice gives back the player |
| `Pieces.KindOfCode` | Piece.h:13-21 | an integer names a kind exactly when it is in 0..6, and then that kind's code is the integer |
| `Pieces.KindCodesAreExactly` | Piece.h:13-21 | the kind codes are injective and invert `KindOfCode`, with GHOST_ENUM = 6 |
| `Pieces.Piece.SetMoved` | Piece.h:67-69 | `set_moved(b)` makes `has_moved()` return `b` and keeps owner and kind |
| `Pieces.PieceFactory.NewPiece` | Piece.h:40-42 | a factory builds a piece of its own kind for the given owner, not yet moved |
| `Pieces.SetMovedOverwrites` | Piece.h:67-71 | setting the flag twice keeps only the last value; owner and kind never change |
| `Boards.StatusCodeRanges` | Game.h:11-34 | errors are exactly the codes -10..-1, outcomes are >= 1, and the game-ending outcomes are exactly the codes >= MOVE_CHECKMATE |
| `Boards.StatusCodesDistinct` | Game.h:15-34 | no two statuses share a code |
| `Boards.PlayerTurn` | Game.h:69-71 | `player_turn()` is WHITE on odd turns and BLACK on even ones, never NO_ONE, with the code `!(turn % 2)` |
| `Boards.IndexInRange` | Game.h:117-119 | the row-major index of a valid position is below `width * height` |
| `Boards.IndexInjective` | Game.h:117-119 | two valid positions with the same index are equal |
| `Boards.PosOf` | Game.cpp:533 | `Position(i % width, i / width)` is valid and has index `i` |
| `Boards.Board.At` | Game.cpp:58-65 | `get_piece` returns the cell at the position's index for a valid position and nothing off the board |
| `Boards.EmptyBoard` | Game.h:48-49 | a fresh board has `w * h` cells, every valid square empty |
| `ChessPiece.FileBetween` | ChessPiece.cpp:49-61 | the squares of a file strictly between two ranks, `max - min - 1` of them, lowest rank first |
| `ChessPiece.RankBetween` | ChessPiece.cpp:63-75 | the squares of a rank strictly between two files, lowest file first |
| `ChessPiece.DiagonalBetween` | ChessPiece.cpp:95-123 | the `|dx| - 1` diagonal squares stepping from the start toward the end |
| `ChessPieceMoves.FileTrajectory` | ChessPiece.cpp:51-60 | the rook's file loops push exactly `FileBetween`, whichever way the rook goes |
| `ChessPieceMoves.RankTrajectory` | ChessPiece.cpp:65-74 | the rook's rank loops push exactly `RankBetween` |
| `ChessPieceMoves.DiagonalTrajectory` | ChessPiece.cpp:97-122 | the four diagonal loops push exactly `DiagonalBetween` |
| `ChessPieceMoves.PawnValidMoveShape` | ChessPiece.cpp:12-42 | the pawn test returns the validity and trajectory of `PawnShape` |
| `ChessPieceMoves.RookValidMoveShape` | ChessPiece.cpp:47-78 | the rook test returns `RookShape` |
| `ChessPieceMoves.BishopValidMoveShape` | ChessPiece.cpp:93-126 | the bishop test returns `BishopShape` |
| `ChessPieceMoves.QueenValidMoveShape` | ChessPiece.cpp:129-190 | the queen test returns `QueenShape`: diagonal first, then file, then rank |
| `ChessPieceMoves.ValidMoveShape` | Piece.h:73 | the virtual `valid_move_shape` returns `Shape` for every kind |
| `ChessPieceFacts.PawnKeepsFile` | ChessPiece.cpp:14-16 | a pawn's shape never changes file |
| `ChessPieceFacts.WhitePawnShape` | ChessPiece.cpp:17-28 | a White pawn goes one rank up, or two from rank 1 through rank 2, and nothing else |
| `ChessPieceFacts.BlackPawnShape` | ChessPiece.cpp:29-41 | any other pawn goes one rank down, or two from rank 6 through rank 5, and nothing else |
| `ChessPieceFacts.RookShapeExactly` | ChessPiece.cpp:47-78 | a rook shape is valid iff exactly one coordinate changes; the trajectory is every square strictly between, in increasing order |
| `ChessPieceFacts.KnightShapeExactly` | ChessPiece.cpp:82-90 | a knight shape is valid iff the move is (1,2) or (2,1) in absolute value, with no trajectory |
| `ChessPieceFacts.BishopShapeExactly` | ChessPiece.cpp:93-126 | a bishop shape is valid iff `|dx| == |dy| != 0`; the trajectory is the `|dx| - 1` diagonal steps |
| `ChessPieceFacts.QueenIsRookOrBishop` | ChessPiece.cpp:129-190 | a queen shape is valid iff a rook or bishop shape is, with the same trajectory |
| `ChessPieceFacts.KingAndGhostShapes` | ChessPiece.cpp:193-209 | a king steps exactly one square in any direction; a ghost never has a valid shape |
| `ChessPieceFacts.FailedShapeIsEmpty` | ChessPiece.cpp:8-11 | a failed shape has an empty trajectory, and no valid shape stays in place |
| `ChessPieceFacts.TrajectoryOnBoard` | ChessPiece.cpp:47-190 | between two valid squares every trajectory square is on the board and is neither end |
| `ChessPieceFacts.StraightOnBoard` | ChessPiece.cpp:47-78 | the straight-line trajectory lies on the board, strictly between its ends |
| `ChessPieceFacts.DiagonalOnBoard` | ChessPiece.cpp:93-126 | the diagonal trajectory lies on the board, strictly between its ends |
| `Rules.LastKing` | Game.cpp:548-553 | the king scan keeps the last king of `play` in scan order; none at all when there is no king |
| `Rules.KingSquare` | Game.cpp:548-553 | the square `checked` looks at is valid and holds a king of `play` |
| `Rules.CastleStages` | Game.cpp:610-672 | the three scratch boards of the castling walk keep `play`'s king on the board |
| `Rules.Relocated` | Game.cpp:495-505 | the king-safety simulation board has the same dimensions; what it holds (the piece on `e`, `s` empty, every other square unchanged) is stated by `RulesFacts.PlainMoveEffect` |
| `Rules.RelocationKeepsKing` | Game.cpp:495-505 | moving one's own piece onto a square not holding one's own piece leaves one's king on the board |
| `Rules.Verdict` | Game.cpp:468-515 | `can_make_move` returns one of its seven statuses; anything but MOVE_ERROR_NO_PIECE means the mover owns the start; an accepted two-file king move is a castling `can_castle` allowed |
| `Rules.Castled` | Game.cpp:429-440 | the castling relocation keeps the board's dimensions; where king and rook land and that no other square changes is stated by `RulesFacts.CastleEffect` |
| `Rules.Placed` | Game.cpp:446-455 | the destination gets the mover's piece, or a queen of the mover when a pawn reaches the far rank, marked as moved |
| `Rules.MoveHelper` | Game.cpp:395-462 | the board left by `make_move_helper` keeps its dimensions; its status and effect are stated by `RulesFacts.MoveOutcome` (errors change nothing, a move is made exactly on SUCCESS) and `RulesFacts.MoveLeavesKingSafe` (an accepted move leaves the mover's king unattacked) |
| `RulesFacts.LastKingSame` | Game.cpp:548-553 | boards the check oracle cannot tell apart give the same king scan |
| `RulesFacts.BlockedSame` | Game.cpp:520-528 | `check_blocked` depends only on which squares are occupied |
| `RulesFacts.InCheckSame` | Game.cpp:547-571 | `checked` answers the same on boards with the same occupancy, owners, kings and opponent pieces |
| `RulesFacts.VerdictOwnership` | Game.cpp:468-473 | MOVE_ERROR_NO_PIECE exactly when the start is not the mover's; every verdict >= 0 is SUCCESS and lands on an empty or enemy square |
| `RulesFacts.AcceptedDestination` | Game.cpp:492-494 | an accepted move lands on an empty square or on a piece of the other side |
| `RulesFacts.VerdictLayers` | Game.cpp:477-511 | MOVE_ERROR_CANT_CASTLE and MOVE_ERROR_ILLEGAL exactly in terms of the castling and shape rules; the king-safety refusals imply the simulation's result; an accepted ordinary move passed the shape or pawn capture, an empty or enemy destination and a clear path |
| `RulesFacts.VerdictRefusals` | Game.cpp:477-514 | an allowed castling is accepted; MOVE_ERROR_BLOCKED exactly when a legal shape or pawn capture meets a pawn pushing into a piece, a destination not the other side's, or an occupied trajectory square; MOVE_ERROR_MUST_HANDLE_CHECK and MOVE_ERROR_CANT_EXPOSE_CHECK exactly when an unblocked move leaves the mover attacked, split on whether it was attacked before |
| `RulesFacts.PawnNeverCapturesAhead` | Game.cpp:489-491 | a pawn moving along its file onto an occupied square is refused |
| `RulesFacts.SuccessPassedSimulation` | Game.cpp:495-514 | an accepted non-castling move passed the simulation: after relocation the mover's king is not attacked |
| `RulesFacts.CastleLeavesKingSafe` | Game.cpp:610-672 | an allowed castling's relocation is the walk's last board, so the king lands on `e` unattacked |
| `RulesFacts.MoveLeavesKingSafe` | Game.cpp:395-462 | whenever `make_move_helper` reports success or capture, the mover still has a king and it is not in check |
| `RulesFacts.PlacementKeepsSafety` | Game.cpp:446-455 | marking the piece moved or promoting it to a queen changes nothing the check oracle sees |
| `RulesFacts.MoveOutcome` | Game.cpp:395-462 | out of bounds exactly when a square is off the board; errors leave the board as it was; a move is made exactly when the verdict is SUCCESS, and it is a capture exactly when the destination was occupied |
| `RulesFacts.PlainMoveEffect` | Game.cpp:442-455 | an ordinary move puts the placed piece on `e`, empties `s`, and changes no other square |
| `RulesFacts.CastleEffect` | Game.cpp:429-440 | a castling puts the king, marked moved, on `e`; it puts the unmoved rook on the square the king passed over; it empties both old squares and changes no other square |
| `RulesFacts.CastleSquares` | Game.cpp:574-603 | before an allowed castling the king is the mover's and the square it passes over is empty |
| `RulesFacts.MoveFrame` | Game.cpp:395-462 | a piece that is not the mover's, not a rook, and not on the destination keeps its square |
| `RulesFacts.CastleFrame` | Game.cpp:429-440 | the castling case of the frame property |
| `RulesFacts.CastlePathEmpty` | Game.cpp:578-591 | an allowed castling passes over an empty square beside the king |
| `RulesFacts.PlainFrame` | Game.cpp:442-445 | the ordinary-move case of the frame property |
| `RulesFacts.GhostStays` | Game.cpp:492-494 | a player's move never moves or captures the ownerless ghost |
| `RulesFacts.MoveKeepsOpponentKing` | Game.cpp:395-462 | a move not landing on the other side's king leaves that side a king |
| `RulesFacts.MoveKeepsProbeSafe` | Game.cpp:429-445 | after a move every unmoved king still has its castling rook probes inside the vector |
| `RulesFacts.CastleKeepsProbeSafe` | Game.cpp:429-440 | the castling case of the probe property, square by square |
| `RulesFacts.PlainKeepsProbeSafe` | Game.cpp:442-445 | the ordinary-move case of the probe property, square by square |
| `RulesFacts.KingCaptureNeedsCheck` | Game.cpp:468-515 | a move accepted onto the other side's only king means that side was already in check |
| `RulesFacts.AcceptedCaptureAttacks` | Game.cpp:477-494 | a move accepted onto a piece of the other side is an attack, in the sense `checked` uses, of the mover's piece on that square |
| `RulesFacts.AcceptedPawnCapture` | Game.cpp:485-491 | a pawn's accepted move onto an enemy piece is a diagonal pawn capture |
| `RulesFacts.AcceptedShapeCapture` | Game.cpp:477-494 | any other piece's accepted move onto an enemy piece follows its shape along an empty trajectory |
| `RulesFacts.OccupiedTargetBarsCastle` | Game.cpp:574-603 | castling is never allowed onto an occupied square |
| `Engine.CheckBlocked` | Game.cpp:520-528 | the scan returns true exactly when some trajectory square is occupied |
| `Engine.Checked` | Game.cpp:547-571 | the two scans return exactly `InCheck`: some opponent piece attacks the last king of `play` |
| `Engine.CheckCastleChecking` | Game.cpp:610-672 | the walk on the scratch copy returns exactly `CastleWalk`: not in check now, nor with the king one square or two squares along, nor with the rook beside it |
| `Engine.CanCastle` | Game.cpp:574-603 | returns exactly `CastleAllowed`: unmoved king, two files along its rank, empty squares, unmoved rook at +3 or -4, safe walk |
| `Engine.Game.constructor` | Game.h:48-49 | `w * h` empty squares, turn `t`, no factories |
| `Engine.Game.GetPiece` | Game.cpp:58-65 | the occupant of a valid square, nothing off the board |
| `Engine.Game.NewPiece` | Game.cpp:170-180 | a piece exactly when the kind has a factory, built by that factory |
| `Engine.Game.AddFactory` | Game.cpp:187-203 | returns true exactly when the kind had no factory; the kind is registered afterwards |
| `Engine.Game.InitPiece` | Game.cpp:37-54 | succeeds exactly when the kind is registered, the square is valid and it is empty; on success only that square changes, to a fresh piece; on failure nothing changes |
| `Engine.Game.CanMakeMove` | Game.cpp:468-515 | returns exactly `Verdict` and does not change the board |
| `Engine.Game.CanMoveFrom` | Game.cpp:536-541 | the inner loop returns true exactly when the piece on square `i` has some destination with a verdict >= 0 |
| `Engine.Game.MoveAllowedAt` | Game.cpp:537-540 | one probe returns whether the move between two squares gets a verdict >= 0 |
| `Engine.Game.PlayerCanMove` | Game.cpp:531-545 | returns exactly `CanMove`: some piece of `play` has some move with a verdict >= 0 |
| `Engine.Game.Relocate` | Game.cpp:443-444 | the piece goes to `e` and `s` is emptied, as in `Relocated` |
| `Engine.Game.CastleRelocate` | Game.cpp:429-440 | the king and the rook move as in `Castled` |
| `Engine.Game.MakeMoveHelper` | Game.cpp:395-462 | status and new board are exactly `MoveHelper` of the old board for the player to move; the turn is untouched |
| `Chess.BackRank` | ChessGame.cpp:16-19 | the back rank holds no pawn and no ghost, and its king is on file e (x = 4) |
| `Chess.StandardCell` | ChessGame.cpp:20-25 | opening occupants are exactly on ranks 0, 1, 6, 7, White below rank 2, pawns on ranks 1 and 6, none moved |
| `Chess.Layout` | ChessGame.cpp:20-25 | after `n` files every square of the first `n` files holds its opening occupant and the rest are empty |
| `Chess.StandardLayoutReady` | ChessGame.cpp:14-26 | the opening position has one king per side, on e1 (index 4) and e8 (index 60), and all castling probes are in range |
| `Chess.LayoutStep` | ChessGame.cpp:20-25 | the four placements of one loop pass turn the `i`-file layout into the `i + 1`-file layout |
| `Chess.PlaceStandardPieces` | ChessGame.cpp:20-25 | the placing loop turns the empty board into the opening position |
| `Chess.PlaceFile` | ChessGame.cpp:21-24 | one pass of the loop places file `i` |
| `Chess.ChessResolve` | ChessGame.cpp:103-119 | the resolution never turns an accepted move into an error status |
| `Chess.ChessResolveMeaning` | ChessGame.cpp:103-119 | checkmate exactly when the opponent is attacked and has no move, stalemate exactly when it is not attacked and has no move, check or checkmate exactly when it is attacked, the move's own status otherwise; the turn passes exactly on check, success and capture |
| `Chess.ChessOutcome` | ChessGame.cpp:98-120 | defined for every move the engine refuses and every accepted move that does not take the opponent's king; the board is the engine's; the result is an error exactly when the engine refused, and then it is the engine's status and the turn does not pass |
| `Chess.AcceptedMoveReady` | Game.cpp:395-462 | an accepted move keeps both kings and the probes in range, and leaves the mover unattacked |
| `Chess.OpeningKingReachRefused` | Game.cpp:468-515 | a move onto the opponent's king can be refused: from the opening, the king on e1 cannot take the one on e8, the verdict is MOVE_ERROR_ILLEGAL and the board is unchanged |
| `Chess.ChessGame.constructor` | ChessGame.cpp:14-26 | turn 1 with White to move, the six chess factories, the opening position |
| `Chess.ChessGame.MakeMove` | ChessGame.cpp:98-120 | for any move the engine refuses, and any accepted move that does not take the opponent's king, status, board and turn are those of `ChessOutcome` on the old board |
| `Chess.ChessGame.Resolve` | ChessGame.cpp:103-119 | the checks after an accepted move return `ChessResolve` of the board |
| `Chess.ChessGame.GameOver` | ChessGame.cpp:123-126 | the game is over exactly when the player not to move has no move |
| `KingOfTheHill.HillMeansKingOnHill` | KOTHChessGame.cpp:126-139 | with one king the hill is conquered exactly when that king is on d4, e4, d5 or e5 |
| `KingOfTheHill.KothResolve` | KOTHChessGame.cpp:90-117 | the resolution never turns an accepted move into an error status |
| `KingOfTheHill.KothResolveMeaning` | KOTHChessGame.cpp:90-117 | the game ends exactly on no opponent move or a conquered hill; MOVE_CHECKMATE exactly on an attacked opponent without a move; MOVE_CAPTURE_HILL exactly on a conquered hill without that checkmate; MOVE_STALEMATE exactly on an unattacked opponent without a move and no hill; MOVE_CHECK exactly on an attacked opponent with a move and no hill; the turn passes exactly on check, success and capture |
| `KingOfTheHill.KothOutcome` | KOTHChessGame.cpp:90-117 | defined for every move the engine refuses and every accepted move that does not take the opponent's king; the board is the engine's; the result is an error exactly when the engine refused, and then it is the engine's status and the turn does not pass |
| `KingOfTheHill.KothChessGame.constructor` | KOTHChessGame.cpp:14-26 | turn 1 with White to move, the six chess factories, the opening position |
| `KingOfTheHill.KothChessGame.ConqueredHill` | KOTHChessGame.cpp:126-139 | the scan returns whether the first king of `play` stands on the hill |
| `KingOfTheHill.KothChessGame.MakeMove` | KOTHChessGame.cpp:90-117 | for any move the engine refuses, and any accepted move that does not take the opponent's king, status, board and turn are those of `KothOutcome` on the old board |
| `KingOfTheHill.KothChessGame.Resolve` | KOTHChessGame.cpp:95-116 | the tests after an accepted move return `KothResolve` of the board |
| `KingOfTheHill.KothChessGame.GameOver` | KOTHChessGame.cpp:120-123 | over exactly when the opponent cannot move or the player to move holds the hill |
| `Spooky.Rng.constructor` | SpookyChessGame.cpp:28 | a generator with the given stream and no draws |
| `Spooky.Rng.Reseed` | SpookyChessGame.cpp:28 | `srand(SEED)` restarts the stream |
| `Spooky.Rng.Rand` | SpookyChessGame.cpp:162 | `rand()` yields the next value of the stream and counts the draw |
| `Spooky.GhostRelocation` | SpookyChessGame.cpp:168-175 | the ghost's jump keeps the board's dimensions; that it lands where it was sent, changes only its two squares and never takes a king is stated by `Spooky.GhostMoveKeepsKings` |
| `Spooky.GhostMoveDeterministic` | SpookyChessGame.cpp:53-62 | from the same board, ghost square and draw count a ghost move has one outcome, so replaying the draw count restores the generator |
| `Spooky.GhostMoveKeepsKings` | SpookyChessGame.cpp:161-181 | the ghost never takes a king; it stands on its new square, only its two squares change, and the board stays ready |
| `Spooky.SpookyAfterGhostMeaning` | SpookyChessGame.cpp:126-157 | after the ghost, the game ends exactly when a side cannot move or the mover alone is in check; MOVE_CHECKMATE exactly when a side is attacked without a move or the mover alone is attacked while both can move; MOVE_STALEMATE exactly when a side has no move and neither side is checkmated; check exactly when the opponent is attacked and both can move; the turn passes exactly when play goes on |
| `Spooky.SpookyEarlyOutcome` | SpookyChessGame.cpp:107-121 | defined for every refused move and every accepted move that does not take the opponent's king; an engine refusal is reported as is; when nothing ends the game before the ghost, the move was accepted and the board is ready |
| `Spooky.SpookyLayout` | SpookyChessGame.cpp:15-27 | the spooky opening is an 8 x 8 board; that it is ready for play, with the ghost on index 32 and the kings on 4 and 60, is stated by `Spooky.SpookyLayoutReady` |
| `Spooky.SpookyLayoutReady` | SpookyChessGame.cpp:15-27 | the spooky opening is ready, with the ghost on index 32 and the kings on 4 and 60 |
| `Spooky.NewSpookyEngine` | SpookyChessGame.cpp:15-27 | turn 1, the chess factories plus the ghost's, and the spooky opening |
| `Spooky.Checkmated` | SpookyChessGame.cpp:113 | returns exactly "in check and no move" |
| `Spooky.EitherStuck` | SpookyChessGame.cpp:136 | returns exactly "one of the two sides has no move" |
| `Spooky.SpookyChessGame.constructor` | SpookyChessGame.cpp:15-29 | the spooky opening, ghost on 32, no draws, generator seeded |
| `Spooky.SpookyChessGame.ReplayDraws` | SpookyChessGame.cpp:53-62 | after reseeding and discarding `calls` values, the counter and the generator both stand at `calls` |
| `Spooky.SpookyChessGame.DrawSquare` | SpookyChessGame.cpp:162-163 | one draw: the next stream value modulo 64, with both counters advanced by one |
| `Spooky.SpookyChessGame.DrawGhostSquare` | SpookyChessGame.cpp:162-167 | the draws land on kings until the last one, which does not; the square is the last draw modulo 64 |
| `Spooky.SpookyChessGame.MoveGhost` | SpookyChessGame.cpp:161-181 | the game makes exactly one `GhostMove` and stays valid; it reports a capture exactly when the ghost lands on an occupied square other than its own |
| `Spooky.SpookyChessGame.BeforeGhost` | SpookyChessGame.cpp:112-121 | returns `SpookyBeforeGhost`: checkmate, then stalemate of the opponent |
| `Spooky.SpookyChessGame.AfterGhost` | SpookyChessGame.cpp:126-157 | returns `SpookyAfterGhost` of the board the ghost left |
| `Spooky.SpookyChessGame.ReportChecks` | SpookyChessGame.cpp:140-157 | returns the check tests of `SpookyChecks` |
| `Spooky.SpookyChessGame.MakeMove` | SpookyChessGame.cpp:107-158 | for any refused move and any accepted move that does not take the opponent's king: a refusal or an early end changes nothing but the engine's board; otherwise exactly one ghost move follows and status and turn are `SpookyAfterGhost` of the board it leaves |
| `Spooky.SpookyChessGame.EngineMove` | SpookyChessGame.cpp:108-111 | for any refused move and any accepted move that does not take the opponent's king, the engine move is `MoveHelper`; the game stays valid and the ghost stays |
| `Spooky.SpookyChessGame.Resolve` | SpookyChessGame.cpp:112-157 | an early end changes nothing; otherwise one ghost move, then `SpookyAfterGhost` |
| `Spooky.SpookyChessGame.GameOver` | SpookyChessGame.cpp:185-188 | over exactly when either side has no move |

## Left out

- Terminal I/O is not modelled: the prompts, board printing, the main loop
  (`run`, `process_input`, `process_move`), and `Play.cpp`'s menu.
- Save files are not modelled. The load constructors' file parsing and
  `save_file` are file I/O. Only the draw-count replay of the spooky loading
  constructor is kept (`ReplayDraws`).
- Heap management is not modelled: factories as objects, `delete` of
  captured pieces, and destructors. The registry is a set of kinds, and a
  factory builds `Piece(owner, kind, false)`.
- `rand()` is a parameter. `Rng` holds an arbitrary stream of naturals;
  the C library generator is not part of this model.
- `Spooky.SpookyChessGame.constructor` requires `Fair(stream, 64)`: every
  square keeps coming up. The class invariant carries this to `MakeMove`.
  Without it, the source's redraw loop need not end.
- `Engine.Game.MakeMoveHelper` requires that the mover has a king and that
  every unmoved king has its castling rook probes inside the vector
  (`AllProbeSafe`). It also requires a queen factory: promotion calls
  `init_piece` for a queen, and without that factory the destination stays
  empty and the source's `set_moved` call dereferences a null pointer.
  `Engine.Checked` requires only the king. Without a king
  the source reads an uninitialised `king_pos`; out-of-range probes read
  outside `_pieces`.
- `Chess.ChessGame.MakeMove` excludes only a move that the engine accepts
  and that takes the opponent's king, because the source's check scan would
  then read an uninitialised `king_pos`. A move onto that king which the
  engine refuses is modelled; `Chess.OpeningKingReachRefused` gives one. For
  chess, `KingCaptureNeedsCheck` shows that such a capture is only accepted
  when that king was already in check.
- `KingOfTheHill.KothChessGame.MakeMove` excludes the same case, for the
  same reason.
- `Spooky.SpookyChessGame.MakeMove` excludes the same case. Here it is not
  justified by play: a ghost move can leave a side in check on its
  opponent's turn.
- `Engine.Game.constructor` has no default arguments. The source's
  defaults (turn 1, 8 x 8, no board printing) are what every variant's
  `Game()` call uses, so the variants here pass 1, 8 and 8 explicitly. The
  print flag is left out with the rest of the terminal output.
- Integer width is not modelled. The `int` turn counter and the unsigned
  `_random_calls` are unbounded here, so their overflow is not modelled.
- `Engine.CheckCastleChecking` does not model the source's restoring writes
  to the scratch copy. Every caller discards that copy.
- `ChessPieceMoves.ValidMoveShape` returns the trajectory instead of
  appending it to a caller's vector. Every caller passes an empty one.
- The loading constructor's `_ghost_location` is not modelled. It stays
  unset when a file holds no ghost.
- The `abs(start.y - end.y)` of `King::valid_move_shape` is read as the
  absolute difference. In the source it is an unsigned subtraction, which
  `abs` brings back to the same value.
- Castling does not check the rook's owner, in the source or in this model.
- In Spooky chess a mover left in check by the ghost is reported as
  checkmated, even when it has moves. This model keeps that behaviour.
