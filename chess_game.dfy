/**
 * Standard chess on the engine (ChessGame.cpp): the opening layout, the
 * factory registry of the six chess kinds, and the resolution of a move
 * into check, checkmate, stalemate or an ordinary result.
 */
module Chess {
  import opened Wrappers
  import opened Enumerations
  import opened Pieces
  import opened Boards
  import opened Rules
  import opened RulesFacts
  import opened Engine

  /** The kinds every chess variant registers a factory for. */
  const ChessKinds: set<Kind> := {Pawn, Rook, Knight, Bishop, Queen, King}

  /** The back rank, file by file: rook, knight, bishop, queen, king, bishop, knight, rook. */
  function BackRank(x: nat): (k: Kind)
    requires x < 8
    ensures k == King <==> x == 4
    ensures k != Pawn && k != Ghost
  {
    [Rook, Knight, Bishop, Queen, King, Bishop, Knight, Rook][x]
  }

  /** The opening occupant of file `x`, rank `y`: White on ranks 0 and 1, Black on ranks 6 and 7. */
  function StandardCell(x: nat, y: nat): (c: Option<Piece>)
    requires x < 8
    ensures c.Some? <==> y in {0, 1, 6, 7}
    ensures c.Some? ==> !c.value.moved && (c.value.owner == White <==> y < 2) && c.value.owner != NoOne
    ensures c.Some? ==> (c.value.kind == Pawn <==> y == 1 || y == 6)
  {
    if y == 0 then Some(Piece(White, BackRank(x), false))
    else if y == 1 then Some(Piece(White, Pawn, false))
    else if y == 6 then Some(Piece(Black, Pawn, false))
    else if y == 7 then Some(Piece(Black, BackRank(x), false))
    else None
  }

  /** The 8 x 8 board with the opening pieces of the first `n` files placed. */
  function Layout(n: nat): (b: Board)
    ensures b.Wf() && b.w == 8 && b.h == 8
    ensures forall k | 0 <= k < 64 :: b.cells[k] == if k % 8 < n then StandardCell(k % 8, k / 8) else None
  {
    Board(8, 8, seq(64, (k: nat) => if k % 8 < n then StandardCell(k % 8, k / 8) else None))
  }

  /** The opening position. */
  function StandardLayout(): Board
  {
    Layout(8)
  }

  /** A board the move resolvers can work on: both sides have a king and the castling probes stay on the board. */
  ghost predicate Ready(b: Board)
  {
    b.Wf() && HasKing(b, White) && HasKing(b, Black) && AllProbeSafe(b)
  }

  /**
   * The opening position is ready for play: each side has exactly one king,
   * White's on e1 (index 4) and Black's on e8 (index 60), and both are far
   * enough from the board's ends for the castling probes.
   */
  lemma StandardLayoutReady()
    ensures Ready(StandardLayout())
    ensures OneKing(StandardLayout(), White) && OneKing(StandardLayout(), Black)
    ensures IsKingOf(StandardLayout().cells[4], White) && IsKingOf(StandardLayout().cells[60], Black)
  {
    var b := StandardLayout();
    assert IsKingOf(b.cells[4], White);
    assert IsKingOf(b.cells[60], Black);
    forall p | b.Valid(p)
      ensures ProbeSafe(b, p)
    {
      IndexInRange(8, 8, p);
      var k := b.Idx(p);
      assert k % 8 == p.x && k / 8 == p.y;
    }
    forall i | 0 <= i < 64 && (IsKingOf(b.cells[i], White) || IsKingOf(b.cells[i], Black))
      ensures i == 4 || i == 60
    {
    }
  }

  /** One file of the opening set-up: files below `i` are placed, the next four squares are filled in. */
  lemma LayoutStep(i: nat)
    requires i < 8
    ensures Layout(i).Put(8 + i, StandardCell(i, 1)).Put(i, StandardCell(i, 0))
              .Put(56 + i, StandardCell(i, 7)).Put(48 + i, StandardCell(i, 6)) == Layout(i + 1)
  {
    var b := Layout(i).Put(8 + i, StandardCell(i, 1)).Put(i, StandardCell(i, 0))
              .Put(56 + i, StandardCell(i, 7)).Put(48 + i, StandardCell(i, 6));
    forall k | 0 <= k < 64
      ensures b.cells[k] == Layout(i + 1).cells[k]
    {
    }
  }

  /**
   * The piece-placing loop the chess constructors share: for each file, a
   * white pawn and back-rank piece and a black back-rank piece and pawn.
   */
  method PlaceStandardPieces(g: Game)
    requires g.Valid() && g.width == 8 && g.height == 8 && ChessKinds <= g.registered
    requires g.Snapshot() == EmptyBoard(8, 8)
    modifies g.pieces
    ensures g.Snapshot() == StandardLayout()
  {
    assert g.Snapshot() == Layout(0);
    for i := 0 to 8
      invariant g.Snapshot() == Layout(i)
    {
      PlaceFile(g, i);
    }
  }

  /** One pass of the placing loop: the four opening pieces of file `i`. */
  method PlaceFile(g: Game, i: nat)
    requires g.Valid() && g.width == 8 && g.height == 8 && ChessKinds <= g.registered
    requires i < 8 && g.Snapshot() == Layout(i)
    modifies g.pieces
    ensures g.Snapshot() == Layout(i + 1)
  {
    ghost var b0 := Layout(i);
    assert b0.cells[8 + i] == None && b0.cells[i] == None && b0.cells[56 + i] == None && b0.cells[48 + i] == None;
    var _ := g.InitPiece(Pawn, White, Position(i, 1));
    ghost var b1 := b0.Put(8 + i, StandardCell(i, 1));
    assert g.Snapshot() == b1;
    var _ := g.InitPiece(BackRank(i), White, Position(i, 0));
    ghost var b2 := b1.Put(i, StandardCell(i, 0));
    assert g.Snapshot() == b2;
    var _ := g.InitPiece(BackRank(i), Black, Position(i, 7));
    ghost var b3 := b2.Put(56 + i, StandardCell(i, 7));
    assert g.Snapshot() == b3;
    var _ := g.InitPiece(Pawn, Black, Position(i, 6));
    assert g.Snapshot() == b3.Put(48 + i, StandardCell(i, 6));
    LayoutStep(i);
  }

  /**
   * The resolution step of `ChessGame::make_move` after an accepted move
   * (status `st`, board `nb`): checkmate, check, stalemate or the move's own
   * status, and whether the turn passes.
   */
  function ChessResolve(st: Status, nb: Board, opp: Player): (r: (Status, bool))
    requires Ready(nb) && opp != NoOne
    ensures !st.IsError() ==> !r.0.IsError()
  {
    if InCheck(nb, opp) then
      if !CanMove(nb, opp) then (MoveCheckmate, false) else (MoveCheck, true)
    else if !CanMove(nb, opp) then (MoveStalemate, false)
    else (st, true)
  }

  /**
   * Checkmate and check are reported exactly when the opponent is attacked,
   * checkmate and stalemate exactly when the opponent has no move (checkmate
   * when attacked, stalemate when not), and the turn passes exactly on
   * check, success and capture.
   */
  lemma ChessResolveMeaning(st: Status, nb: Board, opp: Player)
    requires Ready(nb) && opp != NoOne && (st == Success || st == MoveCapture)
    ensures var (r, next) := ChessResolve(st, nb, opp);
            (r == MoveCheckmate || r == MoveCheck <==> InCheck(nb, opp))
            && (r.EndsGame() <==> !CanMove(nb, opp))
            && (next <==> r == MoveCheck || r == Success || r == MoveCapture)
            && (r == st <==> !InCheck(nb, opp) && CanMove(nb, opp))
            && (r == MoveCheckmate <==> InCheck(nb, opp) && !CanMove(nb, opp))
            && (r == MoveStalemate <==> !InCheck(nb, opp) && !CanMove(nb, opp))
  {
  }

  /**
   * `ChessGame::make_move` as a function of the board and the mover: the
   * status, the board left behind, and whether the turn passes. A move the
   * engine refuses is reported as is and keeps the turn.
   */
  function ChessOutcome(b: Board, play: Player, s: Position, e: Position): (r: (Status, Board, bool))
    requires Ready(b) && play != NoOne
    requires MoveHelper(b, play, s, e).0.IsError() || !IsKingOf(b.At(e), Opponent(play))
    ensures var m := MoveHelper(b, play, s, e);
            r.1 == m.1 && (r.0.IsError() <==> m.0.IsError()) && (m.0.IsError() ==> r.0 == m.0 && !r.2)
  {
    var m := MoveHelper(b, play, s, e);
    if m.0.IsError() then (m.0, m.1, false)
    else
      AcceptedMoveReady(b, play, s, e);
      MoveOutcome(b, play, s, e);
      var x := ChessResolve(m.0, m.1, Opponent(play));
      (x.0, m.1, x.1)
  }

  /**
   * An accepted move of a ready board leaves a ready board (both kings
   * present, castling probes on the board) with the mover's king unattacked.
   */
  lemma AcceptedMoveReady(b: Board, play: Player, s: Position, e: Position)
    requires Ready(b) && play != NoOne && !IsKingOf(b.At(e), Opponent(play))
    requires !MoveHelper(b, play, s, e).0.IsError()
    ensures Ready(MoveHelper(b, play, s, e).1) && !InCheck(MoveHelper(b, play, s, e).1, play)
  {
    MoveLeavesKingSafe(b, play, s, e);
    MoveKeepsOpponentKing(b, play, s, e);
    MoveKeepsProbeSafe(b, play, s, e);
    OpponentInvolution(play);
  }

  /**
   * A move onto the opponent's king can be refused, and is then within the
   * domain of the outcome functions: from the opening, White's king on e1
   * cannot take Black's on e8, and the board stays as it was.
   */
  lemma OpeningKingReachRefused()
    ensures Ready(StandardLayout()) && IsKingOf(StandardLayout().At(Position(4, 7)), Black)
    ensures MoveHelper(StandardLayout(), White, Position(4, 0), Position(4, 7)) == (MoveErrorIllegal, StandardLayout())
  {
    StandardLayoutReady();
    var b := StandardLayout();
    assert b.At(Position(4, 0)) == Some(Piece(White, King, false));
    assert b.At(Position(4, 7)) == Some(Piece(Black, King, false));
    assert !ChessPiece.Shape(King, White, Position(4, 0), Position(4, 7)).0;
    assert Verdict(b, Position(4, 0), Position(4, 7), White) == MoveErrorIllegal;
    assert MoveHelper(b, White, Position(4, 0), Position(4, 7)) == (MoveErrorIllegal, b);
  }

  /** A chess game: the engine holding the board, the turn and the factories. */
  class ChessGame {
    const game: Game

    ghost predicate Valid()
      reads game`registered, game.pieces
    {
      game.Valid() && game.width == 8 && game.height == 8
      && game.registered == ChessKinds && Ready(game.Snapshot())
    }

    /** `ChessGame()`: turn 1 (White to move), the six chess factories, the opening position. */
    constructor ()
      ensures Valid() && fresh(game) && fresh(game.pieces)
      ensures game.turn == 1 && game.PlayerToMove() == White
      ensures game.Snapshot() == StandardLayout()
    {
      var g := new Game(1, 8, 8);
      var _ := g.AddFactory(Pawn);
      var _ := g.AddFactory(Rook);
      var _ := g.AddFactory(Knight);
      var _ := g.AddFactory(Bishop);
      var _ := g.AddFactory(Queen);
      var _ := g.AddFactory(King);
      PlaceStandardPieces(g);
      StandardLayoutReady();
      game := g;
    }

    /**
     * `ChessGame::make_move(start, end)`. A move the engine refuses may have
     * any destination; an accepted move must not capture the opponent's king,
     * since the source would then look for a king that is gone.
     */
    method MakeMove(s: Position, e: Position) returns (result: Status)
      requires Valid()
      requires MoveHelper(game.Snapshot(), game.PlayerToMove(), s, e).0.IsError()
               || !IsKingOf(game.Snapshot().At(e), Opponent(game.PlayerToMove()))
      modifies game, game.pieces
      ensures Valid() && game.registered == old(game.registered)
      ensures var r := ChessOutcome(old(game.Snapshot()), old(game.PlayerToMove()), s, e);
              result == r.0 && game.Snapshot() == r.1 && game.turn == old(game.turn) + (if r.2 then 1 else 0)
    {
      ghost var b := game.Snapshot();
      ghost var play := game.PlayerToMove();
      MoveOutcome(b, play, s, e);
      if !MoveHelper(b, play, s, e).0.IsError() {
        AcceptedMoveReady(b, play, s, e);
      }
      result := game.MakeMoveHelper(s, e);
      if result.IsError() {
        return;
      }
      var next;
      result, next := Resolve(result);
      if next {
        game.turn := game.turn + 1;
      }
    }

    /**
     * The part of `ChessGame::make_move` after the engine has carried out a
     * move with status `st`: the status to report and whether `_turn` is
     * incremented.
     */
    method Resolve(st: Status) returns (result: Status, next: bool)
      requires Valid()
      ensures (result, next) == ChessResolve(st, game.Snapshot(), Opponent(game.PlayerToMove()))
    {
      var opponent := Opponent(game.PlayerToMove());
      var inCheck := Checked(opponent, game.Snapshot());
      if inCheck {
        var canMove := game.PlayerCanMove(opponent);
        if !canMove {
          return MoveCheckmate, false;
        }
        return MoveCheck, true;
      }
      var canMove := game.PlayerCanMove(opponent);
      if !canMove {
        return MoveStalemate, false;
      }
      return st, true;
    }

    /** `ChessGame::game_over()`: the player not to move has no legal move. */
    method GameOver() returns (over: bool)
      requires Valid()
      ensures over == !CanMove(game.Snapshot(), Opponent(game.PlayerToMove()))
    {
      var opponent := Opponent(game.PlayerToMove());
      var canMove := game.PlayerCanMove(opponent);
      over := !canMove;
    }
  }
}
