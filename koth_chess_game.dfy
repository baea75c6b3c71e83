/**
 * King of the Hill chess (KOTHChessGame.cpp): standard chess in which a
 * player whose king stands on one of the four centre squares wins at once.
 */
module KingOfTheHill {
  import opened Wrappers
  import opened Enumerations
  import opened Pieces
  import opened Boards
  import opened Rules
  import opened RulesFacts
  import opened Engine
  import opened Chess

  /** The hill: files d and e (x = 3, 4) of ranks 4 and 5 (y = 3, 4). */
  predicate InHill(p: Position)
  {
    (p.x == 3 || p.x == 4) && (p.y == 3 || p.y == 4)
  }

  /** Square `i` holds the first king of `play` in row-major order. */
  predicate FirstKingAt(b: Board, play: Player, i: nat)
    requires i < |b.cells|
  {
    IsKingOf(b.cells[i], play) && forall j | 0 <= j < i :: !IsKingOf(b.cells[j], play)
  }

  /** `conquered_hill(play)`: the first king of `play` in row-major order stands on the hill. */
  predicate HillConquered(b: Board, play: Player)
    requires b.Wf()
  {
    exists i | 0 <= i < |b.cells| :: FirstKingAt(b, play, i) && InHill(b.Pos(i))
  }

  /** With a single king, the hill is conquered exactly when that king stands on it. */
  lemma HillMeansKingOnHill(b: Board, play: Player)
    requires b.Wf() && HasKing(b, play) && OneKing(b, play)
    ensures HillConquered(b, play) <==> InHill(KingSquare(b, play))
  {
    var k :| 0 <= k < |b.cells| && IsKingOf(b.cells[k], play);
    assert FirstKingAt(b, play, k);
    var kp := KingSquare(b, play);
    IndexInRange(b.w, b.h, kp);
    assert b.Idx(kp) == k;
    assert b.Pos(k) == kp by {
      IndexInjective(b.w, b.h, b.Pos(k), kp);
    }
  }

  /**
   * `KOTHChessGame::make_move` after an accepted move (status `st`, board
   * `nb`), in the source's order: checkmate of the opponent, then the hill,
   * then stalemate, then check, then the move's own status; and whether the
   * turn passes.
   */
  function KothResolve(st: Status, nb: Board, play: Player): (r: (Status, bool))
    requires Ready(nb) && play != NoOne
    ensures !st.IsError() ==> !r.0.IsError()
  {
    var opp := Opponent(play);
    if InCheck(nb, opp) && !CanMove(nb, opp) then (MoveCheckmate, false)
    else if HillConquered(nb, play) then (MoveCaptureHill, false)
    else if !CanMove(nb, opp) then (MoveStalemate, false)
    else if InCheck(nb, opp) then (MoveCheck, true)
    else (st, true)
  }

  /**
   * The game ends exactly when the opponent has no move or the mover holds
   * the hill; checkmate outranks the hill, the hill outranks stalemate; the
   * turn passes exactly on check, success and capture.
   */
  lemma KothResolveMeaning(st: Status, nb: Board, play: Player)
    requires Ready(nb) && play != NoOne && (st == Success || st == MoveCapture)
    ensures var (r, next) := KothResolve(st, nb, play);
            (r.EndsGame() <==> !CanMove(nb, Opponent(play)) || HillConquered(nb, play))
            && (r == MoveCheckmate <==> InCheck(nb, Opponent(play)) && !CanMove(nb, Opponent(play)))
            && (r == MoveCaptureHill <==> HillConquered(nb, play) && !(InCheck(nb, Opponent(play)) && !CanMove(nb, Opponent(play))))
            && (r == MoveStalemate <==> !CanMove(nb, Opponent(play)) && !InCheck(nb, Opponent(play)) && !HillConquered(nb, play))
            && (r == MoveCheck <==> InCheck(nb, Opponent(play)) && CanMove(nb, Opponent(play)) && !HillConquered(nb, play))
            && (next <==> r == MoveCheck || r == Success || r == MoveCapture)
  {
  }

  /** `KOTHChessGame::make_move` as a function of the board and the mover. */
  function KothOutcome(b: Board, play: Player, s: Position, e: Position): (r: (Status, Board, bool))
    requires Ready(b) && play != NoOne
    requires MoveHelper(b, play, s, e).0.IsError() || !IsKingOf(b.At(e), Opponent(play))
    ensures var m := MoveHelper(b, play, s, e);
            r.1 == m.1 && (r.0.IsError() <==> m.0.IsError()) && (m.0.IsError() ==> r.0 == m.0 && !r.2)
  {
    var m := MoveHelper(b, play, s, e);
    if m.0.IsError() then (m.0, m.1, false)
    else
      AcceptedMoveReady(b, play, s, e);
      var x := KothResolve(m.0, m.1, play);
      (x.0, m.1, x.1)
  }

  /** A King of the Hill game: the engine holding the board, the turn and the factories. */
  class KothChessGame {
    const game: Game

    ghost predicate Valid()
      reads game`registered, game.pieces
    {
      game.Valid() && game.width == 8 && game.height == 8
      && game.registered == ChessKinds && Ready(game.Snapshot())
    }

    /** `KOTHChessGame()`: turn 1 (White to move), the six chess factories, the opening position. */
    constructor ()
      ensures Valid() && fresh(game) && fresh(game.pieces)
      ensures game.turn == 1 && game.PlayerToMove() == White
      ensures game.Snapshot() == StandardLayout()
    {
      var g := new Game(1, 8, 8);
      var _ := g.AddFactory(Pawn);
      var _ := g.AddFactory(Rook);
      var _ := g.AddFactory(Knight);
      var _ := g.AddFactory(Bishop);
      var _ := g.AddFactory(Queen);
      var _ := g.AddFactory(King);
      PlaceStandardPieces(g);
      StandardLayoutReady();
      game := g;
    }

    /** `conquered_hill(play)`: finds the first king of `play` in row-major order and tests its square. */
    method ConqueredHill(play: Player) returns (r: bool)
      requires game.Valid()
      ensures r == HillConquered(game.Snapshot(), play)
    {
      ghost var b := game.Snapshot();
      var i := 0;
      while i < game.width * game.height
        invariant 0 <= i <= |b.cells|
        invariant forall j | 0 <= j < i :: !IsKingOf(b.cells[j], play)
      {
        var c := game.pieces[i];
        if c.Some? && c.value.kind == King && c.value.owner == play {
          assert FirstKingAt(b, play, i);
          var p := PosOf(game.width, game.height, i);
          return InHill(p);
        }
        i := i + 1;
      }
      return false;
    }

    /**
     * `KOTHChessGame::make_move(start, end)`. A move the engine refuses may
     * have any destination; an accepted move must not capture the opponent's
     * king, since the source would then look for a king that is gone.
     */
    method MakeMove(s: Position, e: Position) returns (result: Status)
      requires Valid()
      requires MoveHelper(game.Snapshot(), game.PlayerToMove(), s, e).0.IsError()
               || !IsKingOf(game.Snapshot().At(e), Opponent(game.PlayerToMove()))
      modifies game, game.pieces
      ensures Valid() && game.registered == old(game.registered)
      ensures var r := KothOutcome(old(game.Snapshot()), old(game.PlayerToMove()), s, e);
              result == r.0 && game.Snapshot() == r.1 && game.turn == old(game.turn) + (if r.2 then 1 else 0)
    {
      ghost var b := game.Snapshot();
      ghost var play := game.PlayerToMove();
      MoveOutcome(b, play, s, e);
      if !MoveHelper(b, play, s, e).0.IsError() {
        AcceptedMoveReady(b, play, s, e);
      }
      result := game.MakeMoveHelper(s, e);
      if result.IsError() {
        return;
      }
      var next;
      result, next := Resolve(result);
      if next {
        game.turn := game.turn + 1;
      }
    }

    /**
     * The part of `KOTHChessGame::make_move` after the engine has carried out
     * a move with status `st`: the status to report and whether `_turn` is
     * incremented.
     */
    method Resolve(st: Status) returns (result: Status, next: bool)
      requires Valid()
      ensures (result, next) == KothResolve(st, game.Snapshot(), game.PlayerToMove())
    {
      var opponent := Opponent(game.PlayerToMove());
      var inCheck := Checked(opponent, game.Snapshot());
      if inCheck {
        var canMove := game.PlayerCanMove(opponent);
        if !canMove {
          return MoveCheckmate, false;
        }
      }
      var hill := ConqueredHill(game.PlayerToMove());
      if hill {
        return MoveCaptureHill, false;
      }
      var canMove := game.PlayerCanMove(opponent);
      if !canMove {
        return MoveStalemate, false;
      }
      inCheck := Checked(opponent, game.Snapshot());
      if inCheck {
        return MoveCheck, true;
      }
      return st, true;
    }

    /** `KOTHChessGame::game_over()`: the opponent has no move, or the player to move holds the hill. */
    method GameOver() returns (over: bool)
      requires Valid()
      ensures over == (!CanMove(game.Snapshot(), Opponent(game.PlayerToMove())) || HillConquered(game.Snapshot(), game.PlayerToMove()))
    {
      var opponent := Opponent(game.PlayerToMove());
      var canMove := game.PlayerCanMove(opponent);
      if !canMove {
        return true;
      }
      over := ConqueredHill(game.PlayerToMove());
    }
  }
}
