/**
 * Spooky chess (SpookyChessGame.cpp): standard chess with a neutral ghost
 * that, after every accepted move that does not end the game, jumps to a
 * pseudo-random square that holds no king and destroys whatever stood there.
 */
module Spooky {
  import opened Wrappers
  import opened Enumerations
  import opened Pieces
  import opened Boards
  import opened Rules
  import opened RulesFacts
  import opened Engine
  import opened Chess

  /** `SEED`, the constant every spooky game reseeds the generator with. */
  const Seed: nat := 322

  /** The ghost as its factory makes it: owned by no one, never moved. */
  const GhostPiece: Piece := Piece(NoOne, Ghost, false)

  /**
   * The C library generator after `srand(SEED)`: `stream(k)` is the value
   * the `k`-th call of `rand()` returns, `drawn` the number of calls so far.
   */
  class Rng {
    const stream: nat -> nat
    var drawn: nat

    constructor (stream: nat -> nat)
      ensures this.stream == stream && drawn == 0
    {
      this.stream := stream;
      drawn := 0;
    }

    /** `srand(SEED)`: the stream starts over. */
    method Reseed()
      modifies this
      ensures drawn == 0
    {
      drawn := 0;
    }

    /** `rand()`: the next value of the stream. */
    method Rand() returns (r: nat)
      modifies this
      ensures r == stream(old(drawn)) && drawn == old(drawn) + 1
    {
      r := stream(drawn);
      drawn := drawn + 1;
    }
  }

  /** Some draw at or after `m` lands on square `k` of an `n`-square board. */
  ghost predicate HitsFrom(stream: nat -> nat, n: nat, m: nat, k: nat)
    requires n > 0
  {
    exists j: nat | j >= m :: stream(j) % n == k
  }

  /** The generator keeps landing on every square: whatever has been drawn, each square comes up again. */
  ghost predicate Fair(stream: nat -> nat, n: nat)
    requires n > 0
  {
    forall m: nat, k: nat | k < n :: HitsFrom(stream, n, m, k)
  }

  predicate IsAnyKing(c: Option<Piece>)
  {
    c.Some? && c.value.kind == King
  }

  /** Draw `j` lands on a square of `b` that holds a king. */
  ghost predicate LandsOnKing(stream: nat -> nat, b: Board, j: nat)
    requires |b.cells| > 0
  {
    IsAnyKing(b.cells[stream(j) % |b.cells|])
  }

  /**
   * The draws `d0 .. d1 - 1` are those of one ghost move on board `b`: every
   * draw but the last lands on a king, the last does not.
   */
  ghost predicate DrawsUntilFree(stream: nat -> nat, b: Board, d0: nat, d1: nat)
    requires |b.cells| > 0
  {
    d0 < d1 && !LandsOnKing(stream, b, d1 - 1)
    && forall j: nat | d0 <= j < d1 - 1 :: LandsOnKing(stream, b, j)
  }

  /** The board after the ghost on square `gl` jumps to square `spot`; nothing moves if they are the same. */
  function GhostRelocation(b: Board, gl: nat, spot: nat): (r: Board)
    requires b.Wf() && gl < |b.cells| && spot < |b.cells|
    ensures r.Wf() && r.w == b.w && r.h == b.h
  {
    if spot == gl then b else b.Put(gl, None).Put(spot, b.cells[gl])
  }

  /**
   * One ghost move from board `b0`, ghost square `gl0` and `d0` draws so far
   * leads to board `b1`, ghost square `gl1` and `d1` draws.
   */
  ghost predicate GhostMove(stream: nat -> nat, b0: Board, gl0: nat, d0: nat, b1: Board, gl1: nat, d1: nat)
    requires b0.Wf() && gl0 < |b0.cells|
  {
    DrawsUntilFree(stream, b0, d0, d1)
    && gl1 == stream(d1 - 1) % |b0.cells|
    && b1 == GhostRelocation(b0, gl0, gl1)
  }

  /**
   * Replaying the generator reproduces the ghost: from the same board, ghost
   * square and number of draws, a ghost move has only one outcome. This is
   * why the draw count is all a saved game needs to keep.
   */
  lemma GhostMoveDeterministic(stream: nat -> nat, b0: Board, gl0: nat, d0: nat,
                               b1: Board, gl1: nat, d1: nat, b2: Board, gl2: nat, d2: nat)
    requires b0.Wf() && gl0 < |b0.cells|
    requires GhostMove(stream, b0, gl0, d0, b1, gl1, d1) && GhostMove(stream, b0, gl0, d0, b2, gl2, d2)
    ensures d1 == d2 && gl1 == gl2 && b1 == b2
  {
  }

  /**
   * The ghost never takes a king and leaves a ready board ready: both kings
   * stay where they were, every other square but the two it touches is
   * unchanged, and the ghost stands on its new square. It captures exactly
   * when it lands on an occupied square other than its own.
   */
  lemma GhostMoveKeepsKings(stream: nat -> nat, b0: Board, gl0: nat, d0: nat, b1: Board, gl1: nat, d1: nat)
    requires Ready(b0) && gl0 < |b0.cells| && b0.cells[gl0] == Some(GhostPiece)
    requires GhostMove(stream, b0, gl0, d0, b1, gl1, d1)
    ensures Ready(b1) && gl1 < |b1.cells| && b1.cells[gl1] == Some(GhostPiece)
    ensures forall i | 0 <= i < |b0.cells| :: IsAnyKing(b1.cells[i]) <==> IsAnyKing(b0.cells[i])
    ensures forall i | 0 <= i < |b0.cells| && i != gl0 && i != gl1 :: b1.cells[i] == b0.cells[i]
    ensures gl1 != gl0 ==> b1.cells[gl0] == None
  {
    forall play | play != NoOne
      ensures HasKing(b1, play)
    {
      var k :| 0 <= k < |b0.cells| && IsKingOf(b0.cells[k], play);
      assert IsKingOf(b1.cells[k], play);
    }
    forall p | b1.Valid(p)
      ensures ProbeSafe(b1, p)
    {
      assert ProbeSafe(b0, p);
      IndexInRange(b0.w, b0.h, p);
    }
  }

  /**
   * The spooky resolution before the ghost moves (status and board of the
   * accepted move): the opponent checkmated or stalemated ends the game at
   * once; otherwise the ghost moves.
   */
  function SpookyBeforeGhost(nb: Board, play: Player): Option<Status>
    requires Ready(nb) && play != NoOne
  {
    var opp := Opponent(play);
    if InCheck(nb, opp) && !CanMove(nb, opp) then Some(MoveCheckmate)
    else if !CanMove(nb, opp) then Some(MoveStalemate)
    else None
  }

  /**
   * The spooky resolution after the ghost has moved, on its board `gb`, in
   * the source's order: checkmate of either side, stalemate of either side,
   * check, and a mover left in check (which the source reports as
   * checkmate); and whether the turn passes.
   */
  function SpookyAfterGhost(st: Status, gb: Board, play: Player): (Status, bool)
    requires Ready(gb) && play != NoOne
  {
    var opp := Opponent(play);
    if InCheck(gb, opp) && !CanMove(gb, opp) then (MoveCheckmate, false)
    else if InCheck(gb, play) && !CanMove(gb, play) then (MoveCheckmate, false)
    else if !CanMove(gb, opp) || !CanMove(gb, play) then (MoveStalemate, false)
    else SpookyChecks(st, gb, play)
  }

  /**
   * The last tests of the spooky resolution, once both sides can move: both
   * kings attacked, the opponent's attacked, the mover's attacked (which
   * the source reports as checkmate), or neither.
   */
  function SpookyChecks(st: Status, gb: Board, play: Player): (Status, bool)
    requires Ready(gb) && play != NoOne
  {
    var opp := Opponent(play);
    if InCheck(gb, opp) && InCheck(gb, play) then (MoveCheck, true)
    else if InCheck(gb, opp) then (MoveCheck, true)
    else if InCheck(gb, play) then (MoveCheckmate, false)
    else (st, true)
  }

  /**
   * After the ghost: the game ends exactly when a side has no move or the
   * mover is left in check while the opponent is not; checkmate when a side
   * is attacked without a move, or the mover alone is attacked; stalemate
   * when a side has no move and neither is checkmated; check is reported
   * exactly when the opponent is attacked and both sides can move; the
   * move's own status only when neither side is attacked and both can move;
   * the turn passes exactly when the game goes on.
   */
  lemma SpookyAfterGhostMeaning(st: Status, gb: Board, play: Player)
    requires Ready(gb) && play != NoOne && (st == Success || st == MoveCapture)
    ensures var (r, next) := SpookyAfterGhost(st, gb, play);
            var opp := Opponent(play);
            (r.EndsGame() <==> !CanMove(gb, opp) || !CanMove(gb, play) || (InCheck(gb, play) && !InCheck(gb, opp)))
            && (r == MoveCheck <==> InCheck(gb, opp) && CanMove(gb, opp) && CanMove(gb, play))
            && (r == st <==> !InCheck(gb, opp) && !InCheck(gb, play) && CanMove(gb, opp) && CanMove(gb, play))
            && (r == MoveCheckmate <==>
                  (InCheck(gb, opp) && !CanMove(gb, opp)) || (InCheck(gb, play) && !CanMove(gb, play))
                  || (CanMove(gb, opp) && CanMove(gb, play) && InCheck(gb, play) && !InCheck(gb, opp)))
            && (r == MoveStalemate <==>
                  !(InCheck(gb, opp) && !CanMove(gb, opp)) && !(InCheck(gb, play) && !CanMove(gb, play))
                  && (!CanMove(gb, opp) || !CanMove(gb, play)))
            && (next <==> !r.EndsGame())
  {
  }

  /**
   * The part of `SpookyChessGame::make_move` that does not depend on the
   * ghost: the engine's refusal, or the checkmate or stalemate that ends the
   * game before the ghost moves; `None` when the ghost is to move, on a
   * ready board on which the mover is not in check.
   */
  function SpookyEarlyOutcome(b: Board, play: Player, s: Position, e: Position): (r: Option<Status>)
    requires Ready(b) && play != NoOne
    requires MoveHelper(b, play, s, e).0.IsError() || !IsKingOf(b.At(e), Opponent(play))
    ensures r.None? ==> !MoveHelper(b, play, s, e).0.IsError() && Ready(MoveHelper(b, play, s, e).1)
    ensures MoveHelper(b, play, s, e).0.IsError() ==> r == Some(MoveHelper(b, play, s, e).0)
  {
    var m := MoveHelper(b, play, s, e);
    if m.0.IsError() then Some(m.0)
    else
      AcceptedMoveReady(b, play, s, e);
      SpookyBeforeGhost(m.1, play)
  }

  /** The spooky opening position: the standard one with the ghost on a5 (index 32). */
  function SpookyLayout(): (b: Board)
    ensures b.Wf() && b.w == 8 && b.h == 8
  {
    StandardLayout().Put(32, Some(GhostPiece))
  }

  /** The spooky opening position is ready for play, with both kings where the standard one has them. */
  lemma SpookyLayoutReady()
    ensures Ready(SpookyLayout()) && SpookyLayout().cells[32] == Some(GhostPiece)
    ensures IsKingOf(SpookyLayout().cells[4], White) && IsKingOf(SpookyLayout().cells[60], Black)
  {
    StandardLayoutReady();
    var b0 := StandardLayout();
    var b1 := SpookyLayout();
    assert IsKingOf(b1.cells[4], White) && IsKingOf(b1.cells[60], Black);
    forall p | b1.Valid(p)
      ensures ProbeSafe(b1, p)
    {
      assert ProbeSafe(b0, p);
      IndexInRange(8, 8, p);
    }
  }

  /**
   * The engine part of `SpookyChessGame()`: turn 1, the six chess factories
   * and the ghost's, the opening pieces and the ghost on a5.
   */
  method NewSpookyEngine() returns (g: Game)
    ensures fresh(g) && fresh(g.pieces) && g.Valid() && g.width == 8 && g.height == 8
    ensures g.turn == 1 && g.registered == ChessKinds + {Ghost}
    ensures g.Snapshot() == SpookyLayout()
  {
    g := new Game(1, 8, 8);
    var _ := g.AddFactory(Pawn);
    var _ := g.AddFactory(Rook);
    var _ := g.AddFactory(Knight);
    var _ := g.AddFactory(Bishop);
    var _ := g.AddFactory(Queen);
    var _ := g.AddFactory(King);
    var _ := g.AddFactory(Ghost);
    assert g.registered == ChessKinds + {Ghost};
    PlaceStandardPieces(g);
    assert StandardLayout().cells[Index(8, Position(0, 4))] == None;
    var _ := g.InitPiece(Ghost, NoOne, Position(0, 4));
  }

  /** The test `checked(play, _pieces) && !player_can_move(play)` of the spooky resolution. */
  method Checkmated(g: Game, play: Player) returns (r: bool)
    requires g.Valid() && Ready(g.Snapshot()) && play != NoOne
    ensures r == (InCheck(g.Snapshot(), play) && !CanMove(g.Snapshot(), play))
  {
    r := Checked(play, g.Snapshot());
    if r {
      var canMove := g.PlayerCanMove(play);
      r := !canMove;
    }
  }

  /** The test `!player_can_move(a) || !player_can_move(b)` of the spooky resolution and `game_over()`. */
  method EitherStuck(g: Game, a: Player, b: Player) returns (r: bool)
    requires g.Valid() && Ready(g.Snapshot()) && a != NoOne && b != NoOne
    ensures r == (!CanMove(g.Snapshot(), a) || !CanMove(g.Snapshot(), b))
  {
    var canMove := g.PlayerCanMove(a);
    if !canMove {
      return true;
    }
    canMove := g.PlayerCanMove(b);
    r := !canMove;
  }

  /** A spooky chess game: the engine, the generator, the draw counter and the ghost's square. */
  class SpookyChessGame {
    const game: Game
    const rng: Rng
    /** `_random_calls`: the draws made so far, what a saved game records. */
    var randomCalls: nat
    /** `_ghost_location`: the row-major index of the ghost's square. */
    var ghostLocation: nat

    ghost predicate Valid()
      reads this, game`registered, game.pieces, rng
    {
      game.Valid() && game.width == 8 && game.height == 8
      && game.registered == ChessKinds + {Ghost} && Ready(game.Snapshot())
      && ghostLocation < 64 && game.Snapshot().cells[ghostLocation] == Some(GhostPiece)
      && randomCalls == rng.drawn && Fair(rng.stream, 64)
    }

    /**
     * `SpookyChessGame()`: turn 1, the six chess factories and the ghost's,
     * the opening position with the ghost on a5 (index 32), no draws yet and
     * the generator seeded. `stream` is what `rand()` yields after that seed.
     */
    constructor (stream: nat -> nat)
      requires Fair(stream, 64)
      ensures Valid() && fresh(game) && fresh(game.pieces) && fresh(rng)
      ensures game.turn == 1 && game.PlayerToMove() == White
      ensures game.Snapshot() == SpookyLayout()
      ensures ghostLocation == 32 && randomCalls == 0 && rng.drawn == 0
    {
      var g := NewSpookyEngine();
      SpookyLayoutReady();
      var r := new Rng(stream);
      r.Reseed();
      game, rng := g, r;
      randomCalls, ghostLocation := 0, 32;
    }

    /**
     * The draw-count replay of the loading constructor: reseed and discard
     * `calls` values, so the generator stands where the saved game left it.
     */
    method ReplayDraws(calls: nat)
      modifies this`randomCalls, rng
      ensures randomCalls == calls && rng.drawn == calls
    {
      randomCalls := calls;
      rng.Reseed();
      for i := 0 to calls
        invariant rng.drawn == i && randomCalls == calls
      {
        var _ := rng.Rand();
      }
    }

    /** One draw of `move_ghost()`: `rand() % (height * width)`, counted in `_random_calls`. */
    method DrawSquare() returns (spot: nat)
      requires game.Valid() && game.width == 8 && game.height == 8
      modifies this`randomCalls, rng
      ensures spot == rng.stream(old(rng.drawn)) % 64
      ensures rng.drawn == old(rng.drawn) + 1 && randomCalls == old(randomCalls) + 1
    {
      var r := rng.Rand();
      spot := r % (game.height * game.width);
      randomCalls := randomCalls + 1;
    }

    /**
     * The drawing loop of `move_ghost()`: `rand() % (height * width)` until
     * the square holds no king, each draw counted in `_random_calls`.
     */
    method DrawGhostSquare() returns (spot: nat)
      requires game.Valid() && game.width == 8 && game.height == 8 && randomCalls == rng.drawn
      requires ghostLocation < 64 && !IsAnyKing(game.pieces[ghostLocation]) && Fair(rng.stream, 64)
      modifies this`randomCalls, rng
      ensures randomCalls == rng.drawn
      ensures DrawsUntilFree(rng.stream, game.Snapshot(), old(rng.drawn), rng.drawn)
      ensures spot == rng.stream(rng.drawn - 1) % 64
    {
      ghost var b := game.Snapshot();
      ghost var d0 := rng.drawn;
      ghost var stream := rng.stream;
      assert HitsFrom(stream, 64, d0, ghostLocation);
      ghost var target :| target >= d0 && stream(target) % 64 == ghostLocation;
      spot := DrawSquare();
      while game.pieces[spot].Some? && game.pieces[spot].value.kind == King
        invariant randomCalls == rng.drawn && rng.stream == stream && b.cells == game.pieces[..]
        invariant d0 < rng.drawn <= target + 1
        invariant spot == stream(rng.drawn - 1) % 64
        invariant forall j: nat | d0 <= j < rng.drawn - 1 :: LandsOnKing(stream, b, j)
        decreases target + 1 - rng.drawn
      {
        assert LandsOnKing(stream, b, rng.drawn - 1);
        spot := DrawSquare();
      }
      assert !LandsOnKing(stream, b, rng.drawn - 1);
    }

    /**
     * `move_ghost()`: draws a square that holds no king, then moves the ghost
     * there, destroying what stood there; reports whether it did.
     */
    method MoveGhost() returns (captured: bool)
      requires Valid()
      modifies this`randomCalls, this`ghostLocation, rng, game.pieces
      ensures Valid()
      ensures GhostMove(rng.stream, old(game.Snapshot()), old(ghostLocation), old(rng.drawn),
                        game.Snapshot(), ghostLocation, rng.drawn)
      ensures captured <==> ghostLocation != old(ghostLocation) && old(game.Snapshot()).cells[ghostLocation].Some?
    {
      ghost var b := game.Snapshot();
      ghost var gl := ghostLocation;
      var spot := DrawGhostSquare();
      if spot == ghostLocation {
        return false;
      }
      var g := game.pieces[ghostLocation];
      var q := game.pieces[spot];
      game.pieces[ghostLocation] := None;
      game.pieces[spot] := g;
      ghostLocation := spot;
      assert game.Snapshot() == GhostRelocation(b, gl, spot);
      GhostMoveKeepsKings(rng.stream, b, gl, old(rng.drawn), game.Snapshot(), ghostLocation, rng.drawn);
      return q.Some?;
    }
    /**
     * The tests of `SpookyChessGame::make_move` before the ghost moves: the
     * opponent checkmated, then the opponent stalemated.
     */
    method BeforeGhost() returns (r: Option<Status>)
      requires game.Valid() && Ready(game.Snapshot())
      ensures r == SpookyBeforeGhost(game.Snapshot(), game.PlayerToMove())
    {
      var opponent := Opponent(game.PlayerToMove());
      var mated := Checkmated(game, opponent);
      if mated {
        return Some(MoveCheckmate);
      }
      var canMove := game.PlayerCanMove(opponent);
      if !canMove {
        return Some(MoveStalemate);
      }
      return None;
    }

    /**
     * The tests of `SpookyChessGame::make_move` after the ghost has moved:
     * the status to report and whether `_turn` is incremented.
     */
    method AfterGhost(st: Status) returns (result: Status, next: bool)
      requires game.Valid() && Ready(game.Snapshot())
      ensures (result, next) == SpookyAfterGhost(st, game.Snapshot(), game.PlayerToMove())
    {
      var play := game.PlayerToMove();
      var opponent := Opponent(play);
      var mated := Checkmated(game, opponent);
      if mated {
        return MoveCheckmate, false;
      }
      mated := Checkmated(game, play);
      if mated {
        return MoveCheckmate, false;
      }
      var stuck := EitherStuck(game, opponent, play);
      if stuck {
        return MoveStalemate, false;
      }
      result, next := ReportChecks(st);
    }

    /** The check tests at the end of `SpookyChessGame::make_move`. */
    method ReportChecks(st: Status) returns (result: Status, next: bool)
      requires game.Valid() && Ready(game.Snapshot())
      ensures (result, next) == SpookyChecks(st, game.Snapshot(), game.PlayerToMove())
    {
      var play := game.PlayerToMove();
      var opponent := Opponent(play);
      var oppChecked := Checked(opponent, game.Snapshot());
      var playChecked := Checked(play, game.Snapshot());
      if oppChecked && playChecked {
        return MoveCheck, true;
      }
      if oppChecked {
        return MoveCheck, true;
      }
      if playChecked {
        return MoveCheckmate, false;
      }
      return st, true;
    }

    /**
     * `SpookyChessGame::make_move(start, end)`. A refused move changes
     * nothing; an accepted move that checkmates or stalemates the opponent
     * ends the game before the ghost moves; otherwise the ghost makes one
     * move and the outcome is decided on the board it leaves. An accepted
     * move must not capture the opponent's king.
     */
    method MakeMove(s: Position, e: Position) returns (result: Status)
      requires Valid()
      requires MoveHelper(game.Snapshot(), game.PlayerToMove(), s, e).0.IsError()
               || !IsKingOf(game.Snapshot().At(e), Opponent(game.PlayerToMove()))
      modifies this, game, game.pieces, rng
      ensures Valid() && game.registered == old(game.registered)
      ensures var play := old(game.PlayerToMove());
              var m := MoveHelper(old(game.Snapshot()), play, s, e);
              var early := SpookyEarlyOutcome(old(game.Snapshot()), play, s, e);
              if early.Some? then
                result == early.value && game.turn == old(game.turn) && game.Snapshot() == m.1
                && ghostLocation == old(ghostLocation) && rng.drawn == old(rng.drawn)
              else
                GhostMove(rng.stream, m.1, old(ghostLocation), old(rng.drawn), game.Snapshot(), ghostLocation, rng.drawn)
                && var r := SpookyAfterGhost(m.0, game.Snapshot(), play);
                   result == r.0 && game.turn == old(game.turn) + (if r.1 then 1 else 0)
    {
      ghost var b := game.Snapshot();
      ghost var play := game.PlayerToMove();
      ghost var m := MoveHelper(b, play, s, e);
      result := EngineMove(s, e);
      if result.IsError() {
        return;
      }
      assert SpookyEarlyOutcome(b, play, s, e) == SpookyBeforeGhost(m.1, play);
      var next;
      result, next := Resolve(result);
      if next {
        game.turn := game.turn + 1;
      }
    }

    /**
     * `make_move_helper(start, end)` inside `SpookyChessGame::make_move`: the
     * engine carries out the move; an accepted move keeps the board ready
     * and never touches the ghost.
     */
    method EngineMove(s: Position, e: Position) returns (result: Status)
      requires Valid()
      requires MoveHelper(game.Snapshot(), game.PlayerToMove(), s, e).0.IsError()
               || !IsKingOf(game.Snapshot().At(e), Opponent(game.PlayerToMove()))
      modifies game.pieces
      ensures Valid()
      ensures (result, game.Snapshot()) == MoveHelper(old(game.Snapshot()), game.PlayerToMove(), s, e)
    {
      ghost var b := game.Snapshot();
      ghost var play := game.PlayerToMove();
      MoveOutcome(b, play, s, e);
      if !MoveHelper(b, play, s, e).0.IsError() {
        AcceptedMoveReady(b, play, s, e);
        GhostStays(b, play, s, e, ghostLocation);
      }
      result := game.MakeMoveHelper(s, e);
    }

    /**
     * The part of `SpookyChessGame::make_move` after the engine has carried
     * out a move with status `st`: the tests before the ghost, the ghost's
     * move, the tests after it; the status to report and whether `_turn` is
     * incremented.
     */
    method Resolve(st: Status) returns (result: Status, next: bool)
      requires Valid()
      modifies this`randomCalls, this`ghostLocation, game.pieces, rng
      ensures Valid()
      ensures var early := SpookyBeforeGhost(old(game.Snapshot()), game.PlayerToMove());
              early.Some? ==>
                result == early.value && !next && game.Snapshot() == old(game.Snapshot())
                && ghostLocation == old(ghostLocation) && rng.drawn == old(rng.drawn)
      ensures var early := SpookyBeforeGhost(old(game.Snapshot()), game.PlayerToMove());
              early.None? ==>
                GhostMove(rng.stream, old(game.Snapshot()), old(ghostLocation), old(rng.drawn), game.Snapshot(), ghostLocation, rng.drawn)
                && (result, next) == SpookyAfterGhost(st, game.Snapshot(), game.PlayerToMove())
    {
      var early := BeforeGhost();
      if early.Some? {
        return early.value, false;
      }
      var _ := MoveGhost();
      result, next := AfterGhost(st);
    }

    /** `SpookyChessGame::game_over()`: either side has no legal move. */
    method GameOver() returns (over: bool)
      requires Valid()
      ensures over == (!CanMove(game.Snapshot(), Opponent(game.PlayerToMove())) || !CanMove(game.Snapshot(), game.PlayerToMove()))
    {
      over := EitherStuck(game, Opponent(game.PlayerToMove()), game.PlayerToMove());
    }
  }
}
