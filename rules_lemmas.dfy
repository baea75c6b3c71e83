/**
 * What the legality engine promises: the layers of the verdict, the effect
 * of an applied move, and the central guarantee that a move the engine
 * accepts never leaves the mover's own king attacked.
 */
module RulesFacts {
  import opened Wrappers
  import opened Enumerations
  import opened Pieces
  import opened Boards
  import opened ChessPiece
  import opened ChessPieceFacts
  import opened Rules

  /**
   * Two boards the check oracle cannot tell apart for `play`: the same
   * squares occupied by the same owners, the same kings of `play`, and the
   * same opponent pieces. Moved flags and the kinds of `play`'s other
   * pieces may differ.
   */
  predicate SameForCheck(b1: Board, b2: Board, play: Player)
    requires play != NoOne
  {
    b1.w == b2.w && b1.h == b2.h && |b1.cells| == |b2.cells| &&
    forall i | 0 <= i < |b1.cells| ::
      b1.cells[i].Some? == b2.cells[i].Some?
      && (b1.cells[i].Some? ==> b1.cells[i].value.owner == b2.cells[i].value.owner)
      && IsKingOf(b1.cells[i], play) == IsKingOf(b2.cells[i], play)
      && (OwnedBy(b1.cells[i], Opponent(play)) ==> b1.cells[i] == b2.cells[i])
  }

  lemma {:induction false} LastKingSame(b1: Board, b2: Board, play: Player, n: nat)
    requires play != NoOne && SameForCheck(b1, b2, play) && n <= |b1.cells|
    ensures LastKing(b1.cells, play, n) == LastKing(b2.cells, play, n)
  {
    if n > 0 {
      LastKingSame(b1, b2, play, n - 1);
    }
  }

  /** The trajectory test sees only occupancy. */
  lemma BlockedSame(b1: Board, b2: Board, play: Player, t: seq<Position>)
    requires play != NoOne && b1.Wf() && b2.Wf() && SameForCheck(b1, b2, play)
    ensures TrajectoryBlocked(b1, t) == TrajectoryBlocked(b2, t)
  {
    forall k | 0 <= k < |t|
      ensures b1.At(t[k]).Some? == b2.At(t[k]).Some?
    {
      if b1.Valid(t[k]) {
        IndexInRange(b1.w, b1.h, t[k]);
      }
    }
  }

  /** The check oracle gives the same answer on boards it cannot tell apart. */
  lemma InCheckSame(b1: Board, b2: Board, play: Player)
    requires b1.Wf() && b2.Wf() && play != NoOne && HasKing(b1, play) && SameForCheck(b1, b2, play)
    ensures HasKing(b2, play)
    ensures InCheck(b1, play) == InCheck(b2, play)
  {
    var k :| 0 <= k < |b1.cells| && IsKingOf(b1.cells[k], play);
    assert IsKingOf(b2.cells[k], play);
    LastKingSame(b1, b2, play, |b1.cells|);
    var kp := KingSquare(b1, play);
    assert kp == KingSquare(b2, play);
    forall i | 0 <= i < |b1.cells| && OwnedBy(b1.cells[i], Opponent(play))
      ensures Attacks(b1, i, kp) == Attacks(b2, i, kp)
    {
      var a := b1.cells[i].value;
      assert b1.Pos(i) == b2.Pos(i);
      if a.kind != Pawn {
        BlockedSame(b1, b2, play, Shape(a.kind, a.owner, b1.Pos(i), kp).1);
      }
    }
    if InCheck(b2, play) {
      var i :| 0 <= i < |b2.cells| && OwnedBy(b2.cells[i], Opponent(play)) && Attacks(b2, i, kp);
      assert OwnedBy(b1.cells[i], Opponent(play));
    }
  }

  /**
   * The first layer of the verdict is ownership, in both directions; every
   * verdict that lets the move through is `Success`, and the destination of
   * such a move is empty or holds a piece of the other side.
   */
  lemma VerdictOwnership(b: Board, s: Position, e: Position, play: Player)
    requires b.Wf() && b.Valid(s) && b.Valid(e) && play != NoOne
    requires HasKing(b, play) && ProbeSafe(b, s)
    ensures Verdict(b, s, e, play) == MoveErrorNoPiece <==> !OwnedBy(b.At(s), play)
    ensures Verdict(b, s, e, play).Code() >= 0 ==> Verdict(b, s, e, play) == Success
    ensures Verdict(b, s, e, play).Code() >= 0 ==> b.At(e).None? || OwnedBy(b.At(e), Opponent(play))
  {
    AcceptedDestination(b, s, e, play);
  }

  /** An accepted move lands on an empty square or on a piece of the other side. */
  lemma AcceptedDestination(b: Board, s: Position, e: Position, play: Player)
    requires b.Wf() && b.Valid(s) && b.Valid(e) && play != NoOne
    requires HasKing(b, play) && ProbeSafe(b, s)
    ensures Verdict(b, s, e, play) == Success ==> b.At(e).None? || OwnedBy(b.At(e), Opponent(play))
  {
  }

  /**
   * The remaining layers of the verdict: a castling refusal, an illegal
   * shape, the two king-safety refusals, and what an accepted ordinary move
   * has passed (a shape or a pawn capture, an empty or enemy destination, a
   * clear trajectory).
   */
  lemma VerdictLayers(b: Board, s: Position, e: Position, play: Player)
    requires b.Wf() && b.Valid(s) && b.Valid(e) && play != NoOne
    requires HasKing(b, play) && ProbeSafe(b, s) && OwnedBy(b.At(s), play)
    ensures var v := Verdict(b, s, e, play);
            var p := b.At(s).value;
            var sh := Shape(p.kind, p.owner, s, e);
            var castling := !sh.0 && p.kind == King && CastleShape(s, e);
            (v == MoveErrorCantCastle <==> castling && !CastleAllowed(b, s, e, play))
            && (v == MoveErrorIllegal <==> !sh.0 && !castling && !(p.kind == Pawn && PawnCapture(b, s, e, p.owner)))
            && (v == MoveErrorMustHandleCheck ==> InCheck(b, play) && InCheck(Relocated(b, s, e), play))
            && (v == MoveErrorCantExposeCheck ==> !InCheck(b, play) && InCheck(Relocated(b, s, e), play))
            && (v == Success && !castling ==>
                  (sh.0 || (p.kind == Pawn && PawnCapture(b, s, e, p.owner)))
                  && (b.At(e).None? || OwnedBy(b.At(e), Opponent(play)))
                  && !TrajectoryBlocked(b, sh.1))
  {
  }

  /**
   * The verdict's lower layers, each both ways: a castling the rules allow
   * is accepted; MOVE_ERROR_BLOCKED exactly when a legal shape (or pawn
   * capture) meets a pawn pushing into a piece, a destination that is not
   * the other side's, or an occupied trajectory square; and the two
   * king-safety refusals exactly when the simulation finds the mover
   * attacked, split on whether it was attacked before.
   */
  lemma VerdictRefusals(b: Board, s: Position, e: Position, play: Player)
    requires b.Wf() && b.Valid(s) && b.Valid(e) && play != NoOne
    requires HasKing(b, play) && ProbeSafe(b, s) && OwnedBy(b.At(s), play)
    ensures var v := Verdict(b, s, e, play);
            var p := b.At(s).value;
            var sh := Shape(p.kind, p.owner, s, e);
            var pc := p.kind == Pawn && PawnCapture(b, s, e, p.owner);
            var castling := !sh.0 && p.kind == King && CastleShape(s, e);
            var blocked := (p.kind == Pawn && !pc && b.At(e).Some?)
                           || (b.At(e).Some? && !OwnedBy(b.At(e), Opponent(play)))
                           || TrajectoryBlocked(b, sh.1);
            var passes := (sh.0 || pc) && !blocked;
            (castling && CastleAllowed(b, s, e, play) ==> v == Success)
            && (v == MoveErrorBlocked <==> (sh.0 || pc) && blocked)
            && (passes ==> HasKing(Relocated(b, s, e), play))
            && (v == MoveErrorMustHandleCheck <==> passes && InCheck(b, play) && InCheck(Relocated(b, s, e), play))
            && (v == MoveErrorCantExposeCheck <==> passes && !InCheck(b, play) && InCheck(Relocated(b, s, e), play))
  {
    var p := b.At(s).value;
    var sh := Shape(p.kind, p.owner, s, e);
    var pc := p.kind == Pawn && PawnCapture(b, s, e, p.owner);
    if (sh.0 || pc) && !(b.At(e).Some? && !OwnedBy(b.At(e), Opponent(play))) {
      RelocationKeepsKing(b, s, e, play);
    }
  }

  /** A pawn never captures straight ahead: a pawn move along its file onto an occupied square is refused. */
  lemma PawnNeverCapturesAhead(b: Board, s: Position, e: Position, play: Player)
    requires b.Wf() && b.Valid(s) && b.Valid(e) && play != NoOne
    requires HasKing(b, play) && ProbeSafe(b, s) && OwnedBy(b.At(s), play)
    requires b.At(s).value.kind == Pawn && s.x == e.x && b.At(e).Some?
    ensures Verdict(b, s, e, play) == MoveErrorBlocked || Verdict(b, s, e, play) == MoveErrorIllegal
  {
    VerdictRefusals(b, s, e, play);
  }

  /**
   * An accepted move that is not a castling ends a king-safety simulation
   * that found `play` unattacked, and the destination held no piece of
   * `play`.
   */
  lemma SuccessPassedSimulation(b: Board, s: Position, e: Position, play: Player)
    requires b.Wf() && b.Valid(s) && b.Valid(e) && play != NoOne
    requires HasKing(b, play) && ProbeSafe(b, s)
    requires Verdict(b, s, e, play) == Success
    requires !(b.At(s).value.kind == King && Abs(e.x - s.x) == 2)
    ensures !OwnedBy(b.At(e), play)
    ensures HasKing(Relocated(b, s, e), play) && !InCheck(Relocated(b, s, e), play)
  {
    RelocationKeepsKing(b, s, e, play);
  }

  /**
   * An accepted castling leaves `play` unattacked: the castling relocation
   * is exactly the last board of the castling walk (king two squares along,
   * rook beside it, both old squares empty), which the walk found safe.
   */
  lemma CastleLeavesKingSafe(b: Board, s: Position, e: Position, play: Player)
    requires b.Wf() && b.Valid(s) && b.Valid(e) && play != NoOne
    requires OwnedBy(b.At(s), play) && ProbeSafe(b, s)
    requires CastleShape(s, e) && CastleAllowed(b, s, e, play)
    ensures 0 <= RookIndex(b, s, e) < |b.cells|
    ensures IsKingOf(Castled(b, s, e).At(e), play)
    ensures HasKing(Castled(b, s, e), play) && !InCheck(Castled(b, s, e), play)
  {
    var i := b.Idx(s);
    var d: int := if e.x > s.x then 1 else -1;
    var ri := RookIndex(b, s, e);
    IndexInRange(b.w, b.h, Position(s.x + d, s.y));
    IndexInRange(b.w, b.h, e);
    assert b.Idx(e) == i + 2 * d;
    var k := b.cells[i];
    var b1 := b.Put(i, None).Put(i + d, k);
    var b2 := b1.Put(i + d, None).Put(i + 2 * d, k);
    var b3 := b2.Put(i + d, b2.cells[ri]).Put(ri, None);
    assert b3 == Castled(b, s, e);
    assert IsKingOf(b3.cells[i + 2 * d], play);
  }

  /**
   * King safety: whenever `make_move_helper` reports success or a capture,
   * the mover still has a king and no piece of the other side attacks it on
   * the board the move leaves.
   */
  lemma MoveLeavesKingSafe(b: Board, play: Player, s: Position, e: Position)
    requires b.Wf() && play != NoOne && HasKing(b, play) && AllProbeSafe(b)
    ensures var r := MoveHelper(b, play, s, e);
            !r.0.IsError() ==> HasKing(r.1, play) && !InCheck(r.1, play)
  {
    var r := MoveHelper(b, play, s, e);
    if !r.0.IsError() {
      assert b.Valid(s) && b.Valid(e);
      assert ProbeSafe(b, s);
      VerdictOwnership(b, s, e, play);
      var p := b.At(s).value;
      IndexInRange(b.w, b.h, e);
      var moved: Board;
      if p.kind == King && Abs(e.x - s.x) == 2 {
        CastleLeavesKingSafe(b, s, e, play);
        moved := Castled(b, s, e);
      } else {
        SuccessPassedSimulation(b, s, e, play);
        moved := Relocated(b, s, e);
        assert moved.cells[b.Idx(e)] == Some(p);
      }
      PlacementKeepsSafety(moved, b.Idx(e), Placed(b, p, e, play), play);
    }
  }

  /**
   * Marking the mover's piece as moved, or promoting it to a queen of the
   * mover, changes nothing the check oracle looks at.
   */
  lemma PlacementKeepsSafety(moved: Board, k: nat, placed: Piece, play: Player)
    requires moved.Wf() && play != NoOne && HasKing(moved, play) && !InCheck(moved, play)
    requires k < |moved.cells| && OwnedBy(moved.cells[k], play) && placed.owner == play
    requires IsKingOf(moved.cells[k], play) <==> placed.kind == King
    ensures HasKing(moved.Put(k, Some(placed)), play) && !InCheck(moved.Put(k, Some(placed)), play)
  {
    assert SameForCheck(moved, moved.Put(k, Some(placed)), play);
    InCheckSame(moved, moved.Put(k, Some(placed)), play);
  }

  /**
   * The outcome of `make_move_helper`: out-of-bounds exactly when a square
   * is off the board; every error leaves the board as it was; the move is
   * carried out exactly when the verdict accepts it, and then the status is
   * a capture exactly when the destination was occupied.
   */
  lemma MoveOutcome(b: Board, play: Player, s: Position, e: Position)
    requires b.Wf() && play != NoOne && HasKing(b, play) && AllProbeSafe(b)
    ensures var r := MoveHelper(b, play, s, e);
            (r.0 == MoveErrorOutOfBounds <==> !b.Valid(s) || !b.Valid(e))
            && (r.0.IsError() ==> r.1 == b)
            && (!r.0.IsError() <==> b.Valid(s) && b.Valid(e) && Verdict(b, s, e, play) == Success)
            && (!r.0.IsError() ==> (r.0 == MoveCapture <==> b.At(e).Some?) && (r.0 == Success || r.0 == MoveCapture))
  {
    if b.Valid(s) && b.Valid(e) {
      assert ProbeSafe(b, s);
      VerdictOwnership(b, s, e, play);
    }
  }

  /**
   * A move that is not a castling: the destination holds the moved piece
   * (or the queen it promotes to), marked as moved; the origin is empty;
   * every other square is as it was.
   */
  lemma PlainMoveEffect(b: Board, play: Player, s: Position, e: Position)
    requires b.Wf() && play != NoOne && HasKing(b, play) && AllProbeSafe(b)
    requires b.Valid(s) && b.Valid(e) && ProbeSafe(b, s) && Verdict(b, s, e, play) == Success
    requires !(b.At(s).value.kind == King && Abs(e.x - s.x) == 2)
    ensures var r := MoveHelper(b, play, s, e).1;
            s != e
            && r.At(e) == Some(Placed(b, b.At(s).value, e, play)) && r.At(s) == None
            && forall p | b.Valid(p) && p != s && p != e :: r.At(p) == b.At(p)
  {
    VerdictOwnership(b, s, e, play);
    var r := MoveHelper(b, play, s, e).1;
    IndexInRange(b.w, b.h, s);
    IndexInRange(b.w, b.h, e);
    forall p | b.Valid(p) && p != s && p != e
      ensures r.At(p) == b.At(p)
    {
      IndexInRange(b.w, b.h, p);
      if b.Idx(p) == b.Idx(s) {
        IndexInjective(b.w, b.h, p, s);
      }
      if b.Idx(p) == b.Idx(e) {
        IndexInjective(b.w, b.h, p, e);
      }
    }
  }

  /**
   * A castling: the king stands two files along, marked as moved; the rook
   * (three squares to the right or four to the left of the king, in
   * row-major order) stands beside the king's old square with its moved
   * flag untouched; both old squares are empty; nothing else changes.
   */
  lemma CastleEffect(b: Board, play: Player, s: Position, e: Position)
    requires b.Wf() && play != NoOne && HasKing(b, play) && AllProbeSafe(b)
    requires b.Valid(s) && b.Valid(e) && ProbeSafe(b, s) && Verdict(b, s, e, play) == Success
    requires b.At(s).value.kind == King && Abs(e.x - s.x) == 2
    ensures CastleShape(s, e) && 0 <= RookIndex(b, s, e) < |b.cells|
    ensures var r := MoveHelper(b, play, s, e).1;
            var i := b.Idx(s);
            var d := if e.x > s.x then 1 else -1;
            var ri := RookIndex(b, s, e);
            var rook := b.cells[ri];
            0 <= i + d < |b.cells|
            && rook.Some? && rook.value.kind == Rook && !rook.value.moved
            && r.At(e) == Some(b.At(s).value.SetMoved(true)) && r.At(s) == None
            && r.cells[i + d] == rook && r.cells[ri] == None
            && forall k | 0 <= k < |b.cells| && k != i && k != i + d && k != b.Idx(e) && k != ri ::
                 r.cells[k] == b.cells[k]
  {
    var i := b.Idx(s);
    var d: int := if e.x > s.x then 1 else -1;
    IndexInRange(b.w, b.h, Position(s.x + d, s.y));
    IndexInRange(b.w, b.h, e);
    assert b.Idx(e) == i + 2 * d;
  }

  /** Before a castling the rules allow, the king is the mover's and the square it passes over is empty. */
  lemma CastleSquares(b: Board, play: Player, s: Position, e: Position)
    requires b.Wf() && play != NoOne && HasKing(b, play) && AllProbeSafe(b)
    requires b.Valid(s) && b.Valid(e) && ProbeSafe(b, s) && Verdict(b, s, e, play) == Success
    requires b.At(s).value.kind == King && Abs(e.x - s.x) == 2
    ensures var i := b.Idx(s);
            var d: int := if e.x > s.x then 1 else -1;
            0 <= i + d < |b.cells| && OwnedBy(b.cells[i], play) && b.cells[i + d] == None
  {
    VerdictOwnership(b, s, e, play);
    assert CastleShape(s, e) && CastleAllowed(b, s, e, play);
    CastlePathEmpty(b, s, e, play);
  }

  /**
   * A move changes only its own squares: a piece that is not the mover's,
   * not a rook, and not on the destination keeps its square.
   */
  lemma MoveFrame(b: Board, play: Player, s: Position, e: Position, k: nat)
    requires b.Wf() && play != NoOne && HasKing(b, play) && AllProbeSafe(b)
    requires k < |b.cells| && b.cells[k].Some? && !OwnedBy(b.cells[k], play) && b.cells[k].value.kind != Rook
    requires b.Valid(e) ==> k != b.Idx(e)
    ensures MoveHelper(b, play, s, e).1.cells[k] == b.cells[k]
  {
    MoveOutcome(b, play, s, e);
    if !MoveHelper(b, play, s, e).0.IsError() {
      assert ProbeSafe(b, s);
      if b.At(s).value.kind == King && Abs(e.x - s.x) == 2 {
        CastleFrame(b, play, s, e, k);
      } else {
        PlainFrame(b, play, s, e, k);
      }
    }
  }

  /** The castling case of `MoveFrame`. */
  lemma CastleFrame(b: Board, play: Player, s: Position, e: Position, k: nat)
    requires b.Wf() && play != NoOne && HasKing(b, play) && AllProbeSafe(b)
    requires b.Valid(s) && b.Valid(e) && ProbeSafe(b, s) && Verdict(b, s, e, play) == Success
    requires b.At(s).value.kind == King && Abs(e.x - s.x) == 2
    requires k < |b.cells| && b.cells[k].Some? && !OwnedBy(b.cells[k], play) && b.cells[k].value.kind != Rook
    requires k != b.Idx(e)
    ensures MoveHelper(b, play, s, e).1.cells[k] == b.cells[k]
  {
    CastleEffect(b, play, s, e);
    CastleSquares(b, play, s, e);
    var i := b.Idx(s);
    assert k != i && k != i + (if e.x > s.x then 1 else -1) && k != RookIndex(b, s, e);
  }

  /** A castling the rules allow passes over an empty square beside the king. */
  lemma CastlePathEmpty(b: Board, s: Position, e: Position, play: Player)
    requires b.Wf() && b.Valid(s) && b.Valid(e) && play != NoOne
    requires OwnedBy(b.At(s), play) && ProbeSafe(b, s)
    requires CastleShape(s, e) && CastleAllowed(b, s, e, play)
    ensures e.x > s.x ==> b.Idx(s) + 1 < |b.cells| && b.cells[b.Idx(s) + 1].None?
    ensures e.x < s.x ==> 1 <= b.Idx(s) && b.cells[b.Idx(s) - 1].None?
  {
    var d: int := if e.x > s.x then 1 else -1;
    var q := Position(s.x + d, s.y);
    assert b.Valid(q);
    IndexInRange(b.w, b.h, q);
    assert b.Idx(q) == b.Idx(s) + d;
  }

  /** The case of `MoveFrame` for a move that is not a castling. */
  lemma PlainFrame(b: Board, play: Player, s: Position, e: Position, k: nat)
    requires b.Wf() && play != NoOne && HasKing(b, play) && AllProbeSafe(b)
    requires b.Valid(s) && b.Valid(e) && ProbeSafe(b, s) && Verdict(b, s, e, play) == Success
    requires !(b.At(s).value.kind == King && Abs(e.x - s.x) == 2)
    requires k < |b.cells| && b.cells[k].Some? && !OwnedBy(b.cells[k], play)
    requires k != b.Idx(e)
    ensures MoveHelper(b, play, s, e).1.cells[k] == b.cells[k]
  {
    PlainMoveEffect(b, play, s, e);
    IndexInRange(b.w, b.h, s);
    var p := b.Pos(k);
    assert p != s && p != e;
  }

  /** The spooky ghost, a piece of neither side, is never moved or captured by a player's move. */
  lemma GhostStays(b: Board, play: Player, s: Position, e: Position, k: nat)
    requires b.Wf() && play != NoOne && HasKing(b, play) && AllProbeSafe(b)
    requires k < |b.cells| && b.cells[k].Some? && b.cells[k].value.owner == NoOne
    requires b.cells[k].value.kind == Ghost
    ensures MoveHelper(b, play, s, e).1.cells[k] == b.cells[k]
  {
    if b.Valid(e) && k == b.Idx(e) {
      MoveOutcome(b, play, s, e);
      if b.Valid(s) {
        assert ProbeSafe(b, s);
        VerdictOwnership(b, s, e, play);
      }
    } else {
      MoveFrame(b, play, s, e, k);
    }
  }

  /** A move that does not land on the other side's king leaves that side a king. */
  lemma MoveKeepsOpponentKing(b: Board, play: Player, s: Position, e: Position)
    requires b.Wf() && play != NoOne && HasKing(b, play) && AllProbeSafe(b)
    requires HasKing(b, Opponent(play)) && !IsKingOf(b.At(e), Opponent(play))
    ensures HasKing(MoveHelper(b, play, s, e).1, Opponent(play))
  {
    var k :| 0 <= k < |b.cells| && IsKingOf(b.cells[k], Opponent(play));
    if b.Valid(e) {
      IndexInRange(b.w, b.h, e);
    }
    MoveFrame(b, play, s, e, k);
    assert IsKingOf(MoveHelper(b, play, s, e).1.cells[k], Opponent(play));
  }

  /**
   * The rook probes of castling stay inside the board after a move: every
   * unmoved king the move leaves was already there, on the same square.
   */
  lemma MoveKeepsProbeSafe(b: Board, play: Player, s: Position, e: Position)
    requires b.Wf() && play != NoOne && HasKing(b, play) && AllProbeSafe(b)
    ensures AllProbeSafe(MoveHelper(b, play, s, e).1)
  {
    MoveOutcome(b, play, s, e);
    var r := MoveHelper(b, play, s, e);
    if !r.0.IsError() {
      assert ProbeSafe(b, s);
      forall p | r.1.Valid(p)
        ensures ProbeSafe(r.1, p)
      {
        if b.At(s).value.kind == King && Abs(e.x - s.x) == 2 {
          CastleKeepsProbeSafe(b, play, s, e, p);
        } else {
          PlainKeepsProbeSafe(b, play, s, e, p);
        }
      }
    }
  }

  /** The castling case of `MoveKeepsProbeSafe`, at one square. */
  lemma CastleKeepsProbeSafe(b: Board, play: Player, s: Position, e: Position, p: Position)
    requires b.Wf() && play != NoOne && HasKing(b, play) && AllProbeSafe(b)
    requires b.Valid(s) && b.Valid(e) && ProbeSafe(b, s) && Verdict(b, s, e, play) == Success
    requires b.At(s).value.kind == King && Abs(e.x - s.x) == 2 && b.Valid(p)
    ensures ProbeSafe(MoveHelper(b, play, s, e).1, p)
  {
    assert ProbeSafe(b, p);
    IndexInRange(b.w, b.h, p);
    CastleEffect(b, play, s, e);
    IndexInRange(b.w, b.h, e);
  }

  /** The case of `MoveKeepsProbeSafe` for a move that is not a castling, at one square. */
  lemma PlainKeepsProbeSafe(b: Board, play: Player, s: Position, e: Position, p: Position)
    requires b.Wf() && play != NoOne && HasKing(b, play) && AllProbeSafe(b)
    requires b.Valid(s) && b.Valid(e) && ProbeSafe(b, s) && Verdict(b, s, e, play) == Success
    requires !(b.At(s).value.kind == King && Abs(e.x - s.x) == 2) && b.Valid(p)
    ensures ProbeSafe(MoveHelper(b, play, s, e).1, p)
  {
    assert ProbeSafe(b, p);
    IndexInRange(b.w, b.h, p);
    PlainMoveEffect(b, play, s, e);
  }

  /** `play` has exactly one king. */
  predicate OneKing(b: Board, play: Player)
  {
    forall i, j | 0 <= i < |b.cells| && 0 <= j < |b.cells| && IsKingOf(b.cells[i], play) && IsKingOf(b.cells[j], play) :: i == j
  }

  /**
   * The verdict accepts a capture of the other side's only king only when
   * that side is already in check: a game that never leaves a side in check
   * on its opponent's turn never loses a king.
   */
  lemma KingCaptureNeedsCheck(b: Board, s: Position, e: Position, play: Player)
    requires b.Wf() && b.Valid(s) && b.Valid(e) && play != NoOne
    requires HasKing(b, play) && ProbeSafe(b, s)
    requires HasKing(b, Opponent(play)) && IsKingOf(b.At(e), Opponent(play)) && OneKing(b, Opponent(play))
    requires Verdict(b, s, e, play).Code() >= 0
    ensures InCheck(b, Opponent(play))
  {
    var opp := Opponent(play);
    OpponentInvolution(play);
    IndexInRange(b.w, b.h, s);
    IndexInRange(b.w, b.h, e);
    var kp := KingSquare(b, opp);
    IndexInjective(b.w, b.h, kp, e);
    assert kp == e;
    AcceptedCaptureAttacks(b, s, e, play);
  }

  /** A move accepted onto a piece of the other side is an attack of the mover's piece on that square. */
  lemma AcceptedCaptureAttacks(b: Board, s: Position, e: Position, play: Player)
    requires b.Wf() && b.Valid(s) && b.Valid(e) && play != NoOne
    requires HasKing(b, play) && ProbeSafe(b, s)
    requires OwnedBy(b.At(e), Opponent(play)) && Verdict(b, s, e, play).Code() >= 0
    ensures b.Idx(s) < |b.cells| && b.cells[b.Idx(s)].Some? && Attacks(b, b.Idx(s), e)
  {
    IndexInRange(b.w, b.h, s);
    var i := b.Idx(s);
    IndexInjective(b.w, b.h, b.Pos(i), s);
    VerdictOwnership(b, s, e, play);
    if b.At(s).value.kind == Pawn {
      AcceptedPawnCapture(b, s, e, play);
    } else {
      AcceptedShapeCapture(b, s, e, play);
    }
  }

  /** A pawn's accepted move onto a piece of the other side is a pawn capture. */
  lemma AcceptedPawnCapture(b: Board, s: Position, e: Position, play: Player)
    requires b.Wf() && b.Valid(s) && b.Valid(e) && play != NoOne
    requires HasKing(b, play) && ProbeSafe(b, s) && OwnedBy(b.At(s), play) && b.At(s).value.kind == Pawn
    requires OwnedBy(b.At(e), Opponent(play)) && Verdict(b, s, e, play) == Success
    ensures PawnCapture(b, s, e, b.At(s).value.owner)
  {
    VerdictLayers(b, s, e, play);
  }

  /** Any other piece's accepted move onto a piece of the other side follows its shape along a clear trajectory. */
  lemma AcceptedShapeCapture(b: Board, s: Position, e: Position, play: Player)
    requires b.Wf() && b.Valid(s) && b.Valid(e) && play != NoOne
    requires HasKing(b, play) && ProbeSafe(b, s) && OwnedBy(b.At(s), play) && b.At(s).value.kind != Pawn
    requires OwnedBy(b.At(e), Opponent(play)) && Verdict(b, s, e, play) == Success
    ensures var p := b.At(s).value;
            var sh := Shape(p.kind, p.owner, s, e);
            sh.0 && !TrajectoryBlocked(b, sh.1)
  {
    if CastleShape(s, e) {
      OccupiedTargetBarsCastle(b, s, e, play);
    }
    VerdictLayers(b, s, e, play);
  }

  /** Castling never lands on an occupied square: the king's target must be empty. */
  lemma OccupiedTargetBarsCastle(b: Board, s: Position, e: Position, play: Player)
    requires b.Wf() && b.Valid(s) && b.Valid(e) && play != NoOne
    requires OwnedBy(b.At(s), play) && ProbeSafe(b, s)
    requires CastleShape(s, e) && b.At(e).Some?
    ensures !CastleAllowed(b, s, e, play)
  {
    assert e == Position(if e.x > s.x then s.x + 2 else s.x - 2, s.y);
  }
}
