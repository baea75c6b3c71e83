/**
 * The legality engine of Game.cpp as specification functions over board
 * values: the pawn-capture rule, path blocking, the check oracle, castling,
 * the layered move verdict, the "any legal move" search and the effect of
 * applying a move. The methods of class `Game` are proved to compute these.
 */
module Rules {
  import opened Wrappers
  import opened Enumerations
  import opened Pieces
  import opened Boards
  import opened ChessPiece
  import opened ChessPieceFacts

  predicate OwnedBy(c: Option<Piece>, play: Player)
  {
    c.Some? && c.value.owner == play
  }

  predicate IsKingOf(c: Option<Piece>, play: Player)
  {
    c.Some? && c.value.kind == King && c.value.owner == play
  }

  /** The index of `play`'s last king among the first `n` squares, in scan order. */
  function LastKing(cells: seq<Option<Piece>>, play: Player, n: nat): (r: Option<nat>)
    requires n <= |cells|
    ensures r.Some? ==> r.value < n && IsKingOf(cells[r.value], play)
    ensures r.Some? ==> forall j | r.value < j < n :: !IsKingOf(cells[j], play)
    ensures r.None? ==> forall j | 0 <= j < n :: !IsKingOf(cells[j], play)
    decreases n
  {
    if n == 0 then None
    else if IsKingOf(cells[n - 1], play) then Some(n - 1)
    else LastKing(cells, play, n - 1)
  }

  predicate HasKing(b: Board, play: Player)
  {
    exists i | 0 <= i < |b.cells| :: IsKingOf(b.cells[i], play)
  }

  /** Where the check oracle looks for `play`'s king: the last one in scan order. */
  function KingSquare(b: Board, play: Player): (p: Position)
    requires b.Wf() && HasKing(b, play)
    ensures b.Valid(p) && IsKingOf(b.At(p), play)
  {
    var k := LastKing(b.cells, play, |b.cells|);
    b.Pos(k.value)
  }

  /**
   * `check_pawn_capture`: the destination holds a piece of the other colour
   * exactly one rank forward (for `play`) and one file to either side.
   */
  predicate PawnCapture(b: Board, s: Position, e: Position, play: Player)
    requires b.Wf() && b.Valid(e)
  {
    var q := b.At(e);
    if play == White then
      q.Some? && q.value.owner == Black && e.y as int - s.y as int == 1 && Abs(e.x - s.x) == 1
    else if play == Black then
      q.Some? && q.value.owner == White && s.y as int - e.y as int == 1 && Abs(e.x - s.x) == 1
    else
      false
  }

  /** `check_blocked`: some trajectory square is occupied. */
  predicate TrajectoryBlocked(b: Board, t: seq<Position>)
    requires b.Wf()
  {
    exists k | 0 <= k < |t| :: b.At(t[k]).Some?
  }

  /**
   * The piece on square `i` attacks `target`: a pawn through the capture
   * rule, any other piece through its shape with a clear trajectory.
   */
  predicate Attacks(b: Board, i: nat, target: Position)
    requires b.Wf() && i < |b.cells| && b.cells[i].Some? && b.Valid(target)
  {
    var a := b.cells[i].value;
    if a.kind == Pawn then PawnCapture(b, b.Pos(i), target, a.owner)
    else
      var sh := Shape(a.kind, a.owner, b.Pos(i), target);
      sh.0 && !TrajectoryBlocked(b, sh.1)
  }

  /** `checked(play, board)`: some piece of the opponent attacks `play`'s king. */
  predicate InCheck(b: Board, play: Player)
    requires b.Wf() && play != NoOne && HasKing(b, play)
  {
    var kp := KingSquare(b, play);
    exists i | 0 <= i < |b.cells| :: OwnedBy(b.cells[i], Opponent(play)) && Attacks(b, i, kp)
  }

  /**
   * The castling rook lookups of an unmoved king at `p` (three squares to the
   * right, four to the left, as row-major offsets) stay inside the board.
   */
  predicate ProbeSafe(b: Board, p: Position)
    requires b.Wf()
  {
    var c := b.At(p);
    (c.Some? && c.value.kind == King && !c.value.moved) ==>
      (p.x + 2 < b.w ==> b.Idx(p) + 3 < |b.cells|) && (p.x >= 2 ==> b.Idx(p) >= 4)
  }

  ghost predicate AllProbeSafe(b: Board)
    requires b.Wf()
  {
    forall p | b.Valid(p) :: ProbeSafe(b, p)
  }

  /** The row-major index of the castling rook for a king move from `s` to `e`. */
  function RookIndex(b: Board, s: Position, e: Position): int
  {
    if e.x > s.x then b.Idx(s) + 3 else b.Idx(s) - 4
  }

  /** The castling geometry: a two-file move along the king's rank. */
  predicate CastleShape(s: Position, e: Position)
  {
    s.y == e.y && Abs(e.x - s.x) == 2
  }

  /**
   * The scratch boards of `check_castle_checking`, successive edits of one
   * copy: the king one square along, then two squares along, then two
   * squares along with the rook beside it. The king of `play` stays on each.
   */
  function CastleStages(b: Board, s: Position, e: Position, play: Player): (r: (Board, Board, Board))
    requires b.Wf() && b.Valid(s) && b.Valid(e) && CastleShape(s, e) && play != NoOne
    requires IsKingOf(b.At(s), play)
    requires 0 <= RookIndex(b, s, e) < |b.cells|
    ensures r.0.Wf() && r.0.w == b.w && r.0.h == b.h && HasKing(r.0, play)
    ensures r.1.Wf() && r.1.w == b.w && r.1.h == b.h && HasKing(r.1, play)
    ensures r.2.Wf() && r.2.w == b.w && r.2.h == b.h && HasKing(r.2, play)
  {
    var i := b.Idx(s);
    var d := if e.x > s.x then 1 else -1;
    var ri := RookIndex(b, s, e);
    IndexInRange(b.w, b.h, Position(s.x + d, s.y));
    var k := b.cells[i];
    var b1 := b.Put(i, None).Put(i + d, k);
    assert IsKingOf(b1.cells[i + d], play);
    var b2 := b1.Put(i + d, None).Put(i + 2 * d, k);
    assert IsKingOf(b2.cells[i + 2 * d], play);
    var b3 := b2.Put(i + d, b2.cells[ri]).Put(ri, None);
    assert IsKingOf(b3.cells[i + 2 * d], play);
    (b1, b2, b3)
  }

  /**
   * `check_castle_checking`: `play` is not in check now, nor on any of the
   * scratch boards of the walk.
   */
  predicate CastleWalk(b: Board, s: Position, e: Position, play: Player)
    requires b.Wf() && b.Valid(s) && b.Valid(e) && CastleShape(s, e) && play != NoOne
    requires IsKingOf(b.At(s), play)
    requires 0 <= RookIndex(b, s, e) < |b.cells|
  {
    var stages := CastleStages(b, s, e, play);
    IsKingOf(b.cells[b.Idx(s)], play) && !InCheck(b, play)
    && !InCheck(stages.0, play) && !InCheck(stages.1, play) && !InCheck(stages.2, play)
  }

  /**
   * `can_castle`: an unmoved king moving two files along its rank, an unmoved
   * rook three squares to the right or four to the left, empty squares
   * between them, and a safe walk.
   */
  predicate CastleAllowed(b: Board, s: Position, e: Position, play: Player)
    requires b.Wf() && b.Valid(s) && b.Valid(e) && play != NoOne
    requires OwnedBy(b.At(s), play) && ProbeSafe(b, s)
  {
    var k := b.At(s);
    if k.value.kind == King && !k.value.moved && CastleShape(s, e) then
      var i := b.Idx(s);
      if e.x > s.x then
        b.At(Position(s.x + 1, s.y)).None? && b.At(Position(s.x + 2, s.y)).None?
        && var r := b.cells[i + 3];
           r.Some? && r.value.kind == Rook && !r.value.moved && CastleWalk(b, s, e, play)
      else
        b.At(Position(s.x - 1, s.y)).None? && b.At(Position(s.x - 2, s.y)).None? && b.cells[i - 3].None?
        && var r := b.cells[i - 4];
           r.Some? && r.value.kind == Rook && !r.value.moved && CastleWalk(b, s, e, play)
    else
      false
  }

  /** The king-safety simulation's board: the piece relocated, nothing else changed. */
  function Relocated(b: Board, s: Position, e: Position): (r: Board)
    requires b.Wf() && b.Valid(s) && b.Valid(e)
    ensures r.Wf() && r.w == b.w && r.h == b.h
  {
    IndexInRange(b.w, b.h, s);
    IndexInRange(b.w, b.h, e);
    b.Put(b.Idx(e), b.At(s)).Put(b.Idx(s), None)
  }

  lemma RelocationKeepsKing(b: Board, s: Position, e: Position, play: Player)
    requires b.Wf() && b.Valid(s) && b.Valid(e)
    requires OwnedBy(b.At(s), play) && !OwnedBy(b.At(e), play) && HasKing(b, play)
    ensures HasKing(Relocated(b, s, e), play)
  {
    var k :| 0 <= k < |b.cells| && IsKingOf(b.cells[k], play);
    var r := Relocated(b, s, e);
    if k == b.Idx(s) {
      assert IsKingOf(r.cells[b.Idx(e)], play);
    } else {
      assert IsKingOf(r.cells[k], play);
    }
  }

  /**
   * `can_make_move(start, end, play)`: the layered verdict, in the source's
   * order: ownership, shape (with the castling and pawn-capture fall-backs),
   * blocking, then the king-safety simulation.
   */
  function Verdict(b: Board, s: Position, e: Position, play: Player): (v: Status)
    requires b.Wf() && b.Valid(s) && b.Valid(e) && play != NoOne
    requires HasKing(b, play) && ProbeSafe(b, s)
    ensures v == Success || v == MoveErrorNoPiece || v == MoveErrorIllegal || v == MoveErrorBlocked
      || v == MoveErrorCantCastle || v == MoveErrorCantExposeCheck || v == MoveErrorMustHandleCheck
    ensures v != MoveErrorNoPiece ==> OwnedBy(b.At(s), play)
    ensures v == Success && b.At(s).value.kind == King && Abs(e.x - s.x) == 2 ==>
      CastleShape(s, e) && CastleAllowed(b, s, e, play)
  {
    var p := b.At(s);
    var q := b.At(e);
    if p.None? || p.value.owner != play then MoveErrorNoPiece
    else
      var piece := p.value;
      var sh := Shape(piece.kind, piece.owner, s, e);
      var opp := Opponent(play);
      if !sh.0 && piece.kind == King && Abs(e.x - s.x) == 2 && s.y == e.y then
        if CastleAllowed(b, s, e, play) then Success else MoveErrorCantCastle
      else if !sh.0 && (piece.kind != Pawn || !PawnCapture(b, s, e, piece.owner)) then
        MoveErrorIllegal
      else if piece.kind == Pawn && !PawnCapture(b, s, e, piece.owner) && q.Some? && q.value.owner != play then
        MoveErrorBlocked
      else if (q.Some? && q.value.owner != opp) || TrajectoryBlocked(b, sh.1) then
        MoveErrorBlocked
      else
        RelocationKeepsKing(b, s, e, play);
        var after := Relocated(b, s, e);
        if !InCheck(b, play) then
          if InCheck(after, play) then MoveErrorCantExposeCheck else Success
        else
          if InCheck(after, play) then MoveErrorMustHandleCheck else Success
  }

  /** The move from square `i` to square `j` (row-major indices) gets a verdict >= 0. */
  predicate MoveAllowed(b: Board, i: nat, j: nat, play: Player)
    requires b.Wf() && i < |b.cells| && j < |b.cells| && play != NoOne && HasKing(b, play) && AllProbeSafe(b)
  {
    Verdict(b, b.Pos(i), b.Pos(j), play).Code() >= 0
  }

  /** The piece on square `i` belongs to `play` and has some square with a verdict >= 0. */
  predicate PieceCanMove(b: Board, i: nat, play: Player)
    requires b.Wf() && i < |b.cells| && play != NoOne && HasKing(b, play) && AllProbeSafe(b)
  {
    OwnedBy(b.cells[i], play) && exists j | 0 <= j < |b.cells| :: MoveAllowed(b, i, j, play)
  }

  /** `player_can_move(play)`: some square of `play` has a move with a verdict >= 0. */
  predicate CanMove(b: Board, play: Player)
    requires b.Wf() && play != NoOne && HasKing(b, play) && AllProbeSafe(b)
  {
    exists i | 0 <= i < |b.cells| :: PieceCanMove(b, i, play)
  }

  /** The castling relocation of `make_move_helper`: king to `e`, rook beside it on the inner side. */
  function Castled(b: Board, s: Position, e: Position): (r: Board)
    requires b.Wf() && b.Valid(s) && b.Valid(e) && CastleShape(s, e)
    requires 0 <= RookIndex(b, s, e) < |b.cells|
    ensures r.Wf() && r.w == b.w && r.h == b.h
  {
    var i := b.Idx(s);
    var ri := RookIndex(b, s, e);
    var d := if e.x > s.x then 1 else -1;
    IndexInRange(b.w, b.h, Position(s.x + d, s.y));
    var b1 := Relocated(b, s, e);
    var rook := b1.cells[ri];
    b1.Put(ri, None).Put(i + d, rook)
  }

  /** A pawn of `play` on `e` has reached the far rank and turns into a queen. */
  predicate Promotes(b: Board, p: Piece, e: Position, play: Player)
  {
    p.kind == Pawn && ((play == White && e.y == b.h - 1) || (play == Black && e.y == 0))
  }

  /**
   * What stands on the destination after a move: the piece marked as moved,
   * or, for a promoting pawn, a queen of the mover from the registry, also
   * marked as moved.
   */
  function Placed(b: Board, p: Piece, e: Position, play: Player): (r: Piece)
    ensures r.HasMoved()
    ensures r.owner == (if Promotes(b, p, e, play) then play else p.owner)
    ensures r.kind == (if Promotes(b, p, e, play) then Queen else p.kind)
  {
    if Promotes(b, p, e, play) then PieceFactory(Queen).NewPiece(play).SetMoved(true) else p.SetMoved(true)
  }

  /**
   * `make_move_helper(start, end)` for the player whose turn it is: the
   * status it returns and the board it leaves.
   */
  function MoveHelper(b: Board, play: Player, s: Position, e: Position): (r: (Status, Board))
    requires b.Wf() && play != NoOne && HasKing(b, play) && AllProbeSafe(b)
    ensures r.1.Wf() && r.1.w == b.w && r.1.h == b.h
  {
    if !b.Valid(s) || !b.Valid(e) then (MoveErrorOutOfBounds, b)
    else
      var v := Verdict(b, s, e, play);
      if v.Code() < 0 then (v, b)
      else
        var p := b.At(s).value;
        var q := b.At(e);
        var moved := if p.kind == King && Abs(e.x - s.x) == 2 then Castled(b, s, e) else Relocated(b, s, e);
        (if q.Some? then MoveCapture else Success, moved.Put(b.Idx(e), Some(Placed(b, p, e, play))))
  }
}
