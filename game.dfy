/**
 * The shared game engine of Game.h / Game.cpp: the board vector, the turn
 * counter, the factory registry, and the methods that read or change them.
 * Each loop of the source is a method here, proved to compute the
 * specification function of module Rules that it implements.
 */
module Engine {
  import opened Wrappers
  import opened Enumerations
  import opened Pieces
  import opened Boards
  import opened ChessPiece
  import opened ChessPieceMoves
  import opened ChessPieceFacts
  import opened Rules

  /** `check_blocked(trajectory, copy)`: scans the trajectory for an occupied square. */
  method CheckBlocked(t: seq<Position>, copy: Board) returns (blocked: bool)
    requires copy.Wf() && forall p | p in t :: copy.Valid(p)
    ensures blocked == TrajectoryBlocked(copy, t)
  {
    for k := 0 to |t|
      invariant forall j | 0 <= j < k :: copy.At(t[j]).None?
    {
      assert t[k] in t;
      IndexInRange(copy.w, copy.h, t[k]);
      if copy.cells[copy.Idx(t[k])] != None {
        return true;
      }
    }
    return false;
  }

  /**
   * `checked(play, copy)`: finds `play`'s king (the last one in scan order),
   * then scans for an opponent piece that attacks it.
   */
  method Checked(play: Player, copy: Board) returns (r: bool)
    requires copy.Wf() && play != NoOne && HasKing(copy, play)
    ensures r == InCheck(copy, play)
  {
    var n := |copy.cells|;
    var king: nat, found := 0, false;
    for i := 0 to n
      invariant (if found then Some(king) else None) == LastKing(copy.cells, play, i)
    {
      if copy.cells[i].Some? && copy.cells[i].value.owner == play && copy.cells[i].value.kind == King {
        king, found := i, true;
      }
    }
    var kp := copy.Pos(king);
    var opp := Opponent(play);
    for i := 0 to n
      invariant forall j | 0 <= j < i :: !(OwnedBy(copy.cells[j], opp) && Attacks(copy, j, kp))
    {
      var c := copy.cells[i];
      if c.Some? && c.value.owner == opp {
        var from := copy.Pos(i);
        if c.value.kind == Pawn {
          if PawnCapture(copy, from, kp, c.value.owner) {
            return true;
          }
        } else {
          var ok, t := ValidMoveShape(c.value, from, kp);
          TrajectoryOnBoard(copy.w, copy.h, c.value.kind, c.value.owner, from, kp);
          if ok {
            var blocked := CheckBlocked(t, copy);
            if !blocked {
              return true;
            }
          }
        }
      }
    }
    return false;
  }

  /**
   * `check_castle_checking`: walks the king across on a scratch copy of the
   * board, asking the check oracle at each step. The source restores some
   * cells of the scratch copy afterwards; the copy is discarded by every
   * caller, so those writes are not modelled.
   */
  method CheckCastleChecking(s: Position, e: Position, play: Player, copy: Board) returns (r: bool)
    requires copy.Wf() && copy.Valid(s) && copy.Valid(e) && CastleShape(s, e) && play != NoOne
    requires IsKingOf(copy.At(s), play)
    requires 0 <= RookIndex(copy, s, e) < |copy.cells|
    ensures r == CastleWalk(copy, s, e, play)
  {
    ghost var stages := CastleStages(copy, s, e, play);
    var c := Checked(play, copy);
    if c {
      return false;
    }
    var i := copy.Idx(s);
    var d: int := if e.x > s.x then 1 else -1;
    var ri := RookIndex(copy, s, e);
    IndexInRange(copy.w, copy.h, Position(s.x + d, s.y));
    var k := copy.cells[i];
    var scratch := copy.Put(i, None).Put(i + d, k);
    assert scratch == stages.0;
    c := Checked(play, scratch);
    if c {
      return false;
    }
    scratch := scratch.Put(i + d, None).Put(i + 2 * d, k);
    assert scratch == stages.1;
    c := Checked(play, scratch);
    if c {
      return false;
    }
    var rook := scratch.cells[ri];
    scratch := scratch.Put(i + d, rook).Put(ri, None);
    assert scratch == stages.2;
    c := Checked(play, scratch);
    return !c;
  }

  /** `can_castle`: the unmoved-king, unmoved-rook and empty-squares tests, then the walk. */
  method CanCastle(s: Position, e: Position, play: Player, copy: Board) returns (r: bool)
    requires copy.Wf() && copy.Valid(s) && copy.Valid(e) && play != NoOne
    requires OwnedBy(copy.At(s), play) && ProbeSafe(copy, s)
    ensures r == CastleAllowed(copy, s, e, play)
  {
    var k := copy.At(s);
    if k.value.kind == King && !k.value.moved {
      if s.y == e.y && Abs(s.x - e.x) == 2 {
        var i := copy.Idx(s);
        if e.x > s.x {
          if copy.At(Position(s.x + 1, s.y)) == None && copy.At(Position(s.x + 2, s.y)) == None {
            var rook := copy.cells[i + 3];
            if rook.Some? && rook.value.kind == Rook && !rook.value.moved {
              r := CheckCastleChecking(s, e, play, copy);
              return;
            }
          }
        } else {
          if copy.At(Position(s.x - 1, s.y)) == None && copy.At(Position(s.x - 2, s.y)) == None
            && copy.cells[i - 3] == None
          {
            var rook := copy.cells[i - 4];
            if rook.Some? && rook.value.kind == Rook && !rook.value.moved {
              r := CheckCastleChecking(s, e, play, copy);
              return;
            }
          }
        }
      }
    }
    return false;
  }

  /**
   * `Game`: a width x height board of optional pieces, the turn counter and
   * the registry of piece kinds that have a factory.
   */
  class Game {
    const width: nat
    const height: nat
    /** `_pieces`: one cell per square, in row-major order. */
    const pieces: array<Option<Piece>>
    var turn: int
    /** The kinds whose factory was added (`_registered_factories`). */
    var registered: set<Kind>

    ghost predicate Valid()
    {
      pieces.Length == width * height
    }

    /** The board as a value: the cells of `_pieces` with the dimensions. */
    function Snapshot(): (b: Board)
      reads pieces
      requires Valid()
      ensures b.Wf() && b.w == width && b.h == height
    {
      Board(width, height, pieces[..])
    }

    /** `Game(t, w, h)`: `w * h` empty squares, turn `t`, no factories yet. */
    constructor (t: int, w: nat, h: nat)
      ensures Valid() && fresh(pieces)
      ensures width == w && height == h && turn == t && registered == {}
      ensures Snapshot() == EmptyBoard(w, h)
    {
      width, height := w, h;
      pieces := new Option<Piece>[w * h](_ => None);
      turn := t;
      registered := {};
    }

    /** `player_turn()`. */
    function PlayerToMove(): (p: Player)
      reads this`turn
    {
      PlayerTurn(turn)
    }

    /** `get_piece(pos)`: the occupant of a valid square, nothing off the board. */
    function GetPiece(pos: Position): (c: Option<Piece>)
      reads pieces
      requires Valid()
      ensures c == Snapshot().At(pos)
    {
      if ValidPosition(width, height, pos) then
        IndexInRange(width, height, pos);
        pieces[Index(width, pos)]
      else
        None
    }

    /** `new_piece(kind, owner)`: a piece from the kind's factory, nothing if none is registered. */
    function NewPiece(kind: Kind, owner: Player): (c: Option<Piece>)
      reads this
      ensures c.Some? <==> kind in registered
      ensures c.Some? ==> c.value == PieceFactory(kind).NewPiece(owner)
    {
      if kind in registered then Some(PieceFactory(kind).NewPiece(owner)) else None
    }

    /** `add_factory`: registers a kind unless it already has a factory. */
    method AddFactory(kind: Kind) returns (added: bool)
      modifies this`registered
      ensures added <==> kind !in old(registered)
      ensures registered == old(registered) + {kind}
    {
      added := kind !in registered;
      if added {
        registered := registered + {kind};
      }
    }

    /**
     * `init_piece(kind, owner, pos)`: places a fresh piece on an empty valid
     * square when the kind is registered, and reports whether it did.
     */
    method InitPiece(kind: Kind, owner: Player, pos: Position) returns (ok: bool)
      requires Valid()
      modifies pieces
      ensures ok <==> kind in registered && ValidPosition(width, height, pos) && old(GetPiece(pos)).None?
      ensures ok ==> Snapshot() == old(Snapshot()).Put(Index(width, pos), Some(Piece(owner, kind, false)))
      ensures !ok ==> Snapshot() == old(Snapshot())
    {
      var piece := NewPiece(kind, owner);
      if piece.None? {
        return false;
      }
      if !ValidPosition(width, height, pos) {
        return false;
      }
      if GetPiece(pos).Some? {
        return false;
      }
      IndexInRange(width, height, pos);
      pieces[Index(width, pos)] := piece;
      return true;
    }

    /**
     * `can_make_move(start, end, play)`: works on a copy of the board and
     * never changes `_pieces`.
     */
    method CanMakeMove(s: Position, e: Position, play: Player) returns (v: Status)
      requires Valid() && ValidPosition(width, height, s) && ValidPosition(width, height, e)
      requires play != NoOne && HasKing(Snapshot(), play) && ProbeSafe(Snapshot(), s)
      ensures v == Verdict(Snapshot(), s, e, play)
    {
      var copy := Snapshot();
      var p := GetPiece(s);
      var q := GetPiece(e);
      if p.None? || p.value.owner != play {
        return MoveErrorNoPiece;
      }
      var opp := Opponent(play);
      var ok, t := ValidMoveShape(p.value, s, e);
      if !ok {
        if p.value.kind == King && Abs(s.x - e.x) == 2 && s.y == e.y {
          var castle := CanCastle(s, e, play, copy);
          return if castle then Success else MoveErrorCantCastle;
        }
        if p.value.kind != Pawn || !PawnCapture(copy, s, e, p.value.owner) {
          return MoveErrorIllegal;
        }
      }
      if p.value.kind == Pawn && !PawnCapture(copy, s, e, p.value.owner) && q.Some? && q.value.owner != play {
        return MoveErrorBlocked;
      }
      TrajectoryOnBoard(width, height, p.value.kind, p.value.owner, s, e);
      var blocked := CheckBlocked(t, copy);
      if (q.Some? && q.value.owner != opp) || blocked {
        return MoveErrorBlocked;
      }
      var before := Checked(play, copy);
      RelocationKeepsKing(copy, s, e, play);
      IndexInRange(width, height, s);
      IndexInRange(width, height, e);
      copy := copy.Put(Index(width, e), p).Put(Index(width, s), None);
      var after := Checked(play, copy);
      if !before && after {
        return MoveErrorCantExposeCheck;
      }
      if before && after {
        return MoveErrorMustHandleCheck;
      }
      return Success;
    }
  
    /**
     * The inner loop of `player_can_move`: some square, in row-major order,
     * gets a verdict >= 0 for the piece on square `i`.
     */
    method CanMoveFrom(i: nat, play: Player) returns (r: bool)
      requires Valid() && i < pieces.Length && play != NoOne
      requires HasKing(Snapshot(), play) && AllProbeSafe(Snapshot()) && OwnedBy(Snapshot().cells[i], play)
      ensures r == PieceCanMove(Snapshot(), i, play)
    {
      ghost var b := Snapshot();
      var j := 0;
      while j < height * width
        invariant 0 <= j <= |b.cells|
        invariant forall j' | 0 <= j' < j :: !MoveAllowed(b, i, j', play)
      {
        var ok := MoveAllowedAt(i, j, play);
        if ok {
          return true;
        }
        j := j + 1;
      }
      return false;
    }

    /** One probe of the inner loop of `player_can_move`: `can_make_move` from square `i` to square `j`. */
    method MoveAllowedAt(i: nat, j: nat, play: Player) returns (ok: bool)
      requires Valid() && i < pieces.Length && j < pieces.Length && play != NoOne
      requires HasKing(Snapshot(), play) && AllProbeSafe(Snapshot())
      ensures ok == MoveAllowed(Snapshot(), i, j, play)
    {
      var start := PosOf(width, height, i);
      var end := PosOf(width, height, j);
      assert ProbeSafe(Snapshot(), start);
      var v := CanMakeMove(start, end, play);
      ok := v.Code() >= 0;
    }

    /**
     * `player_can_move(play)`: scans the squares in row-major order for a
     * piece of `play` that has a square with a verdict >= 0.
     */
    method PlayerCanMove(play: Player) returns (r: bool)
      requires Valid() && play != NoOne && HasKing(Snapshot(), play) && AllProbeSafe(Snapshot())
      ensures r == CanMove(Snapshot(), play)
    {
      ghost var b := Snapshot();
      var i := 0;
      while i < height * width
        invariant 0 <= i <= |b.cells|
        invariant forall i' | 0 <= i' < i :: !PieceCanMove(b, i', play)
      {
        var start := PosOf(width, height, i);
        var p := GetPiece(start);
        assert p == b.cells[i];
        if p.Some? && p.value.owner == play {
          r := CanMoveFrom(i, play);
          if r {
            return;
          }
        } else {
          assert !OwnedBy(b.cells[i], play);
        }
        i := i + 1;
      }
      return false;
    }

    /** The simple movement of `make_move_helper`: the piece goes to `e`, `s` is emptied. */
    method Relocate(s: Position, e: Position)
      requires Valid() && ValidPosition(width, height, s) && ValidPosition(width, height, e)
      modifies pieces
      ensures Snapshot() == Relocated(old(Snapshot()), s, e)
    {
      IndexInRange(width, height, s);
      IndexInRange(width, height, e);
      var p := pieces[Index(width, s)];
      pieces[Index(width, e)] := p;
      pieces[Index(width, s)] := None;
    }

    /**
     * The castling movement of `make_move_helper`: the king goes two files
     * along and the rook, found by row-major offset from the king's square
     * (three to the right, four to the left; the unsigned `start.x - 4` of
     * the source lands there as well), moves beside the king's old square.
     */
    method CastleRelocate(s: Position, e: Position)
      requires Valid() && ValidPosition(width, height, s) && ValidPosition(width, height, e)
      requires CastleShape(s, e) && 0 <= RookIndex(Snapshot(), s, e) < pieces.Length
      modifies pieces
      ensures Snapshot() == Castled(old(Snapshot()), s, e)
    {
      Relocate(s, e);
      var si := Index(width, s);
      if e.x > s.x {
        var r := pieces[si + 3];
        pieces[si + 3] := None;
        IndexInRange(width, height, Position(s.x + 1, s.y));
        pieces[Index(width, Position(s.x + 1, s.y))] := r;
      } else {
        var r := pieces[si - 4];
        pieces[si - 4] := None;
        IndexInRange(width, height, Position(s.x - 1, s.y));
        pieces[Index(width, Position(s.x - 1, s.y))] := r;
      }
    }

    /**
     * `make_move_helper(start, end)`: checks the move for the player whose
     * turn it is and, when it is allowed, carries it out on `_pieces` —
     * castling moves the rook too, a pawn reaching the far rank is replaced
     * by a queen from the registry, and the moved piece is marked as moved.
     * The turn counter is left alone.
     */
    method MakeMoveHelper(s: Position, e: Position) returns (status: Status)
      requires Valid() && Queen in registered
      requires HasKing(Snapshot(), PlayerToMove()) && AllProbeSafe(Snapshot())
      modifies pieces
      ensures (status, Snapshot()) == MoveHelper(old(Snapshot()), PlayerToMove(), s, e)
    {
      if !ValidPosition(width, height, s) || !ValidPosition(width, height, e) {
        return MoveErrorOutOfBounds;
      }
      ghost var b := Snapshot();
      var play := PlayerToMove();
      var p := GetPiece(s);
      var q := GetPiece(e);
      status := CanMakeMove(s, e, play);
      if status.Code() < 0 {
        return;
      }
      IndexInRange(width, height, s);
      IndexInRange(width, height, e);
      var piece := p.value;
      var ei := Index(width, e);
      if piece.kind == King && Abs(s.x - e.x) == 2 {
        assert CastleShape(s, e) && ProbeSafe(b, s);
        CastleRelocate(s, e);
      } else {
        Relocate(s, e);
      }
      ghost var moved := Board(width, height, pieces[..]);
      var placed := piece;
      if piece.kind == Pawn && ((play == White && e.y == height - 1) || (play == Black && e.y == 0)) {
        pieces[ei] := None;
        var _ := InitPiece(Queen, play, e);
        placed := pieces[ei].value;
      }
      pieces[ei] := Some(placed.SetMoved(true));
      assert Snapshot() == moved.Put(ei, Some(placed.SetMoved(true)));
      if q.Some? {
        return MoveCapture;
      }
      return Success;
    }
  }
}
