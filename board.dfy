/**
 * The board layout and the status codes shared by every game (Game.h):
 * row-major addressing of a width x height grid, bounds, whose turn it is.
 */
module Boards {
  import opened Wrappers
  import opened Enumerations
  import opened Pieces

  /** The `status` enumeration: negative values are failures, positive ones outcomes. */
  datatype Status =
    | LoadFailure | SaveFailure | ParseError
    | MoveErrorOutOfBounds | MoveErrorNoPiece | MoveErrorBlocked | MoveErrorCantCastle
    | MoveErrorMustHandleCheck | MoveErrorCantExposeCheck | MoveErrorIllegal
    | Success | MoveCheck | MoveCapture | MoveCheckmate | MoveStalemate
    | MoveCaptureHill | GameWin | GameOver
  {
    /** The integer the enumeration assigns (LOAD_FAILURE = -10, ..., SUCCESS = 1, ...). */
    function Code(): int
    {
      match this
      case LoadFailure => -10
      case SaveFailure => -9
      case ParseError => -8
      case MoveErrorOutOfBounds => -7
      case MoveErrorNoPiece => -6
      case MoveErrorBlocked => -5
      case MoveErrorCantCastle => -4
      case MoveErrorMustHandleCheck => -3
      case MoveErrorCantExposeCheck => -2
      case MoveErrorIllegal => -1
      case Success => 1
      case MoveCheck => 2
      case MoveCapture => 3
      case MoveCheckmate => 4
      case MoveStalemate => 5
      case MoveCaptureHill => 6
      case GameWin => 7
      case GameOver => 8
    }

    predicate IsError()
    {
      LoadFailure? || SaveFailure? || ParseError? || MoveErrorOutOfBounds? || MoveErrorNoPiece?
      || MoveErrorBlocked? || MoveErrorCantCastle? || MoveErrorMustHandleCheck?
      || MoveErrorCantExposeCheck? || MoveErrorIllegal?
    }

    /** The outcomes that end play: the caller stops at codes >= MOVE_CHECKMATE. */
    predicate EndsGame()
    {
      MoveCheckmate? || MoveStalemate? || MoveCaptureHill? || GameWin? || GameOver?
    }
  }

  /**
   * Errors are exactly the codes -10..-1, outcomes are >= 1, and the outcomes
   * that end play are exactly those at or above MOVE_CHECKMATE.
   */
  lemma StatusCodeRanges(s: Status)
    ensures s.IsError() <==> -10 <= s.Code() <= -1
    ensures !s.IsError() <==> s.Code() >= 1
    ensures s.EndsGame() <==> s.Code() >= MoveCheckmate.Code()
  {
  }

  /** No two statuses share a code. */
  lemma StatusCodesDistinct(s: Status, t: Status)
    ensures s.Code() == t.Code() ==> s == t
  {
  }

  /** `index(pos)`: the row-major index of a position. */
  function Index(w: nat, p: Position): nat
  {
    p.y * w + p.x
  }

  /** `valid_position(pos)`. */
  predicate ValidPosition(w: nat, h: nat, p: Position)
  {
    p.x < w && p.y < h
  }

  /** `player_turn()`: `!(turn % 2)`, i.e. WHITE on odd turns and BLACK on even ones. */
  function PlayerTurn(turn: int): (p: Player)
    ensures p != NoOne
    ensures p == White <==> turn % 2 == 1
    ensures PlayerCode(p) == (if turn % 2 == 0 then 1 else 0)
  {
    if turn % 2 == 0 then Black else White
  }

  lemma MulMonotone(a: nat, b: nat, c: nat)
    requires a <= b
    ensures a * c <= b * c
  {
  }

  /** Every valid position maps to an index below w * h. */
  lemma IndexInRange(w: nat, h: nat, p: Position)
    requires ValidPosition(w, h, p)
    ensures Index(w, p) < w * h
  {
    MulMonotone(p.y + 1, h, w);
  }

  /** Two valid positions with the same index are the same position. */
  lemma {:induction false} IndexInjective(w: nat, h: nat, p: Position, q: Position)
    requires ValidPosition(w, h, p) && ValidPosition(w, h, q)
    requires Index(w, p) == Index(w, q)
    ensures p == q
  {
    if p.y < q.y {
      MulMonotone(p.y + 1, q.y, w);
      assert false;
    } else if q.y < p.y {
      MulMonotone(q.y + 1, p.y, w);
      assert false;
    }
  }

  /** The position at a row-major index (`Position(i % width, i / width)`). */
  function PosOf(w: nat, h: nat, i: nat): (p: Position)
    requires i < w * h
    ensures ValidPosition(w, h, p) && Index(w, p) == i
  {
    var p := Position(i % w, i / w);
    if p.y >= h then
      MulMonotone(h, p.y, w);
      assert false;
      p
    else
      p
  }

  /**
   * A board: its dimensions and one optional piece per square, in row-major
   * order (the `_pieces` vector, or a copy of it).
   */
  datatype Board = Board(w: nat, h: nat, cells: seq<Option<Piece>>) {

    predicate Wf()
    {
      |cells| == w * h
    }

    predicate Valid(p: Position)
    {
      ValidPosition(w, h, p)
    }

    function Idx(p: Position): nat
    {
      Index(w, p)
    }

    function Pos(i: nat): (p: Position)
      requires Wf() && i < |cells|
      ensures Valid(p) && Idx(p) == i
    {
      PosOf(w, h, i)
    }

    /** `get_piece(pos)`: the occupant of a valid square, nothing off the board. */
    function At(p: Position): (c: Option<Piece>)
      requires Wf()
      ensures Valid(p) ==> Idx(p) < |cells| && c == cells[Idx(p)]
      ensures !Valid(p) ==> c == None
    {
      if Valid(p) then
        IndexInRange(w, h, p);
        cells[Idx(p)]
      else
        None
    }

    /** The same board with one square's occupant replaced. */
    function Put(i: int, c: Option<Piece>): (b: Board)
      requires Wf() && 0 <= i < |cells|
      ensures b.Wf() && b.w == w && b.h == h
      ensures b.cells == cells[i := c]
    {
      Board(w, h, cells[i := c])
    }
  }

  /** A fresh game's board: `w * h` empty squares. */
  function EmptyBoard(w: nat, h: nat): (b: Board)
    ensures b.Wf() && b.w == w && b.h == h
    ensures forall p | b.Valid(p) :: b.At(p) == None
  {
    Board(w, h, seq(w * h, _ => None))
  }
}
