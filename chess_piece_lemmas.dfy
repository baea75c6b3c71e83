/** What the shape tests of ChessPiece.cpp promise, stated over all inputs. */
module ChessPieceFacts {
  import opened Enumerations
  import opened Pieces
  import opened Boards
  import opened ChessPiece

  /** A pawn never changes file through its shape; diagonal captures are a separate rule. */
  lemma PawnKeepsFile(owner: Player, s: Position, e: Position)
    requires s.x != e.x
    ensures Shape(Pawn, owner, s, e) == (false, [])
  {
  }

  /**
   * A White pawn advances one rank with nothing to check, or two ranks from
   * rank 1 with rank 2 of its file as the only trajectory square.
   */
  lemma WhitePawnShape(s: Position, e: Position)
    requires s.x == e.x
    ensures Shape(Pawn, White, s, e) ==
      if e.y == s.y + 1 then (true, [])
      else if s.y == 1 && e.y == 3 then (true, [Position(s.x, 2)])
      else (false, [])
  {
  }

  /**
   * A Black pawn (and any pawn not owned by White) mirrors it: one rank down,
   * or two ranks down from rank 6 through rank 5.
   */
  lemma BlackPawnShape(owner: Player, s: Position, e: Position)
    requires owner != White && s.x == e.x
    ensures Shape(Pawn, owner, s, e) ==
      if e.y + 1 == s.y then (true, [])
      else if s.y == 6 && e.y == 4 then (true, [Position(s.x, 5)])
      else (false, [])
  {
  }

  /**
   * A rook shape is valid iff exactly one coordinate changes; its trajectory
   * is every square strictly between, in increasing coordinate order
   * whatever the direction, |d| - 1 squares in all.
   */
  lemma RookShapeExactly(owner: Player, s: Position, e: Position)
    ensures Shape(Rook, owner, s, e).0 <==> Straight(s, e)
    ensures Straight(s, e) ==> var t := Shape(Rook, owner, s, e).1;
      |t| == Abs(e.x - s.x) + Abs(e.y - s.y) - 1 &&
      forall k | 0 <= k < |t| ::
        if s.x == e.x then t[k] == Position(s.x, Min(s.y, e.y) + 1 + k)
        else t[k] == Position(Min(s.x, e.x) + 1 + k, s.y)
  {
  }

  /** A knight moves (1,2) or (2,1) in absolute value and can never be blocked. */
  lemma KnightShapeExactly(owner: Player, s: Position, e: Position)
    ensures Shape(Knight, owner, s, e).0 <==>
      (Abs(e.x - s.x) == 1 && Abs(e.y - s.y) == 2) || (Abs(e.x - s.x) == 2 && Abs(e.y - s.y) == 1)
    ensures Shape(Knight, owner, s, e).1 == []
  {
  }

  /**
   * A bishop shape is valid iff |dx| == |dy| != 0; its trajectory is the
   * |dx| - 1 diagonal squares stepping from the start toward the end.
   */
  lemma BishopShapeExactly(owner: Player, s: Position, e: Position)
    ensures Shape(Bishop, owner, s, e).0 <==> Abs(e.x - s.x) == Abs(e.y - s.y) != 0
    ensures Diagonal(s, e) ==> var t := Shape(Bishop, owner, s, e).1;
      |t| == Abs(e.x - s.x) - 1 &&
      forall k | 0 <= k < |t| :: t[k] == DiagonalStep(s, e, k + 1)
  {
  }

  /** A queen moves as a rook or as a bishop, with the same trajectory. */
  lemma QueenIsRookOrBishop(owner: Player, s: Position, e: Position)
    ensures Shape(Queen, owner, s, e).0 <==> Shape(Rook, owner, s, e).0 || Shape(Bishop, owner, s, e).0
    ensures Shape(Rook, owner, s, e).0 ==> Shape(Queen, owner, s, e) == Shape(Rook, owner, s, e)
    ensures Shape(Bishop, owner, s, e).0 ==> Shape(Queen, owner, s, e) == Shape(Bishop, owner, s, e)
  {
  }

  /** A king steps one square in any direction; a ghost never has a valid shape. */
  lemma KingAndGhostShapes(owner: Player, s: Position, e: Position)
    ensures Shape(King, owner, s, e).0 <==> Max(Abs(e.x - s.x), Abs(e.y - s.y)) == 1
    ensures Shape(King, owner, s, e).1 == []
    ensures Shape(Ghost, owner, s, e) == (false, [])
  {
  }

  /** A failed shape leaves no trajectory, and no piece may stay where it is. */
  lemma FailedShapeIsEmpty(k: Kind, owner: Player, s: Position, e: Position)
    ensures !Shape(k, owner, s, e).0 ==> Shape(k, owner, s, e).1 == []
    ensures !Shape(k, owner, s, e).0 || s != e
  {
  }

  /** Every trajectory square of a move between two valid squares is on the board and is neither end. */
  lemma {:induction false} TrajectoryOnBoard(w: nat, h: nat, k: Kind, owner: Player, s: Position, e: Position)
    requires ValidPosition(w, h, s) && ValidPosition(w, h, e)
    ensures forall t | t in Shape(k, owner, s, e).1 :: ValidPosition(w, h, t) && t != s && t != e
  {
    if k == Bishop || (k == Queen && Diagonal(s, e)) {
      if Diagonal(s, e) {
        DiagonalOnBoard(w, h, s, e);
      }
    } else if k == Rook || k == Queen {
      if Straight(s, e) {
        StraightOnBoard(w, h, s, e);
      }
    }
  }

  /** The squares strictly between the ends of a straight move lie on the board between them. */
  lemma StraightOnBoard(w: nat, h: nat, s: Position, e: Position)
    requires ValidPosition(w, h, s) && ValidPosition(w, h, e) && Straight(s, e)
    ensures forall t | t in StraightBetween(s, e) :: ValidPosition(w, h, t) && t != s && t != e
  {
    var tr := StraightBetween(s, e);
    forall t | t in tr
      ensures ValidPosition(w, h, t) && t != s && t != e
    {
      var i :| 0 <= i < |tr| && tr[i] == t;
    }
  }

  /** The squares strictly between the ends of a diagonal move lie on the board between them. */
  lemma DiagonalOnBoard(w: nat, h: nat, s: Position, e: Position)
    requires ValidPosition(w, h, s) && ValidPosition(w, h, e) && Diagonal(s, e)
    ensures forall t | t in DiagonalBetween(s, e) :: ValidPosition(w, h, t) && t != s && t != e
  {
    var tr := DiagonalBetween(s, e);
    forall t | t in tr
      ensures ValidPosition(w, h, t) && t != s && t != e
    {
      var i :| 0 <= i < |tr| && tr[i] == t;
      assert t == DiagonalStep(s, e, i + 1);
    }
  }
}
