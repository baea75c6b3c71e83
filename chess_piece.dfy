/**
 * Movement shapes of the chess pieces (ChessPiece.cpp). A shape test says
 * whether a piece of a given kind could go from `s` to `e` on an empty board
 * and lists the squares strictly between them that must be empty (the
 * trajectory). Occupancy and pawn captures are judged elsewhere.
 */
module ChessPiece {
  import opened Enumerations
  import opened Pieces

  /** The squares of file `x` strictly between ranks `a` and `b`, lowest rank first. */
  function FileBetween(x: nat, a: nat, b: nat): (t: seq<Position>)
    ensures |t| == if a == b then 0 else Max(a, b) - Min(a, b) - 1
    ensures forall k | 0 <= k < |t| :: t[k] == Position(x, Min(a, b) + 1 + k)
  {
    if a == b then [] else seq(Max(a, b) - Min(a, b) - 1, (k: nat) => Position(x, Min(a, b) + 1 + k))
  }

  /** The squares of rank `y` strictly between files `a` and `b`, lowest file first. */
  function RankBetween(y: nat, a: nat, b: nat): (t: seq<Position>)
    ensures |t| == if a == b then 0 else Max(a, b) - Min(a, b) - 1
    ensures forall k | 0 <= k < |t| :: t[k] == Position(Min(a, b) + 1 + k, y)
  {
    if a == b then [] else seq(Max(a, b) - Min(a, b) - 1, (k: nat) => Position(Min(a, b) + 1 + k, y))
  }

  /** One step along a diagonal from `s` toward `e`: `k` squares away from `s`. */
  function DiagonalStep(s: Position, e: Position, k: nat): Position
    requires Abs(e.x - s.x) == Abs(e.y - s.y) && k <= Abs(e.x - s.x)
  {
    Position(if e.x >= s.x then s.x + k else s.x - k, if e.y >= s.y then s.y + k else s.y - k)
  }

  /** The diagonal squares strictly between `s` and `e`, stepping from `s` toward `e`. */
  function DiagonalBetween(s: Position, e: Position): (t: seq<Position>)
    requires Abs(e.x - s.x) == Abs(e.y - s.y) && s.x != e.x
    ensures |t| == Abs(e.x - s.x) - 1
    ensures forall k | 0 <= k < |t| :: t[k] == DiagonalStep(s, e, k + 1)
  {
    seq(Abs(e.x - s.x) - 1, k requires 0 <= k < Abs(e.x - s.x) - 1 => DiagonalStep(s, e, k + 1))
  }

  /** A straight move: exactly one of the two coordinates changes. */
  predicate Straight(s: Position, e: Position)
  {
    (s.x == e.x && s.y != e.y) || (s.y == e.y && s.x != e.x)
  }

  /** A diagonal move: both coordinates change by the same non-zero amount. */
  predicate Diagonal(s: Position, e: Position)
  {
    Abs(e.x - s.x) == Abs(e.y - s.y) && s.x != e.x
  }

  function StraightBetween(s: Position, e: Position): seq<Position>
  {
    if s.x == e.x then FileBetween(s.x, s.y, e.y) else RankBetween(s.y, s.x, e.x)
  }

  function PawnShape(owner: Player, s: Position, e: Position): (bool, seq<Position>)
  {
    if s.x != e.x then (false, [])
    else if owner == White then
      if s.y == 1 && e.y as int - s.y as int == 2 then (true, [Position(s.x, s.y + 1)])
      else if e.y as int - s.y as int == 1 then (true, [])
      else (false, [])
    else
      if s.y == 6 && e.y as int - s.y as int == -2 then (true, [Position(s.x, s.y - 1)])
      else if e.y as int - s.y as int == -1 then (true, [])
      else (false, [])
  }

  function RookShape(s: Position, e: Position): (bool, seq<Position>)
  {
    if Straight(s, e) then (true, StraightBetween(s, e)) else (false, [])
  }

  function KnightShape(s: Position, e: Position): (bool, seq<Position>)
  {
    var dx, dy := Abs(s.x - e.x), Abs(s.y - e.y);
    ((dx == 1 && dy == 2) || (dx == 2 && dy == 1), [])
  }

  function BishopShape(s: Position, e: Position): (bool, seq<Position>)
  {
    if Diagonal(s, e) then (true, DiagonalBetween(s, e)) else (false, [])
  }

  /** The queen tries the diagonal first, then the file, then the rank. */
  function QueenShape(s: Position, e: Position): (bool, seq<Position>)
  {
    if Diagonal(s, e) then (true, DiagonalBetween(s, e))
    else if Straight(s, e) then (true, StraightBetween(s, e))
    else (false, [])
  }

  function KingShape(s: Position, e: Position): (bool, seq<Position>)
  {
    var dx, dy := Abs(s.x - e.x), Abs(s.y - e.y);
    ((dx == 1 && dy <= 1) || (dy == 1 && dx <= 1), [])
  }

  /** `valid_move_shape`, dispatched on the kind (the pawn's direction on its owner). */
  function Shape(k: Kind, owner: Player, s: Position, e: Position): (bool, seq<Position>)
  {
    match k
    case Pawn => PawnShape(owner, s, e)
    case Rook => RookShape(s, e)
    case Knight => KnightShape(s, e)
    case Bishop => BishopShape(s, e)
    case Queen => QueenShape(s, e)
    case King => KingShape(s, e)
    case Ghost => (false, [])
  }
}

/**
 * The trajectory-building loops of ChessPiece.cpp, each proved to produce the
 * shape its specification function describes. The source appends to the
 * caller's (always empty) vector; here the trajectory is returned.
 */
module ChessPieceMoves {
  import opened Enumerations
  import opened Pieces
  import opened ChessPiece

  /** The `for` loops that walk a file between two ranks, lowest rank first. */
  method FileTrajectory(x: nat, a: nat, b: nat) returns (t: seq<Position>)
    requires a != b
    ensures t == FileBetween(x, a, b)
  {
    var lo, hi := Min(a, b), Max(a, b);
    t := [];
    var i := lo + 1;
    while i < hi
      invariant lo + 1 <= i <= hi
      invariant |t| == i - lo - 1
      invariant forall k | 0 <= k < |t| :: t[k] == Position(x, lo + 1 + k)
    {
      t := t + [Position(x, i)];
      i := i + 1;
    }
  }

  /** The `for` loops that walk a rank between two files, lowest file first. */
  method RankTrajectory(y: nat, a: nat, b: nat) returns (t: seq<Position>)
    requires a != b
    ensures t == RankBetween(y, a, b)
  {
    var lo, hi := Min(a, b), Max(a, b);
    t := [];
    var i := lo + 1;
    while i < hi
      invariant lo + 1 <= i <= hi
      invariant |t| == i - lo - 1
      invariant forall k | 0 <= k < |t| :: t[k] == Position(lo + 1 + k, y)
    {
      t := t + [Position(i, y)];
      i := i + 1;
    }
  }

  /** The four diagonal `for` loops: `start ± i` for i = 1 .. |dx| - 1. */
  method DiagonalTrajectory(s: Position, e: Position) returns (t: seq<Position>)
    requires Diagonal(s, e)
    ensures t == DiagonalBetween(s, e)
  {
    var n := Abs(e.x - s.x);
    t := [];
    var i := 1;
    while i < n
      invariant 1 <= i <= n
      invariant |t| == i - 1
      invariant forall k | 0 <= k < |t| :: t[k] == DiagonalStep(s, e, k + 1)
    {
      var p := Position(if e.x > s.x then s.x + i else s.x - i, if e.y > s.y then s.y + i else s.y - i);
      t := t + [p];
      i := i + 1;
    }
  }

  /** `Pawn::valid_move_shape`. */
  method PawnValidMoveShape(owner: Player, s: Position, e: Position) returns (ok: bool, t: seq<Position>)
    ensures (ok, t) == PawnShape(owner, s, e)
  {
    t := [];
    if s.x != e.x {
      return false, t;
    }
    if owner == White {
      if s.y == 1 && e.y as int - s.y as int == 2 {
        t := [Position(s.x, s.y + 1)];
        return true, t;
      }
      if e.y as int - s.y as int == 1 {
        return true, t;
      }
    } else {
      if s.y == 6 && e.y as int - s.y as int == -2 {
        t := [Position(s.x, s.y - 1)];
        return true, t;
      }
      if e.y as int - s.y as int == -1 {
        return true, t;
      }
    }
    return false, t;
  }

  /** `Rook::valid_move_shape`. */
  method RookValidMoveShape(s: Position, e: Position) returns (ok: bool, t: seq<Position>)
    ensures (ok, t) == RookShape(s, e)
  {
    if s.x == e.x && e.y != s.y {
      t := FileTrajectory(s.x, s.y, e.y);
      return true, t;
    } else if s.y == e.y && s.x != e.x {
      t := RankTrajectory(s.y, s.x, e.x);
      return true, t;
    }
    return false, [];
  }

  /** `Bishop::valid_move_shape`. */
  method BishopValidMoveShape(s: Position, e: Position) returns (ok: bool, t: seq<Position>)
    ensures (ok, t) == BishopShape(s, e)
  {
    if Abs(s.x - e.x) == Abs(s.y - e.y) && s.x != e.x {
      t := DiagonalTrajectory(s, e);
      return true, t;
    }
    return false, [];
  }

  /** `Queen::valid_move_shape`: diagonal, then file, then rank. */
  method QueenValidMoveShape(s: Position, e: Position) returns (ok: bool, t: seq<Position>)
    ensures (ok, t) == QueenShape(s, e)
  {
    if Abs(s.x - e.x) == Abs(s.y - e.y) && s.x != e.x {
      t := DiagonalTrajectory(s, e);
      return true, t;
    } else if s.x == e.x && s.y != e.y {
      t := FileTrajectory(s.x, s.y, e.y);
      return true, t;
    } else if s.y == e.y && s.x != e.x {
      t := RankTrajectory(s.y, s.x, e.x);
      return true, t;
    }
    return false, [];
  }

  /** `valid_move_shape` through the piece's dynamic type. */
  method ValidMoveShape(p: Piece, s: Position, e: Position) returns (ok: bool, t: seq<Position>)
    ensures (ok, t) == Shape(p.kind, p.owner, s, e)
  {
    match p.kind
    case Pawn => ok, t := PawnValidMoveShape(p.owner, s, e);
    case Rook => ok, t := RookValidMoveShape(s, e);
    case Knight => ok, t := KnightShape(s, e).0, [];
    case Bishop => ok, t := BishopValidMoveShape(s, e);
    case Queen => ok, t := QueenValidMoveShape(s, e);
    case King => ok, t := KingShape(s, e).0, [];
    case Ghost => ok, t := false, [];
  }
}
