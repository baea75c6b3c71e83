/** Optional values: the model's stand-in for a nullable `Piece*`. */
module Wrappers {
  datatype Option<+T> = None | Some(value: T)
}

/**
 * Players and board positions. The header that declares them is not part of
 * this model; both are reconstructed from their uses: `1 - play` turns WHITE
 * into BLACK and back, `!(turn % 2)` yields WHITE or BLACK, and the ghost is
 * owned by a third value, NO_ONE. Coordinates are unsigned in the source, so
 * they are naturals here; their differences are taken as integers.
 */
module Enumerations {

  datatype Player = White | Black | NoOne

  /** The numeric value of a player: WHITE = 0, BLACK = 1, NO_ONE = 2. */
  function PlayerCode(p: Player): nat
  {
    match p
    case White => 0
    case Black => 1
    case NoOne => 2
  }

  /** `static_cast<Player>(1 - play)`, defined for the two real players. */
  function Opponent(p: Player): (o: Player)
    requires p != NoOne
    ensures o != NoOne && o != p
    ensures PlayerCode(o) == 1 - PlayerCode(p)
  {
    if p == White then Black else White
  }

  lemma OpponentInvolution(p: Player)
    requires p != NoOne
    ensures Opponent(Opponent(p)) == p
  {
  }

  datatype Position = Position(x: nat, y: nat)

  function Abs(n: int): nat
  {
    if n < 0 then -n else n
  }

  function Min(a: nat, b: nat): nat
  {
    if a < b then a else b
  }

  function Max(a: nat, b: nat): nat
  {
    if a < b then b else a
  }
}
