/**
 * Pieces: the kind enumeration, the piece record with its one mutable flag,
 * and the per-kind factory (Piece.h).
 */
module Pieces {
  import opened Wrappers
  import opened Enumerations

  /** `PieceEnum`; the ghost is used by the Spooky variant only. */
  datatype Kind = Pawn | Rook | Knight | Bishop | Queen | King | Ghost

  /** The enumeration value of a kind (PAWN_ENUM = 0 ... GHOST_ENUM = 6). */
  function KindCode(k: Kind): nat
  {
    match k
    case Pawn => 0
    case Rook => 1
    case Knight => 2
    case Bishop => 3
    case Queen => 4
    case King => 5
    case Ghost => 6
  }

  /** The kind with a given enumeration value, if there is one. */
  function KindOfCode(n: int): (k: Option<Kind>)
    ensures k.Some? <==> 0 <= n <= 6
    ensures k.Some? ==> KindCode(k.value) == n
  {
    if n == 0 then Some(Pawn)
    else if n == 1 then Some(Rook)
    else if n == 2 then Some(Knight)
    else if n == 3 then Some(Bishop)
    else if n == 4 then Some(Queen)
    else if n == 5 then Some(King)
    else if n == 6 then Some(Ghost)
    else None
  }

  /** The kinds are exactly the values 0..6, each used once, GHOST_ENUM = 6. */
  lemma KindCodesAreExactly(k: Kind, j: Kind)
    ensures KindCode(k) <= 6 && KindOfCode(KindCode(k)) == Some(k)
    ensures KindCode(k) == KindCode(j) ==> k == j
    ensures KindCode(Ghost) == 6
  {
  }

  /**
   * A piece. Owner and kind are fixed when it is built and have no setters;
   * `moved` is the one mutable field, written by `set_moved`.
   */
  datatype Piece = Piece(owner: Player, kind: Kind, moved: bool) {

    /** `set_moved(b)`: the same piece with its moved flag replaced. */
    function SetMoved(b: bool): (p: Piece)
      ensures p.HasMoved() == b
      ensures p.owner == owner && p.kind == kind
    {
      this.(moved := b)
    }

    function HasMoved(): bool
    {
      moved
    }
  }

  /** `PieceFactory<T>(piece_type)`: builds pieces of one kind. */
  datatype PieceFactory = PieceFactory(pieceType: Kind) {

    /** `new_piece(owner)`: a fresh piece of the factory's kind, not yet moved. */
    function NewPiece(owner: Player): (p: Piece)
      ensures p.owner == owner && p.kind == pieceType
      ensures !p.HasMoved()
    {
      Piece(owner, pieceType, false)
    }
  }

  /** Setting the flag twice keeps only the last value; owner and kind never change. */
  lemma SetMovedOverwrites(p: Piece, a: bool, b: bool)
    ensures p.SetMoved(a).SetMoved(b) == p.SetMoved(b)
    ensures p.SetMoved(a).SetMoved(b).owner == p.owner
    ensures p.SetMoved(a).SetMoved(b).kind == p.kind
  {
  }
}
