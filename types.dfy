/**
 * The engine's basic enumerations (include/types.h): colours, piece types,
 * pieces, squares and directions, with the packing of a piece from its colour
 * and type.
 */
module Types {

  type Color = c: int | 0 <= c < 2
  const WHITE: Color := 0
  const BLACK: Color := 1

  type PieceType = pt: int | 0 <= pt <= 7
  const PAWN: PieceType := 0
  const KNIGHT: PieceType := 1
  const BISHOP: PieceType := 2
  const ROOK: PieceType := 3
  const QUEEN: PieceType := 4
  const KING: PieceType := 5
  const PIECE_TYPE_NB: int := 6
  const NO_PIECE_TYPE: PieceType := 7

  /** Pieces 0..11, PIECE_NB = 12 (never stored) and NO_PIECE = 13. */
  type Piece = p: int | 0 <= p <= 13
  const W_PAWN: Piece := 0
  const W_KNIGHT: Piece := 1
  const W_BISHOP: Piece := 2
  const W_ROOK: Piece := 3
  const W_QUEEN: Piece := 4
  const W_KING: Piece := 5
  const B_PAWN: Piece := 6
  const B_KNIGHT: Piece := 7
  const B_BISHOP: Piece := 8
  const B_ROOK: Piece := 9
  const B_QUEEN: Piece := 10
  const B_KING: Piece := 11
  const PIECE_NB: int := 12
  const NO_PIECE: Piece := 13

  /** A Square value is 0..63 or SQ_NONE = 64; Sq is a square on the board. */
  type Square = s: int | 0 <= s <= 64
  type Sq = s: int | 0 <= s < 64
  const SQ_A1: Sq := 0
  const SQ_B1: Sq := 1
  const SQ_C1: Sq := 2
  const SQ_D1: Sq := 3
  const SQ_E1: Sq := 4
  const SQ_F1: Sq := 5
  const SQ_G1: Sq := 6
  const SQ_H1: Sq := 7
  const SQ_A2: Sq := 8
  const SQ_H2: Sq := 15
  const SQ_A7: Sq := 48
  const SQ_H7: Sq := 55
  const SQ_A8: Sq := 56
  const SQ_B8: Sq := 57
  const SQ_C8: Sq := 58
  const SQ_D8: Sq := 59
  const SQ_E8: Sq := 60
  const SQ_F8: Sq := 61
  const SQ_G8: Sq := 62
  const SQ_H8: Sq := 63
  const SQ_NONE: Square := 64
  const SQ_NB: int := 64

  type Direction = d: int | -9 <= d <= 9
  const NORTH: Direction := 8
  const SOUTH: Direction := -8
  const EAST: Direction := 1
  const WEST: Direction := -1
  const NORTH_EAST: Direction := 9
  const NORTH_WEST: Direction := 7
  const SOUTH_EAST: Direction := -7
  const SOUTH_WEST: Direction := -9

  const MAX_PLY: int := 128

  /** The other colour (`c ^ 1`). */
  function Opponent(c: Color): (r: Color)
    ensures r != c
  {
    1 - c
  }

  function RankOf(s: Sq): int { s / 8 }
  function FileOf(s: Sq): int { s % 8 }

  function Abs(x: int): nat { if x < 0 then -x else x }

  /** The square on `rank` and `file`: the index is rank * 8 + file. */
  function SquareAt(rank: int, file: int): (s: Sq)
    requires 0 <= rank < 8 && 0 <= file < 8
    ensures RankOf(s) == rank && FileOf(s) == file
  {
    rank * 8 + file
  }

  /** Every board square is rank * 8 + file with both in 0..7. */
  lemma Coords(s: Sq)
    ensures s == 8 * RankOf(s) + FileOf(s)
    ensures 0 <= RankOf(s) < 8 && 0 <= FileOf(s) < 8
  {
  }

  /** make_piece(c, pt) = c * 6 + pt; type_of and color_of recover both halves. */
  function MakePiece(c: Color, pt: PieceType): (p: Piece)
    requires pt < PIECE_TYPE_NB
    ensures p < PIECE_NB
    ensures TypeOf(p) == pt && ColorOf(p) == c
  {
    c * 6 + pt
  }

  /** type_of(p) = p % 6 (defined on NO_PIECE too, where it gives KNIGHT). */
  function TypeOf(p: Piece): PieceType { p % 6 }

  /** color_of(p) = p / 6; it is 2 for NO_PIECE, which is not a colour. */
  function ColorOf(p: Piece): int { p / 6 }

  predicate IsPiece(p: Piece) { p < PIECE_NB }

  /** Every real piece is make_piece of its own colour and type. */
  lemma PieceDecomposes(p: Piece)
    requires IsPiece(p)
    ensures 0 <= ColorOf(p) < 2 && TypeOf(p) < PIECE_TYPE_NB
    ensures MakePiece(ColorOf(p) as Color, TypeOf(p)) == p
  {
  }

  /** White pieces are 0..5, black pieces 6..11; NO_PIECE is neither. */
  lemma PieceColorRanges(p: Piece)
    ensures IsPiece(p) && ColorOf(p) == WHITE <==> W_PAWN <= p <= W_KING
    ensures IsPiece(p) && ColorOf(p) == BLACK <==> B_PAWN <= p <= B_KING
    ensures p == NO_PIECE ==> ColorOf(p) == 2
  {
  }

  predicate OnBoard(rank: int, file: int) { 0 <= rank < 8 && 0 <= file < 8 }

  /** The rank step of a direction: +1 for the northward three, -1 for the southward three. */
  function DeltaRank(d: Direction): int
  {
    if d >= NORTH_WEST then 1 else if d <= SOUTH_EAST then -1 else 0
  }

  /** The file step: what remains of d after the rank step, so d == 8 * rank step + file step. */
  function DeltaFile(d: Direction): int
  {
    d - 8 * DeltaRank(d)
  }

  /** The eight compass directions of the Direction enum. */
  predicate IsDirection(d: Direction)
  {
    d != 0 && -1 <= DeltaFile(d) <= 1
  }

  /** The eight directions are exactly the eight enum values. */
  lemma DirectionValues(d: Direction)
    ensures IsDirection(d) <==>
      d in {NORTH, SOUTH, EAST, WEST, NORTH_EAST, NORTH_WEST, SOUTH_EAST, SOUTH_WEST}
    ensures d == NORTH ==> DeltaRank(d) == 1 && DeltaFile(d) == 0
    ensures d == SOUTH ==> DeltaRank(d) == -1 && DeltaFile(d) == 0
    ensures d == EAST ==> DeltaRank(d) == 0 && DeltaFile(d) == 1
    ensures d == WEST ==> DeltaRank(d) == 0 && DeltaFile(d) == -1
    ensures d == NORTH_EAST ==> DeltaRank(d) == 1 && DeltaFile(d) == 1
    ensures d == NORTH_WEST ==> DeltaRank(d) == 1 && DeltaFile(d) == -1
    ensures d == SOUTH_EAST ==> DeltaRank(d) == -1 && DeltaFile(d) == 1
    ensures d == SOUTH_WEST ==> DeltaRank(d) == -1 && DeltaFile(d) == -1
  {
  }

  /**
   * Adding a direction to a square that does not leave the board moves it by
   * that direction's rank and file step: NORTH/SOUTH are +-8, EAST/WEST +-1
   * and the diagonals +-7/+-9.
   */
  lemma DirectionStep(s: Sq, d: Direction)
    requires IsDirection(d)
    requires OnBoard(RankOf(s) + DeltaRank(d), FileOf(s) + DeltaFile(d))
    ensures 0 <= s + d < 64
    ensures RankOf(s + d) == RankOf(s) + DeltaRank(d)
    ensures FileOf(s + d) == FileOf(s) + DeltaFile(d)
  {
    Coords(s);
    var r, f := RankOf(s) + DeltaRank(d), FileOf(s) + DeltaFile(d);
    assert s + d == 8 * r + f;
  }
}
