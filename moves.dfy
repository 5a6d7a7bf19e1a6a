/**
 * The 16-bit move encoding (include/move.h): bits 0-5 hold the origin, bits
 * 6-11 the destination, bits 12-13 the move type and bits 14-15 the promotion
 * piece minus KNIGHT. The four fields occupy disjoint bits, so the C++ `|`
 * of the shifted fields is their sum.
 */
module Moves {
  import opened Types

  type Word16 = x: int | 0 <= x < 0x1_0000

  type MoveType = t: int | 0 <= t < 4
  const NORMAL: MoveType := 0
  const PROMOTION: MoveType := 1
  const EN_PASSANT: MoveType := 2
  const CASTLING: MoveType := 3

  /** A promotion target: KNIGHT, BISHOP, ROOK or QUEEN. */
  predicate IsPromotionPiece(pt: PieceType) { KNIGHT <= pt <= QUEEN }

  datatype Move = Move(data: Word16)
  {
    function From(): Sq { data % 0x40 }
    function To(): Sq { (data / 0x40) % 0x40 }
    function Type(): MoveType { (data / 0x1000) % 4 }
    function PromotionPiece(): (pt: PieceType)
      ensures IsPromotionPiece(pt)
    {
      (data / 0x4000) % 4 + KNIGHT
    }
    function Raw(): Word16 { data }
  }

  /** Splitting a + n * b at a field boundary n recovers both parts. */
  lemma {:induction false} SplitAt(a: int, b: int, n: int)
    requires n == 4 || n == 0x40 || n == 0x1000 || n == 0x4000
    requires 0 <= a < n && 0 <= b
    ensures (a + n * b) / n == b && (a + n * b) % n == a
  {
    if n == 4 {
    } else if n == 0x40 {
    } else if n == 0x1000 {
    } else {
    }
  }

  /** Move(from, to, type, promo): the fields read back unchanged. */
  function NewMove(from: Sq, to: Sq, t: MoveType, promo: PieceType): (m: Move)
    requires IsPromotionPiece(promo)
    ensures m.From() == from && m.To() == to
    ensures m.Type() == t && m.PromotionPiece() == promo
  {
    var p := promo - KNIGHT;
    SplitAt(from, to + 0x40 * (t + 4 * p), 0x40);
    SplitAt(to, t + 4 * p, 0x40);
    SplitAt(from + to * 0x40, t + 4 * p, 0x1000);
    SplitAt(t, p, 4);
    SplitAt(from + to * 0x40 + t * 0x1000, p, 0x4000);
    Move(from + to * 0x40 + t * 0x1000 + p * 0x4000)
  }

  /** Move(from, to) with the defaults type = NORMAL and promo = KNIGHT. */
  function NormalMove(from: Sq, to: Sq): Move
  {
    NewMove(from, to, NORMAL, KNIGHT)
  }

  /** Move::none(): the default-constructed move, data 0. */
  function NoMove(): Move { Move(0) }

  /** Move::none() is indistinguishable from the move a1-a1. */
  lemma NoMoveIsA1A1()
    ensures NoMove() == NormalMove(SQ_A1, SQ_A1)
    ensures NoMove().From() == SQ_A1 && NoMove().To() == SQ_A1
  {
  }

  /**
   * Every 16-bit word is a well-formed move: re-packing its four fields
   * gives the same word, so two moves with equal fields are equal.
   */
  lemma {:induction false} MoveDetermined(m: Move)
    ensures m == NewMove(m.From(), m.To(), m.Type(), m.PromotionPiece())
  {
    var d := m.data;
    var r1, q1 := d % 0x40, d / 0x40;
    var r2, q2 := q1 % 0x40, q1 / 0x40;
    var r3, q3 := q2 % 4, q2 / 4;
    assert d == r1 + 0x40 * q1 && q1 == r2 + 0x40 * q2 && q2 == r3 + 4 * q3;
    SplitAt(r1 + 0x40 * r2, q2, 0x1000);
    SplitAt(r1 + 0x40 * r2 + 0x1000 * r3, q3, 0x4000);
    assert m.From() == r1 && m.To() == r2 && m.Type() == r3 && m.PromotionPiece() == q3 + KNIGHT;
    assert d == r1 + r2 * 0x40 + r3 * 0x1000 + q3 * 0x4000;
  }

  /** Two moves are equal exactly when their four fields are. */
  lemma {:induction false} MoveEquality(a: Move, b: Move)
    ensures a == b <==>
      a.From() == b.From() && a.To() == b.To() &&
      a.Type() == b.Type() && a.PromotionPiece() == b.PromotionPiece()
  {
    MoveDetermined(a);
    MoveDetermined(b);
  }
}
