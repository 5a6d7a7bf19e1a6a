/**
 * What a Position holds (include/position.h) and what its operations do to
 * it (src/position.cpp), stated on values: the 64-square mailbox, the
 * colour and type sets it determines, the StateInfo record, the Zobrist key
 * of a position, the castling-right masks, and the boards make_move and
 * unmake_move produce.
 */
module Board {
  import opened Types
  import opened Moves
  import opened Bitboards
  import opened Bits

  /** The mailbox `board[SQ_NB]`. */
  type Mailbox = b: seq<Piece> | |b| == 64 witness seq(64, _ => NO_PIECE)

  function EmptyBoard(): Mailbox
  {
    seq(64, _ => NO_PIECE)
  }

  /** Every square holds a piece or NO_PIECE (never the value PIECE_NB). */
  predicate Clean(b: Mailbox)
  {
    forall s :: 0 <= s < 64 ==> b[s] != PIECE_NB
  }

  predicate Holds(b: Mailbox, s: Sq) { b[s] < PIECE_NB }

  /** The squares color_bb[c] must hold. */
  function ColorSet(b: Mailbox, c: int): Bitboard
  {
    set s: Sq | Holds(b, s) && ColorOf(b[s]) == c
  }

  /** The squares type_bb[pt] must hold. */
  function TypeSet(b: Mailbox, pt: int): Bitboard
  {
    set s: Sq | Holds(b, s) && TypeOf(b[s]) == pt
  }

  /** Writing p on square s changes the colour and type sets at s only. */
  lemma {:induction false} SetsAfterWrite(b: Mailbox, s: Sq, p: Piece, c: int, pt: int)
    ensures ColorSet(b[s := p], c) == ColorSet(b, c) - {s} + (if p < PIECE_NB && ColorOf(p) == c then {s} else {})
    ensures TypeSet(b[s := p], pt) == TypeSet(b, pt) - {s} + (if p < PIECE_NB && TypeOf(p) == pt then {s} else {})
  {
    var b' := b[s := p];
    assert forall t: Sq :: t != s ==> b'[t] == b[t];
  }

  /** Colour and type bitboards that hold exactly the squares of their pieces on b. */
  predicate SetsMatch(b: Mailbox, colors: seq<Bitboard>, types: seq<Bitboard>)
  {
    |colors| == 2 && |types| == 6 && Clean(b) &&
    (forall c: Color :: colors[c] == ColorSet(b, c)) &&
    (forall pt :: 0 <= pt < 6 ==> types[pt] == TypeSet(b, pt))
  }

  /** Setting the square's bit in its piece's colour and type sets keeps them matching a write onto an empty square. */
  lemma {:induction false} PutMatches(b: Mailbox, colors: seq<Bitboard>, types: seq<Bitboard>, s: Sq, p: Piece)
    requires SetsMatch(b, colors, types) && b[s] == NO_PIECE && p < PIECE_NB
    ensures 0 <= ColorOf(p) < 2 && TypeOf(p) < 6
    ensures SetsMatch(b[s := p], colors[ColorOf(p) := colors[ColorOf(p)] + {s}], types[TypeOf(p) := types[TypeOf(p)] + {s}])
  {
    PieceDecomposes(p);
    var b' := b[s := p];
    forall c: Color ensures colors[ColorOf(p) := colors[ColorOf(p)] + {s}][c] == ColorSet(b', c) {
      SetsAfterWrite(b, s, p, c, 0);
    }
    forall pt | 0 <= pt < 6 ensures types[TypeOf(p) := types[TypeOf(p)] + {s}][pt] == TypeSet(b', pt) {
      SetsAfterWrite(b, s, p, 0, pt);
    }
  }

  /** Clearing the square's bit in its piece's colour and type sets keeps them matching the emptied square. */
  lemma {:induction false} RemoveMatches(b: Mailbox, colors: seq<Bitboard>, types: seq<Bitboard>, s: Sq)
    requires SetsMatch(b, colors, types) && Holds(b, s)
    ensures 0 <= ColorOf(b[s]) < 2 && TypeOf(b[s]) < 6
    ensures SetsMatch(b[s := NO_PIECE], colors[ColorOf(b[s]) := colors[ColorOf(b[s])] - {s}],
                      types[TypeOf(b[s]) := types[TypeOf(b[s])] - {s}])
  {
    var p := b[s];
    PieceDecomposes(p);
    var b' := b[s := NO_PIECE];
    forall c: Color ensures colors[ColorOf(p) := colors[ColorOf(p)] - {s}][c] == ColorSet(b', c) {
      SetsAfterWrite(b, s, NO_PIECE, c, 0);
    }
    forall pt | 0 <= pt < 6 ensures types[TypeOf(p) := types[TypeOf(p)] - {s}][pt] == TypeSet(b', pt) {
      SetsAfterWrite(b, s, NO_PIECE, 0, pt);
    }
  }

  /** The empty board has no pieces of any colour or type. */
  lemma EmptyBoardSets()
    ensures Clean(EmptyBoard())
    ensures forall c :: ColorSet(EmptyBoard(), c) == {}
    ensures forall pt :: TypeSet(EmptyBoard(), pt) == {}
  {
  }

  /** `pieces(c, pt)` on a consistent position: the squares holding make_piece(c, pt). */
  function PiecesOf(b: Mailbox, c: Color, pt: PieceType): Bitboard
    requires pt < PIECE_TYPE_NB
  {
    set s: Sq | b[s] == MakePiece(c, pt)
  }

  lemma {:induction false} PiecesOfSets(b: Mailbox, c: Color, pt: PieceType)
    requires pt < PIECE_TYPE_NB
    ensures PiecesOf(b, c, pt) == ColorSet(b, c) * TypeSet(b, pt)
  {
    forall s: Sq | s in ColorSet(b, c) * TypeSet(b, pt) ensures b[s] == MakePiece(c, pt) {
      PieceDecomposes(b[s]);
    }
  }

  /** `all_pieces()`: the occupied squares. */
  function Occupied(b: Mailbox): Bitboard
  {
    set s: Sq | Holds(b, s)
  }

  lemma {:induction false} OccupiedSets(b: Mailbox)
    ensures Occupied(b) == ColorSet(b, WHITE) + ColorSet(b, BLACK)
  {
    forall s: Sq | s in Occupied(b) ensures s in ColorSet(b, WHITE) + ColorSet(b, BLACK) {
      PieceDecomposes(b[s]);
    }
  }

  /** The StateInfo record; the `previous` link is the order of a stack of these. */
  datatype StateInfo = StateInfo(castleRights: nat, epSquare: Square, halfmoveClock: int, key: U64,
                                 capturedPiece: Piece, materialScore: int, pstScore: int)

  /** The record `clear` leaves: no rights, no en-passant square, clocks and key zero. */
  const ClearedState: StateInfo := StateInfo(0, SQ_NONE, 0, 0, NO_PIECE, 0, 0)

  /** The Zobrist tables. Their contents come from mt19937_64 and are left as parameters. */
  datatype ZobristKeys = ZobristKeys(piece: seq<seq<U64>>, side: U64, castle: seq<U64>, enPassant: seq<U64>)

  predicate KeysShaped(k: ZobristKeys)
  {
    |k.piece| == PIECE_NB && (forall p :: 0 <= p < PIECE_NB ==> |k.piece[p]| == 64) &&
    |k.castle| == 16 && |k.enPassant| == 64
  }

  /** The key a square contributes: its piece's key there, nothing when empty. */
  function PieceKey(k: ZobristKeys, p: Piece, s: Sq): U64
    requires KeysShaped(k)
  {
    if p < PIECE_NB then k.piece[p][s] else 0
  }

  /** The XOR of the piece keys of squares below n. */
  function BoardKey(k: ZobristKeys, b: Mailbox, n: nat): U64
    requires KeysShaped(k) && n <= 64
  {
    if n == 0 then 0 else Xor(BoardKey(k, b, n - 1), PieceKey(k, b[n - 1], n - 1))
  }

  /** Writing one square changes the board key by the old and the new piece key of that square. */
  lemma {:induction false} BoardKeyWrite(k: ZobristKeys, b: Mailbox, s: Sq, p: Piece, n: nat)
    requires KeysShaped(k) && n <= 64
    ensures BoardKey(k, b[s := p], n) ==
      if s < n then Xor(Xor(BoardKey(k, b, n), PieceKey(k, b[s], s)), PieceKey(k, p, s)) else BoardKey(k, b, n)
    decreases n
  {
    if n > 0 {
      var b' := b[s := p];
      BoardKeyWrite(k, b, s, p, n - 1);
      var prev := BoardKey(k, b, n - 1);
      var old_, new_ := PieceKey(k, b[s], s), PieceKey(k, p, s);
      var last := PieceKey(k, b[n - 1], n - 1);
      if s == n - 1 {
        assert BoardKey(k, b', n - 1) == prev && last == old_;
        XorCancel(prev, old_);
      } else if s < n - 1 {
        assert BoardKey(k, b', n - 1) == Xor(Xor(prev, old_), new_);
        XorSwap(Xor(prev, old_), new_, last);
        XorSwap(prev, old_, last);
      } else {
        assert BoardKey(k, b', n - 1) == prev;
      }
    }
  }

  /** An empty board contributes no key. */
  lemma {:induction false} EmptyBoardKey(k: ZobristKeys, n: nat)
    requires KeysShaped(k) && n <= 64
    ensures BoardKey(k, EmptyBoard(), n) == 0
  {
    if n > 0 {
      EmptyBoardKey(k, n - 1);
      XorZero(0);
    }
  }

  /** The key of a whole position: pieces, side to move, castling rights and en-passant square. */
  function FullKey(k: ZobristKeys, b: Mailbox, side: Color, castleRights: nat, ep: Square): U64
    requires KeysShaped(k) && castleRights < 16
  {
    Xor(Xor(Xor(BoardKey(k, b, 64), SideTerm(k, side)), k.castle[castleRights]), EpTerm(k, ep))
  }

  /**
   * The gap between a stored key and the key its position should have. Every
   * update of make_move, unmake_move and the null moves XORs the stored key
   * with what it changes in the position, so the gap stays as it was; it is
   * zero exactly when the stored key is the position's key.
   */
  function KeyGap(k: ZobristKeys, key: U64, b: Mailbox, side: Color, castleRights: nat, ep: Square): U64
    requires KeysShaped(k) && castleRights < 16
  {
    Xor(key, FullKey(k, b, side, castleRights, ep))
  }

  lemma {:induction false} KeyGapZero(k: ZobristKeys, key: U64, b: Mailbox, side: Color, castleRights: nat, ep: Square)
    requires KeysShaped(k) && castleRights < 16
    ensures KeyGap(k, key, b, side, castleRights, ep) == 0 <==> key == FullKey(k, b, side, castleRights, ep)
  {
    var f := FullKey(k, b, side, castleRights, ep);
    XorSelf(f);
    if BitXor(key, f) == 0 {
      XorCancel(key, f);
      XorZero(f);
    }
  }

  /**
   * put_piece and remove_piece: XOR-ing the key with the old and the new
   * piece key of a square while writing it keeps the key's gap to the board key.
   */
  lemma {:induction false} WriteKeepsBoardGap(k: ZobristKeys, b: Mailbox, s: Sq, p: Piece, key: U64)
    requires KeysShaped(k)
    ensures Xor(Xor(key, Xor(PieceKey(k, b[s], s), PieceKey(k, p, s))), BoardKey(k, b[s := p], 64))
      == Xor(key, BoardKey(k, b, 64))
  {
    BoardKeyWrite(k, b, s, p, 64);
    var o, n, bk := PieceKey(k, b[s], s), PieceKey(k, p, s), BoardKey(k, b, 64);
    forall i: nat ensures Bit(BitXor(BitXor(key, BitXor(o, n)), BitXor(BitXor(bk, o), n)), i) == Bit(BitXor(key, bk), i) {
      XorBit(key, BitXor(o, n), i);
      XorBit(o, n, i);
      XorBit(BitXor(key, BitXor(o, n)), BitXor(BitXor(bk, o), n), i);
      XorBit(BitXor(bk, o), n, i);
      XorBit(bk, o, i);
      XorBit(key, bk, i);
    }
    BitsEqual(BitXor(BitXor(key, BitXor(o, n)), BitXor(BitXor(bk, o), n)), BitXor(key, bk));
  }

  /** The side key the position contributes: side_key for black, nothing for white. */
  function SideTerm(k: ZobristKeys, side: Color): U64
  {
    if side == BLACK then k.side else 0
  }

  /** The en-passant key the position contributes: none for SQ_NONE. */
  function EpTerm(k: ZobristKeys, ep: Square): U64
    requires KeysShaped(k)
  {
    if ep < 64 then k.enPassant[ep] else 0
  }

  /**
   * The key arithmetic of make_move: with the old castling and en-passant
   * keys and the side key taken out, the pieces moved (which keep the gap to
   * the board key), and the new en-passant and castling keys put in, the
   * stored key keeps its gap to the key of the new position.
   */
  lemma {:induction false} MakeKeepsGap(k: ZobristKeys, key0: U64, b0: Mailbox, us: Color, cr0: nat, ep0: Square,
                                        key5: U64, b5: Mailbox, cr1: nat, ep1: Square)
    requires KeysShaped(k) && cr0 < 16 && cr1 < 16
    requires Xor(key5, BoardKey(k, b5, 64))
      == Xor(Xor(Xor(Xor(key0, k.castle[cr0]), EpTerm(k, ep0)), k.side), BoardKey(k, b0, 64))
    ensures KeyGap(k, Xor(Xor(key5, EpTerm(k, ep1)), k.castle[cr1]), b5, 1 - us, cr1, ep1)
      == KeyGap(k, key0, b0, us, cr0, ep0)
  {
    var c0, e0, sd, c1, e1 := k.castle[cr0], EpTerm(k, ep0), k.side, k.castle[cr1], EpTerm(k, ep1);
    var s0, s1 := SideTerm(k, us), SideTerm(k, 1 - us);
    var bk0, bk5 := BoardKey(k, b0, 64), BoardKey(k, b5, 64);
    var lhs := BitXor(BitXor(BitXor(key5, e1), c1), BitXor(BitXor(BitXor(bk5, s1), c1), e1));
    var rhs := BitXor(key0, BitXor(BitXor(BitXor(bk0, s0), c0), e0));
    forall i: nat ensures Bit(lhs, i) == Bit(rhs, i) {
      ZeroBits(i);
      XorBit(key5, bk5, i);
      XorBit(BitXor(BitXor(BitXor(key0, c0), e0), sd), bk0, i);
      XorBit(BitXor(BitXor(key0, c0), e0), sd, i);
      XorBit(BitXor(key0, c0), e0, i);
      XorBit(key0, c0, i);
      XorBit(BitXor(BitXor(key5, e1), c1), BitXor(BitXor(BitXor(bk5, s1), c1), e1), i);
      XorBit(BitXor(key5, e1), c1, i);
      XorBit(key5, e1, i);
      XorBit(BitXor(BitXor(bk5, s1), c1), e1, i);
      XorBit(BitXor(bk5, s1), c1, i);
      XorBit(bk5, s1, i);
      XorBit(key0, BitXor(BitXor(BitXor(bk0, s0), c0), e0), i);
      XorBit(BitXor(BitXor(bk0, s0), c0), e0, i);
      XorBit(BitXor(bk0, s0), c0, i);
      XorBit(bk0, s0, i);
    }
    BitsEqual(lhs, rhs);
  }

  /**
   * The key arithmetic of make_null_move: the side key and any en-passant key
   * taken out keep the stored key's gap with the side flipped and no
   * en-passant square.
   */
  lemma {:induction false} NullKeepsGap(k: ZobristKeys, key0: U64, b: Mailbox, us: Color, cr: nat, ep0: Square)
    requires KeysShaped(k) && cr < 16
    ensures KeyGap(k, Xor(Xor(key0, k.side), EpTerm(k, ep0)), b, 1 - us, cr, SQ_NONE) == KeyGap(k, key0, b, us, cr, ep0)
  {
    var e0, sd, c := EpTerm(k, ep0), k.side, k.castle[cr];
    var s0, s1 := SideTerm(k, us), SideTerm(k, 1 - us);
    var bk := BoardKey(k, b, 64);
    var lhs := BitXor(BitXor(BitXor(key0, sd), e0), BitXor(BitXor(BitXor(bk, s1), c), 0));
    var rhs := BitXor(key0, BitXor(BitXor(BitXor(bk, s0), c), e0));
    forall i: nat ensures Bit(lhs, i) == Bit(rhs, i) {
      ZeroBits(i);
      XorBit(BitXor(BitXor(key0, sd), e0), BitXor(BitXor(BitXor(bk, s1), c), 0), i);
      XorBit(BitXor(key0, sd), e0, i);
      XorBit(key0, sd, i);
      XorBit(BitXor(BitXor(bk, s1), c), 0, i);
      XorBit(BitXor(bk, s1), c, i);
      XorBit(bk, s1, i);
      XorBit(key0, BitXor(BitXor(BitXor(bk, s0), c), e0), i);
      XorBit(BitXor(BitXor(bk, s0), c), e0, i);
      XorBit(BitXor(bk, s0), c, i);
      XorBit(bk, s0, i);
    }
    BitsEqual(lhs, rhs);
  }

  /** `CastlePerm`: the rights a move from or to each square keeps, rank 1 to rank 8. */
  const CastlePerm: seq<nat> :=
    [13, 15, 15, 15, 12, 15, 15, 14] +
    [15, 15, 15, 15, 15, 15, 15, 15] +
    [15, 15, 15, 15, 15, 15, 15, 15] +
    [15, 15, 15, 15, 15, 15, 15, 15] +
    [15, 15, 15, 15, 15, 15, 15, 15] +
    [15, 15, 15, 15, 15, 15, 15, 15] +
    [15, 15, 15, 15, 15, 15, 15, 15] +
    [7, 15, 15, 15, 3, 15, 15, 11]

  /** The rights bits: 1 white king side, 2 white queen side, 4 black king side, 8 black queen side. */
  const WHITE_OO: nat := 0
  const WHITE_OOO: nat := 1
  const BLACK_OO: nat := 2
  const BLACK_OOO: nat := 3

  /** The mask of the corner and king squares clears exactly the rights that square's pieces carry. */
  function ClearedRights(s: Sq): set<nat>
  {
    if s == SQ_E1 then {WHITE_OO, WHITE_OOO}
    else if s == SQ_A1 then {WHITE_OOO}
    else if s == SQ_H1 then {WHITE_OO}
    else if s == SQ_E8 then {BLACK_OO, BLACK_OOO}
    else if s == SQ_A8 then {BLACK_OOO}
    else if s == SQ_H8 then {BLACK_OO}
    else {}
  }

  /** The CastlePerm entry of each square: 15 except on the six corner and king squares. */
  lemma {:induction false} CastlePermValue(s: Sq)
    ensures CastlePerm[s] ==
      if s == SQ_A1 then 13 else if s == SQ_E1 then 12 else if s == SQ_H1 then 14
      else if s == SQ_A8 then 7 else if s == SQ_E8 then 3 else if s == SQ_H8 then 11
      else 15
  {
  }

  /** Bits 0..3 of a CastlePerm entry are set except those of the rights its square clears. */
  lemma {:induction false} CastlePermBits(s: Sq, i: nat)
    requires i < 4
    ensures Bit(CastlePerm[s], i) <==> i !in ClearedRights(s)
  {
    var v := CastlePerm[s];
    CastlePermValue(s);
    BitByDiv(v, i);
  }

  lemma {:induction false} BitByDiv(a: nat, i: nat)
    requires i < 4
    ensures Bit(a, i) == ((a / Pow2(i)) % 2 == 1)
  {
    if i == 1 {
      assert Bit(a, 1) == Bit(a / 2, 0);
    } else if i == 2 {
      assert Bit(a, 2) == Bit((a / 2) / 2, 0);
    } else if i == 3 {
      assert Bit(a, 3) == Bit(((a / 2) / 2) / 2, 0);
    }
  }

  /**
   * `castle_rights &= CastlePerm[s]`: rights never grow; the right of a
   * rook's corner or of a king's square is lost; every other right is kept.
   */
  lemma {:induction false} CastlePermEffect(rights: nat, s: Sq, i: nat)
    requires i < 4
    ensures BitAnd(rights, CastlePerm[s]) <= rights
    ensures Bit(BitAnd(rights, CastlePerm[s]), i) <==> Bit(rights, i) && i !in ClearedRights(s)
  {
    BitAndBound(rights, CastlePerm[s]);
    BitAndBits(rights, CastlePerm[s], i);
    CastlePermBits(s, i);
  }

  /** The rook's origin and destination for a castling king landing on `to`. */
  function RookSquares(to: Sq): (r: (Sq, Sq))
  {
    if to == SQ_G1 then (SQ_H1, SQ_F1)
    else if to == SQ_C1 then (SQ_A1, SQ_D1)
    else if to == SQ_G8 then (SQ_H8, SQ_F8)
    else (SQ_A8, SQ_D8)
  }

  /** The square of the pawn an en-passant capture removes: one rank behind `to`. */
  function EpVictim(us: Color, to: Sq): int
  {
    if us == WHITE then to + SOUTH else to + NORTH
  }

  /** The board after the piece on from is lifted and any capture removed, before anything is put down. */
  function Lifted(b: Mailbox, m: Move, us: Color): Mailbox
    requires m.Type() == EN_PASSANT && b[m.To()] == NO_PIECE ==> 0 <= EpVictim(us, m.To()) < 64
  {
    var b1 := b[m.From() := NO_PIECE];
    if b[m.To()] != NO_PIECE then b1[m.To() := NO_PIECE]
    else if m.Type() == EN_PASSANT then b1[EpVictim(us, m.To()) := NO_PIECE]
    else b1
  }

  /** The piece that ends on `to`. */
  function Arriving(b: Mailbox, m: Move, us: Color): Piece
  {
    if m.Type() == PROMOTION then MakePiece(us, m.PromotionPiece()) else b[m.From()]
  }

  /** The piece make_move records as captured. */
  function CapturedBy(b: Mailbox, m: Move, us: Color): Piece
    requires m.Type() == EN_PASSANT && b[m.To()] == NO_PIECE ==> 0 <= EpVictim(us, m.To()) < 64
  {
    if b[m.To()] != NO_PIECE then b[m.To()]
    else if m.Type() == EN_PASSANT then b[EpVictim(us, m.To())]
    else NO_PIECE
  }

  /**
   * What make_move asks of its move to stay within the arrays and keep the
   * bitboards in step with the mailbox: the mover's piece on from, an
   * en-passant victim on the board, and for castling a rook to move onto an
   * empty square.
   */
  predicate MakeSafe(b: Mailbox, m: Move, us: Color)
  {
    var from, to := m.From(), m.To();
    from != to && Holds(b, from) && ColorOf(b[from]) == us && b[to] != PIECE_NB &&
    (m.Type() == EN_PASSANT && b[to] == NO_PIECE ==>
      0 <= EpVictim(us, to) < 64 && EpVictim(us, to) != from && Holds(b, EpVictim(us, to))) &&
    (m.Type() == CASTLING ==>
      var rf, rt := RookSquares(to).0, RookSquares(to).1;
      rf != from && rf != to && rt != to && Holds(b, rf) &&
      (rt == from || rt == rf || b[rt] == NO_PIECE))
  }

  /** The mailbox after make_move. */
  function MovedBoard(b: Mailbox, m: Move, us: Color): (r: Mailbox)
    requires MakeSafe(b, m, us)
  {
    var to := m.To();
    var b2 := Lifted(b, m, us)[to := Arriving(b, m, us)];
    if m.Type() == CASTLING then
      var rf, rt := RookSquares(to).0, RookSquares(to).1;
      b2[rf := NO_PIECE][rt := b2[rf]]
    else b2
  }

  /** A normal move or promotion moves one piece and removes the captured one; nothing else changes. */
  lemma {:induction false} MovedBoardNormal(b: Mailbox, m: Move, us: Color)
    requires MakeSafe(b, m, us) && (m.Type() == NORMAL || m.Type() == PROMOTION)
    ensures MovedBoard(b, m, us)[m.From()] == NO_PIECE
    ensures MovedBoard(b, m, us)[m.To()] == (if m.Type() == PROMOTION then MakePiece(us, m.PromotionPiece()) else b[m.From()])
    ensures forall s :: 0 <= s < 64 && s != m.From() && s != m.To() ==> MovedBoard(b, m, us)[s] == b[s]
  {
  }

  /** En passant moves the pawn and empties the victim's square one rank behind the destination. */
  lemma {:induction false} MovedBoardEnPassant(b: Mailbox, m: Move, us: Color)
    requires MakeSafe(b, m, us) && m.Type() == EN_PASSANT && b[m.To()] == NO_PIECE
    ensures var r := MovedBoard(b, m, us); var v := EpVictim(us, m.To());
      r[m.From()] == NO_PIECE && r[m.To()] == b[m.From()] && r[v] == NO_PIECE &&
      forall s :: 0 <= s < 64 && s != m.From() && s != m.To() && s != v ==> r[s] == b[s]
  {
  }

  /** Castling puts the king on `to` and moves the rook H1->F1, A1->D1, H8->F8 or A8->D8. */
  lemma {:induction false} MovedBoardCastling(b: Mailbox, m: Move, us: Color)
    requires MakeSafe(b, m, us) && m.Type() == CASTLING
    ensures var r := MovedBoard(b, m, us); var rf, rt := RookSquares(m.To()).0, RookSquares(m.To()).1;
      r[m.To()] == b[m.From()] && r[rt] == b[rf] && (rf != rt ==> r[rf] == NO_PIECE) &&
      (rt != m.From() ==> r[m.From()] == NO_PIECE) &&
      forall s :: 0 <= s < 64 && s != m.From() && s != m.To() && s != rf && s != rt ==> r[s] == b[s]
    ensures m.To() == SQ_G1 ==> RookSquares(m.To()) == (SQ_H1, SQ_F1)
    ensures m.To() == SQ_C1 ==> RookSquares(m.To()) == (SQ_A1, SQ_D1)
    ensures m.To() == SQ_G8 ==> RookSquares(m.To()) == (SQ_H8, SQ_F8)
    ensures m.To() == SQ_C8 ==> RookSquares(m.To()) == (SQ_A8, SQ_D8)
  {
  }

  /** The en-passant square make_move records: the square passed over by a pawn's double step. */
  function MadeEp(b: Mailbox, m: Move): (ep: Square)
    ensures ep != SQ_NONE ==> TypeOf(b[m.From()]) == PAWN && Abs(m.From() - m.To()) == 16
  {
    if TypeOf(b[m.From()]) == PAWN && Abs(m.From() - m.To()) == 16 then (m.From() + m.To()) / 2 else SQ_NONE
  }

  /**
   * The record make_move pushes, given the one below it: the rights masked
   * by CastlePerm of both squares, the clock reset by a pawn move or a
   * capture and otherwise advanced, the capture recorded, and `key`.
   */
  function MadeState(st: StateInfo, b: Mailbox, m: Move, us: Color, key: U64): (r: StateInfo)
    requires MakeSafe(b, m, us)
    ensures r.castleRights == BitAnd(BitAnd(st.castleRights, CastlePerm[m.From()]), CastlePerm[m.To()])
    ensures r.halfmoveClock == 0 <==> TypeOf(b[m.From()]) == PAWN || b[m.To()] != NO_PIECE || st.halfmoveClock == -1
    ensures r.capturedPiece == CapturedBy(b, m, us) && r.epSquare == MadeEp(b, m)
  {
    StateInfo(BitAnd(BitAnd(st.castleRights, CastlePerm[m.From()]), CastlePerm[m.To()]), MadeEp(b, m),
              if TypeOf(b[m.From()]) == PAWN || b[m.To()] != NO_PIECE then 0 else st.halfmoveClock + 1,
              key, CapturedBy(b, m, us), st.materialScore, st.pstScore)
  }

  /**
   * What unmake_move asks of the board it restores: its pieces to lift on
   * the board and the squares it puts them back on empty.
   */
  predicate UnmakeSafe(b: Mailbox, m: Move, us: Color, captured: Piece)
  {
    var from, to := m.From(), m.To();
    var rf, rt := RookSquares(to).0, RookSquares(to).1;
    from != to && Holds(b, to) && captured != PIECE_NB &&
    (m.Type() == CASTLING ==> rt != to && rf != to && Holds(b, rt) && (rf == rt || b[rf] == NO_PIECE) && rf != from) &&
    (b[from] == NO_PIECE || (m.Type() == CASTLING && from == rt)) &&
    (captured != NO_PIECE && m.Type() == EN_PASSANT ==>
      0 <= EpVictim(us, to) < 64 && EpVictim(us, to) != from && b[EpVictim(us, to)] == NO_PIECE)
  }

  /** The piece unmake_move returns to from: the mover for most moves, a pawn after a promotion, a king after castling. */
  function Returning(b: Mailbox, m: Move, us: Color): Piece
  {
    if m.Type() == PROMOTION then MakePiece(us, PAWN)
    else if m.Type() == CASTLING then MakePiece(us, KING)
    else b[m.To()]
  }

  /** The board once unmake_move has lifted the piece on `to` and, for castling, moved the rook back. */
  function Unlifted(b: Mailbox, m: Move): Mailbox
  {
    var b1 := b[m.To() := NO_PIECE];
    if m.Type() == CASTLING then
      var rf, rt := RookSquares(m.To()).0, RookSquares(m.To()).1;
      b1[rt := NO_PIECE][rf := b1[rt]]
    else b1
  }

  /** The mailbox after unmake_move, where us is the side that had made the move. */
  function UnmadeBoard(b: Mailbox, m: Move, us: Color, captured: Piece): (r: Mailbox)
    requires UnmakeSafe(b, m, us, captured)
  {
    var from, to := m.From(), m.To();
    var b3 := Unlifted(b, m)[from := Returning(b, m, us)];
    if captured == NO_PIECE then b3
    else if m.Type() == EN_PASSANT then b3[EpVictim(us, to) := captured]
    else b3[to := captured]
  }

  /**
   * The moves unmake_move can undo: besides make_move's own demands, a
   * promotion is made by a pawn, castling by a king onto a free square, and
   * en passant onto an empty square.
   */
  predicate Reversible(b: Mailbox, m: Move, us: Color)
  {
    MakeSafe(b, m, us) &&
    (m.Type() == PROMOTION ==> b[m.From()] == MakePiece(us, PAWN)) &&
    (m.Type() == CASTLING ==> b[m.From()] == MakePiece(us, KING)) &&
    (m.Type() == EN_PASSANT ==> b[m.To()] == NO_PIECE)
  }

  /** After make_move, unmake_move's demands hold with the recorded capture. */
  lemma {:induction false} MadeIsUnmakeSafe(b: Mailbox, m: Move, us: Color)
    requires Reversible(b, m, us) && Clean(b)
    ensures UnmakeSafe(MovedBoard(b, m, us), m, us, CapturedBy(b, m, us))
  {
    var r := MovedBoard(b, m, us);
    if m.Type() == CASTLING {
      MovedBoardCastling(b, m, us);
    } else if m.Type() == EN_PASSANT {
      MovedBoardEnPassant(b, m, us);
    } else {
      MovedBoardNormal(b, m, us);
    }
  }

  /** unmake_move right after make_move restores the mailbox, en-passant victims and promotions included. */
  lemma {:induction false} UnmakeRestoresBoard(b: Mailbox, m: Move, us: Color)
    requires Reversible(b, m, us) && Clean(b)
    ensures UnmakeSafe(MovedBoard(b, m, us), m, us, CapturedBy(b, m, us))
    ensures UnmadeBoard(MovedBoard(b, m, us), m, us, CapturedBy(b, m, us)) == b
  {
    MadeIsUnmakeSafe(b, m, us);
    var r := MovedBoard(b, m, us);
    var u := UnmadeBoard(r, m, us, CapturedBy(b, m, us));
    if m.Type() == CASTLING {
      MovedBoardCastling(b, m, us);
    } else if m.Type() == EN_PASSANT {
      MovedBoardEnPassant(b, m, us);
    } else {
      MovedBoardNormal(b, m, us);
    }
    assert forall s :: 0 <= s < 64 ==> u[s] == b[s];
  }
}
