/**
 * What the read-only queries of a Position (src/position.cpp) mean, stated
 * on the mailbox and the key history: which pieces attack a square, which
 * moves are pseudo-legal, when a key repeats, and when the material left
 * cannot mate.
 */
module Queries {
  import opened Types
  import opened Moves
  import opened Bitboards
  import opened Bits
  import opened Board
  import opened Attacks

  /**
   * A piece of colour c on t attacks s: a pawn diagonally one rank ahead of
   * it, a knight a leap away, a king a step away, and a slider that reaches
   * t from s along the occupancy.
   */
  predicate AttackerOn(b: Mailbox, t: Sq, s: Sq, c: Color)
  {
    Holds(b, t) && ColorOf(b[t]) == c &&
    var pt := TypeOf(b[t]);
    (pt == PAWN && PawnCapture(c, t, s)) ||
    (pt == KNIGHT && KnightLeap(t, s)) ||
    ((pt == BISHOP || pt == QUEEN) && t in BishopAttacks(s, Occupied(b))) ||
    ((pt == ROOK || pt == QUEEN) && t in RookAttacks(s, Occupied(b))) ||
    (pt == KING && KingStep(t, s))
  }

  /**
   * One square seen from the target: t attacks s for c exactly when t is in
   * one of is_attacked's five intersections.
   */
  lemma {:induction false} AttackerSquare(b: Mailbox, s: Sq, c: Color, t: Sq)
    ensures AttackerOn(b, t, s, c) <==>
      t in PawnAttacks(s, 1 - c) * PiecesOf(b, c, PAWN) ||
      t in KnightAttacks(s) * PiecesOf(b, c, KNIGHT) ||
      t in BishopAttacks(s, Occupied(b)) * (PiecesOf(b, c, BISHOP) + PiecesOf(b, c, QUEEN)) ||
      t in RookAttacks(s, Occupied(b)) * (PiecesOf(b, c, ROOK) + PiecesOf(b, c, QUEEN)) ||
      t in KingAttacks(s) * PiecesOf(b, c, KING)
  {
    PawnMirror(c, s, t);
    assert KnightLeap(t, s) <==> KnightLeap(s, t);
    assert KingStep(t, s) <==> KingStep(s, t);
    var mine := Holds(b, t) && ColorOf(b[t]) == c;
    forall pt | 0 <= pt < PIECE_TYPE_NB ensures t in PiecesOf(b, c, pt) <==> mine && TypeOf(b[t]) == pt {
      if Holds(b, t) {
        PieceDecomposes(b[t]);
      }
    }
  }

  /** A pawn of c on t attacks s exactly when a pawn of the other colour on s would attack t. */
  lemma {:induction false} PawnMirror(c: Color, s: Sq, t: Sq)
    ensures t in PawnAttacks(s, 1 - c) <==> PawnCapture(c, t, s)
  {
  }

  /**
   * is_attacked looks from the target: the squares a pawn of the other colour
   * there would attack, the knight, bishop, rook and king patterns from it.
   * Some such square holds a matching piece of c exactly when some piece of
   * c attacks s.
   */
  lemma {:induction false} AttackedWitness(b: Mailbox, s: Sq, c: Color)
    ensures (PawnAttacks(s, 1 - c) * PiecesOf(b, c, PAWN) != {} ||
             KnightAttacks(s) * PiecesOf(b, c, KNIGHT) != {} ||
             BishopAttacks(s, Occupied(b)) * (PiecesOf(b, c, BISHOP) + PiecesOf(b, c, QUEEN)) != {} ||
             RookAttacks(s, Occupied(b)) * (PiecesOf(b, c, ROOK) + PiecesOf(b, c, QUEEN)) != {} ||
             KingAttacks(s) * PiecesOf(b, c, KING) != {})
      <==> exists t: Sq :: AttackerOn(b, t, s, c)
  {
    var pawns := PawnAttacks(s, 1 - c) * PiecesOf(b, c, PAWN);
    var knights := KnightAttacks(s) * PiecesOf(b, c, KNIGHT);
    var diagonals := BishopAttacks(s, Occupied(b)) * (PiecesOf(b, c, BISHOP) + PiecesOf(b, c, QUEEN));
    var lines := RookAttacks(s, Occupied(b)) * (PiecesOf(b, c, ROOK) + PiecesOf(b, c, QUEEN));
    var kings := KingAttacks(s) * PiecesOf(b, c, KING);
    var all := pawns + knights + diagonals + lines + kings;
    if exists t: Sq :: AttackerOn(b, t, s, c) {
      var t: Sq :| AttackerOn(b, t, s, c);
      AttackerSquare(b, s, c, t);
      assert t in all;
    }
    if all != {} {
      var t: Sq :| t in all;
      AttackerSquare(b, s, c, t);
    }
  }

  /**
   * is_pseudo_legal for a pawn: a push onto an empty square, a double push
   * from the start rank over an empty square, or a diagonal step onto a
   * piece or the en-passant square, typed NORMAL or PROMOTION; or an
   * EN_PASSANT move diagonally onto the en-passant square.
   */
  predicate PawnMoveOk(b: Mailbox, us: Color, ep: Square, m: Move)
  {
    var from, to, t := m.From(), m.To(), m.Type();
    ((t == NORMAL || t == PROMOTION) && PawnStepOk(b, us, ep, from, to)) ||
    (t == EN_PASSANT && to == ep && PawnCapture(us, from, to))
  }

  /** The NORMAL or PROMOTION pawn moves: the single push, the double push and the diagonal capture. */
  predicate PawnStepOk(b: Mailbox, us: Color, ep: Square, from: Sq, to: Sq)
  {
    var up := if us == WHITE then NORTH else SOUTH;
    var startRank := if us == WHITE then 1 else 6;
    (to == from + up && b[to] == NO_PIECE) ||
    (RankOf(from) == startRank && to == from + 2 * up && b[from + up] == NO_PIECE && b[to] == NO_PIECE) ||
    (PawnCapture(us, from, to) && ((b[to] != NO_PIECE && ColorOf(b[to]) != us) || (b[to] == NO_PIECE && to == ep)))
  }

  /** `pawn_attacks(from, c) & square_bb(to)` is nonzero exactly when a pawn of c on from attacks to. */
  lemma {:induction false} PawnTarget(c: Color, from: Sq, to: Sq)
    ensures PawnAttacks(from, c) * SquareBB(to) != {} <==> PawnCapture(c, from, to)
  {
    if PawnCapture(c, from, to) {
      assert to in PawnAttacks(from, c) * SquareBB(to);
    }
  }

  /**
   * Castling passes the pseudo-legal test when the right is held and the
   * squares between king and rook on the king's way are empty: F and G for
   * the king side, B, C and D for the queen side.
   */
  predicate CastleOk(b: Mailbox, us: Color, rights: nat, to: Sq)
  {
    if us == WHITE then
      (to == SQ_G1 && Bit(rights, WHITE_OO) && b[SQ_F1] == NO_PIECE && b[SQ_G1] == NO_PIECE) ||
      (to == SQ_C1 && Bit(rights, WHITE_OOO) && b[SQ_D1] == NO_PIECE && b[SQ_C1] == NO_PIECE && b[SQ_B1] == NO_PIECE)
    else
      (to == SQ_G8 && Bit(rights, BLACK_OO) && b[SQ_F8] == NO_PIECE && b[SQ_G8] == NO_PIECE) ||
      (to == SQ_C8 && Bit(rights, BLACK_OOO) && b[SQ_D8] == NO_PIECE && b[SQ_C8] == NO_PIECE && b[SQ_B8] == NO_PIECE)
  }

  /** A knight leaps, a king steps, and a slider reaches `to` along the occupancy. */
  predicate PieceMoveOk(b: Mailbox, m: Move)
  {
    var from, to := m.From(), m.To();
    var pt, occ := TypeOf(b[from]), Occupied(b);
    (pt == KNIGHT && KnightLeap(from, to)) ||
    (pt == BISHOP && to in BishopAttacks(from, occ)) ||
    (pt == ROOK && to in RookAttacks(from, occ)) ||
    (pt == QUEEN && to in QueenAttacks(from, occ)) ||
    (pt == KING && KingStep(from, to))
  }

  /**
   * A pseudo-legal move: the mover is a piece of the side to move, the
   * destination holds none of its pieces, and the move follows the mover's
   * pattern; castling is a king's and is checked for rights and empty
   * squares only.
   */
  predicate PseudoLegal(b: Mailbox, us: Color, rights: nat, ep: Square, m: Move)
  {
    var from, to := m.From(), m.To();
    b[from] != NO_PIECE && ColorOf(b[from]) == us &&
    !(b[to] != NO_PIECE && ColorOf(b[to]) == us) &&
    if TypeOf(b[from]) == PAWN then PawnMoveOk(b, us, ep, m)
    else if m.Type() == CASTLING then TypeOf(b[from]) == KING && CastleOk(b, us, rights, to)
    else PieceMoveOk(b, m)
  }

  /** A pseudo-legal normal move or promotion meets make_move's demands. */
  lemma {:induction false} PseudoLegalIsMakeSafe(b: Mailbox, us: Color, rights: nat, ep: Square, m: Move)
    requires Clean(b) && PseudoLegal(b, us, rights, ep, m)
    requires m.Type() == NORMAL || m.Type() == PROMOTION
    ensures MakeSafe(b, m, us)
  {
    assert m.From() != m.To();
  }

  /** Square j holds `key` and lies an even number of plies below `top`, not below `end`. */
  predicate HitAt(h: seq<U64>, key: U64, top: int, end: int, j: int)
  {
    end <= j <= top && (top - j) % 2 == 0 && 0 <= j < |h| && h[j] == key
  }

  /** The number of hits at top, top - 2, ... down to end. */
  function Matches(h: seq<U64>, key: U64, top: int, end: int): nat
    requires 0 <= end && top < |h|
    decreases top - end
  {
    if top < end then 0 else (if h[top] == key then 1 else 0) + Matches(h, key, top - 2, end)
  }

  /** Two distinct hits at or below top. */
  ghost predicate TwoHits(h: seq<U64>, key: U64, top: int, end: int)
  {
    exists j1, j2 :: j1 < j2 && HitAt(h, key, top, end, j1) && HitAt(h, key, top, end, j2)
  }

  /** The hits at or below top other than top itself are the hits at or below top - 2. */
  lemma {:induction false} HitsBelow(h: seq<U64>, key: U64, top: int, end: int)
    ensures forall j :: HitAt(h, key, top, end, j) && j != top ==> HitAt(h, key, top - 2, end, j)
    ensures forall j :: HitAt(h, key, top - 2, end, j) ==> HitAt(h, key, top, end, j)
  {
    forall j | HitAt(h, key, top, end, j) && j != top ensures HitAt(h, key, top - 2, end, j) {
      assert (top - 2 - j) % 2 == 0;
    }
    forall j | HitAt(h, key, top - 2, end, j) ensures HitAt(h, key, top, end, j) {
      assert (top - j) % 2 == 0;
    }
  }

  /** One hit exists exactly when the count is positive. */
  lemma {:induction false} MatchesOne(h: seq<U64>, key: U64, top: int, end: int)
    requires 0 <= end && top < |h|
    ensures Matches(h, key, top, end) >= 1 <==> exists j :: HitAt(h, key, top, end, j)
    decreases top - end
  {
    if top >= end {
      MatchesOne(h, key, top - 2, end);
      HitsBelow(h, key, top, end);
      assert Matches(h, key, top, end) == (if h[top] == key then 1 else 0) + Matches(h, key, top - 2, end);
      if h[top] == key {
        assert HitAt(h, key, top, end, top);
      } else if j :| HitAt(h, key, top, end, j) {
        assert HitAt(h, key, top - 2, end, j);
      } else if Matches(h, key, top - 2, end) >= 1 {
        var j :| HitAt(h, key, top - 2, end, j);
        assert HitAt(h, key, top, end, j);
      }
    }
  }

  /** Two distinct hits exist exactly when the count is at least two. */
  lemma {:induction false} MatchesTwo(h: seq<U64>, key: U64, top: int, end: int)
    requires 0 <= end && top < |h|
    ensures Matches(h, key, top, end) >= 2 <==> TwoHits(h, key, top, end)
    decreases top - end
  {
    if top >= end {
      MatchesTwo(h, key, top - 2, end);
      MatchesOne(h, key, top - 2, end);
      HitsBelow(h, key, top, end);
      if TwoHits(h, key, top, end) {
        var j1, j2 :| j1 < j2 && HitAt(h, key, top, end, j1) && HitAt(h, key, top, end, j2);
        assert HitAt(h, key, top - 2, end, j1);
        if j2 != top {
          assert TwoHits(h, key, top - 2, end);
        }
      }
      if h[top] == key && Matches(h, key, top - 2, end) >= 1 {
        var j :| HitAt(h, key, top - 2, end, j);
        assert HitAt(h, key, top, end, j) && HitAt(h, key, top, end, top);
      }
      if TwoHits(h, key, top - 2, end) {
        var j1, j2 :| j1 < j2 && HitAt(h, key, top - 2, end, j1) && HitAt(h, key, top - 2, end, j2);
        assert HitAt(h, key, top, end, j1) && HitAt(h, key, top, end, j2);
      }
    }
  }

  /** The oldest history entry the scan may look at: history_index minus the halfmove clock, but not below 0. */
  function ScanEnd(index: int, clock: int): nat
  {
    if index - clock > 0 then index - clock else 0
  }

  /**
   * is_repetition's verdict as the scan is written: two hits on the current
   * key among the entries history_index - 2, history_index - 4, ... down to
   * the halfmove window. The current key is entry history_index - 1, so
   * these are the positions 1, 3, 5, ... plies back.
   */
  ghost predicate Repeated(h: seq<U64>, key: U64, index: int, clock: int)
  {
    TwoHits(h, key, index - 2, ScanEnd(index, clock))
  }

  /**
   * The sides to move of the recorded positions: entry j of the key history
   * was written with sides[j] to move. set_fen writes entry 0, and every
   * make_move and make_null_move flips the side before it appends, so
   * neighbouring entries alternate.
   */
  predicate Alternating(sides: seq<Color>)
  {
    forall k :: 0 <= k < |sides| - 1 ==> sides[k + 1] == 1 - sides[k]
  }

  /** Entries an even number of plies apart have the same side to move. */
  lemma {:induction false} SideParity(sides: seq<Color>, i: int, j: int)
    requires Alternating(sides) && 0 <= i <= j < |sides|
    ensures sides[j] == sides[i] <==> (j - i) % 2 == 0
    decreases j - i
  {
    if i < j {
      SideParity(sides, i, j - 1);
      assert sides[j] == 1 - sides[j - 1];
    }
  }

  /**
   * What the scan as written compares: it reports a repetition exactly when
   * two earlier entries in the halfmove window hold the current key and were
   * recorded with the OTHER side to move. Because the side key is part of
   * every key, such a match can only be a key collision.
   */
  lemma {:induction false} RepetitionAsWritten(h: seq<U64>, key: U64, index: int, clock: int, sides: seq<Color>)
    requires Alternating(sides) && 1 <= index <= |sides| && index <= |h|
    ensures Repeated(h, key, index, clock) <==>
      exists j1, j2 :: ScanEnd(index, clock) <= j1 < j2 < index - 1 && h[j1] == key && h[j2] == key &&
        sides[j1] != sides[index - 1] && sides[j2] != sides[index - 1]
  {
    var end := ScanEnd(index, clock);
    forall j | end <= j < index - 1
      ensures HitAt(h, key, index - 2, end, j) <==> h[j] == key && sides[j] != sides[index - 1]
    {
      SideParity(sides, j, index - 1);
    }
  }

  /** The oldest entry a repetition can reach: the one `clock` plies before the current entry, not below 0. */
  function WindowEnd(index: int, clock: int): nat
  {
    if index - 1 - clock > 0 then index - 1 - clock else 0
  }

  /**
   * is_repetition as intended: the scan starts two plies back, at
   * history_index - 3, steps by two, and goes back as far as the halfmove
   * clock reaches, that entry included.
   */
  ghost predicate RepeatedSameSide(h: seq<U64>, key: U64, index: int, clock: int)
  {
    TwoHits(h, key, index - 3, WindowEnd(index, clock))
  }

  /**
   * The intended scan reports a repetition exactly when two earlier entries,
   * at most `clock` plies back, hold the current key with the same side to
   * move: the position occurred twice before, a threefold repetition.
   */
  lemma {:induction false} RepetitionIntended(h: seq<U64>, key: U64, index: int, clock: int, sides: seq<Color>)
    requires Alternating(sides) && 1 <= index <= |sides| && index <= |h|
    ensures RepeatedSameSide(h, key, index, clock) <==>
      exists j1, j2 :: 0 <= j1 < j2 < index - 1 && index - 1 - j1 <= clock && h[j1] == key && h[j2] == key &&
        sides[j1] == sides[index - 1] && sides[j2] == sides[index - 1]
  {
    var end := WindowEnd(index, clock);
    forall j | 0 <= j < index - 1
      ensures HitAt(h, key, index - 3, end, j) <==> index - 1 - j <= clock && h[j] == key && sides[j] == sides[index - 1]
    {
      SideParity(sides, j, index - 1);
    }
  }

  /**
   * From the start position both sides play a knight out and back twice:
   * the start position (key 1) recurs after four and eight plies with white
   * to move, a threefold repetition, with the halfmove clock at 8. The scan
   * as written compares only the black-to-move entries 7, 5, 3, 1 and
   * reports nothing; the intended scan finds entries 4 and 0.
   */
  lemma {:induction false} RepetitionMissed()
    ensures var h := [1, 2, 3, 4, 1, 2, 3, 4, 1];
      !Repeated(h, 1, 9, 8) && RepeatedSameSide(h, 1, 9, 8)
  {
    var h: seq<U64> := [1, 2, 3, 4, 1, 2, 3, 4, 1];
    assert Matches(h, 1, 7, 1) == 0;
    MatchesTwo(h, 1, 7, 1);
    assert HitAt(h, 1, 6, 0, 0) && HitAt(h, 1, 6, 0, 4);
  }

  /** A white bishop on w and a black one on k are the only bishops on the board. */
  predicate OnlyBishops(b: Mailbox, w: Sq, k: Sq)
  {
    b[w] == W_BISHOP && b[k] == B_BISHOP &&
    forall u: Sq :: Holds(b, u) && TypeOf(b[u]) == BISHOP ==> u == w || u == k
  }

  /** The material that cannot mate, by the engine's rule. */
  predicate InsufficientMaterial(b: Mailbox)
  {
    var n := |Occupied(b)|;
    n == 2 ||
    (n == 3 && exists t: Sq :: Holds(b, t) && (TypeOf(b[t]) == KNIGHT || TypeOf(b[t]) == BISHOP)) ||
    (n == 4 && exists w: Sq, k: Sq :: OnlyBishops(b, w, k) && IsLightSquare(w) == IsLightSquare(k))
  }

  /**
   * The four-piece case of is_insufficient_material: two bishops in all, a
   * white and a black one, with their lowest squares of the same colour,
   * means exactly one bishop each and those two on same-coloured squares.
   */
  lemma {:induction false} BishopPair(b: Mailbox)
    requires Clean(b)
    ensures (|TypeSet(b, BISHOP)| == 2 && PiecesOf(b, WHITE, BISHOP) != {} && PiecesOf(b, BLACK, BISHOP) != {} &&
             IsLightSquare(Lsb(PiecesOf(b, WHITE, BISHOP))) == IsLightSquare(Lsb(PiecesOf(b, BLACK, BISHOP))))
      <==> exists w: Sq, k: Sq :: OnlyBishops(b, w, k) && IsLightSquare(w) == IsLightSquare(k)
  {
    var white, black, all := PiecesOf(b, WHITE, BISHOP), PiecesOf(b, BLACK, BISHOP), TypeSet(b, BISHOP);
    if |all| == 2 && white != {} && black != {} {
      PairFromCount(b);
    }
    if w: Sq, k: Sq :| OnlyBishops(b, w, k) {
      PairCount(b, w, k);
    }
  }

  /** Two bishops, one of each colour: the lowest white and lowest black bishop are the only ones. */
  lemma {:induction false} PairFromCount(b: Mailbox)
    requires Clean(b) && |TypeSet(b, BISHOP)| == 2
    requires PiecesOf(b, WHITE, BISHOP) != {} && PiecesOf(b, BLACK, BISHOP) != {}
    ensures Lsb(PiecesOf(b, WHITE, BISHOP)) < 64 && Lsb(PiecesOf(b, BLACK, BISHOP)) < 64
    ensures OnlyBishops(b, Lsb(PiecesOf(b, WHITE, BISHOP)), Lsb(PiecesOf(b, BLACK, BISHOP)))
  {
    var white, black, all := PiecesOf(b, WHITE, BISHOP), PiecesOf(b, BLACK, BISHOP), TypeSet(b, BISHOP);
    var w, k: Sq := Lsb(white), Lsb(black);
    assert w != k && w in all && k in all;
    var rest := all - {w} - {k};
    assert |all - {w}| == 1 && |rest| == 0;
    forall u: Sq | Holds(b, u) && TypeOf(b[u]) == BISHOP ensures u == w || u == k {
      assert u in all;
      assert u !in rest;
    }
  }

  /** With only the bishops on w and k, there are two bishops and each colour's set is the one square. */
  lemma {:induction false} PairCount(b: Mailbox, w: Sq, k: Sq)
    requires OnlyBishops(b, w, k)
    ensures TypeSet(b, BISHOP) == {w, k} && |TypeSet(b, BISHOP)| == 2
    ensures PiecesOf(b, WHITE, BISHOP) == {w} && PiecesOf(b, BLACK, BISHOP) == {k}
  {
    assert TypeSet(b, BISHOP) == {w, k};
    assert PiecesOf(b, WHITE, BISHOP) == {w};
    assert PiecesOf(b, BLACK, BISHOP) == {k};
  }

  /** The three cases of is_insufficient_material, read off the piece counts and sets. */
  lemma {:induction false} MaterialCases(b: Mailbox)
    requires Clean(b)
    ensures InsufficientMaterial(b) <==>
      var n := |Occupied(b)|;
      var white, black := PiecesOf(b, WHITE, BISHOP), PiecesOf(b, BLACK, BISHOP);
      n == 2 ||
      (n == 3 && (TypeSet(b, KNIGHT) != {} || TypeSet(b, BISHOP) != {})) ||
      (n == 4 && |TypeSet(b, BISHOP)| == 2 && white != {} && black != {} &&
       IsLightSquare(Lsb(white)) == IsLightSquare(Lsb(black)))
  {
    BishopPair(b);
    MinorPresent(b);
  }

  /** The three-piece case: a knight or a bishop is on the board exactly when its type set is not empty. */
  lemma {:induction false} MinorPresent(b: Mailbox)
    ensures (TypeSet(b, KNIGHT) != {} || TypeSet(b, BISHOP) != {}) <==>
      exists t: Sq :: Holds(b, t) && (TypeOf(b[t]) == KNIGHT || TypeOf(b[t]) == BISHOP)
  {
    if t: Sq :| Holds(b, t) && (TypeOf(b[t]) == KNIGHT || TypeOf(b[t]) == BISHOP) {
      assert t in TypeSet(b, KNIGHT) + TypeSet(b, BISHOP);
    }
  }
}
