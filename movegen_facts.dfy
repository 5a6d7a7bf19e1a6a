/**
 * What the moves generate<T> appends have in common: each passes the
 * engine's own pseudo-legality test, CAPTURES mode emits only captures, and
 * a castling move is emitted only when the king's path is free and safe.
 */
module GeneratedMoves {
  import opened Types
  import opened Moves
  import opened Bits
  import opened Bitboards
  import opened Attacks
  import opened Board
  import opened Queries
  import opened MoveGen

  /** An enemy piece stands on s. */
  predicate EnemyOn(b: Mailbox, us: Color, s: Sq)
  {
    Holds(b, s) && ColorOf(b[s]) == 1 - us
  }

  /** The square the castling king crosses on its way to `to`: F for G, D for C. */
  function Transit(to: Sq): Sq
  {
    if to == SQ_G1 then SQ_F1 else if to == SQ_C1 then SQ_D1
    else if to == SQ_G8 then SQ_F8 else SQ_D8
  }

  /** Neither the king's square nor the two squares it passes onto are attacked by the other side. */
  ghost predicate CastleSafe(b: Mailbox, us: Color, from: Sq, to: Sq)
  {
    !Attacked(b, from, 1 - us) && !Attacked(b, Transit(to), 1 - us) && !Attacked(b, to, 1 - us)
  }

  /**
   * The three facts about one generated move: it is pseudo-legal, it is a
   * capture in CAPTURES mode, and a castling move comes from a mode other
   * than CAPTURES with a safe path.
   */
  ghost predicate Sound(b: Mailbox, us: Color, rights: nat, ep: Square, t: GenType, m: Move)
  {
    PseudoLegal(b, us, rights, ep, m) &&
    (t == CAPTURES ==> m.Type() == EN_PASSANT || EnemyOn(b, us, m.To())) &&
    (m.Type() == CASTLING ==> t != CAPTURES && CastleSafe(b, us, m.From(), m.To()))
  }

  ghost predicate AllSound(b: Mailbox, us: Color, rights: nat, ep: Square, t: GenType, ms: seq<Move>)
  {
    forall i | 0 <= i < |ms| :: Sound(b, us, rights, ep, t, ms[i])
  }

  /** The en-passant square, when there is one, is empty, as it is behind a pawn that just moved two squares. */
  predicate EpEmpty(b: Mailbox, ep: Square)
  {
    ep == SQ_NONE || b[ep] == NO_PIECE
  }

  lemma {:induction false} SoundAppend(b: Mailbox, us: Color, rights: nat, ep: Square, t: GenType, x: seq<Move>, y: seq<Move>)
    requires AllSound(b, us, rights, ep, t, x) && AllSound(b, us, rights, ep, t, y)
    ensures AllSound(b, us, rights, ep, t, x + y)
  {
    forall i | 0 <= i < |x + y| ensures Sound(b, us, rights, ep, t, (x + y)[i]) {
      if i < |x| {
        assert (x + y)[i] == x[i];
      } else {
        assert (x + y)[i] == y[i - |x|];
      }
    }
  }

  /** A piece of the side to move of type pt stands on from. */
  lemma {:induction false} OwnPiece(b: Mailbox, us: Color, pt: PieceType, from: Sq)
    requires pt < PIECE_TYPE_NB && from in PiecesOf(b, us, pt)
    ensures b[from] != NO_PIECE && Holds(b, from) && ColorOf(b[from]) == us && TypeOf(b[from]) == pt
  {
  }

  /** The pawn's single and double pushes and push promotions. */
  lemma {:induction false} PushesSound(b: Mailbox, us: Color, rights: nat, ep: Square, t: GenType, from: Sq)
    requires from in PiecesOf(b, us, PAWN)
    ensures AllSound(b, us, rights, ep, t, PushMoves(b, us, t, from))
  {
    OwnPiece(b, us, PAWN, from);
    var t1 := from + Up(us);
    var ms := PushMoves(b, us, t, from);
    if !(t == CAPTURES || !(0 <= t1 < 64) || b[t1] != NO_PIECE) {
      if RankOf(from) == SeventhRank(us) {
        PromotionPushesSound(b, us, rights, ep, t, from, t1, ms);
      } else {
        PlainPushesSound(b, us, rights, ep, t, from, t1, ms);
      }
    }
  }

  /** The four push promotions onto the empty square ahead. */
  lemma {:induction false} PromotionPushesSound(b: Mailbox, us: Color, rights: nat, ep: Square, t: GenType, from: Sq, t1: int, ms: seq<Move>)
    requires from in PiecesOf(b, us, PAWN) && t1 == from + Up(us) && ms == PushMoves(b, us, t, from)
    requires t != CAPTURES && 0 <= t1 < 64 && b[t1] == NO_PIECE && RankOf(from) == SeventhRank(us)
    ensures AllSound(b, us, rights, ep, t, ms)
  {
    OwnPiece(b, us, PAWN, from);
    forall i | 0 <= i < 4 ensures Sound(b, us, rights, ep, t, ms[i]) {
      assert ms[i].From() == from && ms[i].To() == t1 && ms[i].Type() == PROMOTION;
    }
  }

  /** The single push onto the empty square ahead and the double push behind it. */
  lemma {:induction false} PlainPushesSound(b: Mailbox, us: Color, rights: nat, ep: Square, t: GenType, from: Sq, t1: int, ms: seq<Move>)
    requires from in PiecesOf(b, us, PAWN) && t1 == from + Up(us) && ms == PushMoves(b, us, t, from)
    requires t != CAPTURES && 0 <= t1 < 64 && b[t1] == NO_PIECE && RankOf(from) != SeventhRank(us)
    ensures AllSound(b, us, rights, ep, t, ms)
  {
    OwnPiece(b, us, PAWN, from);
    var d := DoublePush(b, us, from);
    assert ms == [NormalMove(from, t1)] + d;
    assert Sound(b, us, rights, ep, t, NormalMove(from, t1));
    if d != [] {
      assert d[0].From() == from && d[0].To() == from + 2 * Up(us) && d[0].Type() == NORMAL;
      assert Sound(b, us, rights, ep, t, d[0]);
    }
  }

  /** The pawn's diagonal captures onto the enemy pieces among tos. */
  lemma {:induction false} CapturesSound(b: Mailbox, us: Color, rights: nat, ep: Square, t: GenType, from: Sq, tos: seq<Sq>, promote: bool)
    requires from in PiecesOf(b, us, PAWN)
    requires forall j | 0 <= j < |tos| :: tos[j] in PawnAttacks(from, us) && EnemyOn(b, us, tos[j])
    ensures AllSound(b, us, rights, ep, t, CaptureMoves(from, tos, promote))
    decreases |tos|
  {
    if tos != [] {
      OwnPiece(b, us, PAWN, from);
      var to := tos[0];
      var head := if promote then Promotions(from, to) else [NormalMove(from, to)];
      forall i | 0 <= i < |head| ensures Sound(b, us, rights, ep, t, head[i]) {
        assert head[i].From() == from && head[i].To() == to;
        assert head[i].Type() == NORMAL || head[i].Type() == PROMOTION;
      }
      CapturesSound(b, us, rights, ep, t, from, tos[1..], promote);
      SoundAppend(b, us, rights, ep, t, head, CaptureMoves(from, tos[1..], promote));
    }
  }

  /** The en-passant capture. */
  lemma {:induction false} EnPassantSound(b: Mailbox, us: Color, rights: nat, ep: Square, t: GenType, from: Sq)
    requires from in PiecesOf(b, us, PAWN) && EpEmpty(b, ep)
    ensures AllSound(b, us, rights, ep, t, EpMoves(us, t, ep, from))
  {
    OwnPiece(b, us, PAWN, from);
    var ms := EpMoves(us, t, ep, from);
    if ms != [] {
      assert ms[0].From() == from && ms[0].To() == ep && ms[0].Type() == EN_PASSANT;
    }
  }

  /** Every move of the pawns on froms. */
  lemma {:induction false} PawnMovesSound(b: Mailbox, us: Color, rights: nat, ep: Square, t: GenType, froms: seq<Sq>)
    requires forall j | 0 <= j < |froms| :: froms[j] in PiecesOf(b, us, PAWN)
    requires EpEmpty(b, ep)
    ensures AllSound(b, us, rights, ep, t, PawnMoves(b, us, ep, t, froms))
    decreases |froms|
  {
    if froms != [] {
      var from := froms[0];
      var caps := PawnAttacks(from, us) * ColorSet(b, 1 - us);
      var tos := Ascending(caps);
      AscendingMembers(caps);
      assert forall j | 0 <= j < |tos| :: tos[j] in caps;
      PushesSound(b, us, rights, ep, t, from);
      CapturesSound(b, us, rights, ep, t, from, tos, RankOf(from) == SeventhRank(us));
      EnPassantSound(b, us, rights, ep, t, from);
      var p := PushMoves(b, us, t, from);
      var c := CaptureMoves(from, tos, RankOf(from) == SeventhRank(us));
      var e := EpMoves(us, t, ep, from);
      SoundAppend(b, us, rights, ep, t, p, c);
      SoundAppend(b, us, rights, ep, t, p + c, e);
      PawnMovesSound(b, us, rights, ep, t, froms[1..]);
      SoundAppend(b, us, rights, ep, t, p + c + e, PawnMoves(b, us, ep, t, froms[1..]));
    }
  }

  /** A target never holds a piece of the side to move, and in CAPTURES mode holds an enemy piece. */
  lemma {:induction false} TargetFacts(b: Mailbox, us: Color, t: GenType, to: Sq)
    requires to in Targets(b, us, t)
    ensures !(b[to] != NO_PIECE && ColorOf(b[to]) == us)
    ensures t == CAPTURES ==> EnemyOn(b, us, to)
  {
  }

  /** The normal moves of a knight, bishop, rook, queen or king of type pt from `from` to each of tos. */
  lemma {:induction false} TargetMovesSound(b: Mailbox, us: Color, rights: nat, ep: Square, t: GenType, pt: PieceType,
                                            from: Sq, tos: seq<Sq>)
    requires KNIGHT <= pt <= KING && from in PiecesOf(b, us, pt)
    requires forall j | 0 <= j < |tos| :: tos[j] in PieceAttacks(pt, from, Occupied(b)) * Targets(b, us, t)
    ensures AllSound(b, us, rights, ep, t, TargetMoves(from, tos))
    decreases |tos|
  {
    if tos != [] {
      OwnPiece(b, us, pt, from);
      var m := NormalMove(from, tos[0]);
      TargetFacts(b, us, t, tos[0]);
      assert m.From() == from && m.To() == tos[0] && m.Type() == NORMAL;
      assert PieceMoveOk(b, m);
      TargetMovesSound(b, us, rights, ep, t, pt, from, tos[1..]);
      SoundAppend(b, us, rights, ep, t, [m], TargetMoves(from, tos[1..]));
    }
  }

  /** The moves of the pieces of type pt standing on froms. */
  lemma {:induction false} PieceMovesSound(b: Mailbox, us: Color, rights: nat, ep: Square, t: GenType, pt: PieceType,
                                           froms: seq<Sq>)
    requires KNIGHT <= pt <= QUEEN
    requires forall j | 0 <= j < |froms| :: froms[j] in PiecesOf(b, us, pt)
    ensures AllSound(b, us, rights, ep, t, PieceMoves(b, us, t, pt, froms))
    decreases |froms|
  {
    if froms != [] {
      var targets := PieceAttacks(pt, froms[0], Occupied(b)) * Targets(b, us, t);
      AscendingMembers(targets);
      TargetMovesSound(b, us, rights, ep, t, pt, froms[0], Ascending(targets));
      PieceMovesSound(b, us, rights, ep, t, pt, froms[1..]);
      SoundAppend(b, us, rights, ep, t, TargetMoves(froms[0], Ascending(targets)), PieceMoves(b, us, t, pt, froms[1..]));
    }
  }

  /** The pieces of the side of type pt in ascending order. */
  lemma {:induction false} AscendingPieces(b: Mailbox, us: Color, pt: PieceType)
    requires pt < PIECE_TYPE_NB
    ensures forall j | 0 <= j < |Ascending(PiecesOf(b, us, pt))| :: Ascending(PiecesOf(b, us, pt))[j] in PiecesOf(b, us, pt)
  {
    AscendingMembers(PiecesOf(b, us, pt));
  }

  lemma {:induction false} OfficersSound(b: Mailbox, us: Color, rights: nat, ep: Square, t: GenType)
    ensures AllSound(b, us, rights, ep, t, OfficerMoves(b, us, t))
  {
    AscendingPieces(b, us, KNIGHT);
    AscendingPieces(b, us, BISHOP);
    AscendingPieces(b, us, ROOK);
    AscendingPieces(b, us, QUEEN);
    var n := PieceMoves(b, us, t, KNIGHT, Ascending(PiecesOf(b, us, KNIGHT)));
    var bi := PieceMoves(b, us, t, BISHOP, Ascending(PiecesOf(b, us, BISHOP)));
    var r := PieceMoves(b, us, t, ROOK, Ascending(PiecesOf(b, us, ROOK)));
    var q := PieceMoves(b, us, t, QUEEN, Ascending(PiecesOf(b, us, QUEEN)));
    PieceMovesSound(b, us, rights, ep, t, KNIGHT, Ascending(PiecesOf(b, us, KNIGHT)));
    PieceMovesSound(b, us, rights, ep, t, BISHOP, Ascending(PiecesOf(b, us, BISHOP)));
    PieceMovesSound(b, us, rights, ep, t, ROOK, Ascending(PiecesOf(b, us, ROOK)));
    PieceMovesSound(b, us, rights, ep, t, QUEEN, Ascending(PiecesOf(b, us, QUEEN)));
    SoundAppend(b, us, rights, ep, t, n, bi);
    SoundAppend(b, us, rights, ep, t, n + bi, r);
    SoundAppend(b, us, rights, ep, t, n + bi + r, q);
  }

  /** One castling move onto `to`, given that the right, the empty squares and the safe path were checked. */
  lemma {:induction false} CastleMoveSound(b: Mailbox, us: Color, rights: nat, ep: Square, t: GenType, from: Sq, to: Sq)
    requires from in PiecesOf(b, us, KING) && t != CAPTURES && b[to] == NO_PIECE
    requires CastleOk(b, us, rights, to) && CastleSafe(b, us, from, to)
    ensures Sound(b, us, rights, ep, t, NewMove(from, to, CASTLING, KNIGHT))
  {
    OwnPiece(b, us, KING, from);
  }

  /** The king-side castling move of the king on from. */
  lemma {:induction false} KingSideSound(b: Mailbox, us: Color, rights: nat, ep: Square, t: GenType, from: Sq)
    requires from in PiecesOf(b, us, KING) && t != CAPTURES
    ensures AllSound(b, us, rights, ep, t, CastleKingSide(b, us, rights, from))
  {
    if CastleKingSide(b, us, rights, from) != [] {
      var to := KingSideChecked(b, us, rights, from);
      CastleListSound(b, us, rights, ep, t, from, to);
    }
  }

  /** The queen-side castling move of the king on from. */
  lemma {:induction false} QueenSideSound(b: Mailbox, us: Color, rights: nat, ep: Square, t: GenType, from: Sq)
    requires from in PiecesOf(b, us, KING) && t != CAPTURES
    ensures AllSound(b, us, rights, ep, t, CastleQueenSide(b, us, rights, from))
  {
    if CastleQueenSide(b, us, rights, from) != [] {
      var to := QueenSideChecked(b, us, rights, from);
      CastleListSound(b, us, rights, ep, t, from, to);
    }
  }

  /** What generate checked before adding the king-side castling move. */
  lemma {:induction false} KingSideChecked(b: Mailbox, us: Color, rights: nat, from: Sq) returns (to: Sq)
    requires CastleKingSide(b, us, rights, from) != []
    ensures CastleKingSide(b, us, rights, from) == [NewMove(from, to, CASTLING, KNIGHT)]
    ensures b[to] == NO_PIECE && CastleOk(b, us, rights, to) && CastleSafe(b, us, from, to)
  {
    to := if us == WHITE then SQ_G1 else SQ_G8;
    assert Transit(to) == if us == WHITE then SQ_F1 else SQ_F8;
  }

  /** What generate checked before adding the queen-side castling move. */
  lemma {:induction false} QueenSideChecked(b: Mailbox, us: Color, rights: nat, from: Sq) returns (to: Sq)
    requires CastleQueenSide(b, us, rights, from) != []
    ensures CastleQueenSide(b, us, rights, from) == [NewMove(from, to, CASTLING, KNIGHT)]
    ensures b[to] == NO_PIECE && CastleOk(b, us, rights, to) && CastleSafe(b, us, from, to)
  {
    to := if us == WHITE then SQ_C1 else SQ_C8;
    assert Transit(to) == if us == WHITE then SQ_D1 else SQ_D8;
  }

  lemma {:induction false} CastleListSound(b: Mailbox, us: Color, rights: nat, ep: Square, t: GenType, from: Sq, to: Sq)
    requires from in PiecesOf(b, us, KING) && t != CAPTURES && b[to] == NO_PIECE
    requires CastleOk(b, us, rights, to) && CastleSafe(b, us, from, to)
    ensures AllSound(b, us, rights, ep, t, [NewMove(from, to, CASTLING, KNIGHT)])
  {
    CastleMoveSound(b, us, rights, ep, t, from, to);
  }

  lemma {:induction false} KingSound(b: Mailbox, us: Color, rights: nat, ep: Square, t: GenType)
    ensures AllSound(b, us, rights, ep, t, KingMoves(b, us, rights, t))
  {
    var king := PiecesOf(b, us, KING);
    if king != {} {
      var from: Sq := Lsb(king);
      var targets := KingAttacks(from) * Targets(b, us, t);
      assert targets == PieceAttacks(KING, from, Occupied(b)) * Targets(b, us, t);
      AscendingMembers(targets);
      TargetMovesSound(b, us, rights, ep, t, KING, from, Ascending(targets));
      var c := if t != CAPTURES then CastleMoves(b, us, rights, from) else [];
      if t != CAPTURES {
        KingSideSound(b, us, rights, ep, t, from);
        QueenSideSound(b, us, rights, ep, t, from);
        SoundAppend(b, us, rights, ep, t, CastleKingSide(b, us, rights, from), CastleQueenSide(b, us, rights, from));
      }
      SoundAppend(b, us, rights, ep, t, TargetMoves(from, Ascending(targets)), c);
    }
  }

  /** Everything generate<T> appends, for any mode and any board whose en-passant square is empty. */
  lemma {:induction false} GeneratedSound(b: Mailbox, us: Color, rights: nat, ep: Square, t: GenType)
    requires EpEmpty(b, ep)
    ensures AllSound(b, us, rights, ep, t, Generated(b, us, rights, ep, t))
  {
    AscendingPieces(b, us, PAWN);
    PawnMovesSound(b, us, rights, ep, t, Ascending(PiecesOf(b, us, PAWN)));
    OfficersSound(b, us, rights, ep, t);
    KingSound(b, us, rights, ep, t);
    var p := PawnMoves(b, us, ep, t, Ascending(PiecesOf(b, us, PAWN)));
    SoundAppend(b, us, rights, ep, t, p, OfficerMoves(b, us, t));
    SoundAppend(b, us, rights, ep, t, p + OfficerMoves(b, us, t), KingMoves(b, us, rights, t));
  }

  /**
   * Every generated move passes is_pseudo_legal's test, so in particular its
   * from-square holds a piece of the side to move.
   */
  lemma {:induction false} GeneratedArePseudoLegal(b: Mailbox, us: Color, rights: nat, ep: Square, t: GenType, m: Move)
    requires EpEmpty(b, ep) && m in Generated(b, us, rights, ep, t)
    ensures PseudoLegal(b, us, rights, ep, m)
    ensures b[m.From()] != NO_PIECE && ColorOf(b[m.From()]) == us
  {
    GeneratedSound(b, us, rights, ep, t);
  }

  /** CAPTURES mode emits only en-passant captures and moves onto enemy pieces: no pushes and no castling. */
  lemma {:induction false} CapturesAreCaptures(b: Mailbox, us: Color, rights: nat, ep: Square, m: Move)
    requires EpEmpty(b, ep) && m in Generated(b, us, rights, ep, CAPTURES)
    ensures m.Type() == EN_PASSANT || EnemyOn(b, us, m.To())
    ensures m.Type() != CASTLING
  {
    GeneratedSound(b, us, rights, ep, CAPTURES);
  }

  /** A castling move is emitted only with the right held, the squares between empty, and the king's path unattacked. */
  lemma {:induction false} CastlingGuarded(b: Mailbox, us: Color, rights: nat, ep: Square, t: GenType, m: Move)
    requires EpEmpty(b, ep) && m in Generated(b, us, rights, ep, t) && m.Type() == CASTLING
    ensures t != CAPTURES && CastleOk(b, us, rights, m.To()) && CastleSafe(b, us, m.From(), m.To())
  {
    GeneratedSound(b, us, rights, ep, t);
  }
}
