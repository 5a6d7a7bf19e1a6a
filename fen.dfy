/**
 * What set_fen (src/position.cpp) reads from a FEN string: the six
 * space-separated fields, the walk over the placement field that puts a
 * piece for each letter, the castling letters OR-ed into the rights, and
 * the en-passant square's name.
 */
module Fen {
  import opened Wrappers
  import opened Types
  import opened PyText
  import opened CppText
  import opened Bits
  import opened Board

  /** The letters of the twelve pieces, in piece order: white PNBRQK, then black pnbrqk. */
  const PieceLetters: string := "PNBRQKpnbrqk"

  /** The piece a placement letter names; other characters name none. */
  function FenPiece(c: char): (r: Option<Piece>)
    ensures r.Some? ==> r.value < PIECE_NB
  {
    match c
    case 'P' => Some(W_PAWN)
    case 'N' => Some(W_KNIGHT)
    case 'B' => Some(W_BISHOP)
    case 'R' => Some(W_ROOK)
    case 'Q' => Some(W_QUEEN)
    case 'K' => Some(W_KING)
    case 'p' => Some(B_PAWN)
    case 'n' => Some(B_KNIGHT)
    case 'b' => Some(B_BISHOP)
    case 'r' => Some(B_ROOK)
    case 'q' => Some(B_QUEEN)
    case 'k' => Some(B_KING)
    case _ => None
  }

  /** Exactly the twelve letters name pieces, each the piece at its position in PieceLetters. */
  lemma {:induction false} FenPieceLetters(c: char, p: Piece)
    ensures FenPiece(c) == Some(p) <==> p < PIECE_NB && c == PieceLetters[p]
    ensures FenPiece(c).None? <==> c !in PieceLetters
  {
  }

  /** The walk over the placement field: the board so far and the rank and file of the next square. */
  datatype Walk = Walk(board: Mailbox, rank: int, file: int)

  /** The walk starts on an empty board at a8 (rank 7, file 0). */
  function StartWalk(): Walk
  {
    Walk(EmptyBoard(), 7, 0)
  }

  /**
   * One character of the placement field: '/' moves to file 0 of the rank
   * below, a digit skips that many files, a piece letter puts its piece on
   * rank * 8 + file and moves one file on, and anything else is skipped.
   * None when a piece would land off the board or on a square already
   * filled, where put_piece would write outside its arrays or leave the
   * bitboards out of step.
   */
  function PlaceStep(w: Walk, c: char): Option<Walk>
  {
    if c == '/' then Some(Walk(w.board, w.rank - 1, 0))
    else if IsDigit(c) then Some(w.(file := w.file + (c as int - '0' as int)))
    else match FenPiece(c)
      case None => Some(w)
      case Some(p) =>
        var s := w.rank * 8 + w.file;
        if 0 <= s < 64 && w.board[s] == NO_PIECE then Some(Walk(w.board[s := p], w.rank, w.file + 1)) else None
  }

  /** The whole placement field, character by character. */
  function Place(s: string, w: Walk): Option<Walk>
    decreases |s|
  {
    if s == [] then Some(w)
    else match PlaceStep(w, s[0])
      case None => None
      case Some(w') => Place(s[1..], w')
  }

  /** The rank and file the walk reaches, None when a piece letter falls outside ranks 1-8 or files a-h. */
  function Track(s: string, rank: int, file: int): Option<(int, int)>
    decreases |s|
  {
    if s == [] then Some((rank, file))
    else
      var c := s[0];
      if c == '/' then Track(s[1..], rank - 1, 0)
      else if IsDigit(c) then Track(s[1..], rank, file + (c as int - '0' as int))
      else if FenPiece(c).None? then Track(s[1..], rank, file)
      else if 0 <= rank < 8 && 0 <= file < 8 then Track(s[1..], rank, file + 1)
      else None
  }

  /** The squares the walk has not reached yet (lower ranks, and the rest of this rank) are empty. */
  predicate EmptyAhead(b: Mailbox, rank: int, file: int)
  {
    forall s: Sq :: (RankOf(s) < rank || (RankOf(s) == rank && FileOf(s) >= file)) ==> b[s] == NO_PIECE
  }

  /**
   * A placement whose every letter falls on its own rank within files a-h
   * never puts two pieces on one square: the walk only moves forward
   * through empty squares.
   */
  lemma {:induction false} PlaceFits(s: string, w: Walk)
    requires Track(s, w.rank, w.file).Some? && EmptyAhead(w.board, w.rank, w.file) && w.file >= 0
    ensures Place(s, w).Some?
    decreases |s|
  {
    if s != [] {
      var c := s[0];
      if c == '/' {
        PlaceFits(s[1..], Walk(w.board, w.rank - 1, 0));
      } else if IsDigit(c) {
        PlaceFits(s[1..], w.(file := w.file + (c as int - '0' as int)));
      } else if FenPiece(c).None? {
        PlaceFits(s[1..], w);
      } else {
        var sq: Sq := w.rank * 8 + w.file;
        assert RankOf(sq) == w.rank && FileOf(sq) == w.file;
        var b' := w.board[sq := FenPiece(c).value];
        assert EmptyAhead(b', w.rank, w.file + 1);
        PlaceFits(s[1..], Walk(b', w.rank, w.file + 1));
      }
    }
  }

  /** Placing a + b is placing a and then b. */
  lemma {:induction false} TrackAppend(a: string, b: string, rank: int, file: int)
    ensures Track(a + b, rank, file) ==
      match Track(a, rank, file) case None => None case Some(rf) => Track(b, rf.0, rf.1)
    decreases |a|
  {
    if a != [] {
      assert (a + b)[1..] == a[1..] + b;
      var c := a[0];
      if c == '/' {
        TrackAppend(a[1..], b, rank - 1, 0);
      } else if IsDigit(c) {
        TrackAppend(a[1..], b, rank, file + (c as int - '0' as int));
      } else if FenPiece(c).None? {
        TrackAppend(a[1..], b, rank, file);
      } else if 0 <= rank < 8 && 0 <= file < 8 {
        TrackAppend(a[1..], b, rank, file + 1);
      }
    } else {
      assert a + b == b;
    }
  }

  /** The castling letter of right i: K, Q, k, q for bits 0..3. */
  const CastleLetters: string := "KQkq"

  /** The bit a castling character ORs in: 1, 2, 4 and 8 for K, Q, k and q, none for the rest. */
  function CastleMask(c: char): nat
  {
    if c == 'K' then 1 else if c == 'Q' then 2 else if c == 'k' then 4 else if c == 'q' then 8 else 0
  }

  /** One castling character. */
  function CastleLetter(c: char, rights: nat): nat
  {
    if c == 'K' then BitOr(rights, 1)
    else if c == 'Q' then BitOr(rights, 2)
    else if c == 'k' then BitOr(rights, 4)
    else if c == 'q' then BitOr(rights, 8)
    else rights
  }

  /** The castling field, character by character. */
  function CastleFold(s: string, rights: nat): nat
    decreases |s|
  {
    if s == [] then rights else CastleFold(s[1..], CastleLetter(s[0], rights))
  }

  /** Right i is set after the castling field exactly when it was set before or its letter occurs. */
  lemma {:induction false} CastleFoldBits(s: string, rights: nat, i: nat)
    requires rights < 16 && i < 4
    ensures CastleFold(s, rights) < 16
    ensures Bit(CastleFold(s, rights), i) <==> Bit(rights, i) || CastleLetters[i] in s
    decreases |s|
  {
    if s != [] {
      var c := s[0];
      var r1 := CastleLetter(c, rights);
      assert Pow2(4) == 16;
      assert Pow2(0) == 1 && Pow2(1) == 2 && Pow2(2) == 4 && Pow2(3) == 8;
      BitOrBound(rights, 1, 4);
      BitOrBound(rights, 2, 4);
      BitOrBound(rights, 4, 4);
      BitOrBound(rights, 8, 4);
      var mask := CastleMask(c);
      BitOrBits(rights, mask, i);
      XorZero(rights);
      OnlyBit(i, c);
      assert r1 == BitOr(rights, mask);
      CastleFoldBits(s[1..], r1, i);
      assert CastleLetters[i] in s <==> c == CastleLetters[i] || CastleLetters[i] in s[1..];
    }
  }

  /** The mask a castling character ORs in has bit i set exactly for right i's own letter. */
  lemma {:induction false} OnlyBit(i: nat, c: char)
    requires i < 4
    ensures Bit(CastleMask(c), i) <==> c == CastleLetters[i]
  {
    ZeroBits(i);
    assert Bit(1, i) <==> i == 0;
    assert Bit(2, i) <==> i == 1;
    assert Bit(4, i) <==> i == 2;
    assert Bit(8, i) <==> i == 3;
  }

  /** The square an en-passant field names: (ep[1] - '1') * 8 + (ep[0] - 'a'). */
  function EpField(ep: string): int
    requires |ep| >= 2
  {
    (ep[1] as int - '1' as int) * 8 + (ep[0] as int - 'a' as int)
  }

  /**
   * The en-passant fields set_fen can use: "-", or two characters that name
   * a board square (a shorter field, or one naming a square off the board,
   * makes set_fen read or index outside its arrays).
   */
  predicate EpReadable(ep: string)
  {
    ep == "-" || (|ep| >= 2 && 0 <= EpField(ep) < 64)
  }

  function EpOf(ep: string): Square
    requires EpReadable(ep)
  {
    if ep == "-" then SQ_NONE else EpField(ep)
  }

  /** A square's name, file letter then rank digit, reads back as that square. */
  lemma {:induction false} EpFieldOfName(s: Sq, tail: string)
    ensures EpField(['a' + (FileOf(s) as char), '1' + (RankOf(s) as char)] + tail) == s
  {
  }

  /** The fields set_fen extracts; a missing field stays empty, a missing halfmove count stays 0. */
  datatype FenFields = FenFields(placement: string, side: string, castling: string, ep: string, halfmove: int)

  function WordOr(w: Option<string>): string
  {
    if w.Some? then w.value else ""
  }

  /** `ss >> piece_str >> side_str >> castle_str >> ep_str >> halfmove`. */
  function Fields(fen: string): FenFields
  {
    var a := ReadWord(StringStream(fen));
    var b := ReadWord(a.1);
    var c := ReadWord(b.1);
    var d := ReadWord(c.1);
    var n := ReadInt(d.1, INT_MIN, INT_MAX).0;
    FenFields(WordOr(a.0), WordOr(b.0), WordOr(c.0), WordOr(d.0), if n.Some? then n.value else 0)
  }

  /**
   * The FEN strings whose reading the model follows: every piece letter
   * lands on a free square of the board, and the en-passant field is `-` or
   * computes a square in 0..63 (`i3` computes a4 and is accepted). A letter
   * off the board makes put_piece write outside `board`. A letter on a filled
   * square overwrites the mailbox while the old piece's bits and key stay. An
   * out-of-range en-passant field reads `en_passant_keys` outside the table.
   */
  predicate FenReadable(fen: string)
  {
    Place(Fields(fen).placement, StartWalk()).Some? && EpReadable(Fields(fen).ep)
  }
}
