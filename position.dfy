/**
 * The Position object (include/position.h, src/position.cpp): a mailbox
 * array, colour and type bitboards kept in step with it, the stack of
 * StateInfo records that make_move pushes and unmake_move pops, and the
 * array of keys the repetition check scans.
 */
module Positions {
  import opened Types
  import opened Moves
  import opened Bitboards
  import opened Bits
  import opened Board
  import opened Attacks
  import opened Queries
  import opened PyText
  import opened Fen

  class Position {
    const board: array<Piece>
    const colorBB: array<Bitboard>
    const typeBB: array<Bitboard>
    const hashHistory: array<U64>
    /** The Zobrist tables the position XORs into its key. */
    const keys: ZobristKeys
    var side: Color
    /** The StateInfo chain, oldest first: `state` is the last record, `previous` the one before. */
    var states: seq<StateInfo>
    var historyIndex: int

    ghost predicate Shaped()
      reads this
    {
      board.Length == 64 && colorBB.Length == 2 && typeBB.Length == 6 && hashHistory.Length == 1024 &&
      colorBB != typeBB && KeysShaped(keys)
    }

    /**
     * Each colour and type bitboard holds exactly the squares of its pieces in
     * the mailbox, and every record's castling rights fit the four bits.
     */
    ghost predicate Valid()
      reads this, board, colorBB, typeBB
    {
      Shaped() && SetsMatch(board[..], colorBB[..], typeBB[..]) &&
      |states| > 0 && (forall i :: 0 <= i < |states| ==> states[i].castleRights < 16) && historyIndex <= 1024
    }

    /** `*state`. */
    function Top(): StateInfo
      requires |states| > 0
      reads this
    {
      states[|states| - 1]
    }

    /** The stored key's gap to the key of the position (Board.KeyGap). */
    ghost function Gap(): U64
      requires Valid()
      reads this, board, colorBB, typeBB
    {
      KeyGap(keys, Top().key, board[..], side, Top().castleRights, Top().epSquare)
    }

    /** The stored key's gap to the key of the pieces alone. */
    ghost function BoardGap(): U64
      requires Valid()
      reads this, board, colorBB, typeBB
    {
      Xor(Top().key, BoardKey(keys, board[..], 64))
    }

    /** `Position()`, which runs `clear`. */
    constructor(keys: ZobristKeys)
      requires KeysShaped(keys)
      ensures Valid() && this.keys == keys
      ensures fresh(board) && fresh(colorBB) && fresh(typeBB) && fresh(hashHistory)
      ensures board[..] == EmptyBoard() && side == WHITE && states == [ClearedState] && historyIndex == 0
      ensures forall i :: 0 <= i < 1024 ==> hashHistory[i] == 0
    {
      this.keys := keys;
      board := new Piece[64](_ => NO_PIECE);
      colorBB := new Bitboard[2](_ => {});
      typeBB := new Bitboard[6](_ => {});
      hashHistory := new U64[1024](_ => 0);
      side := WHITE;
      states := [ClearedState];
      historyIndex := 0;
      new;
      assert board[..] == EmptyBoard();
      EmptyBoardSets();
    }

    /**
     * `clear`: an empty board and bitboards, white to move, the one record
     * of a cleared state, and the history zeroed.
     */
    method Clear()
      requires Shaped()
      modifies this, board, colorBB, typeBB, hashHistory
      ensures Valid()
      ensures board[..] == EmptyBoard() && side == WHITE && states == [ClearedState] && historyIndex == 0
      ensures forall i :: 0 <= i < 1024 ==> hashHistory[i] == 0
    {
      for i := 0 to 64
        modifies board
        invariant forall j :: 0 <= j < i ==> board[j] == NO_PIECE
      {
        board[i] := NO_PIECE;
      }
      colorBB[WHITE] := {};
      colorBB[BLACK] := {};
      for i := 0 to 6
        modifies typeBB
        invariant forall j :: 0 <= j < i ==> typeBB[j] == {}
      {
        typeBB[i] := {};
      }
      side := WHITE;
      states := [ClearedState];
      historyIndex := 0;
      for i := 0 to 1024
        modifies hashHistory
        invariant forall j :: 0 <= j < i ==> hashHistory[j] == 0
      {
        hashHistory[i] := 0;
      }
      assert board[..] == EmptyBoard();
      EmptyBoardSets();
    }

    /**
     * `set_fen(fen)`: the placement field's pieces put on a cleared board,
     * the side to move, the castling rights, the en-passant square and the
     * halfmove clock taken from the other fields, the record's key made the
     * key of that position, and the history restarted with it.
     */
    method SetFen(fen: string)
      requires Shaped() && FenReadable(fen)
      modifies this, board, colorBB, typeBB, hashHistory
      ensures Valid()
      ensures var f := Fields(fen);
        board[..] == Place(f.placement, StartWalk()).value.board &&
        side == (if f.side == "w" then WHITE else BLACK) &&
        states == [ClearedState.(castleRights := CastleFold(f.castling, 0), epSquare := EpOf(f.ep),
                                 halfmoveClock := f.halfmove, key := Top().key)]
      ensures Top().key == FullKey(keys, board[..], side, Top().castleRights, Top().epSquare) && Gap() == 0
      ensures historyIndex == 1 && hashHistory[0] == Top().key
      ensures forall i :: 1 <= i < 1024 ==> hashHistory[i] == 0
    {
      Clear();
      SetFields(Fields(fen));
    }

    /** set_fen after `clear` and the reading of the fields. */
    method SetFields(f: FenFields)
      requires Valid() && board[..] == EmptyBoard() && side == WHITE && states == [ClearedState] && historyIndex == 0
      requires forall i :: 0 <= i < 1024 ==> hashHistory[i] == 0
      requires Place(f.placement, StartWalk()).Some? && EpReadable(f.ep)
      modifies this, board, colorBB, typeBB, hashHistory
      ensures Valid()
      ensures board[..] == Place(f.placement, StartWalk()).value.board &&
        side == (if f.side == "w" then WHITE else BLACK) &&
        states == [ClearedState.(castleRights := CastleFold(f.castling, 0), epSquare := EpOf(f.ep),
                                 halfmoveClock := f.halfmove, key := Top().key)]
      ensures Top().key == FullKey(keys, board[..], side, Top().castleRights, Top().epSquare) && Gap() == 0
      ensures historyIndex == 1 && hashHistory[0] == Top().key
      ensures forall i :: 1 <= i < 1024 ==> hashHistory[i] == 0
    {
      PlacePieces(f.placement);
      ReadState(f);
      ghost var b, c, t := board[..], colorBB[..], typeBB[..];
      StartHistory();
      assert board[..] == b && colorBB[..] == c && typeBB[..] == t;
      KeyGapZero(keys, Top().key, board[..], side, Top().castleRights, Top().epSquare);
    }

    /**
     * The part of set_fen after the placement: the side to move, the castling
     * rights, the en-passant square and the halfmove clock, each XOR-ing its
     * key into the record's key, which starts as the key of the pieces.
     */
    method ReadState(f: FenFields)
      requires Valid() && BoardGap() == 0 && states == [ClearedState.(key := Top().key)] && EpReadable(f.ep)
      modifies this
      ensures Valid() && historyIndex == old(historyIndex)
      ensures side == (if f.side == "w" then WHITE else BLACK)
      ensures states == [ClearedState.(castleRights := CastleFold(f.castling, 0), epSquare := EpOf(f.ep),
                                       halfmoveClock := f.halfmove, key := Top().key)]
      ensures Top().key == FullKey(keys, board[..], side, Top().castleRights, Top().epSquare)
    {
      ghost var bk := BoardKey(keys, board[..], 64);
      var key := Top().key;
      assert key == bk by {
        XorCancel(key, bk);
        XorZero(bk);
      }
      var us := if f.side == "w" then WHITE else BLACK;
      if us == BLACK {
        key := Xor(key, keys.side);
      } else {
        XorZero(bk);
      }
      assert key == Xor(bk, SideTerm(keys, us));
      var rights := CastleRights(f.castling);
      key := Xor(key, keys.castle[rights]);
      ghost var k3 := key;
      var ep := SQ_NONE;
      if f.ep != "-" {
        var file := f.ep[0] as int - 'a' as int;
        var rank := f.ep[1] as int - '1' as int;
        ep := rank * 8 + file;
        key := Xor(key, keys.enPassant[ep]);
      } else {
        XorZero(k3);
      }
      assert key == Xor(k3, EpTerm(keys, ep));
      side := us;
      states := [ClearedState.(castleRights := rights, epSquare := ep, halfmoveClock := f.halfmove, key := key)];
    }

    /** `history_index = 0; hash_history[history_index++] = state->key`. */
    method StartHistory()
      requires Shaped() && |states| > 0
      modifies this, hashHistory
      ensures side == old(side) && states == old(states)
      ensures historyIndex == 1 && hashHistory[..] == old(hashHistory[..])[0 := Top().key]
    {
      historyIndex := 0;
      hashHistory[historyIndex] := Top().key;
      historyIndex := historyIndex + 1;
    }

    /** The loop of set_fen over the castling field: K, Q, k and q OR in bits 1, 2, 4 and 8. */
    static method CastleRights(castling: string) returns (rights: nat)
      ensures rights == CastleFold(castling, 0) && rights < 16
    {
      rights := 0;
      for j := 0 to |castling|
        invariant rights < 16 && CastleFold(castling, 0) == CastleFold(castling[j..], rights)
      {
        var c := castling[j];
        assert Pow2(4) == 16;
        assert Pow2(0) == 1 && Pow2(1) == 2 && Pow2(2) == 4 && Pow2(3) == 8;
        BitOrBound(rights, 1, 4);
        BitOrBound(rights, 2, 4);
        BitOrBound(rights, 4, 4);
        BitOrBound(rights, 8, 4);
        assert castling[j..][1..] == castling[j + 1..];
        if c == 'K' { rights := BitOr(rights, 1); }
        if c == 'Q' { rights := BitOr(rights, 2); }
        if c == 'k' { rights := BitOr(rights, 4); }
        if c == 'q' { rights := BitOr(rights, 8); }
      }
      assert castling[|castling|..] == [];
    }

    /** The loop of set_fen over the placement field: each letter's piece put on its square of a cleared board. */
    method PlacePieces(placement: string)
      requires Valid() && board[..] == EmptyBoard() && states == [ClearedState] && historyIndex == 0
      requires Place(placement, StartWalk()).Some?
      modifies this, board, colorBB, typeBB
      ensures Valid() && board[..] == Place(placement, StartWalk()).value.board
      ensures side == old(side) && historyIndex == 0 && states == [ClearedState.(key := Top().key)]
      ensures BoardGap() == 0
    {
      EmptyBoardKey(keys, 64);
      XorZero(0);
      var rank, file := 7, 0;
      for i := 0 to |placement|
        invariant Valid() && BoardGap() == 0
        invariant side == old(side) && historyIndex == 0 && states == [ClearedState.(key := Top().key)]
        invariant Place(placement, StartWalk()) == Place(placement[i..], Walk(board[..], rank, file))
      {
        assert placement[i..][1..] == placement[i + 1..];
        rank, file := PlaceChar(placement[i], rank, file);
      }
      assert placement[|placement|..] == [];
    }

    /** One character of the placement loop: a rank separator, a run of empty files or a piece letter. */
    method PlaceChar(c: char, rank: int, file: int) returns (rank': int, file': int)
      requires Valid() && BoardGap() == 0 && |states| == 1
      requires PlaceStep(Walk(board[..], rank, file), c).Some?
      modifies this, board, colorBB, typeBB
      ensures Valid() && BoardGap() == 0
      ensures side == old(side) && historyIndex == old(historyIndex)
      ensures states == [old(Top()).(key := Top().key)]
      ensures Walk(board[..], rank', file') == PlaceStep(Walk(old(board[..]), rank, file), c).value
    {
      rank', file' := rank, file;
      if c == '/' {
        rank', file' := rank - 1, 0;
      } else if IsDigit(c) {
        file' := file + (c as int - '0' as int);
      } else if FenPiece(c).Some? {
        PutPiece(FenPiece(c).value, rank * 8 + file);
        file' := file + 1;
      }
    }

    /** `pieces(c)`: `color_bb[c]`. */
    function ColorPieces(c: Color): (r: Bitboard)
      requires Valid()
      reads this, board, colorBB, typeBB
      ensures r == ColorSet(board[..], c)
    {
      colorBB[c]
    }

    /** `pieces(c, pt)`: `color_bb[c] & type_bb[pt]`. */
    function Pieces(c: Color, pt: PieceType): (r: Bitboard)
      requires Valid() && pt < PIECE_TYPE_NB
      reads this, board, colorBB, typeBB
      ensures r == PiecesOf(board[..], c, pt)
    {
      PiecesOfSets(board[..], c, pt);
      colorBB[c] * typeBB[pt]
    }

    /** `all_pieces()`: the union of the two colour bitboards. */
    function AllPieces(): (r: Bitboard)
      requires Valid()
      reads this, board, colorBB, typeBB
      ensures r == Occupied(board[..])
    {
      OccupiedSets(board[..]);
      colorBB[WHITE] + colorBB[BLACK]
    }

    /** `piece_on(s)`. */
    function PieceOn(s: Sq): Piece
      requires Valid()
      reads this, board, colorBB, typeBB
    {
      board[s]
    }

    /** `hash()`: the current record's key, the position's own key while the gap is zero. */
    function Hash(): (k: U64)
      requires Valid()
      reads this, board, colorBB, typeBB
      ensures Gap() == 0 ==> k == FullKey(keys, board[..], side, Top().castleRights, Top().epSquare)
    {
      KeyGapZero(keys, Top().key, board[..], side, Top().castleRights, Top().epSquare);
      Top().key
    }

    /** The current record with its key replaced. */
    method SetKey(key: U64)
      requires |states| > 0
      modifies this
      ensures states == old(states)[|old(states)| - 1 := old(Top()).(key := key)]
      ensures side == old(side) && historyIndex == old(historyIndex)
    {
      states := states[|states| - 1 := Top().(key := key)];
    }

    /** `put_piece(p, s)` on an empty square: the piece written, its bits set, its key XOR-ed in. */
    method PutPiece(p: Piece, s: Sq)
      requires Valid() && p < PIECE_NB && board[s] == NO_PIECE
      modifies this, board, colorBB, typeBB
      ensures Valid()
      ensures board[..] == old(board[..])[s := p]
      ensures states == old(states)[|old(states)| - 1 := old(Top()).(key := Xor(old(Top().key), keys.piece[p][s]))]
      ensures side == old(side) && historyIndex == old(historyIndex)
      ensures BoardGap() == old(BoardGap())
    {
      ghost var b0, c0, t0 := board[..], colorBB[..], typeBB[..];
      PutMatches(b0, c0, t0, s, p);
      board[s] := p;
      var bb := SquareBB(s);
      colorBB[ColorOf(p)] := colorBB[ColorOf(p)] + bb;
      typeBB[TypeOf(p)] := typeBB[TypeOf(p)] + bb;
      assert board[..] == b0[s := p];
      assert colorBB[..] == c0[ColorOf(p) := c0[ColorOf(p)] + {s}];
      assert typeBB[..] == t0[TypeOf(p) := t0[TypeOf(p)] + {s}];
      SetKey(Xor(Top().key, keys.piece[p][s]));
      XorZero(keys.piece[p][s]);
      WriteKeepsBoardGap(keys, b0, s, p, old(Top().key));
    }

    /** `remove_piece(s)` on an occupied square: the square emptied, its bits cleared, its key XOR-ed out. */
    method RemovePiece(s: Sq)
      requires Valid() && Holds(board[..], s)
      modifies this, board, colorBB, typeBB
      ensures Valid()
      ensures board[..] == old(board[..])[s := NO_PIECE]
      ensures states == old(states)[|old(states)| - 1 := old(Top()).(key := Xor(old(Top().key), keys.piece[old(board[s])][s]))]
      ensures side == old(side) && historyIndex == old(historyIndex)
      ensures BoardGap() == old(BoardGap())
    {
      ghost var b0, c0, t0 := board[..], colorBB[..], typeBB[..];
      RemoveMatches(b0, c0, t0, s);
      var p := board[s];
      var bb := SquareBB(s);
      assert forall x: Bitboard :: x * Complement(bb) == x - {s};
      colorBB[ColorOf(p)] := colorBB[ColorOf(p)] * Complement(bb);
      typeBB[TypeOf(p)] := typeBB[TypeOf(p)] * Complement(bb);
      board[s] := NO_PIECE;
      assert board[..] == b0[s := NO_PIECE];
      assert colorBB[..] == c0[ColorOf(p) := c0[ColorOf(p)] - {s}];
      assert typeBB[..] == t0[TypeOf(p) := t0[TypeOf(p)] - {s}];
      SetKey(Xor(Top().key, keys.piece[p][s]));
      WriteKeepsBoardGap(keys, b0, s, NO_PIECE, old(Top().key));
    }

    /**
     * The piece moves of make_move: the mover lifted, the capture (or the
     * en-passant victim, recorded as the capture) removed, the mover or its
     * promotion put down, and for castling the rook moved.
     */
    method MovePieces(m: Move)
      requires Valid() && MakeSafe(board[..], m, side) && Top().capturedPiece == board[m.To()]
      modifies this, board, colorBB, typeBB
      ensures side == old(side) && historyIndex == old(historyIndex)
      ensures Valid()
      ensures board[..] == MovedBoard(old(board[..]), m, side)
      ensures |states| == |old(states)| && states[..|states| - 1] == old(states[..|states| - 1])
      ensures Top() == old(Top()).(key := Top().key, capturedPiece := CapturedBy(old(board[..]), m, side))
      ensures BoardGap() == old(BoardGap())
    {
      ghost var b0 := board[..];
      var p := board[m.From()];
      LiftPieces(m);
      DropPieces(m, p, b0);
    }

    /** The first half of the piece moves: the mover and any capture taken off the board. */
    method LiftPieces(m: Move)
      requires Valid() && MakeSafe(board[..], m, side) && Top().capturedPiece == board[m.To()]
      modifies this, board, colorBB, typeBB
      ensures side == old(side) && historyIndex == old(historyIndex)
      ensures Valid()
      ensures board[..] == Lifted(old(board[..]), m, side)
      ensures |states| == |old(states)| && states[..|states| - 1] == old(states[..|states| - 1])
      ensures Top() == old(Top()).(key := Top().key, capturedPiece := CapturedBy(old(board[..]), m, side))
      ensures BoardGap() == old(BoardGap())
    {
      var from, to := m.From(), m.To();
      var captured := board[to];
      RemovePiece(from);
      if captured != NO_PIECE {
        RemovePiece(to);
      } else if m.Type() == EN_PASSANT {
        var victim := if side == WHITE then to + SOUTH else to + NORTH;
        states := states[|states| - 1 := Top().(capturedPiece := board[victim])];
        RemovePiece(victim);
      }
    }

    /** The second half: the arriving piece put on `to`, and for castling the rook moved. */
    method DropPieces(m: Move, p: Piece, ghost b0: Mailbox)
      requires MakeSafe(b0, m, side) && p == b0[m.From()]
      requires Valid() && board[..] == Lifted(b0, m, side)
      modifies this, board, colorBB, typeBB
      ensures side == old(side) && historyIndex == old(historyIndex)
      ensures Valid()
      ensures board[..] == MovedBoard(b0, m, side)
      ensures |states| == |old(states)| && states[..|states| - 1] == old(states[..|states| - 1])
      ensures Top() == old(Top()).(key := Top().key)
      ensures BoardGap() == old(BoardGap())
    {
      var to := m.To();
      PieceDecomposes(p);
      if m.Type() == PROMOTION {
        PutPiece(MakePiece(side, m.PromotionPiece()), to);
      } else if m.Type() == CASTLING {
        PutPiece(p, to);
        var rFrom, rTo := RookSquares(to).0, RookSquares(to).1;
        var rook := board[rFrom];
        RemovePiece(rFrom);
        PutPiece(rook, rTo);
      } else {
        PutPiece(p, to);
      }
    }

    /**
     * `make_move(m, next_state)`: a record pushed for the new state, the
     * pieces moved, the side flipped and the new key appended to the history
     * while there is room. The stored key keeps its gap to the position's key.
     */
    method MakeMove(m: Move)
      requires Valid() && MakeSafe(board[..], m, side) && 0 <= historyIndex
      modifies this, board, colorBB, typeBB, hashHistory
      ensures Valid()
      ensures side == 1 - old(side)
      ensures board[..] == MovedBoard(old(board[..]), m, old(side))
      ensures |states| == |old(states)| + 1 && states[..|old(states)|] == old(states)
      ensures Top() == MadeState(old(Top()), old(board[..]), m, old(side), Top().key)
      ensures Gap() == old(Gap())
      ensures old(historyIndex) < 1024 ==>
        historyIndex == old(historyIndex) + 1 && hashHistory[..] == old(hashHistory[..])[old(historyIndex) := Top().key]
      ensures old(historyIndex) == 1024 ==> historyIndex == 1024 && hashHistory[..] == old(hashHistory[..])
    {
      ghost var b0, st0, us := board[..], Top(), side;
      var p := board[m.From()];
      PushState(m);
      MovePieces(m);
      ghost var key5, b5 := Top().key, board[..];
      FinishMove(m, p);
      MakeKeepsGap(keys, st0.key, b0, us, st0.castleRights, st0.epSquare, key5, b5, Top().castleRights, Top().epSquare);
    }

    /**
     * The record make_move pushes before moving pieces: a copy of the current
     * one with the capture on `to`, the old castling and en-passant keys and
     * the side key taken out of the key, the rights masked, no en-passant
     * square, and the clock advanced or reset.
     */
    method PushState(m: Move)
      requires Valid()
      modifies this
      ensures Valid() && side == old(side) && historyIndex == old(historyIndex)
      ensures |states| == |old(states)| + 1 && states[..|old(states)|] == old(states)
      ensures Top() == old(Top()).(
        castleRights := BitAnd(BitAnd(old(Top()).castleRights, CastlePerm[m.From()]), CastlePerm[m.To()]),
        epSquare := SQ_NONE,
        halfmoveClock := if TypeOf(board[m.From()]) == PAWN || board[m.To()] != NO_PIECE then 0 else old(Top()).halfmoveClock + 1,
        key := Xor(Xor(Xor(old(Top()).key, keys.castle[old(Top()).castleRights]), EpTerm(keys, old(Top()).epSquare)), keys.side),
        capturedPiece := board[m.To()])
    {
      var from, to := m.From(), m.To();
      var p := board[from];
      var captured := board[to];
      var st := Top().(capturedPiece := captured);
      var key := Xor(st.key, keys.castle[st.castleRights]);
      if st.epSquare != SQ_NONE {
        key := Xor(key, keys.enPassant[st.epSquare]);
      } else {
        XorZero(key);
      }
      var rights := BitAnd(BitAnd(st.castleRights, CastlePerm[from]), CastlePerm[to]);
      BitAndBound(st.castleRights, CastlePerm[from]);
      BitAndBound(BitAnd(st.castleRights, CastlePerm[from]), CastlePerm[to]);
      var clock := st.halfmoveClock + 1;
      if TypeOf(p) == PAWN || captured != NO_PIECE {
        clock := 0;
      }
      key := Xor(key, keys.side);
      states := states + [st.(castleRights := rights, epSquare := SQ_NONE, halfmoveClock := clock, key := key)];
    }

    /**
     * The end of make_move, after the pieces have moved (`p` is the piece that
     * moved): the en-passant square of a double pawn step and its key, the new
     * castling key, the side flipped, and the key appended to the history.
     */
    method FinishMove(m: Move, p: Piece)
      requires Valid() && 0 <= historyIndex
      modifies this, hashHistory
      ensures Valid() && side == 1 - old(side)
      ensures |states| == |old(states)| && states[..|states| - 1] == old(states[..|states| - 1])
      ensures var ep := if TypeOf(p) == PAWN && Abs(m.From() - m.To()) == 16 then (m.From() + m.To()) / 2 else SQ_NONE;
        Top() == old(Top()).(epSquare := ep, key := Xor(Xor(old(Top()).key, EpTerm(keys, ep)), keys.castle[old(Top()).castleRights]))
      ensures old(historyIndex) < 1024 ==>
        historyIndex == old(historyIndex) + 1 && hashHistory[..] == old(hashHistory[..])[old(historyIndex) := Top().key]
      ensures old(historyIndex) == 1024 ==> historyIndex == 1024 && hashHistory[..] == old(hashHistory[..])
    {
      var from: int, to: int := m.From(), m.To();
      var ep := SQ_NONE;
      if TypeOf(p) == PAWN && Abs(from - to) == 16 {
        ep := (from + to) / 2;
        SetKey(Xor(Top().key, keys.enPassant[ep]));
      } else {
        XorZero(Top().key);
      }
      SetKey(Xor(Top().key, keys.castle[Top().castleRights]));
      states := states[|states| - 1 := Top().(epSquare := ep)];
      side := 1 - side;
      if historyIndex < 1024 {
        hashHistory[historyIndex] := Top().key;
        historyIndex := historyIndex + 1;
      }
    }

    /**
     * `unmake_move(m)`: the history index stepped back, the side flipped, the
     * pieces put back where they stood (a pawn for a promotion, the rook
     * for castling, the recorded capture on its square) and the record popped.
     */
    method UnmakeMove(m: Move)
      requires Valid() && |states| >= 2 && UnmakeSafe(board[..], m, 1 - side, Top().capturedPiece)
      modifies this, board, colorBB, typeBB
      ensures Valid()
      ensures side == 1 - old(side) && historyIndex == old(historyIndex) - 1
      ensures board[..] == UnmadeBoard(old(board[..]), m, side, old(Top().capturedPiece))
      ensures states == old(states[..|states| - 1])
    {
      historyIndex := historyIndex - 1;
      side := 1 - side;
      UnmakePieces(m, Top().capturedPiece);
      states := states[..|states| - 1];
    }

    /** The piece moves of unmake_move, for the side that made the move and the capture it recorded. */
    method UnmakePieces(m: Move, captured: Piece)
      requires Valid() && UnmakeSafe(board[..], m, side, captured)
      modifies this, board, colorBB, typeBB
      ensures Valid() && side == old(side) && historyIndex == old(historyIndex)
      ensures board[..] == UnmadeBoard(old(board[..]), m, side, captured)
      ensures |states| == |old(states)| && states[..|states| - 1] == old(states[..|states| - 1])
    {
      ghost var b0 := board[..];
      var moved := board[m.To()];
      if m.Type() == PROMOTION {
        moved := MakePiece(side, PAWN);
      } else if m.Type() == CASTLING {
        moved := MakePiece(side, KING);
      }
      LiftBack(m);
      ReturnPieces(m, moved, captured, b0);
    }

    /** unmake_move's first half: the piece on `to` lifted and, for castling, the rook moved back. */
    method LiftBack(m: Move)
      requires Valid() && UnmakeSafe(board[..], m, side, NO_PIECE)
      modifies this, board, colorBB, typeBB
      ensures Valid() && side == old(side) && historyIndex == old(historyIndex)
      ensures board[..] == Unlifted(old(board[..]), m)
      ensures |states| == |old(states)| && states[..|states| - 1] == old(states[..|states| - 1])
    {
      var to := m.To();
      RemovePiece(to);
      if m.Type() == CASTLING {
        var rFrom, rTo := RookSquares(to).0, RookSquares(to).1;
        var rook := board[rTo];
        RemovePiece(rTo);
        PutPiece(rook, rFrom);
      }
    }

    /** unmake_move's second half: the moved piece back on from and the recorded capture back on its square. */
    method ReturnPieces(m: Move, moved: Piece, captured: Piece, ghost b0: Mailbox)
      requires UnmakeSafe(b0, m, side, captured) && moved == Returning(b0, m, side)
      requires Valid() && board[..] == Unlifted(b0, m)
      modifies this, board, colorBB, typeBB
      ensures Valid() && side == old(side) && historyIndex == old(historyIndex)
      ensures board[..] == UnmadeBoard(b0, m, side, captured)
      ensures |states| == |old(states)| && states[..|states| - 1] == old(states[..|states| - 1])
    {
      var to := m.To();
      PutPiece(moved, m.From());
      if captured != NO_PIECE {
        if m.Type() == EN_PASSANT {
          var victim := if side == WHITE then to + SOUTH else to + NORTH;
          PutPiece(captured, victim);
        } else {
          PutPiece(captured, to);
        }
      }
    }

    /**
     * make_move followed by unmake_move: the board, bitboards, side and
     * record stack come back and the key's gap with them. The history index
     * comes back only when make_move had room to append; at 1024 make_move
     * leaves it alone while unmake_move still steps it back.
     */
    method MakeThenUnmake(m: Move)
      requires Valid() && Reversible(board[..], m, side) && 0 <= historyIndex
      modifies this, board, colorBB, typeBB, hashHistory
      ensures Valid()
      ensures board[..] == old(board[..]) && side == old(side) && states == old(states)
      ensures Gap() == old(Gap())
      ensures old(historyIndex) < 1024 ==> historyIndex == old(historyIndex)
      ensures old(historyIndex) == 1024 ==> historyIndex == 1023
    {
      ghost var b0, us := board[..], side;
      ghost var states0, g0 := states, Gap();
      MadeIsUnmakeSafe(b0, m, us);
      MakeMove(m);
      assert Top().capturedPiece == CapturedBy(b0, m, us);
      assert 1 - side == us;
      UnmakeRestoresBoard(b0, m, us);
      UnmakeMove(m);
      assert states == states0 && board[..] == b0;
      assert Gap() == KeyGap(keys, states0[|states0| - 1].key, b0, us, states0[|states0| - 1].castleRights,
                             states0[|states0| - 1].epSquare) == g0;
    }

    /**
     * `make_null_move(next_state)`: a copy of the record pushed with the side
     * key and any en-passant key taken out of its key, no en-passant square
     * and the clock advanced; the side flipped and the key appended to the
     * history while there is room. The board does not change.
     */
    method MakeNullMove()
      requires Valid() && 0 <= historyIndex
      modifies this, hashHistory
      ensures Valid()
      ensures side == 1 - old(side)
      ensures states == old(states) + [old(Top()).(key := Xor(Xor(old(Top().key), keys.side), EpTerm(keys, old(Top().epSquare))),
                                                   epSquare := SQ_NONE, halfmoveClock := old(Top().halfmoveClock) + 1)]
      ensures Gap() == old(Gap())
      ensures old(historyIndex) < 1024 ==>
        historyIndex == old(historyIndex) + 1 && hashHistory[..] == old(hashHistory[..])[old(historyIndex) := Top().key]
      ensures old(historyIndex) == 1024 ==> historyIndex == 1024 && hashHistory[..] == old(hashHistory[..])
    {
      ghost var st0, us := Top(), side;
      var st := Top();
      var key := Xor(st.key, keys.side);
      var ep := st.epSquare;
      if ep != SQ_NONE {
        key := Xor(key, keys.enPassant[ep]);
        ep := SQ_NONE;
      } else {
        XorZero(key);
      }
      states := states + [st.(key := key, epSquare := ep, halfmoveClock := st.halfmoveClock + 1)];
      side := 1 - side;
      NullKeepsGap(keys, st0.key, board[..], us, st0.castleRights, st0.epSquare);
      if historyIndex < 1024 {
        hashHistory[historyIndex] := Top().key;
        historyIndex := historyIndex + 1;
      }
    }

    /** `unmake_null_move`: the history index stepped back, the side flipped and the record popped. */
    method UnmakeNullMove()
      requires Valid() && |states| >= 2
      modifies this
      ensures Valid()
      ensures side == 1 - old(side) && historyIndex == old(historyIndex) - 1
      ensures states == old(states[..|states| - 1])
    {
      historyIndex := historyIndex - 1;
      side := 1 - side;
      states := states[..|states| - 1];
    }

    /**
     * `is_attacked(s, attacker)`: some piece of the attacker reaches s, found
     * by looking outward from s with each piece's pattern.
     */
    function IsAttacked(s: Sq, attacker: Color): (r: bool)
      requires Valid()
      reads this, board, colorBB, typeBB
      ensures r <==> exists t: Sq :: AttackerOn(board[..], t, s, attacker)
    {
      var occupied := AllPieces();
      AttackedWitness(board[..], s, attacker);
      PawnAttacks(s, 1 - attacker) * Pieces(attacker, PAWN) != {} ||
      KnightAttacks(s) * Pieces(attacker, KNIGHT) != {} ||
      BishopAttacks(s, occupied) * (Pieces(attacker, BISHOP) + Pieces(attacker, QUEEN)) != {} ||
      RookAttacks(s, occupied) * (Pieces(attacker, ROOK) + Pieces(attacker, QUEEN)) != {} ||
      KingAttacks(s) * Pieces(attacker, KING) != {}
    }

    /** `is_pseudo_legal(m)`: the mover, the destination and the move's pattern, without the king-safety test. */
    function IsPseudoLegal(m: Move): (r: bool)
      requires Valid()
      reads this, board, colorBB, typeBB
      ensures r == PseudoLegal(board[..], side, Top().castleRights, Top().epSquare, m)
    {
      var from, to := m.From(), m.To();
      var p := board[from];
      if p == NO_PIECE || ColorOf(p) != side then false
      else if board[to] != NO_PIECE && ColorOf(board[to]) == side then false
      else if TypeOf(p) == PAWN then PawnPseudoLegal(m)
      else if m.Type() == CASTLING then TypeOf(p) == KING && CastlePseudoLegal(to)
      else PiecePseudoLegal(m)
    }

    /** The pawn branch of is_pseudo_legal. */
    function PawnPseudoLegal(m: Move): (r: bool)
      requires Valid()
      reads this, board, colorBB, typeBB
      ensures r == PawnMoveOk(board[..], side, Top().epSquare, m)
    {
      var from, to, moveType := m.From(), m.To(), m.Type();
      PawnTarget(side, from, to);
      if moveType == PROMOTION || moveType == NORMAL then PawnStepPseudoLegal(from, to)
      else moveType == EN_PASSANT && to == Top().epSquare && PawnAttacks(from, side) * SquareBB(to) != {}
    }

    /** The NORMAL and PROMOTION part of the pawn branch: push, double push from the start rank, capture. */
    function PawnStepPseudoLegal(from: Sq, to: Sq): (r: bool)
      requires Valid()
      reads this, board, colorBB, typeBB
      ensures r == PawnStepOk(board[..], side, Top().epSquare, from, to)
    {
      var up: int := if side == WHITE then NORTH else SOUTH;
      var attacks := PawnAttacks(from, side) * SquareBB(to) != {};
      PawnTarget(side, from, to);
      assert SQ_A2 <= from <= SQ_H2 <==> RankOf(from) == 1;
      assert SQ_A7 <= from <= SQ_H7 <==> RankOf(from) == 6;
      if to == from + up then board[to] == NO_PIECE
      else if (side == WHITE && SQ_A2 <= from <= SQ_H2 && to == from + up + up) ||
              (side == BLACK && SQ_A7 <= from <= SQ_H7 && to == from + up + up) then
        board[from + up] == NO_PIECE && board[to] == NO_PIECE
      else if attacks && board[to] != NO_PIECE then ColorOf(board[to]) != side
      else attacks && to == Top().epSquare
    }

    /** The castling branch of is_pseudo_legal: the right's bit (1, 2, 4 or 8) and the empty squares. */
    function CastlePseudoLegal(to: Sq): (r: bool)
      requires Valid()
      reads this, board, colorBB, typeBB
      ensures r == CastleOk(board[..], side, Top().castleRights, to)
    {
      var rights := Top().castleRights;
      assert Pow2(0) == 1 && Pow2(1) == 2 && Pow2(2) == 4 && Pow2(3) == 8;
      SingleBit(rights, 0);
      SingleBit(rights, 1);
      SingleBit(rights, 2);
      SingleBit(rights, 3);
      if side == WHITE then
        if to == SQ_G1 then BitAnd(rights, 1) != 0 && board[SQ_F1] == NO_PIECE && board[SQ_G1] == NO_PIECE
        else if to == SQ_C1 then
          BitAnd(rights, 2) != 0 && board[SQ_D1] == NO_PIECE && board[SQ_C1] == NO_PIECE && board[SQ_B1] == NO_PIECE
        else false
      else
        if to == SQ_G8 then BitAnd(rights, 4) != 0 && board[SQ_F8] == NO_PIECE && board[SQ_G8] == NO_PIECE
        else if to == SQ_C8 then
          BitAnd(rights, 8) != 0 && board[SQ_D8] == NO_PIECE && board[SQ_C8] == NO_PIECE && board[SQ_B8] == NO_PIECE
        else false
    }

    /** The branch of is_pseudo_legal for knights, sliders and kings: `to` in the mover's attack set. */
    function PiecePseudoLegal(m: Move): (r: bool)
      requires Valid()
      reads this, board, colorBB, typeBB
      ensures r == PieceMoveOk(board[..], m)
    {
      var from, to := m.From(), m.To();
      var target := SquareBB(to);
      var pt := TypeOf(board[from]);
      if pt == KNIGHT then KnightAttacks(from) * target != {}
      else if pt == BISHOP then BishopAttacks(from, AllPieces()) * target != {}
      else if pt == ROOK then RookAttacks(from, AllPieces()) * target != {}
      else if pt == QUEEN then QueenAttacks(from, AllPieces()) * target != {}
      else if pt == KING then KingAttacks(from) * target != {}
      else false
    }

    /**
     * `is_repetition`: scanning the history two entries at a time from
     * history_index - 2, no further back than the halfmove clock allows, for
     * two more occurrences of the current key. The current key is entry
     * history_index - 1, so the scan looks at the positions 1, 3, 5, ...
     * plies back (Queries.RepetitionAsWritten).
     */
    method IsRepetition() returns (r: bool)
      requires Valid()
      ensures r <==> Repeated(hashHistory[..], Top().key, historyIndex, Top().halfmoveClock)
    {
      ghost var h, key := hashHistory[..], Top().key;
      var count := 1;
      var end := if historyIndex - Top().halfmoveClock > 0 then historyIndex - Top().halfmoveClock else 0;
      var i := historyIndex - 2;
      MatchesTwo(h, key, historyIndex - 2, end);
      while i >= end
        invariant i <= historyIndex - 2
        invariant count - 1 + Matches(h, key, i, end) == Matches(h, key, historyIndex - 2, end)
        invariant count < 3
        decreases i - end
      {
        if hashHistory[i] == Top().key {
          count := count + 1;
          if count >= 3 {
            return true;
          }
        }
        i := i - 2;
      }
      return false;
    }

    /** `is_insufficient_material`. */
    function IsInsufficientMaterial(): (r: bool)
      requires Valid()
      reads this, board, colorBB, typeBB
      ensures r <==> InsufficientMaterial(board[..])
    {
      var count := Count(AllPieces());
      var knights, bishops := typeBB[KNIGHT], typeBB[BISHOP];
      var white, black := Pieces(WHITE, BISHOP), Pieces(BLACK, BISHOP);
      MaterialCases(board[..]);
      if count == 2 then true
      else if count == 3 && (knights != {} || bishops != {}) then true
      else if count == 4 && Count(bishops) == 2 && white != {} && black != {} then
        IsLightSquare(Lsb(white)) == IsLightSquare(Lsb(black))
      else false
    }

    /** `is_draw`: the fifty-move rule, a repetition, or material that cannot mate. */
    method IsDraw() returns (r: bool)
      requires Valid()
      ensures r <==> Top().halfmoveClock >= 100 || Repeated(hashHistory[..], Top().key, historyIndex, Top().halfmoveClock) ||
                     InsufficientMaterial(board[..])
    {
      if Top().halfmoveClock >= 100 {
        return true;
      }
      r := IsRepetition();
      if r {
        return true;
      }
      return IsInsufficientMaterial();
    }
  }
}
