/**
 * Move generation (include/movegen.h, src/movegen.cpp): the fixed-capacity
 * MoveList buffer, and generate<T>, which appends the moves of the side to
 * move in a fixed order: pawns by ascending square (pushes, then captures,
 * then en passant), then knights, bishops, rooks and queens by ascending
 * square with their targets ascending, then the king's steps and castling.
 */
module MoveGen {
  import opened Types
  import opened Moves
  import opened Bits
  import opened Bitboards
  import opened Attacks
  import opened Board
  import opened Queries
  import opened Positions

  const MAX_MOVES: int := 256

  /** `MoveList`: `Move moves[256]` and the number in use. */
  class MoveList {
    const moves: array<Move>
    var count: int

    ghost predicate Valid()
      reads this
    {
      moves.Length == MAX_MOVES && 0 <= count <= MAX_MOVES
    }

    /** The moves from `begin()` to `end()`. */
    function Contents(): (r: seq<Move>)
      requires Valid()
      reads this, moves
      ensures |r| == count
    {
      moves[..count]
    }

    /** A new list holds no moves. */
    constructor ()
      ensures Valid() && Contents() == [] && fresh(moves)
    {
      moves := new Move[MAX_MOVES](_ => NoMove());
      count := 0;
    }

    /** `add(m)`: `moves[count++] = m`. There is no bounds check, so the buffer must have room. */
    method Add(m: Move)
      requires Valid() && count < MAX_MOVES
      modifies this, moves
      ensures Valid() && count == old(count) + 1
      ensures Contents() == old(Contents()) + [m]
    {
      moves[count] := m;
      count := count + 1;
    }

    /** `size()`, which is also `end() - begin()`. */
    function Size(): (n: nat)
      requires Valid()
      reads this, moves
      ensures n == |Contents()|
    {
      count
    }

    /** `operator[](i)`. */
    function Get(i: int): (m: Move)
      requires Valid() && 0 <= i < count
      reads this, moves
      ensures m == Contents()[i]
    {
      moves[i]
    }
  }

  datatype GenType = ALL | CAPTURES | QUIETS

  /** Concatenation regroups. */
  lemma Assoc<T>(a: seq<T>, b: seq<T>, c: seq<T>)
    ensures a + (b + c) == (a + b) + c
  {
  }

  /** The squares of a rank, as the masks 0xFF00 (rank 2) and 0x00FF000000000000 (rank 7). */
  function RankBB(r: int): Bitboard
  {
    set s: Sq | RankOf(s) == r
  }

  /** A square's bitboard meets a rank's exactly when the square stands on that rank. */
  lemma OnRank(s: Sq, r: int)
    ensures SquareBB(s) * RankBB(r) != {} <==> RankOf(s) == r
  {
    assert s in SquareBB(s);
  }

  /** The rank from which the side's pawns promote on their next move, and their start rank. */
  function SeventhRank(us: Color): int { if us == WHITE then 6 else 1 }
  function SecondRank(us: Color): int { if us == WHITE then 1 else 6 }

  /** The four promotions of one pawn move, queen first, then rook, bishop and knight. */
  function Promotions(from: Sq, to: Sq): seq<Move>
  {
    [NewMove(from, to, PROMOTION, QUEEN), NewMove(from, to, PROMOTION, ROOK),
     NewMove(from, to, PROMOTION, BISHOP), NewMove(from, to, PROMOTION, KNIGHT)]
  }

  /** The forward step of the side's pawns: up the board for white, down for black. */
  function Up(us: Color): int { if us == WHITE then NORTH else SOUTH }

  /** The double push of a pawn on its start rank whose two squares ahead are both empty. */
  function DoublePush(b: Mailbox, us: Color, from: Sq): seq<Move>
  {
    var t1 := from + Up(us);
    var t2 := from + 2 * Up(us);
    if RankOf(from) == SecondRank(us) && 0 <= t2 < 64 && 0 <= t1 < 64 && b[t2] == NO_PIECE && b[t1] == NO_PIECE
    then [NormalMove(from, t2)] else []
  }

  /** A pawn's pushes: none in CAPTURES mode or when blocked; promotions from the seventh rank; else one or two steps. */
  function PushMoves(b: Mailbox, us: Color, t: GenType, from: Sq): seq<Move>
  {
    var t1 := from + Up(us);
    if t == CAPTURES || !(0 <= t1 < 64) || b[t1] != NO_PIECE then []
    else if RankOf(from) == SeventhRank(us) then Promotions(from, t1)
    else [NormalMove(from, t1)] + DoublePush(b, us, from)
  }

  /** A pawn's captures onto tos, each as four promotions when the pawn stands on its seventh rank. */
  function CaptureMoves(from: Sq, tos: seq<Sq>, promote: bool): seq<Move>
  {
    if tos == [] then []
    else (if promote then Promotions(from, tos[0]) else [NormalMove(from, tos[0])]) + CaptureMoves(from, tos[1..], promote)
  }

  /** The en-passant capture, when the pawn attacks the en-passant square and the mode is not QUIETS. */
  function EpMoves(us: Color, t: GenType, ep: Square, from: Sq): seq<Move>
  {
    if ep != SQ_NONE && ep in PawnAttacks(from, us) && t != QUIETS then [NewMove(from, ep, EN_PASSANT, KNIGHT)] else []
  }

  /**
   * Every move of the pawn on from. The captures are not filtered by the
   * mode, so QUIETS mode emits pawn captures too.
   */
  function PawnMovesAt(b: Mailbox, us: Color, ep: Square, t: GenType, from: Sq): seq<Move>
  {
    PushMoves(b, us, t, from) +
    CaptureMoves(from, Ascending(PawnAttacks(from, us) * ColorSet(b, 1 - us)), RankOf(from) == SeventhRank(us)) +
    EpMoves(us, t, ep, from)
  }

  function PawnMoves(b: Mailbox, us: Color, ep: Square, t: GenType, froms: seq<Sq>): seq<Move>
  {
    if froms == [] then [] else PawnMovesAt(b, us, ep, t, froms[0]) + PawnMoves(b, us, ep, t, froms[1..])
  }

  /** The target mask: enemy pieces for CAPTURES, empty squares for QUIETS, and all but own pieces for ALL. */
  function Targets(b: Mailbox, us: Color, t: GenType): Bitboard
  {
    match t
    case CAPTURES => ColorSet(b, 1 - us)
    case QUIETS => Complement(Occupied(b))
    case ALL => Complement(ColorSet(b, us))
  }

  /** The squares a knight, bishop, rook, queen or king on s attacks. */
  function PieceAttacks(pt: PieceType, s: Sq, occ: Bitboard): Bitboard
  {
    if pt == KNIGHT then KnightAttacks(s)
    else if pt == BISHOP then BishopAttacks(s, occ)
    else if pt == ROOK then RookAttacks(s, occ)
    else if pt == QUEEN then QueenAttacks(s, occ)
    else KingAttacks(s)
  }

  /** The normal moves from one square to each of tos. */
  function TargetMoves(from: Sq, tos: seq<Sq>): seq<Move>
  {
    if tos == [] then [] else [NormalMove(from, tos[0])] + TargetMoves(from, tos[1..])
  }

  /** The moves of the pieces of type pt standing on froms. */
  function PieceMoves(b: Mailbox, us: Color, t: GenType, pt: PieceType, froms: seq<Sq>): seq<Move>
  {
    if froms == [] then []
    else
      var tos := Ascending(PieceAttacks(pt, froms[0], Occupied(b)) * Targets(b, us, t));
      TargetMoves(froms[0], tos) + PieceMoves(b, us, t, pt, froms[1..])
  }

  /** s is attacked by a piece of c: `is_attacked(s, c)`. */
  ghost predicate Attacked(b: Mailbox, s: Sq, c: Color)
  {
    exists t: Sq :: AttackerOn(b, t, s, c)
  }

  /**
   * Castling to the king side: when the right is held, F and G of the back
   * rank are empty, and neither the king's square nor F nor G is attacked.
   */
  ghost function CastleKingSide(b: Mailbox, us: Color, rights: nat, from: Sq): seq<Move>
  {
    var them := 1 - us;
    if us == WHITE then
      if Bit(rights, WHITE_OO) && b[SQ_F1] == NO_PIECE && b[SQ_G1] == NO_PIECE &&
         !Attacked(b, from, them) && !Attacked(b, SQ_F1, them) && !Attacked(b, SQ_G1, them)
      then [NewMove(from, SQ_G1, CASTLING, KNIGHT)] else []
    else
      if Bit(rights, BLACK_OO) && b[SQ_F8] == NO_PIECE && b[SQ_G8] == NO_PIECE &&
         !Attacked(b, from, them) && !Attacked(b, SQ_F8, them) && !Attacked(b, SQ_G8, them)
      then [NewMove(from, SQ_G8, CASTLING, KNIGHT)] else []
  }

  /**
   * Castling to the queen side: when the right is held, B, C and D are
   * empty, and neither the king's square nor D nor C is attacked (B may be).
   */
  ghost function CastleQueenSide(b: Mailbox, us: Color, rights: nat, from: Sq): seq<Move>
  {
    var them := 1 - us;
    if us == WHITE then
      if Bit(rights, WHITE_OOO) && b[SQ_B1] == NO_PIECE && b[SQ_C1] == NO_PIECE && b[SQ_D1] == NO_PIECE &&
         !Attacked(b, from, them) && !Attacked(b, SQ_D1, them) && !Attacked(b, SQ_C1, them)
      then [NewMove(from, SQ_C1, CASTLING, KNIGHT)] else []
    else
      if Bit(rights, BLACK_OOO) && b[SQ_B8] == NO_PIECE && b[SQ_C8] == NO_PIECE && b[SQ_D8] == NO_PIECE &&
         !Attacked(b, from, them) && !Attacked(b, SQ_D8, them) && !Attacked(b, SQ_C8, them)
      then [NewMove(from, SQ_C8, CASTLING, KNIGHT)] else []
  }

  ghost function CastleMoves(b: Mailbox, us: Color, rights: nat, from: Sq): seq<Move>
  {
    CastleKingSide(b, us, rights, from) + CastleQueenSide(b, us, rights, from)
  }

  /** The king on the lowest square of the side's king set: its steps, then castling unless in CAPTURES mode. */
  ghost function KingMoves(b: Mailbox, us: Color, rights: nat, t: GenType): seq<Move>
  {
    var king := PiecesOf(b, us, KING);
    if king == {} then []
    else
      var from: Sq := Lsb(king);
      TargetMoves(from, Ascending(KingAttacks(from) * Targets(b, us, t))) +
      (if t != CAPTURES then CastleMoves(b, us, rights, from) else [])
  }

  /** The knights', bishops', rooks' and queens' moves, in that order. */
  function OfficerMoves(b: Mailbox, us: Color, t: GenType): seq<Move>
  {
    PieceMoves(b, us, t, KNIGHT, Ascending(PiecesOf(b, us, KNIGHT))) +
    PieceMoves(b, us, t, BISHOP, Ascending(PiecesOf(b, us, BISHOP))) +
    PieceMoves(b, us, t, ROOK, Ascending(PiecesOf(b, us, ROOK))) +
    PieceMoves(b, us, t, QUEEN, Ascending(PiecesOf(b, us, QUEEN)))
  }

  /** The pawns' moves, then the knights', bishops', rooks' and queens'. */
  function PawnAndPieceMoves(b: Mailbox, us: Color, ep: Square, t: GenType): seq<Move>
  {
    PawnMoves(b, us, ep, t, Ascending(PiecesOf(b, us, PAWN))) + OfficerMoves(b, us, t)
  }

  /** Everything generate<T> appends, in order: pawns, the other pieces, then the king. */
  ghost function Generated(b: Mailbox, us: Color, rights: nat, ep: Square, t: GenType): seq<Move>
  {
    PawnAndPieceMoves(b, us, ep, t) + KingMoves(b, us, rights, t)
  }

  /** What generate<T> appends for pos. */
  ghost function GeneratedFor(pos: Position, t: GenType): seq<Move>
    requires pos.Valid()
    reads pos, pos.board, pos.colorBB, pos.typeBB
  {
    Generated(pos.board[..], pos.side, pos.Top().castleRights, pos.Top().epSquare, t)
  }

  /** The target mask of the side to move, from the position's colour bitboards. */
  function TargetsFor(pos: Position, t: GenType): (r: Bitboard)
    requires pos.Valid()
    reads pos, pos.board, pos.colorBB, pos.typeBB
    ensures r == Targets(pos.board[..], pos.side, t)
  {
    var enemies := pos.ColorPieces(1 - pos.side);
    if t == CAPTURES then enemies else if t == QUIETS then Complement(pos.AllPieces()) else Complement(pos.ColorPieces(pos.side))
  }

  /**
   * `generate<T>(pos, moves)`: appends every generated move to the list.
   * The list must have room for them, since add does not check.
   */
  method Generate(pos: Position, t: GenType, list: MoveList)
    requires pos.Valid() && list.Valid()
    requires list.count + |GeneratedFor(pos, t)| <= MAX_MOVES
    modifies list, list.moves
    ensures list.Valid() && list.Contents() == old(list.Contents() + GeneratedFor(pos, t))
  {
    ghost var l0, b, us := list.Contents(), pos.board[..], pos.side;
    ghost var rights, ep := pos.Top().castleRights, pos.Top().epSquare;
    var targets := TargetsFor(pos, t);
    GeneratePawnsAndPieces(pos, t, targets, list);
    GenerateKing(pos, t, targets, list);
    assert pos.board[..] == b;
    Assoc(l0, PawnAndPieceMoves(b, us, ep, t), KingMoves(b, us, rights, t));
  }

  /**
   * The pawn loop and the four piece loops. The position is a constant
   * reference, so its board, piece sets and en-passant square are read once
   * up front.
   */
  method GeneratePawnsAndPieces(pos: Position, t: GenType, targets: Bitboard, list: MoveList)
    requires pos.Valid() && list.Valid() && targets == Targets(pos.board[..], pos.side, t)
    requires list.count + |PawnAndPieceMoves(pos.board[..], pos.side, pos.Top().epSquare, t)| <= MAX_MOVES
    modifies list, list.moves
    ensures list.Valid()
    ensures list.Contents() == old(list.Contents() + PawnAndPieceMoves(pos.board[..], pos.side, pos.Top().epSquare, t))
  {
    ghost var l0 := list.Contents();
    var b := pos.board[..];
    var us := pos.side;
    var occupied := pos.AllPieces();
    var enemies := pos.ColorPieces(1 - us);
    var pawns := pos.Pieces(us, PAWN);
    var epSquare := pos.Top().epSquare;
    var knights, bishops := pos.Pieces(us, KNIGHT), pos.Pieces(us, BISHOP);
    var rooks, queens := pos.Pieces(us, ROOK), pos.Pieces(us, QUEEN);
    ghost var P, O := PawnMoves(b, us, epSquare, t, Ascending(pawns)), OfficerMoves(b, us, t);
    assert PawnAndPieceMoves(b, us, epSquare, t) == P + O;
    GeneratePawns(b, us, epSquare, t, pawns, enemies, list);
    GenerateOfficers(b, us, t, knights, bishops, rooks, queens, occupied, targets, list);
    Assoc(l0, P, O);
  }

  /** The four loops over the knights, bishops, rooks and queens. */
  method GenerateOfficers(ghost b: Mailbox, us: Color, t: GenType, knights: Bitboard, bishops: Bitboard, rooks: Bitboard,
                          queens: Bitboard, occupied: Bitboard, targets: Bitboard, list: MoveList)
    requires list.Valid() && occupied == Occupied(b) && targets == Targets(b, us, t)
    requires knights == PiecesOf(b, us, KNIGHT) && bishops == PiecesOf(b, us, BISHOP)
    requires rooks == PiecesOf(b, us, ROOK) && queens == PiecesOf(b, us, QUEEN)
    requires list.count + |OfficerMoves(b, us, t)| <= MAX_MOVES
    modifies list, list.moves
    ensures list.Valid() && list.Contents() == old(list.Contents()) + OfficerMoves(b, us, t)
  {
    ghost var l0 := list.Contents();
    ghost var N := PieceMoves(b, us, t, KNIGHT, Ascending(knights));
    ghost var B := PieceMoves(b, us, t, BISHOP, Ascending(bishops));
    ghost var R := PieceMoves(b, us, t, ROOK, Ascending(rooks));
    ghost var Q := PieceMoves(b, us, t, QUEEN, Ascending(queens));
    assert OfficerMoves(b, us, t) == N + B + R + Q;
    GeneratePieces(b, us, t, KNIGHT, knights, occupied, targets, list);
    GeneratePieces(b, us, t, BISHOP, bishops, occupied, targets, list);
    GeneratePieces(b, us, t, ROOK, rooks, occupied, targets, list);
    GeneratePieces(b, us, t, QUEEN, queens, occupied, targets, list);
    assert list.Contents() == l0 + N + B + R + Q;
    Assoc(l0, N + B + R, Q);
    Assoc(l0, N + B, R);
    Assoc(l0, N, B);
  }

  /** The pawn loop: each pawn of the side to move, lowest square first. */
  method GeneratePawns(b: Mailbox, us: Color, ep: Square, t: GenType, pawns: Bitboard, enemies: Bitboard, list: MoveList)
    requires list.Valid() && enemies == ColorSet(b, 1 - us)
    requires list.count + |PawnMoves(b, us, ep, t, Ascending(pawns))| <= MAX_MOVES
    modifies list, list.moves
    ensures list.Valid() && list.Contents() == old(list.Contents()) + PawnMoves(b, us, ep, t, Ascending(pawns))
  {
    ghost var start, all := list.Contents(), PawnMoves(b, us, ep, t, Ascending(pawns));
    var rest := pawns;
    while rest != {}
      invariant list.Valid()
      invariant start + all == list.Contents() + PawnMoves(b, us, ep, t, Ascending(rest))
      decreases |rest|
    {
      ghost var before := list.Contents();
      var from, rest' := PopLsb(rest);
      AscendingPop(rest);
      ghost var here := PawnMovesAt(b, us, ep, t, from);
      ghost var later := PawnMoves(b, us, ep, t, Ascending(rest'));
      assert PawnMoves(b, us, ep, t, Ascending(rest)) == here + later;
      GeneratePawn(b, us, ep, t, from, enemies, list);
      Assoc(before, here, later);
      rest := rest';
    }
    assert list.Contents() + [] == list.Contents();
  }

  /** One pawn: its pushes, its captures, and its en-passant capture. */
  method GeneratePawn(b: Mailbox, us: Color, ep: Square, t: GenType, from: Sq, enemies: Bitboard, list: MoveList)
    requires list.Valid() && enemies == ColorSet(b, 1 - us)
    requires list.count + |PawnMovesAt(b, us, ep, t, from)| <= MAX_MOVES
    modifies list, list.moves
    ensures list.Valid() && list.Contents() == old(list.Contents()) + PawnMovesAt(b, us, ep, t, from)
  {
    ghost var start := list.Contents();
    ghost var pushes := PushMoves(b, us, t, from);
    ghost var caps := CaptureMoves(from, Ascending(PawnAttacks(from, us) * enemies), RankOf(from) == SeventhRank(us));
    ghost var eps := EpMoves(us, t, ep, from);
    assert PawnMovesAt(b, us, ep, t, from) == pushes + caps + eps;
    var rank7 := if us == WHITE then RankBB(6) else RankBB(1);
    OnRank(from, SeventhRank(us));
    GeneratePushes(b, us, t, from, list);
    var attacks := PawnAttacks(from, us);
    AddCaptures(from, attacks * enemies, SquareBB(from) * rank7 != {}, list);
    Assoc(start, pushes, caps);
    GenerateEnPassant(us, t, from, ep, attacks, list);
    Assoc(start, pushes + caps, eps);
  }

  /** The en-passant capture of the pawn on from, whose attacks are given, unless in QUIETS mode. */
  method GenerateEnPassant(us: Color, t: GenType, from: Sq, epSquare: Square, attacks: Bitboard, list: MoveList)
    requires list.Valid() && attacks == PawnAttacks(from, us)
    requires list.count + |EpMoves(us, t, epSquare, from)| <= MAX_MOVES
    modifies list, list.moves
    ensures list.Valid() && list.Contents() == old(list.Contents()) + EpMoves(us, t, epSquare, from)
  {
    if epSquare != SQ_NONE && attacks * SquareBB(epSquare) != {} {
      if t != QUIETS {
        list.Add(NewMove(from, epSquare, EN_PASSANT, KNIGHT));
        return;
      }
    } else if epSquare != SQ_NONE {
      assert epSquare in SquareBB(epSquare);
    }
    assert list.Contents() + [] == list.Contents();
  }

  /** The single push, its four promotions from the seventh rank, or the double push from the start rank. */
  method GeneratePushes(b: Mailbox, us: Color, t: GenType, from: Sq, list: MoveList)
    requires list.Valid() && list.count + |PushMoves(b, us, t, from)| <= MAX_MOVES
    modifies list, list.moves
    ensures list.Valid() && list.Contents() == old(list.Contents()) + PushMoves(b, us, t, from)
  {
    var up := if us == WHITE then NORTH else SOUTH;
    var rank7 := if us == WHITE then RankBB(6) else RankBB(1);
    OnRank(from, SeventhRank(us));
    var t1 := from + up;
    if 0 <= t1 < 64 && t != CAPTURES {
      if b[t1] == NO_PIECE {
        ghost var start := list.Contents();
        if SquareBB(from) * rank7 != {} {
          AddPromotions(from, t1, list);
        } else {
          list.Add(NormalMove(from, t1));
          GenerateDoublePush(b, us, from, list);
          Assoc(start, [NormalMove(from, t1)], DoublePush(b, us, from));
        }
        return;
      }
    }
    assert list.Contents() + [] == list.Contents();
  }

  /** `if (rank2 & from) ...`: the second step of a pawn on its start rank, when both squares ahead are empty. */
  method GenerateDoublePush(b: Mailbox, us: Color, from: Sq, list: MoveList)
    requires list.Valid() && list.count + |DoublePush(b, us, from)| <= MAX_MOVES
    modifies list, list.moves
    ensures list.Valid() && list.Contents() == old(list.Contents()) + DoublePush(b, us, from)
  {
    var up := if us == WHITE then NORTH else SOUTH;
    var rank2 := if us == WHITE then RankBB(1) else RankBB(6);
    OnRank(from, SecondRank(us));
    if SquareBB(from) * rank2 != {} {
      var t1 := from + up;
      var t2 := from + 2 * up;
      if 0 <= t2 < 64 && 0 <= t1 < 64 {
        if b[t2] == NO_PIECE && b[t1] == NO_PIECE {
          list.Add(NormalMove(from, t2));
          return;
        }
      }
    }
    assert list.Contents() + [] == list.Contents();
  }

  /** The four promotions of one pawn move: queen, rook, bishop, knight. */
  method AddPromotions(from: Sq, to: Sq, list: MoveList)
    requires list.Valid() && list.count + 4 <= MAX_MOVES
    modifies list, list.moves
    ensures list.Valid() && list.Contents() == old(list.Contents()) + Promotions(from, to)
  {
    list.Add(NewMove(from, to, PROMOTION, QUEEN));
    list.Add(NewMove(from, to, PROMOTION, ROOK));
    list.Add(NewMove(from, to, PROMOTION, BISHOP));
    list.Add(NewMove(from, to, PROMOTION, KNIGHT));
  }

  /** `while (tmp)`: each captured square, lowest first, as a normal move or four promotions. */
  method AddCaptures(from: Sq, caps: Bitboard, promote: bool, list: MoveList)
    requires list.Valid() && list.count + |CaptureMoves(from, Ascending(caps), promote)| <= MAX_MOVES
    modifies list, list.moves
    ensures list.Valid() && list.Contents() == old(list.Contents()) + CaptureMoves(from, Ascending(caps), promote)
  {
    ghost var start, all := list.Contents(), CaptureMoves(from, Ascending(caps), promote);
    var tmp := caps;
    while tmp != {}
      invariant list.Valid()
      invariant start + all == list.Contents() + CaptureMoves(from, Ascending(tmp), promote)
      decreases |tmp|
    {
      ghost var before := list.Contents();
      var to, rest := PopLsb(tmp);
      AscendingPop(tmp);
      ghost var here := if promote then Promotions(from, to) else [NormalMove(from, to)];
      ghost var later := CaptureMoves(from, Ascending(rest), promote);
      assert CaptureMoves(from, Ascending(tmp), promote) == here + later;
      if promote {
        AddPromotions(from, to, list);
      } else {
        list.Add(NormalMove(from, to));
      }
      assert list.Contents() == before + here;
      Assoc(before, here, later);
      tmp := rest;
    }
    assert list.Contents() + [] == list.Contents();
  }

  /** `while (attacks) moves.add(Move(from, pop_lsb(attacks)))`. */
  method AddTargets(from: Sq, attacks: Bitboard, list: MoveList)
    requires list.Valid() && list.count + |TargetMoves(from, Ascending(attacks))| <= MAX_MOVES
    modifies list, list.moves
    ensures list.Valid() && list.Contents() == old(list.Contents()) + TargetMoves(from, Ascending(attacks))
  {
    ghost var start, all := list.Contents(), TargetMoves(from, Ascending(attacks));
    var rest := attacks;
    while rest != {}
      invariant list.Valid()
      invariant start + all == list.Contents() + TargetMoves(from, Ascending(rest))
      decreases |rest|
    {
      ghost var before := list.Contents();
      var to, rest' := PopLsb(rest);
      AscendingPop(rest);
      ghost var later := TargetMoves(from, Ascending(rest'));
      assert TargetMoves(from, Ascending(rest)) == [NormalMove(from, to)] + later;
      list.Add(NormalMove(from, to));
      Assoc(before, [NormalMove(from, to)], later);
      rest := rest';
    }
    assert list.Contents() + [] == list.Contents();
  }

  /** The loop over the knights, bishops, rooks or queens of the side to move, standing on pieces. */
  method GeneratePieces(ghost b: Mailbox, us: Color, t: GenType, pt: PieceType, pieces: Bitboard, occupied: Bitboard,
                        targets: Bitboard, list: MoveList)
    requires list.Valid() && KNIGHT <= pt <= QUEEN
    requires occupied == Occupied(b) && targets == Targets(b, us, t)
    requires list.count + |PieceMoves(b, us, t, pt, Ascending(pieces))| <= MAX_MOVES
    modifies list, list.moves
    ensures list.Valid() && list.Contents() == old(list.Contents()) + PieceMoves(b, us, t, pt, Ascending(pieces))
  {
    ghost var start, all := list.Contents(), PieceMoves(b, us, t, pt, Ascending(pieces));
    var rest := pieces;
    while rest != {}
      invariant list.Valid()
      invariant start + all == list.Contents() + PieceMoves(b, us, t, pt, Ascending(rest))
      decreases |rest|
    {
      ghost var before := list.Contents();
      var from, rest' := PopLsb(rest);
      AscendingPop(rest);
      var attacks := if pt == KNIGHT then KnightAttacks(from)
        else if pt == BISHOP then BishopAttacks(from, occupied)
        else if pt == ROOK then RookAttacks(from, occupied)
        else QueenAttacks(from, occupied);
      ghost var here := TargetMoves(from, Ascending(attacks * targets));
      ghost var later := PieceMoves(b, us, t, pt, Ascending(rest'));
      assert PieceMoves(b, us, t, pt, Ascending(rest)) == here + later;
      AddTargets(from, attacks * targets, list);
      Assoc(before, here, later);
      rest := rest';
    }
    assert list.Contents() + [] == list.Contents();
  }

  /** The king: the steps of the king on the lowest square of the king set, then castling unless in CAPTURES mode. */
  method GenerateKing(pos: Position, t: GenType, targets: Bitboard, list: MoveList)
    requires pos.Valid() && list.Valid() && targets == Targets(pos.board[..], pos.side, t)
    requires list.count + |KingMoves(pos.board[..], pos.side, pos.Top().castleRights, t)| <= MAX_MOVES
    modifies list, list.moves
    ensures list.Valid()
    ensures list.Contents() == old(list.Contents() + KingMoves(pos.board[..], pos.side, pos.Top().castleRights, t))
  {
    ghost var b, us, rights, start := pos.board[..], pos.side, pos.Top().castleRights, list.Contents();
    var king := pos.Pieces(pos.side, KING);
    if king != {} {
      var from: Sq := Lsb(king);
      ghost var steps := TargetMoves(from, Ascending(KingAttacks(from) * targets));
      ghost var castles := if t != CAPTURES then CastleMoves(b, us, rights, from) else [];
      assert KingMoves(b, us, rights, t) == steps + castles;
      AddTargets(from, KingAttacks(from) * targets, list);
      if t != CAPTURES {
        GenerateCastling(pos, from, list);
      } else {
        assert list.Contents() + castles == list.Contents();
      }
      Assoc(start, steps, castles);
    } else {
      assert start + KingMoves(b, us, rights, t) == start;
    }
  }

  /** The castling block for the side to move, its king on from: the king side, then the queen side. */
  method GenerateCastling(pos: Position, from: Sq, list: MoveList)
    requires pos.Valid() && list.Valid()
    requires list.count + |CastleMoves(pos.board[..], pos.side, pos.Top().castleRights, from)| <= MAX_MOVES
    modifies list, list.moves
    ensures list.Valid()
    ensures list.Contents() == old(list.Contents() + CastleMoves(pos.board[..], pos.side, pos.Top().castleRights, from))
  {
    ghost var b, us, rights, start := pos.board[..], pos.side, pos.Top().castleRights, list.Contents();
    CastleKing(pos, from, list);
    CastleQueen(pos, from, list);
    Assoc(start, CastleKingSide(b, us, rights, from), CastleQueenSide(b, us, rights, from));
  }

  method CastleKing(pos: Position, from: Sq, list: MoveList)
    requires pos.Valid() && list.Valid()
    requires list.count + |CastleKingSide(pos.board[..], pos.side, pos.Top().castleRights, from)| <= MAX_MOVES
    modifies list, list.moves
    ensures list.Valid()
    ensures list.Contents() == old(list.Contents() + CastleKingSide(pos.board[..], pos.side, pos.Top().castleRights, from))
  {
    var castle := pos.Top().castleRights;
    var them := 1 - pos.side;
    assert Pow2(0) == 1 && Pow2(2) == 4;
    SingleBit(castle, 0);
    SingleBit(castle, 2);
    if pos.side == WHITE {
      if BitAnd(castle, 1) != 0 {
        if pos.PieceOn(SQ_F1) == NO_PIECE && pos.PieceOn(SQ_G1) == NO_PIECE {
          if !pos.IsAttacked(from, them) && !pos.IsAttacked(SQ_F1, them) && !pos.IsAttacked(SQ_G1, them) {
            list.Add(NewMove(from, SQ_G1, CASTLING, KNIGHT));
            return;
          }
        }
      }
    } else {
      if BitAnd(castle, 4) != 0 {
        if pos.PieceOn(SQ_F8) == NO_PIECE && pos.PieceOn(SQ_G8) == NO_PIECE {
          if !pos.IsAttacked(from, them) && !pos.IsAttacked(SQ_F8, them) && !pos.IsAttacked(SQ_G8, them) {
            list.Add(NewMove(from, SQ_G8, CASTLING, KNIGHT));
            return;
          }
        }
      }
    }
    assert list.Contents() + [] == list.Contents();
  }

  method CastleQueen(pos: Position, from: Sq, list: MoveList)
    requires pos.Valid() && list.Valid()
    requires list.count + |CastleQueenSide(pos.board[..], pos.side, pos.Top().castleRights, from)| <= MAX_MOVES
    modifies list, list.moves
    ensures list.Valid()
    ensures list.Contents() == old(list.Contents() + CastleQueenSide(pos.board[..], pos.side, pos.Top().castleRights, from))
  {
    var castle := pos.Top().castleRights;
    var them := 1 - pos.side;
    assert Pow2(1) == 2 && Pow2(3) == 8;
    SingleBit(castle, 1);
    SingleBit(castle, 3);
    if pos.side == WHITE {
      if BitAnd(castle, 2) != 0 {
        if pos.PieceOn(SQ_B1) == NO_PIECE && pos.PieceOn(SQ_C1) == NO_PIECE && pos.PieceOn(SQ_D1) == NO_PIECE {
          if !pos.IsAttacked(from, them) && !pos.IsAttacked(SQ_D1, them) && !pos.IsAttacked(SQ_C1, them) {
            list.Add(NewMove(from, SQ_C1, CASTLING, KNIGHT));
            return;
          }
        }
      }
    } else {
      if BitAnd(castle, 8) != 0 {
        if pos.PieceOn(SQ_B8) == NO_PIECE && pos.PieceOn(SQ_C8) == NO_PIECE && pos.PieceOn(SQ_D8) == NO_PIECE {
          if !pos.IsAttacked(from, them) && !pos.IsAttacked(SQ_D8, them) && !pos.IsAttacked(SQ_C8, them) {
            list.Add(NewMove(from, SQ_C8, CASTLING, KNIGHT));
            return;
          }
        }
      }
    }
    assert list.Contents() + [] == list.Contents();
  }
}
