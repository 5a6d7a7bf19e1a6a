# ClercX and its game driver, modelled in Dafny

The repository has two parts. `play.py` is a Python driver that runs one or two
UCI chess engines, asks them for moves, and keeps a small 8x8 letter grid so a
person can follow the game. The rest is a small C++ chess engine (ClercX). This
project models the deterministic core of both parts and proves properties of
that model:

- **Driver.**
  - `board_init`, `algebraic_to_coords` and `apply_move` (castling, en-passant
    removal, relocation, promotion, the new en-passant square).
  - The `position`/`go` command strings that `get_bestmove` builds.
  - `get_bestmove`'s rule for deciding which engine output line carries the
    move: `bestmove`, or the fastchess token heuristic.
- **Engine encodings.**
  - The piece, square and 16-bit move encodings.
  - The bitboard helpers and the non-magic attack tables.
- **Engine position.** `Position`: a mailbox, colour and type bitboards and a
  stack of `StateInfo` records kept in step. The model covers
  `put_piece`/`remove_piece`, `make_move`/`unmake_move`, null moves, the
  pseudo-legality, repetition and insufficient-material tests, and the FEN
  reader.
- **Move generation.** `generate<T>` into the fixed 256-slot `MoveList`.
- **Tables and search helpers.**
  - The transposition table.
  - The Syzygy result cache and the tablebase guards.
  - The move picker's scoring and selection by maximum, and the static exchange
    value `see`.
- **Evaluation and options.**
  - Mate-score formatting.
  - The tapered evaluation's integer terms.
  - UCI options and the tuning-parameter map.
- **UCI loop and PRNG.**
  - The per-line parser of the UCI loop: `setoption`, `position`, `go`, and
    matching move strings to generated moves.
  - The xorshift PRNG.

## How the model is built

- **Integers.**
  - Values are unbounded `int`/`nat`.
  - Where the engine relies on a width, that width is written out:
    - `Word16` for moves;
    - `U64` with explicit `% 2^64` for keys and the PRNG;
    - int8 truncation in the Syzygy cache;
    - `INT_MIN..INT_MAX` for `std::stoi`.
  - Divisions that C++ truncates toward zero use `TruncDiv`.
- **Bitboards.** A `uint64_t` bitboard is modelled as the set of its set bits'
  indices (`Bitboards.Bitboard = set<Sq>`). The shifts, `~`, `&`, `|`,
  `bb - 1`, `lsb`, `msb` and `pop_lsb` are exact set definitions.
- **Imperative state.** Code that updates state in place is modelled as
  classes with `modifies` frames:
  - `Positions.Position`, `MoveGen.MoveList`, `TT.TranspositionTable`,
    `Search.MovePicker`, `Syzygy.TBCache`, `Syzygy.Tablebases`,
    `UciOption.OptionsMap`, `Tune.Registry`, `Prng.PRNG` and
    `Attacks.AttackTables`;
  - the driver's `apply_move` works on an `array2<char>`.
- **Specifications.** Each method is proved against a pure function, for
  example `Board.MovedBoard`, `MoveGen.Generated`, `Tracker.Applied` or
  `Uci.GoLoop`. The lemmas state what those functions mean.
- **Streams.**
  - `std::istringstream` is a `CppText.Stream`, and `>>` is `ReadWord`/`ReadInt`.
  - Python's `str` methods are in `PyText`: `strip` and `split` use Python's
    full whitespace set, and the case and digit tests work on ASCII.
  - The engine's output, as seen by the driver, is an explicit sequence of lines.
- **Inputs as parameters.**
  - The Zobrist key tables are an abstract `Board.Keys` parameter.
  - The evaluation weights are an `Evaluation.Weights` parameter.
  - The tablebase files present are a count.

The driver's grid can fail on an en-passant capture (play.py:165-166). For
black the captured pawn is taken from row `tr + 1`, so a black pawn arriving on
row 7 indexes `board[8]` and raises IndexError (`Tracker.EnPassantOffGridFails`).
For white arriving on row 0, `board[-1]` wraps to row 7 as Python negative
indexing does (`Tracker.Wrap`).

Other behaviours of the code that the model keeps:

- The UCI loop keeps the previous line's command word when a line is empty
  (`Uci.BlankLineRepeats`).
- `position moves ...` without `startpos`/`fen` plays the moves on the current
  position.
- `unmake_move` always decrements `history_index`.
- `setoption` writes to the tuning parameters and resizes the table for
  `Hash`. It does not touch the UCI option map.
- `Options[name] = v` for a name that is not registered inserts a default
  button (`UciOption.OptionsMap.Set`).

## Model

| member | source | states |
|---|---|---|
| Types.Opponent | include/types.h:8-10 | the other colour differs from the given one |
| Types.SquareAt | include/types.h:22-32 | square rank * 8 + file lies on that rank and file |
| Types.Coords | include/types.h:22-32 | every square 0..63 is 8 * rank + file with rank and file in 0..7 (SQ_A1 = 0, SQ_H8 = 63) |
| Types.MakePiece | include/types.h:39-49 | make_piece(c, pt) is a piece below PIECE_NB whose type_of is pt and whose color_of is c |
| Types.PieceDecomposes | include/types.h:39-49 | every real piece is make_piece of its own colour and type |
| Types.PieceColorRanges | include/types.h:16-20 | white pieces are exactly 0..5, black pieces 6..11, and NO_PIECE (13) has colour 2, which is no colour |
| Types.DirectionValues | include/types.h:34-37 | the eight directions are exactly the eight enum values, each with its rank and file step |
| Types.DirectionStep | include/types.h:34-37 | a direction step that stays on the board moves by its rank and file step (NORTH/SOUTH ±8, EAST/WEST ±1, diagonals ±7/±9) |
| Moves.NewMove | include/move.h:13-20 | a constructed move reads back its from, to, type and promotion piece |
| Moves.Move.From | include/move.h:17 | `from()` is the low six bits of the word, a square 0..63 |
| Moves.Move.To | include/move.h:18 | `to()` is bits 6 to 11 of the word, a square 0..63 |
| Moves.Move.Type | include/move.h:19 | `type()` is bits 12 and 13, one of NORMAL, PROMOTION, EN_PASSANT and CASTLING |
| Moves.Move.PromotionPiece | include/move.h:20 | `promotion_piece()` is bits 14 and 15 plus KNIGHT, always a knight, bishop, rook or queen |
| Moves.NoMoveIsA1A1 | include/move.h:12-27 | Move::none() is the move a1-a1 with the default type and promotion |
| Moves.MoveDetermined | include/move.h:13-20 | every 16-bit word re-packs from its four fields to itself |
| Moves.MoveEquality | include/move.h:22-23 | two moves are equal exactly when their four fields are |
| Types.TypeOf | include/types.h:43-45 | `type_of` is the piece number mod 6; with Types.PieceDecomposes it gives back the type a real piece was made from |
| Types.ColorOf | include/types.h:47-49 | `color_of` is the piece number divided by 6: 0 for white, 1 for black and 2 for NO_PIECE (Types.PieceColorRanges) |
| Bits.DisjointOr | include/move.h:14 | OR of a value below 2^k with a multiple of 2^k is their sum, so the shifted move fields do not overlap |
| Bits.LowMask | src/syzygy/tbprobe.cpp:102 | AND with 2^k - 1 keeps the value modulo 2^k (the `& 0x3F` and `& mask` extractions) |
| Bits.SingleBit | include/bitboard.h:9-11 | `a & (1 << i)` is nonzero exactly when bit i of a is set |
| Bits.BitAndBits | include/position.h:28 | bit i of `a & b` is set exactly when it is set in both |
| Bits.BitOrBits | src/position.cpp:249-258 | bit i of `a \| b` is set exactly when it is set in either |
| Bits.XorCancel | src/position.cpp:32-47 | XOR-ing the same key twice restores the value |
| Bits.XorAssoc | src/position.cpp:32-47 | XOR is associative, so key updates may be regrouped |
| Bits.XorBound | src/position.cpp:32-47 | XOR keeps 64-bit keys within 64 bits |
| Bitboards.SquareBB | include/bitboard.h:9-11 | square_bb(s) has exactly one set bit, at s |
| Bitboards.Complement | src/movegen.cpp:11 | a square is in `~b` exactly when it is not in b |
| Bitboards.Shl | src/bitboard.cpp:95-115 | bit t of `b << k` is bit t - k of b, with the bits shifted past 63 dropped |
| Bitboards.Shr | src/bitboard.cpp:95-115 | bit t of `b >> k` is bit t + k of b |
| Bitboards.ShiftedFileA | src/bitboard.cpp:96 | `FileABB << k` is file k |
| Bitboards.Lsb | include/bitboard.h:13-16 | lsb is SQ_NONE exactly for the empty board, otherwise the lowest member |
| Bitboards.Msb | include/bitboard.h:18-20 | msb of a nonzero board is its highest member |
| Bitboards.ClearLowest | include/bitboard.h:24 | `bb & (bb - 1)` clears exactly the lowest set bit and leaves 0 at 0 |
| Bitboards.Count | include/bitboard.h:28-30 | the population count is at most 64 |
| Bitboards.PopLsb | include/bitboard.h:22-26 | pop_lsb returns lsb(bb) and clears exactly that bit, leaving an empty board empty; the count drops by one |
| Bitboards.AscendingMembers | include/bitboard.h:22-26 | repeated pop_lsb hands out exactly the squares of the board |
| Bitboards.AscendingPop | include/bitboard.h:22-26 | popping the lowest square leaves the ascending order of the rest |
| Bitboards.SquareColours | include/bitboard.h:32-34 | is_light_square holds exactly when rank + file is odd: a1 is dark, h1 and a8 light, and neighbours alternate |
| Attacks.EdgeMeansOffBoard | src/bitboard.cpp:34-42 | the eight break tests hold exactly when one more step would leave the board, and a step that passes them gets closer to the edge |
| Attacks.RayStep | src/bitboard.cpp:44-46 | a ray is the next square alone when that square is occupied, and the next square plus the ray from it otherwise |
| Attacks.WalkRay | src/bitboard.cpp:33-47 | the inner walk of sliding_attack returns the ray in direction d |
| Attacks.SlidingAttack | src/bitboard.cpp:29-50 | sliding_attack returns the union of the rays of its directions |
| Attacks.SlidingAttacksAppend | src/bitboard.cpp:31-48 | the sliding attack of two direction lists is the union of their sliding attacks |
| Attacks.QueenIsEightDirections | src/bitboard.cpp:182-184 | queen_attacks is the slider over all eight directions |
| Attacks.LineCoords | src/bitboard.cpp:33-47 | k steps along a line change rank and file by k times the direction's steps, so no ray wraps across a file or rank edge |
| Attacks.LineLeavesOrigin | src/bitboard.cpp:33-47 | no step along a line returns to its origin |
| Attacks.RayOnLine | src/bitboard.cpp:33-47 | every square of a ray lies on the geometric line from the origin |
| Attacks.RayMember | src/bitboard.cpp:44-46 | the square k steps along is in the ray exactly when every square before it is empty: the first occupied square is included and the walk stops there |
| Attacks.SlidingExcludesOrigin | src/bitboard.cpp:29-50 | the origin square is never in a sliding attack |
| Attacks.SquareGuard | src/bitboard.cpp:95-114 | the guards `b & ~m` and `b & m` test exactly whether the square lies outside or inside m |
| Attacks.PawnGeometry | src/bitboard.cpp:94-100 | the pawn masks hold exactly the two diagonal squares one rank forward for the pawn's colour, without wrapping |
| Attacks.KnightGeometry | src/bitboard.cpp:102-107 | the guarded knight shifts give exactly the knight leaps, without wrapping |
| Attacks.KingGeometry | src/bitboard.cpp:109-115 | the king mask holds exactly the up-to-eight neighbours, not the square itself, without wrapping |
| Attacks.KingMaskGuards | src/bitboard.cpp:113-114 | the two file guards remove exactly the targets that wrapped to the far file |
| Attacks.MasksAreAttacks | src/bitboard.cpp:94-115 | the shift formulas of init equal the geometric pawn, knight and king attack sets |
| Attacks.SquareMasks | src/bitboard.cpp:91-115 | one iteration of the square loop computes the four attack sets of that square |
| Attacks.AttackTables.constructor | src/bitboard.cpp:9-11 | the three global tables exist with their shapes (2x64, 64, 64) before init fills them |
| Attacks.AttackTables.Init | src/bitboard.cpp:90-116 | after init every table entry holds the attack set of its square |
| Attacks.RookAttacks | src/bitboard.cpp:177-180 | the rook's attack over the occupancy is the sliding attack along the four orthogonal directions, the idealised table lookup |
| Attacks.BishopAttacks | src/bitboard.cpp:172-175 | the bishop's attack over the occupancy is the sliding attack along the four diagonals, the idealised table lookup |
| Attacks.QueenAttacks | src/bitboard.cpp:182-184 | queen_attacks is the union of the rook and bishop attacks (all eight directions by Attacks.QueenIsEightDirections) |
| Board.SetsAfterWrite | src/position.cpp:32-47 | writing a piece on a square changes the colour and type sets at that square only |
| Board.PutMatches | src/position.cpp:32-38 | setting the square's bit in its piece's colour and type bitboards keeps them matching the mailbox after put_piece |
| Board.RemoveMatches | src/position.cpp:40-47 | clearing the square's bit in its piece's colour and type bitboards keeps them matching the emptied square after remove_piece |
| Board.EmptyBoardSets | src/position.cpp:13-16 | the cleared board has no pieces of any colour or type |
| Board.PiecesOfSets | include/position.h:28 | the squares of make_piece(c, pt) are `color_bb[c] & type_bb[pt]` |
| Board.OccupiedSets | include/position.h:29 | the occupied squares are the union of the two colour bitboards |
| Board.BoardKeyWrite | src/position.cpp:37-46 | writing one square changes the board key by the old and the new piece key of that square |
| Board.EmptyBoardKey | src/position.cpp:23 | the cleared board contributes no key |
| Board.KeyGapZero | src/position.cpp:275-323 | the stored key's gap is zero exactly when it is the key of the position |
| Board.WriteKeepsBoardGap | src/position.cpp:32-47 | XOR-ing the old and new piece keys while writing a square keeps the key's gap to the board key |
| Board.MakeKeepsGap | src/position.cpp:275-323 | make_move's key updates keep the stored key's gap to the key of the new position |
| Board.NullKeepsGap | src/position.cpp:381-385 | make_null_move's key updates keep the gap with the side flipped and no en-passant square |
| Board.CastlePermValue | src/position.cpp:249-258 | CastlePerm is 15 except 13 on a1, 12 on e1, 14 on h1, 7 on a8, 3 on e8 and 11 on h8 |
| Board.CastlePermBits | src/position.cpp:249-258 | bits 0..3 of each CastlePerm entry are set except the rights its square clears |
| Board.CastlePermEffect | src/position.cpp:280-281 | `castle_rights &= CastlePerm[s]` never grows the rights, drops the rights of a rook's corner or king's square and keeps every other right |
| Board.MovedBoardNormal | src/position.cpp:291-316 | a normal move or promotion empties from, puts the mover (or the promoted piece) on to, and changes no other square |
| Board.MovedBoardEnPassant | src/position.cpp:295-299 | en passant moves the pawn and empties the victim's square one rank behind the destination |
| Board.MovedBoardCastling | src/position.cpp:303-313 | castling puts the king on to and moves the rook H1->F1, A1->D1, H8->F8 or A8->D8 |
| Board.MadeEp | src/position.cpp:282-321 | the recorded en-passant square is set only after a pawn's 16-square move |
| Board.MadeState | src/position.cpp:270-287 | the pushed record has the rights masked by CastlePerm of both squares, the clock reset by a pawn move or capture (advanced otherwise), and the captured piece |
| Board.MadeIsUnmakeSafe | src/position.cpp:332-374 | after make_move, the board meets what unmake_move needs, with the recorded capture |
| Board.UnmakeRestoresBoard | src/position.cpp:332-374 | unmake_move right after make_move restores the mailbox, en-passant victims and promotions included |
| Board.MovedBoard | src/position.cpp:260-330 | the mailbox after make_move; its effect per move type is stated by Board.MovedBoardNormal, Board.MovedBoardEnPassant and Board.MovedBoardCastling |
| Positions.Position.constructor | src/position.cpp:9-11 | a new position is the cleared one |
| Positions.Position.Clear | src/position.cpp:13-30 | clear leaves an empty board and bitboards, white to move, one record with no rights, no en-passant square, clock 0 and key 0, history index 0 and the history zeroed |
| Positions.Position.SetFen | src/position.cpp:401-457 | set_fen puts the placement's pieces on a cleared board and takes the side, castling rights, en-passant square and halfmove clock from the fields; the key is the full key of that position and the history restarts with it |
| Positions.Position.SetFields | src/position.cpp:409-457 | set_fen after the fields are read: the same final state as SetFen |
| Positions.Position.ReadState | src/position.cpp:435-453 | side is WHITE exactly for "w", the rights are the castling fold, the en-passant square is read from its field, the clock is the halfmove field, and the key becomes the full key |
| Positions.Position.StartHistory | src/position.cpp:455-456 | the history restarts with the current key at index 0 and history_index 1 |
| Positions.Position.CastleRights | src/position.cpp:438-443 | the castling loop ORs in 1, 2, 4 and 8 for K, Q, k and q and stays below 16 |
| Positions.Position.PlacePieces | src/position.cpp:409-433 | the placement loop leaves the board the FEN placement describes, with the key of those pieces |
| Positions.Position.PlaceChar | src/position.cpp:411-431 | one placement character: '/' drops a rank to file 0, a digit skips files, a letter puts its piece and moves one file on, anything else is skipped |
| Positions.Position.ColorPieces | include/position.h:26 | pieces(c) holds exactly the squares of c's pieces |
| Positions.Position.Pieces | include/position.h:28 | pieces(c, pt) holds exactly the squares of make_piece(c, pt) |
| Positions.Position.AllPieces | include/position.h:29 | all_pieces holds exactly the occupied squares |
| Positions.Position.Hash | include/position.h:34 | hash() is the current record's key, which is the key of the position while the gap is zero |
| Positions.Position.PieceOn | include/position.h:31 | `piece_on(s)` is the mailbox entry of s, NO_PIECE on an empty square |
| Positions.Position.PutPiece | src/position.cpp:32-38 | put_piece writes the piece, keeps the bitboards matching the mailbox and XORs the piece key into the current record only |
| Positions.Position.RemovePiece | src/position.cpp:40-47 | remove_piece empties the square, keeps the bitboards matching and XORs the piece key out |
| Positions.Position.MovePieces | src/position.cpp:291-316 | the piece moves of make_move leave the moved board and record the capture, en-passant victim included |
| Positions.Position.LiftPieces | src/position.cpp:291-299 | the mover and any capture are taken off the board |
| Positions.Position.DropPieces | src/position.cpp:301-316 | the arriving piece is put on to, and for castling the rook is moved |
| Positions.Position.MakeMove | src/position.cpp:260-330 | make_move pushes one record (rights masked, clock reset or advanced, capture and en-passant square recorded), moves the pieces, flips the side, keeps the key's gap to the position's key, and appends the key to the history only while history_index < 1024 |
| Positions.Position.PushState | src/position.cpp:270-289 | the pushed record copies the current one with the capture, the old castling, en-passant and side keys XOR-ed out, the rights masked, no en-passant square and the clock advanced or reset |
| Positions.Position.FinishMove | src/position.cpp:318-329 | the en-passant square of a double pawn step and its key, the new castling key, the side flipped, and the key appended while there is room |
| Positions.Position.UnmakeMove | src/position.cpp:332-374 | unmake_move steps history_index back, flips the side, puts the pieces back and pops the record |
| Positions.Position.UnmakePieces | src/position.cpp:340-371 | the pieces of unmake_move are restored, with the recorded capture back on its square |
| Positions.Position.LiftBack | src/position.cpp:340-359 | the piece on to is lifted and, for castling, the rook moved back |
| Positions.Position.ReturnPieces | src/position.cpp:361-371 | the moved piece goes back on from (a pawn after a promotion, a king after castling) and the capture back on to or the victim's square |
| Positions.Position.MakeThenUnmake | src/position.cpp:260-374 | make_move then unmake_move restores the board, bitboards, side and record stack and the key's gap; history_index comes back unless it was 1024, where it ends at 1023 |
| Positions.Position.MakeNullMove | src/position.cpp:376-393 | make_null_move pushes a copy with the side and en-passant keys XOR-ed out, no en-passant square and the clock advanced; flips the side; the board does not change |
| Positions.Position.UnmakeNullMove | src/position.cpp:395-399 | unmake_null_move steps history_index back, flips the side and pops the record |
| Positions.Position.IsAttacked | src/position.cpp:49-57 | is_attacked holds exactly when some piece of the attacker attacks the square |
| Positions.Position.IsPseudoLegal | src/position.cpp:103-172 | is_pseudo_legal agrees with the pseudo-legality predicate on the mover, the destination and the move's pattern |
| Positions.Position.PawnPseudoLegal | src/position.cpp:115-136 | the pawn branch: push, double push from the start rank, capture or en-passant capture |
| Positions.Position.PawnStepPseudoLegal | src/position.cpp:117-127 | the NORMAL and PROMOTION pawn moves: single push onto an empty square, double push over two empty squares, diagonal capture or step onto the en-passant square |
| Positions.Position.CastlePseudoLegal | src/position.cpp:138-161 | castling needs the right's bit and the squares between king and rook empty |
| Positions.Position.PiecePseudoLegal | src/position.cpp:163-171 | knights, sliders and kings reach to with their attack set |
| Positions.Position.IsRepetition | src/position.cpp:66-77 | is_repetition holds exactly when two history entries at history_index - 2, - 4, ..., within the halfmove window, equal the current key; those are the positions 1, 3, 5, ... plies back |
| Queries.RepetitionAsWritten | src/position.cpp:66-77 | the scan as written reports a repetition exactly when two earlier in-window entries with the other side to move hold the current key |
| Queries.RepetitionIntended | src/position.cpp:66-77 | a scan from history_index - 3 over the full halfmove window reports exactly two earlier occurrences of the current key with the same side to move |
| Queries.RepetitionMissed | src/position.cpp:66-77 | knights out and back twice from the start: a threefold repetition the scan as written misses and the intended scan finds |
| Queries.SideParity | src/position.cpp:326-328 | the entries make_move appends alternate sides, so entries an even distance apart share the side to move |
| Positions.Position.IsInsufficientMaterial | src/position.cpp:79-101 | is_insufficient_material holds exactly for the engine's three material cases |
| Positions.Position.IsDraw | src/position.cpp:59-64 | is_draw is the fifty-move rule, a repetition or insufficient material |
| Queries.AttackerSquare | src/position.cpp:51-55 | one square attacks the target exactly when it lies in one of is_attacked's five intersections |
| Queries.PawnMirror | src/position.cpp:51 | a pawn of c on t attacks s exactly when a pawn of the other colour on s would attack t |
| Queries.AttackedWitness | src/position.cpp:49-57 | some intersection of is_attacked is nonempty exactly when some piece of the attacker attacks the square |
| Queries.PawnTarget | src/position.cpp:123-132 | `pawn_attacks(from, c) & square_bb(to)` is nonzero exactly for the two diagonal squares ahead |
| Queries.PseudoLegalIsMakeSafe | src/position.cpp:103-172 | a pseudo-legal normal move or promotion meets what make_move needs |
| Queries.MatchesOne | src/position.cpp:70-75 | the scan counts a hit exactly when one exists |
| Queries.MatchesTwo | src/position.cpp:67-77 | the count reaches two exactly when two distinct hits exist |
| Queries.BishopPair | src/position.cpp:89-98 | two bishops, one per side, with same-coloured lowest squares, means exactly one bishop each on same-coloured squares |
| Queries.PairFromCount | src/position.cpp:90-93 | with two bishops in all and one of each colour, the lowest white and black bishops are the only ones |
| Queries.MaterialCases | src/position.cpp:79-101 | insufficient material is exactly: 2 pieces; 3 pieces with a knight or bishop; 4 pieces with one bishop each on same-coloured squares |
| Fen.FenPieceLetters | src/position.cpp:415-428 | exactly the twelve letters PNBRQKpnbrqk name pieces, each its own piece |
| Fen.PlaceFits | src/position.cpp:409-433 | a placement whose letters stay on their ranks within files a-h never puts two pieces on one square |
| Fen.TrackAppend | src/position.cpp:410-433 | walking a + b is walking a and then b |
| Fen.CastleFoldBits | src/position.cpp:438-443 | right i is set after the castling field exactly when it was set before or its letter occurs |
| Fen.OnlyBit | src/position.cpp:439-442 | each castling letter ORs in only its own right's bit |
| Fen.EpFieldOfName | src/position.cpp:446-449 | a square's name, file letter then rank digit, reads back as that square |
| MoveGen.MoveList.constructor | include/movegen.h:14-16 | a new list holds no moves |
| MoveGen.MoveList.Add | include/movegen.h:18 | add writes the move at index count and increments count, leaving entries 0..count-1 unchanged; it needs count < 256 |
| MoveGen.MoveList.Size | include/movegen.h:19-21 | size() equals the number of moves between begin() and end() |
| MoveGen.MoveList.Get | include/movegen.h:22-23 | operator[](i) is the i-th move of the list |
| MoveGen.OnRank | src/movegen.cpp:16-17 | a square meets the rank mask 0xFF00 or 0x00FF000000000000 exactly when it stands on rank 2 or 7 |
| MoveGen.TargetsFor | src/movegen.cpp:11 | the target mask is the enemy pieces for CAPTURES, the empty squares for QUIETS and the squares without own pieces for ALL |
| MoveGen.Generate | src/movegen.cpp:5-165 | generate<T> appends exactly the generated moves of the position (pawns, then knights, bishops, rooks, queens, then the king) |
| MoveGen.GeneratePawnsAndPieces | src/movegen.cpp:13-115 | the pawn loop and the four piece loops append their moves in order |
| MoveGen.GenerateOfficers | src/movegen.cpp:77-115 | the knight, bishop, rook and queen loops append each piece's moves onto the target mask |
| MoveGen.GeneratePawns | src/movegen.cpp:22-75 | the pawn loop appends each pawn's moves, lowest square first |
| MoveGen.GeneratePawn | src/movegen.cpp:23-74 | one pawn's pushes, then its captures, then its en-passant capture |
| MoveGen.GenerateEnPassant | src/movegen.cpp:68-74 | the EN_PASSANT move is added when the pawn attacks the en-passant square and the mode is not QUIETS |
| MoveGen.GeneratePushes | src/movegen.cpp:26-50 | no push in CAPTURES mode or when blocked; four promotions from the seventh rank; else the single push and the double push |
| MoveGen.GenerateDoublePush | src/movegen.cpp:38-47 | the double push is added only from the start rank and only when both squares ahead are empty |
| MoveGen.AddPromotions | src/movegen.cpp:31-62 | a promoting pawn move appends exactly four promotions, queen, rook, bishop, knight |
| MoveGen.AddCaptures | src/movegen.cpp:52-66 | each capture square, lowest first, is appended as a normal move or four promotions |
| MoveGen.AddTargets | src/movegen.cpp:82-84 | each attacked target, lowest first, is appended as a normal move |
| MoveGen.GeneratePieces | src/movegen.cpp:78-85 | the loop over one piece type appends each piece's target moves |
| MoveGen.GenerateKing | src/movegen.cpp:117-164 | the king on the lowest square of its set adds its steps and then, unless in CAPTURES mode, castling |
| MoveGen.GenerateCastling | src/movegen.cpp:126-163 | the castling block adds the king-side then the queen-side move |
| MoveGen.CastleKing | src/movegen.cpp:131-154 | king-side castling is added only with the right, F and G empty, and the king's square, F and G unattacked |
| MoveGen.CastleQueen | src/movegen.cpp:139-161 | queen-side castling is added only with the right, B, C and D empty, and the king's square, D and C unattacked |
| GeneratedMoves.PushesSound | src/movegen.cpp:26-50 | every push and push promotion is pseudo-legal and never a CAPTURES-mode move |
| GeneratedMoves.CapturesSound | src/movegen.cpp:52-66 | every pawn capture is pseudo-legal and captures an enemy piece |
| GeneratedMoves.EnPassantSound | src/movegen.cpp:68-74 | the en-passant capture is pseudo-legal |
| GeneratedMoves.PawnMovesSound | src/movegen.cpp:22-75 | every pawn move is sound |
| GeneratedMoves.TargetFacts | src/movegen.cpp:11 | a target never holds an own piece, and in CAPTURES mode holds an enemy piece |
| GeneratedMoves.TargetMovesSound | src/movegen.cpp:79-124 | every target move of a knight, slider or king is pseudo-legal |
| GeneratedMoves.PieceMovesSound | src/movegen.cpp:77-115 | every move of one piece type is sound |
| GeneratedMoves.OfficersSound | src/movegen.cpp:77-115 | every knight, bishop, rook and queen move is sound |
| GeneratedMoves.KingSideChecked | src/movegen.cpp:131-138 | a king-side castling move was added only after its right, empty squares and safe path were checked |
| GeneratedMoves.QueenSideChecked | src/movegen.cpp:139-146 | a queen-side castling move was added only after its right, empty squares and safe path were checked |
| GeneratedMoves.KingSound | src/movegen.cpp:117-164 | every king step and castling move is sound |
| GeneratedMoves.GeneratedSound | src/movegen.cpp:5-165 | every generated move in every mode is sound |
| GeneratedMoves.GeneratedArePseudoLegal | src/movegen.cpp:14-123 | every generated move passes is_pseudo_legal, so its from-square holds a piece of the side to move |
| GeneratedMoves.CapturesAreCaptures | src/movegen.cpp:11-129 | CAPTURES mode emits only captures and en passant: no pushes, no castling |
| GeneratedMoves.CastlingGuarded | src/movegen.cpp:129-162 | castling is emitted only outside CAPTURES mode, with the right held, the squares between empty and the king's path unattacked |
| TT.ToInt16 | src/tt.cpp:79 | `static_cast<int16_t>` wraps modulo 2^16 into -32768..32767 and keeps values already in range |
| TT.ToInt8 | src/tt.cpp:80-81 | `static_cast<int8_t>` wraps modulo 2^8 into -128..127 and keeps values already in range |
| TT.ToUInt8 | src/tt.cpp:44 | the 8-bit generation wraps modulo 256 and keeps values already in range |
| TT.AdjustedScore | src/tt.cpp:54-55 | scores above 29000 are stored as score + ply, below -29000 as score - ply, others unchanged |
| TT.Written | src/tt.cpp:75-82 | a replacing store writes the key, the move (the old one when the new is Move::none), the truncated score, depth and flag, and the generation |
| TT.StoreSpec | src/tt.cpp:57-83 | store changes only the entry at key % entry_count, and that one exactly when the replacement policy says so |
| TT.ProbeSpec | src/tt.cpp:89-96 | probe finds exactly when the entry at key % entry_count has that key, and then copies it; otherwise the caller's entry is untouched |
| TT.StoreThenProbe | src/tt.cpp:77-94 | after a replacing store, probe(key) yields the stored move, score, depth, flag and generation |
| TT.StoreKeepsOtherKeys | src/tt.cpp:57-58 | probing a key of another slot is not affected by a store |
| TT.NullMoveKeepsMove | src/tt.cpp:75 | storing Move::none keeps the entry's previous move |
| TT.EntryCount | src/tt.cpp:24-25 | entry_count is size_mb megabytes divided by the 16-byte entry size, in 64-bit size_t arithmetic |
| TT.TranspositionTable.constructor | src/tt.cpp:9-11 | the constructor resizes: a zeroed table of entry_count entries when the allocator returns one, generation 0 |
| TT.TranspositionTable.Resize | src/tt.cpp:17-36 | resize allocates entry_count zeroed entries (or none) and resets the generation |
| TT.TranspositionTable.Clear | src/tt.cpp:38-41 | clear zeroes every entry when there is a table and sets generation to 0 |
| TT.TranspositionTable.NewSearch | src/tt.cpp:43-45 | new_search increments the 8-bit generation |
| TT.TranspositionTable.Store | src/tt.cpp:51-84 | store is a no-op without a table and otherwise leaves the table as StoreSpec says |
| TT.TranspositionTable.Probe | src/tt.cpp:86-97 | probe returns false without a table and otherwise reports ProbeSpec |
| Search.PieceValueOrder | src/search.cpp:58 | the corrected values rise from pawn (100) to queen (975), knight equal to bishop, and the king is worth 0 |
| Search.MaterialWrite | src/search.cpp:60-88 | writing one square changes a side's material by the difference of the two pieces' worths |
| Search.LiftedMaterial | src/position.cpp:290-294 | lifting the mover and the captured piece takes their worths off the material |
| Search.MovedMaterial | src/position.cpp:300-315 | after a normal move or promotion, the arriving piece's worth is added back |
| Search.SeeIsMaterialSwing | src/search.cpp:60-88 | see is 0 for castling and en passant; otherwise it is the captured piece's value (0 on an empty square) plus the promotion's value less a pawn's, which is the material make_move moves to the mover |
| Search.PieceValueShifted | src/search.cpp:58 | the table as written is one slot off: a pawn is worth 0 and each other piece what the piece below it should be, so see of a pawn taking a pawn reads 0 instead of 100 |
| Search.CaptureScoreRange | src/search.cpp:122-127 | every capture scores between the first killer's 90000 and the queen promotion's 1000000 |
| Search.ScoreFollowsPriority | src/search.cpp:118-135 | the hash move (2000000), queen promotions (1000000), captures (100000 + 10 * victim - attacker), killers (90000, 80000) and quiet moves are strictly ordered by score, given history values below 80000 |
| Search.MostValuableVictimFirst | src/search.cpp:126 | with the corrected one-value-per-type table, among captures the more valuable victim scores higher, and for equal victims the cheaper attacker |
| Search.ListScoresAt | src/search.cpp:151-154 | entry i of the scores is -1 for the hash move and score(moves[i]) otherwise |
| Search.ListedHashStaysLive | src/search.cpp:152 | a hash move found in the list is scored -1, above the consumed mark |
| Search.PickUnique | src/search.cpp:159-166 | the first strict maximum is unique |
| Search.PickExists | src/search.cpp:159-172 | there is a pick exactly when some score is above the consumed mark -10000000 |
| Search.FirstMax | src/search.cpp:159-166 | the first index of the maximum: everything before it is smaller and nothing after it is larger |
| Search.ConsumeLowersLive | src/search.cpp:170 | consuming a live score lowers the number of live scores by one |
| Search.NoneLive | src/search.cpp:168-175 | no live score is left exactly when every score is consumed |
| Search.SelectBest | src/search.cpp:159-166 | the selection loop returns the first index with the strictly greatest score above -10000000, or -1 when every score is consumed |
| Search.MovePicker.constructor | src/search.cpp:107-116 | a new picker is in phase 0 with nothing generated |
| Search.MovePicker.Score | src/search.cpp:118-135 | score(m) is the hash-move, queen-promotion, MVV/LVA capture (over the corrected table), killer or history score in that priority |
| Search.MovePicker.ScoreMoves | src/search.cpp:151-154 | the scoring loop fills the first count scores with the list scores and leaves the rest |
| Search.MovePicker.Prepare | src/search.cpp:148-155 | phase 1 generates every move and scores the list, moving to phase 2 |
| Search.MovePicker.Select | src/search.cpp:158-175 | phase 2 yields the move at the first strict maximum, consumes its score and records the index; with none live it returns false |
| Search.MovePicker.Next | src/search.cpp:137-176 | next yields a pseudo-legal hash move first; otherwise generates and scores once and runs one selection step, so each index is returned at most once and false comes once every score is consumed |
| Search.See | src/search.cpp:60-87 | with one value per type: 0 for castling and en passant; a normal move gains the captured piece's value (0 to empty, at most a queen's); a promotion to an empty square gains the promoted piece's value less a pawn's |
| Search.SeeAsWritten | src/search.cpp:58-87 | reading the seven-value table: 0 for castling and en passant, 0 for taking a pawn, and the value of the next-lower type for any other capture |
| Search.MoveScore | src/search.cpp:118-135 | MovePicker::score's priority classes over the corrected table: hash move, queen promotion, MVV/LVA capture, the two killers, then history (ordered by Search.ScoreFollowsPriority) |
| Search.MoveScoreAsWritten | src/search.cpp:118-135 | MovePicker::score with `PieceValue` read as its seven initialisers are written, victim and attacker each valued as the type below |
| Search.VictimOrderAsWritten | src/search.cpp:126 | as written, a bishop victim scores 2250 above a knight victim with the same attacker, while the corrected table scores them alike; a pawn's en-passant capture scores 101000 as written and 103150 corrected |
| Evaluation.TermLaws | src/evaluate.cpp:107-114 | adding and subtracting terms is componentwise, so addition commutes and associates, subtraction undoes addition and the default term is neutral |
| Evaluation.QuotBetween | src/evaluate.cpp:283 | the truncating division by 24 of a value between 24 * lo and 24 * hi lies between lo and hi |
| Evaluation.Mirror56 | src/evaluate.cpp:227 | `(8 * rank + file) ^ 56` is the square of the same file on rank 7 - rank |
| Evaluation.Mirror | src/evaluate.cpp:227 | `s ^ 56` keeps the file and mirrors the rank |
| Evaluation.MirrorTwice | src/evaluate.cpp:227 | mirroring twice gives back the square |
| Evaluation.MobilityCounts | src/evaluate.cpp:239-250 | mobility is the number of squares the knight, bishop, rook or queen attacks that hold no piece of its own side |
| Evaluation.PhaseCount | src/evaluate.cpp:234-236 | a side's phase is 1 per knight and bishop, 2 per rook and 4 per queen |
| Evaluation.InterpolateBetween | src/evaluate.cpp:280-288 | the blended value lies between the end-game and middle-game values plus the tempo, equals the middle-game value plus 20 once the phase reaches 24 and the end-game value plus 20 at phase 0 |
| Evaluation.WeightedBetween | src/evaluate.cpp:283 | a blend with weights adding up to 24 lies between 24 times the bounds of the blended values |
| Evaluation.FileMaskSquares | src/evaluate.cpp:179-187 | `0x0101010101010101 << f` holds exactly the squares of file f |
| Evaluation.IsolatedMask | src/evaluate.cpp:178-182 | the adjacent-files test is empty exactly when no own pawn stands on a neighbouring file |
| Evaluation.DoubledMask | src/evaluate.cpp:187-188 | the file test minus the pawn's own square is non-empty exactly when another own pawn shares the file |
| Evaluation.PawnTermMeaning | src/evaluate.cpp:182-191 | a pawn's structure term is the isolation term when isolated, plus half the doubled term (rounded toward zero) when doubled |
| Evaluation.EvalPieces | src/evaluate.cpp:225-252 | popping the pieces of one type in ascending order adds each piece's material, piece-square and mobility term and its phase weight |
| Evaluation.EvalType | src/evaluate.cpp:223-253 | one iteration of the type loop adds the term and phase of the pieces of that colour and type |
| Evaluation.EvalSide | src/evaluate.cpp:218-255 | the side lambda returns the term of every piece of c of the types from pt = 1 (KNIGHT) to KING, type by type, so no pawn is counted, and adds their phase to the captured phase |
| Evaluation.AddPawn | src/evaluate.cpp:175-191 | one pawn adds its isolated and doubled terms |
| Evaluation.EvalPawns | src/evaluate.cpp:161-199 | eval_pawns returns the structure term of every pawn of the side |
| Evaluation.Evaluate | src/evaluate.cpp:203-289 | evaluate is the blend, by the phase of all pieces, of the side to move's knight-to-king term minus the opponent's plus white's pawn structure |
| Evaluation.EvaluationIgnoresPawnValue | src/evaluate.cpp:223 | as written, evaluate returns the same value whatever the pawn material weight |
| Evaluation.PawnsTermUnchanged | src/evaluate.cpp:175-191 | the pawn-structure terms read only the isolated and doubled weights, not the pawn material weight |
| Evaluation.Blend | src/evaluate.cpp:280-286 | the last lines compute the phase interpolation plus the tempo |
| Evaluation.OtherTypesUnchanged | src/evaluate.cpp:230-231 | changing the pawn material weight leaves every other type's terms alone |
| Evaluation.PawnTermsShift | src/evaluate.cpp:230-231 | changing the pawn material weight shifts the pawns' terms by the change once per pawn |
| Evaluation.ShiftCombine | src/evaluate.cpp:230-231 | a shift of the first term plus n shifts of the rest is n + 1 shifts of the sum |
| Evaluation.HigherTypesUnchanged | src/evaluate.cpp:223 | the types from knight upwards do not depend on the pawn material weight |
| Evaluation.PawnsFirst | src/evaluate.cpp:223 | with the loop starting at PAWN, the pawns' term comes in front of the knight-to-king terms |
| Evaluation.PawnValueIgnored | src/evaluate.cpp:223 | with the loop starting at pt = 1 (KNIGHT, since PAWN is 0) the pawn material weight has no effect at all |
| Evaluation.PawnValueCounted | src/evaluate.cpp:223-231 | with the pawns counted, raising the pawn weight raises a side's term by the rise times its number of pawns |
| Evaluation.Evaluation | src/evaluate.cpp:203-289 | evaluate's value: the knight-to-king terms of the side to move minus the opponent's plus white's pawn structure, blended by phase, which Evaluation.InterpolateBetween bounds and Evaluation.EvaluationIgnoresPawnValue shows independent of the pawn weight |
| Syzygy.CacheEntriesWanted | src/syzygy/tbprobe.cpp:73 | the wanted entry count is `size_mb * 1024 * 1024 / 16` in 64-bit arithmetic, always below 2^64 / 16 |
| Syzygy.PackFromTo | src/syzygy/tbprobe.cpp:124 | the packed move is from + 64 * to, which fits 16 bits |
| Syzygy.UnpackFromTo | src/syzygy/tbprobe.cpp:102 | the unpacked move is the normal move from `move & 0x3F` to `(move >> 6) & 0x3F` |
| Syzygy.PackRoundTrip | src/syzygy/tbprobe.cpp:102-124 | packing then unpacking keeps the from and to squares; the move type and promotion become NORMAL and KNIGHT |
| Syzygy.CacheStore | src/syzygy/tbprobe.cpp:112-134 | a store rewrites only the slot at key mod size, with the key, the int8-truncated score, the packed move and the generation |
| Syzygy.CacheProbe | src/syzygy/tbprobe.cpp:88-110 | probe finds the key exactly when the slot at key mod size holds it, and then reports its score and unpacked move; otherwise the caller's values stay |
| Syzygy.CacheStoreThenProbe | src/syzygy/tbprobe.cpp:102-133 | a probe right after a store of the same key finds it with the stored from/to squares, and with the same score when it fits int8 |
| Syzygy.CacheStoreKeepsOtherSlots | src/syzygy/tbprobe.cpp:112-114 | a store does not change the probe of any key in another slot |
| Syzygy.ZeroedCacheProbe | src/syzygy/tbprobe.cpp:80-96 | on a freshly zeroed cache only key 0 is found, with score 0 and the move a1a1 |
| Syzygy.TBCache.constructor | src/syzygy/tbprobe.cpp:69 | a new cache has no entries and size, mask and generation zero |
| Syzygy.TBCache.Init | src/syzygy/tbprobe.cpp:71-82 | size becomes the least power of two at least the wanted count, mask size - 1, every entry zeroed and generation 1 |
| Syzygy.TBCache.Probe | src/syzygy/tbprobe.cpp:88-110 | probe reads the slot at `key & mask` and returns CacheProbe of the entries |
| Syzygy.TBCache.Store | src/syzygy/tbprobe.cpp:112-134 | store leaves the entries as CacheStore of the old entries |
| Syzygy.WdlToValue | src/syzygy/tbprobe.cpp:190-196 | win and loss are equal in size and opposite in sign, ply plies short of 30000, never mate scores within the search horizon (above 29000 in size); a draw, cursed win, blessed loss or any other code scores 0 |
| Syzygy.IsCaptureCases | src/syzygy/tbprobe.cpp:239-241 | a move onto a piece is always a capture, and a move onto an empty square is one exactly when it is en passant |
| Syzygy.Tablebases.constructor | src/syzygy/tbprobe.cpp:138-144 | no tables are loaded: max_pieces is 0 |
| Syzygy.Tablebases.Init | src/syzygy/tbprobe.cpp:152-182 | an empty path changes nothing; otherwise the cache is set up with 128 MB and the tables cover six pieces once a WDL file was found |
| Syzygy.Tablebases.ProbeWdl | src/syzygy/tbprobe.cpp:198-226 | probe_wdl fails with no tables, with any castling right, or with more pieces than the tables cover; otherwise it succeeds exactly on a cache hit, with the cached result's value at ply 0 |
| Syzygy.IsCapture | src/syzygy/tbprobe.cpp:239-241 | a move is a capture when a piece stands on its to-square or it is en passant (Syzygy.IsCaptureCases) |
| Score.TruncDiv | src/score.cpp:27-29 | C++ division by a positive divisor: the quotient is truncated toward zero, so the remainder takes the dividend's sign |
| Score.MateThreshold | include/score.h:18-19 | the mate thresholds are 32000 - 2 * 128 = 31744 and its negation |
| Score.IsMate | src/score.cpp:20-22 | IsMate holds exactly when the absolute value exceeds VALUE_MATE_IN_MAX_PLY, 31744 |
| Score.MateIn | src/score.cpp:24-32 | mate in n plies (32000 - n) reports ceil(n / 2) moves and being mated in n plies -ceil(n / 2), within 0..128 and -128..0 for mate scores; beyond ±32000 the truncating division halves the excess rounding toward zero |
| Score.ToUci | src/score.cpp:8-18 | the text starts with `mate ` exactly for mate values (above 31744 in size) and with `cp ` otherwise, and the number after the keyword reads back with stoi as mate_in(v) or v |
| Score.Normalize | src/score.cpp:34-40 | normalize returns the value unchanged, whatever the ply |
| Score.Contempt | src/score.cpp:42-51 | contempt returns the value unchanged, whatever the side and the Contempt option |
| UciOption.StringOption | src/ucioption.cpp:9 | a string option starts with current equal to default, tagged "string" |
| UciOption.CheckOption | src/ucioption.cpp:11 | a check option starts with current equal to default, tagged "check" |
| UciOption.ButtonOption | src/ucioption.cpp:13 | a button holds no value, tagged "button" |
| UciOption.SpinOption | src/ucioption.cpp:15 | a spin option starts with current equal to default and records its bounds, tagged "spin" |
| UciOption.Clamp | src/ucioption.cpp:26 | std::clamp lands within the bounds, keeps a value already inside and moves one outside to the nearer bound |
| UciOption.Assign | src/ucioption.cpp:17-33 | assignment changes only the current value and fails exactly when the option is a spin and stoi cannot read the text |
| UciOption.AssignByKind | src/ucioption.cpp:18-29 | a button is unchanged, a check becomes true exactly for "true", a spin lands within its bounds, and a string stores the text verbatim |
| UciOption.Render | src/ucioption.cpp:51-63 | a check renders as "true" or "false" according to its value |
| UciOption.FreshOptionCurrentIsDefault | src/ucioption.cpp:9-63 | a freshly built option renders the same default and current value: the decimal number, "true"/"false", the text, or "" for a button |
| UciOption.SpinAssignRoundTrip | src/ucioption.cpp:26-61 | assigning a spin the decimal text of an int and reading it back gives the clamped number's text |
| UciOption.StringAssignRoundTrip | src/ucioption.cpp:28-59 | assigning a string option and reading it back returns the text verbatim |
| UciOption.OptionsMap.constructor | src/ucioption.cpp:73 | a new map holds no options |
| UciOption.OptionsMap.Init | src/ucioption.cpp:75-105 | init registers the eight options, replacing any earlier entries of those names |
| UciOption.OptionsMap.Set | src/ucioption.cpp:17-33 | `Options[name] = v` stores the assigned option; an unknown name gets a default button; a failed stoi leaves the map as it was |
| UciOption.RegisteredOptions | src/ucioption.cpp:75-105 | Hash is spin 16 in 1..65536, Threads 1 in 1..128, Move Overhead 10 in 0..5000, Skill Level 20 in 0..20, Ponder reads "false", Clear Hash is a button, and every registered spin's default lies within its bounds |
| UciOption.GetDefault | src/ucioption.cpp:51-56 | a string option gives its default text, a check option "true" or "false" as its default flag, a spin option text that reads back as its default number, every other kind "" |
| UciOption.GetCurrent | src/ucioption.cpp:58-63 | the same for the current value |
| Tune.Get | src/tune.cpp:27-32 | get returns the stored value of a known name and 0 for an unknown one |
| Tune.Set | src/tune.cpp:21-25 | set keeps the set of names, updates only the value of a known name and leaves every other entry alone |
| Tune.SetThenGet | src/tune.cpp:21-32 | after set on a known name, get returns the value, other names read as before, and the bounds are kept but not enforced |
| Tune.SetUnknown | src/tune.cpp:21-25 | set on an unknown name changes nothing, and the name still reads as 0 |
| Tune.DefaultsInBounds | src/tune.cpp:7-19 | after init the seven names are present with defaults within their bounds and a positive step, and every other entry reads as before |
| Tune.DefaultValues | src/tune.cpp:10-18 | init gives PawnVal 100, KnightVal 320, BishopVal 330, RookVal 500, QueenVal 900, LMR_Base 50 and LMR_Div 200 |
| Tune.Registry.constructor | src/tune.cpp:5 | the parameter map starts empty |
| Tune.Registry.Init | src/tune.cpp:7-19 | init writes the seven parameters over the old map |
| Tune.Registry.SetParam | src/tune.cpp:21-25 | the map becomes Set of the old map |
| Tune.Registry.GetParam | src/tune.cpp:27-32 | the result is Get of the map |
| Prng.Outputs | include/misc.h:24-27 | the first n values of a generator built from a seed, one per rand64 call |
| Prng.OutputsAt | include/misc.h:24-27 | the i-th value is the product, modulo 2^64, of the state after i + 1 scrambles with 2685821657736338717 |
| Prng.StateAfterAdd | include/misc.h:25 | n scrambles followed by m more are n + m scrambles |
| Prng.OutputsSplit | include/misc.h:19-27 | the generator has no state but s: the values after the first n are those of a fresh generator seeded with the state after n calls |
| Prng.PRNG.constructor | include/misc.h:22 | the state is the seed |
| Prng.PRNG.Rand64 | include/misc.h:24-27 | rand64 scrambles s in place by the shifts 12, 25 and 27 and returns the new state times the multiplier |
| Prng.PRNG.Rand | include/misc.h:23 | `rand<T>()` is one rand64 call truncated to the low bits of the unsigned type |
| Prng.PRNG.Draw | include/misc.h:24-27 | n calls in a row return Outputs of the old state and leave the state n scrambles further |
| PyText.Lower | play.py:100 | `lower()` maps an ASCII capital to the small letter it is the capital of and leaves every other character alone |
| PyText.Upper | play.py:177 | `upper()` maps an ASCII small letter to a capital and leaves every other character alone |
| PyText.CaseRoundTrip | play.py:174-177 | lower undoes upper on small letters, and both are idempotent |
| PyText.StripLeft | play.py:65 | the result is a suffix whose dropped characters are all whitespace and which starts with a non-space |
| PyText.StripRight | play.py:65 | the result is a prefix whose dropped characters are all whitespace and which ends with a non-space |
| PyText.Strip | play.py:65 | a non-empty stripped string neither starts nor ends with whitespace |
| PyText.WordLength | play.py:68-77 | the leading word holds no whitespace and stops at the first whitespace character |
| PyText.SplitWords | play.py:68-77 | every piece of `split()` is a non-empty run without whitespace |
| PyText.SplitStripLeft | play.py:65-68 | splitting ignores leading whitespace, so `line.strip().split()` is `line.split()` |
| PyText.StripLeftIdempotent | play.py:65 | stripping twice is stripping once |
| PyText.SplitFirstWord | play.py:77 | a string that starts with a non-space splits into its leading word first |
| PyText.NatToString | play.py:58 | the decimal rendering of a natural number is a non-empty run of digits |
| PyText.DigitValue | play.py:127 | `int(c)` of a decimal digit is below 10 |
| PyText.NatToStringValue | play.py:58 | reading the digits back gives the number |
| CppText.SkipSpace | src/uci.cpp:28 | `>>` skips a suffix whose dropped characters are all C white space and which starts with a non-space |
| CppText.DigitRun | src/uci.cpp:142 | the leading digit run holds only digits and stops at the first non-digit |
| CppText.WordRun | src/uci.cpp:28 | the leading word holds no white space and stops at the first white space |
| CppText.ScanNumeral | src/uci.cpp:142 | the scanned numeral is a run of digits |
| CppText.DigitsOf | src/uci.cpp:142 | the digits read are the leading digit run |
| CppText.Stoi | src/uci.cpp:53-59 | std::stoi yields an int in range, and throws invalid_argument exactly when no digits follow the white space and sign |
| CppText.ScanDigits | src/uci.cpp:142 | digits followed by a space or the end scan as a non-negative numeral |
| CppText.ScanNegativeDigits | src/uci.cpp:142 | a minus sign, digits and a space or the end scan as a negative numeral |
| CppText.ScanRendered | src/uci.cpp:142 | the decimal rendering of an int, followed by a space or the end, scans back as that int |
| CppText.StoiRoundTrip | src/uci.cpp:53-59 | std::stoi reads back the decimal rendering of every int |
| CppText.ReadWord | src/uci.cpp:28-44 | `ss >> word` yields a non-empty word without white space and consumes it, or fails at the end of input |
| CppText.ReadInt | src/uci.cpp:142-148 | `ss >> x` writes a value within the limits, and the stream stays good only when a number was read |
| CppText.SkipLead | src/uci.cpp:28 | leading white space makes no difference to what `>>` reads |
| CppText.ReadIntRendered | src/uci.cpp:142-148 | reading an integer from its own rendering after any white space yields it and consumes it |
| CppText.ReadIntAt | src/uci.cpp:142-148 | with digits in range after the white space, `>>` yields their value |
| Tracker.Wrap | play.py:140-164 | a Python index from -8 to 7 selects element i, or i + 8 for a negative i |
| Tracker.Set | play.py:146-179 | an assignment `board[r][c] = v` changes that cell and no other |
| Tracker.GridExt | play.py:94-110 | two grids with the same cells are the same grid |
| Tracker.FillRow | play.py:99-109 | each filling loop of board_init sets row r to its eight letters and leaves the other rows |
| Tracker.BoardInit | play.py:94-110 | board_init returns the start grid: white's pieces and pawns in lower case on rows 0 and 1, black's in upper case on rows 6 and 7, '.' elsewhere |
| Tracker.StartGridSides | play.py:94-110 | rows 0-1 hold lower-case letters, rows 6-7 the upper-case letters of the same pieces on the mirrored row, and rows 2-5 are empty |
| Tracker.AlgebraicToCoords | play.py:125-128 | algebraic_to_coords raises IndexError on a name shorter than two characters and ValueError when the second is not a digit, and otherwise returns (rank, file) |
| Tracker.SquareName | play.py:125-128 | the name of a board square is a file letter a-h followed by a rank digit 1-8 |
| Tracker.CoordsRoundTrip | play.py:125-128 | parsing a square's name gives back its (rank, file), and every square name comes from its coordinates |
| Tracker.ParseToken | play.py:136-139 | a token whose first four characters name two squares parses |
| Tracker.CastledGrid | play.py:144-157 | the castling branch yields a grid |
| Tracker.MovedGrid | play.py:169-170 | the relocation yields a grid |
| Tracker.TokenParses | play.py:136-139 | a token naming (fr, fc) and (tr, tc) parses to exactly those coordinates |
| Tracker.CastlingMovesKingAndRook | play.py:142-157 | a king letter moving two files from the e-file goes to the destination, the rook jumps from h to f or from a to d, nothing else changes and the en-passant square is cleared, whatever a fifth letter says |
| Tracker.CastlingClearsEnPassant | play.py:142-157 | any move taken as castling returns the castled grid and no en-passant square |
| Tracker.EnPassantRemovesVictim | play.py:160-170 | a pawn moving diagonally onto an empty square while an en-passant square is set removes the pawn on row tr - 1 (white) or tr + 1, relocates itself, and changes nothing else |
| Tracker.EnPassantOffGridFails | play.py:165-166 | for black arriving on row 7 the victim row is 8 and board[8] raises IndexError |
| Tracker.MoveRelocates | play.py:169-170 | any other four-letter move empties the origin, puts its contents on the destination and changes nothing else |
| Tracker.PromotionLetter | play.py:173-179 | a fifth letter overwrites the destination, in upper case for black and lower case otherwise |
| Tracker.DoublePushSetsEnPassant | play.py:182-189 | the returned en-passant square is the square passed over exactly when a pawn moved two rows, and None otherwise |
| Tracker.WellFormedTokenSucceeds | play.py:131-189 | a token naming two squares raises only when the en-passant victim falls off the grid |
| Tracker.ShortTokenFails | play.py:136-139 | a token shorter than four characters always raises |
| Tracker.PutCell | play.py:146-179 | one cell assignment on the board array |
| Tracker.Castle | play.py:144-157 | the castling branch on the board array gives the castled grid |
| Tracker.Relocate | play.py:159-189 | the non-castling part on the board array gives the relocated grid and returns the new en-passant square |
| Tracker.ApplyMove | play.py:131-189 | apply_move on the board array gives Applied of the old cells, or raises with the board unchanged |
| Session.PositionCommand | play.py:52-55 | the command is `position startpos` exactly when no moves were played, and `position startpos moves ` followed by the moves otherwise |
| Session.GoCommand | play.py:58 | the search command starts with `go depth ` |
| Session.GoCommandDepth | play.py:58 | the text after `go depth ` is the depth's decimal digits, which read back as the depth |
| Session.ClassifyLine | play.py:65-80 | a stripped line starting with `bestmove` decides its second token (or "(none)"); outside fastchess mode no other line decides |
| Session.Step | play.py:62-64 | an empty readline() result is end of file; any other line either decides a move or is read past |
| Session.Steps | play.py:61-64 | one step per readline() result |
| Session.ClassifyRead | play.py:65-80 | the loop body classifies one line as ClassifyLine does |
| Session.GetBestMove | play.py:60-81 | the reading loop returns the reply determined by the sequence of lines |
| Session.FirstDecisionSkips | play.py:61-80 | reading past lines that decide nothing leaves the reply unchanged |
| Session.FirstDecisionFrom | play.py:61-80 | a decision comes from the first step that is not read past |
| Session.ReplySkips | play.py:61-80 | the reply after lines that decide nothing is the reply of the rest |
| Session.FirstBestmoveWins | play.py:67-73 | the first line starting with `bestmove` decides: its second token, or "(none)" without one |
| Session.FastchessTakesMoveLine | play.py:75-80 | in fastchess mode a line that looks like `e2e4` yields its first word |
| Session.EndOfFileYieldsNone | play.py:62-64 | reaching end of file with nothing decided yields None |
| Session.ReplyFromLine | play.py:61-81 | a decided reply comes from the first deciding line, after lines read past |
| Session.ReplyComesFromBestmove | play.py:67-73 | outside fastchess mode only a bestmove line can produce a move |
| Uci.WordRunOf | src/uci.cpp:28 | a word followed by white space or the end is one word run |
| Uci.ReadWordOf | src/uci.cpp:28 | `>>` reads a word followed by white space or the end whole and leaves the stream good |
| Uci.ReadWordAfterSpace | src/uci.cpp:28 | `>>` skips a separating space before the word |
| Uci.JoinFront | src/uci.cpp:44-84 | joining a word in front of joined words puts one space between them |
| Uci.JoinNotEmpty | src/uci.cpp:44-47 | joining at least one word gives a non-empty string |
| Uci.WordsStep | src/uci.cpp:28 | after leading white space one word is read, and then the words that follow it |
| Uci.JoinReadsBack | src/uci.cpp:44-84 | words joined by single spaces read back, one `>>` at a time, as the same words |
| Uci.JoinReadsStep | src/uci.cpp:44-47 | the first word is read and the rest reads back as the other words |
| Uci.JoinSplit | src/uci.cpp:44-47 | the joined words are the first word, then a space and the others joined |
| Uci.SpacesOnly | src/uci.cpp:28 | a stream holding only white space has no words left |
| Uci.ReadWordWords | src/uci.cpp:28 | `>>` fails exactly when no words remain, and otherwise reads the first of them and leaves the others |
| Uci.CommandOf | src/uci.cpp:30-156 | a token selects no branch exactly when it is none of uci, setoption, isready, ucinewgame, position, go, stop and quit |
| Uci.JoinedLine | src/uci.cpp:27-28 | on a line made of words the token is the first word and the others remain |
| Uci.BlankLineRepeats | src/uci.cpp:25-28 | `token` lives outside the loop, so a line with no word repeats the previous line's command |
| Uci.DriverCommandsRecognized | src/uci.cpp:71-131 | the driver's `position ...` and `go depth ...` lines are taken as the position and go commands |
| Uci.PositionRecognized | src/uci.cpp:71 | the first word of the driver's position line is `position` |
| Uci.GoRecognized | src/uci.cpp:131 | the first word of the driver's go line is `go` |
| Uci.GoWordRead | src/uci.cpp:28 | reading the go line's first word leaves " depth " and the number |
| Uci.FirstWordRead | src/uci.cpp:28 | a literal command word followed by a blank is read whole |
| Uci.LineTail | src/uci.cpp:42-50 | the words of a setoption line after its first and after its second word |
| Uci.JoinLoop | src/uci.cpp:44-84 | the word-joining loop never lengthens the stream it reads |
| Uci.ReadJoined | src/uci.cpp:44-84 | the joining loop on the stream computes JoinLoop |
| Uci.JoinLoopWords | src/uci.cpp:44-84 | the stream loop joins and leaves exactly what the same loop over the stream's words does |
| Uci.JoinWordsUntil | src/uci.cpp:44-84 | words up to the stop word are joined by single spaces, the stop word is the last one read and the words after it are left |
| Uci.JoinWordsHead | src/uci.cpp:44-47 | a word other than the stop word is appended and becomes the last word read |
| Uci.JoinSnoc | src/uci.cpp:45-46 | joining one more word appends it after a single space |
| Uci.OptionArgsByWords | src/uci.cpp:42-50 | setoption's reading of name and value depends only on the words of the line |
| Uci.ReadOptionArgs | src/uci.cpp:40-50 | the setoption branch reads the name and value as OptionArgsOf |
| Uci.SetOptionLine | src/uci.cpp:42-50 | for `setoption name N1 .. Nk value V` the name is N1 .. Nk joined by single spaces and the value is V |
| Uci.OptionLineTokens | src/uci.cpp:42-50 | a setoption line built from words is made of words and starts with setoption |
| Uci.OptionWordsArgs | src/uci.cpp:44-50 | the name loop stops at `value` and the next word is the value |
| Uci.RenderedIsToken | src/uci.cpp:50 | the decimal rendering of an int is one word |
| Uci.SetOption | src/uci.cpp:49-61 | with a value, Tune::set is tried on a parameter with a non-zero value or a name containing Val or LMR, and Hash resizes the table, each only when stoi accepts the value; otherwise nothing changes |
| Uci.UnknownOptionIgnored | src/uci.cpp:51-55 | a name with no parameter leaves the parameters as they were |
| Uci.OtherParamsUnchanged | src/uci.cpp:51-55 | setoption changes at most the named parameter, and only its value |
| Uci.KnownOptionSet | src/uci.cpp:39-55 | `setoption name N value V` for a tuned parameter N and an int v written as V makes Tune::get(N) read v |
| Uci.GoStep | src/uci.cpp:142-149 | one pass of the go `if` chain never lengthens the stream and never clears is_movetime |
| Uci.ReadGo | src/uci.cpp:132-150 | the go branch hands Search::iterate the limits GoLoop computes from depth 100 and no clock |
| Uci.GoDepthLine | src/uci.cpp:131-150 | the driver's `go depth d` is read as a search to depth d with every other limit at its default |
| Uci.DepthWordRead | src/uci.cpp:141 | after `go` the word `depth` is read, leaving the number |
| Uci.DepthStep | src/uci.cpp:142 | the depth branch reads the rendered number and consumes the rest of the line |
| Uci.DepthBranch | src/uci.cpp:142 | the depth word reads an int and keeps the old depth when nothing is written |
| Uci.EmptyGo | src/uci.cpp:141 | with nothing left the go loop keeps the limits |
| Uci.BareGo | src/uci.cpp:132-141 | a go line without words after the command keeps the default limits |
| Uci.MovetimeSticks | src/uci.cpp:148-149 | once movetime set is_movetime, nothing later in the line clears it |
| UciMoves.SquareDigits | src/uci.cpp:98-101 | a square written as file letter and `std::to_string(rank + 1)` is the two-character name the driver parses |
| UciMoves.MoveStringShape | src/uci.cpp:97-110 | a move string is the from and to square names, plus for a promotion one letter q, r, b or n naming the piece |
| UciMoves.DriverReadsMoveString | src/uci.cpp:97-110 | the driver parses the engine's move string back into the move's from and to coordinates |
| UciMoves.MoveStringsEqual | src/uci.cpp:97-111 | two moves have the same string exactly when they have the same squares and the same promotion, if any |
| UciMoves.SquareNameInjective | src/uci.cpp:98-101 | different squares have different names |
| UciMoves.FindMove | src/uci.cpp:96-115 | the match is Move::none() or a generated move with that string, and it is found whenever some generated move has that string |
| UciMoves.FindMoveFirst | src/uci.cpp:111-114 | the loop stops at the first move whose string matches |
| UciMoves.TokenOfMoveFound | src/uci.cpp:96-115 | the string of a generated move finds a move with the same squares and promotion |
| UciMoves.FindMoveIn | src/uci.cpp:96-115 | the loop over the generated list returns FindMove of its contents |
| UciMoves.ApplyMoveToken | src/uci.cpp:90-128 | a token that matches no generated move changes nothing; a matched move is made, and unmade when it leaves the mover's king attacked |
| UciMoves.TokenOutcome | src/uci.cpp:117-127 | a token's move is kept exactly when it was found and does not leave the mover's king attacked, and the position is then the made one |
| UciMoves.PushedPrefix | src/uci.cpp:119-126 | whether the move stays or is taken back, the old state records stay below the new ones |
| UciMoves.MatchToken | src/uci.cpp:93-115 | generating every move and matching the token yields the token's move of the position |
| UciMoves.MakeChecked | src/uci.cpp:117-127 | make_move, the check on the king of the side that moved, and unmake_move when it is attacked: kept moves give the made position, others leave it as it was |
| UciMoves.TakeBack | src/uci.cpp:125-126 | unmake_move right after make_move restores the board, side, rights, en-passant square and state stack, and moves the history index back by one |
| UciMoves.PlayMoves | src/uci.cpp:88-130 | the moves loop plays every word of the rest of the line in turn, keeping the old state records |
| UciMoves.PrefixOfPrefix | src/uci.cpp:119 | a prefix of a prefix is a prefix |
| UciMoves.MoveString | src/uci.cpp:97-110 | the string the position loop builds for a generated move, whose shape UciMoves.MoveStringShape states |
| UciPosition.TrackLetters | src/position.cpp:410-433 | piece letters move the placement one file each |
| UciPosition.TrackFullRank | src/position.cpp:410-433 | a full rank walks from file a to past file h |
| UciPosition.TrackRanks | src/position.cpp:410-433 | full ranks separated by '/' walk from the top rank down, ending past file h of the last one |
| UciPosition.SlashedToken | src/uci.cpp:81-84 | a placement field has no white space in it |
| UciPosition.FieldsOfWords | src/position.cpp:404-407 | the four fields set_fen reads are the first four words of the FEN |
| UciPosition.FieldsRead | src/position.cpp:404-407 | set_fen reads its fields one word after the other |
| UciPosition.NthWord | src/position.cpp:404-407 | reading a word takes the first of the words and leaves the rest |
| UciPosition.StartFenReadable | src/uci.cpp:77 | the starting FEN can be read: its placement fills the board, white is to move with KQkq and no en-passant square |
| UciPosition.StartPlacementFits | src/uci.cpp:77 | the starting placement fits the board |
| UciPosition.StartWords | src/uci.cpp:77 | the starting FEN is the six fields rnbqkbnr/pppppppp/8/8/8/8/PPPPPPPP/RNBQKBNR, w, KQkq, -, 0 and 1 |
| UciPosition.StartSetting | src/uci.cpp:77 | the starting position has white to move, all four castling rights and no en-passant square |
| UciPosition.StartRights | src/position.cpp:438-443 | KQkq folds to the castling mask 15 |
| UciPosition.RunPosition | src/uci.cpp:71-130 | the position branch sets up the start position, the FEN's, or keeps the current one, then plays the move words in turn |
| UciPosition.ReadSetup | src/uci.cpp:72-86 | everything before the moves loop: the setup the words name, with the stream left at the moves |
| UciPosition.SetUp | src/uci.cpp:77-85 | set_fen leaves the setting the FEN describes, with the history index 1 |
| UciPosition.StartposArgs | src/uci.cpp:76-88 | `startpos`, then `moves` and the moves, sets up the start position and plays exactly those moves |
| UciPosition.FenArgs | src/uci.cpp:79-88 | `fen`, the FEN's words, `moves` and the moves: the FEN is the words joined by single spaces |
| UciPosition.FenBranch | src/uci.cpp:79-86 | after `fen` the words up to `moves` are joined as the FEN |
| UciPosition.StartBranch | src/uci.cpp:76-78 | after `startpos` one more word is read into sub, which keeps `startpos` when there is none |
| UciPosition.Front | src/uci.cpp:73 | the head and the tail of a sequence built from its head |
| UciPosition.DriverPositionLine | src/uci.cpp:71-88 | the driver's position line for the moves so far sets up the start position and plays exactly those moves |
| UciPosition.DriverLineWords | src/uci.cpp:71-88 | the driver's position line is `position startpos`, then `moves` and the moves when there are any |
| UciPosition.BareStartLine | src/uci.cpp:71-78 | the bare position line is the two words position and startpos |
| UciPosition.MovesLine | src/uci.cpp:71-88 | a position line with moves is position, startpos, moves, then the moves |
| UciPosition.FenOfStartIsStartpos | src/uci.cpp:76-86 | a line that spells the starting FEN out sets up the same position as `startpos` and plays the same moves |
| UciPosition.StartWordsNotMoves | src/uci.cpp:81 | no field of the starting FEN is the word `moves` |

## Left out

- Process I/O in `play.py` is left out: `Popen`, `send`, `readline`, `quit` with its timeout and kill. The reply classifier takes the engine's output as a sequence of lines instead.
- `play_self`, `play_human_vs_engine`, `main` and `board_print` are left out: orchestration and printing only.
- Python's `isalpha`, `isdigit`, `lower`, `upper` and `int()` are modelled on ASCII text only; their Unicode letters, digits and case mappings are not modelled. `strip` and `split` follow Python's `str.isspace` set, including the Unicode spaces (`PyText.IsSpace`).
- All stdout replies of the UCI loop are left out: `id`, `uciok`, `readyok`, `info` strings, the `bestmove` line and `Tune::print_params`. Neither is the per-line `std::getline` loop over `std::cin`: one line is a `Stream`.
- `go` is modelled up to the parsed `SearchLimits`. `Search::iterate`, alpha-beta search, quiescence search, the stop flag and the threads are left out: atomics, a thread pool, the wall clock and floating point.
- `ucinewgame` is left out: it only clears the transposition table and the game-history deque.
- The `game_history` deque of `StateInfo` is modelled as the position's state stack only. Clearing the deque leaves `position moves ...` with `state` referring to freed storage, which the model does not represent.
- `Position::is_legal` is left out: it is not called by the modelled code.
- The `std::vector` overload of `generate` is left out; the 256-slot `MoveList` is modelled.
- Transposition-table prefetch is left out: a cache hint with no effect on values.
- `Bitboards::print` is left out: printing only.
- Attacks.RookAttacks, Attacks.BishopAttacks and Attacks.QueenAttacks are an idealisation of the magic-multiplication tables of src/bitboard.cpp: they return `Attacks.SlidingAttack` over the occupancy, which is what the tables are meant to hold. With the magics and shifts as written, distinct occupancies share a table slot, so the tables need not hold these sets. For h8, the rook magic `0x10222` with shift 52 sends the 4096 occupancies of the mask to only 512 slots. The empty occupancy and {h2} share slot 0, though h2 blocks the file. What the tables actually return is not modelled.
- Zobrist key generation (`std::mt19937_64`) is left out: the keys are an abstract `Board.Keys`.
- `src/timeman.cpp`, the multithreading and shared-memory files, `src/mcache.cpp`, the `src/misc.cpp` logging, `src/main.cpp`, `Eval::trace`, the unused pawn hash table and option `onChange` callbacks are left out: clocks, threads, allocation and I/O.
- `refresh_weights` and the `Bonus` table are left out: the weights are the `Evaluation.Weights` parameter. The `Bonus[PIECE_TYPE_NB][64]` declaration (src/evaluate.cpp:31) has seven rows for six slots, the first `{0}, // No Piece`, so it is ill-formed as written, like `PieceValue`. It reads names such as `Pawn_MG` that `Tune::init` never registers, so `Tune::get` returns 0 for them.
- Syzygy `probe_root` is left out: it is a placeholder that returns false.
- The Syzygy directory scan with `std::filesystem` is left out: the number of WDL files found is a parameter. The atomic hit counters are left out too.
- `Option`'s conversions (`operator int`, `operator bool`, `operator std::string`), `get_min`/`get_max`/`get_type`, the const `operator[]` and `count` are left out: they only read fields.
- Positions.Position.MakeMove and Board.MovedBoard require MakeSafe: the mover's piece on the from-square, an en-passant victim on the board, and a castling rook. `make_move` itself trusts its caller and would index out of range otherwise.
- Positions.Position.MakeThenUnmake, Board.MadeIsUnmakeSafe and Board.UnmakeRestoresBoard require Reversible: MakeSafe, plus a promotion moves a pawn, a castle moves a king, and an en-passant target is empty.
- UciMoves.ApplyMoveToken, UciMoves.TokenOutcome and UciMoves.PlayMoves require TokenSafe for every token. The position must have at most 256 generated moves, and a matching move must be Reversible.
- Positions.Position.SetFen, UciPosition.SetUp, UciPosition.RunPosition and UciPosition.ReadSetup require FenReadable for a `fen` argument, which excludes three kinds of input.
  - A piece letter that lands off the board, such as a ninth rank or a ninth letter on rank 8: `put_piece` writes `board` outside its 64 cells (src/position.cpp:32-38).
  - A piece letter that lands on a square already filled, such as `ppppppppp` on rank 7, whose ninth pawn lands on a8: `put_piece` writes in bounds but overwrites the rook in the mailbox, while the rook's bits stay in `color_bb` and `type_bb` and its key stays XOR-ed into the hash. The model does not represent that out-of-step state.
  - An en-passant field other than `-` that is shorter than two characters, or whose square `8 * (rank - '1') + (file - 'a')` falls outside 0..63, such as `e9`: set_fen reads `en_passant_keys` outside the table (src/position.cpp:446-449), and nothing is written out of range. A field such as `i3`, which computes an in-range square (a4), is accepted as the code accepts it.
- GeneratedMoves.GeneratedArePseudoLegal, GeneratedMoves.CapturesAreCaptures, GeneratedMoves.CastlingGuarded and GeneratedMoves.PawnMovesSound assume EpEmpty: the recorded en-passant square is empty.
- MoveGen.Generate requires that the generated moves fit in the 256-slot list. The C++ `add` would write past the array.
- Evaluation.EvalSide and Evaluation.Evaluate follow the loop as written, from `pt = 1`, so they promise nothing about pawn material or pawn PSQT. The loop as evidently intended is `Evaluation.SideTerm`, proved about in `Evaluation.PawnValueCounted` but not used by `Evaluate`.
- Search.MostValuableVictimFirst, Search.MoveScore and Search.MovePicker.Score use the corrected table, one value per piece type (see Findings), where src/search.cpp:126 indexes the same seven-value `PieceValue` as `see`. Read as written, each piece counts as the type below it. A bishop victim then scores 2250 above a knight victim, where the corrected table scores them alike. A pawn's en-passant capture, whose destination holds NO_PIECE (`type_of` 1), scores 100000 + 1000 against 100000 + 3150. The as-written scoring is `Search.MoveScoreAsWritten`, and `Search.VictimOrderAsWritten` states both differences.
- Search.MovePicker.Score and Search.MoveScore read src/search.cpp:122's `pos.is_capture(m)` as `Syzygy.IsCapture`: a piece on the to-square, or an en-passant move. `Position` declares no `is_capture` member, so the call does not resolve as written.
- Positions.Position.IsRepetition keeps the scan as written (see Findings). The same-side scan is `Queries.RepeatedSameSide`, not used by the search.
- TT.TranspositionTable.constructor and TT.TranspositionTable.Resize treat a block of zero entries as no table, so `Store` and `Probe` do nothing there. In the code, `setoption name Hash value 0` reaches `resize(0)` unclamped (src/uci.cpp:57-59), giving `entry_count` 0 (src/tt.cpp:24-25). `posix_memalign` with size 0 may return a non-null block (src/mcache.cpp:20), and then `store` and `probe` compute `key % 0`, a division by zero with undefined behaviour (src/tt.cpp:57, src/tt.cpp:89). The model does not capture that crash.
- CppText.StoiRoundTrip, UciOption.SpinAssignRoundTrip and Uci.GoDepthLine are stated for values within `int`. Their `INT_MIN..INT_MAX` hypothesis follows the C++ `int` type.

## Findings

| source | as written | input that shows it | evidently intended | confidence | as-written member | corrected member |
|---|---|---|---|---|---|---|
| src/search.cpp:58 | `PieceValue[PIECE_TYPE_NB]` has seven initialisers for six slots, so the declaration is ill-formed and the file does not compile as written; read as its first six values, 0 to 975, the table makes a pawn worth 0, a knight 100 and a king 975, both in `see` and in `MovePicker::score` (`Search.MoveScoreAsWritten`) | a white pawn on e4 takes a black pawn on d5: with the first six values, `see` reads the pawn as 0 | one value per piece type, pawn 100 to queen 975 and king 0, so that capture is worth 100 | not executed | Search.PieceValueShifted | Search.SeeIsMaterialSwing |
| src/evaluate.cpp:223 | the material/PSQT loop of `evaluate` starts at `pt = 1`, so pawns add neither material nor PSQT | changing the pawn's material weight leaves the evaluation unchanged for every board | the loop covers every piece type from `PAWN`, so each pawn adds the pawn weight | not executed | Evaluation.PawnValueIgnored | Evaluation.PawnValueCounted |
| src/position.cpp:66-77 | `is_repetition` starts at `history_index - 2`, one ply back, and steps by two, so it compares the current key with positions that have the other side to move; it also stops short of the entry `clock` plies back | from the start position, both sides move a knight out and back twice: keys A B C D A B C D A, history index 9, halfmove clock 8; the scan reads entries 7, 5, 3, 1 and finds no repetition | start at `history_index - 3`, two plies back, and include the entry exactly `clock` plies back, so that A at entries 0 and 4 is a repetition | not executed | Queries.RepetitionAsWritten | Queries.RepetitionIntended |
