/**
 * The static evaluation (src/evaluate.cpp): each side's material,
 * piece-square and mobility terms, the pawn-structure terms of eval_pawns,
 * and the interpolation between the middle-game and end-game totals by the
 * game phase, seen from the side to move.
 */
module Evaluation {
  import opened Types
  import opened Bits
  import opened Bitboards
  import opened Attacks
  import opened Board
  import opened Positions
  import opened Score

  const TEMPO: int := 20
  const MAX_PHASE: int := 24

  /** `Term`: a middle-game and an end-game value. */
  datatype Term = Term(mg: int, eg: int)
  {
    /** `operator+`, and `add` (of a term, or of a pair of values). */
    function Plus(t: Term): Term { Term(mg + t.mg, eg + t.eg) }
    /** `operator-`, and `sub`. */
    function Minus(t: Term): Term { Term(mg - t.mg, eg - t.eg) }
  }

  /** A default-constructed Term. */
  function Zero(): Term { Term(0, 0) }

  /** Adding and subtracting terms is adding and subtracting both halves, so the usual laws hold. */
  lemma TermLaws(a: Term, b: Term, c: Term)
    ensures a.Plus(b) == b.Plus(a)
    ensures a.Plus(b).Plus(c) == a.Plus(b.Plus(c))
    ensures a.Plus(b).Minus(b) == a && a.Minus(b).Plus(b) == a
    ensures a.Plus(Zero()) == a
  {
  }

  /**
   * The weights evaluate reads (`W`): material, piece-square and mobility
   * terms per piece type, and the isolated and doubled pawn terms.
   */
  datatype Weights = Weights(mat: seq<Term>, psqt: seq<seq<Term>>, mob: seq<Term>, iso: Term, dbl: Term)

  predicate Shaped(w: Weights)
  {
    |w.mat| == PIECE_TYPE_NB && |w.psqt| == PIECE_TYPE_NB && |w.mob| == PIECE_TYPE_NB &&
    forall pt | 0 <= pt < PIECE_TYPE_NB :: |w.psqt[pt]| == 64
  }

  /** A quotient of a value between 24 * lo and 24 * hi lies between lo and hi. */
  lemma {:induction false} QuotBetween(a: int, lo: int, hi: int)
    requires MAX_PHASE * lo <= a <= MAX_PHASE * hi
    ensures lo <= TruncDiv(a, MAX_PHASE) <= hi
  {
  }

  lemma {:induction false} Seven(r: nat)
    requires r < 8
    ensures BitXor(r, 7) == 7 - r
  {
    if r == 0 { } else if r == 1 { } else if r == 2 { } else if r == 3 { }
    else if r == 4 { } else if r == 5 { } else if r == 6 { } else { }
  }

  /** `(8 * rank + file) ^ 56` flips the three rank bits. */
  lemma {:induction false} Mirror56(rank: nat, file: nat)
    requires rank < 8 && file < 8
    ensures BitXor(8 * rank + file, 56) == 8 * (7 - rank) + file
  {
    var s := 8 * rank + file;
    XorSplit(s, 56);
    XorSplit(s / 2, 28);
    XorSplit(s / 4, 14);
    assert s / 8 == rank;
    assert s / 2 / 2 == s / 4 && s / 4 / 2 == s / 8;
    Seven(rank);
  }

  /** `s ^ 56`: the square with the same file on the mirrored rank. */
  function Mirror(s: Sq): (r: Sq)
    ensures RankOf(r) == 7 - RankOf(s) && FileOf(r) == FileOf(s)
  {
    Coords(s);
    Mirror56(RankOf(s), FileOf(s));
    BitXor(s, 56)
  }

  /** Mirroring twice is the identity. */
  lemma MirrorTwice(s: Sq)
    ensures Mirror(Mirror(s)) == s
  {
    Coords(s);
    Coords(Mirror(s));
    Coords(Mirror(Mirror(s)));
  }

  /** The piece-square index: the square itself for white, mirrored for black. */
  function PsqtIndex(c: Color, s: Sq): Sq
  {
    if c == WHITE then s else Mirror(s)
  }

  /** The squares a knight, bishop, rook or queen on s attacks; nothing for the other types. */
  function PieceAttacks(pt: PieceType, s: Sq, occ: Bitboard): Bitboard
  {
    if pt == KNIGHT then KnightAttacks(s)
    else if pt == BISHOP then BishopAttacks(s, occ)
    else if pt == ROOK then RookAttacks(s, occ)
    else if pt == QUEEN then QueenAttacks(s, occ)
    else {}
  }

  /** `count(att & ~my_p)`: the attacked squares not holding a piece of the own side. */
  function Mobility(pt: PieceType, s: Sq, occ: Bitboard, own: Bitboard): nat
  {
    Count(PieceAttacks(pt, s, occ) * Complement(own))
  }

  /** Mobility counts exactly the attacked squares free of own pieces. */
  lemma {:induction false} MobilityCounts(pt: PieceType, s: Sq, occ: Bitboard, own: Bitboard)
    ensures Mobility(pt, s, occ, own) == |set t: Sq | t in PieceAttacks(pt, s, occ) && t !in own|
  {
    assert PieceAttacks(pt, s, occ) * Complement(own) == set t: Sq | t in PieceAttacks(pt, s, occ) && t !in own;
  }

  /** One piece of type pt on s: material plus piece-square term, plus mobility times its weight for the officers. */
  function PieceTerm(w: Weights, c: Color, pt: PieceType, s: Sq, occ: Bitboard, own: Bitboard): Term
    requires Shaped(w) && pt < PIECE_TYPE_NB
  {
    var idx := PsqtIndex(c, s);
    var t := Term(w.mat[pt].mg + w.psqt[pt][idx].mg, w.mat[pt].eg + w.psqt[pt][idx].eg);
    if pt != PAWN && pt != KING then
      var mob := Mobility(pt, s, occ, own);
      t.Plus(Term(mob * w.mob[pt].mg, mob * w.mob[pt].eg))
    else t
  }

  /** The phase one piece adds: 1 for a knight or bishop, 2 for a rook, 4 for a queen. */
  function PhaseWeight(pt: PieceType): nat
  {
    if pt == KNIGHT || pt == BISHOP then 1 else if pt == ROOK then 2 else if pt == QUEEN then 4 else 0
  }

  /** The phase n pieces of type pt add, PhaseWeight(pt) each (written per weight, so it stays linear). */
  function TypePhase(pt: PieceType, n: nat): nat
  {
    if pt == KNIGHT || pt == BISHOP then n else if pt == ROOK then 2 * n else if pt == QUEEN then 4 * n else 0
  }

  /** The terms of the pieces of type pt on ss, added in order. */
  function SquaresTerm(w: Weights, c: Color, pt: PieceType, occ: Bitboard, own: Bitboard, ss: seq<Sq>): Term
    requires Shaped(w) && pt < PIECE_TYPE_NB
  {
    if ss == [] then Zero()
    else PieceTerm(w, c, pt, ss[0], occ, own).Plus(SquaresTerm(w, c, pt, occ, own, ss[1..]))
  }

  /** The terms of the pieces of c of the types lo up to hi - 1, type by type upwards, each in ascending square order. */
  function TypesBetween(w: Weights, b: Mailbox, c: Color, lo: nat, hi: nat, occ: Bitboard, own: Bitboard): Term
    requires Shaped(w) && hi <= PIECE_TYPE_NB
    decreases hi
  {
    if hi <= lo then Zero()
    else TypesBetween(w, b, c, lo, hi - 1, occ, own).Plus(SquaresTerm(w, c, hi - 1, occ, own, Ascending(PiecesOf(b, c, hi - 1))))
  }

  /** The phase the pieces of c of the types lo up to hi - 1 add. */
  function PhaseBetween(b: Mailbox, c: Color, lo: nat, hi: nat): nat
    requires hi <= PIECE_TYPE_NB
    decreases hi
  {
    if hi <= lo then 0 else PhaseBetween(b, c, lo, hi - 1) + TypePhase(hi - 1, |PiecesOf(b, c, hi - 1)|)
  }

  /** One side's term counting every piece type from PAWN to KING: the loop as evidently intended. */
  function SideTerm(w: Weights, b: Mailbox, c: Color): Term
    requires Shaped(w)
  {
    TypesBetween(w, b, c, PAWN, PIECE_TYPE_NB, Occupied(b), ColorSet(b, c))
  }

  /** One side's term as the loop `for (pt = 1; ...)` reads with PAWN = 0: from KNIGHT, leaving the pawns out. */
  function SideTermAsWritten(w: Weights, b: Mailbox, c: Color): Term
    requires Shaped(w)
  {
    TypesBetween(w, b, c, KNIGHT, PIECE_TYPE_NB, Occupied(b), ColorSet(b, c))
  }

  /** The phase of one side's pieces, over the types the loop visits (a pawn adds no phase in any case). */
  function SidePhase(b: Mailbox, c: Color): nat
  {
    PhaseBetween(b, c, KNIGHT, PIECE_TYPE_NB)
  }

  /** The phase counts 1 per knight and bishop, 2 per rook and 4 per queen. */
  lemma {:induction false} PhaseCount(b: Mailbox, c: Color)
    ensures SidePhase(b, c) ==
      |PiecesOf(b, c, KNIGHT)| + |PiecesOf(b, c, BISHOP)| + 2 * |PiecesOf(b, c, ROOK)| + 4 * |PiecesOf(b, c, QUEEN)|
  {
    assert PhaseBetween(b, c, KNIGHT, 1) == 0;
    assert PhaseBetween(b, c, KNIGHT, 2) == |PiecesOf(b, c, KNIGHT)|;
    assert PhaseBetween(b, c, KNIGHT, 3) == PhaseBetween(b, c, KNIGHT, 2) + |PiecesOf(b, c, BISHOP)|;
    assert PhaseBetween(b, c, KNIGHT, 4) == PhaseBetween(b, c, KNIGHT, 3) + 2 * |PiecesOf(b, c, ROOK)|;
    assert PhaseBetween(b, c, KNIGHT, 5) == PhaseBetween(b, c, KNIGHT, 4) + 4 * |PiecesOf(b, c, QUEEN)|;
    assert PhaseBetween(b, c, KNIGHT, 6) == PhaseBetween(b, c, KNIGHT, 5);
  }

  /** The middle-game weight: the phase, capped at MAX_PHASE. */
  function MgPhase(phase: nat): nat
  {
    if phase < MAX_PHASE then phase else MAX_PHASE
  }

  /** `(mg * mg_phase + eg * eg_phase) / MAX_PHASE + TEMPO`. */
  function Interpolate(score: Term, phase: nat): int
  {
    var mgPhase := MgPhase(phase);
    TruncDiv(score.mg * mgPhase + score.eg * (MAX_PHASE - mgPhase), MAX_PHASE) + TEMPO
  }

  /**
   * The interpolated value lies between the end-game and middle-game values
   * (plus the tempo): it is the middle-game value once the phase reaches
   * MAX_PHASE and the end-game value at phase 0.
   */
  lemma {:induction false} InterpolateBetween(score: Term, phase: nat)
    ensures var lo, hi := Min(score.mg, score.eg), Max(score.mg, score.eg);
      lo + TEMPO <= Interpolate(score, phase) <= hi + TEMPO
    ensures phase >= MAX_PHASE ==> Interpolate(score, phase) == score.mg + TEMPO
    ensures phase == 0 ==> Interpolate(score, phase) == score.eg + TEMPO
  {
    var p := MgPhase(phase);
    var lo, hi := Min(score.mg, score.eg), Max(score.mg, score.eg);
    WeightedBetween(score.mg, score.eg, lo, hi, p);
    QuotBetween(score.mg * p + score.eg * (MAX_PHASE - p), lo, hi);
    if phase >= MAX_PHASE {
      WeightedBetween(score.mg, score.eg, score.mg, score.mg, MAX_PHASE);
      QuotBetween(score.mg * p + score.eg * (MAX_PHASE - p), score.mg, score.mg);
    }
    if phase == 0 {
      WeightedBetween(score.mg, score.eg, score.eg, score.eg, 0);
      QuotBetween(score.mg * p + score.eg * (MAX_PHASE - p), score.eg, score.eg);
    }
  }

  /** A weighted sum of two values with weights adding up to MAX_PHASE lies between MAX_PHASE times any bounds of the weighted ones. */
  lemma {:induction false} WeightedBetween(x: int, y: int, lo: int, hi: int, p: nat)
    requires p <= MAX_PHASE
    requires (p > 0 ==> lo <= x <= hi) && (p < MAX_PHASE ==> lo <= y <= hi)
    ensures MAX_PHASE * lo <= x * p + y * (MAX_PHASE - p) <= MAX_PHASE * hi
  {
    var q := MAX_PHASE - p;
    if p > 0 {
      MulLe(lo, x, p);
      MulLe(x, hi, p);
    }
    if q > 0 {
      MulLe(lo, y, q);
      MulLe(y, hi, q);
    }
    assert lo * p + lo * q == MAX_PHASE * lo;
    assert hi * p + hi * q == MAX_PHASE * hi;
  }

  function Min(a: int, b: int): int { if a <= b then a else b }
  function Max(a: int, b: int): int { if a <= b then b else a }

  lemma MulLe(x: int, y: int, k: nat)
    requires x <= y
    ensures x * k <= y * k
  {
  }

  /** `0x0101010101010101ULL << f`: file f. */
  function FileMask(f: int): Bitboard
    requires 0 <= f < 8
  {
    Shl(FileABB, f)
  }

  /** The mask of the files beside f: f - 1 unless f is the a-file, f + 1 unless it is the h-file. */
  function AdjacentFiles(f: int): Bitboard
    requires 0 <= f < 8
  {
    (if f > 0 then FileMask(f - 1) else {}) + (if f < 7 then FileMask(f + 1) else {})
  }

  /** A file mask holds exactly the squares of that file. */
  lemma {:induction false} FileMaskSquares(f: int, t: Sq)
    requires 0 <= f < 8
    ensures t in FileMask(f) <==> FileOf(t) == f
  {
    ShiftedFileA(t, f);
  }

  /** The pawns of one side: no own pawn on a neighbouring file, and another own pawn on the same file. */
  predicate Isolated(pawns: Bitboard, s: Sq)
  {
    forall p :: p in pawns ==> Abs(FileOf(p) - FileOf(s)) != 1
  }

  predicate Doubled(pawns: Bitboard, s: Sq)
  {
    exists p :: p in pawns && p != s && FileOf(p) == FileOf(s)
  }

  /** The isolation test `!(adj_files & our_pawns)`. */
  lemma {:induction false} IsolatedMask(pawns: Bitboard, s: Sq)
    ensures AdjacentFiles(FileOf(s)) * pawns == {} <==> Isolated(pawns, s)
  {
    var f := FileOf(s);
    forall p | p in pawns
      ensures p in AdjacentFiles(f) <==> Abs(FileOf(p) - f) == 1
    {
      if f > 0 { FileMaskSquares(f - 1, p); }
      if f < 7 { FileMaskSquares(f + 1, p); }
    }
    if !Isolated(pawns, s) {
      var p :| p in pawns && Abs(FileOf(p) - f) == 1;
      assert p in AdjacentFiles(f) * pawns;
    }
  }

  /** The doubled test `(file_bb & our_pawns) & ~(1ULL << s)`. */
  lemma {:induction false} DoubledMask(pawns: Bitboard, s: Sq)
    ensures FileMask(FileOf(s)) * pawns - SquareBB(s) != {} <==> Doubled(pawns, s)
  {
    var f := FileOf(s);
    if Doubled(pawns, s) {
      var p :| p in pawns && p != s && FileOf(p) == FileOf(s);
      FileMaskSquares(f, p);
      assert p in FileMask(f) * pawns - SquareBB(s);
    }
    if FileMask(f) * pawns - SquareBB(s) != {} {
      var p :| p in FileMask(f) * pawns - SquareBB(s);
      FileMaskSquares(f, p);
    }
  }

  /** One pawn's structure term: the isolation term, plus half the doubled term (rounded toward zero). */
  function PawnTerm(w: Weights, pawns: Bitboard, s: Sq): Term
  {
    var f := s % 8;
    var t := if AdjacentFiles(f) * pawns == {} then Zero().Plus(w.iso) else Zero();
    if FileMask(f) * pawns - SquareBB(s) != {} then t.Plus(Term(TruncDiv(w.dbl.mg, 2), TruncDiv(w.dbl.eg, 2))) else t
  }

  /** The pawn terms of the pawns on ss, added in order. */
  function PawnsTerm(w: Weights, pawns: Bitboard, ss: seq<Sq>): Term
  {
    if ss == [] then Zero() else PawnTerm(w, pawns, ss[0]).Plus(PawnsTerm(w, pawns, ss[1..]))
  }

  /** `eval_pawns<Us>`: the pawn-structure term of the pawns of us. */
  function PawnStructure(w: Weights, b: Mailbox, us: Color): Term
  {
    PawnsTerm(w, PiecesOf(b, us, PAWN), Ascending(PiecesOf(b, us, PAWN)))
  }

  /** The pawn term means what it tests: isolation adds iso, a second pawn on the file adds half of dbl. */
  lemma {:induction false} PawnTermMeaning(w: Weights, pawns: Bitboard, s: Sq)
    ensures var half := Term(TruncDiv(w.dbl.mg, 2), TruncDiv(w.dbl.eg, 2));
      PawnTerm(w, pawns, s) ==
        (if Isolated(pawns, s) then w.iso else Zero()).Plus(if Doubled(pawns, s) then half else Zero())
  {
    IsolatedMask(pawns, s);
    DoubledMask(pawns, s);
  }

  /**
   * `evaluate`: one side's terms minus the other's, plus white's pawn
   * structure (whichever side is to move), interpolated by the phase of all
   * pieces.
   */
  function Evaluation(w: Weights, b: Mailbox, us: Color): int
    requires Shaped(w)
  {
    Interpolate(TotalTerm(w, b, us), TotalPhase(b, us))
  }

  function TotalTerm(w: Weights, b: Mailbox, us: Color): Term
    requires Shaped(w)
  {
    SideTermAsWritten(w, b, us).Minus(SideTermAsWritten(w, b, Other(us))).Plus(PawnStructure(w, b, WHITE))
  }

  function TotalPhase(b: Mailbox, us: Color): nat
  {
    SidePhase(b, us) + SidePhase(b, Other(us))
  }

  /** `static_cast<Color>(us ^ 1)`. */
  function Other(c: Color): Color { 1 - c }

  /**
   * The pieces of type pt on `pieces`, popped in ascending order: their
   * terms (PieceTerm holds the loop body's arithmetic) and the phase they add.
   */
  method EvalPieces(w: Weights, c: Color, pt: PieceType, pieces: Bitboard, occ: Bitboard, own: Bitboard, phase0: nat)
    returns (t: Term, phase: nat)
    requires Shaped(w) && pt < PIECE_TYPE_NB
    ensures t == SquaresTerm(w, c, pt, occ, own, Ascending(pieces))
    ensures phase == phase0 + TypePhase(pt, |pieces|)
  {
    t, phase := Zero(), phase0;
    var rest := pieces;
    while rest != {}
      invariant t.Plus(SquaresTerm(w, c, pt, occ, own, Ascending(rest))) == SquaresTerm(w, c, pt, occ, own, Ascending(pieces))
      invariant phase + TypePhase(pt, |rest|) == phase0 + TypePhase(pt, |pieces|)
      decreases |rest|
    {
      var s, rest' := PopLsb(rest);
      AscendingPop(rest);
      assert SquaresTerm(w, c, pt, occ, own, Ascending(rest)) ==
        PieceTerm(w, c, pt, s, occ, own).Plus(SquaresTerm(w, c, pt, occ, own, Ascending(rest')));
      TermLaws(t, PieceTerm(w, c, pt, s, occ, own), SquaresTerm(w, c, pt, occ, own, Ascending(rest')));
      t := t.Plus(PieceTerm(w, c, pt, s, occ, own));
      if pt == KNIGHT || pt == BISHOP {
        phase := phase + 1;
      } else if pt == ROOK {
        phase := phase + 2;
      } else if pt == QUEEN {
        phase := phase + 4;
      }
      rest := rest';
    }
  }

  /** One iteration of the `eval_side` loop: the term and the phase of the pieces of c of type pt. */
  method EvalType(pos: Position, ghost b: Mailbox, w: Weights, c: Color, pt: PieceType, occ: Bitboard, own: Bitboard, t0: Term, phase0: nat)
    returns (t: Term, phase: nat)
    requires pos.Valid() && b == pos.board[..] && Shaped(w) && pt < PIECE_TYPE_NB
    ensures t == t0.Plus(SquaresTerm(w, c, pt, occ, own, Ascending(PiecesOf(b, c, pt))))
    ensures phase == phase0 + TypePhase(pt, |PiecesOf(b, c, pt)|)
  {
    var pieces := pos.Pieces(c, pt);
    var pieceTerm;
    pieceTerm, phase := EvalPieces(w, c, pt, pieces, occ, own, phase0);
    t := t0.Plus(pieceTerm);
  }

  /**
   * The `eval_side` lambda: the piece types of c from `pt = 1`, KNIGHT, up
   * to KING in turn, so the pawns add nothing. The phase is the lambda's
   * captured `phase`, passed in and returned.
   */
  method EvalSide(pos: Position, w: Weights, c: Color, phase0: nat) returns (t: Term, phase: nat)
    requires pos.Valid() && Shaped(w)
    ensures t == SideTermAsWritten(w, pos.board[..], c)
    ensures phase == phase0 + SidePhase(pos.board[..], c)
  {
    ghost var b := pos.board[..];
    var occupied := pos.AllPieces();
    var own := pos.ColorPieces(c);
    t, phase := Zero(), phase0;
    var pt := KNIGHT;
    while pt < PIECE_TYPE_NB
      invariant KNIGHT <= pt <= PIECE_TYPE_NB
      invariant t == TypesBetween(w, b, c, KNIGHT, pt, occupied, own)
      invariant phase == phase0 + PhaseBetween(b, c, KNIGHT, pt)
    {
      t, phase := EvalType(pos, b, w, c, pt, occupied, own, t, phase);
      pt := pt + 1;
    }
  }

  /** `eval_pawns<Us>`: each pawn of us, popped in ascending order. */
  method EvalPawns(pos: Position, w: Weights, us: Color) returns (score: Term)
    requires pos.Valid()
    ensures score == PawnStructure(w, pos.board[..], us)
  {
    var ourPawns := pos.Pieces(us, PAWN);
    score := Zero();
    var b := ourPawns;
    while b != {}
      invariant score.Plus(PawnsTerm(w, ourPawns, Ascending(b))) == PawnsTerm(w, ourPawns, Ascending(ourPawns))
      decreases |b|
    {
      var s, b' := PopLsb(b);
      AscendingPop(b);
      ghost var here := PawnTerm(w, ourPawns, s);
      assert PawnsTerm(w, ourPawns, Ascending(b)) == here.Plus(PawnsTerm(w, ourPawns, Ascending(b')));
      TermLaws(score, here, PawnsTerm(w, ourPawns, Ascending(b')));
      score := AddPawn(w, ourPawns, s, score);
      b := b';
    }
  }

  /** The loop body of eval_pawns for the pawn on s: the isolated and the doubled tests. */
  method AddPawn(w: Weights, ourPawns: Bitboard, s: Sq, score0: Term) returns (score: Term)
    ensures score == score0.Plus(PawnTerm(w, ourPawns, s))
  {
    var f := s % 8;
    var adjFiles := AdjacentFiles(f);
    var t := Zero();
    if adjFiles * ourPawns == {} {
      t := t.Plus(w.iso);
    }
    var fileBB := FileMask(f);
    if fileBB * ourPawns - SquareBB(s) != {} {
      t := t.Plus(Term(TruncDiv(w.dbl.mg, 2), TruncDiv(w.dbl.eg, 2)));
    }
    score := score0.Plus(t);
  }

  /** `evaluate(pos)`. */
  method Evaluate(pos: Position, w: Weights) returns (val: int)
    requires pos.Valid() && Shaped(w)
    ensures val == Evaluation(w, pos.board[..], pos.side)
  {
    ghost var b := pos.board[..];
    var us := pos.side;
    var them := 1 - us;
    var phase := 0;
    var usTerm, themTerm;
    usTerm, phase := EvalSide(pos, w, us, phase);
    themTerm, phase := EvalSide(pos, w, them, phase);
    var score := usTerm.Minus(themTerm);
    var pawns := EvalPawns(pos, w, WHITE);
    score := score.Plus(pawns);
    assert them == Other(us);
    assert score == TotalTerm(w, b, us);
    assert phase == SidePhase(b, us) + SidePhase(b, them);
    assert phase == TotalPhase(b, us);
    val := Blend(score, phase);
    assert val == Evaluation(w, b, us);
  }

  /** The last lines of evaluate: the phase-weighted blend of the two halves, plus the tempo. */
  method Blend(score: Term, phase: nat) returns (val: int)
    ensures val == Interpolate(score, phase)
  {
    var mgPhase := if phase < MAX_PHASE then phase else MAX_PHASE;
    var egPhase := MAX_PHASE - mgPhase;
    val := TruncDiv(score.mg * mgPhase + score.eg * egPhase, MAX_PHASE);
    val := val + TEMPO;
  }

  /** The weights with a different pawn material term. */
  function WithPawnValue(w: Weights, v: Term): Weights
    requires Shaped(w)
  {
    w.(mat := w.mat[PAWN := v])
  }

  /** Changing one type's material term leaves the other types' terms unchanged. */
  lemma {:induction false} OtherTypesUnchanged(w: Weights, v: Term, c: Color, pt: PieceType, occ: Bitboard, own: Bitboard, ss: seq<Sq>)
    requires Shaped(w) && PAWN < pt < PIECE_TYPE_NB
    ensures SquaresTerm(WithPawnValue(w, v), c, pt, occ, own, ss) == SquaresTerm(w, c, pt, occ, own, ss)
    decreases |ss|
  {
    if ss != [] {
      OtherTypesUnchanged(w, v, c, pt, occ, own, ss[1..]);
    }
  }

  /** Changing the pawn material term moves the pawns' terms by that change once per pawn. */
  lemma {:induction false} PawnTermsShift(w: Weights, v: Term, c: Color, occ: Bitboard, own: Bitboard, ss: seq<Sq>)
    requires Shaped(w)
    ensures var d := Term(|ss| * (v.mg - w.mat[PAWN].mg), |ss| * (v.eg - w.mat[PAWN].eg));
      SquaresTerm(WithPawnValue(w, v), c, PAWN, occ, own, ss) == SquaresTerm(w, c, PAWN, occ, own, ss).Plus(d)
    decreases |ss|
  {
    if ss != [] {
      PawnTermsShift(w, v, c, occ, own, ss[1..]);
      var dm, de := v.mg - w.mat[PAWN].mg, v.eg - w.mat[PAWN].eg;
      var p := PieceTerm(w, c, PAWN, ss[0], occ, own);
      assert PieceTerm(WithPawnValue(w, v), c, PAWN, ss[0], occ, own) == p.Plus(Term(dm, de));
      ShiftCombine(p, SquaresTerm(w, c, PAWN, occ, own, ss[1..]), dm, de, |ss| - 1);
    }
  }

  /** A shift by d on the first term and by n times d on the rest is a shift by n + 1 times d on the sum. */
  lemma {:induction false} ShiftCombine(p: Term, rest: Term, dm: int, de: int, n: nat)
    ensures p.Plus(Term(dm, de)).Plus(rest.Plus(Term(n * dm, n * de))) ==
            p.Plus(rest).Plus(Term((n + 1) * dm, (n + 1) * de))
  {
    assert (n + 1) * dm == n * dm + dm && (n + 1) * de == n * de + de;
  }

  lemma {:induction false} HigherTypesUnchanged(w: Weights, v: Term, b: Mailbox, c: Color, lo: nat, hi: nat, occ: Bitboard, own: Bitboard)
    requires Shaped(w) && KNIGHT <= lo && hi <= PIECE_TYPE_NB
    ensures TypesBetween(WithPawnValue(w, v), b, c, lo, hi, occ, own) == TypesBetween(w, b, c, lo, hi, occ, own)
    decreases hi
  {
    if lo < hi {
      OtherTypesUnchanged(w, v, c, hi - 1, occ, own, Ascending(PiecesOf(b, c, hi - 1)));
      HigherTypesUnchanged(w, v, b, c, lo, hi - 1, occ, own);
    }
  }

  /** Starting from PAWN rather than KNIGHT adds the pawns' term in front. */
  lemma {:induction false} PawnsFirst(w: Weights, b: Mailbox, c: Color, hi: nat, occ: Bitboard, own: Bitboard)
    requires Shaped(w) && KNIGHT <= hi <= PIECE_TYPE_NB
    ensures TypesBetween(w, b, c, PAWN, hi, occ, own) ==
      SquaresTerm(w, c, PAWN, occ, own, Ascending(PiecesOf(b, c, PAWN))).Plus(TypesBetween(w, b, c, KNIGHT, hi, occ, own))
    decreases hi
  {
    var pawns := SquaresTerm(w, c, PAWN, occ, own, Ascending(PiecesOf(b, c, PAWN)));
    if hi == KNIGHT {
      assert TypesBetween(w, b, c, PAWN, hi, occ, own) == Zero().Plus(pawns);
      TermLaws(pawns, Zero(), Zero());
    } else {
      PawnsFirst(w, b, c, hi - 1, occ, own);
      TermLaws(pawns, TypesBetween(w, b, c, KNIGHT, hi - 1, occ, own),
        SquaresTerm(w, c, hi - 1, occ, own, Ascending(PiecesOf(b, c, hi - 1))));
    }
  }

  /** As the loop is written, the pawn material weight has no effect on a side's term. */
  lemma {:induction false} PawnValueIgnored(w: Weights, v: Term, b: Mailbox, c: Color)
    requires Shaped(w)
    ensures SideTermAsWritten(WithPawnValue(w, v), b, c) == SideTermAsWritten(w, b, c)
  {
    HigherTypesUnchanged(w, v, b, c, KNIGHT, PIECE_TYPE_NB, Occupied(b), ColorSet(b, c));
  }

  /** Counting the pawns, raising the pawn material weight raises a side's term by the rise once per pawn. */
  lemma {:induction false} PawnValueCounted(w: Weights, v: Term, b: Mailbox, c: Color)
    requires Shaped(w)
    ensures var n := |PiecesOf(b, c, PAWN)|;
      SideTerm(WithPawnValue(w, v), b, c) ==
        SideTerm(w, b, c).Plus(Term(n * (v.mg - w.mat[PAWN].mg), n * (v.eg - w.mat[PAWN].eg)))
  {
    var occ, own := Occupied(b), ColorSet(b, c);
    var pawns := Ascending(PiecesOf(b, c, PAWN));
    var w' := WithPawnValue(w, v);
    var n := |PiecesOf(b, c, PAWN)|;
    var d := Term(n * (v.mg - w.mat[PAWN].mg), n * (v.eg - w.mat[PAWN].eg));
    assert Shaped(w');
    PawnTermsShift(w, v, c, occ, own, pawns);
    HigherTypesUnchanged(w, v, b, c, KNIGHT, PIECE_TYPE_NB, occ, own);
    PawnsFirst(w, b, c, PIECE_TYPE_NB, occ, own);
    PawnsFirst(w', b, c, PIECE_TYPE_NB, occ, own);
    var pawnTerm, higher := SquaresTerm(w, c, PAWN, occ, own, pawns), TypesBetween(w, b, c, KNIGHT, PIECE_TYPE_NB, occ, own);
    assert SideTerm(w, b, c) == pawnTerm.Plus(higher);
    assert SideTerm(w', b, c) == pawnTerm.Plus(d).Plus(higher);
    TermLaws(pawnTerm, d, higher);
    TermLaws(pawnTerm, higher, d);
    TermLaws(d, higher, Zero());
  }

  /** As evaluate is written, its value does not depend on the pawn material weight at all. */
  lemma {:induction false} EvaluationIgnoresPawnValue(w: Weights, v: Term, b: Mailbox, us: Color)
    requires Shaped(w)
    ensures Evaluation(WithPawnValue(w, v), b, us) == Evaluation(w, b, us)
  {
    var w' := WithPawnValue(w, v);
    PawnValueIgnored(w, v, b, us);
    PawnValueIgnored(w, v, b, Other(us));
    var pawns := PiecesOf(b, WHITE, PAWN);
    PawnsTermUnchanged(w, v, pawns, Ascending(pawns));
    assert TotalTerm(w', b, us) == TotalTerm(w, b, us);
  }

  /** The pawn-structure terms read only the isolated and doubled weights. */
  lemma {:induction false} PawnsTermUnchanged(w: Weights, v: Term, pawns: Bitboard, ss: seq<Sq>)
    requires Shaped(w)
    ensures PawnsTerm(WithPawnValue(w, v), pawns, ss) == PawnsTerm(w, pawns, ss)
    decreases |ss|
  {
    if ss != [] {
      PawnsTermUnchanged(w, v, pawns, ss[1..]);
    }
  }
}
