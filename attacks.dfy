/**
 * Attack generation (src/bitboard.cpp): the sliding-attack walk, the pawn,
 * knight and king attack masks with their file guards, the tables `init`
 * fills, and queen attacks as the union of rook and bishop attacks. Rook and
 * bishop attacks are the sliding attack over the real occupancy (the magic
 * lookup that caches it is not part of this model).
 */
module Attacks {
  import opened Types
  import opened Bitboards

  const RookDirs: seq<Direction> := [NORTH, SOUTH, EAST, WEST]
  const BishopDirs: seq<Direction> := [NORTH_EAST, NORTH_WEST, SOUTH_EAST, SOUTH_WEST]

  predicate AllDirections(dirs: seq<Direction>)
  {
    forall i :: 0 <= i < |dirs| ==> IsDirection(dirs[i])
  }

  /** The break tests of the inner walk: a step in direction d would leave the board. */
  predicate AtEdge(s: Sq, d: Direction)
  {
    var r, f := s / 8, s % 8;
    (d == NORTH && r == 7) || (d == SOUTH && r == 0) ||
    (d == EAST && f == 7) || (d == WEST && f == 0) ||
    (d == NORTH_EAST && (r == 7 || f == 7)) || (d == NORTH_WEST && (r == 7 || f == 0)) ||
    (d == SOUTH_EAST && (r == 0 || f == 7)) || (d == SOUTH_WEST && (r == 0 || f == 0))
  }

  /** The number of steps in direction d before the edge (8 means unbounded). */
  function StepsLeft(s: Sq, d: Direction): nat
  {
    var r, f := s / 8, s % 8;
    var byRank := if DeltaRank(d) == 1 then 7 - r else if DeltaRank(d) == -1 then r else 8;
    var byFile := if DeltaFile(d) == 1 then 7 - f else if DeltaFile(d) == -1 then f else 8;
    if byRank < byFile then byRank else byFile
  }

  /** The edge test is exactly "one more step leaves the board". */
  lemma {:induction false} EdgeMeansOffBoard(s: Sq, d: Direction)
    requires IsDirection(d)
    ensures AtEdge(s, d) <==> !OnBoard(RankOf(s) + DeltaRank(d), FileOf(s) + DeltaFile(d))
    ensures !AtEdge(s, d) ==> 0 <= s + d < 64 && StepsLeft(s + d, d) < StepsLeft(s, d)
  {
    Coords(s);
    if !AtEdge(s, d) {
      DirectionStep(s, d);
    }
  }

  /**
   * The squares the walk from s in direction d adds: each next square up to
   * the edge, stopping after the first occupied one.
   */
  function Ray(s: Sq, occ: Bitboard, d: Direction): Bitboard
    requires IsDirection(d)
    decreases StepsLeft(s, d)
  {
    if AtEdge(s, d) then {}
    else
      EdgeMeansOffBoard(s, d);
      var n: Sq := s + d;
      {n} + (if n in occ then {} else Ray(n, occ, d))
  }

  /** The union of the rays of dirs, accumulated in the order of dirs. */
  function SlidingAttacks(sq: Sq, occ: Bitboard, dirs: seq<Direction>): Bitboard
    requires AllDirections(dirs)
  {
    if dirs == [] then {}
    else SlidingAttacks(sq, occ, dirs[..|dirs| - 1]) + Ray(sq, occ, dirs[|dirs| - 1])
  }

  lemma {:induction false} RayStep(s: Sq, occ: Bitboard, d: Direction)
    requires IsDirection(d) && !AtEdge(s, d)
    ensures 0 <= s + d < 64
    ensures (s + d) in occ ==> Ray(s, occ, d) == {(s + d) as Sq}
    ensures (s + d) !in occ ==> Ray(s, occ, d) == {(s + d) as Sq} + Ray((s + d) as Sq, occ, d)
  {
    EdgeMeansOffBoard(s, d);
  }

  /** One step of the walk keeps `ray + Ray(s)` unchanged. */
  lemma {:induction false} WalkStep(ray: Bitboard, s: Sq, occ: Bitboard, d: Direction)
    requires IsDirection(d) && !AtEdge(s, d)
    ensures 0 <= s + d < 64
    ensures (s + d) in occ ==> ray + SquareBB((s + d) as Sq) == ray + Ray(s, occ, d)
    ensures (s + d) !in occ ==>
      ray + SquareBB((s + d) as Sq) + Ray((s + d) as Sq, occ, d) == ray + Ray(s, occ, d)
  {
    RayStep(s, occ, d);
    var n: Sq := s + d;
    assert SquareBB(n) == {n};
  }

  /** The inner loop of sliding_attack: walk from sq in direction d. */
  method WalkRay(sq: Sq, occupied: Bitboard, d: Direction) returns (ray: Bitboard)
    requires IsDirection(d)
    ensures ray == Ray(sq, occupied, d)
  {
    ray := {};
    var s: Sq := sq;
    while true
      invariant ray + Ray(s, occupied, d) == Ray(sq, occupied, d)
      decreases StepsLeft(s, d)
    {
      if AtEdge(s, d) { break; }
      EdgeMeansOffBoard(s, d);
      WalkStep(ray, s, occupied, d);
      s := s + d;
      ray := ray + SquareBB(s);
      if s in occupied { break; }
    }
  }

  /** sliding_attack(sq, occupied, dirs, dir_count): the union of the walks, direction by direction. */
  method SlidingAttack(sq: Sq, occupied: Bitboard, dirs: seq<Direction>) returns (attacks: Bitboard)
    requires AllDirections(dirs)
    ensures attacks == SlidingAttacks(sq, occupied, dirs)
  {
    attacks := {};
    var i := 0;
    while i < |dirs|
      invariant 0 <= i <= |dirs|
      invariant attacks == SlidingAttacks(sq, occupied, dirs[..i])
    {
      var ray := WalkRay(sq, occupied, dirs[i]);
      attacks := attacks + ray;
      assert dirs[..i + 1][..i] == dirs[..i];
      i := i + 1;
    }
    assert dirs[..|dirs|] == dirs;
  }

  /**
   * rook_attacks and bishop_attacks as the magic tables are meant to answer
   * them: the sliding attack over the occupancy. This is an idealisation;
   * with the magic numbers and shifts of the source, distinct occupancies
   * share a table index, so the real tables need not hold these sets.
   */
  function RookAttacks(s: Sq, occ: Bitboard): Bitboard
  {
    SlidingAttacks(s, occ, RookDirs)
  }

  function BishopAttacks(s: Sq, occ: Bitboard): Bitboard
  {
    SlidingAttacks(s, occ, BishopDirs)
  }

  /** queen_attacks: the union of rook and bishop attacks. */
  function QueenAttacks(s: Sq, occ: Bitboard): Bitboard
  {
    RookAttacks(s, occ) + BishopAttacks(s, occ)
  }

  lemma {:induction false} SlidingAttacksAppend(sq: Sq, occ: Bitboard, a: seq<Direction>, b: seq<Direction>)
    requires AllDirections(a) && AllDirections(b)
    ensures AllDirections(a + b)
    ensures SlidingAttacks(sq, occ, a + b) == SlidingAttacks(sq, occ, a) + SlidingAttacks(sq, occ, b)
    decreases |b|
  {
    assert AllDirections(a + b);
    if b == [] {
      assert a + b == a;
    } else {
      var b' := b[..|b| - 1];
      var r := Ray(sq, occ, b[|b| - 1]);
      SlidingAttacksAppend(sq, occ, a, b');
      assert (a + b)[..|a + b| - 1] == a + b';
      assert (a + b)[|a + b| - 1] == b[|b| - 1];
      calc {
        SlidingAttacks(sq, occ, a + b);
        SlidingAttacks(sq, occ, a + b') + r;
        SlidingAttacks(sq, occ, a) + SlidingAttacks(sq, occ, b') + r;
        SlidingAttacks(sq, occ, a) + SlidingAttacks(sq, occ, b);
      }
    }
  }

  /** A queen attacks exactly what a slider in all eight directions attacks. */
  lemma {:induction false} QueenIsEightDirections(s: Sq, occ: Bitboard)
    ensures AllDirections(RookDirs + BishopDirs)
    ensures QueenAttacks(s, occ) == SlidingAttacks(s, occ, RookDirs + BishopDirs)
  {
    SlidingAttacksAppend(s, occ, RookDirs, BishopDirs);
  }

  /** k * x for a step x in {-1, 0, 1}, written without multiplication. */
  function Scale(k: int, x: int): int
  {
    if x == 1 then k else if x == -1 then -k else 0
  }

  /** The first k steps from s in direction d stay on the board. */
  predicate InLine(s: Sq, d: Direction, k: nat)
    requires IsDirection(d)
    decreases k
  {
    k == 0 || (!AtEdge(s, d) && (EdgeMeansOffBoard(s, d); InLine((s + d) as Sq, d, k - 1)))
  }

  /** The square k steps from s in direction d (the last square reached before an edge). */
  function LineSquare(s: Sq, d: Direction, k: nat): Sq
    requires IsDirection(d)
    decreases k
  {
    if k == 0 || AtEdge(s, d) then s
    else EdgeMeansOffBoard(s, d); LineSquare((s + d) as Sq, d, k - 1)
  }

  /** On the line, step k has rank r + k*dr and file f + k*df: nothing wraps. */
  lemma {:induction false} LineCoords(s: Sq, d: Direction, k: nat)
    requires IsDirection(d) && InLine(s, d, k)
    ensures RankOf(LineSquare(s, d, k)) == RankOf(s) + Scale(k, DeltaRank(d))
    ensures FileOf(LineSquare(s, d, k)) == FileOf(s) + Scale(k, DeltaFile(d))
    ensures LineSquare(s, d, k) == s + k * d
    decreases k
  {
    if k > 0 {
      EdgeMeansOffBoard(s, d);
      DirectionStep(s, d);
      LineCoords((s + d) as Sq, d, k - 1);
      assert s + d + (k - 1) * d == s + k * d;
    }
  }

  /** No step k >= 1 along a line returns to its origin. */
  lemma {:induction false} LineLeavesOrigin(s: Sq, d: Direction, k: nat)
    requires IsDirection(d) && k >= 1 && InLine(s, d, k)
    ensures LineSquare(s, d, k) != s
  {
    LineCoords(s, d, k);
    DirectionValues(d);
  }

  /** A line that reaches step k also reaches every earlier step. */
  lemma {:induction false} InLinePrefix(s: Sq, d: Direction, k: nat, j: nat)
    requires IsDirection(d) && InLine(s, d, k) && j <= k
    ensures InLine(s, d, j)
    decreases j
  {
    if j > 0 {
      EdgeMeansOffBoard(s, d);
      InLinePrefix((s + d) as Sq, d, k - 1, j - 1);
    }
  }

  /** A member of a ray is the next square or a member of the ray from there. */
  lemma {:induction false} RayTail(s: Sq, occ: Bitboard, d: Direction, t: Sq)
    requires IsDirection(d) && t in Ray(s, occ, d)
    ensures !AtEdge(s, d) && 0 <= s + d < 64 && StepsLeft(s + d, d) < StepsLeft(s, d)
    ensures t != s + d ==> (s + d) !in occ && t in Ray((s + d) as Sq, occ, d)
  {
    EdgeMeansOffBoard(s, d);
    RayStep(s, occ, d);
  }

  /**
   * Every square of a ray lies k >= 1 steps along the direction, on the
   * geometric line.
   */
  lemma {:induction false} RayOnLine(s: Sq, occ: Bitboard, d: Direction, t: Sq) returns (k: nat)
    requires IsDirection(d) && t in Ray(s, occ, d)
    ensures k >= 1 && InLine(s, d, k) && t == LineSquare(s, d, k)
    decreases StepsLeft(s, d)
  {
    RayTail(s, occ, d, t);
    var n: Sq := s + d;
    if t == n {
      k := 1;
    } else {
      var k' := RayOnLine(n, occ, d, t);
      k := k' + 1;
    }
  }

  /** The squares 1 .. k-1 steps along the line are empty. */
  predicate ClearBefore(s: Sq, occ: Bitboard, d: Direction, k: nat)
    requires IsDirection(d)
  {
    forall j :: 1 <= j < k ==> LineSquare(s, d, j) !in occ
  }

  /**
   * The square k steps along the line is in the ray exactly when every
   * square strictly before it is empty: the walk includes the first occupied
   * square and stops there.
   */
  lemma {:induction false} RayMember(s: Sq, occ: Bitboard, d: Direction, k: nat)
    requires IsDirection(d) && k >= 1 && InLine(s, d, k)
    ensures LineSquare(s, d, k) in Ray(s, occ, d) <==> ClearBefore(s, occ, d, k)
    decreases k
  {
    RayStep(s, occ, d);
    EdgeMeansOffBoard(s, d);
    var n: Sq := s + d;
    var t := LineSquare(s, d, k);
    assert LineSquare(s, d, 1) == n;
    if k > 1 {
      assert InLine(n, d, k - 1) && LineSquare(n, d, k - 1) == t;
      RayMember(n, occ, d, k - 1);
      LineLeavesOrigin(n, d, k - 1);
      if ClearBefore(s, occ, d, k) {
        assert n !in occ;
        forall j | 1 <= j < k - 1 ensures LineSquare(n, d, j) !in occ {
          assert LineSquare(n, d, j) == LineSquare(s, d, j + 1);
        }
      } else if t in Ray(s, occ, d) {
        RayTail(s, occ, d, t);
        forall j | 1 <= j < k ensures LineSquare(s, d, j) !in occ {
          if j > 1 {
            assert LineSquare(s, d, j) == LineSquare(n, d, j - 1);
          }
        }
      }
    }
  }

  /** A slider never attacks its own square. */
  lemma {:induction false} SlidingExcludesOrigin(s: Sq, occ: Bitboard, dirs: seq<Direction>)
    requires AllDirections(dirs)
    ensures s !in SlidingAttacks(s, occ, dirs)
    decreases |dirs|
  {
    if dirs != [] {
      SlidingExcludesOrigin(s, occ, dirs[..|dirs| - 1]);
      if s in Ray(s, occ, dirs[|dirs| - 1]) {
        var k := RayOnLine(s, occ, dirs[|dirs| - 1], s);
        LineLeavesOrigin(s, dirs[|dirs| - 1], k);
      }
    }
  }

  /**
   * With b = square_bb(s), the guards `b & ~m` and `b & m` of init are
   * nonzero exactly when s lies outside, respectively inside, m; the masks
   * below test the membership directly.
   */
  lemma {:induction false} SquareGuard(s: Sq, m: Bitboard)
    ensures SquareBB(s) * Complement(m) != {} <==> s !in m
    ensures SquareBB(s) * m != {} <==> s in m
  {
    if SquareBB(s) * Complement(m) != {} {
      var x :| x in SquareBB(s) * Complement(m);
    }
    if s !in m {
      assert s in SquareBB(s) * Complement(m);
    }
    if SquareBB(s) * m != {} {
      var x :| x in SquareBB(s) * m;
    }
    if s in m {
      assert s in SquareBB(s) * m;
    }
  }

  /** White pawns attack b<<7 off file A and b<<9 off file H; black b>>9 and b>>7. */
  function PawnMask(c: Color, s: Sq): Bitboard
  {
    var b := SquareBB(s);
    var notA := s !in FileABB;
    var notH := s !in Shl(FileABB, 7);
    if c == WHITE then
      (if notA then Shl(b, 7) else {}) + (if notH then Shl(b, 9) else {})
    else
      (if notA then Shr(b, 9) else {}) + (if notH then Shr(b, 7) else {})
  }

  function KnightMask(s: Sq): Bitboard
  {
    var b := SquareBB(s);
    var k0: Bitboard := {};
    var k1 := if s !in FileABB + Shl(FileABB, 1) then k0 + Shl(b, 6) + Shr(b, 10) else k0;
    var k2 := if s !in FileABB then k1 + Shl(b, 15) + Shr(b, 17) else k1;
    var k3 := if s !in Shl(FileABB, 7) then k2 + Shl(b, 17) + Shr(b, 15) else k2;
    if s !in Shl(FileABB, 7) + Shl(FileABB, 6) then k3 + Shl(b, 10) + Shr(b, 6) else k3
  }

  /** (b<<1 | b>>1), then its union with b shifted by a rank either way; `x & ~b` is x - b. */
  function KingSpread(s: Sq): Bitboard
  {
    var b := SquareBB(s);
    var king := Shl(b, 1) + Shr(b, 1);
    var kingV := b + king;
    (king + Shl(kingV, 8) + Shr(kingV, 8)) - b
  }

  function KingMask(s: Sq): Bitboard
  {
    var king := KingSpread(s);
    var king2 := if s in FileABB then king - Shl(FileABB, 7) else king;
    if s in Shl(FileABB, 7) then king2 - FileABB else king2
  }

  lemma {:induction false} ShlSingle(s: Sq, k: nat, t: Sq)
    ensures t in Shl(SquareBB(s), k) <==> t == s + k
  {
  }

  lemma {:induction false} ShrSingle(s: Sq, k: nat, t: Sq)
    ensures t in Shr(SquareBB(s), k) <==> t + k == s
  {
  }

  lemma {:induction false} FileFacts(s: Sq)
    ensures s in FileABB <==> FileOf(s) == 0
    ensures s in Shl(FileABB, 1) <==> FileOf(s) == 1
    ensures s in Shl(FileABB, 6) <==> FileOf(s) == 6
    ensures s in Shl(FileABB, 7) <==> FileOf(s) == 7
  {
    ShiftedFileA(s, 1);
    ShiftedFileA(s, 6);
    ShiftedFileA(s, 7);
  }

  /** t is diagonally one rank ahead of s, from c's side. */
  predicate PawnCapture(c: Color, s: Sq, t: Sq)
  {
    RankOf(t) == RankOf(s) + (if c == WHITE then 1 else -1) && Abs(FileOf(t) - FileOf(s)) == 1
  }

  /** t is a knight's leap, (1, 2) or (2, 1), away from s. */
  predicate KnightLeap(s: Sq, t: Sq)
  {
    (Abs(RankOf(t) - RankOf(s)) == 1 && Abs(FileOf(t) - FileOf(s)) == 2) ||
    (Abs(RankOf(t) - RankOf(s)) == 2 && Abs(FileOf(t) - FileOf(s)) == 1)
  }

  /** t is one of the up-to-eight neighbours of s. */
  predicate KingStep(s: Sq, t: Sq)
  {
    t != s && Abs(RankOf(t) - RankOf(s)) <= 1 && Abs(FileOf(t) - FileOf(s)) <= 1
  }

  /**
   * pawn_attacks(s, c), knight_attacks(s), king_attacks(s): what the tables
   * hold after init, stated by geometry.
   */
  function PawnAttacks(s: Sq, c: Color): Bitboard
  {
    set t: Sq | PawnCapture(c, s, t)
  }

  function KnightAttacks(s: Sq): Bitboard
  {
    set t: Sq | KnightLeap(s, t)
  }

  function KingAttacks(s: Sq): Bitboard
  {
    set t: Sq | KingStep(s, t)
  }

  /** Pawns attack the two diagonal squares one rank forward, without wrapping. */
  lemma {:induction false} PawnGeometry(c: Color, s: Sq, t: Sq)
    ensures t in PawnMask(c, s) <==> PawnCapture(c, s, t)
  {
    Coords(s);
    Coords(t);
    FileFacts(s);
    ShlSingle(s, 7, t); ShlSingle(s, 9, t); ShrSingle(s, 7, t); ShrSingle(s, 9, t);
    assert s in SquareBB(s);
  }

  /** Knights attack the squares a (1, 2) or (2, 1) leap away, without wrapping. */
  /** The knight offsets init adds, each behind its file guard. */
  predicate KnightOffset(s: Sq, t: Sq)
  {
    (FileOf(s) >= 2 && (t == s + 6 || t + 10 == s)) ||
    (FileOf(s) >= 1 && (t == s + 15 || t + 17 == s)) ||
    (FileOf(s) <= 6 && (t == s + 17 || t + 15 == s)) ||
    (FileOf(s) <= 5 && (t == s + 10 || t + 6 == s))
  }

  lemma {:induction false} KnightMaskMembers(s: Sq, t: Sq)
    ensures t in KnightMask(s) <==> KnightOffset(s, t)
  {
    FileFacts(s);
    ShlSingle(s, 6, t); ShlSingle(s, 10, t); ShlSingle(s, 15, t); ShlSingle(s, 17, t);
    ShrSingle(s, 6, t); ShrSingle(s, 10, t); ShrSingle(s, 15, t); ShrSingle(s, 17, t);
  }

  lemma {:induction false} KnightOffsetGeometry(s: Sq, t: Sq)
    ensures KnightOffset(s, t) <==> KnightLeap(s, t)
  {
    Coords(s);
    Coords(t);
  }

  lemma {:induction false} KnightGeometry(s: Sq, t: Sq)
    ensures t in KnightMask(s) <==> KnightLeap(s, t)
  {
    KnightMaskMembers(s, t);
    KnightOffsetGeometry(s, t);
  }

  lemma {:induction false} KingRowMembers(s: Sq, u: Sq)
    ensures u in SquareBB(s) + (Shl(SquareBB(s), 1) + Shr(SquareBB(s), 1)) <==>
      (u == s || u == s + 1 || u == s - 1)
  {
    ShlSingle(s, 1, u);
    ShrSingle(s, 1, u);
  }

  lemma {:induction false} KingSpreadParts(s: Sq, t: Sq)
    ensures t in KingSpread(s) <==> (t != s && (
      t in Shl(SquareBB(s), 1) + Shr(SquareBB(s), 1) ||
      t in Shl(SquareBB(s) + (Shl(SquareBB(s), 1) + Shr(SquareBB(s), 1)), 8) ||
      t in Shr(SquareBB(s) + (Shl(SquareBB(s), 1) + Shr(SquareBB(s), 1)), 8)))
  {
  }

  lemma {:induction false} KingRankAbove(s: Sq, t: Sq)
    ensures t in Shl(SquareBB(s) + (Shl(SquareBB(s), 1) + Shr(SquareBB(s), 1)), 8) <==>
      t >= 8 && (t - 8 == s || t - 8 == s + 1 || t - 8 == s - 1)
  {
    if t >= 8 {
      KingRowMembers(s, t - 8);
    }
  }

  lemma {:induction false} KingRankBelow(s: Sq, t: Sq)
    ensures t in Shr(SquareBB(s) + (Shl(SquareBB(s), 1) + Shr(SquareBB(s), 1)), 8) <==>
      t + 8 < 64 && (t + 8 == s || t + 8 == s + 1 || t + 8 == s - 1)
  {
    if t + 8 < 64 {
      KingRowMembers(s, t + 8);
    }
  }

  lemma {:induction false} KingSideways(s: Sq, t: Sq)
    ensures t in Shl(SquareBB(s), 1) + Shr(SquareBB(s), 1) <==> t == s + 1 || t == s - 1
  {
    ShlSingle(s, 1, t);
    ShrSingle(s, 1, t);
  }

  predicate KingOffset(s: Sq, t: Sq)
  {
    t != s &&
    (t == s + 1 || t == s - 1 || t == s + 8 || t == s - 8 ||
     t == s + 9 || (t == s + 7 && s >= 1) || (t == s - 7 && s <= 62) || t == s - 9)
  }

  lemma {:induction false} KingCombine(s: Sq, t: Sq, spread: bool, side: bool, above: bool, below: bool)
    requires spread <==> t != s && (side || above || below)
    requires side <==> t == s + 1 || t == s - 1
    requires above <==> t >= 8 && (t - 8 == s || t - 8 == s + 1 || t - 8 == s - 1)
    requires below <==> t + 8 < 64 && (t + 8 == s || t + 8 == s + 1 || t + 8 == s - 1)
    ensures spread <==> KingOffset(s, t)
  {
  }

  /** Before the file guards: the eight index offsets, wrapping across files. */
  lemma {:induction false} KingSpreadMembers(s: Sq, t: Sq)
    ensures t in KingSpread(s) <==> KingOffset(s, t)
  {
    var b := SquareBB(s);
    var row := Shl(b, 1) + Shr(b, 1);
    KingSpreadParts(s, t);
    KingRankAbove(s, t);
    KingRankBelow(s, t);
    KingSideways(s, t);
    KingCombine(s, t, t in KingSpread(s), t in row, t in Shl(b + row, 8), t in Shr(b + row, 8));
  }

  predicate FileWrap(s: Sq, t: Sq)
  {
    (FileOf(s) == 0 && FileOf(t) == 7) || (FileOf(s) == 7 && FileOf(t) == 0)
  }

  /** The two file guards remove exactly the targets that wrapped to the far file. */
  lemma {:induction false} KingMaskGuards(s: Sq, t: Sq)
    ensures t in KingMask(s) <==> t in KingSpread(s) && !FileWrap(s, t)
  {
    FileFacts(s);
    FileFacts(t);
    assert s in SquareBB(s);
  }

  lemma {:induction false} KingOffsetGeometry(s: Sq, t: Sq)
    ensures KingOffset(s, t) && !FileWrap(s, t) <==> KingStep(s, t)
  {
    Coords(s);
    Coords(t);
  }

  /** Kings attack the up-to-eight neighbouring squares, not their own, without wrapping. */
  lemma {:induction false} KingGeometry(s: Sq, t: Sq)
    ensures t in KingMask(s) <==> KingStep(s, t)
  {
    KingMaskGuards(s, t);
    KingSpreadMembers(s, t);
    KingOffsetGeometry(s, t);
  }

  /** The shift formulas of init produce exactly the geometric attack sets. */
  lemma {:induction false} MasksAreAttacks(s: Sq)
    ensures PawnMask(WHITE, s) == PawnAttacks(s, WHITE)
    ensures PawnMask(BLACK, s) == PawnAttacks(s, BLACK)
    ensures KnightMask(s) == KnightAttacks(s)
    ensures KingMask(s) == KingAttacks(s)
  {
    forall t: Sq
      ensures t in PawnMask(WHITE, s) <==> t in PawnAttacks(s, WHITE)
      ensures t in PawnMask(BLACK, s) <==> t in PawnAttacks(s, BLACK)
    {
      PawnGeometry(WHITE, s, t);
      PawnGeometry(BLACK, s, t);
    }
    forall t: Sq ensures t in KnightMask(s) <==> t in KnightAttacks(s) {
      KnightGeometry(s, t);
    }
    forall t: Sq ensures t in KingMask(s) <==> t in KingAttacks(s) {
      KingGeometry(s, t);
    }
  }

  /** One iteration of init's square loop: the four masks of square s. */
  method SquareMasks(s: Sq) returns (whitePawn: Bitboard, blackPawn: Bitboard, knight: Bitboard, king: Bitboard)
    ensures whitePawn == PawnAttacks(s, WHITE) && blackPawn == PawnAttacks(s, BLACK)
    ensures knight == KnightAttacks(s) && king == KingAttacks(s)
  {
    whitePawn := PawnMask(WHITE, s);
    blackPawn := PawnMask(BLACK, s);
    knight := KnightMask(s);
    king := KingMask(s);
    MasksAreAttacks(s);
  }

  /** The global PawnAttacks, KnightAttacks and KingAttacks tables. */
  class AttackTables {
    const pawnAttacks: array2<Bitboard>
    const knightAttacks: array<Bitboard>
    const kingAttacks: array<Bitboard>

    ghost predicate Shaped()
    {
      pawnAttacks.Length0 == 2 && pawnAttacks.Length1 == 64 &&
      knightAttacks.Length == 64 && kingAttacks.Length == 64 &&
      knightAttacks != kingAttacks
    }

    /** Entries of squares below n hold the attack sets. */
    ghost predicate FilledBelow(n: int)
      requires Shaped()
      reads pawnAttacks, knightAttacks, kingAttacks
    {
      (forall c: Color, s: Sq :: s < n ==> pawnAttacks[c, s] == PawnAttacks(s, c)) &&
      (forall s: Sq :: s < n ==> knightAttacks[s] == KnightAttacks(s)) &&
      (forall s: Sq :: s < n ==> kingAttacks[s] == KingAttacks(s))
    }

    ghost predicate Valid()
      reads pawnAttacks, knightAttacks, kingAttacks
    {
      Shaped() && FilledBelow(64)
    }

    /** The zero-initialised tables before init runs. */
    constructor ()
      ensures Shaped()
      ensures fresh(pawnAttacks) && fresh(knightAttacks) && fresh(kingAttacks)
    {
      pawnAttacks := new Bitboard[2, 64]((c, s) => {});
      knightAttacks := new Bitboard[64](s => {});
      kingAttacks := new Bitboard[64](s => {});
    }

    /** The square loop of Bitboards::init that fills the three tables. */
    method Init()
      requires Shaped()
      modifies pawnAttacks, knightAttacks, kingAttacks
      ensures Valid()
    {
      for s := 0 to 64
        invariant FilledBelow(s)
      {
        var whitePawn, blackPawn, knight, king := SquareMasks(s);
        pawnAttacks[WHITE, s] := whitePawn;
        pawnAttacks[BLACK, s] := blackPawn;
        knightAttacks[s] := knight;
        kingAttacks[s] := king;
      }
    }
  }
}
