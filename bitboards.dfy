/**
 * 64-bit bitboards (include/bitboard.h). A Bitboard is the set of indices of
 * its set bits: `&`, `|` and `~` are intersection, union and complement, a
 * shift moves every member (bits shifted past either end are lost), and
 * `bb - 1` on the 64-bit word is Dec below.
 */
module Bitboards {
  import opened Types

  type Bitboard = set<Sq>

  const AllSquares: Bitboard := set s: Sq | true

  /** FileABB = 0x0101010101010101, Rank1BB = 0xFF (src/bitboard.cpp). */
  const FileABB: Bitboard := set s: Sq | s % 8 == 0
  const Rank1BB: Bitboard := set s: Sq | s < 8

  /** square_bb(s) = 1 << s: the one-element set. */
  function SquareBB(s: Sq): (b: Bitboard)
    ensures s in b && |b| == 1
    ensures forall t: Sq :: t in b <==> t == s
  {
    {s}
  }

  /** `~b` */
  function Complement(b: Bitboard): (r: Bitboard)
    ensures forall t: Sq :: t in r <==> t !in b
  {
    set t: Sq | t !in b
  }

  /** Bit arithmetic on indices, named so that set comprehensions have a trigger. */
  function Minus(t: int, k: int): int { t - k }
  function Plus(t: int, k: int): int { t + k }

  /** `b << k`: bit t of the result is bit t - k of b. */
  function Shl(b: Bitboard, k: nat): (r: Bitboard)
    ensures forall t: Sq :: t in r <==> t >= k && t - k in b
  {
    set t: Sq | t >= k && Minus(t, k) in b
  }

  /** `b >> k`: bit t of the result is bit t + k of b. */
  function Shr(b: Bitboard, k: nat): (r: Bitboard)
    ensures forall t: Sq :: t in r <==> t + k < 64 && t + k in b
  {
    set t: Sq | t + k < 64 && Plus(t, k) in b
  }

  /** FileABB << k is file k, for k < 8. */
  lemma {:induction false} ShiftedFileA(s: Sq, k: nat)
    requires k < 8
    ensures s in Shl(FileABB, k) <==> s % 8 == k
  {
    if s % 8 == k {
      assert s - k in FileABB;
    }
  }

  predicate AllAbove(b: Bitboard, i: int)
  {
    forall t :: t in b ==> t >= i
  }

  /** The first member of b at or above i (a count-trailing-zeros scan). */
  function LowestFrom(b: Bitboard, i: int): (s: Square)
    requires 0 <= i <= 64 && AllAbove(b, i)
    ensures b == {} ==> s == SQ_NONE
    ensures b != {} ==> s < 64 && s in b && AllAbove(b, s)
    decreases 64 - i
  {
    if i == 64 then SQ_NONE
    else if i in b then i
    else LowestFrom(b, i + 1)
  }

  /** lsb(bb): SQ_NONE for the empty board, else the lowest set bit. */
  function Lsb(b: Bitboard): (s: Square)
    ensures b == {} <==> s == SQ_NONE
    ensures b != {} ==> s in b && forall t :: t in b ==> s <= t
  {
    LowestFrom(b, 0)
  }

  predicate AllBelow(b: Bitboard, i: int)
  {
    forall t :: t in b ==> t <= i
  }

  /** The last member of b at or below i (a count-leading-zeros scan). */
  function HighestFrom(b: Bitboard, i: int): (s: Sq)
    requires b != {} && -1 <= i < 64 && AllBelow(b, i)
    ensures s in b && AllBelow(b, s)
    decreases i + 1
  {
    if i in b then i
    else
      assert i != -1 by {
        var t :| t in b;
      }
      HighestFrom(b, i - 1)
  }

  /** msb(bb) = 63 - clz(bb); clz(0) is undefined, so bb must be nonzero. */
  function Msb(b: Bitboard): (s: Sq)
    requires b != {}
    ensures s in b && forall t :: t in b ==> t <= s
  {
    HighestFrom(b, 63)
  }

  /**
   * `bb - 1` on a 64-bit word: the lowest set bit is cleared and every bit
   * below it is set; 0 - 1 wraps to all ones.
   */
  function Dec(b: Bitboard): Bitboard
  {
    if b == {} then AllSquares
    else (b - {Lsb(b) as Sq}) + set t | t in AllSquares && t < Lsb(b)
  }

  /** `bb & (bb - 1)` clears exactly the lowest set bit. */
  lemma {:induction false} ClearLowest(b: Bitboard)
    ensures b == {} ==> b * Dec(b) == {}
    ensures b != {} ==> b * Dec(b) == b - {Lsb(b) as Sq}
  {
    if b != {} {
      var m := Lsb(b);
      forall t | t in b * Dec(b) ensures t in b - {m as Sq} {
        assert m <= t;
      }
    }
  }

  /** count(bb): the population count, at most 64. */
  function Count(b: Bitboard): (n: nat)
    ensures n <= 64
  {
    CountBound(b);
    |b|
  }

  lemma {:induction false} CountBelow(b: Bitboard, n: int)
    requires 0 <= n <= 64
    requires forall t :: t in b ==> t < n
    ensures |b| <= n
    decreases n
  {
    if n > 0 {
      var lower := b - {(n - 1) as Sq};
      CountBelow(lower, n - 1);
    }
  }

  lemma {:induction false} CountBound(b: Bitboard)
    ensures |b| <= 64
  {
    CountBelow(b, 64);
  }

  /**
   * pop_lsb(bb): returns lsb(bb) and clears that bit of bb (the new value of
   * bb is `rest`); an empty bb stays empty.
   */
  method PopLsb(bb: Bitboard) returns (s: Square, rest: Bitboard)
    ensures s == Lsb(bb)
    ensures bb == {} ==> rest == {}
    ensures bb != {} ==> s < 64 && rest == bb - {s as Sq}
    ensures bb != {} ==> Count(rest) == Count(bb) - 1
  {
    s := Lsb(bb);
    rest := bb * Dec(bb);
    ClearLowest(bb);
  }

  /** The squares of b in ascending order, the order in which pop_lsb hands them out. */
  function Ascending(b: Bitboard): (r: seq<Sq>)
    ensures |r| == |b|
    decreases |b|
  {
    if b == {} then []
    else
      var s: Sq := Lsb(b);
      [s] + Ascending(b - {s})
  }

  /** The ascending order lists exactly the squares of b. */
  lemma {:induction false} AscendingMembers(b: Bitboard)
    ensures forall t: Sq :: t in Ascending(b) <==> t in b
    decreases |b|
  {
    if b != {} {
      var s: Sq := Lsb(b);
      AscendingMembers(b - {s});
    }
  }

  /** Popping the lowest square off b leaves the rest of b's ascending order. */
  lemma AscendingPop(b: Bitboard)
    requires b != {}
    ensures Ascending(b) == [Lsb(b) as Sq] + Ascending(b - {Lsb(b) as Sq})
  {
  }

  /** is_light_square(s): rank + file is odd. */
  function IsLightSquare(s: Sq): bool
  {
    ((s / 8) + (s % 8)) % 2 != 0
  }

  /** a1 is dark, h1 and a8 are light, and neighbouring squares alternate. */
  lemma {:induction false} SquareColours(s: Sq)
    ensures !IsLightSquare(SQ_A1) && IsLightSquare(SQ_H1) && IsLightSquare(SQ_A8)
    ensures IsLightSquare(s) <==> (RankOf(s) + FileOf(s)) % 2 == 1
    ensures FileOf(s) < 7 ==> IsLightSquare(s + 1) != IsLightSquare(s)
    ensures RankOf(s) < 7 ==> IsLightSquare(s + 8) != IsLightSquare(s)
  {
    Coords(s);
    if FileOf(s) < 7 {
      assert RankOf(s + 1) == RankOf(s) && FileOf(s + 1) == FileOf(s) + 1;
    }
    if RankOf(s) < 7 {
      assert RankOf(s + 8) == RankOf(s) + 1 && FileOf(s + 8) == FileOf(s);
    }
  }
}
