/**
 * Bitwise operations on non-negative integers, defined bit by bit from the
 * least significant end, with the facts the engine's masks rely on: AND with
 * 2^k - 1 keeps the low k bits, and AND of masks is the meet of their bits.
 */
module Bits {
  const TWO_64: int := 0x1_0000_0000_0000_0000

  /** uint64_t. */
  type U64 = x: int | 0 <= x < TWO_64

  function Pow2(n: nat): (p: nat)
    ensures p >= 1
  {
    if n == 0 then 1 else 2 * Pow2(n - 1)
  }

  /** Powers of two multiply by adding exponents. */
  lemma {:induction false} Pow2Add(a: nat, b: nat)
    ensures Pow2(a + b) == Pow2(a) * Pow2(b)
    decreases a
  {
    if a > 0 {
      Pow2Add(a - 1, b);
      assert Pow2(a + b) == 2 * Pow2(a - 1 + b);
    }
  }

  lemma Pow2Of64()
    ensures Pow2(8) == 0x100 && Pow2(16) == 0x1_0000 && Pow2(32) == 0x1_0000_0000 && Pow2(64) == TWO_64
  {
    Pow2Of32();
    Pow2Add(32, 32);
  }

  lemma Pow2Of32()
    ensures Pow2(8) == 0x100 && Pow2(16) == 0x1_0000 && Pow2(32) == 0x1_0000_0000
  {
    Pow2Of16();
    Pow2Add(16, 16);
  }

  lemma Pow2Of16()
    ensures Pow2(8) == 0x100 && Pow2(16) == 0x1_0000
  {
    Pow2Of8();
    Pow2Add(8, 8);
  }

  lemma Pow2Of8()
    ensures Pow2(8) == 0x100
  {
    assert Pow2(4) == 16;
  }

  /** XOR of two 64-bit values is a 64-bit value. */
  lemma Xor64(a: U64, b: U64)
    ensures BitXor(a, b) < TWO_64
  {
    Pow2Of64();
    XorBound(a, b, 64);
  }

  /** `a ^ b` on uint64_t. */
  function Xor(a: U64, b: U64): U64
  {
    Xor64(a, b);
    BitXor(a, b)
  }

  /** `a & b`. */
  function BitAnd(a: nat, b: nat): (r: nat)
    decreases a
  {
    if a == 0 || b == 0 then 0
    else 2 * BitAnd(a / 2, b / 2) + (if a % 2 == 1 && b % 2 == 1 then 1 else 0)
  }

  /** Bit i of a. */
  function Bit(a: nat, i: nat): bool
    decreases i
  {
    if i == 0 then a % 2 == 1 else Bit(a / 2, i - 1)
  }

  /** Bit i of a & b is set exactly when bit i is set in both. */
  lemma {:induction false} BitAndBits(a: nat, b: nat, i: nat)
    ensures Bit(BitAnd(a, b), i) <==> Bit(a, i) && Bit(b, i)
    decreases a
  {
    var r := BitAnd(a, b);
    if a == 0 || b == 0 {
      ZeroBits(i);
      if a == 0 { assert !Bit(a, i); } else { assert !Bit(b, i); }
    } else {
      var low := if a % 2 == 1 && b % 2 == 1 then 1 else 0;
      assert r == 2 * BitAnd(a / 2, b / 2) + low;
      HalfOf(BitAnd(a / 2, b / 2), low);
      if i > 0 {
        BitAndBits(a / 2, b / 2, i - 1);
        assert Bit(r, i) == Bit(BitAnd(a / 2, b / 2), i - 1);
      }
    }
  }

  /** Halving drops the low bit. */
  lemma {:induction false} HalfOf(x: nat, low: nat)
    requires low < 2
    ensures (2 * x + low) / 2 == x && (2 * x + low) % 2 == low
  {
  }

  lemma {:induction false} ZeroBits(i: nat)
    ensures !Bit(0, i)
    decreases i
  {
    if i > 0 {
      ZeroBits(i - 1);
    }
  }

  /** Quotient and remainder are unique. */
  lemma {:induction false} DivModUnique(a: int, d: int, q: int, r: int)
    requires d > 0 && 0 <= r < d && a == q * d + r
    ensures a / d == q && a % d == r
  {
    var q', r' := a / d, a % d;
    MulSub(q, q', d);
    assert (q - q') * d == r' - r;
    if q' < q {
      MulAtLeast(q - q', d);
    } else if q < q' {
      MulAtLeast(q' - q, d);
      MulSub(q', q, d);
    }
  }

  lemma MulSub(x: int, y: int, d: int)
    ensures x * d - y * d == (x - y) * d
  {
  }

  lemma {:induction false} MulAtLeast(x: int, d: int)
    requires x >= 1 && d > 0
    ensures x * d >= d
  {
    assert x * d == (x - 1) * d + d;
    assert (x - 1) * d >= 0;
  }

  /** AND with the mask 2^k - 1 keeps the remainder modulo 2^k. */
  lemma {:induction false} LowMask(a: nat, k: nat)
    ensures BitAnd(a, Pow2(k) - 1) == a % Pow2(k)
    decreases k
  {
    if k == 0 {
    } else if a == 0 {
    } else {
      var p := Pow2(k - 1);
      LowMask(a / 2, k - 1);
      LowMaskStep(a, p);
      assert Pow2(k) == 2 * p;
    }
  }

  /** One step of LowMask: from the mask 2^k - 1 on a / 2 to the mask 2^(k+1) - 1 on a. */
  lemma {:induction false} LowMaskStep(a: nat, p: nat)
    requires a != 0 && p >= 1 && BitAnd(a / 2, p - 1) == (a / 2) % p
    ensures BitAnd(a, 2 * p - 1) == a % (2 * p)
  {
    AndOddMask(a, p - 1);
    HalfRemainder(a, p);
  }

  /** AND with an odd mask 2m + 1 keeps the low bit and ANDs the rest with m. */
  lemma {:induction false} AndOddMask(a: nat, m: nat)
    requires a != 0
    ensures BitAnd(a, 2 * m + 1) == 2 * BitAnd(a / 2, m) + a % 2
  {
    HalfOf(m, 1);
  }

  /** a mod 2p is twice (a / 2) mod p plus the low bit of a. */
  lemma {:induction false} HalfRemainder(a: nat, p: nat)
    requires p >= 1
    ensures a % (2 * p) == 2 * ((a / 2) % p) + a % 2
  {
    var t, u := (a / 2) / p, (a / 2) % p;
    assert a / 2 == t * p + u;
    assert a == 2 * (a / 2) + a % 2;
    assert 2 * (t * p) == t * (2 * p);
    DivModUnique(a, 2 * p, t, 2 * u + a % 2);
  }

  /** `a | b`. */
  function BitOr(a: nat, b: nat): (r: nat)
    decreases a + b
  {
    if a == 0 then b
    else if b == 0 then a
    else 2 * BitOr(a / 2, b / 2) + (if a % 2 == 1 || b % 2 == 1 then 1 else 0)
  }

  /** OR of a value below 2^k with a multiple of 2^k is their sum: the bit fields do not overlap. */
  lemma {:induction false} DisjointOr(a: nat, b: nat, k: nat)
    requires a < Pow2(k)
    ensures BitOr(a, b * Pow2(k)) == a + b * Pow2(k)
    decreases k
  {
    if k > 0 && a != 0 && b != 0 {
      var p := Pow2(k - 1);
      assert b * Pow2(k) == 2 * (b * p);
      assert (2 * (b * p)) / 2 == b * p && (2 * (b * p)) % 2 == 0;
      DisjointOr(a / 2, b, k - 1);
    }
  }

  /** `a & (1 << i)` is nonzero exactly when bit i of a is set. */
  lemma {:induction false} SingleBit(a: nat, i: nat)
    ensures BitAnd(a, Pow2(i)) != 0 <==> Bit(a, i)
    decreases i
  {
    if i == 0 {
      LowMask(a, 1);
    } else if a != 0 {
      var p := Pow2(i - 1);
      assert Pow2(i) == 2 * p && (2 * p) / 2 == p && (2 * p) % 2 == 0;
      assert BitAnd(a, 2 * p) == 2 * BitAnd(a / 2, p);
      SingleBit(a / 2, i - 1);
    } else {
      ZeroBits(i);
    }
  }

  /** OR of two values below 2^k stays below 2^k. */
  lemma {:induction false} BitOrBound(a: nat, b: nat, k: nat)
    requires a < Pow2(k) && b < Pow2(k)
    ensures BitOr(a, b) < Pow2(k)
    decreases k
  {
    if k > 0 && a != 0 && b != 0 {
      BitOrBound(a / 2, b / 2, k - 1);
    }
  }

  /** Bit i of a | b is set exactly when it is set in either. */
  lemma {:induction false} BitOrBits(a: nat, b: nat, i: nat)
    ensures Bit(BitOr(a, b), i) <==> Bit(a, i) || Bit(b, i)
    decreases a + b
  {
    if a == 0 {
      ZeroBits(i);
    } else if b == 0 {
      ZeroBits(i);
    } else {
      var low := if a % 2 == 1 || b % 2 == 1 then 1 else 0;
      var r := BitOr(a, b);
      assert r == 2 * BitOr(a / 2, b / 2) + low;
      HalfOf(BitOr(a / 2, b / 2), low);
      if i > 0 {
        BitOrBits(a / 2, b / 2, i - 1);
        assert Bit(r, i) == Bit(BitOr(a / 2, b / 2), i - 1);
      }
    }
  }

  /** `a ^ b`. */
  function BitXor(a: nat, b: nat): (r: nat)
    decreases a + b
  {
    if a == 0 then b
    else if b == 0 then a
    else 2 * BitXor(a / 2, b / 2) + (if a % 2 == b % 2 then 0 else 1)
  }

  /** Every XOR splits into its low bit and the XOR of the halves. */
  lemma {:induction false} XorSplit(a: nat, b: nat)
    ensures BitXor(a, b) == 2 * BitXor(a / 2, b / 2) + (if a % 2 == b % 2 then 0 else 1)
  {
    if a == 0 {
      assert BitXor(a / 2, b / 2) == b / 2;
    } else if b == 0 {
      assert BitXor(a / 2, b / 2) == a / 2 by {
        if a / 2 != 0 {
          assert BitXor(a / 2, 0) == a / 2;
        }
      }
    }
  }

  lemma {:induction false} XorHalves(a: nat, b: nat)
    ensures BitXor(a, b) / 2 == BitXor(a / 2, b / 2) && (BitXor(a, b) % 2 == 0 <==> a % 2 == b % 2)
  {
    XorSplit(a, b);
  }

  lemma {:induction false} XorComm(a: nat, b: nat)
    ensures BitXor(a, b) == BitXor(b, a)
    decreases a + b
  {
    if a != 0 && b != 0 {
      XorComm(a / 2, b / 2);
    }
  }

  lemma {:induction false} XorAssoc(a: nat, b: nat, c: nat)
    ensures BitXor(BitXor(a, b), c) == BitXor(a, BitXor(b, c))
    decreases a + b + c
  {
    if a == 0 {
      assert BitXor(a, b) == b;
    } else if b == 0 {
      assert BitXor(a, b) == a && BitXor(b, c) == c;
    } else if c == 0 {
      assert BitXor(b, c) == b;
      XorZero(BitXor(a, b));
    } else {
      XorAssoc(a / 2, b / 2, c / 2);
      XorAssocStep(a, b, c);
    }
  }

  /** The inductive step of XorAssoc: equal halves and equal low bits. */
  lemma {:induction false} XorAssocStep(a: nat, b: nat, c: nat)
    requires BitXor(BitXor(a / 2, b / 2), c / 2) == BitXor(a / 2, BitXor(b / 2, c / 2))
    ensures BitXor(BitXor(a, b), c) == BitXor(a, BitXor(b, c))
  {
    XorSplit(BitXor(a, b), c);
    XorSplit(a, BitXor(b, c));
    XorHalves(a, b);
    XorHalves(b, c);
  }

  lemma {:induction false} XorSelf(a: nat)
    ensures BitXor(a, a) == 0
    decreases a
  {
    if a != 0 {
      XorSelf(a / 2);
    }
  }

  lemma XorZero(a: nat)
    ensures BitXor(a, 0) == a && BitXor(0, a) == a
  {
  }

  /** Bit i of a ^ b is set exactly when it is set in one of the two. */
  lemma {:induction false} XorBit(a: nat, b: nat, i: nat)
    ensures Bit(BitXor(a, b), i) <==> Bit(a, i) != Bit(b, i)
    decreases a + b
  {
    if a == 0 {
      ZeroBits(i);
    } else if b == 0 {
      ZeroBits(i);
    } else {
      XorHalves(a, b);
      if i > 0 {
        XorBit(a / 2, b / 2, i - 1);
      }
    }
  }

  /** Two numbers with the same bits are equal. */
  lemma {:induction false} BitsEqual(x: nat, y: nat)
    requires forall i: nat :: Bit(x, i) == Bit(y, i)
    ensures x == y
    decreases x + y
  {
    if x != 0 || y != 0 {
      forall i: nat ensures Bit(x / 2, i) == Bit(y / 2, i) {
        assert Bit(x, i + 1) == Bit(y, i + 1);
      }
      BitsEqual(x / 2, y / 2);
      assert Bit(x, 0) == Bit(y, 0);
    }
  }

  /** XOR-ing the same value twice cancels. */
  lemma {:induction false} XorCancel(x: nat, a: nat)
    ensures BitXor(BitXor(x, a), a) == x
  {
    XorAssoc(x, a, a);
    XorSelf(a);
    XorZero(x);
  }

  /** The last two of three XOR-ed values may trade places. */
  lemma {:induction false} XorSwap(x: nat, a: nat, c: nat)
    ensures BitXor(BitXor(x, a), c) == BitXor(BitXor(x, c), a)
  {
    XorAssoc(x, a, c);
    XorComm(a, c);
    XorAssoc(x, c, a);
  }

  /** XOR of two values below 2^k stays below 2^k. */
  lemma {:induction false} XorBound(a: nat, b: nat, k: nat)
    requires a < Pow2(k) && b < Pow2(k)
    ensures BitXor(a, b) < Pow2(k)
    decreases k
  {
    if k > 0 && a != 0 && b != 0 {
      XorBound(a / 2, b / 2, k - 1);
    }
  }

  /** AND with a mask never exceeds either operand. */
  lemma {:induction false} BitAndBound(a: nat, b: nat)
    ensures BitAnd(a, b) <= a && BitAnd(a, b) <= b
    decreases a
  {
    if a != 0 && b != 0 {
      BitAndBound(a / 2, b / 2);
    }
  }

  /** `a & b` is `b & a`. */
  lemma {:induction false} BitAndCommutes(a: nat, b: nat)
    ensures BitAnd(a, b) == BitAnd(b, a)
    decreases a
  {
    if a != 0 && b != 0 {
      BitAndCommutes(a / 2, b / 2);
    }
  }
}
