/**
 * The xorshift pseudo-random generator of include/misc.h: a 64-bit state
 * scrambled by three shift-XOR steps, with each output the new state times
 * an odd constant, modulo 2^64 (bv64 arithmetic wraps the same way).
 */
module Prng {
  import opened Bits

  const MULTIPLIER: bv64 := 2685821657736338717

  /** `x ^= x >> k`. */
  function XorShiftRight(x: bv64, k: nat): bv64
    requires k < 64
  {
    x ^ (x >> k)
  }

  /** `x ^= x << k`. */
  function XorShiftLeft(x: bv64, k: nat): bv64
    requires k < 64
  {
    x ^ (x << k)
  }

  /** The state update of rand64: shift right 12, then left 25, then right 27. */
  function Scramble(s: bv64): bv64
  {
    XorShiftRight(XorShiftLeft(XorShiftRight(s, 12), 25), 27)
  }

  /** The value rand64 returns for the new state. */
  function Output(s: bv64): bv64
  {
    s * MULTIPLIER
  }

  /** The state after n calls to rand64. */
  function StateAfter(seed: bv64, n: nat): bv64
  {
    if n == 0 then seed else Scramble(StateAfter(seed, n - 1))
  }

  /** The first n values rand64 returns for a generator built from seed. */
  function Outputs(seed: bv64, n: nat): (out: seq<bv64>)
    ensures |out| == n
  {
    if n == 0 then [] else Outputs(seed, n - 1) + [Output(StateAfter(seed, n))]
  }

  /** The i-th value is the output for the state after i + 1 calls. */
  lemma {:induction false} OutputsAt(seed: bv64, n: nat, i: nat)
    requires i < n
    ensures Outputs(seed, n)[i] == Output(StateAfter(seed, i + 1))
    decreases n
  {
    if i < n - 1 {
      OutputsAt(seed, n - 1, i);
    }
  }

  /** Running n steps and then m more is running n + m steps. */
  lemma {:induction false} StateAfterAdd(seed: bv64, n: nat, m: nat)
    ensures StateAfter(StateAfter(seed, n), m) == StateAfter(seed, n + m)
    decreases m
  {
    if m > 0 {
      StateAfterAdd(seed, n, m - 1);
    }
  }

  /**
   * The generator carries no hidden state: the values after the first n are
   * those of a fresh generator seeded with the state reached after n calls.
   */
  lemma {:induction false} OutputsSplit(seed: bv64, n: nat, m: nat)
    ensures Outputs(seed, n + m) == Outputs(seed, n) + Outputs(StateAfter(seed, n), m)
    decreases m
  {
    if m > 0 {
      OutputsSplit(seed, n, m - 1);
      StateAfterAdd(seed, n, m);
      var mid := StateAfter(seed, n);
      var a, b, last := Outputs(seed, n), Outputs(mid, m - 1), [Output(StateAfter(seed, n + m))];
      assert Outputs(mid, m) == b + last;
      assert Outputs(seed, n + m) == (a + b) + last;
      assert (a + b) + last == a + (b + last);
    }
  }

  class PRNG {
    var s: bv64

    constructor(seed: bv64)
      ensures s == seed
    {
      s := seed;
    }

    /** One call: scramble the state in place, then return it times the multiplier. */
    method Rand64() returns (r: bv64)
      modifies this
      ensures s == Scramble(old(s)) && r == Output(s)
    {
      s := XorShiftRight(s, 12);
      s := XorShiftLeft(s, 25);
      s := XorShiftRight(s, 27);
      r := Output(s);
    }

    /** `rand<T>()` for an unsigned T of width bits: rand64() converted, keeping its low bits. */
    method Rand(bits: nat) returns (r: nat)
      requires 0 < bits <= 64
      modifies this
      ensures s == Scramble(old(s))
      ensures r == Output(s) as int % Pow2(bits) && r < Pow2(bits)
    {
      var x := Rand64();
      r := x as int % Pow2(bits);
    }

    /** n successive calls to rand64 from the current state. */
    method Draw(n: nat) returns (out: seq<bv64>)
      modifies this
      ensures out == Outputs(old(s), n)
      ensures s == StateAfter(old(s), n)
    {
      out := [];
      var i := 0;
      while i < n
        invariant 0 <= i <= n
        invariant s == StateAfter(old(s), i)
        invariant out == Outputs(old(s), i)
      {
        var r := Rand64();
        out := out + [r];
        i := i + 1;
      }
    }
  }
}
