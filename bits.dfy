/** PHP's bitwise `&` on non-negative integers, and the bit-by-bit reading
    of a bitmask: bit k of `a & b` is set exactly when bit k is set in both. */
module Bits {

  function Pow2(k: nat): (p: nat)
    ensures p >= 1
  {
    if k == 0 then 1 else 2 * Pow2(k - 1)
  }

  /** `a & b`, built from the least significant bit upwards. */
  function BitAnd(a: nat, b: nat): nat
    decreases a
  {
    if a == 0 || b == 0 then 0
    else 2 * BitAnd(a / 2, b / 2) + (if a % 2 == 1 && b % 2 == 1 then 1 else 0)
  }

  /** Bit k of n is set: n shifted right k times is odd. */
  predicate Bit(n: nat, k: nat)
    decreases k
  {
    if k == 0 then n % 2 == 1 else Bit(n / 2, k - 1)
  }

  /** Masking with a single power of two tests exactly that bit. */
  lemma {:induction false} BitAndPow2(n: nat, k: nat)
    ensures BitAnd(n, Pow2(k)) != 0 <==> Bit(n, k)
    decreases k
  {
    if k > 0 {
      BitAndPow2(n / 2, k - 1);
      assert Pow2(k) / 2 == Pow2(k - 1);
    }
  }

  /** Masking with 3 tests whether bit 0 or bit 1 is set. */
  lemma BitAndThree(n: nat)
    ensures BitAnd(n, 3) != 0 <==> Bit(n, 0) || Bit(n, 1)
  {
    BitAndPow2(n / 2, 0);
  }

  /** Zero has no bit set. */
  lemma {:induction false} ZeroNoBit(k: nat)
    ensures !Bit(0, k)
    decreases k
  {
    if k > 0 {
      ZeroNoBit(k - 1);
    }
  }

  /** `&` works bit by bit: bit k of `a & b` is set exactly when it is set in both. */
  lemma {:induction false} BitAndBits(a: nat, b: nat, k: nat)
    ensures Bit(BitAnd(a, b), k) <==> Bit(a, k) && Bit(b, k)
    decreases k
  {
    if a == 0 || b == 0 {
      ZeroNoBit(k);
    } else if k > 0 {
      BitAndBits(a / 2, b / 2, k - 1);
      assert BitAnd(a, b) / 2 == BitAnd(a / 2, b / 2);
    }
  }

  /** A number with a set bit is not zero, and a number other than zero has a set bit. */
  lemma {:induction false} NonZeroHasBit(n: nat)
    requires n > 0
    ensures exists k: nat :: Bit(n, k)
    decreases n
  {
    if n % 2 == 1 {
      assert Bit(n, 0);
    } else {
      NonZeroHasBit(n / 2);
      var k: nat :| Bit(n / 2, k);
      assert Bit(n, k + 1);
    }
  }

  /** A number is zero exactly when none of its bits is set. */
  lemma NoBitsIsZero(n: nat)
    ensures n == 0 <==> forall k: nat :: !Bit(n, k)
  {
    if n == 0 {
      forall k: nat ensures !Bit(0, k) {
        ZeroNoBit(k);
      }
    } else {
      NonZeroHasBit(n);
    }
  }
}
