/** Bits of 32-bit integers, defined arithmetically. */
module Bits {
  import opened Platform

  function Pow2(n: nat): (p: nat)
    ensures p >= 1
  {
    if n == 0 then 1 else 2 * Pow2(n - 1)
  }

  /** 2^30 and 2^31, and every smaller power of two fits an `Int`. */
  lemma Pow2Below(n: nat)
    ensures n <= 30 ==> Pow2(n) <= 0x4000_0000
    ensures n == 31 ==> Pow2(n) == 0x8000_0000
  {
    assert Pow2(8) == 0x100;
    assert Pow2(16) == 0x1_0000 by { Pow2Add(8, 8); }
    assert Pow2(24) == 0x100_0000 by { Pow2Add(16, 8); }
    assert Pow2(30) == 0x4000_0000 by { Pow2Add(24, 6); }
    assert Pow2(31) == 0x8000_0000;
    if n <= 30 { Pow2Monotone(n, 30); }
  }

  lemma {:induction false} Pow2Add(a: nat, b: nat)
    ensures Pow2(a + b) == Pow2(a) * Pow2(b)
  {
    if a > 0 { Pow2Add(a - 1, b); }
  }

  lemma {:induction false} Pow2Monotone(m: nat, n: nat)
    requires m <= n
    ensures Pow2(m) <= Pow2(n)
  {
    if m < n { Pow2Monotone(m, n - 1); }
  }

  /** The two's-complement bit pattern of an `Int`, read as an unsigned number. */
  function Unsigned(x: Int32): (u: nat)
    ensures u < 0x1_0000_0000
    ensures x >= 0 ==> u == x
  {
    if x >= 0 then x else x + 0x1_0000_0000
  }

  /** Bit `i` of `x`, counting from the least significant bit. */
  function Bit(x: nat, i: nat): bool {
    if i == 0 then x % 2 == 1 else Bit(x / 2, i - 1)
  }

  lemma {:induction false} NoBitsOfZero(i: nat)
    ensures !Bit(0, i)
  {
    if i > 0 { NoBitsOfZero(i - 1); }
  }

  /** The low `n` bits of `a & b`. */
  function AndBits(a: nat, b: nat, n: nat): nat {
    if n == 0 then 0
    else (if a % 2 == 1 && b % 2 == 1 then 1 else 0) + 2 * AndBits(a / 2, b / 2, n - 1)
  }

  /** `a & b` has a bit below `n` exactly when `a` and `b` share a set bit below `n`. */
  lemma {:induction false} AndBitsNonZero(a: nat, b: nat, n: nat)
    ensures AndBits(a, b, n) != 0 <==> exists i :: 0 <= i < n && Bit(a, i) && Bit(b, i)
  {
    if n > 0 {
      AndBitsNonZero(a / 2, b / 2, n - 1);
      if AndBits(a, b, n) != 0 {
        if a % 2 == 1 && b % 2 == 1 {
          SharedBit(a, b, n, 0);
        } else {
          var j :| 0 <= j < n - 1 && Bit(a / 2, j) && Bit(b / 2, j);
          assert Bit(a, j + 1) && Bit(b, j + 1);
          SharedBit(a, b, n, j + 1);
        }
      } else {
        forall i | 0 <= i < n
          ensures !(Bit(a, i) && Bit(b, i))
        {
          if i > 0 {
            var j := i - 1;
            assert Bit(a, i) == Bit(a / 2, j) && Bit(b, i) == Bit(b / 2, j);
            assert !(0 <= j < n - 1 && Bit(a / 2, j) && Bit(b / 2, j));
          }
        }
      }
    }
  }

  /** A shared set bit below `n`, as a witness. */
  lemma SharedBit(a: nat, b: nat, n: nat, i: nat)
    requires i < n && Bit(a, i) && Bit(b, i)
    ensures exists j :: 0 <= j < n && Bit(a, j) && Bit(b, j)
  {
  }

  /** The only bit of 2^k is bit k. */
  lemma {:induction false} BitOfPow2(k: nat, i: nat)
    ensures Bit(Pow2(k), i) <==> i == k
  {
    if k == 0 {
      if i > 0 { NoBitsOfZero(i - 1); }
    } else if i > 0 {
      BitOfPow2(k - 1, i - 1);
    }
  }
}
