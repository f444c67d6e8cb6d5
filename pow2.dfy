/** Powers of two, and models of Rust's `next_power_of_two` and `trailing_zeros`
    on unsigned integers. Both source files use the pair
    `n.next_power_of_two().trailing_zeros()` as "the level of n". */
module PowerOfTwo {

  /** 2^k. */
  function Pow2(k: nat): (r: nat)
    ensures r >= 1
  {
    if k == 0 then 1 else 2 * Pow2(k - 1)
  }

  lemma {:induction false} Pow2Monotonic(a: nat, b: nat)
    requires a <= b
    ensures Pow2(a) <= Pow2(b)
  {
    if a < b {
      Pow2Monotonic(a, b - 1);
    }
  }

  lemma {:induction false} Pow2StrictlyMonotonic(a: nat, b: nat)
    requires a < b
    ensures 2 * Pow2(a) <= Pow2(b)
  {
    Pow2Monotonic(a + 1, b);
  }

  lemma {:induction false} Pow2Injective(a: nat, b: nat)
    requires Pow2(a) == Pow2(b)
    ensures a == b
  {
    if a < b {
      Pow2StrictlyMonotonic(a, b);
    } else if b < a {
      Pow2StrictlyMonotonic(b, a);
    }
  }

  lemma {:induction false} Pow2Add(a: nat, b: nat)
    ensures Pow2(a + b) == Pow2(a) * Pow2(b)
  {
    if b > 0 {
      Pow2Add(a, b - 1);
    }
  }

  lemma {:induction false} Pow2Of32()
    ensures Pow2(32) == 0x1_0000_0000
  {
    assert Pow2(8) == 0x100;
    Pow2Add(8, 8);
    Pow2Add(16, 16);
  }

  /** The powers of two at the limits of 64-bit integers: 2^59 bounds the
      updates a spine keeps, 2^63 is one past `isize::MAX`, 2^64 wraps a `usize`. */
  lemma {:induction false} Pow2Limits()
    ensures Pow2(59) == 0x800_0000_0000_0000
    ensures Pow2(63) == 0x8000_0000_0000_0000
    ensures Pow2(64) == 0x1_0000_0000_0000_0000
  {
    Pow2Of32();
    assert Pow2(8) == 0x100;
    Pow2Add(32, 16);
    Pow2Add(48, 8);
    Pow2Add(56, 3);
    Pow2Add(59, 4);
    Pow2Add(63, 1);
  }

  /** The least `k` such that `n <= 2^k` (0 for both 0 and 1). */
  function CeilLog2(n: nat): (k: nat)
    ensures n <= Pow2(k)
    ensures k > 0 ==> Pow2(k - 1) < n
  {
    if n <= 1 then 0 else 1 + CeilLog2((n + 1) / 2)
  }

  /** `CeilLog2(n)` is the least exponent whose power covers `n`. */
  lemma {:induction false} CeilLog2Least(n: nat, k: nat)
    requires n <= Pow2(k)
    ensures CeilLog2(n) <= k
  {
    if n > 1 {
      CeilLog2Least((n + 1) / 2, k - 1);
    }
  }

  ghost predicate IsPow2(p: nat) {
    exists k: nat :: Pow2(k) == p
  }

  /** Rust's `next_power_of_two`: the least power of two that is at least `n`
      (1 for 0). Rust overflows past the width of the type; callers of this
      model keep `n` small enough for that not to happen. */
  function NextPowerOfTwo(n: nat): (p: nat)
    ensures p >= 1 && n <= p
    ensures IsPow2(p)
    ensures p > 1 ==> p < 2 * n
  {
    Pow2(CeilLog2(n))
  }

  /** Rust's `trailing_zeros` on a positive integer: the number of low zero bits. */
  function TrailingZeros(x: nat): nat
    requires x > 0
  {
    if x % 2 == 1 then 0 else 1 + TrailingZeros(x / 2)
  }

  lemma {:induction false} TrailingZerosPow2(k: nat)
    ensures TrailingZeros(Pow2(k)) == k
  {
    if k > 0 {
      TrailingZerosPow2(k - 1);
    }
  }

  /** `n.next_power_of_two().trailing_zeros()`: the level at which a length `n` sits. */
  function Level(n: nat): nat
  {
    TrailingZeros(NextPowerOfTwo(n))
  }

  /** The level of `n` is 0 for 0 and 1, and otherwise the ceiling of log2 n:
      the least `k` with `n <= 2^k`. */
  lemma {:induction false} LevelIsCeilLog2(n: nat)
    ensures Level(n) == CeilLog2(n)
    ensures n <= Pow2(Level(n))
    ensures n <= 1 ==> Level(n) == 0
    ensures forall k: nat :: n <= Pow2(k) ==> Level(n) <= k
  {
    TrailingZerosPow2(CeilLog2(n));
    forall k: nat | n <= Pow2(k) ensures Level(n) <= k {
      CeilLog2Least(n, k);
    }
  }

  /** `1 << n.next_power_of_two().trailing_zeros()` gives back the power itself. */
  lemma {:induction false} ShiftLevel(n: nat)
    ensures Pow2(Level(n)) == NextPowerOfTwo(n)
  {
    TrailingZerosPow2(CeilLog2(n));
  }
}
