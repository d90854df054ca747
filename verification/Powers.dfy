/** Powers of two and the bit operations of the position arithmetic, on unbounded naturals. */
module Powers {

  function Pow2(k: nat): (r: nat)
    ensures r >= 1
  {
    if k == 0 then 1 else 2 * Pow2(k - 1)
  }

  /** `c << k`. */
  function Shl(c: nat, k: nat): nat {
    if k == 0 then c else 2 * Shl(c, k - 1)
  }

  /** `n & (1 << k) != 0`. */
  predicate BitSet(n: nat, k: nat) {
    if k == 0 then n % 2 == 1 else BitSet(n / 2, k - 1)
  }

  function BitLength(n: nat): nat {
    if n == 0 then 0 else 1 + BitLength(n / 2)
  }

  function Popcount(n: nat): nat {
    if n == 0 then 0 else n % 2 + Popcount(n / 2)
  }

  function TrailingZeros(n: nat): nat
    requires n > 0
  {
    if n % 2 == 1 then 0 else 1 + TrailingZeros(n / 2)
  }

  lemma {:induction false} ShlNext(c: nat, k: nat)
    ensures Shl(c + 1, k) == Shl(c, k) + Pow2(k)
  {
    if k > 0 {
      ShlNext(c, k - 1);
    }
  }

  lemma {:induction false} ShlDouble(c: nat, k: nat)
    ensures Shl(2 * c, k) == Shl(c, k + 1)
  {
    if k > 0 {
      ShlDouble(c, k - 1);
    }
  }

  lemma {:induction false} ShlMonotone(a: nat, b: nat, k: nat)
    requires a <= b
    ensures Shl(a, k) + (b - a) <= Shl(b, k)
  {
    if k > 0 {
      ShlMonotone(a, b, k - 1);
    }
  }

  lemma {:induction false} ShlZero(k: nat)
    ensures Shl(0, k) == 0
  {
    if k > 0 {
      ShlZero(k - 1);
    }
  }

  lemma {:induction false} BelowBitLength(n: nat)
    ensures n < Pow2(BitLength(n))
  {
    if n > 0 {
      BelowBitLength(n / 2);
    }
  }

  lemma {:induction false} BitLengthMonotone(m: nat, n: nat)
    requires m <= n
    ensures BitLength(m) <= BitLength(n)
  {
    if m > 0 {
      BitLengthMonotone(m / 2, n / 2);
    }
  }

  lemma {:induction false} Pow2Monotone(a: nat, b: nat)
    requires a <= b
    ensures Pow2(a) <= Pow2(b)
    decreases b
  {
    if a < b {
      Pow2Monotone(a, b - 1);
    }
  }

  /** Shifting left by `k` appends `k` zero bits. */
  lemma {:induction false} TrailingZerosOfShl(c: nat, k: nat)
    requires c > 0
    ensures Shl(c, k) > 0
    ensures TrailingZeros(Shl(c, k)) == k + TrailingZeros(c)
  {
    if k > 0 {
      TrailingZerosOfShl(c, k - 1);
    }
  }

  /** Bit `k` of `(c << k) - 1` is set exactly when `c` is even. */
  lemma {:induction false} BitBelowShl(c: nat, k: nat)
    requires c > 0
    ensures Shl(c, k) > 0
    ensures BitSet(Shl(c, k) - 1, k) <==> c % 2 == 0
  {
    if k > 0 {
      BitBelowShl(c, k - 1);
      assert (Shl(c, k) - 1) / 2 == Shl(c, k - 1) - 1;
    }
  }

  lemma {:induction false} TrailingZerosAbove(m: nat, h: nat)
    requires 0 < m < Pow2(h)
    ensures TrailingZeros(Pow2(h) + m) == TrailingZeros(m)
  {
    if h > 0 && m % 2 == 0 {
      TrailingZerosAbove(m / 2, h - 1);
      assert (Pow2(h) + m) / 2 == Pow2(h - 1) + m / 2;
    }
  }

  /** A number with at least `k` trailing zeros is something shifted left by `k`. */
  lemma {:induction false} Unshift(n: nat, k: nat) returns (c: nat)
    requires n > 0 && k <= TrailingZeros(n)
    ensures c > 0 && n == Shl(c, k)
  {
    if k == 0 {
      c := n;
    } else {
      c := Unshift(n / 2, k - 1);
    }
  }
}
