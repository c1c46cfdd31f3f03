/** Buffer-size quantisation (block.hpp): rounding a 64-bit `size_t` by smearing its highest
    set bit to the right, wrap-around included. */
module BufferQuantizer {

  const SIZE_LIMIT: nat := 0x1_0000_0000_0000_0000

  newtype Size = x: int | 0 <= x < 0x1_0000_0000_0000_0000

  /** 2^64 - 2^14: the largest input whose rounding sum `n + 2^14 - 1` does not wrap around. */
  const LAST_UNWRAPPED: nat := 0xFFFF_FFFF_FFFF_C000

  // ---- bitwise arithmetic on naturals ----

  function Pow2(k: nat): (p: nat)
    ensures p > 0
  {
    if k == 0 then 1 else 2 * Pow2(k - 1)
  }

  function BitOr(a: nat, b: nat): nat {
    if a == 0 then b
    else if b == 0 then a
    else 2 * BitOr(a / 2, b / 2) + (if a % 2 == 1 || b % 2 == 1 then 1 else 0)
  }

  /** `k` places, one at a time. */
  function ShiftRight(a: nat, k: nat): nat {
    if k == 0 then a else ShiftRight(a / 2, k - 1)
  }

  function ShiftLeft(a: nat, k: nat): nat {
    if k == 0 then a else 2 * ShiftLeft(a, k - 1)
  }

  lemma {:induction false} Pow2IsMonotone(i: nat, j: nat)
    requires i <= j
    ensures Pow2(i) <= Pow2(j)
    decreases j
  {
    if i < j {
      Pow2IsMonotone(i, j - 1);
    }
  }

  lemma {:induction false} OrBounds(a: nat, b: nat, n: nat)
    requires a < Pow2(n) && b < Pow2(n)
    ensures a <= BitOr(a, b) && b <= BitOr(a, b) && BitOr(a, b) < Pow2(n)
  {
    if a > 0 && b > 0 {
      OrBounds(a / 2, b / 2, n - 1);
    }
  }

  /** Bits above position `s` are untouched by an operand that has none. */
  lemma {:induction false} OrLeavesHighBits(x: nat, s: nat, r: nat, y: nat)
    requires r < Pow2(s) && y < Pow2(s)
    ensures BitOr(ShiftLeft(x, s) + r, y) == ShiftLeft(x, s) + BitOr(r, y)
  {
    if s > 0 && y > 0 && ShiftLeft(x, s) + r > 0 {
      var h := ShiftLeft(x, s - 1);
      assert (2 * h + r) / 2 == h + r / 2 && (2 * h + r) % 2 == r % 2;
      OrLeavesHighBits(x, s - 1, r / 2, y / 2);
      if r == 0 {
        assert BitOr(0, y / 2) == y / 2;
      }
    }
  }

  lemma {:induction false} ShiftedPowers(i: nat, j: nat, k: nat)
    requires Pow2(j) <= Pow2(i)
    ensures ShiftLeft(Pow2(i) - Pow2(j), k) == Pow2(i + k) - Pow2(j + k)
  {
    if k > 0 {
      ShiftedPowers(i, j, k - 1);
    }
  }

  lemma {:induction false} ShiftRightBetween(q: nat, lo: nat, s: nat, k: nat)
    requires ShiftLeft(lo, k) <= q < Pow2(s + k)
    ensures lo <= ShiftRight(q, k) < Pow2(s)
  {
    if k > 0 {
      ShiftRightBetween(q / 2, lo, s, k - 1);
    }
  }

  /** The top `k` of the low `n` bits are all set, and no higher bit is. */
  ghost predicate TopOnes(q: nat, n: nat, k: nat)
    requires k <= n
  {
    Pow2(n) - Pow2(n - k) <= q < Pow2(n)
  }

  ghost function Min(a: nat, b: nat): nat {
    if a < b then a else b
  }

  /** `q | q >> k` doubles a run of `k` leading ones. */
  lemma SmearDoublesRun(q: nat, n: nat, k: nat)
    requires 0 < k <= n && TopOnes(q, n, k)
    ensures TopOnes(BitOr(q, ShiftRight(q, k)), n, Min(2 * k, n))
  {
    var s := n - k;
    var r := q - (Pow2(n) - Pow2(s));
    var y := ShiftRight(q, k);
    ShiftedRun(q, n, k);
    ShiftedPowers(k, 0, s);
    assert q == ShiftLeft(Pow2(k) - 1, s) + r;
    OrLeavesHighBits(Pow2(k) - 1, s, r, y);
    OrBounds(r, y, s);
  }

  lemma ShiftedRun(q: nat, n: nat, k: nat)
    requires 0 < k <= n && TopOnes(q, n, k)
    ensures Pow2(n - k) - Pow2(n - Min(2 * k, n)) <= ShiftRight(q, k) < Pow2(n - k)
  {
    var s := n - k;
    var e := if 2 * k <= n then s - k else 0;
    Pow2IsMonotone(e, s);
    ShiftedPowers(s, e, k);
    Pow2IsMonotone(s, e + k);
    ShiftRightBetween(q, Pow2(s) - Pow2(e), s, k);
  }

  lemma {:induction false} ShiftLeftZero(k: nat)
    ensures ShiftLeft(0, k) == 0
  {
    if k > 0 {
      ShiftLeftZero(k - 1);
    }
  }

  lemma ShiftedOut(q: nat, n: nat, k: nat)
    requires q < Pow2(n) && n <= k
    ensures BitOr(q, ShiftRight(q, k)) == q
  {
    ShiftLeftZero(k);
    Pow2IsMonotone(n, k);
    ShiftRightBetween(q, 0, 0, k);
  }

  // ---- the specification ----

  ghost predicate IsPowerOfTwo(p: nat) {
    exists k: nat :: p == Pow2(k)
  }

  ghost predicate IsLeastPowerFrom(m: nat, q: nat) {
    IsPowerOfTwo(q) && m <= q && forall k: nat :: m <= Pow2(k) ==> q <= Pow2(k)
  }

  ghost function Clamped(n: nat): nat {
    if n < 256 then 256 else n
  }

  /** What a caller may rely on, without the smearing or the division. */
  ghost predicate IsQuantum(n: nat, q: nat) {
    if n <= 0x1_0000 then IsLeastPowerFrom(Clamped(n), q)
    else if n <= LAST_UNWRAPPED then q % 0x4000 == 0 && n <= q < n + 0x4000
    else q == 0
  }

  lemma {:induction false} BitLengthExists(q: nat, bound: nat) returns (n: nat)
    requires 0 < q < Pow2(bound)
    ensures 0 < n <= bound && Pow2(n - 1) <= q < Pow2(n)
  {
    if q < Pow2(bound - 1) {
      n := BitLengthExists(q, bound - 1);
    } else {
      n := bound;
    }
  }

  lemma LeastPowerAbove(m: nat, n: nat)
    requires 0 < n && Pow2(n - 1) < m <= Pow2(n)
    ensures IsLeastPowerFrom(m, Pow2(n))
  {
    forall k: nat | m <= Pow2(k)
      ensures Pow2(n) <= Pow2(k)
    {
      if k < n {
        Pow2IsMonotone(k, n - 1);
      } else {
        Pow2IsMonotone(n, k);
      }
    }
  }

  lemma SmallPowers()
    ensures Pow2(1) == 2 && Pow2(2) == 4 && Pow2(4) == 16 && Pow2(7) == 128 && Pow2(8) == 256 && Pow2(16) == 0x1_0000
  {
  }

  /** The smearing cascade of block.hpp, 64-bit shift included. */
  method SmearRight(m: nat) returns (q: nat)
    requires 256 <= m <= 0x1_0000
    ensures IsLeastPowerFrom(m, q)
  {
    SmallPowers();
    q := m - 1;
    ghost var n := BitLengthExists(q, 16);
    if n < 8 {
      Pow2IsMonotone(n, 7);
    }
    SmearDoublesRun(q, n, 1);
    q := BitOr(q, ShiftRight(q, 1));
    SmearDoublesRun(q, n, 2);
    q := BitOr(q, ShiftRight(q, 2));
    SmearDoublesRun(q, n, 4);
    q := BitOr(q, ShiftRight(q, 4));
    SmearDoublesRun(q, n, 8);
    q := BitOr(q, ShiftRight(q, 8));
    assert q == Pow2(n) - 1;
    ShiftedOut(q, n, 16);
    q := BitOr(q, ShiftRight(q, 16));
    ShiftedOut(q, n, 32);
    q := BitOr(q, ShiftRight(q, 32));
    q := q + 1;
    LeastPowerAbove(m, n);
  }

  method QuantizeBufferSize(n: Size) returns (q: Size)
    ensures IsQuantum(n as nat, q as nat)
  {
    if n <= 0x1_0000 {
      var smeared := SmearRight(if n < 256 then 256 else n as nat);
      SmallPowers();
      q := smeared as Size;
    } else {
      var sum := (n as nat + 0x4000 - 1) % SIZE_LIMIT;
      q := (sum / 0x4000 * 0x4000) as Size;
    }
  }

  /** The documented promise "a number greater than or equal to n" holds exactly while the
      rounding sum does not wrap around. */
  lemma QuantumCoversInputExactlyBelowWrap(n: nat, q: nat)
    requires n < SIZE_LIMIT && IsQuantum(n, q)
    ensures n <= q <==> n <= LAST_UNWRAPPED
  {
  }

  lemma QuantumIsMonotone(n: nat, n': nat, q: nat, q': nat)
    requires n <= n' <= LAST_UNWRAPPED
    requires IsQuantum(n, q) && IsQuantum(n', q')
    ensures q <= q'
  {
    SmallPowers();
    if n <= 0x1_0000 < n' {
      assert q <= Pow2(16);
    }
  }
}
