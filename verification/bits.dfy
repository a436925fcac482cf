/** Powers of two, and the bitwise operators of C on two's-complement integers
    written as arithmetic.  The second operand is always a non-negative mask. */
module Bits {

  newtype int32 = x: int | -0x8000_0000 <= x < 0x8000_0000

  function Pow2(n: nat): (r: int)
    ensures r >= 1
  {
    if n == 0 then 1 else 2 * Pow2(n - 1)
  }

  /** x & ~m */
  function AndNot(x: int, m: nat): int
    decreases m
  {
    if m == 0 then x
    else (if m % 2 == 1 then 0 else x % 2) + 2 * AndNot(x / 2, m / 2)
  }

  /** x & m */
  function And(x: int, m: nat): nat
    decreases m
  {
    if m == 0 then 0
    else (if m % 2 == 1 then x % 2 else 0) + 2 * And(x / 2, m / 2)
  }

  /** x | y */
  function Or(x: nat, y: nat): nat
    decreases y
  {
    if y == 0 then x
    else (if y % 2 == 1 then 1 else x % 2) + 2 * Or(x / 2, y / 2)
  }

  lemma {:induction false} MulMono(a: int, b: int, d: int)
    requires a < b && d >= 0
    ensures a * d + d <= b * d
    decreases b - a
  {
    if b == a + 1 {
      assert b * d == a * d + d;
    } else {
      MulMono(a, b - 1, d);
      assert b * d == (b - 1) * d + d;
    }
  }

  /** Quotient and remainder are unique. */
  lemma ModUnique(x: int, d: int, q: int, r: int)
    requires d > 0 && x == q * d + r && 0 <= r < d
    ensures x / d == q && x % d == r
  {
    var q' := x / d;
    if q < q' {
      MulMono(q, q', d);
    } else if q > q' {
      MulMono(q', q, d);
    }
  }

  lemma MulAssoc(a: int, b: int, c: int)
    ensures a * (b * c) == (a * b) * c
  {}

  lemma MultipleMod(q: int, d: int)
    requires d > 0
    ensures (q * d) % d == 0
  {
    ModUnique(q * d, d, q, 0);
  }

  /** Taking the remainder by 2p splits off the lowest bit. */
  lemma ModHalf(x: int, p: int)
    requires p > 0
    ensures x % (2 * p) == 2 * ((x / 2) % p) + x % 2
  {
    var q, r := (x / 2) / p, (x / 2) % p;
    assert x / 2 == q * p + r;
    assert x == q * (2 * p) + (2 * r + x % 2);
    ModUnique(x, 2 * p, q, 2 * r + x % 2);
  }

  lemma {:induction false} Pow2Add(a: nat, b: nat)
    ensures Pow2(a + b) == Pow2(a) * Pow2(b)
  {
    if a > 0 {
      Pow2Add(a - 1, b);
      assert Pow2(a + b) == 2 * Pow2(a - 1 + b);
    }
  }

  lemma PowerValues()
    ensures Pow2(16) == 0x1_0000 && Pow2(30) == 0x4000_0000
    ensures Pow2(31) == 0x8000_0000 && Pow2(32) == 0x1_0000_0000
  {
    assert Pow2(8) == 0x100;
    Pow2Add(8, 8);
    assert Pow2(14) == 0x4000 by { assert Pow2(6) == 64; Pow2Add(6, 8); }
    Pow2Add(14, 16);
  }

  lemma Pow2Le(a: nat, b: nat)
    requires a <= b
    ensures Pow2(a) <= Pow2(b)
    ensures Pow2(b) % Pow2(a) == 0
  {
    Pow2Add(b - a, a);
    assert Pow2(b) == Pow2(b - a) * Pow2(a);
    MultipleMod(Pow2(b - a), Pow2(a));
  }

  lemma MultipleOfProduct(x: int, m: int, d: int, e: int)
    requires d > 0 && e > 0 && e == m * d && x % e == 0
    ensures x % d == 0
  {
    var q := x / e;
    MulAssoc(q, m, d);
    assert x == q * e;
    MultipleMod(q * m, d);
  }

  /** A multiple of a larger power of two is a multiple of a smaller one. */
  lemma AlignedDown(x: int, a: nat, b: nat)
    requires a <= b && x % Pow2(b) == 0
    ensures x % Pow2(a) == 0
  {
    Pow2Add(b - a, a);
    MultipleOfProduct(x, Pow2(b - a), Pow2(a), Pow2(b));
  }

  /** Sums and differences of multiples are multiples. */
  lemma AlignedSum(x: int, y: int, d: int)
    requires d > 0 && x % d == 0 && y % d == 0
    ensures (x + y) % d == 0 && (x - y) % d == 0
  {
    var p, q := x / d, y / d;
    assert x == p * d && y == q * d;
    assert x + y == (p + q) * d && x - y == (p - q) * d;
    MultipleMod(p + q, d);
    MultipleMod(p - q, d);
  }

  /** Two multiples of d are equal or at least d apart. */
  lemma AlignedGap(x: int, y: int, d: int)
    requires d > 0 && x % d == 0 && y % d == 0 && x < y
    ensures x + d <= y
  {
    var p, q := x / d, y / d;
    assert x == p * d && y == q * d;
    if q < p {
      MulMono(q, p, d);
    } else if q > p {
      MulMono(p, q, d);
    }
  }

  lemma SubMod(x: int, d: int)
    requires d > 0
    ensures (x - x % d) % d == 0
  {
    assert x - x % d == (x / d) * d;
    MultipleMod(x / d, d);
  }

  /** A multiple of 2^k leaves, modulo 2^m, room for another 2^k. */
  lemma ModAligned(x: int, k: nat, m: nat)
    requires k <= m && x % Pow2(k) == 0
    ensures var r := x % Pow2(m);
            0 <= r && r % Pow2(k) == 0 && r + Pow2(k) <= Pow2(m)
  {
    var r, d := x % Pow2(m), Pow2(k);
    SubMod(x, Pow2(m));
    AlignedDown(x - r, k, m);
    AlignedSum(x, x - r, d);
    assert x - (x - r) == r;
    Pow2Le(k, m);
    AlignedGap(r, Pow2(m), d);
  }

  lemma {:induction false} AndNotMaskValue(x: int, k: nat)
    ensures AndNot(x, Pow2(k) - 1) == x - x % Pow2(k)
    decreases k
  {
    if k > 0 {
      var p := Pow2(k - 1);
      AndNotMaskValue(x / 2, k - 1);
      ModHalf(x, p);
      assert (Pow2(k) - 1) / 2 == p - 1;
    }
  }

  /** Clearing the low k bits rounds down to a multiple of 2^k. */
  lemma AndNotMask(x: int, k: nat)
    ensures AndNot(x, Pow2(k) - 1) == x - x % Pow2(k)
    ensures AndNot(x, Pow2(k) - 1) % Pow2(k) == 0
  {
    AndNotMaskValue(x, k);
    SubMod(x, Pow2(k));
  }

  /** Keeping the low k bits is the remainder by 2^k. */
  lemma {:induction false} AndMask(x: int, k: nat)
    ensures And(x, Pow2(k) - 1) == x % Pow2(k)
    decreases k
  {
    if k > 0 {
      var p := Pow2(k - 1);
      AndMask(x / 2, k - 1);
      ModHalf(x, p);
      assert (Pow2(k) - 1) / 2 == p - 1;
    }
  }

  /** Or-ing a value below 2^k into a multiple of 2^k adds it. */
  lemma {:induction false} OrDisjoint(x: nat, y: nat, k: nat)
    requires x % Pow2(k) == 0 && y < Pow2(k)
    ensures Or(x, y) == x + y
    decreases k
  {
    if y != 0 {
      var p := Pow2(k - 1);
      ModHalf(x, p);
      OrDisjoint(x / 2, y / 2, k - 1);
    }
  }
}
