/** Masks of powers of two, as the C code uses them. */
module Bits {
  import Ints

  function Pow2(k: nat): (p: nat)
    ensures p >= 1
  {
    if k == 0 then 1 else 2 * Pow2(k - 1)
  }

  /** Bitwise and of two naturals. */
  function And(x: nat, y: nat): (r: nat)
    ensures r <= x
  {
    if x == 0 || y == 0 then 0 else 2 * And(x / 2, y / 2) + (x % 2) * (y % 2)
  }

  /** Masking with one less than a power of two is the remainder. */
  lemma {:induction false} MaskIsMod(x: nat, k: nat)
    ensures And(x, Pow2(k) - 1) == x % Pow2(k)
  {
    if x != 0 && k > 0 {
      var p := Pow2(k - 1);
      MaskIsMod(x / 2, k - 1);
      assert (Pow2(k) - 1) / 2 == p - 1 && (Pow2(k) - 1) % 2 == 1;
      HalfMod(x, p);
    }
  }

  lemma {:induction false} HalfMod(x: nat, p: nat)
    requires p >= 1
    ensures x % (2 * p) == 2 * (x / 2 % p) + x % 2
  {
    var q, r := x / 2 / p, x / 2 % p;
    assert x == q * (2 * p) + (2 * r + x % 2) by {
      assert x / 2 == q * p + r;
      assert 2 * (q * p) == q * (2 * p);
    }
    Ints.DivUnique(x, 2 * p, q, 2 * r + x % 2);
  }

  /** Stepping round a ring. */
  lemma {:induction false} NextMod(x: nat, m: nat)
    requires m > 0
    ensures (x % m + 1) % m == (x + 1) % m
  {
    var q, r := x / m, x % m;
    assert x == q * m + r;
    if r + 1 < m {
      Ints.DivUnique(x + 1, m, q, r + 1);
      Ints.DivUnique(r + 1, m, 0, r + 1);
    } else {
      assert (q + 1) * m == q * m + m;
      Ints.DivUnique(x + 1, m, q + 1, 0);
      Ints.DivUnique(r + 1, m, 1, 0);
    }
  }

  /** Every place of a ring is reached from every start within one turn. */
  lemma {:induction false} ReachMod(x: nat, e: nat, m: nat) returns (d: nat)
    requires e < m
    ensures (x + d) % m == e && d < m
  {
    var q, r := x / m, x % m;
    assert x == q * m + r;
    if r <= e {
      d := e - r;
      Ints.DivUnique(x + d, m, q, e);
    } else {
      d := m + e - r;
      assert (q + 1) * m == q * m + m;
      Ints.DivUnique(x + d, m, q + 1, e);
    }
  }

  lemma {:induction false} AndSelf(x: nat)
    ensures And(x, x) == x
  {
    if x > 0 { AndSelf(x / 2); }
  }

  /** The usual power-of-two test is one. */
  lemma {:induction false} PowerOfTwo(a: nat) returns (k: nat)
    requires a >= 1 && And(a, a - 1) == 0
    ensures a == Pow2(k)
  {
    k := 0;
    if a > 1 {
      if a % 2 == 1 {
        assert (a - 1) / 2 == a / 2;
        AndSelf(a / 2);
      } else {
        assert (a - 1) / 2 == a / 2 - 1;
        k := PowerOfTwo(a / 2);
        k := k + 1;
      }
    }
  }

  lemma {:induction false} Floor(x: nat, a: nat)
    requires a >= 1
    ensures x - a < x - x % a <= x && (x - x % a) % a == 0
  {
    var q := x / a;
    assert x == q * a + x % a;
    Ints.DivUnique(q * a, a, q, 0);
  }

  lemma {:induction false} Masked(x: nat, a: nat)
    requires a >= 1 && And(a, a - 1) == 0
    ensures And(x, a - 1) == x % a
  {
    var k := PowerOfTwo(a);
    MaskIsMod(x, k);
  }

  /** Rounding up by adding and clearing the low bits gives the least multiple not below. */
  lemma {:induction false} RoundUp(p: nat, a: nat)
    requires a >= 1 && And(a, a - 1) == 0
    ensures var r := (p + a - 1) - And(p + a - 1, a - 1); p <= r < p + a && r % a == 0
  {
    Masked(p + a - 1, a);
    Floor(p + a - 1, a);
  }
}
