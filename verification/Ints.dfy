/** Small facts about division that the solver does not find by itself. */
module Ints {

  lemma MulAtLeast(d: int, b: int)
    requires b > 0
    ensures d >= 1 ==> d * b >= b
    ensures d <= -1 ==> d * b <= -b
  {
  }

  lemma NoMultipleBetween(d: int, b: int, e: int)
    requires b > 0 && d * b == e && -b < e < b
    ensures d == 0
  {
    MulAtLeast(d, b);
  }

  lemma DivUnique(a: nat, b: nat, q: nat, r: nat)
    requires a == q * b + r && r < b
    ensures a / b == q && a % b == r
  {
    NoMultipleBetween(a / b - q, b, r - a % b);
  }

  lemma DivStep(a: nat, b: nat)
    requires a > 0 && b > 0
    ensures a / b == (a - 1) / b + if a % b == 0 then 1 else 0
  {
    var q, r := (a - 1) / b, (a - 1) % b;
    assert a == q * b + (r + 1);
    if r + 1 == b {
      assert a == (q + 1) * b;
      DivUnique(a, b, q + 1, 0);
    } else {
      DivUnique(a, b, q, r + 1);
    }
  }

  lemma {:induction false} DivMonotone(a: nat, b: nat, d: nat)
    requires a <= b && d > 0
    ensures a / d <= b / d
    decreases b
  {
    if a < b {
      DivMonotone(a, b - 1, d);
      DivStep(b, d);
    }
  }

  // ------------------------------------------------------- signed 64-bit arithmetic

  const Half64: int := 0x8000_0000_0000_0000   // 2^63

  predicate IsInt64(v: int) { -Half64 <= v < Half64 }

  /** What a 64-bit register keeps of a value, in two's complement. */
  function S64(v: int): (r: int)
    ensures IsInt64(r) && (IsInt64(v) ==> r == v)
  {
    (v + Half64) % (2 * Half64) - Half64
  }

  /** How far wrapping moves a value. */
  lemma S64Moves(v: int) returns (k: int)
    ensures S64(v) == v + k * (2 * Half64)
  {
    k := -((v + Half64) / (2 * Half64));
  }

  /** Values whole turns apart are kept alike. */
  lemma S64Same(x: int, y: int, k: int)
    requires x == y + k * (2 * Half64)
    ensures S64(x) == S64(y)
  {
  }
}
