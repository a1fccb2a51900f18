/** Half precision to single, src/quant/q8_0.c:44-68 and src/io/k3_st.c:558-576. The fields of a word do
    not overlap, so joining them is adding them. */
module Half {
  import opened Bits
  import Ints
  import Mxfp4
  import Bind
  import Bytes

  // ------------------------------------------------------- what the two formats mean

  const Bit23: nat := 0x80_0000
  const Bit31: nat := 0x8000_0000

  function Signed(s: nat, v: real): real { if s == 1 then -v else v }

  /** Sign, five exponent bits with bias 15, ten mantissa bits; subnormal at exponent zero. */
  function Value16(s: nat, e: nat, m: nat): real
    requires e < 31
  {
    Signed(s, if e == 0 then m as real * Mxfp4.Exp2(-24) else (0x400 + m) as real * Mxfp4.Exp2(e - 25))
  }

  /** Sign, eight exponent bits with bias 127, 23 mantissa bits. */
  function Value32(s: nat, e: nat, m: nat): real
    requires e < 255
  {
    Signed(s, if e == 0 then m as real * Mxfp4.Exp2(-149) else (Bit23 + m) as real * Mxfp4.Exp2(e - 150))
  }

  datatype Fields = Fields(s: nat, e: nat, m: nat)

  function Fields16(h: nat): Fields { Fields(h / 0x8000, h / 0x400 % 32, h % 0x400) }
  function Fields32(u: nat): Fields { Fields(u / Bit31, u / Bit23 % 256, u % Bit23) }

  function Word(s: nat, e: nat, m: nat): nat { s * Bit31 + e * Bit23 + m }

  lemma WordFields(s: nat, e: nat, m: nat)
    requires s < 2 && e < 256 && m < Bit23
    ensures Word(s, e, m) < 2 * Bit31 && Fields32(Word(s, e, m)) == Fields(s, e, m)
  {
    var u := Word(s, e, m);
    Ints.DivUnique(u, Bit31, s, e * Bit23 + m);
    Ints.DivUnique(u, Bit23, 256 * s + e, m);
    Ints.DivUnique(256 * s + e, 256, s, e);
  }

  // ------------------------------------------------------------------------- powers

  lemma {:induction false} Exp2Sum(a: int, b: nat)
    ensures Mxfp4.Exp2(a + b) == Mxfp4.Exp2(a) * Mxfp4.Exp2(b)
    decreases b
  {
    if b > 0 {
      Exp2Sum(a, b - 1);
      Mxfp4.Exp2Next(a + b - 1);
      Mxfp4.Exp2Next(b - 1);
    }
  }

  lemma {:induction false} Exp2Whole(n: nat)
    ensures Mxfp4.Exp2(n) == Pow2(n) as real
    decreases n
  {
    if n > 0 { Exp2Whole(n - 1); }
  }

  lemma Scale13(e: int)
    ensures 8192.0 * Mxfp4.Exp2(e) == Mxfp4.Exp2(e + 13)
  {
    Exp2Whole(13);
    assert Pow2(13) == 8192;
    Exp2Sum(e, 13);
  }

  // -------------------------------------------------------------------- the loop

  /** How far a mantissa is shifted until its leading bit falls out. */
  function Shift(m: nat): (n: nat)
    requires 0 < m < 0x800
    decreases 0x800 - m
  {
    if m >= 0x400 then 0 else 1 + Shift(2 * m)
  }

  /** And what it has become then. */
  function Top(m: nat): (t: nat)
    requires 0 < m < 0x800
    ensures 0x400 <= t < 0x800
    decreases 0x800 - m
  {
    if m >= 0x400 then m else Top(2 * m)
  }

  ghost predicate HalfAt(f: (nat, int) -> real, m: nat, k: int) { f(2 * m, k - 1) == f(m, k) }

  lemma {:induction false} TopOf(f: (nat, int) -> real, m: nat, k: int, j: int)
    requires 0 < m < 0x800 && j == k - Shift(m) && forall a: nat, b :: HalfAt(f, a, b)
    ensures f(Top(m), j) == f(m, k)
    decreases 0x800 - m
  {
    if m < 0x400 {
      assert HalfAt(f, m, k);
      TopOf(f, 2 * m, k - 1, j);
    }
  }

  ghost function Product(): (nat, int) -> real { (m: nat, k: int) => m as real * Mxfp4.Exp2(k) }

  lemma {:induction false} ProductHalf(m: nat, k: int)
    ensures HalfAt(Product(), m, k)
  {
    Mxfp4.Exp2Next(k - 1);
    Twice(m as real, Mxfp4.Exp2(k - 1), Mxfp4.Exp2(k));
  }

  lemma Twice(m: real, e: real, e': real)
    requires e' == 2.0 * e
    ensures (2.0 * m) * e == m * e'
  {
  }

  /** Shifting the mantissa and lowering the exponent keep the product. */
  lemma {:induction false} TopIs(m: nat, k: int, j: int)
    requires 0 < m < 0x800 && j == k - Shift(m)
    ensures Top(m) as real * Mxfp4.Exp2(j) == m as real * Mxfp4.Exp2(k)
  {
    forall a: nat, b ensures HalfAt(Product(), a, b) { ProductHalf(a, b); }
    TopOf(Product(), m, k, j);
  }

  lemma {:induction false} ShiftIs(m: nat)
    requires 0 < m < 0x800
    ensures 0x400 <= m * Pow2(Shift(m)) < 0x800
    decreases 0x800 - m
  {
    if m < 0x400 {
      ShiftIs(2 * m);
      assert m * Pow2(Shift(m)) == (2 * m) * Pow2(Shift(2 * m));
    }
  }

  lemma {:induction false} ShiftShort(m: nat)
    requires 0 < m < 0x800
    ensures Shift(m) <= 10
  {
    ShiftIs(m);
    if Shift(m) > 10 {
      Pow2Grows(11, Shift(m));
      assert Pow2(11) == 0x800;
      Ints.MulAtLeast(m, Pow2(Shift(m)));
    }
  }

  lemma {:induction false} Pow2Grows(j: nat, k: nat)
    requires j <= k
    ensures Pow2(j) <= Pow2(k)
    decreases k
  {
    if j < k { Pow2Grows(j, k - 1); }
  }

  /** The exponent is moved to the new bias; a subnormal is shifted until it is normal; infinities and
      NaNs keep theirs. */
  function Widened(h: nat): (f: Fields)
    requires h < 0x1_0000
    ensures f.s < 2 && f.e < 256 && f.m < Bit23
  {
    var f := Fields16(h);
    if f.e == 0 then
      if f.m == 0 then Fields(f.s, 0, 0)
      else
        ShiftShort(f.m);
        Fields(f.s, 113 - Shift(f.m), Top(f.m) % 0x400 * 0x2000)
    else if f.e == 31 then Fields(f.s, 255, f.m * 0x2000)
    else Fields(f.s, f.e + 112, f.m * 0x2000)
  }

  /** The loop that normalises a subnormal mantissa. */
  method Normalise(man: nat) returns (e: nat, m: nat)
    requires 0 < man < 0x400
    ensures e == Shift(man) && m == Top(man)
  {
    e, m := 0, man;
    while m / 0x400 % 2 == 0
      invariant 0 < m < 0x800 && e + Shift(m) == Shift(man) && Top(m) == Top(man)
      decreases 0x800 - m
    {
      assert m < 0x400;
      m, e := 2 * m, e + 1;
    }
  }

  method Widen(h: nat) returns (u: nat)
    requires h < 0x1_0000
    ensures u == WordOf(h) && u < 2 * Bit31 && Fields32(u) == Widened(h)
  {
    var s, exp, man := h / 0x8000, h / 0x400 % 32, h % 0x400;
    var f := Fields(s, 0, 0);
    if exp == 0 {
      if man != 0 {
        var e, m := Normalise(man);
        ShiftShort(man);
        f := Fields(s, 127 - 15 - e + 1, m % 0x400 * 0x2000);
      }
    } else if exp == 31 {
      f := Fields(s, 255, man * 0x2000);
    } else {
      f := Fields(s, exp - 15 + 127, man * 0x2000);
    }
    WordFields(f.s, f.e, f.m);
    u := Word(f.s, f.e, f.m);
  }

  // ------------------------------------------------------------------ the value kept

  lemma {:induction false} NormalKept(e: nat, m: nat)
    requires 0 < e < 31 && m < 0x400
    ensures (Bit23 + m * 0x2000) as real * Mxfp4.Exp2(e + 112 - 150) == (0x400 + m) as real * Mxfp4.Exp2(e - 25)
  {
    Scale13(e - 38);
    Regroup((0x400 + m) as real, Mxfp4.Exp2(e - 38), 8192.0);
    assert (Bit23 + m * 0x2000) as real == (0x400 + m) as real * 8192.0;
  }

  lemma {:induction false} SubnormalKept(m: nat, n: nat, top: nat)
    requires 0 < m < 0x400 && n == Shift(m) <= 10 && top == Top(m)
    ensures (Bit23 + top % 0x400 * 0x2000) as real * Mxfp4.Exp2(113 - n - 150) == m as real * Mxfp4.Exp2(-24)
  {
    var e: int := -37 - n;
    assert Bit23 + top % 0x400 * 0x2000 == top * 0x2000;
    Scale13(e);
    Regroup(top as real, Mxfp4.Exp2(e), 8192.0);
    TopIs(m, -24, e + 13);
  }

  lemma {:induction false} FiniteKept(s: nat, e: nat, m: nat)
    requires 0 < e < 31 && m < 0x400
    ensures Value32(s, e + 112, m * 0x2000) == Value16(s, e, m)
  {
    NormalKept(e, m);
  }

  lemma {:induction false} SmallKept(s: nat, m: nat, n: nat, top: nat)
    requires 0 < m < 0x400 && n == Shift(m) <= 10 && top == Top(m)
    ensures Value32(s, 113 - n, top % 0x400 * 0x2000) == Value16(s, 0, m)
  {
    SubnormalKept(m, n, top);
  }

  lemma ZeroKept(s: nat)
    ensures Value32(s, 0, 0) == Value16(s, 0, 0)
  {
  }

  lemma Regroup(a: real, b: real, c: real)
    ensures (a * c) * b == a * (c * b)
  {
  }

  /** Widening is exact: every finite half keeps its value and its sign, zeros and subnormals included;
      an infinity stays one, and a NaN keeps the bits that tell it apart. */
  lemma {:induction false} ValueKept(h: nat, a: Fields, b: Fields)
    requires h < 0x1_0000 && a == Fields16(h) && b == Widened(h)
    ensures a.s == b.s && (a.e < 31 <==> b.e < 255)
    ensures a.e < 31 ==> Value32(b.s, b.e, b.m) == Value16(a.s, a.e, a.m)
    ensures a.e == 31 ==> b.m == a.m * 0x2000
  {
    if a.e == 0 && a.m != 0 {
      ShiftShort(a.m);
      SmallKept(a.s, a.m, Shift(a.m), Top(a.m));
    } else if a.e == 0 {
      ZeroKept(a.s);
    } else if a.e < 31 {
      FiniteKept(a.s, a.e, a.m);
    }
  }

  // ------------------------------------------------------------------- bound fields

  function Bytes4(u: nat): (int, int, int, int)
  {
    (u % 256, u / 256 % 256, u / 256 / 256 % 256, u / 256 / 256 / 256)
  }

  function WordOf(h: nat): nat
    requires h < 0x1_0000
  {
    var f := Widened(h);
    Word(f.s, f.e, f.m)
  }

  /** The conversion as the binders use it, from the two bytes of a half. */
  function FromBytes(lo: int, hi: int): (int, int, int, int)
  {
    var h := lo + 0x100 * hi;
    if 0 <= h < 0x1_0000 then Bytes4(WordOf(h)) else (0, 0, 0, 0)
  }

  lemma BytesBack(u: nat)
    ensures var q := Bytes4(u); q.0 + 0x100 * q.1 + 0x1_0000 * q.2 + 0x100_0000 * q.3 == u
  {
  }

  lemma {:induction false} FourBack(v: seq<int>, k: nat, u: nat)
    requires 4 * k + 4 <= |v| && v[4 * k..4 * k + 4] == Bind.Four(Bytes4(u))
    ensures Bind.Word32(v, k) == u
  {
    var four := v[4 * k..4 * k + 4];
    assert Bind.Word32(v, k) == four[0] + 0x100 * four[1] + 0x1_0000 * four[2] + 0x100_0000 * four[3];
    BytesBack(u);
  }

  lemma {:induction false} FromHalf(lo: int, hi: int, h: nat, u: nat)
    requires h == lo + 0x100 * hi < 0x1_0000 && u == WordOf(h)
    ensures FromBytes(lo, hi) == Bytes4(u)
  {
  }

  lemma {:induction false} WordOfHalf(h: nat)
    requires h < 0x1_0000
    ensures Fields32(WordOf(h)) == Widened(h)
  {
    var f := Widened(h);
    WordFields(f.s, f.e, f.m);
  }

  /** A field stored in half precision shows, at place `k`, the widened half at place `k`. */
  lemma {:induction false} HalfShown(cv: Bind.Conv, src: seq<int>, v: seq<int>, n: nat, k: nat, h: int)
    requires cv.f16 == FromBytes && Bind.Shows(cv, Bytes.F16, src, v, n) && k < n
    requires 2 * k + 2 <= |src| && h == Bind.Word16(src, k) && 0 <= h < 0x1_0000
    ensures Bind.Word32(v, k) >= 0 && Fields32(Bind.Word32(v, k)) == Widened(h)
  {
    assert Bind.ElemIs(cv, Bytes.F16, src, v, k);
    FromHalf(src[2 * k], src[2 * k + 1], h, WordOf(h));
    FourBack(v, k, WordOf(h));
    WordOfHalf(h);
  }
}
