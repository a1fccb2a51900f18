/** Dot products in lanes: src/kernels/kernel.c:85-132 against src/kernels/kernel_avx2.c:64-148,
    and the group dot of src/quant/mxfp4.c:84-121. Each pair builds one operation tree. */
module Dot {
  import opened Numerics

  function Widen<W, F>(wide: W -> F, s: seq<W>): (r: seq<F>)
    ensures |r| == |s|
  {
    seq(|s|, i requires 0 <= i < |s| => wide(s[i]))
  }

  // ------------------------------------------------------------- the operation tree

  /** Accumulator `l` of `w` after `c` steps: it takes elements l, l + w, l + 2w, ... */
  function Lane<F>(A: Ops<F>, p: seq<F>, q: seq<F>, w: nat, l: nat, c: nat): F
    requires l < w && w * c <= |p| && w * c <= |q|
  {
    if c == 0 then A.zero
    else
      assert w * c == w * (c - 1) + w;
      A.fma(p[w * (c - 1) + l], q[w * (c - 1) + l], Lane(A, p, q, w, l, c - 1))
  }

  function Lanes<F>(A: Ops<F>, p: seq<F>, q: seq<F>, w: nat, c: nat): (r: seq<F>)
    requires w * c <= |p| && w * c <= |q|
    ensures |r| == w
  {
    seq(w, l requires 0 <= l < w => Lane(A, p, q, w, l, c))
  }

  /** What is left over is folded in one element at a time. */
  function Tail<F>(A: Ops<F>, p: seq<F>, q: seq<F>, i: nat, s: F): F
    requires i <= |p| == |q|
    decreases |p| - i
  {
    if i == |p| then s else Tail(A, p, q, i + 1, A.fma(p[i], q[i], s))
  }

  function Red4<F>(A: Ops<F>, a: F, b: F, c: F, d: F): F { A.add(A.add(a, b), A.add(c, d)) }

  /** b_j = (a[j] + a[j+4]) + (a[j+8] + a[j+12]), then (b0 + b1) + (b2 + b3). */
  function Reduce16<F>(A: Ops<F>, a: seq<F>): F
    requires |a| == 16
  {
    Red4(A, Red4(A, a[0], a[4], a[8], a[12]), Red4(A, a[1], a[5], a[9], a[13]),
            Red4(A, a[2], a[6], a[10], a[14]), Red4(A, a[3], a[7], a[11], a[15]))
  }

  function Reduce8<F>(A: Ops<F>, a: seq<F>): F
    requires |a| == 8
  {
    Red4(A, A.add(a[0], a[4]), A.add(a[1], a[5]), A.add(a[2], a[6]), A.add(a[3], a[7]))
  }

  function Dot16<F>(A: Ops<F>, p: seq<F>, q: seq<F>): F
    requires |p| == |q|
  {
    var c := |p| / 16;
    Tail(A, p, q, 16 * c, Reduce16(A, Lanes(A, p, q, 16, c)))
  }

  function Dot8<F>(A: Ops<F>, p: seq<F>, q: seq<F>): F
    requires |p| == |q|
  {
    var c := |p| / 8;
    Tail(A, p, q, 8 * c, Reduce8(A, Lanes(A, p, q, 8, c)))
  }

  // ------------------------------------------------------------- the scalar kernels

  /** One step over `w` accumulators. */
  method LaneStep<V, X, F>(A: Ops<F>, wp: V -> F, a: seq<V>, wq: X -> F, b: seq<X>, w: nat, ghost c: nat, i: nat,
      acc: array<F>)
    requires |a| == |b| && acc.Length == w && i == w * c && i + w <= |a|
    requires acc[..] == Lanes(A, Widen(wp, a), Widen(wq, b), w, c)
    modifies acc
    ensures w * (c + 1) == i + w && acc[..] == Lanes(A, Widen(wp, a), Widen(wq, b), w, c + 1)
  {
    ghost var P, Q := Widen(wp, a), Widen(wq, b);
    assert w * (c + 1) == i + w;
    for l := 0 to w
      invariant forall k :: 0 <= k < l ==> acc[k] == Lane(A, P, Q, w, k, c + 1)
      invariant forall k :: l <= k < w ==> acc[k] == Lane(A, P, Q, w, k, c)
    {
      acc[l] := A.fma(wp(a[i + l]), wq(b[i + l]), acc[l]);
    }
  }

  method LaneLoop<V, X, F>(A: Ops<F>, wp: V -> F, a: seq<V>, wq: X -> F, b: seq<X>, w: nat)
    returns (i: nat, acc: array<F>, ghost c: nat)
    requires |a| == |b| && w > 0
    ensures i == w * c && |a| - w < i <= |a| && fresh(acc) && acc.Length == w
    ensures acc[..] == Lanes(A, Widen(wp, a), Widen(wq, b), w, c)
  {
    acc := new F[w](_ => A.zero);
    i, c := 0, 0;
    while i + w - 1 < |a|
      invariant i == w * c && i <= |a| && fresh(acc) && acc.Length == w
      invariant acc[..] == Lanes(A, Widen(wp, a), Widen(wq, b), w, c)
      decreases |a| - i
    {
      LaneStep(A, wp, a, wq, b, w, c, i, acc);
      i, c := i + w, c + 1;
    }
  }

  method TailLoop<V, X, F>(A: Ops<F>, wp: V -> F, a: seq<V>, wq: X -> F, b: seq<X>, i0: nat, s0: F) returns (s: F)
    requires i0 <= |a| == |b|
    ensures s == Tail(A, Widen(wp, a), Widen(wq, b), i0, s0)
  {
    s := s0;
    for i := i0 to |a|
      invariant Tail(A, Widen(wp, a), Widen(wq, b), i, s) == Tail(A, Widen(wp, a), Widen(wq, b), i0, s0)
    {
      s := A.fma(wp(a[i]), wq(b[i]), s);
    }
  }

  /** The reference dot; `wp` and `wq` widen the operands (f32, or bf16 for the weights). */
  method RefDot<V, X, F>(A: Ops<F>, wp: V -> F, a: seq<V>, wq: X -> F, b: seq<X>) returns (s: F)
    requires |a| == |b|
    ensures s == Dot16(A, Widen(wp, a), Widen(wq, b))
  {
    var i, acc;
    ghost var c;
    i, acc, c := LaneLoop(A, wp, a, wq, b, 16);
    assert c == |a| / 16;
    var b0 := A.add(A.add(acc[0], acc[4]), A.add(acc[8], acc[12]));
    var b1 := A.add(A.add(acc[1], acc[5]), A.add(acc[9], acc[13]));
    var b2 := A.add(A.add(acc[2], acc[6]), A.add(acc[10], acc[14]));
    var b3 := A.add(A.add(acc[3], acc[7]), A.add(acc[11], acc[15]));
    assert acc[..] == Lanes(A, Widen(wp, a), Widen(wq, b), 16, c);
    s := A.add(A.add(b0, b1), A.add(b2, b3));
    s := TailLoop(A, wp, a, wq, b, i, s);
  }

  /** The reference dot of one MXFP4 group. */
  method RefGroupDot<V, X, F>(A: Ops<F>, wp: V -> F, a: seq<V>, wq: X -> F, b: seq<X>) returns (s: F)
    requires |a| == |b|
    ensures s == Dot8(A, Widen(wp, a), Widen(wq, b))
  {
    var i, acc;
    ghost var c;
    i, acc, c := LaneLoop(A, wp, a, wq, b, 8);
    assert c == |a| / 8;
    var b0, b1 := A.add(acc[0], acc[4]), A.add(acc[1], acc[5]);
    var b2, b3 := A.add(acc[2], acc[6]), A.add(acc[3], acc[7]);
    assert acc[..] == Lanes(A, Widen(wp, a), Widen(wq, b), 8, c);
    s := A.add(A.add(b0, b1), A.add(b2, b3));
    s := TailLoop(A, wp, a, wq, b, i, s);
  }

  // ------------------------------------------------------------- the vector kernels

  /** A register of four lanes. */
  datatype V4<F> = V4(x0: F, x1: F, x2: F, x3: F)

  function Splat<F>(z: F): V4<F> { V4(z, z, z, z) }

  function Load<V, F>(wide: V -> F, s: seq<V>, i: nat): V4<F>
    requires i + 4 <= |s|
  {
    V4(wide(s[i]), wide(s[i + 1]), wide(s[i + 2]), wide(s[i + 3]))
  }

  function FmaV<F>(A: Ops<F>, a: V4<F>, b: V4<F>, c: V4<F>): V4<F>
  {
    V4(A.fma(a.x0, b.x0, c.x0), A.fma(a.x1, b.x1, c.x1), A.fma(a.x2, b.x2, c.x2), A.fma(a.x3, b.x3, c.x3))
  }

  function AddV<F>(A: Ops<F>, a: V4<F>, b: V4<F>): V4<F>
  {
    V4(A.add(a.x0, b.x0), A.add(a.x1, b.x1), A.add(a.x2, b.x2), A.add(a.x3, b.x3))
  }

  /** Four neighbouring lanes of the scalar kernel. */
  ghost function LaneV<F>(A: Ops<F>, p: seq<F>, q: seq<F>, w: nat, l: nat, c: nat): V4<F>
    requires l + 4 <= w && w * c <= |p| && w * c <= |q|
  {
    V4(Lane(A, p, q, w, l, c), Lane(A, p, q, w, l + 1, c), Lane(A, p, q, w, l + 2, c), Lane(A, p, q, w, l + 3, c))
  }

  method VecStep<V, X, F>(A: Ops<F>, wp: V -> F, a: seq<V>, wq: X -> F, b: seq<X>, ghost w: nat, ghost l: nat,
      ghost c: nat, i: nat, v: V4<F>)
    returns (v': V4<F>)
    requires |a| == |b| && l + 4 <= w && w * c + w <= |a| && i == w * c + l
    requires v == LaneV(A, Widen(wp, a), Widen(wq, b), w, l, c)
    ensures w * (c + 1) == w * c + w && v' == LaneV(A, Widen(wp, a), Widen(wq, b), w, l, c + 1)
  {
    assert w * (c + 1) == w * c + w;
    v' := FmaV(A, Load(wp, a, i), Load(wq, b, i), v);
  }

  /** The vector dot: four registers, sixteen lanes. */
  method VecDot<V, X, F>(A: Ops<F>, wp: V -> F, a: seq<V>, wq: X -> F, b: seq<X>) returns (s: F)
    requires |a| == |b|
    ensures s == Dot16(A, Widen(wp, a), Widen(wq, b))
  {
    ghost var P, Q := Widen(wp, a), Widen(wq, b);
    var z := Splat(A.zero);
    var v0, v1, v2, v3 := z, z, z, z;
    var i := 0;
    ghost var c := 0;
    while i + 15 < |a|
      invariant i == 16 * c && i <= |a|
      invariant v0 == LaneV(A, P, Q, 16, 0, c) && v1 == LaneV(A, P, Q, 16, 4, c)
      invariant v2 == LaneV(A, P, Q, 16, 8, c) && v3 == LaneV(A, P, Q, 16, 12, c)
    {
      v0 := VecStep(A, wp, a, wq, b, 16, 0, c, i, v0);
      v1 := VecStep(A, wp, a, wq, b, 16, 4, c, i + 4, v1);
      v2 := VecStep(A, wp, a, wq, b, 16, 8, c, i + 8, v2);
      v3 := VecStep(A, wp, a, wq, b, 16, 12, c, i + 12, v3);
      i, c := i + 16, c + 1;
    }
    assert c == |a| / 16;
    var t := AddV(A, AddV(A, v0, v1), AddV(A, v2, v3));
    s := A.add(A.add(t.x0, t.x1), A.add(t.x2, t.x3));
    s := TailLoop(A, wp, a, wq, b, i, s);
  }

  /** The vector dot of one MXFP4 group: two registers, eight lanes. */
  method VecGroupDot<V, X, F>(A: Ops<F>, wp: V -> F, a: seq<V>, wq: X -> F, b: seq<X>) returns (s: F)
    requires |a| == |b|
    ensures s == Dot8(A, Widen(wp, a), Widen(wq, b))
  {
    ghost var P, Q := Widen(wp, a), Widen(wq, b);
    var z := Splat(A.zero);
    var v0, v1 := z, z;
    var i := 0;
    ghost var c := 0;
    while i + 7 < |a|
      invariant i == 8 * c && i <= |a|
      invariant v0 == LaneV(A, P, Q, 8, 0, c) && v1 == LaneV(A, P, Q, 8, 4, c)
    {
      v0 := VecStep(A, wp, a, wq, b, 8, 0, c, i, v0);
      v1 := VecStep(A, wp, a, wq, b, 8, 4, c, i + 4, v1);
      i, c := i + 8, c + 1;
    }
    assert c == |a| / 8;
    var t := AddV(A, v0, v1);
    s := A.add(A.add(t.x0, t.x1), A.add(t.x2, t.x3));
    s := TailLoop(A, wp, a, wq, b, i, s);
  }

  /** A matrix times a vector, row by row: which kernel runs, and so which rows run where,
      changes nothing. */
  method Matmul<V(!new), X(!new), F(!new), Y(!new)>(A: Ops<F>, avx: bool, wp: V -> F, rows: seq<seq<V>>, wq: X -> F,
      x: seq<X>, narrow: F -> Y)
    returns (y: seq<Y>)
    requires forall o :: 0 <= o < |rows| ==> |rows[o]| == |x|
    ensures |y| == |rows|
    ensures forall o :: 0 <= o < |rows| ==> IsRowDot(A, wp, rows[o], wq, x, narrow, y[o])
  {
    y := [];
    for o := 0 to |rows|
      invariant |y| == o
      invariant forall k :: 0 <= k < o ==> IsRowDot(A, wp, rows[k], wq, x, narrow, y[k])
    {
      var v := RowOf(A, avx, wp, rows[o], wq, x, narrow);
      y := y + [v];
    }
  }

  /** The narrowed tree of one row. */
  ghost predicate IsRowDot<V(!new), X(!new), F(!new), Y(!new)>(A: Ops<F>, wp: V -> F, row: seq<V>, wq: X -> F,
      x: seq<X>, narrow: F -> Y, v: Y)
  {
    |row| == |x| && v == narrow(Dot16(A, Widen(wp, row), Widen(wq, x)))
  }

  /** One row by either kernel. */
  method RowOf<V(!new), X(!new), F(!new), Y(!new)>(A: Ops<F>, avx: bool, wp: V -> F, row: seq<V>, wq: X -> F, x: seq<X>,
      narrow: F -> Y)
    returns (v: Y)
    requires |row| == |x|
    ensures IsRowDot(A, wp, row, wq, x, narrow, v)
  {
    var s;
    if avx { s := VecDot(A, wp, row, wq, x); } else { s := RefDot(A, wp, row, wq, x); }
    v := narrow(s);
  }

  // ---------------------------------------------------------------- over the reals

  /** The dot product itself. */
  function Sum(p: seq<real>, q: seq<real>, lo: nat, hi: nat): real
    requires lo <= hi <= |p| && hi <= |q|
  {
    if lo == hi then 0.0 else Sum(p, q, lo, hi - 1) + p[hi - 1] * q[hi - 1]
  }

  lemma {:induction false} SumSplit(p: seq<real>, q: seq<real>, lo: nat, mid: nat, hi: nat)
    requires lo <= mid <= hi <= |p| && hi <= |q|
    ensures Sum(p, q, lo, hi) == Sum(p, q, lo, mid) + Sum(p, q, mid, hi)
    decreases hi
  {
    if mid < hi { SumSplit(p, q, lo, mid, hi - 1); }
  }

  function Scaled<F>(A: Ops<F>, s: seq<F>, k: F): (r: seq<F>)
    ensures |r| == |s|
  {
    seq(|s|, j requires 0 <= j < |s| => A.mul(s[j], k))
  }

  /** Scaling a dot is the dot of the scaled row. */
  lemma {:induction false} ScaleSum(p: seq<real>, q: seq<real>, k: real, m: nat)
    requires m <= |p| && m <= |q|
    ensures Sum(p, q, 0, m) * k == Sum(Scaled(RealOps(), p, k), q, 0, m)
    decreases m
  {
    if m > 0 {
      ScaleSum(p, q, k, m - 1);
      assert (p[m - 1] * k) * q[m - 1] == p[m - 1] * q[m - 1] * k;
    }
  }

  lemma {:induction false} SumConcat(p: seq<real>, r: seq<real>, x: seq<real>, m: nat)
    requires m <= |r| && |p| + m <= |x|
    ensures Sum(p + r, x, 0, |p| + m) == Sum(p, x, 0, |p|) + Sum(r, x[|p|..|p| + m], 0, m)
    decreases m
  {
    if m == 0 {
      SumPrefix(p, r, x, |p|);
    } else {
      SumConcat(p, r, x, m - 1);
      SameSum(r, x[|p|..|p| + m], x[|p|..|p| + (m - 1)], m - 1);
    }
  }

  lemma {:induction false} SumPrefix(p: seq<real>, r: seq<real>, x: seq<real>, m: nat)
    requires m <= |p| && m <= |x|
    ensures Sum(p + r, x, 0, m) == Sum(p, x, 0, m)
    decreases m
  {
    if m > 0 { SumPrefix(p, r, x, m - 1); }
  }

  lemma {:induction false} SameSum(p: seq<real>, x: seq<real>, y: seq<real>, m: nat)
    requires m <= |p| && m <= |x| && m <= |y| && forall j :: 0 <= j < m ==> x[j] == y[j]
    ensures Sum(p, x, 0, m) == Sum(p, y, 0, m)
    decreases m
  {
    if m > 0 { SameSum(p, x, y, m - 1); }
  }

  /** The first `l` lanes added up. */
  ghost function LaneTotal(p: seq<real>, q: seq<real>, w: nat, l: nat, c: nat): real
    requires l <= w && w * c <= |p| && w * c <= |q|
  {
    if l == 0 then 0.0 else LaneTotal(p, q, w, l - 1, c) + Lane(RealOps(), p, q, w, l - 1, c)
  }

  lemma {:induction false} LaneTotalStep(p: seq<real>, q: seq<real>, w: nat, l: nat, c: nat)
    requires l <= w && w * c + w <= |p| && w * c + w <= |q|
    ensures w * (c + 1) == w * c + w
    ensures LaneTotal(p, q, w, l, c + 1) == LaneTotal(p, q, w, l, c) + Sum(p, q, w * c, w * c + l)
    decreases l
  {
    assert w * (c + 1) == w * c + w;
    if l > 0 { LaneTotalStep(p, q, w, l - 1, c); }
  }

  lemma {:induction false} LanesAreSum(p: seq<real>, q: seq<real>, w: nat, c: nat)
    requires w * c <= |p| && w * c <= |q|
    ensures LaneTotal(p, q, w, w, c) == Sum(p, q, 0, w * c)
    decreases c
  {
    if c > 0 {
      assert w * c == w * (c - 1) + w;
      LanesAreSum(p, q, w, c - 1);
      LaneTotalStep(p, q, w, w, c - 1);
      SumSplit(p, q, 0, w * (c - 1), w * c);
    } else {
      LanesZero(p, q, w, w);
      assert w * c == 0;
    }
  }

  lemma {:induction false} LanesZero(p: seq<real>, q: seq<real>, w: nat, l: nat)
    requires l <= w && w * 0 <= |p| && w * 0 <= |q|
    ensures LaneTotal(p, q, w, l, 0) == 0.0
  {
    if l > 0 { LanesZero(p, q, w, l - 1); }
  }

  lemma {:induction false} TailIsSum(p: seq<real>, q: seq<real>, i: nat, s: real)
    requires i <= |p| == |q|
    ensures Tail(RealOps(), p, q, i, s) == s + Sum(p, q, i, |p|)
    decreases |p| - i
  {
    if i < |p| {
      TailIsSum(p, q, i + 1, p[i] * q[i] + s);
      SumSplit(p, q, i, i + 1, |p|);
    }
  }

  ghost function Front(a: seq<real>, l: nat): real
    requires l <= |a|
  {
    if l == 0 then 0.0 else Front(a, l - 1) + a[l - 1]
  }

  lemma {:induction false} Reduce16IsTotal(p: seq<real>, q: seq<real>, c: nat)
    requires 16 * c <= |p| && 16 * c <= |q|
    ensures Reduce16(RealOps(), Lanes(RealOps(), p, q, 16, c)) == LaneTotal(p, q, 16, 16, c)
  {
    for l := 0 to 16
      invariant LaneTotal(p, q, 16, l, c) == Front(Lanes(RealOps(), p, q, 16, c), l)
    {
    }
    Front16(Lanes(RealOps(), p, q, 16, c));
  }

  lemma {:induction false} Front16(a: seq<real>)
    requires |a| == 16
    ensures Reduce16(RealOps(), a) == Front(a, 16)
  {
    assert Front(a, 1) == Front(a, 0) + a[0];
    assert Front(a, 2) == Front(a, 1) + a[1];
    assert Front(a, 3) == Front(a, 2) + a[2];
    assert Front(a, 4) == Front(a, 3) + a[3];
    assert Front(a, 5) == Front(a, 4) + a[4];
    assert Front(a, 6) == Front(a, 5) + a[5];
    assert Front(a, 7) == Front(a, 6) + a[6];
    assert Front(a, 8) == Front(a, 7) + a[7];
    assert Front(a, 9) == Front(a, 8) + a[8];
    assert Front(a, 10) == Front(a, 9) + a[9];
    assert Front(a, 11) == Front(a, 10) + a[10];
    assert Front(a, 12) == Front(a, 11) + a[11];
    assert Front(a, 13) == Front(a, 12) + a[12];
    assert Front(a, 14) == Front(a, 13) + a[13];
    assert Front(a, 15) == Front(a, 14) + a[14];
    assert Front(a, 16) == Front(a, 15) + a[15];
  }

  lemma {:induction false} Dot16IsSum(p: seq<real>, q: seq<real>)
    requires |p| == |q|
    ensures Dot16(RealOps(), p, q) == Sum(p, q, 0, |p|)
  {
    var c := |p| / 16;
    Reduce16IsTotal(p, q, c);
    LanesAreSum(p, q, 16, c);
    TailIsSum(p, q, 16 * c, Reduce16(RealOps(), Lanes(RealOps(), p, q, 16, c)));
    SumSplit(p, q, 0, 16 * c, |p|);
  }

  lemma {:induction false} Reduce8IsTotal(p: seq<real>, q: seq<real>, c: nat)
    requires 8 * c <= |p| && 8 * c <= |q|
    ensures Reduce8(RealOps(), Lanes(RealOps(), p, q, 8, c)) == LaneTotal(p, q, 8, 8, c)
  {
    for l := 0 to 8
      invariant LaneTotal(p, q, 8, l, c) == Front(Lanes(RealOps(), p, q, 8, c), l)
    {
    }
    Front8(Lanes(RealOps(), p, q, 8, c));
  }

  lemma {:induction false} Front8(a: seq<real>)
    requires |a| == 8
    ensures Reduce8(RealOps(), a) == Front(a, 8)
  {
    assert Front(a, 1) == Front(a, 0) + a[0];
    assert Front(a, 2) == Front(a, 1) + a[1];
    assert Front(a, 3) == Front(a, 2) + a[2];
    assert Front(a, 4) == Front(a, 3) + a[3];
    assert Front(a, 5) == Front(a, 4) + a[4];
    assert Front(a, 6) == Front(a, 5) + a[5];
    assert Front(a, 7) == Front(a, 6) + a[6];
    assert Front(a, 8) == Front(a, 7) + a[7];
  }

  lemma {:induction false} Dot8IsSum(p: seq<real>, q: seq<real>)
    requires |p| == |q|
    ensures Dot8(RealOps(), p, q) == Sum(p, q, 0, |p|)
  {
    var c := |p| / 8;
    Reduce8IsTotal(p, q, c);
    LanesAreSum(p, q, 8, c);
    TailIsSum(p, q, 8 * c, Reduce8(RealOps(), Lanes(RealOps(), p, q, 8, c)));
    SumSplit(p, q, 0, 8 * c, |p|);
  }

  /** With exact arithmetic every tree above is the dot product, for every length. */
  lemma {:induction false} TreesAreSums(p: seq<real>, q: seq<real>)
    requires |p| == |q|
    ensures Dot16(RealOps(), p, q) == Sum(p, q, 0, |p|)
    ensures Dot8(RealOps(), p, q) == Sum(p, q, 0, |p|)
  {
    Dot16IsSum(p, q);
    Dot8IsSum(p, q);
  }
}
