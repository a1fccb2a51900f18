/** MXFP4 rows: four-bit E2M1 elements, two to a byte, with one E8M0 scale byte per group,
    src/quant/mxfp4.c:47-202. Sections 5.3.3 and 5.4.1 of the OCP Microscaling Formats
    specification, version 1.0. */
module Mxfp4 {
  import opened Numerics
  import opened Dot
  import Ints

  type Byte = b: int | 0 <= b < 256

  // ----------------------------------------------------------------------- tables

  /** The element table of the source. */
  const E2M1: seq<real> :=
    [0.0, 0.5, 1.0, 1.5, 2.0, 3.0, 4.0, 6.0, 0.0, -0.5, -1.0, -1.5, -2.0, -3.0, -4.0, -6.0]

  function Exp2(e: int): (r: real)
    ensures r > 0.0
    decreases if e < 0 then -e else e
  {
    if e == 0 then 1.0 else if e > 0 then 2.0 * Exp2(e - 1) else Exp2(e + 1) / 2.0
  }

  /** The table is the format: one sign bit, two exponent bits with bias one, one mantissa bit,
      and subnormals at exponent zero. */
  lemma {:induction false} E2M1IsFormat(code: nat)
    requires code < 16
    ensures var s, e, m := code / 8, code / 2 % 4, code % 2;
      E2M1[code] == (if s == 1 then -1.0 else 1.0) *
        if e == 0 then Exp2(0) * (m as real / 2.0) else Exp2(e - 1) * (1.0 + m as real / 2.0)
  {
    assert Exp2(1) == 2.0 && Exp2(2) == 2.0 * Exp2(1);
    assert code / 8 == 0 || code / 8 == 1;
    assert code == 8 * (code / 8) + 2 * (code / 2 % 4) + code % 2;
  }

  /** A bare biased exponent; 255 is NaN in the format and stands for zero here. */
  function E8M0(b: Byte): real { if b == 255 then 0.0 else Exp2(b - 127) }

  lemma {:induction false} Exp2Next(e: int)
    ensures Exp2(e + 1) == 2.0 * Exp2(e)
  {
  }

  /** The scale table is the format: one at the bias, twice as much for each step up, and the NaN
      code zero. */
  lemma {:induction false} E8M0IsFormat(b: Byte)
    ensures E8M0(127) == 1.0 && E8M0(255) == 0.0
    ensures b < 254 ==> E8M0(b + 1) == 2.0 * E8M0(b)
  {
    assert Exp2(0) == 1.0;
    Exp2Next(b - 127);
  }

  /** The byte table: low nibble first. */
  method BuildPairs<F(!new)>(e2m1: seq<F>) returns (pairs: seq<(F, F)>)
    requires |e2m1| == 16
    ensures PairsOf(pairs, e2m1)
  {
    pairs := [];
    for b := 0 to 256
      invariant |pairs| == b && forall k :: 0 <= k < b ==> pairs[k] == (e2m1[k % 16], e2m1[k / 16])
    {
      pairs := pairs + [(e2m1[b % 16], e2m1[b / 16])];
    }
  }

  // ------------------------------------------------------------------- the fused dot

  /** Element `j` of the bytes from `at` on: the low nibble is the even element. */
  function Nibble(w: seq<Byte>, at: nat, j: nat): (c: nat)
    requires at + j / 2 < |w|
    ensures c < 16
  {
    if j % 2 == 1 then w[at + j / 2] / 16 else w[at + j / 2] % 16
  }

  /** Where group `g` starts, counted in steps of `step`: elements, or bytes of half as many. */
  function Start(step: nat, g: nat): nat { if g == 0 then 0 else Start(step, g - 1) + step }

  lemma {:induction false} StartIsProduct(step: nat, g: nat)
    ensures Start(step, g) == g * step
  {
    if g > 0 {
      StartIsProduct(step, g - 1);
      assert g * step == (g - 1) * step + step;
    }
  }

  function Groups(n: nat, group: nat): nat
    requires group > 0
  {
    (n + group - 1) / group
  }

  /** The sum both row functions start from is one a C int can hold. */
  predicate InInt(n: nat, group: nat) { n + group - 1 < 0x8000_0000 }

  /** How many groups both of them visit: none if that sum overflows. */
  function Count(n: nat, group: nat): (c: nat)
    requires group > 0
    ensures c <= Groups(n, group)
  {
    if InInt(n, group) then Groups(n, group) else 0
  }

  /** What a 32-bit register keeps of a value. */
  function S32(v: int): int { (v + 0x8000_0000) % 0x1_0000_0000 - 0x8000_0000 }

  /** That is what the sum and the quotient come to in 32 bits: a negative sum leaves nothing to
      visit. */
  lemma CountIs(n: nat, group: nat)
    requires n < 0x8000_0000 && 0 < group < 0x8000_0000
    ensures Count(n, group) == if S32(n + group - 1) < 0 then 0 else S32(n + group - 1) / group
  {
  }

  lemma {:induction false} GroupEdge(n: nat, group: nat, g: nat)
    requires group > 0
    ensures g < Groups(n, group) <==> g * group < n
  {
    var q, r := (n + group - 1) / group, (n + group - 1) % group;
    assert n + group - 1 == q * group + r;
    if g < q {
      Ints.MulAtLeast(q - g, group);
      assert (q - g) * group == q * group - g * group;
    } else {
      assert (g - q) * group == g * group - q * group;
      Ints.MulAtLeast(g - q, group);
    }
  }

  lemma {:induction false} GroupStarts(n: nat, group: nat, g: nat)
    requires group > 0
    ensures g < Groups(n, group) <==> Start(group, g) < n
  {
    GroupEdge(n, group, g);
    StartIsProduct(group, g);
  }

  /** The last group may be short; past the end there is nothing. */
  function GroupSize(n: nat, group: nat, g: nat): (m: nat)
    ensures m <= group && (Start(group, g) < n ==> Start(group, g) + m <= n)
  {
    if Start(group, g) >= n then 0 else if n - Start(group, g) > group then group else n - Start(group, g)
  }

  /** Enough bytes for the row, one scale byte per group. */
  ghost predicate RowOk(w: seq<Byte>, sc: seq<Byte>, n: nat, group: nat)
  {
    group > 0 && 2 * |w| >= n && |sc| >= Groups(n, group)
  }

  /** Floats the fused dot sets aside for one expanded group. */
  const Buffer: nat := 64

  /** Every group that is expanded fits in the buffer. A group whose scale is NaN is not
      expanded. */
  ghost predicate InBuffer(sc: seq<Byte>, n: nat, group: nat)
    requires group > 0 && |sc| >= Groups(n, group)
  {
    forall g :: 0 <= g < Count(n, group) && sc[g] != 255 ==> GroupSize(n, group, g) <= Buffer
  }

  /** The longest group of a row is the first. */
  function Longest(n: nat, group: nat): nat { if n <= group then n else group }

  lemma {:induction false} BufferBound(sc: seq<Byte>, n: nat, group: nat)
    requires group > 0 && |sc| >= Groups(n, group)
    ensures Longest(n, group) <= Buffer ==> InBuffer(sc, n, group)
    ensures Longest(n, group) > Buffer && InInt(n, group) && sc[0] != 255 ==> !InBuffer(sc, n, group)
  {
    GroupStarts(n, group, 0);
    assert GroupSize(n, group, 0) == Longest(n, group);
  }

  /** A group of 128 and a row of 128 elements, an even group: 128 floats go into 64. */
  lemma {:induction false} BufferExceeded(sc: seq<Byte>)
    requires |sc| >= 1 && sc[0] != 255
    ensures Groups(128, 128) == 1 && GroupSize(128, 128, 0) == 128 && !InBuffer(sc, 128, 128)
  {
    BufferBound(sc, 128, 128);
    assert Start(128, 0) == 0;
  }

  lemma {:induction false} ByteStart(group: nat, g: nat)
    ensures 2 * Start(group / 2, g) <= Start(group, g)
    ensures group % 2 == 0 ==> 2 * Start(group / 2, g) == Start(group, g)
  {
    if g > 0 { ByteStart(group, g - 1); }
  }

  /** `m` elements from the bytes at `at` on, skipping the first `skip`. */
  function Expand<F>(T: seq<F>, w: seq<Byte>, at: nat, skip: nat, m: nat): (r: seq<F>)
    requires |T| == 16 && (m > 0 ==> at + (skip + m - 1) / 2 < |w|)
    ensures |r| == m
  {
    seq(m, j requires 0 <= j < m => T[Nibble(w, at, skip + j)])
  }

  /** A group as the fused dot finds it: from its own first byte. */
  function GroupVals<F>(T: seq<F>, w: seq<Byte>, n: nat, group: nat, g: nat): (r: seq<F>)
    requires |T| == 16 && 2 * |w| >= n
    ensures |r| == GroupSize(n, group, g)
  {
    ByteStart(group, g);
    Expand(T, w, Start(group / 2, g), 0, GroupSize(n, group, g))
  }

  /** The same group as dequantisation finds it: by element number from the start of the row. */
  function RowVals<F>(T: seq<F>, w: seq<Byte>, n: nat, group: nat, g: nat): (r: seq<F>)
    requires |T| == 16 && 2 * |w| >= n
    ensures |r| == GroupSize(n, group, g)
  {
    Expand(T, w, 0, Start(group, g), GroupSize(n, group, g))
  }

  function XGroup<F>(x: seq<F>, group: nat, g: nat): (r: seq<F>)
    ensures |r| == GroupSize(|x|, group, g)
  {
    if Start(group, g) >= |x| then [] else x[Start(group, g)..Start(group, g) + GroupSize(|x|, group, g)]
  }

  /** The fused row after `g` groups: each group's dot, scaled once, in order; a NaN scale is
      passed over. */
  function RowTree<F>(A: Ops<F>, E: Byte -> F, sc: seq<Byte>, dots: nat -> F, g: nat): F
    requires g <= |sc|
  {
    if g == 0 then A.zero
    else if sc[g - 1] == 255 then RowTree(A, E, sc, dots, g - 1)
    else A.add(RowTree(A, E, sc, dots, g - 1), A.mul(dots(g - 1), E(sc[g - 1])))
  }

  /** The unscaled dot of each group. */
  function Dots<F>(A: Ops<F>, T: seq<F>, w: seq<Byte>, x: seq<F>, group: nat): nat -> F
    requires |T| == 16 && 2 * |w| >= |x|
  {
    (g: nat) => Dot8(A, GroupVals(T, w, |x|, group, g), XGroup(x, group, g))
  }

  ghost predicate PairsOf<F(!new)>(pairs: seq<(F, F)>, T: seq<F>)
  {
    |T| == 16 && |pairs| == 256 && forall b :: 0 <= b < 256 ==> pairs[b] == (T[b % 16], T[b / 16])
  }

  method ExpandGroup<F(!new)>(pairs: seq<(F, F)>, ghost T: seq<F>, w: seq<Byte>, at: nat, m: nat, wf: array<F>)
    requires PairsOf(pairs, T) && 0 < m <= wf.Length && at + (m - 1) / 2 < |w|
    modifies wf
    ensures wf[..m] == Expand(T, w, at, 0, m)
  {
    var half := m / 2;
    for j := 0 to half
      invariant forall k :: 0 <= k < 2 * j ==> wf[k] == T[Nibble(w, at, k)]
    {
      var pv := pairs[w[at + j]];
      wf[2 * j] := pv.0;
      wf[2 * j + 1] := pv.1;
      assert Nibble(w, at, 2 * j) == w[at + j] % 16 && Nibble(w, at, 2 * j + 1) == w[at + j] / 16;
    }
    if m % 2 == 1 {
      wf[m - 1] := pairs[w[at + half]].0;
    }
  }

  /** Either group kernel, on operands already expanded. */
  method GroupDot<F, X>(A: Ops<F>, avx: bool, v: seq<F>, wide: X -> F, xg: seq<X>) returns (s: F)
    requires |v| == |xg|
    ensures s == Dot8(A, v, Widen(wide, xg))
  {
    if avx { s := VecGroupDot(A, f => f, v, wide, xg); } else { s := RefGroupDot(A, f => f, v, wide, xg); }
    assert Widen(f => f, v) == v;
  }

  /** The two operands of one group. */
  method Operands<F(!new), X>(pairs: seq<(F, F)>, ghost T: seq<F>, w: seq<Byte>, wide: X -> F, x: seq<X>, group: nat,
      ghost g: nat, lo: nat, at: nat, wf: array<F>)
    returns (v: seq<F>, xg: seq<X>)
    requires PairsOf(pairs, T) && group > 0 && 2 * |w| >= |x|
    requires lo == Start(group, g) < |x| && at == Start(group / 2, g)
    requires GroupSize(|x|, group, g) <= wf.Length
    modifies wf
    ensures v == GroupVals(T, w, |x|, group, g) && Widen(wide, xg) == XGroup(Widen(wide, x), group, g)
  {
    var m := |x| - lo;
    if m > group { m := group; }
    ByteStart(group, g);
    ExpandGroup(pairs, T, w, at, m, wf);
    v, xg := wf[..m], x[lo..lo + m];
  }

  /** The fused dot of a row, with either group kernel: the operations and their order do not
      depend on which one runs. */
  method DotRow<F(0, !new), X>(A: Ops<F>, avx: bool, T: seq<F>, E: Byte -> F, w: seq<Byte>, sc: seq<Byte>, wide: X -> F,
      x: seq<X>, group: nat)
    returns (acc: F)
    requires |T| == 16 && RowOk(w, sc, |x|, group) && InBuffer(sc, |x|, group)
    ensures acc == RowTree(A, E, sc, Dots(A, T, w, Widen(wide, x), group), Count(|x|, group))
  {
    var pairs := BuildPairs(T);
    var wf := new F[Buffer];
    ghost var dots := Dots(A, T, w, Widen(wide, x), group);
    acc := A.zero;
    for g := 0 to Count(|x|, group)
      invariant acc == RowTree(A, E, sc, dots, g)
    {
      if sc[g] != 255 {
        GroupStarts(|x|, group, g);
        StartIsProduct(group, g);
        StartIsProduct(group / 2, g);
        var v, xg := Operands(pairs, T, w, wide, x, group, g, g * group, g * (group / 2), wf);
        var s := GroupDot(A, avx, v, wide, xg);
        acc := A.add(acc, A.mul(s, E(sc[g])));
      }
    }
  }

  // ---------------------------------------------------------------- dequantisation

  /** Groups of values, each times its scale, one after the other. */
  function Joined<F>(A: Ops<F>, E: Byte -> F, sc: seq<Byte>, vals: nat -> seq<F>, g: nat): (r: seq<F>)
    requires g <= |sc|
  {
    if g == 0 then [] else Joined(A, E, sc, vals, g - 1) + Scaled(A, vals(g - 1), E(sc[g - 1]))
  }

  function RowGroups<F>(T: seq<F>, w: seq<Byte>, n: nat, group: nat): nat -> seq<F>
    requires |T| == 16 && 2 * |w| >= n
  {
    (g: nat) => RowVals(T, w, n, group, g)
  }

  method DequantGroup<F>(A: Ops<F>, T: seq<F>, mult: F, w: seq<Byte>, group: nat, ghost g: nat, lo: nat, out: array<F>)
    requires |T| == 16 && group > 0 && 2 * |w| >= out.Length && lo == Start(group, g) < out.Length
    modifies out
    ensures out[..lo] == old(out[..lo])
    ensures out[lo..lo + GroupSize(out.Length, group, g)] == Scaled(A, RowVals(T, w, out.Length, group, g), mult)
  {
    var hi := lo + group;
    if hi > out.Length { hi := out.Length; }
    for i := lo to hi
      invariant out[..lo] == old(out[..lo])
      invariant forall k :: lo <= k < i ==> out[k] == A.mul(T[Nibble(w, 0, k)], mult)
    {
      var byte := w[i / 2];
      var nib := if i % 2 == 1 then byte / 16 else byte % 16;
      out[i] := A.mul(T[nib], mult);
    }
  }

  method DequantRow<F>(A: Ops<F>, T: seq<F>, E: Byte -> F, w: seq<Byte>, sc: seq<Byte>, group: nat, out: array<F>)
    requires |T| == 16 && RowOk(w, sc, out.Length, group)
    modifies out
    ensures InInt(out.Length, group) ==>
      out[..] == Joined(A, E, sc, RowGroups(T, w, out.Length, group), Count(out.Length, group))
    ensures !InInt(out.Length, group) ==> out[..] == old(out[..])
  {
    var n := out.Length;
    ghost var vals := RowGroups(T, w, n, group);
    for g := 0 to Count(n, group)
      invariant g == 0 ==> out[..] == old(out[..])
      invariant out[..Upto(n, group, g)] == Joined(A, E, sc, vals, g)
    {
      DequantNext(A, T, E, w, sc, group, g, out);
    }
    if InInt(n, group) {
      GroupStarts(n, group, Groups(n, group));
      assert out[..] == out[..Upto(n, group, Groups(n, group))];
    }
  }

  /** One more group after those already written. */
  method DequantNext<F>(A: Ops<F>, T: seq<F>, E: Byte -> F, w: seq<Byte>, sc: seq<Byte>, group: nat, g: nat,
      out: array<F>)
    requires |T| == 16 && RowOk(w, sc, out.Length, group) && g < Groups(out.Length, group)
    requires out[..Upto(out.Length, group, g)] == Joined(A, E, sc, RowGroups(T, w, out.Length, group), g)
    modifies out
    ensures out[..Upto(out.Length, group, g + 1)] == Joined(A, E, sc, RowGroups(T, w, out.Length, group), g + 1)
  {
    ghost var n := out.Length;
    GroupStarts(n, group, g);
    StartIsProduct(group, g);
    ghost var lo, m := Start(group, g), GroupSize(n, group, g);
    ghost var before := out[..lo];
    DequantGroup(A, T, E(sc[g]), w, group, g, g * group, out);
    assert out[..lo + m] == before + Scaled(A, RowVals(T, w, n, group, g), E(sc[g]));
  }

  // ---------------------------------------------------------------- over the reals

  ghost function FusedGroups(T: seq<real>, w: seq<Byte>, n: nat, group: nat): nat -> seq<real>
    requires |T| == 16 && 2 * |w| >= n
  {
    (g: nat) => GroupVals(T, w, n, group, g)
  }

  lemma {:induction false} AddGroup(acc: real, d: real, k: real, p: seq<real>, v: seq<real>, x: seq<real>)
    requires |p| + |v| <= |x| && acc == Sum(p, x, 0, |p|) && d == Sum(v, x[|p|..|p| + |v|], 0, |v|)
    ensures acc + d * k == Sum(p + Scaled(RealOps(), v, k), x, 0, |p| + |v|)
  {
    ScaleSum(v, x[|p|..|p| + |v|], k, |v|);
    SumConcat(p, Scaled(RealOps(), v, k), x, |v|);
  }

  /** A NaN scale, passed over by the fused loop, would have added nothing. */
  lemma {:induction false} RowStep(E: Byte -> real, sc: seq<Byte>, dots: nat -> real, g: nat)
    requires E(255) == 0.0 && g < |sc|
    ensures RowTree(RealOps(), E, sc, dots, g + 1) == RowTree(RealOps(), E, sc, dots, g) + dots(g) * E(sc[g])
  {
  }

  /** Group `g` meets the part of `x` that lies under it in the joined row. */
  ghost predicate Meets(E: Byte -> real, sc: seq<Byte>, vals: nat -> seq<real>, dots: nat -> real, x: seq<real>, g: nat)
    requires g < |sc|
  {
    var lo, v := |Joined(RealOps(), E, sc, vals, g)|, vals(g);
    lo + |v| <= |x| && dots(g) == Sum(v, x[lo..lo + |v|], 0, |v|)
  }

  ghost predicate SumsTo(E: Byte -> real, sc: seq<Byte>, vals: nat -> seq<real>, dots: nat -> real, x: seq<real>,
      g: nat)
    requires g <= |sc|
  {
    var p := Joined(RealOps(), E, sc, vals, g);
    |p| <= |x| && RowTree(RealOps(), E, sc, dots, g) == Sum(p, x, 0, |p|)
  }

  lemma {:induction false} SumsToNext(E: Byte -> real, sc: seq<Byte>, vals: nat -> seq<real>, dots: nat -> real,
      x: seq<real>, g: nat)
    requires E(255) == 0.0 && g < |sc| && Meets(E, sc, vals, dots, x, g) && SumsTo(E, sc, vals, dots, x, g)
    ensures SumsTo(E, sc, vals, dots, x, g + 1)
  {
    RowStep(E, sc, dots, g);
    AddGroup(RowTree(RealOps(), E, sc, dots, g), dots(g), E(sc[g]), Joined(RealOps(), E, sc, vals, g), vals(g), x);
  }

  lemma {:induction false} RowIsSum(E: Byte -> real, sc: seq<Byte>, vals: nat -> seq<real>, dots: nat -> real,
      x: seq<real>, g: nat)
    requires E(255) == 0.0 && g <= |sc| && forall i :: 0 <= i < g ==> Meets(E, sc, vals, dots, x, i)
    ensures SumsTo(E, sc, vals, dots, x, g)
    decreases g
  {
    if g > 0 {
      RowIsSum(E, sc, vals, dots, x, g - 1);
      SumsToNext(E, sc, vals, dots, x, g - 1);
    }
  }

  function Upto(n: nat, group: nat, g: nat): nat { if Start(group, g) <= n then Start(group, g) else n }

  ghost predicate Sized(vals: nat -> seq<real>, n: nat, group: nat, g: nat) { |vals(g)| == GroupSize(n, group, g) }

  lemma {:induction false} JoinedSize(E: Byte -> real, sc: seq<Byte>, vals: nat -> seq<real>, n: nat, group: nat,
      g: nat)
    requires g <= |sc| && forall i :: Sized(vals, n, group, i)
    ensures |Joined(RealOps(), E, sc, vals, g)| == Upto(n, group, g)
    decreases g
  {
    if g > 0 {
      JoinedSize(E, sc, vals, n, group, g - 1);
      assert Sized(vals, n, group, g - 1);
    }
  }

  lemma {:induction false} SameJoined(E: Byte -> real, sc: seq<Byte>, u: nat -> seq<real>, v: nat -> seq<real>, g: nat)
    requires g <= |sc| && forall i :: 0 <= i < g ==> u(i) == v(i)
    ensures Joined(RealOps(), E, sc, u, g) == Joined(RealOps(), E, sc, v, g)
    decreases g
  {
    if g > 0 { SameJoined(E, sc, u, v, g - 1); }
  }

  /** With whole bytes per group, or for the first group, both readers find the same nibbles. */
  lemma {:induction false} SameGroup(T: seq<real>, w: seq<Byte>, n: nat, group: nat, g: nat)
    requires |T| == 16 && 2 * |w| >= n && (group % 2 == 0 || g == 0)
    ensures GroupVals(T, w, n, group, g) == RowVals(T, w, n, group, g)
  {
    ByteStart(group, g);
    var at := Start(group / 2, g);
    assert Start(group, g) == 2 * at;
    forall j | 0 <= j < GroupSize(n, group, g) ensures Nibble(w, at, j) == Nibble(w, 0, 2 * at + j) {
      assert (2 * at + j) / 2 == at + j / 2;
    }
  }

  ghost function Fused(T: seq<real>, E: Byte -> real, w: seq<Byte>, sc: seq<Byte>, x: seq<real>, group: nat): real
    requires |T| == 16 && RowOk(w, sc, |x|, group)
  {
    RowTree(RealOps(), E, sc, Dots(RealOps(), T, w, x, group), Count(|x|, group))
  }

  ghost function Dequanted(T: seq<real>, E: Byte -> real, w: seq<Byte>, sc: seq<Byte>, n: nat, group: nat): seq<real>
    requires |T| == 16 && RowOk(w, sc, n, group)
  {
    Joined(RealOps(), E, sc, RowGroups(T, w, n, group), Count(n, group))
  }

  lemma {:induction false} DotsAre(T: seq<real>, w: seq<Byte>, x: seq<real>, group: nat, g: nat)
    requires |T| == 16 && 2 * |w| >= |x|
    ensures var v := GroupVals(T, w, |x|, group, g);
      Dots(RealOps(), T, w, x, group)(g) == Sum(v, XGroup(x, group, g), 0, |v|)
  {
    TreesAreSums(GroupVals(T, w, |x|, group, g), XGroup(x, group, g));
  }

  lemma {:induction false} Under(E: Byte -> real, sc: seq<Byte>, vals: nat -> seq<real>, dots: nat -> real,
      x: seq<real>, group: nat, g: nat)
    requires g < |sc| && Start(group, g) < |x| && (forall i :: Sized(vals, |x|, group, i))
    requires |vals(g)| == |XGroup(x, group, g)|
    requires dots(g) == Sum(vals(g), XGroup(x, group, g), 0, |vals(g)|)
    ensures Meets(E, sc, vals, dots, x, g)
  {
    JoinedSize(E, sc, vals, |x|, group, g);
    assert Sized(vals, |x|, group, g);
  }

  lemma {:induction false} DotsMeet(T: seq<real>, E: Byte -> real, w: seq<Byte>, sc: seq<Byte>, x: seq<real>,
      group: nat, g: nat)
    requires |T| == 16 && RowOk(w, sc, |x|, group) && g < Groups(|x|, group)
    ensures Meets(E, sc, FusedGroups(T, w, |x|, group), Dots(RealOps(), T, w, x, group), x, g)
  {
    var vals, dots := FusedGroups(T, w, |x|, group), Dots(RealOps(), T, w, x, group);
    forall i ensures Sized(vals, |x|, group, i) { }
    GroupStarts(|x|, group, g);
    DotsAre(T, w, x, group, g);
    Under(E, sc, vals, dots, x, group, g);
  }

  lemma {:induction false} FusedIsSum(T: seq<real>, E: Byte -> real, w: seq<Byte>, sc: seq<Byte>, x: seq<real>,
      group: nat)
    requires |T| == 16 && E(255) == 0.0 && RowOk(w, sc, |x|, group) && InInt(|x|, group)
    ensures var p := Joined(RealOps(), E, sc, FusedGroups(T, w, |x|, group), Groups(|x|, group));
      |p| == |x| && Fused(T, E, w, sc, x, group) == Sum(p, x, 0, |x|)
    ensures |Dequanted(T, E, w, sc, |x|, group)| == |x|
  {
    var n, g := |x|, Groups(|x|, group);
    var vals, dots := FusedGroups(T, w, n, group), Dots(RealOps(), T, w, x, group);
    forall i | 0 <= i < g ensures Meets(E, sc, vals, dots, x, i) { DotsMeet(T, E, w, sc, x, group, i); }
    RowIsSum(E, sc, vals, dots, x, g);
    WholeRow(T, E, w, sc, n, group);
  }

  lemma {:induction false} WholeRow(T: seq<real>, E: Byte -> real, w: seq<Byte>, sc: seq<Byte>, n: nat, group: nat)
    requires |T| == 16 && RowOk(w, sc, n, group) && InInt(n, group)
    ensures |Joined(RealOps(), E, sc, FusedGroups(T, w, n, group), Groups(n, group))| == n
    ensures |Dequanted(T, E, w, sc, n, group)| == n
  {
    var u, v := FusedGroups(T, w, n, group), RowGroups(T, w, n, group);
    forall i ensures Sized(u, n, group, i) && Sized(v, n, group, i) { }
    JoinedSize(E, sc, u, n, group, Groups(n, group));
    JoinedSize(E, sc, v, n, group, Groups(n, group));
    GroupStarts(n, group, Groups(n, group));
  }

  lemma {:induction false} JoinedAt(E: Byte -> real, sc: seq<Byte>, vals: nat -> seq<real>, n: nat, group: nat,
      G: nat, g: nat, j: nat)
    requires g < G <= |sc| && (forall i :: Sized(vals, n, group, i)) && j < GroupSize(n, group, g)
    ensures Start(group, g) + j < |Joined(RealOps(), E, sc, vals, G)|
    ensures Joined(RealOps(), E, sc, vals, G)[Start(group, g) + j] == Valued(vals, g, j) * E(sc[g])
    decreases G
  {
    assert Sized(vals, n, group, g);
    if g < G - 1 { JoinedAt(E, sc, vals, n, group, G - 1, g, j); }
    else { JoinedSize(E, sc, vals, n, group, g); }
  }

  function Valued(vals: nat -> seq<real>, g: nat, j: nat): real { if j < |vals(g)| then vals(g)[j] else 0.0 }

  lemma {:induction false} Located(n: nat, group: nat, k: nat, g: nat, j: nat)
    requires group > 0 && k < n && g == k / group && j == k % group
    ensures g < Groups(n, group) && j < GroupSize(n, group, g) && Start(group, g) + j == k
  {
    assert g * group + j == k;
    GroupEdge(n, group, g);
    StartIsProduct(group, g);
  }

  lemma {:induction false} RowValAt(T: seq<real>, w: seq<Byte>, n: nat, group: nat, g: nat, j: nat, k: nat)
    requires |T| == 16 && 2 * |w| >= n && j < GroupSize(n, group, g) && Start(group, g) + j == k < n
    ensures Valued(RowGroups(T, w, n, group), g, j) == T[if k % 2 == 0 then w[k / 2] % 16 else w[k / 2] / 16]
  {
    assert RowVals(T, w, n, group, g)[j] == T[Nibble(w, 0, k)];
  }

  lemma {:induction false} RowSized(T: seq<real>, w: seq<Byte>, n: nat, group: nat)
    requires |T| == 16 && 2 * |w| >= n
    ensures forall i :: Sized(RowGroups(T, w, n, group), n, group, i)
  {
    forall i ensures Sized(RowGroups(T, w, n, group), n, group, i) { }
  }

  /** Element `k` of a row: its own half of its byte, even elements first, times the scale of the
      group it counts to. */
  lemma {:induction false} ElementAt(T: seq<real>, E: Byte -> real, w: seq<Byte>, sc: seq<Byte>, n: nat, group: nat,
      k: nat, h: nat)
    requires |T| == 16 && RowOk(w, sc, n, group) && InInt(n, group) && k < n && h == k / group
    ensures |Dequanted(T, E, w, sc, n, group)| == n && h < |sc|
    ensures Dequanted(T, E, w, sc, n, group)[k] ==
      T[if k % 2 == 0 then w[k / 2] % 16 else w[k / 2] / 16] * E(sc[h])
  {
    var j := k % group;
    WholeRow(T, E, w, sc, n, group);
    Located(n, group, k, h, j);
    RowSized(T, w, n, group);
    RowValAt(T, w, n, group, h, j, k);
    JoinedAt(E, sc, RowGroups(T, w, n, group), n, group, Groups(n, group), h, j);
  }

  /** Raising the scale byte of group `g` by one doubles that group's elements and leaves the
      others. */
  lemma {:induction false} ScaleUpRow(T: seq<real>, w: seq<Byte>, sc: seq<Byte>, up: seq<Byte>, n: nat, group: nat,
      g: nat, k: nat, h: nat)
    requires |T| == 16 && RowOk(w, sc, n, group) && InInt(n, group) && k < n && h == k / group
    requires g < |sc| && sc[g] < 254 && up == sc[g := sc[g] + 1]
    ensures |Dequanted(T, E8M0, w, sc, n, group)| == |Dequanted(T, E8M0, w, up, n, group)| == n
    ensures Dequanted(T, E8M0, w, up, n, group)[k] ==
      Dequanted(T, E8M0, w, sc, n, group)[k] * if h == g then 2.0 else 1.0
  {
    E8M0IsFormat(sc[g]);
    RowUp(T, E8M0, w, sc, up, n, group, g, k, h);
  }

  lemma {:induction false} RowUp(T: seq<real>, E: Byte -> real, w: seq<Byte>, sc: seq<Byte>, up: seq<Byte>, n: nat,
      group: nat, g: nat, k: nat, h: nat)
    requires |T| == 16 && RowOk(w, sc, n, group) && InInt(n, group) && k < n && h == k / group
    requires g < |sc| == |up| && up == sc[g := up[g]] && E(up[g]) == 2.0 * E(sc[g])
    ensures |Dequanted(T, E, w, sc, n, group)| == |Dequanted(T, E, w, up, n, group)| == n
    ensures Dequanted(T, E, w, up, n, group)[k] ==
      Dequanted(T, E, w, sc, n, group)[k] * if h == g then 2.0 else 1.0
  {
    ElementAt(T, E, w, sc, n, group, k, h);
    ElementAt(T, E, w, up, n, group, k, h);
    var v, e, c := T[if k % 2 == 0 then w[k / 2] % 16 else w[k / 2] / 16], E(sc[h]), if h == g then 2.0 else 1.0;
    assert E(up[h]) == c * e;
    Regroup(v, e, c);
  }

  lemma Regroup(a: real, b: real, c: real)
    ensures a * (c * b) == a * b * c
  {
  }

  lemma {:induction false} OneScale(E: Byte -> real, sc: seq<Byte>, dots: nat -> real, g: nat, G: nat, d: real, e: real)
    requires E(255) == 0.0 && g < |sc| && G <= |sc| && d == dots(g) && e == E(sc[g])
    ensures RowTree(RealOps(), E, sc, dots, G) ==
      RowTree(RealOps(), E, sc[g := 255], dots, G) + if g < G then d * e else 0.0
    decreases G
  {
    if G > 0 {
      var h: nat := G - 1;
      OneScale(E, sc, dots, g, h, d, e);
      RowStep(E, sc, dots, h);
      RowStep(E, sc[g := 255], dots, h);
    }
  }

  /** What a group adds to the fused dot: what is lost when its scale becomes NaN. */
  ghost function Share(T: seq<real>, E: Byte -> real, w: seq<Byte>, sc: seq<Byte>, x: seq<real>, group: nat,
      g: nat): real
    requires |T| == 16 && RowOk(w, sc, |x|, group) && g < |sc|
  {
    Fused(T, E, w, sc, x, group) - Fused(T, E, w, sc[g := 255], x, group)
  }

  lemma {:induction false} ShareIs(T: seq<real>, E: Byte -> real, w: seq<Byte>, sc: seq<Byte>, x: seq<real>, group: nat,
      g: nat, dots: nat -> real, c: nat, d: real, e: real)
    returns (s: real)
    requires |T| == 16 && RowOk(w, sc, |x|, group) && g < |sc| && E(255) == 0.0 && e == E(sc[g])
    requires dots == Dots(RealOps(), T, w, x, group) && c == Count(|x|, group) && d == dots(g)
    ensures s == Share(T, E, w, sc, x, group, g) && s == if g < c then d * e else 0.0
  {
    OneScale(E, sc, dots, g, c, d, e);
    s := Share(T, E, w, sc, x, group, g);
  }

  lemma {:induction false} ShareUp(T: seq<real>, E: Byte -> real, w: seq<Byte>, sc: seq<Byte>, up: seq<Byte>,
      x: seq<real>, group: nat, g: nat)
    requires |T| == 16 && RowOk(w, sc, |x|, group) && g < |sc| == |up| && E(255) == 0.0
    requires E(up[g]) == 2.0 * E(sc[g]) && up == sc[g := up[g]]
    ensures Share(T, E, w, up, x, group, g) == 2.0 * Share(T, E, w, sc, x, group, g)
  {
    var dots, c := Dots(RealOps(), T, w, x, group), Count(|x|, group);
    var d, e, e' := dots(g), E(sc[g]), E(up[g]);
    var s := ShareIs(T, E, w, sc, x, group, g, dots, c, d, e);
    var s' := ShareIs(T, E, w, up, x, group, g, dots, c, d, e');
    Twice(d, e, e', g < c, s, s');
  }

  lemma Twice(d: real, e: real, e': real, visited: bool, s: real, s': real)
    requires e' == 2.0 * e && s == (if visited then d * e else 0.0) && s' == if visited then d * e' else 0.0
    ensures s' == 2.0 * s
  {
  }

  /** And doubles its share of the fused dot. */
  lemma {:induction false} ScaleUpDot(T: seq<real>, w: seq<Byte>, sc: seq<Byte>, up: seq<Byte>, x: seq<real>,
      group: nat, g: nat)
    requires |T| == 16 && RowOk(w, sc, |x|, group)
    requires g < |sc| && sc[g] < 254 && up == sc[g := sc[g] + 1]
    ensures Share(T, E8M0, w, up, x, group, g) == 2.0 * Share(T, E8M0, w, sc, x, group, g)
  {
    E8M0IsFormat(sc[g]);
    ShareUp(T, E8M0, w, sc, up, x, group, g);
  }

  /** The dot with the row as dequantised. */
  ghost predicate Agrees(T: seq<real>, E: Byte -> real, w: seq<Byte>, sc: seq<Byte>, x: seq<real>, group: nat)
    requires |T| == 16 && RowOk(w, sc, |x|, group)
  {
    var row := Dequanted(T, E, w, sc, |x|, group);
    |row| == |x| && Fused(T, E, w, sc, x, group) == Sum(row, x, 0, |x|)
  }

  /** Fused equals dequantise-then-dot, NaN scales and short last groups included. */
  lemma {:induction false} FusedIsDequantDot(T: seq<real>, E: Byte -> real, w: seq<Byte>, sc: seq<Byte>, x: seq<real>,
      group: nat)
    requires |T| == 16 && E(255) == 0.0 && RowOk(w, sc, |x|, group) && InInt(|x|, group)
    requires group % 2 == 0 || |x| <= group
    ensures Agrees(T, E, w, sc, x, group)
    ensures Longest(|x|, group) <= Buffer ==> InBuffer(sc, |x|, group)
  {
    BufferBound(sc, |x|, group);
    var n, g := |x|, Groups(|x|, group);
    FusedIsSum(T, E, w, sc, x, group);
    var u, v := FusedGroups(T, w, n, group), RowGroups(T, w, n, group);
    forall i | 0 <= i < g ensures u(i) == v(i) {
      GroupStarts(n, group, i);
      SameGroup(T, w, n, group, i);
    }
    SameJoined(E, sc, u, v, g);
  }

  lemma {:induction false} UnitSum(p: seq<real>, x: seq<real>, at: nat, hi: nat)
    requires hi <= |p| && hi <= |x| && forall i :: 0 <= i < hi ==> x[i] == if i == at then 1.0 else 0.0
    ensures Sum(p, x, 0, hi) == if at < hi then p[at] else 0.0
    decreases hi
  {
    if hi > 0 { UnitSum(p, x, at, hi - 1); }
  }

  /** The first element of the second group, as each reader finds it in a row of bytes 2. */
  lemma {:induction false} OddNibbles(T: seq<real>, w: seq<Byte>, n: nat, group: nat)
    requires |T| == 16 && group % 2 == 1 && n > group && 2 * |w| >= n && w[group / 2] == 2
    ensures |GroupVals(T, w, n, group, 0)| == |RowVals(T, w, n, group, 0)| == group
    ensures |GroupVals(T, w, n, group, 1)| > 0 && GroupVals(T, w, n, group, 1)[0] == T[2]
    ensures |RowVals(T, w, n, group, 1)| > 0 && RowVals(T, w, n, group, 1)[0] == T[0]
  {
    assert Start(group, 1) == group && Start(group / 2, 1) == group / 2 && Start(group, 0) == 0;
    assert Nibble(w, group / 2, 0) == 2 && Nibble(w, 0, group) == 0;
  }

  lemma {:induction false} SecondGroup(E: Byte -> real, sc: seq<Byte>, vals: nat -> seq<real>, g: nat)
    requires 2 <= g <= |sc| && |vals(1)| > 0
    ensures |Joined(RealOps(), E, sc, vals, g)| > |vals(0)|
    ensures Joined(RealOps(), E, sc, vals, g)[|vals(0)|] == vals(1)[0] * E(sc[1])
    decreases g
  {
    if g > 2 {
      SecondGroup(E, sc, vals, g - 1);
    } else {
      assert Joined(RealOps(), E, sc, vals, 1) == [] + Scaled(RealOps(), vals(0), E(sc[0]));
    }
  }

  /** And not otherwise: with an odd group and a second group to read, some row differs. */
  lemma {:induction false} OddGroupDiffers(T: seq<real>, E: Byte -> real, n: nat, group: nat)
    returns (w: seq<Byte>, sc: seq<Byte>, x: seq<real>)
    requires |T| == 16 && E(255) == 0.0 && T[0] == 0.0 && T[2] == 1.0 && E(127) == 1.0
    requires group % 2 == 1 && n > group
    ensures |x| == n && RowOk(w, sc, n, group) && !Agrees(T, E, w, sc, x, group)
    ensures InBuffer(sc, n, group) <==> group <= Buffer || !InInt(n, group)
  {
    w, sc := seq(n, _ => 2), seq(Groups(n, group), _ => 127);
    x := seq(n, i => if i == group then 1.0 else 0.0);
    if InInt(n, group) {
      BufferBound(sc, n, group);
      OddRowDiffers(T, E, w, sc, x, group);
    }
  }

  lemma {:induction false} OddRowDiffers(T: seq<real>, E: Byte -> real, w: seq<Byte>, sc: seq<Byte>, x: seq<real>,
      group: nat)
    requires |T| == 16 && E(255) == 0.0 && T[0] == 0.0 && T[2] == 1.0 && E(127) == 1.0
    requires group % 2 == 1 && |x| > group && InInt(|x|, group) && RowOk(w, sc, |x|, group)
    requires (forall i :: 0 <= i < |w| ==> w[i] == 2) && (forall i :: 0 <= i < |sc| ==> sc[i] == 127)
    requires forall i :: 0 <= i < |x| ==> x[i] == if i == group then 1.0 else 0.0
    ensures !Agrees(T, E, w, sc, x, group)
  {
    var n, g := |x|, Groups(|x|, group);
    FusedIsSum(T, E, w, sc, x, group);
    assert Start(group, 1) == group;
    GroupStarts(n, group, 1);
    OddNibbles(T, w, n, group);
    var u, v := FusedGroups(T, w, n, group), RowGroups(T, w, n, group);
    SecondGroup(E, sc, u, g);
    SecondGroup(E, sc, v, g);
    UnitSum(Joined(RealOps(), E, sc, u, g), x, group, n);
    UnitSum(Joined(RealOps(), E, sc, v, g), x, group, n);
  }

  /** The fused dot stays in its buffer and gives the dot with the dequantised row. */
  ghost predicate Correct(w: seq<Byte>, sc: seq<Byte>, x: seq<real>, group: nat)
    requires RowOk(w, sc, |x|, group)
  {
    InBuffer(sc, |x|, group) && Agrees(E2M1, E8M0, w, sc, x, group)
  }

  lemma {:induction false} Overflows(n: nat, group: nat) returns (w: seq<Byte>, sc: seq<Byte>, x: seq<real>)
    requires group > 0 && InInt(n, group) && Longest(n, group) > Buffer
    ensures |x| == n && RowOk(w, sc, n, group) && !InBuffer(sc, n, group)
  {
    w, sc, x := seq(n, _ => 2), seq(Groups(n, group), _ => 127), seq(n, _ => 0.0);
    GroupStarts(n, group, 0);
    BufferBound(sc, n, group);
  }

  /** A sum past 31 bits leaves the row untouched and the dot zero. */
  lemma {:induction false} NothingVisited(w: seq<Byte>, sc: seq<Byte>, x: seq<real>, group: nat)
    requires RowOk(w, sc, |x|, group) && !InInt(|x|, group) && |x| > 0
    ensures !Correct(w, sc, x, group)
  {
  }

  /** With the format's own tables: the fused dot is the dequantised dot for every row of
      length `n` exactly when the longest group fits the buffer, groups hold whole bytes or there
      is only one, and an int holds n + group - 1. */
  lemma {:induction false} FusedExactlyWhen(n: nat, group: nat)
    requires n < 0x8000_0000 && 0 < group < 0x8000_0000
    ensures (forall w, sc, x: seq<real> :: |x| == n && RowOk(w, sc, n, group) ==> Correct(w, sc, x, group))
      <==> Longest(n, group) <= Buffer && (group % 2 == 0 || n <= group) && InInt(n, group)
  {
    if !InInt(n, group) {
      var w, sc, x := seq(n, _ => 2), seq(Groups(n, group), _ => 127), seq(n, _ => 0.0);
      NothingVisited(w, sc, x, group);
    } else if Longest(n, group) > Buffer {
      var w, sc, x := Overflows(n, group);
      assert !Correct(w, sc, x, group);
    } else if group % 2 == 0 || n <= group {
      forall w, sc, x: seq<real> | |x| == n && RowOk(w, sc, n, group) ensures Correct(w, sc, x, group) {
        FusedIsDequantDot(E2M1, E8M0, w, sc, x, group);
      }
    } else {
      assert Exp2(0) == 1.0;
      var w, sc, x := OddGroupDiffers(E2M1, E8M0, n, group);
      assert !Correct(w, sc, x, group);
    }
  }
}
