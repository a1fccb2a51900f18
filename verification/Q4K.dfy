/** Q4_K rows: 256 elements in 144 bytes, an affine format with eight sub-blocks per block,
    src/quant/q4_k.c:52-177 and src/quant/kquant_avx2.c:85-135. */
module Q4K {
  import opened Numerics
  import opened Dot
  import Ints

  // ----------------------------------------------------------- the six-bit scales

  /** Scale and min of sub-block `j` from the twelve packed bytes. */
  function ScaleMin(j: nat, q: seq<bv8>): (bv8, bv8)
    requires j < 8 && |q| == 12
  {
    if j < 4 then (q[j] & 63, q[j + 4] & 63)
    else ((q[j + 4] & 0x0F) | ((q[j - 4] >> 6) << 4), (q[j + 4] >> 4) | ((q[j] >> 6) << 4))
  }

  /** The layout the other way: eight scales and eight mins of six bits in twelve bytes. */
  ghost function PackScales(sc: seq<bv8>, m: seq<bv8>): (q: seq<bv8>)
    requires |sc| == |m| == 8
    ensures |q| == 12
  {
    seq(12, i requires 0 <= i < 12 => PackByte(sc, m, i))
  }

  ghost function PackByte(sc: seq<bv8>, m: seq<bv8>, i: nat): bv8
    requires |sc| == |m| == 8 && i < 12
  {
    if i < 4 then sc[i] | ((sc[i + 4] >> 4) << 6)
    else if i < 8 then m[i - 4] | ((m[i] >> 4) << 6)
    else (sc[i - 4] & 0x0F) | ((m[i - 4] & 0x0F) << 4)
  }

  lemma SixBits(lo: bv8, hi: bv8)
    requires lo < 64 && hi < 64
    ensures (lo | ((hi >> 4) << 6)) & 63 == lo && (lo | ((hi >> 4) << 6)) >> 6 == hi >> 4
  {
  }

  lemma Nibbles(a: bv8, b: bv8)
    ensures ((a & 0x0F) | ((b & 0x0F) << 4)) & 0x0F == a & 0x0F
    ensures ((a & 0x0F) | ((b & 0x0F) << 4)) >> 4 == b & 0x0F
    ensures a < 64 ==> (a & 0x0F) | ((a >> 4) << 4) == a
  {
  }

  /** Unpacking inverts packing for every six-bit scale and min. */
  lemma {:induction false} ScalesRoundTrip(sc: seq<bv8>, m: seq<bv8>, j: nat)
    requires |sc| == |m| == 8 && j < 8 && forall i :: 0 <= i < 8 ==> sc[i] < 64 && m[i] < 64
    ensures ScaleMin(j, PackScales(sc, m)) == (sc[j], m[j])
  {
    var i := if j < 4 then j else j - 4;
    SixBits(sc[i], sc[i + 4]);
    SixBits(m[i], m[i + 4]);
    Nibbles(sc[i + 4], m[i + 4]);
    Nibbles(m[i + 4], m[i + 4]);
  }

  lemma Split8(q: bv8, r: bv8, n: bv8)
    ensures q & 63 < 64 && ((n & 0x0F) | ((q >> 6) << 4)) < 64 && ((n >> 4) | ((q >> 6) << 4)) < 64
    ensures (q & 63) | ((((n & 0x0F) | ((q >> 6) << 4)) >> 4) << 6) == q
    ensures (q & 63) | ((((n >> 4) | ((q >> 6) << 4)) >> 4) << 6) == q
    ensures (((n & 0x0F) | ((q >> 6) << 4)) & 0x0F) | ((((n >> 4) | ((r >> 6) << 4)) & 0x0F) << 4) == n
  {
  }

  ghost predicate Unpacked(q: seq<bv8>, sc: seq<bv8>, m: seq<bv8>)
  {
    |q| == 12 && |sc| == |m| == 8 && forall j :: 0 <= j < 8 ==> (sc[j], m[j]) == ScaleMin(j, q)
  }

  lemma {:induction false} PackAt(q: seq<bv8>, sc: seq<bv8>, m: seq<bv8>, i: nat)
    requires i < 4 && Unpacked(q, sc, m)
    ensures sc[i] < 64 && m[i] < 64 && sc[i + 4] < 64 && m[i + 4] < 64
    ensures var p := PackScales(sc, m); p[i] == q[i] && p[i + 4] == q[i + 4] && p[i + 8] == q[i + 8]
  {
    assert (sc[i], m[i]) == ScaleMin(i, q) && (sc[i + 4], m[i + 4]) == ScaleMin(i + 4, q);
    Split8(q[i], q[i + 4], q[i + 8]);
    Split8(q[i + 4], q[i], q[i + 8]);
  }

  /** And packing inverts unpacking: no bit of the twelve bytes is unused or shared. */
  lemma {:induction false} ScalesUseEveryBit(q: seq<bv8>, sc: seq<bv8>, m: seq<bv8>)
    requires Unpacked(q, sc, m)
    ensures PackScales(sc, m) == q && forall j :: 0 <= j < 8 ==> sc[j] < 64 && m[j] < 64
  {
    PackAt(q, sc, m, 0);
    PackAt(q, sc, m, 1);
    PackAt(q, sc, m, 2);
    PackAt(q, sc, m, 3);
  }

  // ------------------------------------------------------------- the operation tree

  /** How a block is read: the scale and min of a sub-block from the sixteen header bytes, and
      a small integer. */
  datatype Decode<!F> = Decode(affine: (seq<bv8>, nat) -> (F, F), num: bv8 -> F)

  /** The format's reading: two f16 values multiply the six-bit scale and min. */
  function Header<F>(A: Ops<F>, half: (bv8, bv8) -> F, num: bv8 -> F): Decode<F>
  {
    Decode((hdr: seq<bv8>, s: nat) =>
             if |hdr| == 16 && s < 8 then
               var sm := ScaleMin(s, hdr[4..16]);
               (A.mul(half(hdr[0], hdr[1]), num(sm.0)), A.mul(half(hdr[2], hdr[3]), num(sm.1)))
             else (A.zero, A.zero),
           num)
  }

  function Nibble(b: bv8, high: bool): bv8 { if high then b >> 4 else b & 0x0F }

  ghost predicate BlocksOk(w: seq<bv8>, b: nat) { |w| >= 144 * b }

  /** Sub-blocks come in pairs that share bytes: the low half `2h`, the high half `2h + 1`. */
  function Sub(h: nat, high: bool): nat { if high then 2 * h + 1 else 2 * h }

  function Affine<F>(D: Decode<F>, w: seq<bv8>, b: nat, h: nat, high: bool): (F, F)
    requires BlocksOk(w, b + 1) && h < 4
  {
    D.affine(w[144 * b..144 * b + 16], Sub(h, high))
  }

  function NibbleOf<F>(D: Decode<F>, high: bool): bv8 -> F { v => D.num(Nibble(v, high)) }

  /** The quants of a sub-block: the low or the high nibbles of its 32 bytes. */
  function Quants<F>(D: Decode<F>, q: seq<bv8>, high: bool): (r: seq<F>)
    ensures |r| == |q|
  {
    Widen(NibbleOf(D, high), q)
  }

  function Chunk(w: seq<bv8>, b: nat, h: nat): (q: seq<bv8>)
    requires BlocksOk(w, b + 1) && h < 4
    ensures |q| == 32
  {
    w[144 * b + 16 + 32 * h..144 * b + 48 + 32 * h]
  }

  /** Plain lane sums, for the min term. */
  function AddLane<F>(A: Ops<F>, x: seq<F>, l: nat, c: nat): F
    requires l < 4 && 4 * c <= |x|
  {
    if c == 0 then A.zero else A.add(AddLane(A, x, l, c - 1), x[4 * (c - 1) + l])
  }

  function AddLanes<F>(A: Ops<F>, x: seq<F>, c: nat): (r: seq<F>)
    requires 4 * c <= |x|
    ensures |r| == 4
  {
    seq(4, l requires 0 <= l < 4 => AddLane(A, x, l, c))
  }

  function Fold4<F>(A: Ops<F>, v: seq<F>): F
    requires |v| == 4
  {
    Red4(A, v[0], v[1], v[2], v[3])
  }

  /** One sub-block's share of the dot: scaled quants minus the min times the plain sum. */
  function SubTerm<F>(A: Ops<F>, am: (F, F), s: seq<F>, t: seq<F>): F
    requires |s| == |t| == 4
  {
    A.sub(A.mul(am.0, Fold4(A, s)), A.mul(am.1, Fold4(A, t)))
  }

  function XSub<F>(x: seq<F>, b: nat, h: nat, high: bool): (r: seq<F>)
    requires |x| >= 256 * (b + 1) && h < 4
    ensures |r| == 32
  {
    x[256 * b + 32 * Sub(h, high)..256 * b + 32 * Sub(h, high) + 32]
  }

  /** The share of a sub-block of block `b`. */
  function Term<F>(A: Ops<F>, D: Decode<F>, w: seq<bv8>, x: seq<F>, b: nat, h: nat, high: bool): F
    requires BlocksOk(w, b + 1) && |x| >= 256 * (b + 1) && h < 4
  {
    var xs := XSub(x, b, h, high);
    SubTerm(A, Affine(D, w, b, h, high), Lanes(A, Quants(D, Chunk(w, b, h), high), xs, 4, |xs| / 4),
      AddLanes(A, xs, |xs| / 4))
  }

  function Terms<F>(A: Ops<F>, D: Decode<F>, w: seq<bv8>, x: seq<F>): (nat, nat, bool) -> F
  {
    (b: nat, h: nat, high: bool) =>
      if |w| >= 144 * (b + 1) && |x| >= 256 * (b + 1) && h < 4 then Term(A, D, w, x, b, h, high) else A.zero
  }

  /** Shares added up in order, through `b` blocks and `h` pairs of sub-blocks of the next. */
  function RowTree<F>(A: Ops<F>, term: (nat, nat, bool) -> F, b: nat, h: nat): F
    requires h <= 4
    decreases b, h
  {
    if h > 0 then A.add(A.add(RowTree(A, term, b, h - 1), term(b, h - 1, false)), term(b, h - 1, true))
    else if b > 0 then RowTree(A, term, b - 1, 4)
    else A.zero
  }

  // --------------------------------------------------------------------- the kernels

  /** The lane sums of two sub-blocks that share 32 bytes. */
  datatype Sums<F> = Sums(s1: seq<F>, t1: seq<F>, s2: seq<F>, t2: seq<F>)

  ghost predicate SumsOf<F(!new)>(r: Sums<F>, A: Ops<F>, D: Decode<F>, q: seq<bv8>, xa: seq<F>, xc: seq<F>)
    requires |q| == |xa| == |xc| == 32
  {
    && r.s1 == Lanes(A, Quants(D, q, false), xa, 4, |xa| / 4) && r.t1 == AddLanes(A, xa, |xa| / 4)
    && r.s2 == Lanes(A, Quants(D, q, true), xc, 4, |xc| / 4) && r.t2 == AddLanes(A, xc, |xc| / 4)
  }

  method AddStep<F, X>(A: Ops<F>, wide: X -> F, x: seq<X>, ghost c: nat, i: nat, t: array<F>)
    requires i == 4 * c && i + 4 <= |x| && t.Length == 4 && t[..] == AddLanes(A, Widen(wide, x), c)
    modifies t
    ensures t[..] == AddLanes(A, Widen(wide, x), c + 1)
  {
    ghost var X := Widen(wide, x);
    for l := 0 to 4
      invariant forall k :: 0 <= k < l ==> t[k] == AddLane(A, X, k, c + 1)
      invariant forall k :: l <= k < 4 ==> t[k] == AddLane(A, X, k, c)
    {
      t[l] := A.add(t[l], wide(x[i + l]));
    }
  }

  /** The scalar lanes of one sub-block, four elements at a time. */
  method RefSub<F, X>(A: Ops<F>, wq: bv8 -> F, q: seq<bv8>, wide: X -> F, x: seq<X>) returns (s: seq<F>, t: seq<F>)
    requires |q| == |x| == 32
    ensures s == Lanes(A, Widen(wq, q), Widen(wide, x), 4, |x| / 4) && t == AddLanes(A, Widen(wide, x), |x| / 4)
  {
    var sa, ta := new F[4](_ => A.zero), new F[4](_ => A.zero);
    ghost var c := 0;
    var l := 0;
    while l < 32
      invariant l == 4 * c && c <= 8 && sa.Length == ta.Length == 4
      invariant sa[..] == Lanes(A, Widen(wq, q), Widen(wide, x), 4, c) && ta[..] == AddLanes(A, Widen(wide, x), c)
    {
      LaneStep(A, wq, q, wide, x, 4, c, l, sa);
      AddStep(A, wide, x, c, l, ta);
      l, c := l + 4, c + 1;
    }
    s, t := sa[..], ta[..];
  }

  method RefChunk<F(!new), X>(A: Ops<F>, D: Decode<F>, q: seq<bv8>, wide: X -> F, xa: seq<X>, xc: seq<X>)
    returns (r: Sums<F>)
    requires |q| == |xa| == |xc| == 32
    ensures SumsOf(r, A, D, q, Widen(wide, xa), Widen(wide, xc))
  {
    var s1, t1 := RefSub(A, NibbleOf(D, false), q, wide, xa);
    var s2, t2 := RefSub(A, NibbleOf(D, true), q, wide, xc);
    r := Sums(s1, t1, s2, t2);
  }

  function Stored<F>(v: V4<F>): (r: seq<F>)
    ensures |r| == 4
  {
    [v.x0, v.x1, v.x2, v.x3]
  }

  ghost function AddLaneV<F>(A: Ops<F>, x: seq<F>, c: nat): V4<F>
    requires 4 * c <= |x|
  {
    V4(AddLane(A, x, 0, c), AddLane(A, x, 1, c), AddLane(A, x, 2, c), AddLane(A, x, 3, c))
  }

  /** The vector lanes of one sub-block. */
  method VecSub<F, X>(A: Ops<F>, wq: bv8 -> F, q: seq<bv8>, wide: X -> F, x: seq<X>) returns (s: seq<F>, t: seq<F>)
    requires |q| == |x| == 32
    ensures s == Lanes(A, Widen(wq, q), Widen(wide, x), 4, |x| / 4) && t == AddLanes(A, Widen(wide, x), |x| / 4)
  {
    var sv, tv := Splat(A.zero), Splat(A.zero);
    ghost var c := 0;
    var l := 0;
    while l < 32
      invariant l == 4 * c && c <= 8
      invariant sv == LaneV(A, Widen(wq, q), Widen(wide, x), 4, 0, c) && tv == AddLaneV(A, Widen(wide, x), c)
    {
      sv := VecStep(A, wq, q, wide, x, 4, 0, c, l, sv);
      tv := AddV(A, tv, Load(wide, x, l));
      l, c := l + 4, c + 1;
    }
    s, t := Stored(sv), Stored(tv);
  }

  method VecChunk<F(!new), X>(A: Ops<F>, D: Decode<F>, q: seq<bv8>, wide: X -> F, xa: seq<X>, xc: seq<X>)
    returns (r: Sums<F>)
    requires |q| == |xa| == |xc| == 32
    ensures SumsOf(r, A, D, q, Widen(wide, xa), Widen(wide, xc))
  {
    var s1, t1 := VecSub(A, NibbleOf(D, false), q, wide, xa);
    var s2, t2 := VecSub(A, NibbleOf(D, true), q, wide, xc);
    r := Sums(s1, t1, s2, t2);
  }

  /** A pair of sub-blocks, by either kernel. */
  method TwoTerms<F(!new), X>(A: Ops<F>, avx: bool, D: Decode<F>, w: seq<bv8>, wide: X -> F, x: seq<X>, b: nat, h: nat)
    returns (u: F, v: F)
    requires BlocksOk(w, b + 1) && |x| >= 256 * (b + 1) && h < 4
    ensures u == Terms(A, D, w, Widen(wide, x))(b, h, false) && v == Terms(A, D, w, Widen(wide, x))(b, h, true)
  {
    var xa, xc, q := XSub(x, b, h, false), XSub(x, b, h, true), Chunk(w, b, h);
    var r;
    if avx { r := VecChunk(A, D, q, wide, xa, xc); } else { r := RefChunk(A, D, q, wide, xa, xc); }
    assert Widen(wide, xa) == XSub(Widen(wide, x), b, h, false);
    assert Widen(wide, xc) == XSub(Widen(wide, x), b, h, true);
    u := SubTerm(A, Affine(D, w, b, h, false), r.s1, r.t1);
    v := SubTerm(A, Affine(D, w, b, h, true), r.s2, r.t2);
  }

  /** The fused row dot with either chunk kernel; elements past the last whole block are not
      read. */
  method DotRow<F(!new), X>(A: Ops<F>, avx: bool, D: Decode<F>, w: seq<bv8>, wide: X -> F, x: seq<X>) returns (acc: F)
    requires BlocksOk(w, |x| / 256)
    ensures acc == RowTree(A, Terms(A, D, w, Widen(wide, x)), |x| / 256, 0)
  {
    ghost var term := Terms(A, D, w, Widen(wide, x));
    acc := A.zero;
    for b := 0 to |x| / 256
      invariant acc == RowTree(A, term, b, 0)
    {
      for h := 0 to 4
        invariant acc == RowTree(A, term, b, h)
      {
        var u, v := TwoTerms(A, avx, D, w, wide, x, b, h);
        acc := A.add(acc, u);
        acc := A.add(acc, v);
      }
    }
  }

  // ----------------------------------------------------------------- dequantisation

  function Shifted<F>(A: Ops<F>, am: (F, F), q: seq<F>): (r: seq<F>)
    ensures |r| == |q|
  {
    seq(|q|, l requires 0 <= l < |q| => A.sub(A.mul(am.0, q[l]), am.1))
  }

  /** The elements of a sub-block of block `b`. */
  function SubVals<F>(A: Ops<F>, D: Decode<F>, w: seq<bv8>, b: nat, h: nat, high: bool): (r: seq<F>)
    requires BlocksOk(w, b + 1) && h < 4
    ensures |r| == 32
  {
    Shifted(A, Affine(D, w, b, h, high), Quants(D, Chunk(w, b, h), high))
  }

  function Vals<F>(A: Ops<F>, D: Decode<F>, w: seq<bv8>): (nat, nat, bool) -> seq<F>
  {
    (b: nat, h: nat, high: bool) => if |w| >= 144 * (b + 1) && h < 4 then SubVals(A, D, w, b, h, high) else []
  }

  /** Sub-blocks of elements one after the other. */
  function Joined<F>(vals: (nat, nat, bool) -> seq<F>, b: nat, h: nat): seq<F>
    requires h <= 4
    decreases b, h
  {
    if h > 0 then Joined(vals, b, h - 1) + vals(b, h - 1, false) + vals(b, h - 1, true)
    else if b > 0 then Joined(vals, b - 1, 4)
    else []
  }

  method DequantSub<F>(A: Ops<F>, D: Decode<F>, am: (F, F), q: seq<bv8>, high: bool, out: array<F>, at: nat)
    requires |q| == 32 && at + 32 <= out.Length
    modifies out
    ensures out[..at] == old(out[..at]) && out[at..at + 32] == Shifted(A, am, Quants(D, q, high))
  {
    for l := 0 to 32
      invariant out[..at] == old(out[..at])
      invariant forall k :: 0 <= k < l ==> out[at + k] == Shifted(A, am, Quants(D, q, high))[k]
    {
      out[at + l] := A.sub(A.mul(am.0, D.num(Nibble(q[l], high))), am.1);
    }
  }

  method DequantTwo<F>(A: Ops<F>, D: Decode<F>, w: seq<bv8>, b: nat, h: nat, out: array<F>, at: nat)
    requires BlocksOk(w, b + 1) && h < 4 && at + 64 <= out.Length
    modifies out
    ensures out[..at + 64] == old(out[..at]) + Vals(A, D, w)(b, h, false) + Vals(A, D, w)(b, h, true)
  {
    var q := Chunk(w, b, h);
    DequantSub(A, D, Affine(D, w, b, h, false), q, false, out, at);
    assert out[..at + 32] == out[..at] + out[at..at + 32];
    DequantSub(A, D, Affine(D, w, b, h, true), q, true, out, at + 32);
    assert out[..at + 64] == out[..at + 32] + out[at + 32..at + 64];
  }

  method DequantBlock<F>(A: Ops<F>, D: Decode<F>, w: seq<bv8>, b: nat, out: array<F>, at: nat)
    requires BlocksOk(w, b + 1) && at + 256 <= out.Length && out[..at] == Joined(Vals(A, D, w), b, 0)
    modifies out
    ensures out[..at + 256] == Joined(Vals(A, D, w), b, 4)
  {
    ghost var vals := Vals(A, D, w);
    for h := 0 to 4
      invariant out[..at + 64 * h] == Joined(vals, b, h)
    {
      DequantTwo(A, D, w, b, h, out, at + 64 * h);
    }
  }

  method DequantRow<F>(A: Ops<F>, D: Decode<F>, w: seq<bv8>, out: array<F>)
    requires BlocksOk(w, out.Length / 256)
    modifies out
    ensures out[..256 * (out.Length / 256)] == Joined(Vals(A, D, w), out.Length / 256, 0)
  {
    for b := 0 to out.Length / 256
      invariant out[..256 * b] == Joined(Vals(A, D, w), b, 0)
    {
      DequantBlock(A, D, w, b, out, 256 * b);
    }
  }

  // ---------------------------------------------------------------- over the reals

  function Ones(n: nat): (r: seq<real>)
    ensures |r| == n
  {
    seq(n, _ => 1.0)
  }

  lemma {:induction false} AddLaneIsLane(x: seq<real>, l: nat, c: nat)
    requires l < 4 && 4 * c <= |x|
    ensures AddLane(RealOps(), x, l, c) == Lane(RealOps(), Ones(|x|), x, 4, l, c)
    decreases c
  {
    if c > 0 { AddLaneIsLane(x, l, c - 1); }
  }

  lemma {:induction false} Fold4IsSum(q: seq<real>, x: seq<real>, c: nat)
    requires 4 * c <= |x| && 4 * c <= |q|
    ensures Fold4(RealOps(), Lanes(RealOps(), q, x, 4, c)) == Sum(q, x, 0, 4 * c)
  {
    LanesAreSum(q, x, 4, c);
    assert LaneTotal(q, x, 4, 1, c) == Lane(RealOps(), q, x, 4, 0, c);
    assert LaneTotal(q, x, 4, 2, c) == LaneTotal(q, x, 4, 1, c) + Lane(RealOps(), q, x, 4, 1, c);
    assert LaneTotal(q, x, 4, 3, c) == LaneTotal(q, x, 4, 2, c) + Lane(RealOps(), q, x, 4, 2, c);
  }

  lemma {:induction false} AddFold4IsSum(x: seq<real>, c: nat)
    requires 4 * c <= |x|
    ensures Fold4(RealOps(), AddLanes(RealOps(), x, c)) == Sum(Ones(|x|), x, 0, 4 * c)
  {
    forall l | 0 <= l < 4 ensures AddLane(RealOps(), x, l, c) == Lane(RealOps(), Ones(|x|), x, 4, l, c) {
      AddLaneIsLane(x, l, c);
    }
    assert AddLanes(RealOps(), x, c) == Lanes(RealOps(), Ones(|x|), x, 4, c);
    Fold4IsSum(Ones(|x|), x, c);
  }

  lemma {:induction false} AffineSum(am: (real, real), q: seq<real>, x: seq<real>, n: nat)
    requires n <= |q| && n <= |x|
    ensures Sum(Shifted(RealOps(), am, q), x, 0, n) == am.0 * Sum(q, x, 0, n) - am.1 * Sum(Ones(|x|), x, 0, n)
    decreases n
  {
    if n > 0 {
      AffineSum(am, q, x, n - 1);
      AffineStep(am.0, am.1, q[n - 1], x[n - 1], Sum(q, x, 0, n - 1), Sum(Ones(|x|), x, 0, n - 1));
    }
  }

  lemma AffineStep(a: real, m: real, q: real, x: real, s: real, t: real)
    ensures (a * s - m * t) + (a * q - m) * x == a * (s + q * x) - m * (t + 1.0 * x)
  {
  }

  lemma {:induction false} SubTermValue(am: (real, real), s: seq<real>, t: seq<real>, q: seq<real>, x: seq<real>,
      n: nat)
    requires |s| == |t| == 4 && n == |q| == |x| && Fold4(RealOps(), s) == Sum(q, x, 0, n)
    requires Fold4(RealOps(), t) == Sum(Ones(n), x, 0, n)
    ensures SubTerm(RealOps(), am, s, t) == Sum(Shifted(RealOps(), am, q), x, 0, n)
  {
    AffineSum(am, q, x, n);
  }

  /** A sub-block's share is the dot with its dequantised elements, min term included. */
  lemma {:induction false} SubTermIsSum(am: (real, real), q: seq<real>, x: seq<real>, c: nat)
    requires |q| == |x| == 4 * c
    ensures SubTerm(RealOps(), am, Lanes(RealOps(), q, x, 4, c), AddLanes(RealOps(), x, c)) ==
      Sum(Shifted(RealOps(), am, q), x, 0, |x|)
  {
    Fold4IsSum(q, x, c);
    AddFold4IsSum(x, c);
    SubTermValue(am, Lanes(RealOps(), q, x, 4, c), AddLanes(RealOps(), x, c), q, x, |x|);
  }

  /** The share of a sub-block is its dot with the activations it lies over. */
  ghost predicate Meets(term: (nat, nat, bool) -> real, vals: (nat, nat, bool) -> seq<real>, x: seq<real>, b: nat,
      h: nat, high: bool)
    requires |x| >= 256 * (b + 1) && h < 4
  {
    |vals(b, h, high)| == 32 && term(b, h, high) == Sum(vals(b, h, high), XSub(x, b, h, high), 0, |vals(b, h, high)|)
  }

  lemma {:induction false} TermMeets(D: Decode<real>, w: seq<bv8>, x: seq<real>, b: nat, h: nat, high: bool)
    requires BlocksOk(w, b + 1) && |x| >= 256 * (b + 1) && h < 4
    ensures Meets(Terms(RealOps(), D, w, x), Vals(RealOps(), D, w), x, b, h, high)
  {
    var xs := XSub(x, b, h, high);
    SubTermIsSum(Affine(D, w, b, h, high), Quants(D, Chunk(w, b, h), high), xs, |xs| / 4);
  }

  lemma {:induction false} AddSub(acc: real, t: real, p: seq<real>, v: seq<real>, x: seq<real>)
    requires |p| + |v| <= |x| && acc == Sum(p, x, 0, |p|) && t == Sum(v, x[|p|..|p| + |v|], 0, |v|)
    ensures acc + t == Sum(p + v, x, 0, |p + v|)
  {
    SumConcat(p, v, x, |v|);
  }

  lemma {:induction false} RowIsSum(term: (nat, nat, bool) -> real, vals: (nat, nat, bool) -> seq<real>, x: seq<real>,
      n: nat, b: nat, h: nat)
    requires h <= 4 && 256 * n <= |x| && 4 * b + h <= 4 * n
    requires forall i: nat, j: nat, high :: i < n && j < 4 ==> Meets(term, vals, x, i, j, high)
    ensures var row := Joined(vals, b, h);
      |row| == 256 * b + 64 * h && RowTree(RealOps(), term, b, h) == Sum(row, x, 0, |row|)
    decreases b, h
  {
    if h > 0 {
      RowIsSum(term, vals, x, n, b, h - 1);
      assert Meets(term, vals, x, b, h - 1, false) && Meets(term, vals, x, b, h - 1, true);
      var acc, p := RowTree(RealOps(), term, b, h - 1), Joined(vals, b, h - 1);
      AddSub(acc, term(b, h - 1, false), p, vals(b, h - 1, false), x);
      AddSub(acc + term(b, h - 1, false), term(b, h - 1, true), p + vals(b, h - 1, false), vals(b, h - 1, true), x);
    } else if b > 0 {
      RowIsSum(term, vals, x, n, b - 1, 4);
    }
  }

  /** Fused equals dequantise-then-dot over every row, whatever the block fields decode to. */
  lemma {:induction false} FusedIsDequantDot(D: Decode<real>, w: seq<bv8>, x: seq<real>)
    requires BlocksOk(w, |x| / 256)
    ensures var n, row := |x| / 256, Joined(Vals(RealOps(), D, w), |x| / 256, 0);
      |row| == 256 * n && RowTree(RealOps(), Terms(RealOps(), D, w, x), n, 0) == Sum(row, x, 0, 256 * n)
  {
    var n := |x| / 256;
    var term, vals := Terms(RealOps(), D, w, x), Vals(RealOps(), D, w);
    forall i: nat, j: nat, high | i < n && j < 4 ensures Meets(term, vals, x, i, j, high) {
      TermMeets(D, w, x, i, j, high);
    }
    RowIsSum(term, vals, x, n, n, 0);
  }

  // -------------------------------------------------------------- the format itself

  /** Element `l` of sub-block `s` of block `b`, from the bytes: the two f16 factors, the packed
      six-bit scale and min, and the low nibble for even sub-blocks, the high one for odd. */
  function ElementIn<F>(A: Ops<F>, half: (bv8, bv8) -> F, num: bv8 -> F, w: seq<bv8>, b: nat, s: nat, l: nat): F
    requires BlocksOk(w, b + 1) && s < 8 && l < 32
  {
    var p := 144 * b;
    var sm, byte := ScaleMin(s, w[p + 4..p + 16]), w[p + 16 + 32 * (s / 2) + l];
    A.sub(A.mul(A.mul(half(w[p], w[p + 1]), num(sm.0)), num(Nibble(byte, s % 2 == 1))),
      A.mul(half(w[p + 2], w[p + 3]), num(sm.1)))
  }

  /** The layout the other way: the low half of a byte is the even sub-block's quant, the high half
      the odd one's. */
  function PackNibbles(lo: bv8, hi: bv8): bv8 { lo | (hi << 4) }

  lemma NibblesBack(lo: bv8, hi: bv8)
    requires lo < 16 && hi < 16
    ensures Nibble(PackNibbles(lo, hi), false) == lo && Nibble(PackNibbles(lo, hi), true) == hi
  {
  }

  /** A block a writer packed gives every element back: its sub-block's own scale times its own quant,
      less its sub-block's own min. */
  lemma {:induction false} ElementBack<F>(A: Ops<F>, half: (bv8, bv8) -> F, num: bv8 -> F, w: seq<bv8>, b: nat,
      sc: seq<bv8>, m: seq<bv8>, s: nat, l: nat, lo: bv8, hi: bv8)
    requires BlocksOk(w, b + 1) && s < 8 && l < 32
    requires |sc| == |m| == 8 && forall i :: 0 <= i < 8 ==> sc[i] < 64 && m[i] < 64
    requires w[144 * b + 4..144 * b + 16] == PackScales(sc, m)
    requires lo < 16 && hi < 16 && w[144 * b + 16 + 32 * (s / 2) + l] == PackNibbles(lo, hi)
    ensures var quant := if s % 2 == 0 then lo else hi;
      ElementIn(A, half, num, w, b, s, l) ==
        A.sub(A.mul(A.mul(half(w[144 * b], w[144 * b + 1]), num(sc[s])), num(quant)),
          A.mul(half(w[144 * b + 2], w[144 * b + 3]), num(m[s])))
  {
    ScalesRoundTrip(sc, m, s);
    NibblesBack(lo, hi);
  }

  /** Element `i` of a row. */
  function Element<F>(A: Ops<F>, half: (bv8, bv8) -> F, num: bv8 -> F, w: seq<bv8>): nat -> F
  {
    (i: nat) => if |w| >= 144 * (i / 256 + 1) then ElementIn(A, half, num, w, i / 256, i % 256 / 32, i % 32) else A.zero
  }

  lemma {:induction false} SubValsAre<F>(A: Ops<F>, half: (bv8, bv8) -> F, num: bv8 -> F, w: seq<bv8>, b: nat, h: nat,
      high: bool, l: nat)
    requires BlocksOk(w, b + 1) && h < 4 && l < 32
    ensures SubVals(A, Header(A, half, num), w, b, h, high)[l] == ElementIn(A, half, num, w, b, Sub(h, high), l)
  {
    assert w[144 * b..144 * b + 16][4..16] == w[144 * b + 4..144 * b + 16];
    assert Chunk(w, b, h)[l] == w[144 * b + 16 + 32 * h + l];
  }

  /** Where element `l` of a sub-block stands in the joined row. */
  lemma {:induction false} JoinedAt<F>(vals: (nat, nat, bool) -> seq<F>, n: nat, b: nat, h: nat, i: nat, j: nat,
      high: bool, l: nat)
    requires h <= 4 && 4 * b + h <= 4 * n && forall i: nat, j: nat, high :: i < n && j < 4 ==> |vals(i, j, high)| == 32
    requires j < 4 && l < 32 && 4 * i + j < 4 * b + h
    ensures |Joined(vals, b, h)| == 256 * b + 64 * h
    ensures Joined(vals, b, h)[256 * i + 32 * Sub(j, high) + l] == vals(i, j, high)[l]
    decreases b, h
  {
    JoinedSize(vals, n, b, h);
    if h > 0 {
      JoinedSize(vals, n, b, h - 1);
      if 4 * i + j < 4 * b + h - 1 { JoinedAt(vals, n, b, h - 1, i, j, high, l); }
    } else {
      JoinedAt(vals, n, b - 1, 4, i, j, high, l);
    }
  }

  lemma {:induction false} JoinedSize<F>(vals: (nat, nat, bool) -> seq<F>, n: nat, b: nat, h: nat)
    requires h <= 4 && 4 * b + h <= 4 * n && forall i: nat, j: nat, high :: i < n && j < 4 ==> |vals(i, j, high)| == 32
    ensures |Joined(vals, b, h)| == 256 * b + 64 * h
    decreases b, h
  {
    if h > 0 { JoinedSize(vals, n, b, h - 1); } else if b > 0 { JoinedSize(vals, n, b - 1, 4); }
  }

  /** The first `n` elements of a row are these. */
  ghost predicate Spelled<F(!new)>(el: nat -> F, row: seq<F>, n: nat)
  {
    n <= |row| && forall i: nat :: i < n ==> row[i] == el(i)
  }

  /** Where element `l` of a sub-block of block `b` stands in the row. */
  function At(b: nat, h: nat, high: bool, l: nat): nat { 256 * b + 32 * Sub(h, high) + l }

  /** Element `l` of a sub-block is where it should be. */
  ghost predicate InPlace<F(!new)>(vals: (nat, nat, bool) -> seq<F>, el: nat -> F, b: nat, h: nat, high: bool, l: nat)
  {
    |vals(b, h, high)| == 32 && l < 32 && vals(b, h, high)[l] == el(At(b, h, high, l))
  }

  lemma {:induction false} Position(i: nat, n: nat)
    requires i < 256 * n
    ensures var b, s, l := i / 256, i % 256 / 32, i % 32;
      b < n && s < 8 && i == 256 * b + 32 * s + l && s == Sub(s / 2, s % 2 == 1)
  {
    var b, r := i / 256, i % 256;
    assert i == 256 * b + r;
    Ints.DivUnique(i, 32, 8 * b + r / 32, r % 32);
  }

  lemma {:induction false} PositionBack(b: nat, s: nat, l: nat)
    requires s < 8 && l < 32
    ensures var i := 256 * b + 32 * s + l; i / 256 == b && i % 256 / 32 == s && i % 32 == l
  {
    var i := 256 * b + 32 * s + l;
    Ints.DivUnique(i, 256, b, 32 * s + l);
    Ints.DivUnique(32 * s + l, 32, s, l);
    Ints.DivUnique(i, 32, 8 * b + s, l);
  }

  lemma {:induction false} JoinedSpelled<F(!new)>(vals: (nat, nat, bool) -> seq<F>, el: nat -> F, n: nat)
    requires forall b: nat, h: nat, high, l: nat :: b < n && h < 4 && l < 32 ==> InPlace(vals, el, b, h, high, l)
    ensures |Joined(vals, n, 0)| == 256 * n && Spelled(el, Joined(vals, n, 0), 256 * n)
  {
    forall b: nat, h: nat, high | b < n && h < 4 ensures |vals(b, h, high)| == 32 {
      assert InPlace(vals, el, b, h, high, 0);
    }
    JoinedSize(vals, n, n, 0);
    forall i: nat | i < 256 * n ensures Joined(vals, n, 0)[i] == el(i) {
      var b, s, l := i / 256, i % 256 / 32, i % 32;
      Position(i, n);
      JoinedAt(vals, n, n, 0, b, s / 2, s % 2 == 1, l);
      assert InPlace(vals, el, b, s / 2, s % 2 == 1, l);
    }
  }

  lemma {:induction false} ElementAt<F>(A: Ops<F>, half: (bv8, bv8) -> F, num: bv8 -> F, w: seq<bv8>, b: nat, s: nat,
      l: nat, i: nat)
    requires BlocksOk(w, b + 1) && s < 8 && l < 32 && i == 256 * b + 32 * s + l
    ensures Element(A, half, num, w)(i) == ElementIn(A, half, num, w, b, s, l)
  {
    PositionBack(b, s, l);
  }

  lemma {:induction false} ValsInPlace<F(!new)>(A: Ops<F>, half: (bv8, bv8) -> F, num: bv8 -> F, w: seq<bv8>, b: nat,
      h: nat, high: bool, l: nat)
    requires BlocksOk(w, b + 1) && h < 4 && l < 32
    ensures InPlace(Vals(A, Header(A, half, num), w), Element(A, half, num, w), b, h, high, l)
  {
    SubValsAre(A, half, num, w, b, h, high, l);
    ElementAt(A, half, num, w, b, Sub(h, high), l, At(b, h, high, l));
  }

  /** At the format's own decoding, the elements the kernels work with are those of the format. */
  lemma {:induction false} ElementsOfFormat<F(!new)>(A: Ops<F>, half: (bv8, bv8) -> F, num: bv8 -> F, w: seq<bv8>,
      n: nat)
    requires BlocksOk(w, n)
    ensures var row := Joined(Vals(A, Header(A, half, num), w), n, 0);
      |row| == 256 * n && Spelled(Element(A, half, num, w), row, 256 * n)
  {
    var vals, el := Vals(A, Header(A, half, num), w), Element(A, half, num, w);
    forall b: nat, h: nat, high, l: nat | b < n && h < 4 && l < 32 ensures InPlace(vals, el, b, h, high, l) {
      ValsInPlace(A, half, num, w, b, h, high, l);
    }
    JoinedSpelled(vals, el, n);
  }

  /** Dequantising writes every element of the format in its place. */
  method Dequant<F(!new)>(A: Ops<F>, half: (bv8, bv8) -> F, num: bv8 -> F, w: seq<bv8>, out: array<F>)
    requires BlocksOk(w, out.Length / 256)
    modifies out
    ensures Spelled(Element(A, half, num, w), out[..], 256 * (out.Length / 256))
  {
    DequantRow(A, Header(A, half, num), w, out);
    ElementsOfFormat(A, half, num, w, out.Length / 256);
    SpelledPrefix(Element(A, half, num, w), out[..], 256 * (out.Length / 256));
  }

  lemma {:induction false} SpelledPrefix<F(!new)>(el: nat -> F, row: seq<F>, n: nat)
    requires n <= |row| && Spelled(el, row[..n], n)
    ensures Spelled(el, row, n)
  {
    assert forall i :: 0 <= i < n ==> row[i] == row[..n][i];
  }

  /** The fused row dot of the format by either kernel. */
  method RowDot<F(!new), X>(A: Ops<F>, avx: bool, half: (bv8, bv8) -> F, num: bv8 -> F, w: seq<bv8>, wide: X -> F,
      x: seq<X>)
    returns (acc: F)
    requires BlocksOk(w, |x| / 256)
    ensures acc == Fused(A, half, num, w, Widen(wide, x))
  {
    acc := DotRow(A, avx, Header(A, half, num), w, wide, x);
  }

  function Fused<F>(A: Ops<F>, half: (bv8, bv8) -> F, num: bv8 -> F, w: seq<bv8>, x: seq<F>): F
    requires BlocksOk(w, |x| / 256)
  {
    RowTree(A, Terms(A, Header(A, half, num), w, x), |x| / 256, 0)
  }

  /** With exact arithmetic it is the dot with the elements the format spells out. */
  lemma {:induction false} FusedIsFormatDot(half: (bv8, bv8) -> real, num: bv8 -> real, w: seq<bv8>, x: seq<real>,
      row: seq<real>)
    requires BlocksOk(w, |x| / 256) && Spelled(Element(RealOps(), half, num, w), row, 256 * (|x| / 256))
    ensures Fused(RealOps(), half, num, w, x) == Sum(row, x, 0, 256 * (|x| / 256))
  {
    var D := Header(RealOps(), half, num);
    FusedIsDequantDot(D, w, x);
    ElementsOfFormat(RealOps(), half, num, w, |x| / 256);
    SameSum(Joined(Vals(RealOps(), D, w), |x| / 256, 0), row, x, Element(RealOps(), half, num, w), 256 * (|x| / 256));
  }

  lemma {:induction false} SameSum(p: seq<real>, q: seq<real>, x: seq<real>, el: nat -> real, n: nat)
    requires Spelled(el, p, n) && Spelled(el, q, n) && n <= |x|
    ensures Sum(p, x, 0, n) == Sum(q, x, 0, n)
    decreases n
  {
    if n > 0 { SameSum(p, q, x, el, n - 1); }
  }

  // ------------------------------------------------------------- a row as written

  /** Blocks packed from a quant for each element and a scale and a min for each sub-block. */
  ghost predicate PackedBlock(w: seq<bv8>, b: nat, quant: nat -> bv8, sc: seq<bv8>, m: seq<bv8>)
    requires BlocksOk(w, b + 1)
  {
    && |sc| == |m| == 8 && (forall i :: 0 <= i < 8 ==> sc[i] < 64 && m[i] < 64)
    && w[144 * b + 4..144 * b + 16] == PackScales(sc, m)
    && forall h: nat, l: nat :: h < 4 && l < 32 ==> PackedByte(w, b, quant, h, l)
  }

  /** Byte `l` of chunk `h` holds element `l` of two sub-blocks, 32 elements apart. */
  ghost predicate PackedByte(w: seq<bv8>, b: nat, quant: nat -> bv8, h: nat, l: nat)
    requires BlocksOk(w, b + 1) && h < 4 && l < 32
  {
    var lo, hi := quant(256 * b + 64 * h + l), quant(256 * b + 64 * h + 32 + l);
    lo < 16 && hi < 16 && w[144 * b + 16 + 32 * h + l] == PackNibbles(lo, hi)
  }

  /** Element `i` of a packed row: its own quant times its sub-block's scale, less its sub-block's
      min. */
  lemma {:induction false} RowBack<F(!new)>(A: Ops<F>, half: (bv8, bv8) -> F, num: bv8 -> F, w: seq<bv8>, b: nat,
      quant: nat -> bv8, sc: seq<bv8>, m: seq<bv8>, i: nat, s: nat)
    requires BlocksOk(w, b + 1) && 256 * b <= i < 256 * (b + 1) && s == (i - 256 * b) / 32
    requires PackedBlock(w, b, quant, sc, m)
    ensures s < 8 && Element(A, half, num, w)(i) ==
      A.sub(A.mul(A.mul(half(w[144 * b], w[144 * b + 1]), num(sc[s])), num(quant(i))),
        A.mul(half(w[144 * b + 2], w[144 * b + 3]), num(m[s])))
  {
    var h, l := s / 2, i % 32;
    assert PackedByte(w, b, quant, h, l);
    assert i == 256 * b + 32 * s + l;
    var lo, hi := quant(256 * b + 64 * h + l), quant(256 * b + 64 * h + 32 + l);
    ElementBack(A, half, num, w, b, sc, m, s, l, lo, hi);
    ElementAt(A, half, num, w, b, s, l, i);
  }
}
