/** The KDA (linear attention) layer, src/core/k3_ops.c:811-898, run on a batch of tokens
    with its recurrent matrices and convolution histories carried in and out. */
module Kda {
  import opened Numerics
  import opened Machines
  import opened ShortConv

  type HState(0, !new)   // the D x D recurrent matrix of one head
  type HOut(0, !new)     // one head's output for one token

  /** Projections are given row by row (output rows of a matrix product are independent);
      what happens inside one head's step and inside the output tail is not looked into. */
  datatype KdaW = KdaW(
    heads: nat,
    dim: nat,
    qRow: (Vec, nat) -> Scalar,
    kRow: (Vec, nat) -> Scalar,
    vRow: (Vec, nat) -> Scalar,
    qTaps: seq<seq<Scalar>>,
    kTaps: seq<seq<Scalar>>,
    vTaps: seq<seq<Scalar>>,
    l2: (seq<Scalar>, nat) -> Scalar,     // element i of the normalised head slice
    alpha: (Vec, nat) -> Scalar,          // channel decay
    beta: (Vec, nat) -> Scalar,           // head write strength
    scale: Scalar -> Scalar,              // the 1/sqrt(d_k) applied to q
    step: (HState, HeadIn) -> (HState, HOut),
    tail: (Vec, seq<HOut>) -> Vec)        // head norms, gate, output projection

  datatype HeadIn = HeadIn(q: seq<Scalar>, k: seq<Scalar>, v: seq<Scalar>, alpha: seq<Scalar>, beta: Scalar)

  datatype KdaState = KdaState(S: seq<HState>, cq: seq<seq<Scalar>>, ck: seq<seq<Scalar>>, cv: seq<seq<Scalar>>)

  predicate ValidW(w: KdaW)
  {
    |w.qTaps| == |w.kTaps| == |w.vTaps| == w.heads * w.dim
  }

  predicate HistFits(taps: seq<seq<Scalar>>, hist: seq<seq<Scalar>>)
  {
    |taps| == |hist| && forall c :: 0 <= c < |taps| ==> |taps[c]| == |hist[c]| + 1
  }

  predicate ValidState(w: KdaW, st: KdaState)
  {
    |st.S| == w.heads && HistFits(w.qTaps, st.cq) && HistFits(w.kTaps, st.ck) && HistFits(w.vTaps, st.cv)
  }

  // ------------------------------------------------------------- token by token

  function Proj(w: KdaW, row: (Vec, nat) -> Scalar): Vec -> seq<Scalar>
  {
    (x: Vec) => seq(w.heads * w.dim, c requires 0 <= c < w.heads * w.dim => row(x, c))
  }

  function Slice(A: Arith<Scalar>, dim: nat, v: seq<Scalar>, h: nat): seq<Scalar>
  {
    seq(dim, i requires 0 <= i < dim => At(v, h * dim + i, A))
  }

  function Normed(A: Arith<Scalar>, w: KdaW, v: seq<Scalar>, h: nat): seq<Scalar>
  {
    seq(w.dim, i requires 0 <= i < w.dim => w.l2(Slice(A, w.dim, v, h), i))
  }

  function Scaled(w: KdaW, v: seq<Scalar>): seq<Scalar>
  {
    seq(|v|, i requires 0 <= i < |v| => w.scale(v[i]))
  }

  function HeadInOf(A: Arith<Scalar>, w: KdaW, x: Vec, q: seq<Scalar>, k: seq<Scalar>, v: seq<Scalar>, h: nat): HeadIn
  {
    HeadIn(Scaled(w, Normed(A, w, q, h)), Normed(A, w, k, h), Slice(A, w.dim, v, h),
           seq(w.dim, i requires 0 <= i < w.dim => w.alpha(x, h * w.dim + i)), w.beta(x, h))
  }

  function Head(w: KdaW): Mealy<HState, HeadIn, HOut>
  {
    Mealy((s: HState, a: HeadIn) => w.step(s, a).0, (s: HState, a: HeadIn) => w.step(s, a).1)
  }

  /** What each head is fed for token `x` when the layer is in state `st`. */
  function TokenIn(A: Arith<Scalar>, w: KdaW, st: KdaState, x: Vec, h: nat): HeadIn
  {
    HeadInOf(A, w, x, Conv(A, w.qTaps).out(st.cq, Proj(w, w.qRow)(x)),
             Conv(A, w.kTaps).out(st.ck, Proj(w, w.kRow)(x)),
             Conv(A, w.vTaps).out(st.cv, Proj(w, w.vRow)(x)), h)
  }

  function KdaNext(A: Arith<Scalar>, w: KdaW, st: KdaState, x: Vec): KdaState
  {
    KdaState(seq(|st.S|, h requires 0 <= h < |st.S| => Head(w).next(st.S[h], TokenIn(A, w, st, x, h))),
             Conv(A, w.qTaps).next(st.cq, Proj(w, w.qRow)(x)),
             Conv(A, w.kTaps).next(st.ck, Proj(w, w.kRow)(x)),
             Conv(A, w.vTaps).next(st.cv, Proj(w, w.vRow)(x)))
  }

  function KdaOut(A: Arith<Scalar>, w: KdaW, st: KdaState, x: Vec): Vec
  {
    w.tail(x, seq(|st.S|, h requires 0 <= h < |st.S| => Head(w).out(st.S[h], TokenIn(A, w, st, x, h))))
  }

  /** The layer one token at a time: the reference the batch is compared with. */
  function KdaM(A: Arith<Scalar>, w: KdaW): Mealy<KdaState, Vec, Vec>
  {
    Mealy((st, x) => KdaNext(A, w, st, x), (st, x) => KdaOut(A, w, st, x))
  }

  // ------------------------------------------------- stage by stage, heads outermost

  /** Head `h`'s inputs over the whole batch, from the three convolved projections. */
  function HeadIns(A: Arith<Scalar>, w: KdaW, st: KdaState, xs: seq<Vec>, h: nat): (r: seq<HeadIn>)
    ensures |r| == |xs|
  {
    var q := Outs(Conv(A, w.qTaps), st.cq, Map(Proj(w, w.qRow), xs));
    var k := Outs(Conv(A, w.kTaps), st.ck, Map(Proj(w, w.kRow), xs));
    var v := Outs(Conv(A, w.vTaps), st.cv, Map(Proj(w, w.vRow), xs));
    seq(|xs|, t requires 0 <= t < |xs| => HeadInOf(A, w, xs[t], q[t], k[t], v[t], h))
  }

  lemma HeadInsDef(A: Arith<Scalar>, w: KdaW, st: KdaState, xs: seq<Vec>, h: nat,
                   q: seq<seq<Scalar>>, k: seq<seq<Scalar>>, v: seq<seq<Scalar>>)
    requires q == Outs(Conv(A, w.qTaps), st.cq, Map(Proj(w, w.qRow), xs))
    requires k == Outs(Conv(A, w.kTaps), st.ck, Map(Proj(w, w.kRow), xs))
    requires v == Outs(Conv(A, w.vTaps), st.cv, Map(Proj(w, w.vRow), xs))
    ensures forall t :: 0 <= t < |xs| ==> HeadIns(A, w, st, xs, h)[t] == HeadInOf(A, w, xs[t], q[t], k[t], v[t], h)
  {
  }

  lemma HeadInsPrefix(A: Arith<Scalar>, w: KdaW, st: KdaState, xs: seq<Vec>, h: nat, n: nat)
    requires n <= |xs|
    ensures HeadIns(A, w, st, xs, h)[..n] == HeadIns(A, w, st, xs[..n], h)
  {
    ProjPrefix(A, w.qTaps, st.cq, Proj(w, w.qRow), xs, n);
    ProjPrefix(A, w.kTaps, st.ck, Proj(w, w.kRow), xs, n);
    ProjPrefix(A, w.vTaps, st.cv, Proj(w, w.vRow), xs, n);
  }

  lemma ProjPrefix(A: Arith<Scalar>, taps: seq<seq<Scalar>>, c: seq<seq<Scalar>>, f: Vec -> seq<Scalar>, xs: seq<Vec>,
      n: nat)
    requires n <= |xs|
    ensures Map(f, xs)[..n] == Map(f, xs[..n])
    ensures Outs(Conv(A, taps), c, Map(f, xs[..n])) == Outs(Conv(A, taps), c, Map(f, xs))[..n]
  {
    assert Map(f, xs)[..n] == Map(f, xs[..n]);
    OutsPrefix(Conv(A, taps), c, Map(f, xs), n);
  }

  /** Each convolution history after a batch is what its own pass over the batch leaves. */
  lemma {:induction false} ConvAfter(A: Arith<Scalar>, w: KdaW, st: KdaState, xs: seq<Vec>)
    ensures After(KdaM(A, w), st, xs).cq == After(Conv(A, w.qTaps), st.cq, Map(Proj(w, w.qRow), xs))
    ensures After(KdaM(A, w), st, xs).ck == After(Conv(A, w.kTaps), st.ck, Map(Proj(w, w.kRow), xs))
    ensures After(KdaM(A, w), st, xs).cv == After(Conv(A, w.vTaps), st.cv, Map(Proj(w, w.vRow), xs))
    ensures |After(KdaM(A, w), st, xs).S| == |st.S|
    decreases |xs|
  {
    if |xs| > 0 {
      var n := |xs| - 1;
      ConvAfter(A, w, st, xs[..n]);
      assert Map(Proj(w, w.qRow), xs)[..n] == Map(Proj(w, w.qRow), xs[..n]);
      assert Map(Proj(w, w.kRow), xs)[..n] == Map(Proj(w, w.kRow), xs[..n]);
      assert Map(Proj(w, w.vRow), xs)[..n] == Map(Proj(w, w.vRow), xs[..n]);
    }
  }

  /** What head `h` is fed at position `t` is the same in the batch and token by token. */
  lemma HeadInsAt(A: Arith<Scalar>, w: KdaW, st: KdaState, xs: seq<Vec>, h: nat, t: nat)
    requires t < |xs|
    ensures HeadIns(A, w, st, xs, h)[t] == TokenIn(A, w, After(KdaM(A, w), st, xs[..t]), xs[t], h)
  {
    ConvAfter(A, w, st, xs[..t]);
    ProjPrefix(A, w.qTaps, st.cq, Proj(w, w.qRow), xs, t);
    ProjPrefix(A, w.kTaps, st.ck, Proj(w, w.kRow), xs, t);
    ProjPrefix(A, w.vTaps, st.cv, Proj(w, w.vRow), xs, t);
  }

  /** Channel `c` of a projection of the batch. */
  function Line(row: (Vec, nat) -> Scalar, xs: seq<Vec>, c: nat): (r: seq<Scalar>)
    ensures |r| == |xs|
  {
    seq(|xs|, u requires 0 <= u < |xs| => row(xs[u], c))
  }

  /** A head's `dim` convolved values of token `t`, each from its own channel. */
  ghost function Convolutions(A: Arith<Scalar>, dim: nat, row: (Vec, nat) -> Scalar, taps: seq<seq<Scalar>>,
      hist: seq<seq<Scalar>>, xs: seq<Vec>, t: nat, h: nat): (r: seq<Scalar>)
    requires t < |xs| && HistFits(taps, hist) && (h + 1) * dim <= |taps|
    ensures |r| == dim
  {
    seq(dim, i requires 0 <= i < dim =>
      InHead(h, dim, i, |taps|);
      ConvAt(A, taps[h * dim + i], hist[h * dim + i] + Line(row, xs, h * dim + i), t))
  }

  lemma InHead(h: nat, dim: nat, i: nat, n: nat)
    requires i < dim && (h + 1) * dim <= n
    ensures h * dim + i < n
  {
    assert (h + 1) * dim == h * dim + dim;
  }

  /** `f` computes the `n` rows of a projection. */
  ghost predicate RowsOf(f: Vec -> seq<Scalar>, row: (Vec, nat) -> Scalar, n: nat, x: Vec)
  {
    |f(x)| == n && forall c: nat :: c < n ==> f(x)[c] == row(x, c)
  }

  lemma {:induction false} ColumnIs(A: Arith<Scalar>, row: (Vec, nat) -> Scalar, f: Vec -> seq<Scalar>, n: nat,
      xs: seq<Vec>, c: nat)
    requires c < n && forall x :: RowsOf(f, row, n, x)
    ensures Column(A, Map(f, xs), c) == Line(row, xs, c)
  {
    forall u | 0 <= u < |xs| ensures Column(A, Map(f, xs), c)[u] == row(xs[u], c) { assert RowsOf(f, row, n, xs[u]); }
  }

  lemma {:induction false} ProjRows(w: KdaW, row: (Vec, nat) -> Scalar)
    ensures forall x :: RowsOf(Proj(w, row), row, w.heads * w.dim, x)
  {
    forall x ensures RowsOf(Proj(w, row), row, w.heads * w.dim, x) { }
  }

  lemma HeadRoom(heads: nat, dim: nat, h: nat)
    requires h < heads
    ensures (h + 1) * dim <= heads * dim
  {
    assert heads * dim == (h + 1) * dim + (heads - h - 1) * dim;
  }

  lemma {:induction false} SliceIs(A: Arith<Scalar>, dim: nat, row: (Vec, nat) -> Scalar, f: Vec -> seq<Scalar>,
      taps: seq<seq<Scalar>>, hist: seq<seq<Scalar>>, xs: seq<Vec>, t: nat, h: nat)
    requires t < |xs| && HistFits(taps, hist) && (h + 1) * dim <= |taps|
    requires forall x :: RowsOf(f, row, |taps|, x)
    ensures Slice(A, dim, Outs(Conv(A, taps), hist, Map(f, xs))[t], h) ==
      Convolutions(A, dim, row, taps, hist, xs, t, h)
  {
    var v := Outs(Conv(A, taps), hist, Map(f, xs))[t];
    forall i | 0 <= i < dim ensures Slice(A, dim, v, h)[i] == Convolutions(A, dim, row, taps, hist, xs, t, h)[i] {
      InHead(h, dim, i, |taps|);
      ChannelIs(A, row, f, taps, hist, xs, t, h * dim + i);
    }
  }

  lemma {:induction false} ChannelIs(A: Arith<Scalar>, row: (Vec, nat) -> Scalar, f: Vec -> seq<Scalar>,
      taps: seq<seq<Scalar>>, hist: seq<seq<Scalar>>, xs: seq<Vec>, t: nat, c: nat)
    requires t < |xs| && HistFits(taps, hist) && c < |taps| && forall x :: RowsOf(f, row, |taps|, x)
    ensures At(Outs(Conv(A, taps), hist, Map(f, xs))[t], c, A) == ConvAt(A, taps[c], hist[c] + Line(row, xs, c), t)
  {
    ConvOut(A, taps, hist, Map(f, xs), c, t);
    ColumnIs(A, row, f, |taps|, xs, c);
    ConvIsWindow(A, taps[c], hist[c], Line(row, xs, c), t);
  }

  /** What head `h` is fed for token `t`, spelled out: the query from its own projection, taps and
      history, normalised and then scaled; the key likewise but not scaled; the value as convolved;
      decay and write strength from the token itself. */
  lemma {:induction false} HeadFed(A: Arith<Scalar>, w: KdaW, st: KdaState, xs: seq<Vec>, h: nat, t: nat)
    requires ValidW(w) && ValidState(w, st) && h < w.heads && t < |xs|
    ensures (h + 1) * w.dim <= w.heads * w.dim
    ensures var q := Convolutions(A, w.dim, w.qRow, w.qTaps, st.cq, xs, t, h);
      var k := Convolutions(A, w.dim, w.kRow, w.kTaps, st.ck, xs, t, h);
      HeadIns(A, w, st, xs, h)[t] ==
        HeadIn(seq(w.dim, i requires 0 <= i < w.dim => w.scale(w.l2(q, i))),
               seq(w.dim, i requires 0 <= i < w.dim => w.l2(k, i)),
               Convolutions(A, w.dim, w.vRow, w.vTaps, st.cv, xs, t, h),
               seq(w.dim, i requires 0 <= i < w.dim => w.alpha(xs[t], h * w.dim + i)),
               w.beta(xs[t], h))
  {
    HeadRoom(w.heads, w.dim, h);
    ProjRows(w, w.qRow);
    ProjRows(w, w.kRow);
    ProjRows(w, w.vRow);
    SliceIs(A, w.dim, w.qRow, Proj(w, w.qRow), w.qTaps, st.cq, xs, t, h);
    SliceIs(A, w.dim, w.kRow, Proj(w, w.kRow), w.kTaps, st.ck, xs, t, h);
    SliceIs(A, w.dim, w.vRow, Proj(w, w.vRow), w.vTaps, st.cv, xs, t, h);
  }

  /** A layer's three histories after a batch are the last of its own projections. */
  lemma {:induction false} HistoriesAre(A: Arith<Scalar>, w: KdaW, st: KdaState, xs: seq<Vec>, c: nat)
    requires ValidW(w) && ValidState(w, st) && c < w.heads * w.dim
    ensures var st' := After(KdaM(A, w), st, xs);
      && |st'.cq| == |st'.ck| == |st'.cv| == w.heads * w.dim
      && Carried(st.cq[c], Line(w.qRow, xs, c), st'.cq[c])
      && Carried(st.ck[c], Line(w.kRow, xs, c), st'.ck[c])
      && Carried(st.cv[c], Line(w.vRow, xs, c), st'.cv[c])
  {
    ConvAfter(A, w, st, xs);
    ProjRows(w, w.qRow);
    ProjRows(w, w.kRow);
    ProjRows(w, w.vRow);
    HistoryIs(A, w.qTaps, st.cq, Proj(w, w.qRow), w.qRow, xs, c);
    HistoryIs(A, w.kTaps, st.ck, Proj(w, w.kRow), w.kRow, xs, c);
    HistoryIs(A, w.vTaps, st.cv, Proj(w, w.vRow), w.vRow, xs, c);
  }

  lemma {:induction false} HistoryIs(A: Arith<Scalar>, taps: seq<seq<Scalar>>, hist: seq<seq<Scalar>>,
      f: Vec -> seq<Scalar>, row: (Vec, nat) -> Scalar, xs: seq<Vec>, c: nat)
    requires HistFits(taps, hist) && c < |taps| && forall x :: RowsOf(f, row, |taps|, x)
    ensures |After(Conv(A, taps), hist, Map(f, xs))| == |hist|
    ensures Carried(hist[c], Line(row, xs, c), After(Conv(A, taps), hist, Map(f, xs))[c])
  {
    ApplyColumn(A, taps, hist, Map(f, xs), c);
    ColumnIs(A, row, f, |taps|, xs, c);
  }

  /** Each head's matrix after a batch is what that head, walking the batch alone, leaves. */
  lemma {:induction false} HeadAfter(A: Arith<Scalar>, w: KdaW, st: KdaState, xs: seq<Vec>, h: nat)
    requires h < |st.S|
    ensures |After(KdaM(A, w), st, xs).S| == |st.S|
    ensures After(KdaM(A, w), st, xs).S[h] == After(Head(w), st.S[h], HeadIns(A, w, st, xs, h))
    decreases |xs|
  {
    if |xs| > 0 {
      var n := |xs| - 1;
      HeadAfter(A, w, st, xs[..n], h);
      HeadInsPrefix(A, w, st, xs, h, n);
      HeadInsAt(A, w, st, xs, h, n);
    }
  }

  lemma KdaOutAt(A: Arith<Scalar>, w: KdaW, st: KdaState, xs: seq<Vec>, t: nat)
    requires t < |xs|
    ensures Outs(KdaM(A, w), st, xs)[t] ==
            w.tail(xs[t],
              seq(|st.S|, h requires 0 <= h < |st.S| => Outs(Head(w), st.S[h], HeadIns(A, w, st, xs, h))[t]))
  {
    ConvAfter(A, w, st, xs[..t]);
    var p := After(KdaM(A, w), st, xs[..t]);
    var a := seq(|st.S|, h requires 0 <= h < |st.S| => Outs(Head(w), st.S[h], HeadIns(A, w, st, xs, h))[t]);
    var b := seq(|p.S|, h requires 0 <= h < |p.S| => Head(w).out(p.S[h], TokenIn(A, w, p, xs[t], h)));
    forall h | 0 <= h < |st.S| ensures a[h] == b[h] {
      HeadAfter(A, w, st, xs[..t], h);
      HeadInsPrefix(A, w, st, xs, h, t);
      HeadInsAt(A, w, st, xs, h, t);
    }
    assert a == b;
  }

  lemma {:induction false} StateValid(A: Arith<Scalar>, w: KdaW, st: KdaState, xs: seq<Vec>)
    requires ValidState(w, st)
    ensures ValidState(w, After(KdaM(A, w), st, xs))
  {
    ConvAfter(A, w, st, xs);
    AfterWidth(A, w.qTaps, st.cq, Map(Proj(w, w.qRow), xs));
    AfterWidth(A, w.kTaps, st.ck, Map(Proj(w, w.kRow), xs));
    AfterWidth(A, w.vTaps, st.cv, Map(Proj(w, w.vRow), xs));
  }

  // --------------------------------------------------------------------- the loops

  /** One projection of the whole batch into a matrix. */
  method Project(w: KdaW, row: (Vec, nat) -> Scalar, x: seq<Vec>) returns (q: array2<Scalar>)
    ensures fresh(q) && q.Length0 == |x| && q.Length1 == w.heads * w.dim
    ensures Rows(q) == Map(Proj(w, row), x)
  {
    q := new Scalar[|x|, w.heads * w.dim];
    for t := 0 to |x|
      invariant forall u, c :: 0 <= u < t && 0 <= c < w.heads * w.dim ==> q[u, c] == row(x[u], c)
    {
      for c := 0 to w.heads * w.dim
        invariant forall d :: 0 <= d < c ==> q[t, d] == row(x[t], d)
        invariant forall u, d :: 0 <= u < t && 0 <= d < w.heads * w.dim ==> q[u, d] == row(x[u], d)
      {
        q[t, c] := row(x[t], c);
      }
    }
    forall t | 0 <= t < |x| ensures Rows(q)[t] == Map(Proj(w, row), x)[t] {
      assert Rows(q)[t] == Proj(w, row)(x[t]);
    }
  }

  /** The rows of a convolved projection. */
  method ReadRows(q: array2<Scalar>) returns (r: seq<seq<Scalar>>)
    ensures r == Rows(q)
  {
    r := [];
    for t := 0 to q.Length0
      invariant r == Rows(q)[..t]
    {
      r := r + [seq(q.Length1, c requires 0 <= c < q.Length1 reads q => q[t, c])];
    }
  }

  /** One head walks the whole batch over its own matrix, giving its column of outputs. */
  method RecurHead(A: Arith<Scalar>, w: KdaW, s0: HState, x: seq<Vec>, ghost ins: seq<HeadIn>,
                   q: seq<seq<Scalar>>, k: seq<seq<Scalar>>, v: seq<seq<Scalar>>, h: nat)
    returns (s: HState, o: seq<HOut>)
    requires |q| == |k| == |v| == |x| == |ins|
    requires forall t :: 0 <= t < |x| ==> ins[t] == HeadInOf(A, w, x[t], q[t], k[t], v[t], h)
    ensures s == After(Head(w), s0, ins)
    ensures o == Outs(Head(w), s0, ins)
  {
    s, o := s0, [];
    for t := 0 to |x|
      invariant s == After(Head(w), s0, ins[..t])
      invariant o == Outs(Head(w), s0, ins)[..t]
    {
      assert ins[..t + 1][..t] == ins[..t];
      var r := w.step(s, HeadInOf(A, w, x[t], q[t], k[t], v[t], h));
      s := r.0;
      o := o + [r.1];
    }
    assert ins[..|x|] == ins;
  }

  /** The recurrence: heads outermost, each walking the batch in order over its own matrix;
      `o[h][t]` is head `h`'s output for token `t`. */
  method Recur(A: Arith<Scalar>, w: KdaW, st: KdaState, x: seq<Vec>,
               q: seq<seq<Scalar>>, k: seq<seq<Scalar>>, v: seq<seq<Scalar>>)
    returns (S: seq<HState>, o: seq<seq<HOut>>)
    requires |st.S| == w.heads
    requires q == Outs(Conv(A, w.qTaps), st.cq, Map(Proj(w, w.qRow), x))
    requires k == Outs(Conv(A, w.kTaps), st.ck, Map(Proj(w, w.kRow), x))
    requires v == Outs(Conv(A, w.vTaps), st.cv, Map(Proj(w, w.vRow), x))
    ensures S == After(KdaM(A, w), st, x).S
    ensures |o| == w.heads
    ensures forall h :: 0 <= h < w.heads ==> o[h] == Outs(Head(w), st.S[h], HeadIns(A, w, st, x, h))
  {
    S, o := [], [];
    ConvAfter(A, w, st, x);
    for h := 0 to w.heads
      invariant |o| == h && S == After(KdaM(A, w), st, x).S[..h]
      invariant forall g :: 0 <= g < h ==> o[g] == Outs(Head(w), st.S[g], HeadIns(A, w, st, x, g))
    {
      HeadInsDef(A, w, st, x, h, q, k, v);
      var s, col := RecurHead(A, w, st.S[h], x, HeadIns(A, w, st, x, h), q, k, v, h);
      HeadAfter(A, w, st, x, h);
      S := S + [s];
      o := o + [col];
    }
  }

  /** The output stage: per token, the head outputs go through norm, gate and projection. */
  method Tail(A: Arith<Scalar>, w: KdaW, st: KdaState, x: seq<Vec>, o: seq<seq<HOut>>) returns (out: seq<Vec>)
    requires |st.S| == w.heads == |o|
    requires forall h :: 0 <= h < w.heads ==> o[h] == Outs(Head(w), st.S[h], HeadIns(A, w, st, x, h))
    ensures out == Outs(KdaM(A, w), st, x)
  {
    out := [];
    for t := 0 to |x|
      invariant out == Outs(KdaM(A, w), st, x)[..t]
    {
      var os := seq(w.heads, h requires 0 <= h < w.heads => o[h][t]);
      KdaOutAt(A, w, st, x, t);
      assert os == seq(|st.S|, h requires 0 <= h < |st.S| => Outs(Head(w), st.S[h], HeadIns(A, w, st, x, h))[t]);
      out := out + [w.tail(x[t], os)];
    }
  }

  /** The whole layer on a batch, stage by stage as the source runs it: projections, three
      convolutions, the recurrence, the tail. Outputs and carried state are those of as
      many single-token calls, for every batch length. */
  method KdaLayer(A: Arith<Scalar>, w: KdaW, st: KdaState, x: seq<Vec>) returns (out: seq<Vec>, st': KdaState)
    requires ValidW(w) && ValidState(w, st)
    ensures out == Outs(KdaM(A, w), st, x)
    ensures st' == After(KdaM(A, w), st, x)
    ensures ValidState(w, st')
  {
    var q := Project(w, w.qRow, x);
    var k := Project(w, w.kRow, x);
    var v := Project(w, w.vRow, x);
    var cq := Apply(A, w.qTaps, st.cq, q);
    var ck := Apply(A, w.kTaps, st.ck, k);
    var cv := Apply(A, w.vTaps, st.cv, v);
    var qs := ReadRows(q);
    var ks := ReadRows(k);
    var vs := ReadRows(v);
    var S, o := Recur(A, w, st, x, qs, ks, vs);
    out := Tail(A, w, st, x, o);
    st' := KdaState(S, cq, ck, cv);
    ConvAfter(A, w, st, x);
    StateValid(A, w, st, x);
  }
}
