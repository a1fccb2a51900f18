/** Gated MLA with a KV cache, src/core/k3_ops.c:299-388. */
module Mla {
  import opened Numerics
  import opened Machines

  type Query(0, !new)     // all heads' queries for one token
  type KvRow(0, !new)     // the expanded keys and values of one position, all heads
  type RopeRow(0, !new)   // the rope slot of one position, shared by the heads
  type HeadAcc(0, !new)   // one head's weighted value sum

  datatype MlaW = MlaW(
    heads: nat,
    query: Vec -> Query,
    kv: Vec -> KvRow,
    rope: Vec -> RopeRow,
    score: (Query, nat, KvRow, RopeRow) -> Scalar,     // scaled dot product, one head
    accZero: HeadAcc,
    axpy: (HeadAcc, Scalar, KvRow, nat) -> HeadAcc,    // acc + p * value row of one head
    tail: (Vec, seq<HeadAcc>) -> Vec)                  // output gate and projection

  /** The rows attention may look at, oldest first. */
  datatype KvState = KvState(kv: seq<KvRow>, rope: seq<RopeRow>)

  predicate Valid(st: KvState) { |st.kv| == |st.rope| }

  // ----------------------------------------------------------- softmax attention

  function Score(w: MlaW, q: Query, h: nat, st: KvState, s: nat): Scalar
    requires Valid(st) && s < |st.kv|
  {
    w.score(q, h, st.kv[s], st.rope[s])
  }

  /** Running maximum over the first `n` scores. */
  function MaxScore(A: Arith<Scalar>, w: MlaW, q: Query, h: nat, st: KvState, n: nat): Scalar
    requires Valid(st) && n <= |st.kv|
  {
    if n == 0 then A.negInf
    else
      var m := MaxScore(A, w, q, h, st, n - 1);
      var s := Score(w, q, h, st, n - 1);
      if A.gt(s, m) then s else m
  }

  function Weight(A: Arith<Scalar>, w: MlaW, q: Query, h: nat, st: KvState, s: nat): Scalar
    requires Valid(st) && s < |st.kv|
  {
    A.exp(A.ops.sub(Score(w, q, h, st, s), MaxScore(A, w, q, h, st, |st.kv|)))
  }

  function Denom(A: Arith<Scalar>, w: MlaW, q: Query, h: nat, st: KvState, n: nat): Scalar
    requires Valid(st) && n <= |st.kv|
  {
    if n == 0 then A.ops.zero else A.ops.add(Denom(A, w, q, h, st, n - 1), Weight(A, w, q, h, st, n - 1))
  }

  function Mix(A: Arith<Scalar>, w: MlaW, q: Query, h: nat, st: KvState, n: nat): HeadAcc
    requires Valid(st) && n <= |st.kv|
  {
    if n == 0 then w.accZero
    else w.axpy(Mix(A, w, q, h, st, n - 1),
                A.div(Weight(A, w, q, h, st, n - 1), Denom(A, w, q, h, st, |st.kv|)), st.kv[n - 1], h)
  }

  function Attend(A: Arith<Scalar>, w: MlaW, q: Query, h: nat, st: KvState): HeadAcc
  {
    if Valid(st) then Mix(A, w, q, h, st, |st.kv|) else w.accZero
  }

  // ------------------------------------------------------------- token by token

  function Append(w: MlaW, st: KvState, x: Vec): KvState
  {
    KvState(st.kv + [w.kv(x)], st.rope + [w.rope(x)])
  }

  function TokenOut(A: Arith<Scalar>, w: MlaW, st: KvState, x: Vec): Vec
  {
    w.tail(x, seq(w.heads, h requires 0 <= h < w.heads => Attend(A, w, w.query(x), h, Append(w, st, x))))
  }

  /** Attention one token at a time: append this token's row, attend over every row so far. */
  function MlaM(A: Arith<Scalar>, w: MlaW): Mealy<KvState, Vec, Vec>
  {
    Mealy((st, x) => Append(w, st, x), (st, x) => TokenOut(A, w, st, x))
  }

  /** The rows after a batch: the old ones, then one per token. */
  lemma {:induction false} MlaAfter(A: Arith<Scalar>, w: MlaW, st: KvState, xs: seq<Vec>)
    ensures After(MlaM(A, w), st, xs) == KvState(st.kv + Map(w.kv, xs), st.rope + Map(w.rope, xs))
    decreases |xs|
  {
    if |xs| > 0 {
      var n := |xs| - 1;
      MlaAfter(A, w, st, xs[..n]);
      assert Map(w.kv, xs) == Map(w.kv, xs[..n]) + [w.kv(xs[n])];
      assert Map(w.rope, xs) == Map(w.rope, xs[..n]) + [w.rope(xs[n])];
      assert st.kv + Map(w.kv, xs) == (st.kv + Map(w.kv, xs[..n])) + [w.kv(xs[n])];
      assert st.rope + Map(w.rope, xs) == (st.rope + Map(w.rope, xs[..n])) + [w.rope(xs[n])];
    } else {
      assert st.kv + Map(w.kv, xs) == st.kv && st.rope + Map(w.rope, xs) == st.rope;
    }
  }

  // ------------------------------------------------------ the cache in memory

  /** One layer's slice of the cache: `cap` positions, of which only the first few are
      meaningful; the rest hold whatever an earlier call left there. */
  datatype Slice = Slice(kv: seq<KvRow>, rope: seq<RopeRow>)

  predicate Fits(sl: Slice, n: nat) { n <= |sl.kv| && n <= |sl.rope| }

  /** The first `n` positions; what lies beyond is not looked at. */
  function Stored(sl: Slice, n: nat): (st: KvState)
    requires Fits(sl, n)
    ensures Valid(st) && |st.kv| == n
  {
    KvState(sl.kv[..n], sl.rope[..n])
  }

  /** Scores, running maximum, exponentials and their sum, weighted values: the inner loops
      for one head at absolute position p, over positions 0..p. */
  method AttendHead(A: Arith<Scalar>, w: MlaW, q: Query, h: nat, sl: Slice, p: nat) returns (o: HeadAcc)
    requires Fits(sl, p + 1)
    ensures o == Attend(A, w, q, h, Stored(sl, p + 1))
  {
    ghost var st := Stored(sl, p + 1);
    var sc: seq<Scalar> := [];
    var m := A.negInf;
    for s := 0 to p + 1
      invariant |sc| == s && forall i :: 0 <= i < s ==> sc[i] == Score(w, q, h, st, i)
      invariant m == MaxScore(A, w, q, h, st, s)
    {
      var x := w.score(q, h, sl.kv[s], sl.rope[s]);
      sc := sc + [x];
      if A.gt(x, m) { m := x; }
    }
    var z := A.ops.zero;
    for s := 0 to p + 1
      invariant |sc| == p + 1
      invariant forall i :: 0 <= i < s ==> sc[i] == Weight(A, w, q, h, st, i)
      invariant forall i :: s <= i < p + 1 ==> sc[i] == Score(w, q, h, st, i)
      invariant z == Denom(A, w, q, h, st, s)
    {
      sc := sc[s := A.exp(A.ops.sub(sc[s], m))];
      z := A.ops.add(z, sc[s]);
    }
    o := w.accZero;
    for s := 0 to p + 1
      invariant o == Mix(A, w, q, h, st, s)
    {
      o := w.axpy(o, A.div(sc[s], z), sl.kv[s], h);
    }
  }

  /** The attention loops for one token of the batch. */
  method AttendToken(A: Arith<Scalar>, w: MlaW, x: Vec, sl: Slice, p: nat, ghost st: KvState) returns (out: Vec)
    requires Fits(sl, p + 1) && Stored(sl, p + 1) == Append(w, st, x)
    ensures out == TokenOut(A, w, st, x)
  {
    var q := w.query(x);
    var acc: seq<HeadAcc> := [];
    for h := 0 to w.heads
      invariant |acc| == h && forall g :: 0 <= g < h ==> acc[g] == Attend(A, w, q, g, Append(w, st, x))
    {
      var o := AttendHead(A, w, q, h, sl, p);
      acc := acc + [o];
    }
    assert acc == seq(w.heads, h requires 0 <= h < w.heads => Attend(A, w, q, h, Append(w, st, x)));
    out := w.tail(x, acc);
  }

  /** The projections of the batch overwrite the rows from `cached` on. */
  method WriteRows(w: MlaW, x: seq<Vec>, sl: Slice, cached: nat) returns (sl': Slice)
    requires Fits(sl, cached + |x|)
    ensures |sl'.kv| == |sl.kv| && |sl'.rope| == |sl.rope|
    ensures Stored(sl', cached) == Stored(sl, cached)
    ensures Stored(sl', cached + |x|) == KvState(sl.kv[..cached] + Map(w.kv, x), sl.rope[..cached] + Map(w.rope, x))
    ensures sl'.kv[cached + |x|..] == sl.kv[cached + |x|..] && sl'.rope[cached + |x|..] == sl.rope[cached + |x|..]
  {
    sl' := sl;
    for t := 0 to |x|
      invariant |sl'.kv| == |sl.kv| && |sl'.rope| == |sl.rope|
      invariant forall p :: 0 <= p < |sl.kv| ==>
                  sl'.kv[p] == if cached <= p < cached + t then w.kv(x[p - cached]) else sl.kv[p]
      invariant forall p :: 0 <= p < |sl.rope| ==>
                  sl'.rope[p] == if cached <= p < cached + t then w.rope(x[p - cached]) else sl.rope[p]
    {
      sl' := Slice(sl'.kv[cached + t := w.kv(x[t])], sl'.rope[cached + t := w.rope(x[t])]);
    }
    assert sl'.kv[..cached + |x|] == sl.kv[..cached] + Map(w.kv, x);
    assert sl'.rope[..cached + |x|] == sl.rope[..cached] + Map(w.rope, x);
  }

  function First(st: KvState, n: nat): KvState
    requires n <= |st.kv| && n <= |st.rope|
  {
    KvState(st.kv[..n], st.rope[..n])
  }

  /** The rows token `t` attends over are the rows a serial run would have had. */
  lemma {:induction false} PrefixRows(A: Arith<Scalar>, w: MlaW, st: KvState, x: seq<Vec>, n: nat)
    requires n <= |x| && Valid(st)
    ensures var all := KvState(st.kv + Map(w.kv, x), st.rope + Map(w.rope, x));
            After(MlaM(A, w), st, x[..n]) == First(all, |st.kv| + n)
  {
    MlaAfter(A, w, st, x[..n]);
    assert Map(w.kv, x)[..n] == Map(w.kv, x[..n]);
    assert Map(w.rope, x)[..n] == Map(w.rope, x[..n]);
  }

  lemma {:induction false} SeenRows(A: Arith<Scalar>, w: MlaW, x: seq<Vec>, sl: Slice, st: KvState, t: nat)
    requires Valid(st) && t < |x| && Fits(sl, |st.kv| + |x|)
    requires Stored(sl, |st.kv| + |x|) == KvState(st.kv + Map(w.kv, x), st.rope + Map(w.rope, x))
    ensures Stored(sl, |st.kv| + t + 1) == Append(w, After(MlaM(A, w), st, x[..t]), x[t])
  {
    PrefixRows(A, w, st, x, t + 1);
    assert x[..t + 1][..t] == x[..t];
    assert sl.kv[..|st.kv| + t + 1] == sl.kv[..|st.kv| + |x|][..|st.kv| + t + 1];
    assert sl.rope[..|st.kv| + t + 1] == sl.rope[..|st.kv| + |x|][..|st.kv| + t + 1];
  }

  /** Token `t` attends to what was there before the batch and to the tokens up to and including
      itself, with its own query. */
  lemma {:induction false} Causal(A: Arith<Scalar>, w: MlaW, st: KvState, x: seq<Vec>, t: nat, rows: KvState)
    requires t < |x| && Valid(st)
    requires rows == KvState(st.kv + Map(w.kv, x[..t + 1]), st.rope + Map(w.rope, x[..t + 1]))
    ensures Valid(rows) && Outs(MlaM(A, w), st, x)[t] ==
      w.tail(x[t], seq(w.heads, h requires 0 <= h < w.heads => Attend(A, w, w.query(x[t]), h, rows)))
  {
    MlaAfter(A, w, st, x[..t + 1]);
    assert x[..t + 1][..t] == x[..t] && x[..t + 1][t] == x[t];
    assert Append(w, After(MlaM(A, w), st, x[..t]), x[t]) == rows;
  }

  /** A batch of |x| tokens after `cached` earlier ones: first every token's row is written,
      then every token attends over the rows up to its own. Outputs and rows are those of
      as many single-token calls whatever the slice held at or past `cached` on entry: rows
      left by a rejected draft are overwritten before anything reads them. */
  method MlaCached(A: Arith<Scalar>, w: MlaW, x: seq<Vec>, sl: Slice, cached: nat) returns (out: seq<Vec>, sl': Slice)
    requires Fits(sl, cached + |x|)
    ensures |sl'.kv| == |sl.kv| && |sl'.rope| == |sl.rope|
    ensures out == Outs(MlaM(A, w), Stored(sl, cached), x)
    ensures Stored(sl', cached) == Stored(sl, cached)
    ensures Stored(sl', cached + |x|) == After(MlaM(A, w), Stored(sl, cached), x)
  {
    ghost var st := Stored(sl, cached);
    sl' := WriteRows(w, x, sl, cached);
    MlaAfter(A, w, st, x);
    out := [];
    for t := 0 to |x|
      invariant out == Outs(MlaM(A, w), st, x)[..t]
    {
      SeenRows(A, w, x, sl', st, t);
      var o := AttendToken(A, w, x[t], sl', cached + t, After(MlaM(A, w), st, x[..t]));
      out := out + [o];
    }
  }
}
