/** One decoder layer on a batch of tokens, src/core/k3_ops.c:925-1015. */
module Layer {
  import opened Numerics
  import opened Machines
  import opened Kda
  import opened Mla
  import Moe

  datatype Attn = KdaA(kda: KdaW) | MlaA(mla: MlaW)
  datatype Mlp = MoeP(moe: Moe.MoeW) | DenseP(dense: Vec -> Vec)

  datatype LayerW = LayerW(
    inNorm: Vec -> Vec,
    postNorm: Vec -> Vec,
    aggAttn: seq<Vec> -> Vec,     // residual aggregation over the block stack, before attention
    aggMlp: seq<Vec> -> Vec,      // the same before the MLP, with its own weights
    add: (Vec, Vec) -> Vec,
    attn: Attn,
    mlp: Mlp,
    boundary: bool)               // this layer opens a residual block

  /** What travels through the layers for one token: its hidden row and its own stack of
      block residuals. */
  datatype Tok = Tok(h: Vec, stack: seq<Vec>)

  /** What one layer carries between tokens. */
  datatype Carry = KdaC(kda: KdaState) | MlaC(rows: KvState)

  predicate ValidLayer(w: LayerW)
  {
    && (w.attn.KdaA? ==> Kda.ValidW(w.attn.kda))
    && (w.mlp.MoeP? ==> w.mlp.moe.experts > 0)
  }

  // ------------------------------------------------------------- token by token

  function AttnIn(w: LayerW): Tok -> Vec
  {
    (k: Tok) => w.inNorm(if |k.stack| > 0 then w.aggAttn(k.stack + [k.h]) else k.h)
  }

  function Stack(w: LayerW, k: Tok): seq<Vec>
  {
    if w.boundary then k.stack + [k.h] else k.stack
  }

  /** The running residual after attention: a block boundary has just cleared it. */
  function Resid(w: LayerW, k: Tok, a: Vec): Vec
  {
    if w.boundary then a else w.add(k.h, a)
  }

  function MlpIn(w: LayerW, k: Tok, a: Vec): Vec
  {
    w.postNorm(w.aggMlp(Stack(w, k) + [Resid(w, k, a)]))
  }

  function MlpOf(A: Arith<Scalar>, w: LayerW): Vec -> Vec
  {
    match w.mlp
    case MoeP(m) => Moe.MoeOut(A, m)
    case DenseP(f) => f
  }

  function AfterAttn(A: Arith<Scalar>, w: LayerW): (Tok, Vec) -> Tok
  {
    (k: Tok, a: Vec) => Tok(w.add(Resid(w, k, a), MlpOf(A, w)(MlpIn(w, k, a))), Stack(w, k))
  }

  function AttnM(A: Arith<Scalar>, w: LayerW): Mealy<Carry, Vec, Vec>
  {
    match w.attn
    case KdaA(kw) =>
      Mealy((c: Carry, x: Vec) => if c.KdaC? then KdaC(KdaM(A, kw).next(c.kda, x)) else c,
            (c: Carry, x: Vec) => if c.KdaC? then KdaM(A, kw).out(c.kda, x) else x)
    case MlaA(mw) =>
      Mealy((c: Carry, x: Vec) => if c.MlaC? then MlaC(MlaM(A, mw).next(c.rows, x)) else c,
            (c: Carry, x: Vec) => if c.MlaC? then MlaM(A, mw).out(c.rows, x) else x)
  }

  /** The layer one token at a time. */
  function LayerM(A: Arith<Scalar>, w: LayerW): Mealy<Carry, Tok, Tok>
  {
    Wrap(AttnIn(w), AttnM(A, w), AfterAttn(A, w))
  }

  lemma {:induction false} AttnAfterKda(A: Arith<Scalar>, w: LayerW, st: KdaState, xs: seq<Vec>)
    requires w.attn.KdaA?
    ensures After(AttnM(A, w), KdaC(st), xs) == KdaC(After(KdaM(A, w.attn.kda), st, xs))
    decreases |xs|
  {
    if |xs| > 0 { AttnAfterKda(A, w, st, xs[..|xs| - 1]); }
  }

  lemma {:induction false} AttnAfterMla(A: Arith<Scalar>, w: LayerW, st: KvState, xs: seq<Vec>)
    requires w.attn.MlaA?
    ensures After(AttnM(A, w), MlaC(st), xs) == MlaC(After(MlaM(A, w.attn.mla), st, xs))
    decreases |xs|
  {
    if |xs| > 0 { AttnAfterMla(A, w, st, xs[..|xs| - 1]); }
  }

  lemma {:induction false} AttnOutsKda(A: Arith<Scalar>, w: LayerW, st: KdaState, xs: seq<Vec>)
    requires w.attn.KdaA?
    ensures Outs(AttnM(A, w), KdaC(st), xs) == Outs(KdaM(A, w.attn.kda), st, xs)
  {
    forall t | 0 <= t < |xs| ensures Outs(AttnM(A, w), KdaC(st), xs)[t] == Outs(KdaM(A, w.attn.kda), st, xs)[t] {
      AttnAfterKda(A, w, st, xs[..t]);
    }
  }

  lemma {:induction false} AttnOutsMla(A: Arith<Scalar>, w: LayerW, st: KvState, xs: seq<Vec>)
    requires w.attn.MlaA?
    ensures Outs(AttnM(A, w), MlaC(st), xs) == Outs(MlaM(A, w.attn.mla), st, xs)
  {
    forall t | 0 <= t < |xs| ensures Outs(AttnM(A, w), MlaC(st), xs)[t] == Outs(MlaM(A, w.attn.mla), st, xs)[t] {
      AttnAfterMla(A, w, st, xs[..t]);
    }
  }

  // ------------------------------------------------------------- buffers in memory

  /** The first `nb` rows of token `t`'s block stack. */
  ghost function StackOf(br: array2<Vec>, nb: nat, t: nat): (r: seq<Vec>)
    requires t < br.Length0 && nb <= br.Length1
    reads br
    ensures |r| == nb
  {
    seq(nb, b requires 0 <= b < nb reads br => br[t, b])
  }

  /** Token `t` of the batch: its row of `h` and its block stack. */
  ghost function TokAt(h: array<Vec>, br: array2<Vec>, nb: nat, t: nat): Tok
    requires t < h.Length && t < br.Length0 && nb <= br.Length1
    reads h, br
  {
    Tok(h[t], StackOf(br, nb, t))
  }

  ghost function Toks(h: array<Vec>, br: array2<Vec>, nb: nat): (r: seq<Tok>)
    requires h.Length == br.Length0 && nb <= br.Length1
    reads h, br
    ensures |r| == h.Length
  {
    seq(h.Length, t requires 0 <= t < h.Length reads h, br => TokAt(h, br, nb, t))
  }

  /** The memory a layer owns between calls: its recurrent block, or its slice of the KV
      cache, or nothing when attention runs without a cache. */
  datatype Buf = KdaBuf(st: KdaState) | KvBuf(sl: Slice) | NoBuf

  /** The buffer suits the layer, with room for `n` positions. */
  predicate BufOk(w: LayerW, b: Buf, n: nat)
  {
    match b
    case KdaBuf(st) => w.attn.KdaA? && Kda.ValidState(w.attn.kda, st)
    case KvBuf(sl) => w.attn.MlaA? && Fits(sl, n)
    case NoBuf => w.attn.MlaA?
  }

  /** What the layer has carried so far, `n` positions being occupied. Without a cache
      attention starts from no rows on every call. */
  function CarryOf(w: LayerW, b: Buf, n: nat): Carry
    requires BufOk(w, b, n)
  {
    match b
    case KdaBuf(st) => KdaC(st)
    case KvBuf(sl) => MlaC(Stored(sl, n))
    case NoBuf => MlaC(KvState([], []))
  }

  /** A call leaves a buffer of the same kind and size, and the first `n` positions of a
      KV slice as they were. */
  predicate Keeps(b: Buf, b': Buf, n: nat)
  {
    match b
    case KdaBuf(_) => b'.KdaBuf?
    case KvBuf(sl) =>
      && b'.KvBuf? && |b'.sl.kv| == |sl.kv| && |b'.sl.rope| == |sl.rope|
      && Fits(sl, n) && Stored(b'.sl, n) == Stored(sl, n)
    case NoBuf => b'.NoBuf?
  }

  /** The attention step of the layer on a batch, whichever kind it is. */
  method Attention(A: Arith<Scalar>, w: LayerW, x: seq<Vec>, b: Buf, cached: nat) returns (out: seq<Vec>, b': Buf)
    requires ValidLayer(w) && BufOk(w, b, cached + |x|)
    ensures Keeps(b, b', cached) && BufOk(w, b', cached + |x|)
    ensures out == Outs(AttnM(A, w), CarryOf(w, b, cached), x)
    ensures !b.NoBuf? ==> CarryOf(w, b', cached + |x|) == After(AttnM(A, w), CarryOf(w, b, cached), x)
  {
    match b {
      case KdaBuf(st) =>
        AttnAfterKda(A, w, st, x);
        AttnOutsKda(A, w, st, x);
        var st';
        out, st' := KdaLayer(A, w.attn.kda, st, x);
        b' := KdaBuf(st');
      case KvBuf(sl) =>
        AttnAfterMla(A, w, Stored(sl, cached), x);
        AttnOutsMla(A, w, Stored(sl, cached), x);
        var sl';
        out, sl' := MlaCached(A, w.attn.mla, x, sl, cached);
        b' := KvBuf(sl');
      case NoBuf =>
        AttnOutsMla(A, w, KvState([], []), x);
        var kvs := new KvRow[|x|];       // scratch, never initialised
        var rps := new RopeRow[|x|];
        var scratch;
        out, scratch := MlaCached(A, w.attn.mla, x, Slice(kvs[..], rps[..]), 0);
        b' := NoBuf;
    }
  }

  /** Residual aggregation for every token of the batch: the block stack, then the running
      residual, scored and mixed into `h`. */
  method AggregateRows(f: seq<Vec> -> Vec, h: array<Vec>, br: array2<Vec>, nb: nat, pref: seq<Vec>)
    requires h as object != br && h.Length == br.Length0 == |pref| && nb <= br.Length1
    modifies h
    ensures forall t :: 0 <= t < h.Length ==> h[t] == f(StackOf(br, nb, t) + [pref[t]])
  {
    for t := 0 to h.Length
      invariant forall u :: 0 <= u < t ==> h[u] == f(StackOf(br, nb, u) + [pref[u]])
    {
      var src: seq<Vec> := [];
      for b := 0 to nb
        invariant src == StackOf(br, nb, t)[..b]
      {
        src := src + [br[t, b]];
      }
      assert src == StackOf(br, nb, t);
      h[t] := f(src + [pref[t]]);
    }
  }

  /** At a block boundary every token's running residual is pushed on its stack. */
  method PushBlock(br: array2<Vec>, nb: nat, pref: seq<Vec>)
    requires br.Length0 == |pref| && nb < br.Length1
    modifies br
    ensures forall t :: 0 <= t < |pref| ==> StackOf(br, nb + 1, t) == old(StackOf(br, nb, t)) + [pref[t]]
  {
    for t := 0 to |pref|
      invariant forall u, b :: 0 <= u < br.Length0 && 0 <= b < br.Length1 ==>
                  br[u, b] == if u < t && b == nb then pref[u] else old(br[u, b])
    {
      br[t, nb] := pref[t];
    }
  }

  /** The layer up to and including attention: aggregation, block boundary, norm, attention.
      Returns the attention outputs, the new stack height and the layer's new buffer. */
  method FirstHalf(A: Arith<Scalar>, w: LayerW, h: array<Vec>, br: array2<Vec>, nb: nat, ghost toks: seq<Tok>, b: Buf,
      cached: nat)
    returns (a: seq<Vec>, nb': nat, b': Buf)
    requires ValidLayer(w) && h as object != br && h.Length == br.Length0 && nb < br.Length1 && toks == Toks(h, br, nb)
    requires BufOk(w, b, cached + h.Length)
    modifies h, br
    ensures Keeps(b, b', cached) && BufOk(w, b', cached + h.Length)
    ensures a == Outs(AttnM(A, w), CarryOf(w, b, cached), Map(AttnIn(w), toks))
    ensures !b.NoBuf? ==>
      CarryOf(w, b', cached + h.Length) == After(AttnM(A, w), CarryOf(w, b, cached), Map(AttnIn(w), toks))
    ensures nb' == if w.boundary then nb + 1 else nb
    ensures forall t :: 0 <= t < h.Length ==> StackOf(br, nb', t) == Stack(w, toks[t])
  {
    var pref := h[..];
    if nb > 0 {
      AggregateRows(w.aggAttn, h, br, nb, pref);
    }
    nb' := nb;
    if w.boundary {
      PushBlock(br, nb, pref);
      nb' := nb + 1;
    }
    var hin := Map(w.inNorm, h[..]);
    assert hin == Map(AttnIn(w), toks);
    a, b' := Attention(A, w, hin, b, cached);
  }

  /** Feed-forward for the batch: routed experts or the dense MLP. */
  method MlpRows(A: Arith<Scalar>, w: LayerW, src: Moe.Source, streamed: bool, noBatch: bool, hin: seq<Vec>)
    returns (m: seq<Vec>)
    requires ValidLayer(w)
    modifies src
    ensures |m| == |hin| && src.drops >= old(src.drops)
    ensures src.drops == old(src.drops) ==> m == Map(MlpOf(A, w), hin)
  {
    match w.mlp {
      case MoeP(mw) =>
        m := Moe.Prefill(A, mw, src, streamed, noBatch, hin);
      case DenseP(f) =>
        m := [];
        for t := 0 to |hin|
          invariant m == Map(f, hin)[..t]
        {
          m := m + [f(hin[t])];
        }
    }
  }

  /** The layer from the attention outputs on. */
  method SecondHalf(A: Arith<Scalar>, w: LayerW, h: array<Vec>, br: array2<Vec>, nb: nat, pref0: seq<Vec>, a: seq<Vec>,
                    ghost toks: seq<Tok>, src: Moe.Source, streamed: bool, noBatch: bool)
    requires ValidLayer(w) && h as object != br && src as object != h && src as object != br
    requires h.Length == br.Length0 == |a| == |toks| == |pref0| && nb <= br.Length1
    requires forall t :: 0 <= t < h.Length ==> pref0[t] == toks[t].h && StackOf(br, nb, t) == Stack(w, toks[t])
    modifies h, src
    ensures src.drops >= old(src.drops)
    ensures src.drops == old(src.drops) ==>
              forall t :: 0 <= t < h.Length ==> TokAt(h, br, nb, t) == AfterAttn(A, w)(toks[t], a[t])
  {
    var pref := seq(h.Length, t requires 0 <= t < h.Length => if w.boundary then a[t] else w.add(pref0[t], a[t]));
    assert forall t :: 0 <= t < h.Length ==> pref[t] == Resid(w, toks[t], a[t]);
    AggregateRows(w.aggMlp, h, br, nb, pref);
    var hin := Map(w.postNorm, h[..]);
    assert forall t :: 0 <= t < h.Length ==> hin[t] == MlpIn(w, toks[t], a[t]);
    var m := MlpRows(A, w, src, streamed, noBatch, hin);
    AddRows(w, h, pref, m);
    if src.drops == old(src.drops) {
      forall t | 0 <= t < h.Length ensures TokAt(h, br, nb, t) == AfterAttn(A, w)(toks[t], a[t]) {
        assert m[t] == MlpOf(A, w)(MlpIn(w, toks[t], a[t]));
      }
    }
  }

  method AddRows(w: LayerW, h: array<Vec>, pref: seq<Vec>, m: seq<Vec>)
    requires h.Length == |pref| == |m|
    modifies h
    ensures forall t :: 0 <= t < h.Length ==> h[t] == w.add(pref[t], m[t])
  {
    for t := 0 to h.Length
      invariant forall u :: 0 <= u < t ==> h[u] == w.add(pref[u], m[u])
    {
      h[t] := w.add(pref[t], m[t]);
    }
  }

  /** A whole layer on a batch of tokens after `cached` earlier ones. When no expert fetch
      failed, every token leaves the layer as it would have in a serial run; whatever the
      layer carries (recurrent matrices, convolution histories, KV rows) is the serial run's. */
  method DecoderLayer(A: Arith<Scalar>, w: LayerW, h: array<Vec>, br: array2<Vec>, nb: nat, b: Buf, cached: nat,
                      src: Moe.Source, streamed: bool, noBatch: bool) returns (nb': nat, b': Buf)
    requires ValidLayer(w) && h as object != br && src as object != h && src as object != br
    requires h.Length == br.Length0 && nb < br.Length1
    requires BufOk(w, b, cached + h.Length)
    modifies h, br, src
    ensures nb' == if w.boundary then nb + 1 else nb
    ensures Keeps(b, b', cached) && BufOk(w, b', cached + h.Length)
    ensures src.drops >= old(src.drops)
    ensures src.drops == old(src.drops) ==>
              Toks(h, br, nb') == Outs(LayerM(A, w), CarryOf(w, b, cached), old(Toks(h, br, nb)))
    ensures !b.NoBuf? ==>
              CarryOf(w, b', cached + h.Length) == After(LayerM(A, w), CarryOf(w, b, cached), old(Toks(h, br, nb)))
  {
    ghost var toks := Toks(h, br, nb);
    ghost var c := CarryOf(w, b, cached);
    var pref := h[..];
    var a;
    a, nb', b' := FirstHalf(A, w, h, br, nb, toks, b, cached);
    SecondHalf(A, w, h, br, nb', pref, a, toks, src, streamed, noBatch);
    WrapOuts(AttnIn(w), AttnM(A, w), AfterAttn(A, w), c, toks);
    WrapAfter(AttnIn(w), AttnM(A, w), AfterAttn(A, w), c, toks);
  }
}
