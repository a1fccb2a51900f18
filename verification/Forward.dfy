/** The whole model on a batch of tokens, src/cli/k3_run.c:470-552, and the machine that
    runs it one token at a time. */
module Forward {
  import opened Numerics
  import opened Machines
  import opened Kda
  import opened Mla
  import opened Layer
  import Moe
  import opened Ints

  type Token = int

  datatype Model = Model(
    layers: seq<LayerW>,
    block: nat,                       // layers per residual block
    embed: Token -> Vec,
    finalAgg: seq<Vec> -> Vec,        // the model-level residual aggregation
    pick: Vec -> Token,               // final norm, output head, arg max
    kdaZero: nat -> KdaState)         // a layer's cleared recurrent state

  ghost predicate ValidModel(m: Model)
  {
    && m.block > 0
    && (forall L :: 0 <= L < |m.layers| ==> ValidLayer(m.layers[L]))
    && (forall L :: 0 <= L < |m.layers| ==> (m.layers[L].boundary <==> L % m.block == 0))
    && (forall L :: 0 <= L < |m.layers| && m.layers[L].attn.KdaA? ==>
          Kda.ValidState(m.layers[L].attn.kda, m.kdaZero(L)))
  }

  // ------------------------------------------------------------- token by token

  function Layers(A: Arith<Scalar>, m: Model): (ms: seq<Mealy<Carry, Tok, Tok>>)
    ensures |ms| == |m.layers|
    ensures forall L :: 0 <= L < |m.layers| ==> ms[L] == LayerM(A, m.layers[L])
  {
    seq(|m.layers|, L requires 0 <= L < |m.layers| => LayerM(A, m.layers[L]))
  }

  function Start(m: Model): Token -> Tok { (id: Token) => Tok(m.embed(id), []) }

  function Finish(m: Model): (Token, Tok) -> Token
  {
    (id: Token, k: Tok) => m.pick(m.finalAgg(k.stack + [k.h]))
  }

  /** The model as one machine: feed a token, get the greedy next token. */
  function ModelM(A: Arith<Scalar>, m: Model): Mealy<seq<Carry>, Token, Token>
  {
    Wrap(Start(m), Tower(Layers(A, m)), Finish(m))
  }

  function InitCarry(m: Model, L: nat): Carry
    requires L < |m.layers|
  {
    match m.layers[L].attn
    case KdaA(_) => KdaC(m.kdaZero(L))
    case MlaA(_) => MlaC(KvState([], []))
  }

  function Init(m: Model): (cs: seq<Carry>)
    ensures |cs| == |m.layers|
  {
    seq(|m.layers|, L requires 0 <= L < |m.layers| => InitCarry(m, L))
  }

  // ------------------------------------------------------- all the layers' buffers

  /** Every layer has a buffer that suits it, with room for `n` positions. */
  ghost predicate MemOk(m: Model, mem: seq<Buf>, n: nat)
  {
    |mem| == |m.layers| && forall L :: 0 <= L < |mem| ==> BufOk(m.layers[L], mem[L], n)
  }

  /** There is a KV cache: no attention layer works from scratch memory. */
  ghost predicate Cached(mem: seq<Buf>)
  {
    forall L :: 0 <= L < |mem| ==> !mem[L].NoBuf?
  }

  ghost predicate KeepsAll(mem: seq<Buf>, mem': seq<Buf>, n: nat)
  {
    |mem| == |mem'| && forall L :: 0 <= L < |mem| ==> Keeps(mem[L], mem'[L], n)
  }

  /** What the layers carry when `n` positions are occupied. */
  ghost function Carries(m: Model, mem: seq<Buf>, n: nat): (cs: seq<Carry>)
    requires MemOk(m, mem, n)
    ensures |cs| == |m.layers|
    ensures forall L :: 0 <= L < |m.layers| ==> cs[L] == CarryOf(m.layers[L], mem[L], n)
  {
    seq(|m.layers|, L requires 0 <= L < |m.layers| => CarryOf(m.layers[L], mem[L], n))
  }

  // ------------------------------------------------------------- residual blocks

  /** Residual blocks opened by the first `L` layers. */
  function Blocks(m: Model, L: nat): nat
    requires L <= |m.layers|
  {
    if L == 0 then 0 else Blocks(m, L - 1) + if m.layers[L - 1].boundary then 1 else 0
  }

  /** How many that is. */
  lemma {:induction false} BlocksFit(m: Model, L: nat)
    requires ValidModel(m) && L <= |m.layers|
    ensures L > 0 ==> Blocks(m, L) == (L - 1) / m.block + 1
    decreases L
  {
    if L > 1 {
      BlocksFit(m, L - 1);
      DivStep(L - 1, m.block);
    } else if L == 1 {
      DivUnique(0, m.block, 0, 0);
      assert Blocks(m, 0) == 0;
    }
  }

  function MaxBlocks(m: Model): nat
    requires m.block > 0
  {
    |m.layers| / m.block + 2
  }

  /** The per-token block stack never outgrows its n_layers/block + 2 rows. */
  lemma RoomForBlock(m: Model, L: nat)
    requires ValidModel(m) && L < |m.layers|
    ensures Blocks(m, L) < MaxBlocks(m)
  {
    BlocksFit(m, L);
    if L > 0 { DivMonotone(L - 1, |m.layers|, m.block); }
  }

  // ------------------------------------------------------------- the sweep in memory

  /** Layer `i` did its part: it turned the batch `before` into `after` and its buffer from
      `b` (with `cached` positions occupied) into `b'` (with `end`). */
  ghost predicate Did(A: Arith<Scalar>, w: LayerW, b: Buf, b': Buf, cached: nat, end: nat, before: seq<Tok>,
      after: seq<Tok>)
  {
    && BufOk(w, b, cached) && BufOk(w, b', end)
    && after == Outs(LayerM(A, w), CarryOf(w, b, cached), before)
    && (!b.NoBuf? ==> CarryOf(w, b', end) == After(LayerM(A, w), CarryOf(w, b, cached), before))
  }

  /** The batch as it stood before and after each of the first |trail| - 1 layers. */
  ghost predicate Trail(A: Arith<Scalar>, m: Model, mem0: seq<Buf>, mem: seq<Buf>, cached: nat, end: nat,
      trail: seq<seq<Tok>>)
  {
    && |mem0| == |mem| == |m.layers| && 0 < |trail| <= |m.layers| + 1
    && forall i :: 0 <= i < |trail| - 1 ==> Did(A, m.layers[i], mem0[i], mem[i], cached, end, trail[i], trail[i + 1])
  }

  lemma {:induction false} TrailIsSweep(A: Arith<Scalar>, m: Model, mem0: seq<Buf>, mem: seq<Buf>, cached: nat,
      end: nat, trail: seq<seq<Tok>>, n: nat)
    requires MemOk(m, mem0, cached) && Trail(A, m, mem0, mem, cached, end, trail) && n < |trail|
    ensures trail[n] == Sweep(Layers(A, m), Carries(m, mem0, cached), trail[0], n)
  {
    var ms, cs := Layers(A, m), Carries(m, mem0, cached);
    forall i | 0 <= i < |trail| - 1 ensures Climbs(ms, cs, trail, i) {
      assert Did(A, m.layers[i], mem0[i], mem[i], cached, end, trail[i], trail[i + 1]);
    }
    ClimbIsSweep(ms, cs, trail, n);
  }

  ghost predicate Climbs<S(!new), K(!new)>(ms: seq<Mealy<S, K, K>>, cs: seq<S>, trail: seq<seq<K>>, i: nat)
    requires i < |ms| == |cs| && i + 1 < |trail|
  {
    trail[i + 1] == Outs(ms[i], cs[i], trail[i])
  }

  lemma {:induction false} ClimbIsSweep<S(!new), K(!new)>(ms: seq<Mealy<S, K, K>>, cs: seq<S>, trail: seq<seq<K>>,
      n: nat)
    requires |ms| == |cs| && n < |trail| <= |ms| + 1 && forall i :: 0 <= i < |trail| - 1 ==> Climbs(ms, cs, trail, i)
    ensures trail[n] == Sweep(ms, cs, trail[0], n)
    decreases n
  {
    if n > 0 {
      ClimbIsSweep(ms, cs, trail, n - 1);
      assert Climbs(ms, cs, trail, n - 1);
    }
  }

  /** The layers in order, each layer's weights first brought in (which may fail). */
  method SweepAll(A: Arith<Scalar>, m: Model, h: array<Vec>, br: array2<Vec>, mem0: seq<Buf>, cached: nat,
                  src: Moe.Source, streamed: bool, noBatch: bool)
    returns (ok: bool, nb: nat, mem: seq<Buf>, ghost trail: seq<seq<Tok>>)
    requires ValidModel(m) && h as object != br && src as object != h && src as object != br
    requires h.Length == br.Length0 && br.Length1 == MaxBlocks(m)
    requires MemOk(m, mem0, cached) && MemOk(m, mem0, cached + h.Length)
    modifies h, br, src
    ensures src.drops >= old(src.drops) && nb <= br.Length1
    ensures KeepsAll(mem0, mem, cached) && MemOk(m, mem, cached + h.Length)
    ensures ok && src.drops == old(src.drops) ==>
              && Trail(A, m, mem0, mem, cached, cached + h.Length, trail) && |trail| == |m.layers| + 1
              && trail[0] == old(Toks(h, br, 0)) && trail[|m.layers|] == Toks(h, br, nb)
  {
    nb, mem, trail := 0, mem0, [Toks(h, br, 0)];
    for L := 0 to |m.layers|
      invariant src.drops >= old(src.drops) && nb == Blocks(m, L) <= MaxBlocks(m)
      invariant KeepsAll(mem0, mem, cached) && MemOk(m, mem, cached + h.Length)
      invariant forall i :: L <= i < |mem| ==> mem[i] == mem0[i]
      invariant |trail| == L + 1 && trail[0] == old(Toks(h, br, 0)) && trail[L] == Toks(h, br, nb)
      invariant src.drops == old(src.drops) ==> Trail(A, m, mem0, mem, cached, cached + h.Length, trail)
    {
      var bound: bool := *;
      if !bound { return false, nb, mem, trail; }
      RoomForBlock(m, L);
      var b;
      nb, b := DecoderLayer(A, m.layers[L], h, br, nb, mem[L], cached, src, streamed, noBatch);
      trail := trail + [Toks(h, br, nb)];
      mem := mem[L := b];
    }
    ok := true;
  }

  /** Clears the recurrent state of every KDA layer, as the full-recompute path does first. */
  method ClearStates(m: Model, mem: seq<Buf>) returns (mem': seq<Buf>)
    requires ValidModel(m) && |mem| == |m.layers|
    ensures |mem'| == |mem|
    ensures forall L :: 0 <= L < |mem| ==> mem'[L] == if m.layers[L].attn.KdaA? then KdaBuf(m.kdaZero(L)) else mem[L]
  {
    mem' := mem;
    for L := 0 to |mem|
      invariant |mem'| == |mem|
      invariant forall i :: 0 <= i < |mem| ==>
                  mem'[i] == if i < L && m.layers[i].attn.KdaA? then KdaBuf(m.kdaZero(i)) else mem[i]
    {
      if m.layers[L].attn.KdaA? { mem' := mem'[L := KdaBuf(m.kdaZero(L))]; }
    }
  }

  /** Final aggregation, norm, output head and arg max for every position. */
  method Predict(m: Model, h: array<Vec>, br: array2<Vec>, nb: nat) returns (arg: seq<Token>)
    requires h.Length == br.Length0 && nb <= br.Length1
    ensures |arg| == h.Length
    ensures forall t :: 0 <= t < h.Length ==> arg[t] == Finish(m)(0, Toks(h, br, nb)[t])
  {
    arg := [];
    for t := 0 to h.Length
      invariant |arg| == t
      invariant forall u :: 0 <= u < t ==> arg[u] == Finish(m)(0, Toks(h, br, nb)[u])
    {
      var src := [];
      for b := 0 to nb
        invariant src == StackOf(br, nb, t)[..b]
      {
        src := src + [br[t, b]];
      }
      assert src == StackOf(br, nb, t);
      arg := arg + [m.pick(m.finalAgg(src + [h[t]]))];
    }
  }

  lemma {:induction false} FinishedOuts(A: Arith<Scalar>, m: Model, ids: seq<Token>, mem0: seq<Buf>, mem: seq<Buf>,
                                        cached: nat, end: nat, trail: seq<seq<Tok>>, arg: seq<Token>)
    requires MemOk(m, mem0, cached) && Trail(A, m, mem0, mem, cached, end, trail) && |trail| == |m.layers| + 1
    requires trail[0] == Map(Start(m), ids) && |trail[|m.layers|]| == |ids| == |arg|
    requires forall t :: 0 <= t < |ids| ==> arg[t] == Finish(m)(0, trail[|m.layers|][t])
    ensures arg == Outs(ModelM(A, m), Carries(m, mem0, cached), ids)
  {
    TrailIsSweep(A, m, mem0, mem, cached, end, trail, |m.layers|);
    SweepWrapped(Start(m), Layers(A, m), Finish(m), Carries(m, mem0, cached), ids);
  }

  lemma {:induction false} FinishedCarries(A: Arith<Scalar>, m: Model, ids: seq<Token>, mem0: seq<Buf>, mem: seq<Buf>,
                                           cached: nat, end: nat, trail: seq<seq<Tok>>)
    requires MemOk(m, mem0, cached) && MemOk(m, mem, end) && Cached(mem0)
    requires Trail(A, m, mem0, mem, cached, end, trail) && |trail| == |m.layers| + 1
    requires trail[0] == Map(Start(m), ids)
    ensures Carries(m, mem, end) == After(ModelM(A, m), Carries(m, mem0, cached), ids)
  {
    var ms, cs := Layers(A, m), Carries(m, mem0, cached);
    SweepWrapped(Start(m), ms, Finish(m), cs, ids);
    var a, b := Carries(m, mem, end), After(ModelM(A, m), cs, ids);
    forall i | 0 <= i < |m.layers| ensures a[i] == b[i] {
      TrailIsSweep(A, m, mem0, mem, cached, end, trail, i);
      assert Did(A, m.layers[i], mem0[i], mem[i], cached, end, trail[i], trail[i + 1]);
      assert b[i] == After(ms[i], cs[i], Sweep(ms, cs, Map(Start(m), ids), i));
    }
  }

  /** A pass was exact: its predictions are the serial run's at every position, and so is
      the state it leaves when there is a cache to leave it in. */
  ghost predicate Exact(M: Mealy<seq<Carry>, Token, Token>, m: Model, ids: seq<Token>, mem: seq<Buf>, cached: nat,
                        arg: seq<Token>, mem': seq<Buf>, end: nat)
  {
    && MemOk(m, mem, cached) && MemOk(m, mem', end)
    && arg == Outs(M, Carries(m, mem, cached), ids)
    && (Cached(mem) ==> Carries(m, mem', end) == After(M, Carries(m, mem, cached), ids))
  }

  predicate Key(k: nat) { true }

  /** `M` is the model's machine and `s0` its initial state. The fact sits under a quantifier
      so that reasoning about the decode loop does not look inside the model unless asked. */
  ghost predicate Wired(A: Arith<Scalar>, m: Model, M: Mealy<seq<Carry>, Token, Token>, s0: seq<Carry>)
  {
    forall k: nat {:trigger Key(k)} :: Key(k) ==> M == ModelM(A, m) && s0 == Init(m)
  }

  lemma {:induction false} Finished(A: Arith<Scalar>, m: Model, ids: seq<Token>, mem0: seq<Buf>, mem: seq<Buf>,
                                    cached: nat, end: nat, trail: seq<seq<Tok>>, arg: seq<Token>)
    requires MemOk(m, mem0, cached) && MemOk(m, mem, end)
    requires Trail(A, m, mem0, mem, cached, end, trail) && |trail| == |m.layers| + 1
    requires trail[0] == Map(Start(m), ids) && |trail[|m.layers|]| == |ids| == |arg|
    requires forall t :: 0 <= t < |ids| ==> arg[t] == Finish(m)(0, trail[|m.layers|][t])
    ensures Exact(ModelM(A, m), m, ids, mem0, cached, arg, mem, end)
  {
    FinishedOuts(A, m, ids, mem0, mem, cached, end, trail, arg);
    if Cached(mem0) { FinishedCarries(A, m, ids, mem0, mem, cached, end, trail); }
  }

  /** The batch's rows before the first layer, with empty block stacks. */
  method EmbedRows(m: Model, ids: seq<Token>) returns (h: array<Vec>, br: array2<Vec>)
    requires m.block > 0
    ensures fresh(h) && fresh(br) && h as object != br
    ensures h.Length == br.Length0 == |ids| && br.Length1 == MaxBlocks(m)
    ensures Toks(h, br, 0) == Map(Start(m), ids)
  {
    h := new Vec[|ids|](t requires 0 <= t < |ids| => m.embed(ids[t]));
    br := new Vec[|ids|, MaxBlocks(m)];
  }

  /** Embed, sweep the layers, predict. */
  method Layered(A: Arith<Scalar>, m: Model, ids: seq<Token>, mem: seq<Buf>, cached: nat,
                 src: Moe.Source, streamed: bool, noBatch: bool)
    returns (ok: bool, arg: seq<Token>, mem': seq<Buf>, ghost trail: seq<seq<Tok>>)
    requires ValidModel(m) && MemOk(m, mem, cached) && MemOk(m, mem, cached + |ids|)
    modifies src
    ensures src.drops >= old(src.drops)
    ensures KeepsAll(mem, mem', cached) && MemOk(m, mem', cached + |ids|)
    ensures ok ==> |arg| == |ids|
    ensures ok && src.drops == old(src.drops) ==>
              && Trail(A, m, mem, mem', cached, cached + |ids|, trail) && |trail| == |m.layers| + 1
              && trail[0] == Map(Start(m), ids) && |trail[|m.layers|]| == |ids|
              && forall t :: 0 <= t < |ids| ==> arg[t] == Finish(m)(0, trail[|m.layers|][t])
  {
    var h, br := EmbedRows(m, ids);
    var nb;
    ok, nb, mem', trail := SweepAll(A, m, h, br, mem, cached, src, streamed, noBatch);
    arg := [];
    if ok {
      arg := Predict(m, h, br, nb);
    }
  }

  /** The batched pass over `ids` after `cached` earlier positions. It may fail while bringing
      a layer's weights in (`ok` false); otherwise, with no expert dropped, `arg[t]` is the
      model's greedy next token after position t and the buffers carry a serial run's state. */
  method Pass(A: Arith<Scalar>, m: Model, ghost M: Mealy<seq<Carry>, Token, Token>, ghost s0: seq<Carry>,
      ids: seq<Token>, mem: seq<Buf>, cached: nat, src: Moe.Source, streamed: bool, noBatch: bool)
    returns (ok: bool, arg: seq<Token>, mem': seq<Buf>)
    requires ValidModel(m) && Wired(A, m, M, s0) && MemOk(m, mem, cached) && MemOk(m, mem, cached + |ids|)
    modifies src
    ensures src.drops >= old(src.drops)
    ensures KeepsAll(mem, mem', cached) && MemOk(m, mem', cached + |ids|)
    ensures ok ==> |arg| == |ids|
    ensures ok && src.drops == old(src.drops) ==> Exact(M, m, ids, mem, cached, arg, mem', cached + |ids|)
  {
    assert Key(0);
    ghost var trail;
    ok, arg, mem', trail := Layered(A, m, ids, mem, cached, src, streamed, noBatch);
    if ok && src.drops == old(src.drops) {
      Finished(A, m, ids, mem, mem', cached, cached + |ids|, trail, arg);
    }
  }
}
