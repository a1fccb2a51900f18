/** What runs through the layers, src/core/k3_ops.c:945-1014 and src/cli/k3_run.c:533-552: the embedding and
    the outputs of all sublayers, summed block by block. */
module Residual {
  import opened Numerics
  import opened Machines
  import opened Layer
  import opened Forward
  import Ints

  // ------------------------------------------------------- sums of sublayer outputs

  /** Added up from the first on. */
  function SumUp(add: (Vec, Vec) -> Vec, vs: seq<Vec>): Vec
    requires vs != []
  {
    if |vs| == 1 then vs[0] else add(SumUp(add, vs[..|vs| - 1]), vs[|vs| - 1])
  }

  /** `width` outputs at a time; the last group may be short. */
  function Groups(outs: seq<Vec>, width: nat): (r: seq<seq<Vec>>)
    requires width > 0
    ensures forall i :: 0 <= i < |r| ==> r[i] != []
    ensures r == [] <==> outs == []
  {
    if outs == [] then [] else if |outs| <= width then [outs] else [outs[..width]] + Groups(outs[width..], width)
  }

  function Sums(add: (Vec, Vec) -> Vec, gs: seq<seq<Vec>>): (r: seq<Vec>)
    requires forall i :: 0 <= i < |gs| ==> gs[i] != []
    ensures |r| == |gs|
  {
    seq(|gs|, i requires 0 <= i < |gs| => SumUp(add, gs[i]))
  }

  /** The rows an aggregation sees: the embedding, then one sum for every block so far. */
  function Sources(add: (Vec, Vec) -> Vec, e: Vec, outs: seq<Vec>, width: nat): seq<Vec>
    requires width > 0
  {
    [e] + Sums(add, Groups(outs, width))
  }

  /** The outputs of the first `L` layers for one token: each layer's attention and then its MLP,
      both fed from the sums so far. The first layer's attention is fed the embedding itself. */
  function SubOuts(A: Arith<Scalar>, m: Model, add: (Vec, Vec) -> Vec, cs: seq<Carry>, e: Vec, L: nat): (r: seq<Vec>)
    requires m.block > 0 && L <= |m.layers| == |cs|
    ensures |r| == 2 * L
  {
    if L == 0 then []
    else TwoMore(A, m, add, m.layers[L - 1], cs[L - 1], e, SubOuts(A, m, add, cs, e, L - 1))
  }

  /** The outputs after one more layer. */
  function TwoMore(A: Arith<Scalar>, m: Model, add: (Vec, Vec) -> Vec, w: LayerW, c: Carry, e: Vec, o: seq<Vec>)
    : (r: seq<Vec>)
    requires m.block > 0
    ensures |r| == |o| + 2
  {
    var a := AttnM(A, w).out(c, Fed(m, add, w, e, o));
    o + [a] + [MlpOf(A, w)(MlpFed(m, add, w, e, o + [a]))]
  }

  function Fed(m: Model, add: (Vec, Vec) -> Vec, w: LayerW, e: Vec, o: seq<Vec>): Vec
    requires m.block > 0
  {
    w.inNorm(if o == [] then e else w.aggAttn(Sources(add, e, o, 2 * m.block)))
  }

  function MlpFed(m: Model, add: (Vec, Vec) -> Vec, w: LayerW, e: Vec, o: seq<Vec>): Vec
    requires m.block > 0
  {
    w.postNorm(w.aggMlp(Sources(add, e, o, 2 * m.block)))
  }

  // ------------------------------------------------------------------------ one more

  lemma {:induction false} GroupsMore(outs: seq<Vec>, width: nat, x: Vec)
    requires width > 0
    ensures |outs| % width == 0 ==> Groups(outs + [x], width) == Groups(outs, width) + [[x]]
    ensures |outs| % width != 0 ==> outs != []
    ensures |outs| % width != 0 ==>
      var g := Groups(outs, width); Groups(outs + [x], width) == g[..|g| - 1] + [g[|g| - 1] + [x]]
    decreases |outs|
  {
    if |outs| > width {
      Ints.DivUnique(|outs|, width, (|outs| - width) / width + 1, (|outs| - width) % width) by {
        assert ((|outs| - width) / width + 1) * width == (|outs| - width) / width * width + width;
      }
      GroupsMore(outs[width..], width, x);
      assert (outs + [x])[..width] == outs[..width] && (outs + [x])[width..] == outs[width..] + [x];
    } else if |outs| == width {
      Ints.DivUnique(width, width, 1, 0);
      assert (outs + [x])[..width] == outs && (outs + [x])[width..] == [x];
    } else if outs != [] {
      Ints.DivUnique(|outs|, width, 0, |outs|);
    } else {
      Ints.DivUnique(0, width, 0, 0);
      assert outs + [x] == [x];
    }
  }

  lemma {:induction false} SumMore(add: (Vec, Vec) -> Vec, vs: seq<Vec>, x: Vec)
    requires vs != []
    ensures SumUp(add, vs + [x]) == add(SumUp(add, vs), x)
  {
    assert (vs + [x])[..|vs + [x]| - 1] == vs;
  }

  /** One more output opens a block when the last is full, and is added to it when it is not. */
  lemma {:induction false} SourcesMore(add: (Vec, Vec) -> Vec, e: Vec, outs: seq<Vec>, width: nat, x: Vec)
    requires width > 0
    ensures var s, s' := Sources(add, e, outs, width), Sources(add, e, outs + [x], width);
      if |outs| % width == 0 then s' == s + [x] else s' == s[..|s| - 1] + [add(s[|s| - 1], x)]
    ensures outs != [] ==> |Sources(add, e, outs, width)| >= 2
  {
    GroupsMore(outs, width, x);
    var g := Groups(outs, width);
    if |outs| % width == 0 {
      assert Sums(add, g + [[x]]) == Sums(add, g) + [x];
    } else {
      var last := g[|g| - 1];
      SumMore(add, last, x);
      assert Sums(add, g[..|g| - 1] + [last + [x]]) == Sums(add, g)[..|g| - 1] + [add(SumUp(add, last), x)];
    }
  }

  // ---------------------------------------------------------------------- the layers

  /** All layers add rows in the same way. */
  ghost predicate OneAdd(m: Model, add: (Vec, Vec) -> Vec)
  {
    forall L :: 0 <= L < |m.layers| ==> m.layers[L].add == add
  }

  /** Two outputs a layer: a block is full exactly before a boundary layer, and never between a
      layer's two halves. */
  lemma {:induction false} Boundary(block: nat, L: nat, n: nat, width: nat)
    requires block > 0 && n == 2 * L && width == 2 * block
    ensures n % width == 0 <==> L % block == 0
    ensures (n + 1) % width != 0
  {
    var q, r := L / block, L % block;
    assert L == q * block + r;
    assert 2 * L == q * width + 2 * r;
    Ints.DivUnique(n, width, q, 2 * r);
    Ints.DivUnique(n + 1, width, q, 2 * r + 1);
  }

  /** A token's stack and running row, in order. */
  function Held(k: Tok): seq<Vec> { k.stack + [k.h] }

  ghost predicate Carries(k: Tok, s: seq<Vec>) { Held(k) == s }

  lemma {:induction false} HeldSplit(k: Tok, s: seq<Vec>)
    requires s != [] && Held(k) == s
    ensures k.h == s[|s| - 1] && k.stack == s[..|s| - 1]
  {
  }

  /** What a layer makes of a token, given its attention's output. */
  lemma {:induction false} LayerOut(A: Arith<Scalar>, w: LayerW, c: Carry, k: Tok, a: Vec)
    requires a == AttnM(A, w).out(c, AttnIn(w)(k))
    ensures LayerM(A, w).out(c, k) == Tok(w.add(Resid(w, k, a), MlpOf(A, w)(MlpIn(w, k, a))), Stack(w, k))
  {
    assert LayerM(A, w).out(c, k) == AfterAttn(A, w)(k, a);
  }

  /** One layer's attention, from any outputs before it: what it is fed, and what it adds. */
  lemma {:induction false} HalfStream(m: Model, w: LayerW, e: Vec, o: seq<Vec>, k: Tok, a: Vec)
    requires m.block > 0 && (w.boundary <==> |o| % (2 * m.block) == 0)
    requires Held(k) == Sources(w.add, e, o, 2 * m.block)
    ensures AttnIn(w)(k) == Fed(m, w.add, w, e, o)
    ensures Stack(w, k) + [Resid(w, k, a)] == Sources(w.add, e, o + [a], 2 * m.block)
  {
    var s := Sources(w.add, e, o, 2 * m.block);
    HeldSplit(k, s);
    SourcesMore(w.add, e, o, 2 * m.block, a);
  }

  /** And its MLP. */
  lemma {:induction false} RestStream(m: Model, w: LayerW, e: Vec, o: seq<Vec>, stack: seq<Vec>, r: Vec, y: Vec)
    requires m.block > 0 && |o| % (2 * m.block) != 0 && stack + [r] == Sources(w.add, e, o, 2 * m.block)
    ensures stack + [w.add(r, y)] == Sources(w.add, e, o + [y], 2 * m.block)
  {
    SourcesMore(w.add, e, o, 2 * m.block, y);
  }

  lemma {:induction false} Opens(m: Model, L: nat, n: nat)
    requires ValidModel(m) && L < |m.layers| && n == 2 * L
    ensures m.layers[L].boundary <==> n % (2 * m.block) == 0
    ensures (n + 1) % (2 * m.block) != 0
  {
    Boundary(m.block, L, n, 2 * m.block);
  }

  /** One layer. */
  lemma {:induction false} LayerStream(A: Arith<Scalar>, m: Model, add: (Vec, Vec) -> Vec, c: Carry, e: Vec,
      o: seq<Vec>, k: Tok, L: nat)
    requires ValidModel(m) && OneAdd(m, add) && L < |m.layers| && |o| == 2 * L
    requires Carries(k, Sources(add, e, o, 2 * m.block))
    ensures Carries(LayerM(A, m.layers[L]).out(c, k),
              Sources(add, e, TwoMore(A, m, add, m.layers[L], c, e, o), 2 * m.block))
  {
    Opens(m, L, |o|);
    OneLayer(A, m, add, m.layers[L], c, e, o, k);
  }

  lemma {:induction false} OneLayer(A: Arith<Scalar>, m: Model, add: (Vec, Vec) -> Vec, w: LayerW, c: Carry, e: Vec,
      o: seq<Vec>, k: Tok)
    requires w.add == add && m.block > 0
    requires (w.boundary <==> |o| % (2 * m.block) == 0) && (|o| + 1) % (2 * m.block) != 0
    requires Carries(k, Sources(add, e, o, 2 * m.block))
    ensures Carries(LayerM(A, w).out(c, k), Sources(add, e, TwoMore(A, m, add, w, c, e, o), 2 * m.block))
  {
    var a := AttnM(A, w).out(c, Fed(m, add, w, e, o));
    var y := MlpOf(A, w)(MlpFed(m, add, w, e, o + [a]));
    HalfStream(m, w, e, o, k, a);
    LayerOut(A, w, c, k, a);
    RestStream(m, w, e, o + [a], Stack(w, k), Resid(w, k, a), y);
  }

  lemma {:induction false} ClimbOne(A: Arith<Scalar>, m: Model, cs: seq<Carry>, k: Tok, L: nat)
    requires L < |m.layers| == |cs|
    ensures Climb(Layers(A, m), cs, k, L + 1) ==
      LayerM(A, m.layers[L]).out(cs[L], Climb(Layers(A, m), cs, k, L))
  {
    assert Layers(A, m)[L] == LayerM(A, m.layers[L]);
  }

  /** Up to layer `L` a token carries the sums of the outputs. */
  ghost predicate Streams(A: Arith<Scalar>, m: Model, add: (Vec, Vec) -> Vec, cs: seq<Carry>, k: Tok, L: nat)
    requires m.block > 0 && L <= |m.layers| == |cs|
  {
    Carries(Climb(Layers(A, m), cs, k, L), Sources(add, k.h, SubOuts(A, m, add, cs, k.h, L), 2 * m.block))
  }

  lemma {:induction false} StreamStep(A: Arith<Scalar>, m: Model, add: (Vec, Vec) -> Vec, cs: seq<Carry>, k: Tok,
      L: nat, j: Tok, j': Tok, o: seq<Vec>, o': seq<Vec>)
    requires ValidModel(m) && OneAdd(m, add) && L < |m.layers| == |cs| && |o| == 2 * L
    requires j' == LayerM(A, m.layers[L]).out(cs[L], j) && o' == TwoMore(A, m, add, m.layers[L], cs[L], k.h, o)
    requires Carries(j, Sources(add, k.h, o, 2 * m.block))
    ensures Carries(j', Sources(add, k.h, o', 2 * m.block))
  {
    LayerStream(A, m, add, cs[L], k.h, o, j, L);
  }

  lemma {:induction false} OutsOne(A: Arith<Scalar>, m: Model, add: (Vec, Vec) -> Vec, cs: seq<Carry>, e: Vec, L: nat)
    requires m.block > 0 && L < |m.layers| == |cs|
    ensures SubOuts(A, m, add, cs, e, L + 1) ==
      TwoMore(A, m, add, m.layers[L], cs[L], e, SubOuts(A, m, add, cs, e, L))
  {
  }

  lemma {:induction false} NoOutputs(A: Arith<Scalar>, m: Model, add: (Vec, Vec) -> Vec, cs: seq<Carry>, k: Tok)
    requires m.block > 0 && |m.layers| == |cs| && k.stack == []
    ensures Streams(A, m, add, cs, k, 0)
  {
    assert SubOuts(A, m, add, cs, k.h, 0) == [];
    assert Sources(add, k.h, [], 2 * m.block) == [k.h];
    assert Climb(Layers(A, m), cs, k, 0) == k;
  }

  lemma {:induction false} StreamOne(A: Arith<Scalar>, m: Model, add: (Vec, Vec) -> Vec, cs: seq<Carry>, k: Tok,
      L: nat, L': nat)
    requires ValidModel(m) && OneAdd(m, add) && L' == L + 1 <= |m.layers| == |cs| && Streams(A, m, add, cs, k, L)
    ensures Streams(A, m, add, cs, k, L')
  {
    ClimbOne(A, m, cs, k, L);
    OutsOne(A, m, add, cs, k.h, L);
    StreamStep(A, m, add, cs, k, L, Climb(Layers(A, m), cs, k, L), Climb(Layers(A, m), cs, k, L'),
      SubOuts(A, m, add, cs, k.h, L), SubOuts(A, m, add, cs, k.h, L'));
  }

  /** Before layer `L` a token's stack and running row are the embedding and the sums of the outputs
      so far, block by block. */
  lemma {:induction false} Stream(A: Arith<Scalar>, m: Model, add: (Vec, Vec) -> Vec, cs: seq<Carry>, k: Tok, L: nat)
    requires ValidModel(m) && OneAdd(m, add) && L <= |m.layers| == |cs| && k.stack == []
    ensures Streams(A, m, add, cs, k, L)
    decreases L
  {
    if L == 0 {
      NoOutputs(A, m, add, cs, k);
    } else {
      var j: nat := L - 1;
      Stream(A, m, add, cs, k, j);
      StreamOne(A, m, add, cs, k, j, L);
    }
  }

  /** The prediction is picked from the embedding and all the block sums. */
  lemma {:induction false} Predicted(A: Arith<Scalar>, m: Model, add: (Vec, Vec) -> Vec, cs: seq<Carry>, id: Token)
    requires ValidModel(m) && OneAdd(m, add) && |cs| == |m.layers|
    ensures var outs := SubOuts(A, m, add, cs, m.embed(id), |m.layers|);
      ModelM(A, m).out(cs, id) == m.pick(m.finalAgg(Sources(add, m.embed(id), outs, 2 * m.block)))
  {
    Stream(A, m, add, cs, Start(m)(id), |m.layers|);
  }

  /** And each layer carries on from what its attention was fed. */
  lemma {:induction false} CarriedOn(A: Arith<Scalar>, m: Model, add: (Vec, Vec) -> Vec, cs: seq<Carry>, id: Token,
      L: nat)
    requires ValidModel(m) && OneAdd(m, add) && L < |m.layers| == |cs|
    ensures |ModelM(A, m).next(cs, id)| == |cs|
    ensures var w, o := m.layers[L], SubOuts(A, m, add, cs, m.embed(id), L);
      ModelM(A, m).next(cs, id)[L] == AttnM(A, w).next(cs[L], Fed(m, add, w, m.embed(id), o))
  {
    var w, e := m.layers[L], m.embed(id);
    var k, o := Climb(Layers(A, m), cs, Start(m)(id), L), SubOuts(A, m, add, cs, e, L);
    Stream(A, m, add, cs, Start(m)(id), L);
    var s := Sources(add, e, o, 2 * m.block);
    HeldSplit(k, s);
    SourcesMore(add, e, o, 2 * m.block, e);
    assert AttnIn(w)(k) == Fed(m, add, w, e, o);
  }

  // -------------------------------------------------------------------- conservation

  function Total(v: Vec -> real, vs: seq<Vec>): real
  {
    if vs == [] then 0.0 else Total(v, vs[..|vs| - 1]) + v(vs[|vs| - 1])
  }

  ghost predicate Adds(v: Vec -> real, add: (Vec, Vec) -> Vec, x: Vec, y: Vec) { v(add(x, y)) == v(x) + v(y) }

  /** `v` measures rows so that the measure of a sum is the sum of the measures. */
  ghost predicate Additive(v: Vec -> real, add: (Vec, Vec) -> Vec) { forall x, y :: Adds(v, add, x, y) }

  lemma {:induction false} TotalOne(v: Vec -> real, vs: seq<Vec>, x: Vec)
    ensures Total(v, vs + [x]) == Total(v, vs) + v(x)
  {
    assert (vs + [x])[..|vs + [x]| - 1] == vs;
  }

  /** A layer creates and loses nothing, at a block boundary or not: what a token holds after it is
      what it held before, its attention's output and its MLP's output, each once. The MLP is fed
      from what the token holds by then. */
  lemma {:induction false} LayerConserves(A: Arith<Scalar>, w: LayerW, c: Carry, k: Tok, v: Vec -> real)
    returns (a: Vec, y: Vec, src: seq<Vec>)
    requires Additive(v, w.add)
    ensures a == AttnM(A, w).out(c, w.inNorm(if k.stack == [] then k.h else w.aggAttn(k.stack + [k.h])))
    ensures y == MlpOf(A, w)(w.postNorm(w.aggMlp(src)))
    ensures Total(v, src) == Total(v, k.stack) + v(k.h) + v(a)
    ensures var k' := LayerM(A, w).out(c, k);
      && |src| == |k'.stack| + 1 && src[..|k'.stack|] == k'.stack && k.stack <= k'.stack
      && v(k'.h) + Total(v, k'.stack) == v(k.h) + Total(v, k.stack) + v(a) + v(y)
  {
    a := AttnM(A, w).out(c, AttnIn(w)(k));
    src := Stack(w, k) + [Resid(w, k, a)];
    y := MlpOf(A, w)(MlpIn(w, k, a));
    assert LayerM(A, w).out(c, k) == AfterAttn(A, w)(k, a);
    assert Adds(v, w.add, k.h, a) && Adds(v, w.add, Resid(w, k, a), y);
    TotalOne(v, k.stack, k.h);
    TotalOne(v, Stack(w, k), Resid(w, k, a));
  }

  lemma {:induction false} SourcesConserve(v: Vec -> real, add: (Vec, Vec) -> Vec, e: Vec, outs: seq<Vec>, width: nat)
    requires width > 0 && Additive(v, add)
    ensures Total(v, Sources(add, e, outs, width)) == v(e) + Total(v, outs)
    decreases |outs|
  {
    if outs == [] {
      assert Sources(add, e, outs, width) == [] + [e];
      TotalOne(v, [], e);
    } else {
      var o, x := outs[..|outs| - 1], outs[|outs| - 1];
      assert outs == o + [x];
      SourcesConserve(v, add, e, o, width);
      SourcesMore(add, e, o, width, x);
      var s := Sources(add, e, o, width);
      TotalOne(v, s, x);
      TotalOne(v, s[..|s| - 1], add(s[|s| - 1], x));
      assert Adds(v, add, s[|s| - 1], x);
    }
  }

  /** Over the whole tower: the last row and its stack are the embedding and every sublayer output,
      each once. */
  lemma {:induction false} TowerConserves(A: Arith<Scalar>, m: Model, add: (Vec, Vec) -> Vec, cs: seq<Carry>, id: Token,
      L: nat, v: Vec -> real)
    requires ValidModel(m) && OneAdd(m, add) && L <= |m.layers| == |cs| && Additive(v, add)
    ensures var k := Climb(Layers(A, m), cs, Start(m)(id), L);
      Total(v, k.stack) + v(k.h) == v(m.embed(id)) + Total(v, SubOuts(A, m, add, cs, m.embed(id), L))
  {
    var k := Climb(Layers(A, m), cs, Start(m)(id), L);
    Stream(A, m, add, cs, Start(m)(id), L);
    SourcesConserve(v, add, m.embed(id), SubOuts(A, m, add, cs, m.embed(id), L), 2 * m.block);
    TotalOne(v, k.stack, k.h);
  }
}
