/** The latent mixture of experts: routing, the per-token path and the batched prefill path
    with streamed experts, src/core/k3_ops.c:393-456, 534-634, 667-786. */
module Moe {
  import opened Numerics
  import opened Wrappers
  import Machines

  type Latent(0, !new)   // one token's row in the experts' latent space
  type Expert(0, !new)   // one routed expert's packed weights
  type Total(0, !new)    // the accumulator routing weights are summed in

  datatype MoeW = MoeW(
    experts: nat,
    topk: nat,
    score: (Vec, nat) -> Scalar,               // an expert's own sigmoid score
    choice: (Vec, nat) -> Scalar,              // the biased score used for selection only
    renorm: bool,                              // divide the weights by their sum
    none: Total,
    plus: (Total, Scalar) -> Total,
    inverse: Total -> Scalar,                  // one over the sum, kept off zero
    scale: Scalar,                             // applied to every weight last
    down: Vec -> Latent,
    expert: nat -> Expert,                     // what the checkpoint holds
    apply: (Expert, Latent) -> Latent,
    latZero: Latent,
    axpy: (Latent, Scalar, Latent) -> Latent,  // acc + w * contribution
    tail: (Vec, Latent) -> Vec)                // norm, up-projection, shared expert

  // -------------------------------------------------------------------- routing

  /** First index of the strictly greatest entry among the first `n`, or none when nothing
      exceeds minus infinity (every score already taken, or not a number). */
  function Best(A: Arith<Scalar>, ch: seq<Scalar>, n: nat): (r: (int, Scalar))
    requires n <= |ch|
    ensures -1 <= r.0 < n
  {
    if n == 0 then (-1, A.negInf)
    else
      var b := Best(A, ch, n - 1);
      if A.gt(ch[n - 1], b.1) then (n - 1, ch[n - 1]) else b
  }

  /** One selection: the pick, and the scores with it taken out. A slot with nothing left
      to pick names expert 0 with weight zero. */
  function PickOne(A: Arith<Scalar>, w: MoeW, x: Vec, ch: seq<Scalar>): (r: ((nat, Scalar), seq<Scalar>))
    ensures |r.1| == |ch|
    ensures |ch| > 0 ==> r.0.0 < |ch|
  {
    var b := Best(A, ch, |ch|).0;
    if b < 0 then ((0, A.ops.zero), ch) else ((b, w.score(x, b)), ch[b := A.negInf])
  }

  /** The top-k by repeated selection. */
  function Pick(A: Arith<Scalar>, w: MoeW, x: Vec, ch: seq<Scalar>, k: nat): (r: seq<(nat, Scalar)>)
    ensures |r| == k
    decreases k
  {
    if k == 0 then []
    else
      var p := PickOne(A, w, x, ch);
      [p.0] + Pick(A, w, x, p.1, k - 1)
  }

  function Choices(w: MoeW, x: Vec): seq<Scalar>
  {
    seq(w.experts, e requires 0 <= e < w.experts => w.choice(x, e))
  }

  function Picked(A: Arith<Scalar>, w: MoeW, x: Vec): (r: seq<(nat, Scalar)>)
    ensures |r| == w.topk
  {
    Pick(A, w, x, Choices(w, x), w.topk)
  }

  function Index(A: Arith<Scalar>, w: MoeW, x: Vec, j: nat): nat
    requires j < w.topk
  {
    Picked(A, w, x)[j].0
  }

  function RawWeights(A: Arith<Scalar>, w: MoeW, x: Vec): (r: seq<Scalar>)
    ensures |r| == w.topk
  {
    seq(w.topk, j requires 0 <= j < w.topk => Picked(A, w, x)[j].1)
  }

  function Gate(A: Arith<Scalar>, w: MoeW, x: Vec, j: nat): Scalar
    requires j < w.topk
  {
    Reweighed(A, w, RawWeights(A, w, x))[j]
  }

  /** The weights summed in slot order. */
  function SumOf(w: MoeW, raw: seq<Scalar>, n: nat): Total
    requires n <= |raw|
  {
    if n == 0 then w.none else w.plus(SumOf(w, raw, n - 1), raw[n - 1])
  }

  /** A single weight is never renormalised; the scale is applied after. */
  function Reweighed(A: Arith<Scalar>, w: MoeW, raw: seq<Scalar>): (r: seq<Scalar>)
    ensures |r| == |raw|
  {
    var inv := w.inverse(SumOf(w, raw, |raw|));
    seq(|raw|, j requires 0 <= j < |raw| =>
      A.ops.mul(if w.renorm && |raw| > 1 then A.ops.mul(raw[j], inv) else raw[j], w.scale))
  }

  method Reweigh(A: Arith<Scalar>, w: MoeW, raw: seq<Scalar>) returns (wt: seq<Scalar>)
    ensures wt == Reweighed(A, w, raw)
  {
    wt := raw;
    if w.renorm && |raw| > 1 {
      var s := w.none;
      for j := 0 to |raw|
        invariant s == SumOf(w, raw, j)
      {
        s := w.plus(s, raw[j]);
      }
      var inv := w.inverse(s);
      for j := 0 to |raw|
        invariant |wt| == |raw|
        invariant forall k :: 0 <= k < |raw| ==> wt[k] == if k < j then A.ops.mul(raw[k], inv) else raw[k]
      {
        wt := wt[j := A.ops.mul(wt[j], inv)];
      }
    }
    ghost var mid := wt;
    for j := 0 to |raw|
      invariant |wt| == |raw|
      invariant forall k :: 0 <= k < |raw| ==> wt[k] == if k < j then A.ops.mul(mid[k], w.scale) else mid[k]
    {
      wt := wt[j := A.ops.mul(wt[j], w.scale)];
    }
  }

  /** Every routed index names an expert of the model, ties and exhausted scores included. */
  lemma {:induction false} PickInRange(A: Arith<Scalar>, w: MoeW, x: Vec, ch: seq<Scalar>, k: nat)
    requires |ch| == w.experts && w.experts > 0
    ensures forall j :: 0 <= j < k ==> Pick(A, w, x, ch, k)[j].0 < w.experts
    decreases k
  {
    if k > 0 {
      PickInRange(A, w, x, PickOne(A, w, x, ch).1, k - 1);
    }
  }

  method BestLoop(A: Arith<Scalar>, ch: seq<Scalar>) returns (best: int)
    ensures best == Best(A, ch, |ch|).0
  {
    var bv := A.negInf;
    best := -1;
    for e := 0 to |ch|
      invariant (best, bv) == Best(A, ch, e)
    {
      if A.gt(ch[e], bv) { best, bv := e, ch[e]; }
    }
  }

  method SelectOne(A: Arith<Scalar>, w: MoeW, x: Vec, ch: seq<Scalar>) returns (p: (nat, Scalar), ch': seq<Scalar>)
    ensures (p, ch') == PickOne(A, w, x, ch)
  {
    var best := BestLoop(A, ch);
    p, ch' := (0, A.ops.zero), ch;
    if best >= 0 {
      p, ch' := (best, w.score(x, best)), ch[best := A.negInf];    // the unbiased score
    }
  }

  lemma {:induction false} PickStep(A: Arith<Scalar>, w: MoeW, x: Vec, ch: seq<Scalar>, k: nat,
      picks: seq<(nat, Scalar)>, whole: seq<(nat, Scalar)>)
    requires k > 0 && whole == picks + Pick(A, w, x, ch, k)
    ensures var p := PickOne(A, w, x, ch); whole == (picks + [p.0]) + Pick(A, w, x, p.1, k - 1)
  {
  }

  /** The selection loop. */
  method Select(A: Arith<Scalar>, w: MoeW, x: Vec) returns (picks: seq<(nat, Scalar)>)
    ensures picks == Picked(A, w, x)
  {
    var ch := Choices(w, x);
    picks := [];
    for j := 0 to w.topk
      invariant |picks| == j
      invariant Picked(A, w, x) == picks + Pick(A, w, x, ch, w.topk - j)
    {
      var p, ch' := SelectOne(A, w, x, ch);
      PickStep(A, w, x, ch, w.topk - j, picks, Picked(A, w, x));
      picks, ch := picks + [p], ch';
    }
  }

  method Router(A: Arith<Scalar>, w: MoeW, x: Vec) returns (idx: seq<nat>, wt: seq<Scalar>)
    ensures |idx| == |wt| == w.topk
    ensures forall j :: 0 <= j < w.topk ==> idx[j] == Index(A, w, x, j) && wt[j] == Gate(A, w, x, j)
  {
    var picks := Select(A, w, x);
    var raw := seq(w.topk, j requires 0 <= j < w.topk => picks[j].1);
    assert raw == RawWeights(A, w, x);
    idx := seq(w.topk, j requires 0 <= j < w.topk => picks[j].0);
    wt := Reweigh(A, w, raw);
  }

  // ------------------------------------------------- what the selection selects

  /** `a` ranks before `b`: a greater score, or the same score and a smaller index. */
  predicate Before(A: Arith<Scalar>, ch: seq<Scalar>, a: nat, b: nat)
    requires a < |ch| && b < |ch|
  {
    A.gt(ch[a], ch[b]) || (!A.gt(ch[b], ch[a]) && a < b)
  }

  /** Comparison orders the scores, ties allowed, and every score exceeds minus infinity: no
      score is NaN. */
  ghost predicate Ordered(A: Arith<Scalar>, ch: seq<Scalar>)
  {
    && !A.gt(A.negInf, A.negInf)
    && (forall i :: 0 <= i < |ch| ==> A.gt(ch[i], A.negInf) && !A.gt(A.negInf, ch[i]))
    && (forall i, j :: 0 <= i < |ch| && 0 <= j < |ch| && A.gt(ch[i], ch[j]) ==> !A.gt(ch[j], ch[i]))
    && forall i, j, k :: 0 <= i < |ch| && 0 <= j < |ch| && 0 <= k < |ch| ==>
         !A.gt(ch[i], ch[j]) && !A.gt(ch[j], ch[k]) ==> !A.gt(ch[i], ch[k])
  }

  /** The scores with the picks `taken` struck out. */
  ghost predicate Struck(A: Arith<Scalar>, all: seq<Scalar>, ch: seq<Scalar>, taken: set<nat>)
  {
    |ch| == |all| && forall e :: 0 <= e < |all| ==> ch[e] == if e in taken then A.negInf else all[e]
  }

  /** `b` ranks before every other expert below `n` that is still there. */
  ghost predicate First(A: Arith<Scalar>, all: seq<Scalar>, taken: set<nat>, n: nat, b: nat)
    requires n <= |all|
  {
    b < n && b !in taken && forall e :: 0 <= e < n && e !in taken && e != b ==> Before(A, all, b, e)
  }

  lemma {:induction false} NextFirst(A: Arith<Scalar>, all: seq<Scalar>, taken: set<nat>, n: nat, b: nat)
    requires Ordered(A, all) && n < |all| && n !in taken && First(A, all, taken, n, b)
    ensures First(A, all, taken, n + 1, if A.gt(all[n], all[b]) then n else b)
  {
    if A.gt(all[n], all[b]) {
      forall e | 0 <= e < n && e !in taken ensures A.gt(all[n], all[e]) {
        assert e == b || Before(A, all, b, e);
      }
    }
  }

  lemma {:induction false} BestIsFirst(A: Arith<Scalar>, all: seq<Scalar>, ch: seq<Scalar>, taken: set<nat>, n: nat)
    requires Ordered(A, all) && Struck(A, all, ch, taken) && n <= |ch|
    ensures var b := Best(A, ch, n);
      if b.0 < 0 then b.1 == A.negInf && forall e :: 0 <= e < n ==> e in taken
      else b.1 == all[b.0] && First(A, all, taken, n, b.0)
    decreases n
  {
    if n > 0 {
      BestIsFirst(A, all, ch, taken, n - 1);
      var b := Best(A, ch, n - 1);
      if b.0 >= 0 && n - 1 !in taken { NextFirst(A, all, taken, n - 1, b.0); }
    }
  }

  /** Each pick in turn ranks before everything not picked earlier. */
  ghost predicate Ranked(A: Arith<Scalar>, all: seq<Scalar>, idx: seq<nat>, taken: set<nat>)
    decreases |idx|
  {
    idx == [] || (First(A, all, taken, |all|, idx[0]) && Ranked(A, all, idx[1..], taken + {idx[0]}))
  }

  ghost function Numbers(n: nat): (s: set<nat>)
    ensures |s| == n && forall e :: e in s <==> 0 <= e < n
  {
    if n == 0 then {} else Numbers(n - 1) + {n - 1}
  }

  lemma Subset(a: set<nat>, b: set<nat>)
    requires a <= b
    ensures |a| <= |b|
  {
    assert b == a + (b - a);
  }

  lemma {:induction false} SomeLeft(n: nat, taken: set<nat>) returns (e: nat)
    requires |taken| < n
    ensures e < n && e !in taken
  {
    Subset(Numbers(n) * taken, taken);
    var left := Numbers(n) - taken;
    assert |left| == n - |Numbers(n) * taken|;
    e :| e in left;
  }

  function Indices(picks: seq<(nat, Scalar)>): (r: seq<nat>)
    ensures |r| == |picks|
  {
    seq(|picks|, j requires 0 <= j < |picks| => picks[j].0)
  }

  lemma {:induction false} PickOneRanks(A: Arith<Scalar>, w: MoeW, x: Vec, all: seq<Scalar>, ch: seq<Scalar>,
      taken: set<nat>)
    requires Ordered(A, all) && Struck(A, all, ch, taken) && |taken| < |all|
    ensures var p := PickOne(A, w, x, ch);
      First(A, all, taken, |all|, p.0.0) && p.0.1 == w.score(x, p.0.0) && Struck(A, all, p.1, taken + {p.0.0})
  {
    BestIsFirst(A, all, ch, taken, |ch|);
    var e := SomeLeft(|all|, taken);
  }

  lemma {:induction false} PickRanks(A: Arith<Scalar>, w: MoeW, x: Vec, all: seq<Scalar>, ch: seq<Scalar>,
      taken: set<nat>, k: nat)
    requires Ordered(A, all) && Struck(A, all, ch, taken) && |taken| + k <= |all|
    ensures Ranked(A, all, Indices(Pick(A, w, x, ch, k)), taken)
    ensures forall j :: 0 <= j < k ==> Pick(A, w, x, ch, k)[j].1 == w.score(x, Pick(A, w, x, ch, k)[j].0)
    decreases k
  {
    if k > 0 {
      PickOneRanks(A, w, x, all, ch, taken);
      var p := PickOne(A, w, x, ch);
      PickRanks(A, w, x, all, p.1, taken + {p.0.0}, k - 1);
      assert Indices(Pick(A, w, x, ch, k))[1..] == Indices(Pick(A, w, x, p.1, k - 1));
    }
  }

  lemma {:induction false} RankedAll(A: Arith<Scalar>, all: seq<Scalar>, idx: seq<nat>, taken: set<nat>)
    requires Ranked(A, all, idx, taken)
    ensures forall i :: 0 <= i < |idx| ==> idx[i] < |all| && idx[i] !in taken
    ensures forall i, j :: 0 <= i < j < |idx| ==> idx[i] != idx[j] && Before(A, all, idx[i], idx[j])
    ensures forall i, e: nat :: 0 <= i < |idx| && e < |all| && e !in idx && e !in taken ==> Before(A, all, idx[i], e)
    decreases |idx|
  {
    if idx != [] {
      RankedAll(A, all, idx[1..], taken + {idx[0]});
      forall i, j | 0 <= i < j < |idx| ensures idx[i] != idx[j] && Before(A, all, idx[i], idx[j]) {
        assert idx[j] == idx[1..][j - 1];
        if i > 0 { assert idx[i] == idx[1..][i - 1]; }
      }
      forall i, e: nat | 0 <= i < |idx| && e < |all| && e !in idx && e !in taken ensures Before(A, all, idx[i], e) {
        assert e !in idx[1..];
        if i > 0 { assert idx[i] == idx[1..][i - 1]; }
      }
    }
  }

  /** With scores that can be compared and enough experts, the slots hold different experts in
      order of rank, ties by index; none left out ranks before one chosen; and each weight starts
      from the unbiased score of its own expert. */
  lemma {:induction false} TopK(A: Arith<Scalar>, w: MoeW, x: Vec)
    requires Ordered(A, Choices(w, x)) && w.topk <= w.experts
    ensures var ch, idx := Choices(w, x), Indices(Picked(A, w, x));
      && (forall i :: 0 <= i < w.topk ==> idx[i] < w.experts && RawWeights(A, w, x)[i] == w.score(x, idx[i]))
      && (forall i, j :: 0 <= i < j < w.topk ==> idx[i] != idx[j] && Before(A, ch, idx[i], idx[j]))
      && (forall i, e: nat :: 0 <= i < w.topk && e < w.experts && e !in idx ==> Before(A, ch, idx[i], e))
  {
    var ch := Choices(w, x);
    PickRanks(A, w, x, ch, ch, {}, w.topk);
    RankedAll(A, ch, Indices(Picked(A, w, x)), {});
  }

  // ------------------------------------------------------------- one token, exactly

  function Contribution(A: Arith<Scalar>, w: MoeW, x: Vec, j: nat): Latent
    requires j < w.topk
  {
    w.apply(w.expert(Index(A, w, x, j)), w.down(x))
  }

  /** The routed sum, in top-k order. */
  function Aggregate(A: Arith<Scalar>, w: MoeW, x: Vec, n: nat): Latent
    requires n <= w.topk
  {
    if n == 0 then w.latZero
    else w.axpy(Aggregate(A, w, x, n - 1), Gate(A, w, x, n - 1), Contribution(A, w, x, n - 1))
  }

  /** What the layer computes for one token when every expert it asks for is there. */
  function MoeOut(A: Arith<Scalar>, w: MoeW): Vec -> Vec
  {
    (x: Vec) => w.tail(x, Aggregate(A, w, x, w.topk))
  }

  // ------------------------------------------------------------- streamed experts

  /** Where experts come from. A fetch either delivers the checkpoint's bytes or fails, at
      any time and for any reason; failures are counted, and a run that ends with a
      non-zero count is reported as failed. `log` lists the fetches in order. */
  class Source {
    var drops: nat
    var log: seq<nat>

    constructor ()
      ensures drops == 0 && log == []
    {
      drops, log := 0, [];
    }

    method Get(w: MoeW, e: nat) returns (r: Option<Expert>)
      modifies this
      ensures log == old(log) + [e]
      ensures r.Some? ==> r.value == w.expert(e) && drops == old(drops)
      ensures r.None? ==> drops == old(drops) + 1
    {
      log := log + [e];
      var ok: bool := *;
      if ok {
        r := Some(w.expert(e));
      } else {
        r := None;
        drops := drops + 1;
      }
    }
  }

  /** The per-token path: route, then obtain and add the experts one at a time. Resident
      experts are always there; a failed fetch of a streamed one leaves its term out. */
  method MoeToken(A: Arith<Scalar>, w: MoeW, src: Source, streamed: bool, x: Vec) returns (out: Vec)
    modifies src
    ensures src.drops >= old(src.drops)
    ensures !streamed ==> src.drops == old(src.drops)
    ensures src.drops == old(src.drops) ==> out == MoeOut(A, w)(x)
  {
    var idx, wt := Router(A, w, x);
    var z := w.down(x);
    var acc := w.latZero;
    for j := 0 to w.topk
      invariant src.drops >= old(src.drops)
      invariant !streamed ==> src.drops == old(src.drops)
      invariant src.drops == old(src.drops) ==> acc == Aggregate(A, w, x, j)
    {
      var r := Some(w.expert(idx[j]));
      if streamed {
        r := src.Get(w, idx[j]);
      }
      if r.Some? {
        acc := w.axpy(acc, wt[j], w.apply(r.value, z));
      }
    }
    out := w.tail(x, acc);
  }

  method MoeSerial(A: Arith<Scalar>, w: MoeW, src: Source, streamed: bool, xs: seq<Vec>) returns (out: seq<Vec>)
    modifies src
    ensures |out| == |xs| && src.drops >= old(src.drops)
    ensures src.drops == old(src.drops) ==> out == Machines.Map(MoeOut(A, w), xs)
  {
    out := [];
    for t := 0 to |xs|
      invariant |out| == t && src.drops >= old(src.drops)
      invariant src.drops == old(src.drops) ==> out == Machines.Map(MoeOut(A, w), xs[..t])
    {
      var o := MoeToken(A, w, src, streamed, xs[t]);
      assert Machines.Map(MoeOut(A, w), xs[..t + 1]) == Machines.Map(MoeOut(A, w), xs[..t]) + [MoeOut(A, w)(xs[t])];
      out := out + [o];
    }
    assert xs[..|xs|] == xs;
  }

  // ------------------------------------------------------------- batched prefill

  /** Expert `e` is selected by some token of the batch. */
  ghost predicate Routed(A: Arith<Scalar>, w: MoeW, xs: seq<Vec>, e: nat)
  {
    exists t, j :: 0 <= t < |xs| && 0 <= j < w.topk && Index(A, w, xs[t], j) == e
  }

  ghost predicate Distinct(s: seq<nat>)
  {
    forall i, j :: 0 <= i < j < |s| ==> s[i] != s[j]
  }

  /** The routing decisions of a batch: what the later phases work from. */
  ghost predicate Plan(A: Arith<Scalar>, w: MoeW, xs: seq<Vec>, ridx: seq<seq<nat>>, rwt: seq<seq<Scalar>>,
      zz: seq<Latent>)
  {
    && |ridx| == |rwt| == |zz| == |xs|
    && (forall t :: 0 <= t < |xs| ==> |ridx[t]| == |rwt[t]| == w.topk && zz[t] == w.down(xs[t]))
    && (forall t, j :: 0 <= t < |xs| && 0 <= j < w.topk ==> ridx[t][j] == Index(A, w, xs[t], j))
    && (forall t, j :: 0 <= t < |xs| && 0 <= j < w.topk ==> rwt[t][j] == Gate(A, w, xs[t], j))
  }

  /** The experts a batch needs, each listed once. */
  ghost predicate Unique(A: Arith<Scalar>, w: MoeW, xs: seq<Vec>, uniq: seq<nat>)
  {
    Distinct(uniq) && forall e: nat :: e in uniq <==> Routed(A, w, xs, e)
  }

  /** `seen` flags exactly the experts listed so far. */
  ghost predicate Marks(w: MoeW, seen: seq<bool>, uniq: seq<nat>)
  {
    |seen| == w.experts && forall e: nat :: e in uniq <==> e < |seen| && seen[e]
  }

  /** Adds one token's experts to the list, skipping those already seen. */
  method Collect(w: MoeW, it: seq<nat>, seen: seq<bool>, uniq: seq<nat>) returns (seen': seq<bool>, uniq': seq<nat>)
    requires Distinct(uniq)
    requires Marks(w, seen, uniq)
    requires forall j :: 0 <= j < |it| ==> it[j] < w.experts
    ensures Distinct(uniq')
    ensures Marks(w, seen', uniq')
    ensures forall e: nat :: e in uniq' <==> e in uniq || e in it
  {
    seen', uniq' := seen, uniq;
    for j := 0 to |it|
      invariant Distinct(uniq')
      invariant Marks(w, seen', uniq')
      invariant forall e: nat :: e in uniq' <==> e in uniq || e in it[..j]
    {
      var e := it[j];
      assert it[..j + 1] == it[..j] + [e];
      if !seen'[e] {
        seen' := seen'[e := true];
        uniq' := uniq' + [e];
      }
    }
    assert it[..|it|] == it;
  }

  /** Phase 1: route and down-project every token, and list the batch's experts. */
  method RouteAll(A: Arith<Scalar>, w: MoeW, xs: seq<Vec>)
    returns (ridx: seq<seq<nat>>, rwt: seq<seq<Scalar>>, zz: seq<Latent>, uniq: seq<nat>)
    requires w.experts > 0
    ensures Plan(A, w, xs, ridx, rwt, zz)
    ensures Unique(A, w, xs, uniq)
  {
    ridx, rwt, zz, uniq := [], [], [], [];
    var seen := seq(w.experts, _ => false);
    for t := 0 to |xs|
      invariant Plan(A, w, xs[..t], ridx, rwt, zz)
      invariant Distinct(uniq)
      invariant Marks(w, seen, uniq)
      invariant forall e: nat :: e in uniq <==> Routed(A, w, xs[..t], e)
    {
      var it, wtt := Router(A, w, xs[t]);
      PickInRange(A, w, xs[t], Choices(w, xs[t]), w.topk);
      ghost var before := uniq;
      seen, uniq := Collect(w, it, seen, uniq);
      PlanStep(A, w, xs, ridx, rwt, zz, t, it, wtt);
      ridx, rwt, zz := ridx + [it], rwt + [wtt], zz + [w.down(xs[t])];
      RoutedStep(A, w, xs, t, it);
    }
    assert xs[..|xs|] == xs;
  }

  lemma {:induction false} PlanStep(A: Arith<Scalar>, w: MoeW, xs: seq<Vec>, ridx: seq<seq<nat>>, rwt: seq<seq<Scalar>>,
      zz: seq<Latent>, t: nat, it: seq<nat>, wtt: seq<Scalar>)
    requires t < |xs| && Plan(A, w, xs[..t], ridx, rwt, zz) && |it| == |wtt| == w.topk
    requires forall j :: 0 <= j < w.topk ==> it[j] == Index(A, w, xs[t], j) && wtt[j] == Gate(A, w, xs[t], j)
    ensures Plan(A, w, xs[..t + 1], ridx + [it], rwt + [wtt], zz + [w.down(xs[t])])
  {
  }

  lemma RoutedStep(A: Arith<Scalar>, w: MoeW, xs: seq<Vec>, t: nat, it: seq<nat>)
    requires t < |xs| && |it| == w.topk
    requires forall j :: 0 <= j < w.topk ==> it[j] == Index(A, w, xs[t], j)
    ensures forall e: nat :: Routed(A, w, xs[..t + 1], e) <==> Routed(A, w, xs[..t], e) || e in it
  {
    forall e: nat ensures Routed(A, w, xs[..t + 1], e) <==> Routed(A, w, xs[..t], e) || e in it {
      if Routed(A, w, xs[..t], e) {
        var u, j :| 0 <= u < |xs[..t]| && 0 <= j < w.topk && Index(A, w, xs[..t][u], j) == e;
        assert Index(A, w, xs[..t + 1][u], j) == e;
      }
      if e in it {
        var j :| 0 <= j < |it| && it[j] == e;
        assert Index(A, w, xs[..t + 1][t], j) == e;
      }
      if Routed(A, w, xs[..t + 1], e) {
        var u, j :| 0 <= u < |xs[..t + 1]| && 0 <= j < w.topk && Index(A, w, xs[..t + 1][u], j) == e;
        assert u < t ==> Index(A, w, xs[..t][u], j) == e;
        assert u == t ==> it[j] == e;
      }
    }
  }

  /** One fetched expert applied to every (token, slot) that selected it. */
  method ApplyExpert(A: Arith<Scalar>, w: MoeW, xs: seq<Vec>, ridx: seq<seq<nat>>, zz: seq<Latent>, e: nat, q: Expert,
                     contrib: array2<Latent>)
    returns (ghost writes: multiset<(int, int)>)
    requires |ridx| == |zz| == contrib.Length0 && contrib.Length1 == w.topk
    requires forall t :: 0 <= t < |ridx| ==> |ridx[t]| == w.topk
    modifies contrib
    ensures forall t, j :: 0 <= t < |ridx| && 0 <= j < w.topk ==> writes[(t, j)] == if ridx[t][j] == e then 1 else 0
    ensures forall t, j :: 0 <= t < contrib.Length0 && 0 <= j < w.topk ==>
              contrib[t, j] == if ridx[t][j] == e then w.apply(q, zz[t]) else old(contrib[t, j])
  {
    writes := multiset{};
    for t := 0 to |ridx|
      invariant forall u, i :: 0 <= u < |ridx| && 0 <= i < w.topk ==>
                  writes[(u, i)] == if u < t && ridx[u][i] == e then 1 else 0
      invariant forall u, i :: 0 <= u < contrib.Length0 && 0 <= i < w.topk ==>
                  contrib[u, i] == if u < t && ridx[u][i] == e then w.apply(q, zz[u]) else old(contrib[u, i])
    {
      for j := 0 to w.topk
        invariant forall u, i :: 0 <= u < |ridx| && 0 <= i < w.topk ==>
                    writes[(u, i)] == if (u < t || (u == t && i < j)) && ridx[u][i] == e then 1 else 0
        invariant forall u, i :: 0 <= u < contrib.Length0 && 0 <= i < w.topk ==>
                    contrib[u, i] == if (u < t || (u == t && i < j)) && ridx[u][i] == e then w.apply(q, zz[u])
                                     else old(contrib[u, i])
      {
        if ridx[t][j] == e {
          contrib[t, j] := w.apply(q, zz[t]);
          writes := writes + multiset{(t, j)};
        }
      }
    }
  }

  /** Phase 2, expert-major: each listed expert is fetched once. `writes` counts the writes of
      every slot: exactly one when its expert arrives, and none when the fetch failed. */
  method ExpertMajor(A: Arith<Scalar>, w: MoeW, src: Source, xs: seq<Vec>, ridx: seq<seq<nat>>, zz: seq<Latent>,
                     uniq: seq<nat>, contrib: array2<Latent>)
    returns (ghost writes: multiset<(int, int)>)
    requires |ridx| == |zz| == contrib.Length0 && contrib.Length1 == w.topk && Distinct(uniq)
    requires forall t :: 0 <= t < |ridx| ==> |ridx[t]| == w.topk
    modifies src, contrib
    ensures src.log == old(src.log) + uniq && src.drops >= old(src.drops)
    ensures forall t, j :: 0 <= t < |ridx| && 0 <= j < w.topk ==> writes[(t, j)] <= 1
    ensures src.drops == old(src.drops) ==>
              forall t, j :: 0 <= t < |ridx| && 0 <= j < w.topk && ridx[t][j] in uniq ==> writes[(t, j)] == 1
    ensures src.drops == old(src.drops) ==>
              forall t, j :: 0 <= t < |ridx| && 0 <= j < w.topk && ridx[t][j] in uniq ==>
                contrib[t, j] == w.apply(w.expert(ridx[t][j]), zz[t])
  {
    writes := multiset{};
    for u := 0 to |uniq|
      invariant forall t, j :: 0 <= t < |ridx| && 0 <= j < w.topk ==>
                  writes[(t, j)] <= if ridx[t][j] in uniq[..u] then 1 else 0
      invariant src.drops == old(src.drops) ==>
                  forall t, j :: 0 <= t < |ridx| && 0 <= j < w.topk && ridx[t][j] in uniq[..u] ==> writes[(t, j)] == 1
      invariant src.log == old(src.log) + uniq[..u] && src.drops >= old(src.drops)
      invariant src.drops == old(src.drops) ==>
                  forall t, j :: 0 <= t < |ridx| && 0 <= j < w.topk && ridx[t][j] in uniq[..u] ==>
                    contrib[t, j] == w.apply(w.expert(ridx[t][j]), zz[t])
      invariant forall t, j :: 0 <= t < |ridx| && 0 <= j < w.topk && ridx[t][j] !in uniq[..u] ==>
                    contrib[t, j] == old(contrib[t, j])
    {
      var e := uniq[u];
      assert uniq[..u + 1] == uniq[..u] + [e];
      var q := src.Get(w, e);
      if q.Some? {
        ghost var more := ApplyExpert(A, w, xs, ridx, zz, e, q.value, contrib);
        writes := writes + more;
      }
    }
    assert uniq[..|uniq|] == uniq;
  }

  /** Phase 3: each token's contributions, summed in the original top-k order. */
  method SumToken(A: Arith<Scalar>, w: MoeW, x: Vec, wt: seq<Scalar>, contrib: array2<Latent>, t: nat)
    returns (out: Vec)
    requires t < contrib.Length0 && contrib.Length1 == w.topk == |wt|
    requires forall j :: 0 <= j < w.topk ==> wt[j] == Gate(A, w, x, j)
    ensures (forall j :: 0 <= j < w.topk ==> contrib[t, j] == Contribution(A, w, x, j)) ==> out == MoeOut(A, w)(x)
  {
    var acc := w.latZero;
    for j := 0 to w.topk
      invariant (forall i :: 0 <= i < w.topk ==> contrib[t, i] == Contribution(A, w, x, i)) ==>
        acc == Aggregate(A, w, x, j)
    {
      acc := w.axpy(acc, wt[j], contrib[t, j]);
    }
    out := w.tail(x, acc);
  }

  /** Every slot holds what its own expert makes of its own token. */
  ghost predicate Complete(A: Arith<Scalar>, w: MoeW, xs: seq<Vec>, contrib: array2<Latent>)
    reads contrib
  {
    && contrib.Length0 == |xs| && contrib.Length1 == w.topk
    && forall t, j :: 0 <= t < |xs| && 0 <= j < w.topk ==> contrib[t, j] == Contribution(A, w, xs[t], j)
  }

  method SumAll(A: Arith<Scalar>, w: MoeW, xs: seq<Vec>, rwt: seq<seq<Scalar>>, contrib: array2<Latent>)
    returns (out: seq<Vec>)
    requires contrib.Length0 == |xs| == |rwt| && contrib.Length1 == w.topk
    requires forall t :: 0 <= t < |xs| ==> |rwt[t]| == w.topk
    requires forall t, j :: 0 <= t < |xs| && 0 <= j < w.topk ==> rwt[t][j] == Gate(A, w, xs[t], j)
    ensures |out| == |xs|
    ensures Complete(A, w, xs, contrib) ==> out == Machines.Map(MoeOut(A, w), xs)
  {
    out := [];
    for t := 0 to |xs|
      invariant |out| == t
      invariant Complete(A, w, xs, contrib) ==> out == Machines.Map(MoeOut(A, w), xs)[..t]
    {
      var o := SumToken(A, w, xs[t], rwt[t], contrib, t);
      out := out + [o];
    }
  }

  /** A batch of tokens with each distinct expert read once. When no fetch failed, the
      outputs are those of the per-token path; the fetches are exactly the distinct experts
      the batch routes to. */
  method PrefillChunk(A: Arith<Scalar>, w: MoeW, src: Source, xs: seq<Vec>)
    returns (out: seq<Vec>, ghost uniq: seq<nat>)
    requires w.experts > 0
    modifies src
    ensures |out| == |xs| && src.drops >= old(src.drops)
    ensures src.drops == old(src.drops) ==> out == Machines.Map(MoeOut(A, w), xs)
    ensures Unique(A, w, xs, uniq) && src.log == old(src.log) + uniq
  {
    var ridx, rwt, zz, us := RouteAll(A, w, xs);
    uniq := us;
    var contrib := new Latent[|xs|, w.topk];
    ghost var writes := ExpertMajor(A, w, src, xs, ridx, zz, us, contrib);
    if src.drops == old(src.drops) {
      forall t, j | 0 <= t < |xs| && 0 <= j < w.topk ensures contrib[t, j] == Contribution(A, w, xs[t], j) {
        assert ridx[t][j] == Index(A, w, xs[t], j);
        assert Routed(A, w, xs, ridx[t][j]);
      }
    }
    out := SumAll(A, w, xs, rwt, contrib);
  }

  const CHUNK: nat := 64

  /** The prefill entry: falls back to the per-token path for resident experts, single
      tokens and on request, and otherwise walks the batch in sub-chunks of 64. */
  method Prefill(A: Arith<Scalar>, w: MoeW, src: Source, streamed: bool, noBatch: bool, xs: seq<Vec>)
    returns (out: seq<Vec>)
    requires w.experts > 0
    modifies src
    ensures |out| == |xs| && src.drops >= old(src.drops)
    ensures src.drops == old(src.drops) ==> out == Machines.Map(MoeOut(A, w), xs)
  {
    if !streamed || |xs| <= 1 || noBatch {
      out := MoeSerial(A, w, src, streamed, xs);
      return;
    }
    out := [];
    var t0 := 0;
    while t0 < |xs|
      invariant 0 <= t0 <= |xs| && |out| == t0 && src.drops >= old(src.drops)
      invariant src.drops == old(src.drops) ==> out == Machines.Map(MoeOut(A, w), xs[..t0])
    {
      var n := if |xs| - t0 < CHUNK then |xs| - t0 else CHUNK;
      var part := xs[t0..t0 + n];
      assert xs[..t0 + n] == xs[..t0] + part;
      var o: seq<Vec>;
      if n == 1 {
        o := MoeSerial(A, w, src, streamed, part);
      } else {
        ghost var us;
        o, us := PrefillChunk(A, w, src, part);
      }
      out := out + o;
      t0 := t0 + n;
    }
    assert xs[..|xs|] == xs;
  }
}
