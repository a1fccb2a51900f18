/** The widen area a layer needs against the size reserved for it, src/model/k3_bind.c:163-245 and
    307-318. */
module WidenArea {
  import opened Wrappers
  import opened Bytes
  import opened Bind

  datatype Cfg = Cfg(
    hidden: nat, qLora: nat, kvLora: nat, latent: nat, experts: nat,
    kdaHeads: nat, kdaHeadDim: nat, convK: nat,
    heads: nat, qkNope: nat, qkRope: nat, vHead: nat,
    denseInter: nat, moeInter: nat, shared: nat, outGate: bool)

  /** A request, and whether the reserved size counts it. */
  datatype Item = Item(q: Req, counted: bool)

  function Wide(n: nat): Item { Item(Req(n, n, false), true) }
  function WideExtra(n: nat): Item { Item(Req(n, n, false), false) }
  function Narrow(n: nat): Item { Item(Req(n, n, true), false) }

  function Norms(c: Cfg): seq<Item> { seq(6, _ => Wide(c.hidden)) }

  function Mla(c: Cfg): seq<Item>
  {
    [Narrow(c.qLora * c.hidden)] + [Wide(c.qLora)]
    + [Narrow(c.heads * (c.qkNope + c.qkRope) * c.qLora), Narrow((c.kvLora + c.qkRope) * c.hidden)] + [Wide(c.kvLora)]
    + ([Narrow(c.heads * (c.qkNope + c.vHead) * c.kvLora), Narrow(c.hidden * c.heads * c.vHead)]
       + if c.outGate then [Narrow(c.heads * c.vHead * c.hidden)] else [])
  }

  /** Convolutions, decay, bias and output norm are read as float32 but not counted. */
  function Kda(c: Cfg): seq<Item>
  {
    var p := c.kdaHeads * c.kdaHeadDim;
    [Narrow(p * c.hidden), Narrow(p * c.hidden), Narrow(p * c.hidden), Narrow(p * c.hidden), Narrow(c.hidden * p),
     WideExtra(p * c.convK), WideExtra(p * c.convK), WideExtra(p * c.convK),
     Narrow(c.kdaHeadDim * c.hidden), Narrow(p * c.kdaHeadDim), Narrow(c.kdaHeads * c.hidden),
     Item(Req(c.kdaHeadDim, c.kdaHeads, false), false), WideExtra(p), WideExtra(c.kdaHeadDim)]
  }

  function Dense(c: Cfg): seq<Item>
  {
    [Narrow(c.denseInter * c.hidden), Narrow(c.denseInter * c.hidden), Narrow(c.hidden * c.denseInter)]
  }

  function Moe(c: Cfg): seq<Item>
  {
    var si := c.moeInter * c.shared;
    [Wide(c.experts * c.hidden)]
    + [WideExtra(c.experts), Narrow(c.latent * c.hidden), Narrow(c.hidden * c.latent)] + [Wide(c.latent)]
    + [Narrow(si * c.hidden), Narrow(si * c.hidden), Narrow(c.hidden * si)]
  }

  function Plan(c: Cfg, mla: bool, dense: bool): seq<Item>
  {
    Norms(c) + (if mla then Mla(c) else Kda(c)) + (if dense then Dense(c) else Moe(c))
  }

  function Reqs(items: seq<Item>): (qs: seq<Req>)
    ensures |qs| == |items|
  {
    seq(|items|, i requires 0 <= i < |items| => items[i].q)
  }

  /** The reserved size: four bytes an element counted, and a page of slack. */
  function Reserved(c: Cfg): nat
  {
    (6 * c.hidden + c.qLora + c.kvLora + c.latent + c.experts * c.hidden) * 4 + 4096
  }

  // -------------------------------------------------------------------------- proof

  /** At most what counted requests can use, with alignment. */
  function Bill(items: seq<Item>): nat
  {
    if items == [] then 0
    else
      var x := items[|items| - 1];
      Bill(items[..|items| - 1]) + if x.counted then 4 * x.q.take + 8 else 0
  }

  lemma {:induction false} BillConcat(a: seq<Item>, b: seq<Item>)
    ensures Bill(a + b) == Bill(a) + Bill(b)
  {
    if b == [] {
      assert a + b == a;
    } else {
      assert (a + b)[..|a + b| - 1] == a + b[..|b| - 1];
      BillConcat(a, b[..|b| - 1]);
    }
  }

  lemma {:induction false} BillNone(items: seq<Item>)
    requires forall i :: 0 <= i < |items| ==> !items[i].counted
    ensures Bill(items) == 0
  {
    if items != [] { BillNone(items[..|items| - 1]); }
  }

  lemma BillOne(x: Item)
    requires x.counted
    ensures Bill([x]) == 4 * x.q.take + 8
  {
    assert [x][..0] == [];
  }

  lemma {:induction false} BillSame(n: nat, x: Item)
    requires x.counted
    ensures Bill(seq(n, _ => x)) == n * (4 * x.q.take + 8)
  {
    if n > 0 {
      BillSame(n - 1, x);
      var s := seq(n, _ => x);
      assert s[..n - 1] == seq(n - 1, _ => x);
      assert n * (4 * x.q.take + 8) == (n - 1) * (4 * x.q.take + 8) + (4 * x.q.take + 8);
    }
  }

  lemma {:induction false} BillMla(c: Cfg)
    ensures Bill(Mla(c)) == 4 * c.qLora + 4 * c.kvLora + 16
  {
    var a, b := [Narrow(c.qLora * c.hidden)],
      [Narrow(c.heads * (c.qkNope + c.qkRope) * c.qLora), Narrow((c.kvLora + c.qkRope) * c.hidden)];
    var d := [Narrow(c.heads * (c.qkNope + c.vHead) * c.kvLora), Narrow(c.hidden * c.heads * c.vHead)]
      + if c.outGate then [Narrow(c.heads * c.vHead * c.hidden)] else [];
    Five(a, Wide(c.qLora), b, Wide(c.kvLora), d);
  }

  lemma {:induction false} BillMoe(c: Cfg)
    ensures Bill(Moe(c)) == 4 * (c.experts * c.hidden) + 4 * c.latent + 16
  {
    var si := c.moeInter * c.shared;
    var b := [WideExtra(c.experts), Narrow(c.latent * c.hidden), Narrow(c.hidden * c.latent)];
    var d := [Narrow(si * c.hidden), Narrow(si * c.hidden), Narrow(c.hidden * si)];
    Five([], Wide(c.experts * c.hidden), b, Wide(c.latent), d);
    assert [] + [Wide(c.experts * c.hidden)] == [Wide(c.experts * c.hidden)];
  }

  lemma {:induction false} Five(a: seq<Item>, x: Item, b: seq<Item>, y: Item, d: seq<Item>)
    requires x.counted && y.counted
    requires (forall i :: 0 <= i < |a| ==> !a[i].counted) && (forall i :: 0 <= i < |b| ==> !b[i].counted)
    requires forall i :: 0 <= i < |d| ==> !d[i].counted
    ensures Bill(a + [x] + b + [y] + d) == 4 * x.q.take + 4 * y.q.take + 16
  {
    BillConcat(a + [x] + b + [y], d);
    BillConcat(a + [x] + b, [y]);
    BillConcat(a + [x], b);
    BillConcat(a, [x]);
    BillNone(a);
    BillNone(b);
    BillNone(d);
    BillOne(x);
    BillOne(y);
  }

  lemma {:induction false} BillNorms(c: Cfg)
    ensures Bill(Norms(c)) == 24 * c.hidden + 48
  {
    BillSame(6, Wide(c.hidden));
  }

  lemma {:induction false} BillAttention(c: Cfg, mla: bool)
    ensures Bill(if mla then Mla(c) else Kda(c)) <= 4 * c.qLora + 4 * c.kvLora + 16
  {
    if mla { BillMla(c); } else { BillNone(Kda(c)); }
  }

  lemma {:induction false} BillMlp(c: Cfg, dense: bool)
    ensures Bill(if dense then Dense(c) else Moe(c)) <= 4 * (c.experts * c.hidden) + 4 * c.latent + 16
  {
    if dense { BillNone(Dense(c)); } else { BillMoe(c); }
  }

  lemma {:induction false} BillThree(n: seq<Item>, a: seq<Item>, b: seq<Item>)
    ensures Bill(n + a + b) == Bill(n) + Bill(a) + Bill(b)
  {
    BillConcat(n + a, b);
    BillConcat(n, a);
  }

  lemma {:induction false} BillPlan(c: Cfg, mla: bool, dense: bool)
    ensures Bill(Plan(c, mla, dense)) <= Reserved(c)
  {
    BillThree(Norms(c), if mla then Mla(c) else Kda(c), if dense then Dense(c) else Moe(c));
    BillNorms(c);
    BillAttention(c, mla);
    BillMlp(c, dense);
  }

  /** What is not counted must already be float32 in the run. */
  ghost predicate StoredAsFloat(items: seq<Item>, spots: seq<Option<Spot>>)
  {
    |items| == |spots| && forall i :: 0 <= i < |items| && !items[i].counted ==> !MustWiden(items[i].q, spots[i])
  }

  lemma {:induction false} UsedWithinBill(items: seq<Item>, spots: seq<Option<Spot>>, n: nat)
    requires StoredAsFloat(items, spots) && n <= |items|
    ensures Used(Reqs(items), spots, n) <= Bill(items[..n])
  {
    if n > 0 {
      UsedWithinBill(items, spots, n - 1);
      assert items[..n][..n - 1] == items[..n - 1];
      Align8Is(Used(Reqs(items), spots, n - 1));
    }
  }

  /** The reserved area is enough for every layer of every configuration, provided the vectors it
      does not count (convolutions, decay, biases, output norm) are stored as float32. */
  lemma {:induction false} AreaSuffices(c: Cfg, mla: bool, dense: bool, spots: seq<Option<Spot>>)
    requires StoredAsFloat(Plan(c, mla, dense), spots)
    ensures Used(Reqs(Plan(c, mla, dense)), spots, |spots|) <= Reserved(c)
  {
    var items := Plan(c, mla, dense);
    UsedWithinBill(items, spots, |items|);
    assert items[..|items|] == items;
    BillPlan(c, mla, dense);
  }

  // ---------------------------------------------------------------- the exact use

  /** Four bytes an element, rounded up to a multiple of eight. */
  function Pad(n: nat): nat { 8 * ((n + 1) / 2) }

  function Pads(ts: seq<nat>): nat { if ts == [] then 0 else Pads(ts[..|ts| - 1]) + Pad(ts[|ts| - 1]) }

  /** The bytes of vectors laid one after the other at multiples of eight: all are rounded up but
      the last. */
  function AreaOf(ts: seq<nat>): (n: nat)
  {
    if ts == [] then 0 else Pads(ts[..|ts| - 1]) + 4 * ts[|ts| - 1]
  }

  /** The lengths of the vectors to widen, in order. */
  function Takes(qs: seq<Req>, spots: seq<Option<Spot>>, n: nat): seq<nat>
    requires n <= |qs| == |spots|
  {
    if n == 0 then []
    else if MustWiden(qs[n - 1], spots[n - 1]) then Takes(qs, spots, n - 1) + [qs[n - 1].take]
    else Takes(qs, spots, n - 1)
  }

  lemma {:induction false} AlignPad(p: nat, n: nat)
    requires p % 8 == 0
    ensures Align8(p + 4 * n) == p + Pad(n) && (p + Pad(n)) % 8 == 0
  {
    Align8Is(p + 4 * n);
    StillMultiple(p, (n + 1) / 2);
    OneMultiple(p + 4 * n, Align8(p + 4 * n), p + Pad(n));
  }

  lemma StillMultiple(p: nat, k: nat)
    requires p % 8 == 0
    ensures (p + 8 * k) % 8 == 0
  {
    assert p + 8 * k == 8 * (p / 8 + k);
  }

  /** At or after `x` there is one multiple of eight nearer than eight. */
  lemma OneMultiple(x: int, a: int, b: int)
    requires x <= a < x + 8 && x <= b < x + 8 && a % 8 == 0 && b % 8 == 0
    ensures a == b
  {
    assert (a - b) % 8 == 0;
  }

  lemma {:induction false} AlignArea(ts: seq<nat>)
    ensures Align8(AreaOf(ts)) == Pads(ts) && Pads(ts) % 8 == 0
  {
    if ts == [] {
      AlignPad(0, 0);
    } else {
      AlignArea(ts[..|ts| - 1]);
      AlignPad(Pads(ts[..|ts| - 1]), ts[|ts| - 1]);
    }
  }

  lemma {:induction false} AreaNext(ts: seq<nat>, n: nat)
    ensures AreaOf(ts + [n]) == Align8(AreaOf(ts)) + 4 * n
  {
    AlignArea(ts);
    assert (ts + [n])[..|ts|] == ts;
  }

  /** What a layer uses of the widen area is exactly the bytes of its bf16 vectors so laid out. */
  lemma {:induction false} UsedIs(qs: seq<Req>, spots: seq<Option<Spot>>, n: nat)
    requires n <= |qs| == |spots|
    ensures Used(qs, spots, n) == AreaOf(Takes(qs, spots, n))
  {
    if n > 0 {
      UsedIs(qs, spots, n - 1);
      AreaNext(Takes(qs, spots, n - 1), qs[n - 1].take);
    }
  }

  /** Binding a layer with the area reserved for it succeeds exactly when its tensors are usable
      and its bf16 vectors fit the reserved size. */
  method BindReserved(cv: Conv, c: Cfg, mla: bool, dense: bool, spots: seq<Option<Spot>>, run: seq<int>,
      widen: array<int>)
    returns (ok: bool, ptrs: seq<Ptr>, w: nat, tag: Tag)
    requires |spots| == |Plan(c, mla, dense)| && SpotsOk(spots, run) && widen.Length == Reserved(c)
    modifies widen
    ensures var qs := Reqs(Plan(c, mla, dense));
      ok <==> Usable(qs, spots) && AreaOf(Takes(qs, spots, |qs|)) <= Reserved(c)
    ensures ok ==> |ptrs| == |spots|
    ensures ok ==> forall i :: 0 <= i < |spots| ==>
      Bound(cv, Reqs(Plan(c, mla, dense)), spots, run, widen[..], ptrs[i], i)
  {
    var qs := Reqs(Plan(c, mla, dense));
    ok, ptrs, w, tag := BindMem(cv, qs, spots, run, widen);
    UsedIs(qs, spots, |qs|);
  }

  // --------------------------------------------------- every layer of a configuration

  /** The vectors read as float32 among the items, in order. */
  function Wides(items: seq<Item>): seq<nat>
  {
    if items == [] then []
    else
      var x := items[|items| - 1];
      Wides(items[..|items| - 1]) + if x.q.narrow then [] else [x.q.take]
  }

  lemma {:induction false} WidesConcat(a: seq<Item>, b: seq<Item>)
    ensures Wides(a + b) == Wides(a) + Wides(b)
  {
    if b == [] {
      assert a + b == a;
    } else {
      assert (a + b)[..|a + b| - 1] == a + b[..|b| - 1];
      WidesConcat(a, b[..|b| - 1]);
    }
  }

  lemma {:induction false} WidesNone(items: seq<Item>)
    requires forall i :: 0 <= i < |items| ==> items[i].q.narrow
    ensures Wides(items) == []
  {
    if items != [] { WidesNone(items[..|items| - 1]); }
  }

  lemma {:induction false} WidesAll(items: seq<Item>, ts: seq<nat>)
    requires |items| == |ts| && forall i :: 0 <= i < |items| ==> !items[i].q.narrow && items[i].q.take == ts[i]
    ensures Wides(items) == ts
  {
    if items != [] {
      WidesAll(items[..|items| - 1], ts[..|ts| - 1]);
      assert ts == ts[..|ts| - 1] + [ts[|ts| - 1]];
    }
  }

  lemma {:induction false} WidesFour(a: seq<Item>, x: seq<Item>, b: seq<Item>, y: seq<Item>, d: seq<Item>, s: seq<nat>,
      t: seq<nat>)
    requires forall i :: 0 <= i < |a| ==> a[i].q.narrow
    requires forall i :: 0 <= i < |b| ==> b[i].q.narrow
    requires forall i :: 0 <= i < |d| ==> d[i].q.narrow
    requires |x| == |s| && forall i :: 0 <= i < |x| ==> !x[i].q.narrow && x[i].q.take == s[i]
    requires |y| == |t| && forall i :: 0 <= i < |y| ==> !y[i].q.narrow && y[i].q.take == t[i]
    ensures Wides(a + x + b + y + d) == s + t
  {
    WidesConcat(a + x + b + y, d);
    WidesConcat(a + x + b, y);
    WidesConcat(a + x, b);
    WidesConcat(a, x);
    WidesNone(a);
    WidesNone(b);
    WidesNone(d);
    WidesAll(x, s);
    WidesAll(y, t);
  }

  /** The vectors of an attention block read as float32. */
  function AttnTakes(c: Cfg, mla: bool): seq<nat>
  {
    var p := c.kdaHeads * c.kdaHeadDim;
    if mla then [c.qLora] + [c.kvLora]
    else [p * c.convK, p * c.convK, p * c.convK] + [c.kdaHeads, p, c.kdaHeadDim]
  }

  function MlpTakes(c: Cfg, dense: bool): seq<nat>
  {
    if dense then [] else [c.experts * c.hidden, c.experts] + [c.latent]
  }

  lemma {:induction false} WidesAttn(c: Cfg, mla: bool)
    ensures Wides(if mla then Mla(c) else Kda(c)) == AttnTakes(c, mla)
  {
    if mla {
      var b := [Narrow(c.heads * (c.qkNope + c.qkRope) * c.qLora), Narrow((c.kvLora + c.qkRope) * c.hidden)];
      var d := [Narrow(c.heads * (c.qkNope + c.vHead) * c.kvLora), Narrow(c.hidden * c.heads * c.vHead)]
        + if c.outGate then [Narrow(c.heads * c.vHead * c.hidden)] else [];
      WidesFour([Narrow(c.qLora * c.hidden)], [Wide(c.qLora)], b, [Wide(c.kvLora)], d, [c.qLora], [c.kvLora]);
    } else {
      WidesKda(c);
    }
  }

  lemma {:induction false} WidesKda(c: Cfg)
    ensures Wides(Kda(c)) == AttnTakes(c, false)
  {
    var k := Kda(c);
    var p := c.kdaHeads * c.kdaHeadDim;
    assert k == k[..5] + k[5..8] + k[8..11] + k[11..] + [];
    WidesFour(k[..5], k[5..8], k[8..11], k[11..], [], [p * c.convK, p * c.convK, p * c.convK],
      [c.kdaHeads, p, c.kdaHeadDim]);
  }

  lemma {:induction false} WidesMlp(c: Cfg, dense: bool)
    ensures Wides(if dense then Dense(c) else Moe(c)) == MlpTakes(c, dense)
  {
    if dense {
      WidesNone(Dense(c));
    } else {
      var m := Moe(c);
      assert m == [] + m[..2] + m[2..4] + m[4..5] + m[5..];
      WidesFour([], m[..2], m[2..4], m[4..5], m[5..], [c.experts * c.hidden, c.experts], [c.latent]);
    }
  }

  function NormTakes(c: Cfg): seq<nat> { seq(6, _ => c.hidden) }

  lemma {:induction false} WidesPlan(c: Cfg, mla: bool, dense: bool)
    ensures Wides(Plan(c, mla, dense)) == NormTakes(c) + AttnTakes(c, mla) + MlpTakes(c, dense)
  {
    WidesConcat(Norms(c) + if mla then Mla(c) else Kda(c), if dense then Dense(c) else Moe(c));
    WidesConcat(Norms(c), if mla then Mla(c) else Kda(c));
    WidesAll(Norms(c), NormTakes(c));
    WidesAttn(c, mla);
    WidesMlp(c, dense);
  }

  /** The most a layer can ever use: every such vector widened. */
  function Most(c: Cfg, mla: bool, dense: bool): nat
  {
    AreaOf(NormTakes(c) + AttnTakes(c, mla) + MlpTakes(c, dense))
  }

  /** Everything the kernels want as float32 has to be widened. */
  ghost predicate AllWidened(qs: seq<Req>, spots: seq<Option<Spot>>)
  {
    |spots| == |qs| && forall i :: 0 <= i < |qs| ==> (MustWiden(qs[i], spots[i]) <==> !qs[i].narrow)
  }

  lemma {:induction false} TakesAll(items: seq<Item>, spots: seq<Option<Spot>>, n: nat)
    requires AllWidened(Reqs(items), spots) && n <= |items|
    ensures Takes(Reqs(items), spots, n) == Wides(items[..n])
  {
    if n > 0 {
      TakesAll(items, spots, n - 1);
      assert items[..n][..n - 1] == items[..n - 1];
    }
  }

  lemma AlignGrows(x: nat, y: nat)
    requires x <= y
    ensures Align8(x) <= Align8(y)
  {
    Align8Is(x);
    Align8Is(y);
    if Align8(x) > Align8(y) { OneMultiple(x, Align8(x), Align8(y)); }
  }

  lemma {:induction false} UsedAtMost(qs: seq<Req>, spots: seq<Option<Spot>>, all: seq<Option<Spot>>, n: nat)
    requires n <= |qs| == |spots| && AllWidened(qs, all)
    ensures Used(qs, spots, n) <= Used(qs, all, n)
  {
    if n > 0 {
      var x, y := Used(qs, spots, n - 1), Used(qs, all, n - 1);
      UsedAtMost(qs, spots, all, n - 1);
      AlignGrows(x, y);
      Align8Is(y);
    }
  }

  lemma {:induction false} MostIsMost(c: Cfg, mla: bool, dense: bool, all: seq<Option<Spot>>)
    requires AllWidened(Reqs(Plan(c, mla, dense)), all)
    ensures Used(Reqs(Plan(c, mla, dense)), all, |all|) == Most(c, mla, dense)
  {
    var items := Plan(c, mla, dense);
    UsedIs(Reqs(items), all, |items|);
    TakesAll(items, all, |items|);
    assert items[..|items|] == items;
    WidesPlan(c, mla, dense);
  }

  /** Every tensor stored as one row of signed bytes. */
  function AllInt8(qs: seq<Req>): (spots: seq<Option<Spot>>)
    ensures |spots| == |qs|
  {
    seq(|qs|, i requires 0 <= i < |qs| => Some(Spot(0, qs[i].take + 4, Int8Rows)))
  }

  lemma {:induction false} AllInt8Usable(qs: seq<Req>)
    ensures Usable(qs, AllInt8(qs)) && AllWidened(qs, AllInt8(qs))
  {
    var spots := AllInt8(qs);
    forall i | 0 <= i < |qs| ensures MemFits(qs[i], spots[i]) { OneRow(qs[i].take); }
  }

  lemma OneRow(take: nat)
    ensures RowsFit(take + 4, take)
  {
    assert (take + 4 - take) / 4 == 1;
  }

  ghost predicate AlwaysFits(qs: seq<Req>, room: nat)
  {
    forall spots :: Usable(qs, spots) ==> Used(qs, spots, |qs|) <= room
  }

  lemma {:induction false} FitsExactly(qs: seq<Req>, most: nat, room: nat)
    requires most == Used(qs, AllInt8(qs), |qs|)
    ensures AlwaysFits(qs, room) <==> most <= room
  {
    AllInt8Usable(qs);
    forall spots | Usable(qs, spots) ensures Used(qs, spots, |qs|) <= most {
      UsedAtMost(qs, spots, AllInt8(qs), |qs|);
    }
  }

  /** The reserved area is enough for a layer however its tensors are stored exactly when it
      holds all the float32 vectors widened. */
  lemma {:induction false} AreaExactly(c: Cfg, mla: bool, dense: bool)
    ensures AlwaysFits(Reqs(Plan(c, mla, dense)), Reserved(c)) <==> Most(c, mla, dense) <= Reserved(c)
  {
    var qs := Reqs(Plan(c, mla, dense));
    AllInt8Usable(qs);
    MostIsMost(c, mla, dense, AllInt8(qs));
    FitsExactly(qs, Most(c, mla, dense), Reserved(c));
  }

  /** Every tensor stored as bf16 with as many elements as asked for. */
  function AllBf16(qs: seq<Req>): (spots: seq<Option<Spot>>)
    ensures |spots| == |qs|
  {
    seq(|qs|, i requires 0 <= i < |qs| =>
      Some(Spot(0, 2 * if qs[i].want >= 0 then qs[i].want else qs[i].take, Plain(BF16))))
  }

  /** No request for more elements than its tensor may have. Only the decay vector, cut to the
      number of heads, can be one. */
  ghost predicate Fair(items: seq<Item>)
  {
    forall i :: 0 <= i < |items| ==> items[i].q.want >= items[i].q.take
  }

  lemma {:induction false} FairConcat(a: seq<Item>, b: seq<Item>)
    requires Fair(a) && Fair(b)
    ensures Fair(a + b)
  {
  }

  lemma {:induction false} FairPlan(c: Cfg, mla: bool, dense: bool)
    requires mla || c.kdaHeads <= c.kdaHeadDim
    ensures Fair(Plan(c, mla, dense))
  {
    var a, b := if mla then Mla(c) else Kda(c), if dense then Dense(c) else Moe(c);
    FairConcat(Norms(c), a);
    FairConcat(Norms(c) + a, b);
  }

  lemma {:induction false} AllBf16Usable(items: seq<Item>)
    requires Fair(items)
    ensures Usable(Reqs(items), AllBf16(Reqs(items))) && AllWidened(Reqs(items), AllBf16(Reqs(items)))
  {
  }

  /** A layer for which it is not: 64 heads of 64, a convolution of 4, and the rest small. */
  lemma {:induction false} AreaShort()
    ensures var c := Cfg(1, 0, 0, 0, 0, 64, 64, 4, 0, 0, 0, 0, 0, 0, 0, false);
      var qs := Reqs(Plan(c, false, true));
      Usable(qs, AllBf16(qs)) && Reserved(c) == 4120 && Used(qs, AllBf16(qs), |qs|) == 213552
  {
    var c := Cfg(1, 0, 0, 0, 0, 64, 64, 4, 0, 0, 0, 0, 0, 0, 0, false);
    FairPlan(c, false, true);
    AllBf16Usable(Plan(c, false, true));
    MostIsMost(c, false, true, AllBf16(Reqs(Plan(c, false, true))));
    MostShort(c);
  }

  lemma {:induction false} MostShort(c: Cfg)
    requires c.hidden == 1 && c.kdaHeads == c.kdaHeadDim == 64 && c.convK == 4
    ensures Most(c, false, true) == 213552
  {
    var six := NormTakes(c);
    SixOnes(six);
    assert six + AttnTakes(c, false) + [] == six + [16384] + [16384] + [16384] + [64] + [4096] + [64];
    AreaLast(six, 16384, 16384, 16384, 64, 4096, 64);
  }

  lemma {:induction false} PadsOneMore(ts: seq<nat>, n: nat)
    ensures Pads(ts + [n]) == Pads(ts) + Pad(n) && AreaOf(ts + [n]) == Pads(ts) + 4 * n
  {
    assert (ts + [n])[..|ts|] == ts;
  }

  lemma {:induction false} SixOnes(ts: seq<nat>)
    requires ts == seq(6, _ => 1)
    ensures Pads(ts) == 48
  {
    assert ts == [] + [1] + [1] + [1] + [1] + [1] + [1];
    PadsOneMore([] + [1] + [1] + [1] + [1] + [1], 1);
    PadsOneMore([] + [1] + [1] + [1] + [1], 1);
    PadsOneMore([] + [1] + [1] + [1], 1);
    PadsOneMore([] + [1] + [1], 1);
    PadsOneMore([] + [1], 1);
    PadsOneMore([], 1);
  }

  lemma {:induction false} AreaLast(ts: seq<nat>, a: nat, b: nat, c: nat, d: nat, e: nat, f: nat)
    ensures AreaOf(ts + [a] + [b] + [c] + [d] + [e] + [f]) ==
      Pads(ts) + Pad(a) + Pad(b) + Pad(c) + Pad(d) + Pad(e) + 4 * f
  {
    PadsOneMore(ts, a);
    PadsOneMore(ts + [a], b);
    PadsOneMore(ts + [a] + [b], c);
    PadsOneMore(ts + [a] + [b] + [c], d);
    PadsOneMore(ts + [a] + [b] + [c] + [d], e);
    PadsOneMore(ts + [a] + [b] + [c] + [d] + [e], f);
  }

  /** In any layer, one large matrix stored as rows of signed bytes beside others in bf16: the
      binder accepts it and tags the layer int8, which describes none of the others. */
  lemma {:induction false} MixedLayer(c: Cfg, mla: bool, dense: bool)
    requires mla || c.kdaHeads <= c.kdaHeadDim
    ensures var qs := Reqs(Plan(c, mla, dense));
      |qs| > 9 && var spots := AllBf16(qs)[6 := Some(Spot(0, qs[6].take + 4, Int8Rows))];
      Usable(qs, spots) && TagOf(qs, spots) == Int8Tag && Mixed(qs, spots)
  {
    var items := Plan(c, mla, dense);
    var qs := Reqs(items);
    FairPlan(c, mla, dense);
    AllBf16Usable(items);
    var a := if mla then Mla(c) else Kda(c);
    assert items[6] == a[0] && items[8] == a[2] && a[0].q.narrow && a[2].q.narrow;
    OneInt8(qs, 6, 8);
  }

  lemma {:induction false} OneInt8(qs: seq<Req>, i: nat, j: nat)
    requires i < |qs| && j < |qs| && i != j && qs[i].narrow && qs[j].narrow && Usable(qs, AllBf16(qs))
    ensures var spots := AllBf16(qs)[i := Some(Spot(0, qs[i].take + 4, Int8Rows))];
      Usable(qs, spots) && TagOf(qs, spots) == Int8Tag && Mixed(qs, spots)
  {
    var spots := AllBf16(qs)[i := Some(Spot(0, qs[i].take + 4, Int8Rows))];
    assert IsInt8(qs[i], spots[i]);
    forall k | 0 <= k < |qs| ensures MemFits(qs[k], spots[k]) { assert MemFits(qs[k], AllBf16(qs)[k]); }
    assert spots[j].value.form.Plain?;
  }
}
