/** Resolving and fetching the six tensors of a routed expert, src/io/k3_load.c:14-146. */
module ExpertLoad {
  import opened Wrappers
  import opened Spans
  import opened Reader
  import Mxfp4

  /** What the index knows of a tensor. */
  datatype TensorRec = TensorRec(u8: bool, dims: seq<int>, shard: int, off: nat, nbytes: nat)

  /** Where each tensor sits inside the fetched run: packed and scale bytes of w1, w2, w3. */
  datatype Ref = Ref(shard: int, off: nat, nbytes: nat, contiguous: bool, slots: seq<Span>)

  /** Matrix 0..2, packed or scales. */
  type Lookup = (nat, bool) -> Option<TensorRec>

  /** Shapes must say: as many scale rows, one scale per 32 elements, all in one shard. */
  predicate PairOk(p: TensorRec, s: TensorRec)
  {
    && p.u8 && s.u8 && |p.dims| == 2 && |s.dims| == 2
    && p.dims[0] == s.dims[0] && s.dims[1] * 32 == p.dims[1] * 2
    && p.shard == s.shard
  }

  /** A pair is taken exactly when every row has one scale for each group of 32 of its elements, two to
      a byte, and no group is short. */
  lemma {:induction false} PairGroups(p: TensorRec, s: TensorRec, n: nat)
    requires |p.dims| == |s.dims| == 2 && p.dims[1] >= 0 && n == 2 * p.dims[1]
    ensures PairOk(p, s) <==>
      && p.u8 && s.u8 && p.shard == s.shard && p.dims[0] == s.dims[0]
      && n % 32 == 0 && s.dims[1] == Mxfp4.Groups(n, 32)
  {
  }

  /** So the row kernels may be given any of its rows. */
  lemma {:induction false} PairRows(p: TensorRec, s: TensorRec, w: seq<Mxfp4.Byte>, sc: seq<Mxfp4.Byte>)
    requires PairOk(p, s) && |w| == p.dims[1] && |sc| == s.dims[1]
    ensures Mxfp4.RowOk(w, sc, 2 * |w|, 32) && Mxfp4.InBuffer(sc, 2 * |w|, 32)
  {
    PairGroups(p, s, 2 * |w|);
    Mxfp4.BufferBound(sc, 2 * |w|, 32);
  }

  predicate Has(find: Lookup, i: nat)
  {
    find(i, true).Some? && find(i, false).Some? && PairOk(find(i, true).value, find(i, false).value)
    && find(0, true).Some? && find(i, true).value.shard == find(0, true).value.shard
  }

  function SpanOf(t: TensorRec): Span { Span(t.off, t.nbytes) }

  /** The tensors of the first `n` matrices in canonical order. */
  function Tensors(find: Lookup, n: nat): (r: seq<Span>)
    requires forall i :: 0 <= i < n ==> Has(find, i)
    ensures |r| == 2 * n
  {
    if n == 0 then []
    else
      assert Has(find, n - 1);
      Tensors(find, n - 1) + [SpanOf(find(n - 1, true).value), SpanOf(find(n - 1, false).value)]
  }

  /** One run when the extent equals the sum of the lengths; packed end to end otherwise. */
  function SlotsOf(all: seq<Span>): (r: seq<Span>)
    requires all != []
    ensures |r| == |all|
  {
    seq(|all|, k requires 0 <= k < |all| =>
      Span(if Highest(all) - Lowest(all) == Total(all) then all[k].off - Lowest(all) else Total(all[..k]), all[k].n))
  }

  ghost predicate RefFor(r: Ref, all: seq<Span>)
  {
    && all != [] && (r.contiguous <==> Highest(all) - Lowest(all) == Total(all))
    && r.off == Lowest(all) && r.nbytes == Total(all) && r.slots == SlotsOf(all)
  }

  method Slots(all: seq<Span>, contiguous: bool, lo: int) returns (slots: seq<Span>)
    requires all != [] && lo == Lowest(all) && (contiguous <==> Highest(all) - Lowest(all) == Total(all))
    ensures slots == SlotsOf(all)
  {
    slots := [];
    var o := 0;
    for k := 0 to |all|
      invariant |slots| == k && o == Total(all[..k])
      invariant forall j :: 0 <= j < k ==> slots[j] == SlotsOf(all)[j]
    {
      assert all[..k + 1][..k] == all[..k];
      slots := slots + [Span(if contiguous then all[k].off - lo else o, all[k].n)];
      o := o + all[k].n;
    }
  }

  /** Resolving fails exactly when a tensor is missing, misshapen or in another shard. */
  method Resolve(find: Lookup) returns (r: Option<Ref>)
    ensures r.Some? <==> forall i :: 0 <= i < 3 ==> Has(find, i)
    ensures r.Some? ==> RefFor(r.value, Tensors(find, 3)) && Has(find, 0) && r.value.shard == find(0, true).value.shard
  {
    var all := [];
    for i := 0 to 3
      invariant forall j :: 0 <= j < i ==> Has(find, j)
      invariant all == Tensors(find, i)
    {
      var p, s := find(i, true), find(i, false);
      assert i > 0 ==> Has(find, 0);
      if p.None? || s.None? { assert !Has(find, i); return None; }
      if !PairOk(p.value, s.value) { assert !Has(find, i); return None; }
      if i > 0 && p.value.shard != find(0, true).value.shard { assert !Has(find, i); return None; }
      all := all + [SpanOf(p.value), SpanOf(s.value)];
    }
    assert Has(find, 0);
    var lo, hi, own := Extent(all);
    var slots := Slots(all, hi - lo == own, lo);
    LowestOff(find, 3);
    r := Some(Ref(find(0, true).value.shard, lo, own, hi - lo == own, slots));
  }

  lemma {:induction false} LowestOff(find: Lookup, n: nat)
    requires n > 0 && forall i :: 0 <= i < n ==> Has(find, i)
    ensures Lowest(Tensors(find, n)) >= 0
  {
    var all := Tensors(find, n);
    NonNegative(find, n);
    LowestIn(all);
  }

  lemma {:induction false} NonNegative(find: Lookup, n: nat)
    requires forall i :: 0 <= i < n ==> Has(find, i)
    ensures forall k :: 0 <= k < 2 * n ==> Tensors(find, n)[k].off >= 0
  {
    if n > 0 {
      NonNegative(find, n - 1);
      assert Has(find, n - 1);
    }
  }

  // ----------------------------------------------------------------------- fetching

  /** Tensor `k` of the expert is in the buffer where its slot says. */
  ghost predicate InPlace(d: seq<int>, all: seq<Span>, slots: seq<Span>, b: seq<int>, base: nat, k: nat)
    requires k < |all| == |slots|
  {
    all[k].n > 0 ==>
      all[k].off >= 0 && slots[k].off >= 0 && Reader.Holds(d, all[k].off, b, base + slots[k].off, all[k].n)
  }

  ghost predicate Loaded(d: seq<int>, all: seq<Span>, slots: seq<Span>, b: seq<int>, base: nat)
  {
    |all| == |slots| && forall k :: 0 <= k < |all| ==> InPlace(d, all, slots, b, base, k)
  }

  /** A run that was read whole holds every tensor that lies in it. */
  lemma {:induction false} WholeRun(d: seq<int>, r: Ref, all: seq<Span>, b: seq<int>, base: nat)
    requires RefFor(r, all) && r.contiguous && (r.nbytes > 0 ==> Reader.Holds(d, r.off, b, base, r.nbytes))
    ensures Loaded(d, all, r.slots, b, base)
  {
    Bounds(all);
    forall k | 0 <= k < |all| ensures InPlace(d, all, r.slots, b, base, k) {
      if all[k].n > 0 {
        var o := all[k].off - r.off;
        SliceOfSlice(b, base, base + r.nbytes, o, o + all[k].n);
        SliceOfSlice(d, r.off, r.off + r.nbytes, o, o + all[k].n);
      }
    }
  }

  /** Six reads into end-to-end slots; a full count means every one was full. */
  method LoadScattered(dev: Device, r: Ref, all: seq<Span>, buf: array<int>) returns (got: nat)
    requires RefFor(r, all) && !r.contiguous && buf.Length >= r.nbytes && forall k :: 0 <= k < |all| ==> all[k].off >= 0
    modifies dev, buf
    ensures got <= r.nbytes
    ensures got == r.nbytes ==> Loaded(dev.data, all, r.slots, buf[..], 0)
    ensures dev.Steady() && Within(all, 0, |dev.data|) ==> got == r.nbytes
  {
    got := 0;
    for k := 0 to |all|
      invariant got <= Total(all[..k])
      invariant got == Total(all[..k]) ==> forall j :: 0 <= j < k ==> InPlace(dev.data, all, r.slots, buf[..], 0, j)
      invariant dev.Steady() && Within(all, 0, |dev.data|) ==> got == Total(all[..k])
    {
      assert all[..k + 1][..k] == all[..k];
      PrefixTotal(all, k + 1);
      ghost var was := buf[..];
      var g := ReadLoop(dev, buf, r.slots[k].off, all[k].n, all[k].off);
      if got + g == Total(all[..k + 1]) {
        forall j | 0 <= j < k ensures InPlace(dev.data, all, r.slots, buf[..], 0, j) {
          Earlier(all, j, k);
          StillThere(dev.data, all, r.slots, was, buf[..], j);
        }
      }
      got := got + g;
    }
    assert all[..|all|] == all;
  }

  lemma {:induction false} PrefixTotal(all: seq<Span>, k: nat)
    requires k <= |all|
    ensures Total(all[..k]) <= Total(all)
    decreases |all|
  {
    if k < |all| {
      PrefixTotal(all[..|all| - 1], k);
      assert all[..|all| - 1][..k] == all[..k];
    } else {
      assert all[..k] == all;
    }
  }

  lemma {:induction false} Earlier(all: seq<Span>, j: nat, k: nat)
    requires j < k < |all|
    ensures Total(all[..j]) + all[j].n <= Total(all[..k])
  {
    assert all[..j + 1][..j] == all[..j];
    PrefixTotal(all[..k], j + 1);
    assert all[..k][..j + 1] == all[..j + 1];
  }

  lemma StillThere(d: seq<int>, all: seq<Span>, slots: seq<Span>, was: seq<int>, b: seq<int>, j: nat)
    requires j < |all| == |slots| && |was| == |b| && InPlace(d, all, slots, was, 0, j)
    requires forall x :: slots[j].off <= x < slots[j].off + all[j].n && 0 <= x < |b| ==> b[x] == was[x]
    ensures InPlace(d, all, slots, b, 0, j)
  {
    if all[j].n > 0 {
      var p, n := slots[j].off, all[j].n;
      assert b[0 + p..0 + p + n] == was[0 + p..0 + p + n];
    }
  }

  /** Whatever the device did, a full-length return means all six tensors sit at their recorded
      offsets past the payload offset, direct or buffered, one run or six. */
  method LoadDirect(dev: Device, direct: bool, r: Ref, all: seq<Span>, buf: array<int>) returns (got: nat, pad: nat)
    requires RefFor(r, all) && buf.Length >= r.nbytes && forall k :: 0 <= k < |all| ==> all[k].off >= 0
    modifies dev, buf
    ensures got <= r.nbytes
    ensures got == r.nbytes ==> Loaded(dev.data, all, r.slots, buf[..], pad)
    ensures dev.Steady() && Within(all, 0, |dev.data|) && buf.Length >= r.nbytes + 2 * Align ==> got == r.nbytes
  {
    if !r.contiguous {
      pad := 0;
      got := LoadScattered(dev, r, all, buf);
    } else {
      got, pad := ReadAligned(dev, direct, r.off, r.nbytes, buf);
      if got == r.nbytes { WholeRun(dev.data, r, all, buf[..], pad); }
      HighestIn(all, |dev.data|);
    }
  }
}
