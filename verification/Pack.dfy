/** Packing each layer's tensors as one aligned run, tools/pack_trunk.py:73-141. */
module Pack {
  import opened Spans
  import opened Reader
  import opened Wrappers
  import opened Bytes
  import Bind

  const Chunk := 0x400_0000   // 64 MB

  /** The tensors of one layer outside the routed experts: in which shard, and where. */
  datatype LayerIn = LayerIn(shards: seq<nat>, spans: seq<Span>)

  /** A manifest row. */
  datatype Row = Row(runStart: int, nbytes: nat, fileOff: nat, tensors: seq<Span>)

  /** Bytes of padding up to the next boundary. */
  function Pad(x: nat): (p: nat)
    ensures p < Align && (x + p) % Align == 0
  {
    (0 - x) % Align
  }

  ghost predicate Contiguous(l: LayerIn) { l.spans != [] && Highest(l.spans) - Lowest(l.spans) == Total(l.spans) }

  /** What can be packed at all. */
  ghost predicate Packable(l: LayerIn)
    requires l.spans != []
  {
    && (forall k :: 0 <= k < |l.shards| ==> l.shards[k] == l.shards[0])
    && Contiguous(l)
  }

  /** And what is: the run also has to end inside its shard, unless it is empty. */
  ghost predicate CanPack(files: seq<seq<int>>, l: LayerIn)
    requires InputOk(files, l)
  {
    l.spans != [] && Packable(l) && (Total(l.spans) == 0 || Highest(l.spans) <= |files[l.shards[0]]|)
  }

  /** Tensor `k` lies in the output where the manifest says, with the shard's bytes. */
  ghost predicate Carried(out: seq<int>, row: Row, l: LayerIn, file: seq<int>, k: nat)
    requires k < |l.spans|
  {
    var s := l.spans[k];
    && k < |row.tensors| && row.tensors[k] == Span(s.off - row.runStart, s.n) && 0 <= s.off && 0 <= row.tensors[k].off
    && (s.n > 0 ==> Holds(file, s.off, out, row.fileOff + row.tensors[k].off, s.n))
  }

  /** A row is right: aligned at both ends, inside the file, every tensor carried over. */
  ghost predicate RowOk(out: seq<int>, row: Row, l: LayerIn, file: seq<int>)
  {
    && row.fileOff % Align == 0 && row.nbytes % Align == 0 && row.fileOff + row.nbytes <= |out|
    && Total(l.spans) <= row.nbytes && |row.tensors| == |l.spans| && l.spans != [] && row.runStart == Lowest(l.spans)
    && forall k :: 0 <= k < |l.spans| ==> Carried(out, row, l, file, k)
  }

  function Slice(s: seq<int>, a: nat, b: nat): seq<int> { if a < b <= |s| then s[a..b] else [] }

  lemma SliceGrows(s: seq<int>, a: nat, b: nat, c: nat, front: seq<int>)
    requires a <= b < c <= |s|
    ensures front + Slice(s, a, b) + s[b..c] == front + Slice(s, a, c)
  {
    assert Slice(s, a, c) == Slice(s, a, b) + s[b..c];
  }

  /** Copy a range in bounded chunks; false when the file ends first. */
  method CopyRange(file: seq<int>, lo: nat, n: nat, out0: seq<int>) returns (ok: bool, out: seq<int>)
    ensures ok <==> n == 0 || lo + n <= |file|
    ensures ok ==> out == out0 + Slice(file, lo, lo + n) && |out| == |out0| + n
  {
    out := out0;
    var left, pos := n, lo;
    while left > 0
      invariant lo <= pos && 0 <= left && pos + left == lo + n && (pos > lo ==> pos <= |file|)
      invariant out == out0 + Slice(file, lo, pos)
    {
      var want := if left < Chunk then left else Chunk;
      var stop := if pos + want <= |file| then pos + want else |file|;
      if stop <= pos { return false, out; }
      SliceGrows(file, lo, pos, stop, out0);
      out := out + file[pos..stop];
      left, pos := left - (stop - pos), stop;
    }
    ok := true;
  }

  function Zeros(n: nat): (z: seq<int>)
    ensures |z| == n
  {
    seq(n, _ => 0)
  }

  /** Rounding the length up never reaches past the padded tail. */
  lemma RoundedFits(f: nat, own: nat, m: nat)
    requires f % Align == 0 && m % Align == 0 && f + own <= m
    ensures f + Down(own + Align - 1) <= m && own <= Down(own + Align - 1) && Down(own + Align - 1) % Align == 0
  {
    DownIs(own + Align - 1);
  }

  method PackLayer(files: seq<seq<int>>, l: LayerIn, out0: seq<int>) returns (ok: bool, out: seq<int>, row: Row)
    requires InputOk(files, l)
    ensures ok <==> CanPack(files, l)
    ensures ok ==> RowOk(out, row, l, files[l.shards[0]])
    ensures ok ==> |out0| <= row.fileOff && |out0| <= |out| && out[..|out0|] == out0 && |out| % Align == 0
    ensures ok ==> row.fileOff < |out0| + Align
  {
    ok, out, row := false, out0, Row(0, 0, 0, []);
    if l.spans == [] { return; }
    for k := 0 to |l.shards|
      invariant forall j :: 0 <= j < k ==> l.shards[j] == l.shards[0]
    {
      if l.shards[k] != l.shards[0] { return; }
    }
    var lo, hi, own := Extent(l.spans);
    LowestIn(l.spans);
    if hi - lo != own { return; }
    var f := |out0| + Pad(|out0|);
    out := out0 + Zeros(Pad(|out0|));
    ok, out := CopyRange(files[l.shards[0]], lo, own, out);
    if !ok { return; }
    out, row := FinishRow(l, lo, own, f, files[l.shards[0]], out);
  }

  /** Pad the tail and describe the run. */
  method FinishRow(l: LayerIn, lo: nat, own: nat, f: nat, ghost file: seq<int>, out0: seq<int>)
    returns (out: seq<int>, row: Row)
    requires l.spans != [] && Contiguous(l) && lo == Lowest(l.spans) && own == Total(l.spans)
    requires f % Align == 0 && |out0| == f + own && (own > 0 ==> Holds(file, lo, out0, f, own))
    requires forall k :: 0 <= k < |l.spans| ==> l.spans[k].off >= 0
    ensures RowOk(out, row, l, file) && row.fileOff == f && |out| % Align == 0 && |out0| <= |out|
    ensures out[..|out0|] == out0
  {
    out := out0 + Zeros(Pad(|out0|));
    RoundedFits(f, own, |out|);
    row := Row(lo, Down(own + Align - 1), f,
      seq(|l.spans|, k requires 0 <= k < |l.spans| => Span(l.spans[k].off - lo, l.spans[k].n)));
    if own > 0 { assert out[f..f + own] == out0[f..f + own]; }
    AllCarried(out, row, l, file, own);
  }

  /** A run copied whole carries every tensor in it. */
  lemma {:induction false} AllCarried(out: seq<int>, row: Row, l: LayerIn, file: seq<int>, own: nat)
    requires l.spans != [] && Contiguous(l) && own == Total(l.spans) && row.runStart == Lowest(l.spans) >= 0
    requires |row.tensors| == |l.spans|
    requires forall k :: 0 <= k < |l.spans| ==> row.tensors[k] == Span(l.spans[k].off - row.runStart, l.spans[k].n)
    requires own > 0 ==> Holds(file, row.runStart, out, row.fileOff, own)
    ensures forall k :: 0 <= k < |l.spans| ==> Carried(out, row, l, file, k)
  {
    Bounds(l.spans);
    forall k | 0 <= k < |l.spans| ensures Carried(out, row, l, file, k) {
      var s := l.spans[k];
      if s.n > 0 {
        var o := s.off - row.runStart;
        SliceOfSlice(out, row.fileOff, row.fileOff + own, o, o + s.n);
        SliceOfSlice(file, row.runStart, row.runStart + own, o, o + s.n);
      }
    }
  }

  /** Later layers are appended, so earlier rows stay right. */
  lemma {:induction false} RowStays(out: seq<int>, out': seq<int>, row: Row, l: LayerIn, file: seq<int>)
    requires RowOk(out, row, l, file) && |out| <= |out'| && out'[..|out|] == out
    ensures RowOk(out', row, l, file)
  {
    forall k | 0 <= k < |l.spans| ensures Carried(out', row, l, file, k) {
      assert Carried(out, row, l, file, k);
      var s, a := l.spans[k], row.fileOff + row.tensors[k].off;
      if s.n > 0 { SliceOfSlice(out', 0, |out|, a, a + s.n); }
    }
  }

  ghost predicate InputOk(files: seq<seq<int>>, l: LayerIn)
  {
    |l.shards| == |l.spans| && forall k :: 0 <= k < |l.spans| ==> l.spans[k].off >= 0 && l.shards[k] < |files|
  }

  ghost predicate LayerDone(files: seq<seq<int>>, l: LayerIn, out: seq<int>, row: Row)
  {
    InputOk(files, l) && l.spans != [] && Packable(l) && RowOk(out, row, l, files[l.shards[0]])
  }

  /** The whole trunk is packed exactly when every layer can be; then every row is right in the
      finished file, and rows do not overlap. */
  method PackTrunk(files: seq<seq<int>>, layers: seq<LayerIn>) returns (ok: bool, out: seq<int>, rows: seq<Row>)
    requires forall i :: 0 <= i < |layers| ==> InputOk(files, layers[i])
    ensures ok <==> forall i :: 0 <= i < |layers| ==> CanPack(files, layers[i])
    ensures ok ==> |rows| == |layers| && forall i :: 0 <= i < |layers| ==> LayerDone(files, layers[i], out, rows[i])
    ensures ok ==> forall i :: 0 <= i < |rows| - 1 ==> Follows(rows, i)
  {
    out, rows := [], [];
    for i := 0 to |layers|
      invariant |rows| == i && |out| % Align == 0
      invariant forall j :: 0 <= j < i ==> CanPack(files, layers[j])
      invariant forall j :: 0 <= j < i ==> LayerDone(files, layers[j], out, rows[j])
      invariant forall j :: 0 <= j < i - 1 ==> Follows(rows, j)
    {
      ok, out, rows := PackNext(files, layers, out, rows, i);
      if !ok { return; }
    }
    ok := true;
  }

  ghost predicate Follows(rows: seq<Row>, i: nat)
    requires i + 1 < |rows|
  {
    rows[i].fileOff + rows[i].nbytes <= rows[i + 1].fileOff
  }

  method PackNext(files: seq<seq<int>>, layers: seq<LayerIn>, out0: seq<int>, rows0: seq<Row>, i: nat)
    returns (ok: bool, out: seq<int>, rows: seq<Row>)
    requires i < |layers| && InputOk(files, layers[i]) && |rows0| == i && |out0| % Align == 0
    requires forall j :: 0 <= j < i ==> LayerDone(files, layers[j], out0, rows0[j])
    requires forall j :: 0 <= j < i - 1 ==> Follows(rows0, j)
    ensures ok <==> CanPack(files, layers[i])
    ensures ok ==> |rows| == i + 1 && |out| % Align == 0
    ensures ok ==> forall j :: 0 <= j <= i ==> LayerDone(files, layers[j], out, rows[j])
    ensures ok ==> forall j :: 0 <= j < i ==> Follows(rows, j)
  {
    var row;
    ok, out, row := PackLayer(files, layers[i], out0);
    rows := rows0 + [row];
    if ok {
      forall j | 0 <= j < i ensures LayerDone(files, layers[j], out, rows[j]) {
        RowStays(out0, out, rows0[j], layers[j], files[layers[j].shards[0]]);
      }
      forall j | 0 <= j < i ensures Follows(rows, j) {
        if j < i - 1 { assert Follows(rows0, j); } else { assert LayerDone(files, layers[j], out0, rows0[j]); }
      }
    }
  }

  /** No foreign byte: when a packed layer's tensors do not overlap, every byte of its run
      belongs to one of them. */
  lemma {:induction false} NothingForeign(files: seq<seq<int>>, l: LayerIn, out: seq<int>, row: Row)
    requires LayerDone(files, l, out, row)
    ensures Disjoint(l.spans) <==> Covers(l.spans, Lowest(l.spans), Highest(l.spans))
  {
    Bounds(l.spans);
    Tiling(l.spans, Lowest(l.spans), Highest(l.spans));
  }

  // ------------------------------------------------------------ binding a packed run

  /** Tensor `k` of a layer as the shard holds it, and as the manifest row describes it. */
  ghost function FromShard(l: LayerIn, file: seq<int>, dts: seq<DType>, numel: seq<nat>, k: int): Option<Bind.Tensor>
    requires |dts| == |numel| == |l.spans|
  {
    if 0 <= k < |l.spans| && l.spans[k].off >= 0 then
      Some(Bind.Tensor(dts[k], numel[k], Slice(file, l.spans[k].off, l.spans[k].off + l.spans[k].n)))
    else None
  }

  ghost function FromRow(row: Row, dts: seq<DType>, k: int): Option<Bind.Spot>
    requires |dts| == |row.tensors|
  {
    if 0 <= k < |row.tensors| && row.tensors[k].off >= 0
    then Some(Bind.Spot(row.tensors[k].off, row.tensors[k].n, Bind.Plain(dts[k]))) else None
  }

  lemma {:induction false} SameTensor(files: seq<seq<int>>, l: LayerIn, out: seq<int>, row: Row, dts: seq<DType>,
      numel: seq<nat>, k: int)
    requires LayerDone(files, l, out, row) && |dts| == |numel| == |l.spans|
    ensures var run, sp := out[row.fileOff..row.fileOff + row.nbytes], FromRow(row, dts, k);
      Bind.Same(FromShard(l, files[l.shards[0]], dts, numel, k), sp, run) &&
        (sp.Some? ==> sp.value.off + sp.value.nb <= |run|)
  {
    if 0 <= k < |l.spans| {
      Bounds(l.spans);
      assert Carried(out, row, l, files[l.shards[0]], k);
      var o, n := row.tensors[k].off, l.spans[k].n;
      SliceOfSlice(out, row.fileOff, row.fileOff + row.nbytes, o, o + n);
    }
  }

  /** What the packer wrote is what the binder needs: looked up in the packed run or in the
      shard, in any order of requests, a name leads to the same bytes. */
  lemma {:induction false} PackedForBinding(files: seq<seq<int>>, l: LayerIn, out: seq<int>, row: Row, dts: seq<DType>,
      numel: seq<nat>, pick: seq<int>, found: seq<Option<Bind.Tensor>>, spots: seq<Option<Bind.Spot>>)
    requires LayerDone(files, l, out, row) && |dts| == |numel| == |l.spans| && |found| == |spots| == |pick|
    requires forall i :: 0 <= i < |pick| ==> found[i] == FromShard(l, files[l.shards[0]], dts, numel, pick[i])
    requires forall i :: 0 <= i < |pick| ==> spots[i] == FromRow(row, dts, pick[i])
    ensures Bind.Packed(found, spots, out[row.fileOff..row.fileOff + row.nbytes])
  {
    var run := out[row.fileOff..row.fileOff + row.nbytes];
    forall i | 0 <= i < |pick|
      ensures Bind.Same(found[i], spots[i], run)
      ensures spots[i].Some? ==> spots[i].value.off + spots[i].value.nb <= |run|
    {
      SameTensor(files, l, out, row, dts, numel, pick[i]);
    }
  }
}
