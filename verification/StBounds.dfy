/** Where the tensors of an accepted safetensors header lie, src/io/k3_st.c:316-334: the size and the
    end of an entry are checked, its start is not, and all sums are of 64 bits. */
module StBounds {
  import opened Bytes
  import opened Ints
  import opened Json
  import opened JsonText
  import opened Wrappers
  import R = JsonRoundTrip
  import Bind
  import ExpertLoad
  import Pack
  import Spans

  /** A tensor lies in the data section. */
  predicate EntryIn(t: Tensor, base: int, file: int) { base <= t.off && 0 <= t.nbytes && t.off + t.nbytes <= file }

  // ----------------------------------------------------------- every accepted entry

  predicate OffsetsHeld(e: Entry) { e.offs.Some? ==> IsInt64(e.offs.value.0) && IsInt64(e.offs.value.1) }

  lemma {:induction false} MadeIn(name: seq<Byte>, e: Entry, base: int, file: int)
    requires Made(name, e, base, file).Some? && OffsetsHeld(e) && 0 <= base <= file < Half64
    ensures var t, o := Made(name, e, base, file).value, e.offs.value;
      && t.off == S64(base + o.0) && t.nbytes == S64(o.1 - o.0)
      && (EntryIn(t, base, file) <==> 0 <= o.0 <= o.1 && base + o.1 < Half64)
  {
    var o := e.offs.value;
    SumsIn(base, file, o.0, o.1);
  }

  lemma {:induction false} SumsIn(base: int, file: int, o0: int, o1: int)
    requires 0 <= base <= file < Half64 && IsInt64(o0) && IsInt64(o1) && S64(base + o1) <= file
    ensures base <= S64(base + o0) && 0 <= S64(o1 - o0) && S64(base + o0) + S64(o1 - o0) <= file
      <==> 0 <= o0 <= o1 && base + o1 < Half64
  {
    var i := S64Moves(base + o0);
    var j := S64Moves(o1 - o0);
    var k := S64Moves(base + o1);
    TurnsIn(base, file, o0, o1, S64(base + o0), S64(o1 - o0), S64(base + o1), i, j, k);
  }

  lemma TurnsIn(base: int, file: int, o0: int, o1: int, off: int, n: int, end: int, i: int, j: int, k: int)
    requires 0 <= base <= file < Half64 && IsInt64(o0) && IsInt64(o1) && end <= file
    requires IsInt64(off) && IsInt64(n) && IsInt64(end)
    requires off == base + o0 + i * (2 * Half64) && n == o1 - o0 + j * (2 * Half64)
    requires end == base + o1 + k * (2 * Half64)
    ensures base <= off && 0 <= n && off + n <= file <==> 0 <= o0 <= o1 && base + o1 < Half64
  {
    assert -1 <= i <= 1 && -1 <= j <= 1 && -1 <= k <= 1;
  }

  lemma {:induction false} FieldHolds(K: Names, b: seq<Byte>, p: nat, key: seq<Byte>, e: Entry)
    requires |e.shape| <= 4 && OffsetsHeld(e)
    ensures Field(K, b, p, key, e).Ok? ==> OffsetsHeld(Field(K, b, p, key, e).val)
  {
  }

  lemma {:induction false} PairHolds(K: Names, b: seq<Byte>, p: nat, e: Entry)
    requires |e.shape| <= 4 && OffsetsHeld(e)
    ensures Pair(K, b, p, e).Ok? ==> OffsetsHeld(Pair(K, b, p, e).val)
  {
    if Pair(K, b, p, e).Ok? {
      var q := Str(b, p, 64).at;
      FieldHolds(K, b, Lit(b, q, Colon).at, CStr(Str(b, p, 64).val), e);
    }
  }

  lemma {:induction false} FieldsHold(K: Names, b: seq<Byte>, p: nat, first: bool, e: Entry)
    requires |e.shape| <= 4 && OffsetsHeld(e)
    ensures Fields(K, b, p, first, e).Ok? ==> OffsetsHeld(Fields(K, b, p, first, e).val)
    decreases |b| - p
  {
    var q := Ws(b, p);
    LitMoves(b, q, Comma);
    if !At(b, q, Close) && (first || Lit(b, q, Comma).Ok?) {
      var r := if first then q else Lit(b, q, Comma).at;
      PairMoves(K, b, r, e);
      PairHolds(K, b, r, e);
      if Pair(K, b, r, e).Ok? { FieldsHold(K, b, Pair(K, b, r, e).at, false, Pair(K, b, r, e).val); }
    }
  }

  /** A tensor made of an entry whose offsets are `o`. */
  ghost predicate MadeOf(t: Tensor, base: int, file: int, o: (int, int))
  {
    && IsInt64(o.0) && IsInt64(o.1)
    && exists e: Entry :: e.offs == Some(o) && Made(t.name, e, base, file) == Some(t)
  }

  ghost predicate FromEntry(t: Tensor, base: int, file: int) { exists o :: MadeOf(t, base, file, o) }

  ghost predicate AllFromEntries(ts: seq<Tensor>, base: int, file: int)
  {
    forall i :: 0 <= i < |ts| ==> FromEntry(ts[i], base, file)
  }

  ghost predicate KeepsFrom(named: Reader, base: int, file: int, p: nat, acc: seq<Tensor>)
  {
    AllFromEntries(acc, base, file) && named(p, acc).Ok? ==> AllFromEntries(named(p, acc).val, base, file)
  }

  lemma {:induction false} ItemFrom(K: Names, b: seq<Byte>, p: nat, name: seq<Byte>, base: int, file: int,
      acc: seq<Tensor>)
    requires AllFromEntries(acc, base, file) && Item(K, b, p, name, base, file, acc).Ok?
    ensures AllFromEntries(Item(K, b, p, name, base, file, acc).val, base, file)
  {
    if CStr(name) != K.metadata {
      var q := Lit(b, p, Open).at;
      FieldsHold(K, b, q, true, NoFields());
      var e := Fields(K, b, q, true, NoFields()).val;
      var t := Made(name, e, base, file).value;
      assert MadeOf(t, base, file, e.offs.value);
      assert Item(K, b, p, name, base, file, acc).val == acc + [t];
    }
  }

  lemma {:induction false} ItemsFrom(named: Reader, b: seq<Byte>, p: nat, first: bool, acc: seq<Tensor>, base: int,
      file: int)
    requires AllFromEntries(acc, base, file) && forall q: nat, acc :: KeepsFrom(named, base, file, q, acc)
    ensures Items(named, b, p, first, acc).Ok? ==> AllFromEntries(Items(named, b, p, first, acc).val, base, file)
    decreases |b| - p
  {
    var q := Ws(b, p);
    if !At(b, q, Close) && (first || Lit(b, q, Comma).Ok?) {
      var r := Ws(b, if first then q else Lit(b, q, Comma).at);
      assert KeepsFrom(named, base, file, r, acc);
      if !At(b, r, Close) && named(r, acc).Ok? && p < named(r, acc).at <= |b| {
        ItemsFrom(named, b, named(r, acc).at, false, named(r, acc).val, base, file);
      }
    }
  }

  lemma {:induction false} HeaderFrom(K: Names, b: seq<Byte>, file: int)
    requires Header(K, b, file).Ok?
    ensures AllFromEntries(Header(K, b, file).val, 8 + |b|, file)
  {
    var base := 8 + |b|;
    var named := Entries(K, b, base, file);
    forall q: nat, acc ensures KeepsFrom(named, base, file, q, acc) {
      if AllFromEntries(acc, base, file) && Named(K, b, q, base, file, acc).Ok? { NamedFrom(K, b, q, base, file, acc); }
    }
    ItemsFrom(named, b, Lit(b, 0, Open).at, true, [], base, file);
  }

  lemma {:induction false} NamedFrom(K: Names, b: seq<Byte>, p: nat, base: int, file: int, acc: seq<Tensor>)
    requires AllFromEntries(acc, base, file) && Named(K, b, p, base, file, acc).Ok?
    ensures AllFromEntries(Named(K, b, p, base, file, acc).val, base, file)
  {
    var name, q := Str(b, p, 512).val, Str(b, p, 512).at;
    ItemFrom(K, b, Lit(b, q, Colon).at, name, base, file, acc);
  }

  /** A tensor with offsets `o`, and when it lies in the data section. */
  ghost predicate InExactly(t: Tensor, base: int, file: int, o: (int, int))
  {
    && MadeOf(t, base, file, o) && t.off == S64(base + o.0) && t.nbytes == S64(o.1 - o.0)
    && (EntryIn(t, base, file) <==> 0 <= o.0 <= o.1 && base + o.1 < Half64)
  }

  /** A tensor of an accepted header lies in the data section if and only if its two offsets are in
      order, not negative, and do not carry the end past 64 bits. */
  lemma {:induction false} EntriesIn(K: Names, b: seq<Byte>, file: int, i: nat) returns (o: (int, int))
    requires Header(K, b, file).Ok? && i < |Header(K, b, file).val| && 8 + |b| <= file < Half64
    ensures InExactly(Header(K, b, file).val[i], 8 + |b|, file, o)
  {
    HeaderFrom(K, b, file);
    o := ListIn(Header(K, b, file).val, 8 + |b|, file, i);
  }

  lemma {:induction false} ListIn(ts: seq<Tensor>, base: int, file: int, i: nat) returns (o: (int, int))
    requires AllFromEntries(ts, base, file) && i < |ts| && 0 <= base <= file < Half64
    ensures InExactly(ts[i], base, file, o)
  {
    assert FromEntry(ts[i], base, file);
    o :| MadeOf(ts[i], base, file, o);
    OneIn(ts[i], base, file, o);
  }

  lemma {:induction false} OneIn(t: Tensor, base: int, file: int, o: (int, int))
    requires MadeOf(t, base, file, o) && 0 <= base <= file < Half64
    ensures InExactly(t, base, file, o)
  {
    var e: Entry :| e.offs == Some(o) && Made(t.name, e, base, file) == Some(t);
    MadeIn(t.name, e, base, file);
  }

  // ------------------------------------------------------------- what is built on them

  /** The record the expert loader works from, for a tensor in the data section. */
  function RecordOf(t: Tensor, shard: int, base: nat, file: int): (r: ExpertLoad.TensorRec)
    requires EntryIn(t, base, file)
    ensures r.off + r.nbytes <= file
  {
    ExpertLoad.TensorRec(t.dt == U8, t.shape, shard, t.off, t.nbytes)
  }

  /** Scanner and binder count bytes alike. */
  lemma SameSize(dt: DType, n: nat)
    ensures n * ElemSize(dt) == Bind.Size(dt, n)
  {
  }

  /** A tensor in the data section is one the binder may be given, of as many elements as its shape
      says, exactly when they take fewer than 2^63 bytes. */
  lemma {:induction false} BinderInput(name: seq<Byte>, e: Entry, base: int, file: seq<int>, t: Tensor)
    requires Made(name, e, base, |file|) == Some(t) && |file| < Half64 && 0 <= base && EntryIn(t, base, |file|)
    requires Numel(e.shape) >= 0
    ensures Bind.TensorOk(Bind.Tensor(t.dt, Numel(e.shape), file[t.off..t.off + t.nbytes]))
      <==> Bind.Size(t.dt, Numel(e.shape)) < Half64
  {
    SameSize(t.dt, Numel(e.shape));
  }

  /** Tensors in the data sections of their shards are what the packer may be given; one that
      starts before its file is not. */
  lemma {:induction false} PackInput(files: seq<seq<int>>, ts: seq<Tensor>, l: Pack.LayerIn, base: seq<nat>)
    requires |ts| == |l.spans| == |l.shards| == |base| && forall k :: 0 <= k < |ts| ==> l.shards[k] < |files|
    requires forall k :: 0 <= k < |ts| ==> l.spans[k].off == ts[k].off
    ensures (forall k :: 0 <= k < |ts| ==> EntryIn(ts[k], base[k], |files[l.shards[k]]|)) ==> Pack.InputOk(files, l)
    ensures (exists k :: 0 <= k < |ts| && ts[k].off < 0) ==> !Pack.InputOk(files, l)
  {
  }

  // ------------------------------------------------------------------- real headers

  /** The header of a file with one tensor, as it would be written, with or without metadata. */
  ghost predicate OneText(K: Names, meta: Option<Value>, ss: seq<Spec>, b: seq<Byte>, file: int)
  {
    && K == Standard() && (meta.Some? ==> ValueOk(meta.value)) && b == HeaderText(K, Rows(meta, ss))
    && |ss| == 1 && NameOk(K, ss[0].name) && 8 + |b| <= file < Half64
  }

  /** The one tensor such a header is read as, if it is read. */
  lemma {:induction false} OneSpec(K: Names, ss: seq<Spec>, base: int, file: int, t: Tensor)
    requires |ss| == 1 && R.SpecOk(K, ss[0], base, file) && R.TensorOf(ss[0], base) == t
    ensures forall i :: 0 <= i < |ss| ==> R.SpecOk(K, ss[i], base, file)
    ensures R.TensorsOf(ss, base) == [t]
  {
  }

  lemma {:induction false} OneBack(K: Names, meta: Option<Value>, ss: seq<Spec>, b: seq<Byte>, file: int, t: Tensor)
    requires K == Standard() && b == HeaderText(K, Rows(meta, ss)) && (meta.Some? ==> ValueOk(meta.value))
    requires forall i :: 0 <= i < |ss| ==> R.SpecOk(K, ss[i], 8 + |b|, file)
    requires R.TensorsOf(ss, 8 + |b|) == [t]
    ensures Header(K, b, file) == Ok([t], |b|)
  {
    R.ShardRoundTrip(meta, ss, file, K, b);
  }

  predicate NameOk(K: Names, name: seq<Byte>) { R.Clean(name) && |name| < 512 && name != K.metadata }

  /** The tensor a written entry is read as, and whether it is read at all, when 64 bits hold its
      numbers. */
  lemma {:induction false} Plainly(K: Names, s: Spec, base: int, file: int, n: int)
    requires NameOk(K, s.name) && s.shape == [n] && IsInt64(n) && IsInt64(s.start) && IsInt64(s.stop)
    ensures R.TensorOf(s, base) == Tensor(s.name, s.dt, [n], S64(base + s.start), S64(s.stop - s.start))
    ensures S64(s.stop - s.start) == S64(n * ElemSize(s.dt)) && S64(base + s.stop) <= file ==>
      R.SpecOk(K, s, base, file)
  {
    OneNumel(n);
  }

  lemma {:induction false} OneNumel(n: int)
    requires IsInt64(n)
    ensures R.Wrapped([n]) == [n] && Numel([n]) == n
  {
    var one := [n];
    assert one[..|one| - 1] == [];
    R.WrappedHeld(one);
  }

  /** A tensor a million bytes before the data section is accepted. */
  lemma {:induction false} NegativeOffset(K: Names, meta: Option<Value>, ss: seq<Spec>, b: seq<Byte>, file: int)
    requires OneText(K, meta, ss, b, file) && ss[0] == Spec(ss[0].name, F32, [1], -1000000, -999996)
    ensures var base := 8 + |b|;
      var t := Tensor(ss[0].name, F32, [1], base - 1000000, 4);
      Header(K, b, file) == Ok([t], |b|) && !EntryIn(t, base, file)
  {
    var base := 8 + |b|;
    var t := Tensor(ss[0].name, F32, [1], base - 1000000, 4);
    NegativeOffsetSpec(K, ss, base, file, t);
    OneBack(K, meta, ss, b, file, t);
  }

  lemma {:induction false} NegativeOffsetSpec(K: Names, ss: seq<Spec>, base: int, file: int, t: Tensor)
    requires |ss| == 1 && NameOk(K, ss[0].name) && 8 <= base <= file < Half64
    requires ss[0] == Spec(ss[0].name, F32, [1], -1000000, -999996)
    requires t == Tensor(ss[0].name, F32, [1], base - 1000000, 4)
    ensures forall i :: 0 <= i < |ss| ==> R.SpecOk(K, ss[i], base, file)
    ensures R.TensorsOf(ss, base) == [t] && !EntryIn(t, base, file)
  {
    Plainly(K, ss[0], base, file, 1);
    NegativeOffsetSums(base, file);
    OneSpec(K, ss, base, file, t);
  }

  lemma NegativeOffsetSums(base: int, file: int)
    requires 0 <= base <= file < Half64
    ensures S64(base - 1000000) == base - 1000000 && S64(-999996 + 1000000) == S64(1 * 4) == 4
    ensures S64(base - 999996) <= file
  {
  }

  /** So is one of minus four bytes. */
  lemma {:induction false} NegativeSize(K: Names, meta: Option<Value>, ss: seq<Spec>, b: seq<Byte>, file: int)
    requires OneText(K, meta, ss, b, file) && ss[0] == Spec(ss[0].name, F32, [-1], 4, 0)
    ensures var base := 8 + |b|;
      var t := Tensor(ss[0].name, F32, [-1], S64(base + 4), -4);
      Header(K, b, file) == Ok([t], |b|) && !EntryIn(t, base, file)
  {
    var base := 8 + |b|;
    var t := Tensor(ss[0].name, F32, [-1], S64(base + 4), -4);
    NegativeSizeSpec(K, ss, base, file, t);
    OneBack(K, meta, ss, b, file, t);
  }

  lemma {:induction false} NegativeSizeSpec(K: Names, ss: seq<Spec>, base: int, file: int, t: Tensor)
    requires |ss| == 1 && NameOk(K, ss[0].name) && 8 <= base <= file < Half64
    requires ss[0] == Spec(ss[0].name, F32, [-1], 4, 0)
    requires t == Tensor(ss[0].name, F32, [-1], S64(base + 4), -4)
    ensures forall i :: 0 <= i < |ss| ==> R.SpecOk(K, ss[i], base, file)
    ensures R.TensorsOf(ss, base) == [t] && !EntryIn(t, base, file)
  {
    Plainly(K, ss[0], base, file, -1);
    NegativeSizeSums(base, file);
    OneSpec(K, ss, base, file, t);
  }

  lemma NegativeSizeSums(base: int, file: int)
    requires 0 <= base <= file < Half64
    ensures S64(0 - 4) == S64(-1 * 4) == -4 && S64(base + 0) <= file
  {
  }

  /** And one whose end wraps around. */
  lemma {:induction false} EndWraps(K: Names, meta: Option<Value>, ss: seq<Spec>, b: seq<Byte>, file: int)
    requires OneText(K, meta, ss, b, file) && ss[0] == Spec(ss[0].name, F32, [1], Half64 - 5, Half64 - 1)
    ensures var base := 8 + |b|;
      var t := Tensor(ss[0].name, F32, [1], base - 5 - Half64, 4);
      Header(K, b, file) == Ok([t], |b|) && !EntryIn(t, base, file)
  {
    var base := 8 + |b|;
    var t := Tensor(ss[0].name, F32, [1], base - 5 - Half64, 4);
    EndWrapsSpec(K, ss, base, file, t);
    OneBack(K, meta, ss, b, file, t);
  }

  lemma {:induction false} EndWrapsSpec(K: Names, ss: seq<Spec>, base: int, file: int, t: Tensor)
    requires |ss| == 1 && NameOk(K, ss[0].name) && 8 <= base <= file < Half64
    requires ss[0] == Spec(ss[0].name, F32, [1], Half64 - 5, Half64 - 1)
    requires t == Tensor(ss[0].name, F32, [1], base - 5 - Half64, 4)
    ensures forall i :: 0 <= i < |ss| ==> R.SpecOk(K, ss[i], base, file)
    ensures R.TensorsOf(ss, base) == [t] && !EntryIn(t, base, file)
  {
    Plainly(K, ss[0], base, file, 1);
    EndWrapsSums(base, file);
    OneSpec(K, ss, base, file, t);
  }

  lemma EndWrapsSums(base: int, file: int)
    requires 8 <= base <= file < Half64
    ensures S64(base + (Half64 - 5)) == base - 5 - Half64 && S64(base + (Half64 - 1)) == base - 1 - Half64
    ensures S64(Half64 - 1 - (Half64 - 5)) == S64(1 * 4) == 4
  {
    assert base + (Half64 - 5) >= Half64;
  }

  // ------------------------------------------------------------- well-formed entries

  function Product(shape: seq<int>): int
  {
    if shape == [] then 1 else Product(shape[..|shape| - 1]) * shape[|shape| - 1]
  }

  /** A tensor in the data section whose numbers 64 bits hold. */
  ghost predicate Sane(K: Names, s: Spec, base: int, file: int)
  {
    && NameOk(K, s.name) && |s.shape| <= 4 && (forall i :: 0 <= i < |s.shape| ==> IsInt64(s.shape[i]))
    && 0 <= s.start <= s.stop && 0 <= base && base + s.stop <= file < Half64
    && Product(s.shape) >= 0 && s.stop - s.start == Bind.Size(s.dt, Product(s.shape))
  }

  lemma {:induction false} TimesHeld(x: int, y: int)
    ensures S64(S64(x) * y) == S64(x * y)
  {
    var k := S64Moves(x);
    assert (x + k * (2 * Half64)) * y == x * y + (k * y) * (2 * Half64);
    S64Same(S64(x) * y, x * y, k * y);
  }

  lemma {:induction false} NumelIs(shape: seq<int>)
    ensures S64(Numel(shape)) == S64(Product(shape))
  {
    if shape != [] {
      var t, d := shape[..|shape| - 1], shape[|shape| - 1];
      NumelIs(t);
      TimesHeld(Numel(t), d);
      TimesHeld(Product(t), d);
    }
  }

  lemma {:induction false} SizeIs(shape: seq<int>, n: nat)
    ensures S64(Numel(shape) * n) == S64(Product(shape) * n)
  {
    NumelIs(shape);
    TimesHeld(Numel(shape), n);
    TimesHeld(Product(shape), n);
  }

  lemma {:induction false} SaneOk(K: Names, s: Spec, base: int, file: int)
    requires Sane(K, s, base, file)
    ensures R.SpecOk(K, s, base, file)
    ensures R.TensorOf(s, base) == Tensor(s.name, s.dt, s.shape, base + s.start, s.stop - s.start)
    ensures EntryIn(R.TensorOf(s, base), base, file)
  {
    FoundIs(s);
    SameSize(s.dt, Product(s.shape));
    SizeIs(s.shape, ElemSize(s.dt));
    MadePlain(s.name, s.dt, s.shape, s.start, s.stop, base, file, Product(s.shape) * ElemSize(s.dt));
  }

  lemma {:induction false} FoundIs(s: Spec)
    requires (forall i :: 0 <= i < |s.shape| ==> IsInt64(s.shape[i])) && IsInt64(s.start) && IsInt64(s.stop)
    ensures R.Wrapped(s.shape) == s.shape && R.Found(s) == Entry(Some(s.dt), s.shape, Some((s.start, s.stop)))
  {
    R.WrappedHeld(s.shape);
  }

  lemma {:induction false} MadePlain(name: seq<Byte>, dt: DType, shape: seq<int>, o0: int, o1: int, base: int,
      file: int,
      size: int)
    requires 0 <= o0 <= o1 && 0 <= base && base + o1 <= file < Half64 && size == o1 - o0
    requires S64(Numel(shape) * ElemSize(dt)) == S64(size)
    ensures Made(name, Entry(Some(dt), shape, Some((o0, o1))), base, file) ==
      Some(Tensor(name, dt, shape, base + o0, o1 - o0))
  {
  }

  /** What the writer means, given where the data section starts. */
  function Written(ss: seq<Spec>, base: int): (r: seq<Tensor>)
    ensures |r| == |ss|
  {
    seq(|ss|, i requires 0 <= i < |ss| =>
      Tensor(ss[i].name, ss[i].dt, ss[i].shape, base + ss[i].start, ss[i].stop - ss[i].start))
  }

  lemma {:induction false} AllSane(K: Names, ss: seq<Spec>, base: int, file: int)
    requires forall i :: 0 <= i < |ss| ==> Sane(K, ss[i], base, file)
    ensures forall i :: 0 <= i < |ss| ==> R.SpecOk(K, ss[i], base, file)
    ensures R.TensorsOf(ss, base) == Written(ss, base)
    ensures forall t :: t in Written(ss, base) ==> EntryIn(t, base, file)
  {
    forall i | 0 <= i < |ss|
      ensures R.SpecOk(K, ss[i], base, file) && R.TensorOf(ss[i], base) == Written(ss, base)[i]
      ensures EntryIn(Written(ss, base)[i], base, file)
    {
      SaneOk(K, ss[i], base, file);
    }
  }

  /** A writer that keeps its tensors in the data section gets them all back, each at 8 + N + start. */
  lemma {:induction false} SaneRoundTrip(meta: Option<Value>, ss: seq<Spec>, file: int, K: Names, b: seq<Byte>)
    requires K == Standard() && b == HeaderText(K, Rows(meta, ss)) && (meta.Some? ==> ValueOk(meta.value))
    requires forall i :: 0 <= i < |ss| ==> Sane(K, ss[i], 8 + |b|, file)
    ensures Header(K, b, file) == Ok(Written(ss, 8 + |b|), |b|)
    ensures var base := 8 + |b|; forall t :: t in Written(ss, base) ==> EntryIn(t, base, file)
  {
    AllSane(K, ss, 8 + |b|, file);
    R.ShardRoundTrip(meta, ss, file, K, b);
  }
}
