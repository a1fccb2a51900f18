/** Where the arrays and tensors of an accepted GGUF header lie, src/formats/gguf.c:298-321 and
    367-397: the checks there wrap around or look at one end only. */
module GgufBounds {
  import opened GgufSpec
  import opened Bytes
  import opened Bits
  import opened Ints
  import R = GgufRoundTrip

  // -------------------------------------------------------------------------- words

  lemma {:induction false} LEBelow(b: seq<Byte>, p: nat, n: nat)
    requires p + n <= |b|
    ensures LE(b, p, n) < R.Pow256(n)
    decreases n
  {
    if n > 0 { LEBelow(b, p + 1, n - 1); }
  }

  lemma {:induction false} WordAt(b: seq<Byte>, p: nat)
    requires p + 8 <= |b|
    ensures LE(b, p, 8) < Word
  {
    LEBelow(b, p, 8);
    R.Widths();
  }

  /** A signed 64-bit value as the word it was read from. */
  function Unsigned(v: int): int { if v < 0 then v + Word else v }

  lemma SignedBack(v: nat)
    requires v < Word
    ensures Unsigned(Signed(v, 8)) == v && (Signed(v, 8) >= 0 <==> v < Word / 2)
  {
  }

  // ------------------------------------------------------------------------- tables

  /** Every row of a table comes from a piece somewhere in the header. */
  lemma {:induction false} ManyAt<T>(one: nat -> Step<T>, p: nat, k: nat, i: nat) returns (q: nat)
    requires Many(one, p, k).Got? && i < |Many(one, p, k).val|
    ensures one(q).Got? && one(q).val == Many(one, p, k).val[i]
    decreases k
  {
    if i == 0 { q := p; } else { q := ManyAt(one, one(p).at, k - 1, i - 1); }
  }

  /** An accepted header is two tables read one after the other and then closed. */
  lemma {:induction false} HeaderOpen(b: seq<Byte>, size: Sizer, file: int)
    returns (nkv: nat, nt: nat, p: nat, version: nat, at: nat)
    requires Header(b, size, file).Got?
    ensures Many(Entries(b), 24, nkv).Got? && Many(Entries(b), 24, nkv).at == p
    ensures Many(Rows(b, size), p, nt).Got? && Many(Rows(b, size), p, nt).at == at
    ensures Header(b, size, file) ==
      Finish(version, Many(Entries(b), 24, nkv).val, Many(Rows(b, size), p, nt).val, at, file)
  {
    var m := |Magic()|;
    version, nt, nkv := LE(b, m, 4), LE(b, m + 4, 8), LE(b, m + 12, 8);
    assert Body(Entries(b), Rows(b, size), Closing(file), version, nt, nkv).Got?;
    p := Many(Entries(b), 24, nkv).at;
    at := Many(Rows(b, size), p, nt).at;
  }

  // ------------------------------------------------------------------------- arrays

  /** The elements an array is said to have are all in the header. */
  predicate ArrayIn(b: seq<Byte>, kv: KV) { kv.arrData + Size(kv.arrTy) * Unsigned(kv.arrLen) <= |b| }

  predicate ScalarArray(kv: KV) { kv.ty == 9 && Size(kv.arrTy) > 0 }

  predicate NoWrap(kv: KV) { Size(kv.arrTy) * Unsigned(kv.arrLen) < Word }

  /** A length of 2^61 eight-byte elements is accepted with no bytes behind it, anywhere. */
  lemma {:induction false} HollowBody(b: seq<Byte>, key: seq<Byte>, p: nat)
    requires p <= |b|
    ensures ArrBody(b, key, 10, 0x2000_0000_0000_0000, p) == Got(ArrKV(key, 10, 0x2000_0000_0000_0000, p), p)
  {
    assert 8 * 0x2000_0000_0000_0000 == Word;
  }

  /** The same as a whole entry, under any key: it is accepted and ends where its payload should
      begin. */
  lemma {:induction false} HollowArray(b: seq<Byte>, p: nat, key: seq<Byte>)
    requires |key| < Word
    requires Has(b, p, R.EncStr(key) + (R.Enc(9, 4) + (R.Enc(10, 4) + (R.Enc(0x2000_0000_0000_0000, 8) + []))))
    ensures var q := p + 24 + |key|; Entry(b, p) == Got(ArrKV(key, 10, 0x2000_0000_0000_0000, q), q)
  {
    HollowEntry(b, p, p + 12 + |key|, key, 9, 10, 0x2000_0000_0000_0000);
    HollowBody(b, key, p + 24 + |key|);
  }

  lemma {:induction false} HollowEntry(b: seq<Byte>, p: nat, q: nat, key: seq<Byte>, tag: nat, t: nat, len: nat)
    requires |key| < Word && tag == 9 && t < 256 && 2 * len < Word && q == p + 12 + |key|
    requires Has(b, p, R.EncStr(key) + (R.Enc(tag, 4) + (R.Enc(t, 4) + (R.Enc(len, 8) + []))))
    ensures Entry(b, p) == ArrBody(b, key, t, len, q + 12) && q + 12 <= |b|
  {
    R.ArrTagged(b, p, q, key, tag, R.Enc(t, 4) + (R.Enc(len, 8) + []));
    R.ReadArrHead(b, q, key, t, len, []);
  }

  lemma {:induction false} ProductIn(p: nat, n: nat, have: nat)
    requires have < Word && p + n % Word <= have
    ensures p + n <= have <==> n < Word
  {
  }

  lemma {:induction false} BodyIn(b: seq<Byte>, key: seq<Byte>, t: nat, len: nat, p: nat)
    requires |b| < Word && len < Word && Size(t) > 0 && ArrBody(b, key, t, len, p).Got?
    ensures var kv := ArrBody(b, key, t, len, p).val; ArrayIn(b, kv) <==> NoWrap(kv)
  {
    SignedBack(len);
    ProductIn(p, Size(t) * len, |b|);
  }

  lemma {:induction false} ValueIn(b: seq<Byte>, key: seq<Byte>, p: nat)
    requires |b| < Word && ArrValue(b, key, p).Got? && Size(ArrValue(b, key, p).val.arrTy) > 0
    ensures var kv := ArrValue(b, key, p).val; ArrayIn(b, kv) <==> NoWrap(kv)
  {
    WordAt(b, p + 4);
    BodyIn(b, key, LE(b, p, 4), LE(b, p + 4, 8), p + 12);
  }

  lemma {:induction false} EntryIn(b: seq<Byte>, p: nat)
    requires |b| < Word && Entry(b, p).Got? && ScalarArray(Entry(b, p).val)
    ensures var kv := Entry(b, p).val; ArrayIn(b, kv) <==> NoWrap(kv)
  {
    var key, q := Str(b, p).val, Str(b, p).at;
    assert Value(b, key, LE(b, q, 4), q + 4).Got?;
    ValueIn(b, key, q + 4);
  }

  /** A scalar array of an accepted header lies in the header if and only if its byte count does
      not wrap around. */
  lemma {:induction false} ArraysIn(b: seq<Byte>, size: Sizer, file: int, i: nat)
    requires |b| < Word && Header(b, size, file).Got? && i < |Header(b, size, file).val.kvs|
    requires ScalarArray(Header(b, size, file).val.kvs[i])
    ensures var kv := Header(b, size, file).val.kvs[i]; ArrayIn(b, kv) <==> NoWrap(kv)
  {
    var nkv, nt, p, version, at := HeaderOpen(b, size, file);
    var q := ManyAt(Entries(b), 24, nkv, i);
    EntryIn(b, q);
  }

  // ------------------------------------------------------------------------ tensors

  /** A tensor lies in the data section. */
  predicate TensorIn(t: Tensor, start: int, file: int) { start <= start + t.rel && start + t.rel + t.nbytes <= file }

  /** A tensor row ends with its offset, which is read as a signed word. */
  lemma {:induction false} RowRel(b: seq<Byte>, size: Sizer, p: nat)
    requires Row(b, size, p).Got?
    ensures 8 <= Row(b, size, p).at <= |b| && Row(b, size, p).val.nbytes >= 0
    ensures var w := LE(b, Row(b, size, p).at - 8, 8); w < Word && Row(b, size, p).val.rel == Signed(w, 8)
    ensures exists u, v :: Row(b, size, p).val.nbytes == size(u, v)
  {
    var name, q := Str(b, p).val, Str(b, p).at;
    var nd := LE(b, q, 4);
    var dims, r := Nums(b, q + 4, 8, nd).val, Nums(b, q + 4, 8, nd).at;
    assert Described(b, size, name, q) == Tail(b, size, name, dims, r);
    WordAt(b, r + 4);
  }

  lemma {:induction false} SumsIn(t: Tensor, w: nat, start: int, file: int)
    requires w < Word && t.rel == Signed(w, 8) && 0 <= t.nbytes < Half64 && 0 <= start < Half64 && 0 <= file < Half64
    requires EndOf(t, start) <= file
    ensures TensorIn(t, start, file) <==> w < Half64 && start + w + t.nbytes < Half64
  {
    SignedBack(w);
  }

  // The data section starts below 2^63: an alignment is a power of two of 64 bits with a sign.

  lemma {:induction false} Pow2Grows(j: nat, k: nat)
    requires j <= k
    ensures Pow2(j) <= Pow2(k)
    decreases k
  {
    if j < k { Pow2Grows(j, k - 1); }
  }

  lemma {:induction false} PowerTimes(j: nat, a: nat, k: nat, b: nat) returns (m: nat)
    requires Pow2(j) == a && Pow2(k) == b
    ensures Pow2(m) == a * b
  {
    m := j + k;
    Pow2Sum(j, k);
  }

  lemma {:induction false} Pow2Sum(j: nat, k: nat)
    ensures Pow2(j + k) == Pow2(j) * Pow2(k)
    decreases k
  {
    if k > 0 { Pow2Sum(j, k - 1); }
  }

  lemma SmallPower() returns (k: nat)
    ensures Pow2(k) == 2
  {
    k := 1;
  }

  lemma {:induction false} HalfIsPower() returns (k: nat)
    ensures Pow2(k) == Half64
  {
    var p1 := SmallPower();
    var p2 := PowerTimes(p1, 2, p1, 2);
    var p4 := PowerTimes(p2, 4, p2, 4);
    var p8 := PowerTimes(p4, 0x10, p4, 0x10);
    var p16 := PowerTimes(p8, 0x100, p8, 0x100);
    var p32 := PowerTimes(p16, 0x1_0000, p16, 0x1_0000);
    var p48 := PowerTimes(p32, 0x1_0000_0000, p16, 0x1_0000);
    var p56 := PowerTimes(p48, 0x1_0000_0000_0000, p8, 0x100);
    var p60 := PowerTimes(p56, 0x100_0000_0000_0000, p4, 0x10);
    var p62 := PowerTimes(p60, 0x1000_0000_0000_0000, p2, 4);
    k := PowerTimes(p62, 0x4000_0000_0000_0000, p1, 2);
  }

  lemma {:induction false} PowerBelow(a: nat)
    requires 1 <= a < Half64 && And(a, a - 1) == 0
    ensures a <= Half64 / 2
  {
    var k := PowerOfTwo(a);
    var h := HalfIsPower();
    if k >= h { Pow2Grows(h, k); } else { Pow2Grows(k + 1, h); }
  }

  ghost predicate IntsIn(kvs: seq<KV>) { forall i :: 0 <= i < |kvs| ==> kvs[i].i < Half64 }

  lemma {:induction false} AlignmentBelow(kvs: seq<KV>)
    requires IntsIn(kvs)
    ensures Alignment(kvs) < Half64
  {
    if kvs != [] { AlignmentBelow(kvs[1..]); }
  }

  lemma {:induction false} IntBelow(b: seq<Byte>, t: nat, p: nat)
    requires Size(t) > 0 && t != 6 && t != 12 && p + Size(t) <= |b|
    ensures IntOf(t, LE(b, p, Size(t))) < Half64
  {
    LEBelow(b, p, Size(t));
    R.Widths();
    assert LE(b, p, Size(t)) < Span(Size(t));
  }

  lemma {:induction false} EntryBelow(b: seq<Byte>, p: nat)
    requires Entry(b, p).Got?
    ensures Entry(b, p).val.i < Half64
  {
    var key, q := Str(b, p).val, Str(b, p).at;
    var t := LE(b, q, 4);
    assert Entry(b, p) == Value(b, key, t, q + 4);
    if Size(t) > 0 && t != 6 && t != 12 { IntBelow(b, t, q + 4); }
  }

  lemma {:induction false} StartBelow(b: seq<Byte>, size: Sizer, file: int)
    requires Header(b, size, file).Got? && |b| <= Half64 / 2
    ensures Header(b, size, file).val.dataStart < Half64
  {
    var nkv, nt, p, version, at := HeaderOpen(b, size, file);
    var kvs, ts := Many(Entries(b), 24, nkv).val, Many(Rows(b, size), p, nt).val;
    IntsBelow(b, nkv);
    HeaderEnds(b, size, nkv, nt, p, at);
    FinishBelow(version, kvs, ts, at, file, Header(b, size, file));
  }

  lemma {:induction false} FinishBelow(version: nat, kvs: seq<KV>, ts: seq<Tensor>, p: nat, file: int, r: Step<Table>)
    requires r == Finish(version, kvs, ts, p, file) && r.Got? && p <= Half64 / 2
    requires IntsIn(kvs)
    ensures r.val.dataStart < Half64
  {
    AlignmentBelow(kvs);
    PowerBelow(Alignment(kvs));
    RoundUp(p, Alignment(kvs));
  }

  lemma {:induction false} IntsBelow(b: seq<Byte>, nkv: nat)
    requires Many(Entries(b), 24, nkv).Got?
    ensures IntsIn(Many(Entries(b), 24, nkv).val)
  {
    var kvs := Many(Entries(b), 24, nkv).val;
    forall i | 0 <= i < |kvs| ensures kvs[i].i < Half64 {
      var q := ManyAt(Entries(b), 24, nkv, i);
      EntryBelow(b, q);
    }
  }

  lemma {:induction false} HeaderEnds(b: seq<Byte>, size: Sizer, nkv: nat, nt: nat, p: nat, at: nat)
    requires |b| >= 24 && Many(Entries(b), 24, nkv).Got? && Many(Entries(b), 24, nkv).at == p
    requires Many(Rows(b, size), p, nt).Got? && Many(Rows(b, size), p, nt).at == at
    ensures at <= |b|
  {
    forall q: nat | q <= |b| ensures StaysIn(Entries(b), q, |b|) { EntryEnds(b, q); }
    ManyEnds(Entries(b), 24, nkv, |b|);
    forall q: nat | q <= |b| ensures StaysIn(Rows(b, size), q, |b|) {
      if Row(b, size, q).Got? { RowRel(b, size, q); }
    }
    ManyEnds(Rows(b, size), p, nt, |b|);
  }

  ghost predicate StaysIn<T(!new)>(one: nat -> Step<T>, q: nat, n: nat) { one(q).Got? ==> one(q).at <= n }

  lemma {:induction false} ManyEnds<T(!new)>(one: nat -> Step<T>, p: nat, k: nat, n: nat)
    requires Many(one, p, k).Got? && p <= n && forall q: nat :: q <= n ==> StaysIn(one, q, n)
    ensures Many(one, p, k).at <= n
    decreases k
  {
    if k > 0 {
      assert StaysIn(one, p, n);
      ManyEnds(one, one(p).at, k - 1, n);
    }
  }

  lemma {:induction false} EntryEnds(b: seq<Byte>, p: nat)
    ensures StaysIn(Entries(b), p, |b|)
  {
    if Entry(b, p).Got? {
      var key, q := Str(b, p).val, Str(b, p).at;
      ValueBounds(b, key, LE(b, q, 4), q + 4);
    }
  }

  /** Byte counts are 64-bit integers with a sign. */
  ghost predicate Int64Sizes(size: Sizer) { forall t, shape :: size(t, shape) < Half64 }

  /** An accepted tensor lies in the data section if and only if the offset stored for it is below
      2^63, since a larger one is taken as negative and only the tensor's end is checked, and the
      sum of start, offset and size is too, since a larger one wraps around. */
  lemma {:induction false} TensorsIn(b: seq<Byte>, size: Sizer, file: int, i: nat) returns (q: nat)
    requires Header(b, size, file).Got? && i < |Header(b, size, file).val.tensors|
    requires |b| <= Half64 / 2 && 0 <= file < Half64 && Int64Sizes(size)
    ensures Row(b, size, q).Got? && Row(b, size, q).val == Header(b, size, file).val.tensors[i]
    ensures 8 <= Row(b, size, q).at <= |b|
    ensures var h, w := Header(b, size, file).val, LE(b, Row(b, size, q).at - 8, 8);
      var t := h.tensors[i];
      TensorIn(t, h.dataStart, file) <==> w < Half64 && h.dataStart + w + t.nbytes < Half64
  {
    var nkv, nt, p, version, at := HeaderOpen(b, size, file);
    var ts := Many(Rows(b, size), p, nt).val;
    q := ManyAt(Rows(b, size), p, nt, i);
    RowRel(b, size, q);
    StartBelow(b, size, file);
    R.DataSection(version, Many(Entries(b), 24, nkv).val, ts, at, file);
    SumsIn(ts[i], LE(b, Row(b, size, q).at - 8, 8), Header(b, size, file).val.dataStart, file);
  }

  // -------------------------------------------------------------- two tensors let through

  /** The header of a file with one tensor of one float32. */
  ghost predicate OneFloat(b: seq<Byte>, size: Sizer, file: int, name: seq<Byte>, offset: nat)
  {
    && offset < Word && |name| < 0x1_0000_0000 && size(0, [1]) == 4 && |b| <= file < Half64
    && Has(b, 0, R.Encode(3, [], [R.Desc(name, [1], 0, offset)]))
  }

  function OneTable(name: seq<Byte>, offset: nat): Table
  {
    var t := Tensor(name, [1], 0, Signed(offset, 8), 4);
    var start := Aligned(56 + |name|, 32);
    Table(3, [], [t], 32, start, DataBytes([t]))
  }

  lemma {:induction false} OneSize(name: seq<Byte>, offset: nat)
    ensures |R.Encode(3, [], [R.Desc(name, [1], 0, offset)])| == 56 + |name|
  {
    var d := R.Desc(name, [1], 0, offset);
    R.NumsSize([1], 8);
    assert |R.EncDesc(d)| == 32 + |name|;
    assert R.EncAll(R.EncDesc, [d]) == R.EncDesc(d) + R.EncAll(R.EncDesc, []);
    assert R.EncAll(R.EncDesc, []) == [] && R.EncAll(R.EncItem, []) == [];
  }

  lemma {:induction false} Start32(p: nat)
    ensures And(32, 31) == 0 && p <= Aligned(p, 32) < p + 32
  {
    assert Pow2(5) == 32;
    MaskIsMod(32, 5);
    RoundUp(p, 32);
  }

  /** Such a header is accepted exactly when the computed end is inside the file. */
  lemma {:induction false} OneAccepted(b: seq<Byte>, size: Sizer, file: int, name: seq<Byte>, offset: nat)
    requires OneFloat(b, size, file, name, offset)
    ensures var h := OneTable(name, offset);
      && 56 + |name| <= h.dataStart < 88 + |name|
      && Header(b, size, file) ==
           if EndOf(h.tensors[0], h.dataStart) <= file then Got(h, 56 + |name|) else Malformed
  {
    var d := R.Desc(name, [1], 0, offset);
    OneTensor(size, name, offset);
    R.EncodedHeader(b, size, file, 3, [], [d]);
    OneSize(name, offset);
    OneFinish(name, offset, file);
  }

  lemma {:induction false} OneTensor(size: Sizer, name: seq<Byte>, offset: nat)
    requires offset < Word && |name| < 0x1_0000_0000 && size(0, [1]) == 4
    ensures R.Sized(size, R.Desc(name, [1], 0, offset))
    ensures R.DescTensors(size, [R.Desc(name, [1], 0, offset)]) == OneTable(name, offset).tensors
  {
    assert R.Shape([1]) == [1];
  }

  lemma {:induction false} OneFinish(name: seq<Byte>, offset: nat, file: int)
    ensures var h := OneTable(name, offset);
      && 56 + |name| <= h.dataStart < 88 + |name|
      && Finish(3, [], h.tensors, 56 + |name|, file) ==
           if EndOf(h.tensors[0], h.dataStart) <= file then Got(h, 56 + |name|) else Malformed
  {
    Start32(56 + |name|);
    var ts := OneTable(name, offset).tensors;
    assert forall t :: t in ts ==> t == ts[0];
    assert ts[0] in ts;
  }

  /** A tensor a million bytes before the data section is accepted, in any file that holds the
      header. */
  lemma {:induction false} BeforeTheFile(b: seq<Byte>, size: Sizer, file: int, name: seq<Byte>)
    requires OneFloat(b, size, file, name, Word - 1000000)
    ensures var h := OneTable(name, Word - 1000000);
      && Header(b, size, file) == Got(h, 56 + |name|)
      && h.tensors[0].rel == -1000000 && !TensorIn(h.tensors[0], h.dataStart, file)
  {
    OneAccepted(b, size, file, name, Word - 1000000);
  }

  /** So is one whose end wraps around, with an offset of 2^63 - 1. */
  lemma {:induction false} PastTheFile(b: seq<Byte>, size: Sizer, file: int, name: seq<Byte>)
    requires OneFloat(b, size, file, name, Half64 - 1)
    ensures var h := OneTable(name, Half64 - 1);
      && Header(b, size, file) == Got(h, 56 + |name|)
      && h.tensors[0].rel == Half64 - 1 && !TensorIn(h.tensors[0], h.dataStart, file)
  {
    OneAccepted(b, size, file, name, Half64 - 1);
    var h := OneTable(name, Half64 - 1);
    WrapsBelow(h.tensors[0], h.dataStart, file);
  }

  lemma WrapsBelow(t: Tensor, start: int, file: int)
    requires t.rel == Half64 - 1 && t.nbytes == 4 && 0 < start < Half64 / 2 && 0 <= file < Half64
    ensures EndOf(t, start) <= file && !TensorIn(t, start, file)
  {
    assert S64(start + (Half64 - 1)) == start - 1 - Half64;
  }
}
