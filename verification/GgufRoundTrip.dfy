/** Writing a GGUF version 3 header and reading it back, src/formats/gguf.c:25-66 and
    265-398. */
module GgufRoundTrip {
  import opened GgufSpec
  import opened Bytes
  import opened Bits
  import Ints

  // ----------------------------------------------------------------------- encoding

  function Pow256(n: nat): (p: nat)
    ensures p >= 1
  {
    if n == 0 then 1 else 256 * Pow256(n - 1)
  }

  function Enc(v: nat, n: nat): (s: seq<Byte>)
    ensures |s| == n
    decreases n, v
  {
    if n == 0 then [] else [v % 256] + Enc(v / 256, n - 1)
  }

  function EncStr(s: seq<Byte>): seq<Byte> { Enc(|s|, 8) + s }

  function EncStrs(ss: seq<seq<Byte>>): seq<Byte>
  {
    if ss == [] then [] else EncStr(ss[0]) + EncStrs(ss[1..])
  }

  function EncNums(vs: seq<nat>, n: nat): seq<Byte>
  {
    if vs == [] then [] else Enc(vs[0], n) + EncNums(vs[1..], n)
  }

  lemma {:induction false} NumsSize(vs: seq<nat>, n: nat)
    ensures |EncNums(vs, n)| == n * |vs|
    decreases |vs|
  {
    if vs != [] {
      NumsSize(vs[1..], n);
      assert n * |vs| == n + n * |vs[1..]|;
    }
  }

  /** The scalar types of the format. */
  datatype Wire = Uint8 | Int8 | Uint16 | Int16 | Uint32 | Int32 | Float32 | Bool | Uint64 | Int64 | Float64

  function Code(w: Wire): nat
  {
    match w
    case Uint8 => 0 case Int8 => 1 case Uint16 => 2 case Int16 => 3 case Uint32 => 4 case Int32 => 5
    case Float32 => 6 case Bool => 7 case Uint64 => 10 case Int64 => 11 case Float64 => 12
  }

  function Width(w: Wire): nat
  {
    match w
    case Uint8 => 1 case Int8 => 1 case Bool => 1
    case Uint16 => 2 case Int16 => 2
    case Uint32 => 4 case Int32 => 4 case Float32 => 4
    case Uint64 => 8 case Int64 => 8 case Float64 => 8
  }

  /** How many bit patterns a type has. */
  function Patterns(w: Wire): nat
  {
    match Width(w)
    case 1 => 0x100
    case 2 => 0x1_0000
    case 4 => 0x1_0000_0000
    case _ => 0x1_0000_0000_0000_0000
  }

  predicate Float(w: Wire) { w == Float32 || w == Float64 }

  /** The integer some stored bits stand for. An unsigned one of 64 bits is kept in a signed field. */
  function IntMeaning(w: Wire, bits: nat): int
  {
    match w
    case Uint8 => bits
    case Uint16 => bits
    case Uint32 => bits
    case Int8 => if bits < 0x80 then bits else bits - 0x100
    case Int16 => if bits < 0x8000 then bits else bits - 0x1_0000
    case Int32 => if bits < 0x8000_0000 then bits else bits - 0x1_0000_0000
    case Bool => if bits == 0 then 0 else 1
    case _ => if bits < 0x8000_0000_0000_0000 then bits else bits - 0x1_0000_0000_0000_0000
  }

  /** The reader's own tables agree. */
  lemma WireTable(w: Wire)
    ensures Size(Code(w)) == Width(w) && Span(Width(w)) == Patterns(w) && Code(w) < 256
    ensures Width(w) == 1 || Width(w) == 2 || Width(w) == 4 || Width(w) == 8
    ensures Code(w) != 8 && Code(w) != 9
  {
  }

  /** Metadata values as a writer knows them: stored bits of a scalar type, text, and arrays. */
  datatype Meta =
    | Scalar(w: Wire, bits: nat)
    | Text(s: seq<Byte>)
    | Scalars(w: Wire, elems: seq<nat>)
    | Texts(ss: seq<seq<Byte>>)

  datatype Item = Item(key: seq<Byte>, val: Meta)

  datatype Desc = Desc(name: seq<Byte>, dims: seq<nat>, t: nat, rel: nat)

  /** What fits the fields of the format. */
  predicate MetaOk(m: Meta)
  {
    match m
    case Scalar(w, bits) => bits < Patterns(w)
    case Text(s) => |s| < Word
    case Scalars(w, elems) =>
      && 2 * |elems| < Word && Width(w) * |elems| < Word
      && forall i :: 0 <= i < |elems| ==> elems[i] < Patterns(w)
    case Texts(ss) => 2 * |ss| < Word && forall i :: 0 <= i < |ss| ==> |ss[i]| < Word
  }

  predicate ItemOk(i: Item) { |i.key| < Word && MetaOk(i.val) }

  /** The tensor types the engine can represent. */
  function TensorTypes(): set<nat> { {0, 1, 2, 3, 6, 7, 8, 9, 10, 11, 12, 13, 14, 15, 24, 25, 26, 27, 28, 30} }

  predicate DescOk(d: Desc)
  {
    && |d.name| < Word && 1 <= |d.dims| <= 4 && (forall i :: 0 <= i < |d.dims| ==> d.dims[i] < Word)
    && d.t in TensorTypes() && d.rel < Word
  }

  function Tag(m: Meta): nat
  {
    match m case Scalar(w, _) => Code(w) case Text(_) => 8 case _ => 9
  }

  function Payload(m: Meta): seq<Byte>
  {
    match m
    case Scalar(w, bits) => Enc(bits, Width(w))
    case Text(s) => EncStr(s)
    case Scalars(w, elems) => Enc(Code(w), 4) + (Enc(|elems|, 8) + EncNums(elems, Width(w)))
    case Texts(ss) => Enc(8, 4) + (Enc(|ss|, 8) + EncStrs(ss))
  }

  function EncItem(i: Item): seq<Byte> { EncStr(i.key) + (Enc(Tag(i.val), 4) + Payload(i.val)) }

  function EncDesc(d: Desc): seq<Byte>
  {
    EncStr(d.name) + (Enc(|d.dims|, 4) + (EncNums(d.dims, 8) + (Enc(d.t, 4) + Enc(d.rel, 8))))
  }

  /** Encodings one after the other. */
  function EncAll<I>(enc: I -> seq<Byte>, its: seq<I>): seq<Byte>
  {
    if its == [] then [] else enc(its[0]) + EncAll(enc, its[1..])
  }

  function Counts(version: nat, nkv: nat, nt: nat): (s: seq<Byte>)
    ensures |s| == 24
  {
    Letters("GGUF") + (Enc(version, 4) + (Enc(nt, 8) + Enc(nkv, 8)))
  }

  /** A whole header. */
  function Encode(version: nat, items: seq<Item>, descs: seq<Desc>): seq<Byte>
  {
    Counts(version, |items|, |descs|) + (EncAll(EncItem, items) + EncAll(EncDesc, descs))
  }

  // -------------------------------------------------------------------- what is read

  lemma {:induction false} EncValue(b: seq<Byte>, p: nat, v: nat, n: nat)
    requires v < Pow256(n) && Has(b, p, Enc(v, n))
    ensures LE(b, p, n) == v
    decreases n
  {
    if n > 0 {
      HasSplit(b, p, [v % 256], Enc(v / 256, n - 1));
      EncValue(b, p + 1, v / 256, n - 1);
      assert b[p + 0] == [v % 256][0];
    }
  }

  lemma Widths()
    ensures Pow256(1) == Span(1) && Pow256(2) == Span(2) && Pow256(4) == Span(4) && Pow256(8) == Span(8)
  {
  }

  lemma {:induction false} ReadNum(b: seq<Byte>, p: nat, v: nat, n: nat)
    requires (n == 1 || n == 2 || n == 4 || n == 8) && v < Span(n) && Has(b, p, Enc(v, n))
    ensures Num(b, p, n) == Got(v, p + n)
  {
    Widths();
    EncValue(b, p, v, n);
  }

  lemma {:induction false} ReadStr(b: seq<Byte>, p: nat, s: seq<Byte>)
    requires |s| < Word && Has(b, p, EncStr(s))
    ensures Str(b, p) == Got(s, p + 8 + |s|)
  {
    HasSplit(b, p, Enc(|s|, 8), s);
    ReadNum(b, p, |s|, 8);
    assert b[p + 8..p + 8 + |s|] == s;
  }

  lemma {:induction false} ReadStrs(b: seq<Byte>, p: nat, ss: seq<seq<Byte>>)
    requires Has(b, p, EncStrs(ss)) && forall i :: 0 <= i < |ss| ==> |ss[i]| < Word
    ensures Strs(b, p, |ss|) == Got(0, p + |EncStrs(ss)|)
    decreases |ss|
  {
    if ss != [] {
      HasSplit(b, p, EncStr(ss[0]), EncStrs(ss[1..]));
      ReadStr(b, p, ss[0]);
      ReadStrs(b, p + 8 + |ss[0]|, ss[1..]);
    }
  }

  lemma {:induction false} ReadNums(b: seq<Byte>, p: nat, vs: seq<nat>, n: nat)
    requires (n == 1 || n == 2 || n == 4 || n == 8) && Has(b, p, EncNums(vs, n))
    requires forall i :: 0 <= i < |vs| ==> vs[i] < Span(n)
    ensures Nums(b, p, n, |vs|) == Got(vs, p + |EncNums(vs, n)|)
    decreases |vs|
  {
    if vs != [] {
      HasSplit(b, p, Enc(vs[0], n), EncNums(vs[1..], n));
      ReadNum(b, p, vs[0], n);
      ReadNums(b, p + n, vs[1..], n);
      assert [vs[0]] + vs[1..] == vs;
    }
  }

  // ------------------------------------------------------------------------- tables

  /** The row an entry at `p` must leave in the table. */
  function ItemKV(i: Item, p: nat): KV
  {
    var data := p + 8 + |i.key| + 16;
    match i.val
    case Scalar(w, bits) =>
      if Float(w) then KV(i.key, Code(w), 0, bits, [], 0, 0, 0)
      else KV(i.key, Code(w), IntMeaning(w, bits), 0, [], 0, 0, 0)
    case Text(s) => KV(i.key, 8, 0, 0, s, 0, 0, 0)
    case Scalars(w, elems) => KV(i.key, 9, 0, 0, [], Code(w), |elems|, data)
    case Texts(ss) => KV(i.key, 9, 0, 0, [], 8, |ss|, data)
  }

  /** What a run of pieces starting at `p` must leave, piece by piece. */
  function Outs<I, T>(enc: I -> seq<Byte>, out: (I, nat) -> T, its: seq<I>, p: nat): (r: seq<T>)
    ensures |r| == |its|
  {
    if its == [] then [] else [out(its[0], p)] + Outs(enc, out, its[1..], p + |enc(its[0])|)
  }

  ghost predicate Reads<I(!new), T(!new)>(b: seq<Byte>, f: nat -> Step<T>, enc: I -> seq<Byte>, out: (I, nat) -> T,
      i: I, q: nat)
  {
    Has(b, q, enc(i)) ==> f(q) == Got(out(i, q), q + |enc(i)|)
  }

  /** Reading a run of pieces, given that each one is read wherever it stands. */
  lemma {:induction false} ReadAll<I(!new), T(!new)>(b: seq<Byte>, f: nat -> Step<T>, enc: I -> seq<Byte>,
      out: (I, nat) -> T, its: seq<I>, p: nat)
    requires Has(b, p, EncAll(enc, its)) && forall i, q: nat :: 0 <= i < |its| ==> Reads(b, f, enc, out, its[i], q)
    ensures Many(f, p, |its|) == Got(Outs(enc, out, its, p), p + |EncAll(enc, its)|)
    decreases |its|
  {
    if its != [] {
      HasSplit(b, p, enc(its[0]), EncAll(enc, its[1..]));
      assert Reads(b, f, enc, out, its[0], p);
      ReadAll(b, f, enc, out, its[1..], p + |enc(its[0])|);
    }
  }

  lemma {:induction false} PastArrHead(b: seq<Byte>, p: nat, t: nat, len: nat, rest: seq<Byte>)
    requires Has(b, p, Enc(t, 4) + (Enc(len, 8) + rest))
    ensures Has(b, p + 12, rest)
  {
    HasSplit(b, p, Enc(t, 4), Enc(len, 8) + rest);
    HasSplit(b, p + 4, Enc(len, 8), rest);
  }

  lemma {:induction false} ReadArrHead(b: seq<Byte>, p: nat, key: seq<Byte>, t: nat, len: nat, rest: seq<Byte>)
    requires t < 256 && 2 * len < Word && Has(b, p, Enc(t, 4) + (Enc(len, 8) + rest))
    ensures ArrValue(b, key, p) == ArrBody(b, key, t, len, p + 12) && Has(b, p + 12, rest) && Signed(len, 8) == len
  {
    HasSplit(b, p, Enc(t, 4), Enc(len, 8) + rest);
    HasSplit(b, p + 4, Enc(len, 8), rest);
    ReadNum(b, p, t, 4);
    ReadNum(b, p + 4, len, 8);
  }

  lemma {:induction false} PastScalars(b: seq<Byte>, p: nat, key: seq<Byte>, t: nat, len: nat, n: nat)
    requires Size(t) > 0 && 2 * len < Word && n == Size(t) * len < Word && p + n <= |b|
    ensures ArrBody(b, key, t, len, p) == Got(ArrKV(key, t, len, p), p + n)
  {
  }

  lemma {:induction false} ReadScalars(b: seq<Byte>, p: nat, key: seq<Byte>, w: Wire, elems: seq<nat>)
    requires MetaOk(Scalars(w, elems)) && Has(b, p, Payload(Scalars(w, elems)))
    ensures ArrValue(b, key, p) == Got(ArrKV(key, Code(w), |elems|, p + 12), p + |Payload(Scalars(w, elems))|)
  {
    WireTable(w);
    NumsSize(elems, Width(w));
    ReadArrHead(b, p, key, Code(w), |elems|, EncNums(elems, Width(w)));
    PastScalars(b, p + 12, key, Code(w), |elems|, Width(w) * |elems|);
  }

  lemma {:induction false} ReadTexts(b: seq<Byte>, p: nat, key: seq<Byte>, ss: seq<seq<Byte>>)
    requires MetaOk(Texts(ss)) && Has(b, p, Payload(Texts(ss)))
    ensures ArrValue(b, key, p) == Got(ArrKV(key, 8, |ss|, p + 12), p + |Payload(Texts(ss))|)
  {
    ReadArrHead(b, p, key, 8, |ss|, EncStrs(ss));
    ReadStrs(b, p + 12, ss);
  }

  lemma ScalarsRow(key: seq<Byte>, w: Wire, elems: seq<nat>, p: nat)
    ensures ItemKV(Item(key, Scalars(w, elems)), p) == ArrKV(key, Code(w), |elems|, p + 24 + |key|)
  {
  }

  lemma TextsRow(key: seq<Byte>, ss: seq<seq<Byte>>, p: nat)
    ensures ItemKV(Item(key, Texts(ss)), p) == ArrKV(key, 8, |ss|, p + 24 + |key|)
  {
  }

  lemma ArrayAsValue(b: seq<Byte>, key: seq<Byte>, t: nat, q: nat)
    requires t == 9
    ensures Value(b, key, t, q) == ArrValue(b, key, q)
  {
  }

  lemma {:induction false} ScalarsPayload(b: seq<Byte>, p: nat, q: nat, key: seq<Byte>, w: Wire, elems: seq<nat>,
      m: Meta)
    requires m == Scalars(w, elems) && MetaOk(m) && q == p + 12 + |key| && Has(b, q, Payload(m))
    ensures Value(b, key, Tag(m), q) == Got(ItemKV(Item(key, m), p), q + |Payload(m)|)
  {
    ReadScalars(b, q, key, w, elems);
    ScalarsRow(key, w, elems, p);
    ArrayAsValue(b, key, Tag(m), q);
  }

  lemma {:induction false} TextsPayload(b: seq<Byte>, p: nat, q: nat, key: seq<Byte>, ss: seq<seq<Byte>>, m: Meta)
    requires m == Texts(ss) && MetaOk(m) && q == p + 12 + |key| && Has(b, q, Payload(m))
    ensures Value(b, key, Tag(m), q) == Got(ItemKV(Item(key, m), p), q + |Payload(m)|)
  {
    ReadTexts(b, q, key, ss);
    TextsRow(key, ss, p);
    ArrayAsValue(b, key, Tag(m), q);
  }

  lemma {:induction false} ReadScalar(b: seq<Byte>, p: nat, key: seq<Byte>, w: Wire, bits: nat)
    requires bits < Patterns(w) && Has(b, p + 12 + |key|, Enc(bits, Width(w)))
    ensures Value(b, key, Code(w), p + 12 + |key|) ==
      Got(ItemKV(Item(key, Scalar(w, bits)), p), p + 12 + |key| + Width(w))
  {
    WireTable(w);
    ReadNum(b, p + 12 + |key|, bits, Width(w));
  }

  lemma {:induction false} ReadPayload(b: seq<Byte>, p: nat, key: seq<Byte>, m: Meta)
    requires MetaOk(m) && Has(b, p + 12 + |key|, Payload(m))
    ensures Value(b, key, Tag(m), p + 12 + |key|) == Got(ItemKV(Item(key, m), p), p + 12 + |key| + |Payload(m)|)
  {
    var q: nat := p + 12 + |key|;
    match m
    case Scalar(w, bits) => ReadScalar(b, p, key, w, bits);
    case Text(s) => ReadStr(b, q, s);
    case Scalars(w, elems) => ScalarsPayload(b, p, q, key, w, elems, m);
    case Texts(ss) => TextsPayload(b, p, q, key, ss, m);
  }

  lemma {:induction false} ReadTagged(b: seq<Byte>, p: nat, key: seq<Byte>, t: nat, payload: seq<Byte>)
    requires |key| < Word && t < 256 && Has(b, p, EncStr(key) + (Enc(t, 4) + payload))
    ensures Entry(b, p) == Value(b, key, t, p + 12 + |key|) && Has(b, p + 12 + |key|, payload)
  {
    HasSplit(b, p, EncStr(key), Enc(t, 4) + payload);
    ReadStr(b, p, key);
    HasSplit(b, p + 8 + |key|, Enc(t, 4), payload);
    ReadNum(b, p + 8 + |key|, t, 4);
  }

  lemma {:induction false} ItemParts(i: Item)
    requires ItemOk(i)
    ensures |EncItem(i)| == 12 + |i.key| + |Payload(i.val)| && Tag(i.val) < 256
  {
    if i.val.Scalar? { WireTable(i.val.w); }
  }

  lemma {:induction false} ReadItem(b: seq<Byte>, p: nat, i: Item)
    requires ItemOk(i) && Has(b, p, EncItem(i))
    ensures Entry(b, p) == Got(ItemKV(i, p), p + |EncItem(i)|)
  {
    ItemParts(i);
    EntryAs(b, p, i.key, i.val, Tag(i.val), Payload(i.val));
  }

  lemma {:induction false} EntryAs(b: seq<Byte>, p: nat, key: seq<Byte>, m: Meta, t: nat, payload: seq<Byte>)
    requires |key| < Word && MetaOk(m) && t == Tag(m) && t < 256 && payload == Payload(m)
    requires Has(b, p, EncStr(key) + (Enc(t, 4) + payload))
    ensures Entry(b, p) == Got(ItemKV(Item(key, m), p), p + 12 + |key| + |payload|)
  {
    ReadTagged(b, p, key, t, payload);
    ReadPayload(b, p, key, m);
  }

  /** Dimensions and offsets are kept as signed words. */
  function Shape(dims: seq<nat>): (r: seq<int>)
    ensures |r| == |dims|
  {
    seq(|dims|, i requires 0 <= i < |dims| => IntMeaning(Int64, dims[i]))
  }

  function DescTensor(size: Sizer, d: Desc): Tensor
  {
    Tensor(d.name, Shape(d.dims), d.t, IntMeaning(Int64, d.rel), size(d.t, Shape(d.dims)))
  }

  lemma SignedShape(dims: seq<nat>)
    ensures SignedAll(dims) == Shape(dims)
  {
  }

  function DescOut(size: Sizer): (Desc, nat) -> Tensor { (d, _) => DescTensor(size, d) }

  ghost predicate Sized(size: Sizer, d: Desc) { DescOk(d) && size(d.t, Shape(d.dims)) >= 0 }

  lemma {:induction false} DescMade(size: Sizer, d: Desc, at: nat)
    requires Sized(size, d)
    ensures Made(size, d.name, d.dims, d.t, d.rel, at) == Got(DescTensor(size, d), at)
  {
    SignedShape(d.dims);
  }

  lemma {:induction false} ReadTail(b: seq<Byte>, p: nat, size: Sizer, d: Desc, tail: seq<Byte>)
    requires Sized(size, d) && tail == Enc(d.t, 4) + Enc(d.rel, 8) && Has(b, p, tail)
    ensures Tail(b, size, d.name, d.dims, p) == Got(DescTensor(size, d), p + 12)
  {
    HasSplit(b, p, Enc(d.t, 4), Enc(d.rel, 8));
    ReadNum(b, p, d.t, 4);
    ReadNum(b, p + 4, d.rel, 8);
    DescMade(size, d, p + 12);
  }

  lemma {:induction false} DescribedVia(b: seq<Byte>, p: nat, size: Sizer, name: seq<Byte>, nd: nat, dims: seq<nat>,
      q: nat)
    requires Num(b, p, 4) == Got(nd, p + 4) && 1 <= nd <= 4 && Nums(b, p + 4, 8, nd) == Got(dims, q)
    ensures Described(b, size, name, p) == Tail(b, size, name, dims, q)
  {
  }

  lemma {:induction false} DimsParts(b: seq<Byte>, p: nat, nd: nat, dims: seq<Byte>, tail: seq<Byte>)
    requires nd <= 4 && Has(b, p, Enc(nd, 4) + (dims + tail))
    ensures Num(b, p, 4) == Got(nd, p + 4) && Has(b, p + 4, dims) && Has(b, p + 4 + |dims|, tail)
  {
    HasSplit(b, p, Enc(nd, 4), dims + tail);
    ReadNum(b, p, nd, 4);
    HasSplit(b, p + 4, dims, tail);
  }

  lemma {:induction false} ReadDescribed(b: seq<Byte>, p: nat, size: Sizer, d: Desc, tail: seq<Byte>)
    requires DescOk(d) && Has(b, p, Enc(|d.dims|, 4) + (EncNums(d.dims, 8) + tail))
    ensures Num(b, p, 4) == Got(|d.dims|, p + 4) && Nums(b, p + 4, 8, |d.dims|) == Got(d.dims, p + 4 + 8 * |d.dims|)
    ensures Has(b, p + 4 + 8 * |d.dims|, tail)
  {
    DimsParts(b, p, |d.dims|, EncNums(d.dims, 8), tail);
    NumsSize(d.dims, 8);
    ReadNums(b, p + 4, d.dims, 8);
  }

  lemma {:induction false} ReadNamed(b: seq<Byte>, p: nat, name: seq<Byte>, rest: seq<Byte>)
    requires |name| < Word && Has(b, p, EncStr(name) + rest)
    ensures Str(b, p) == Got(name, p + 8 + |name|) && Has(b, p + 8 + |name|, rest)
  {
    HasSplit(b, p, EncStr(name), rest);
    ReadStr(b, p, name);
  }

  lemma RowVia(b: seq<Byte>, p: nat, size: Sizer, name: seq<Byte>, q: nat)
    requires Str(b, p) == Got(name, q)
    ensures Row(b, size, p) == Described(b, size, name, q)
  {
  }

  lemma DescSize(d: Desc)
    ensures |EncDesc(d)| == 24 + |d.name| + 8 * |d.dims|
  {
    NumsSize(d.dims, 8);
  }

  lemma {:induction false} ReadDesc(b: seq<Byte>, p: nat, size: Sizer, d: Desc)
    requires Sized(size, d) && Has(b, p, EncDesc(d))
    ensures Row(b, size, p) == Got(DescTensor(size, d), p + |EncDesc(d)|)
  {
    DescSize(d);
    RowOf(b, p, size, d, Enc(d.t, 4) + Enc(d.rel, 8));
  }

  lemma {:induction false} RowOf(b: seq<Byte>, p: nat, size: Sizer, d: Desc, tail: seq<Byte>)
    requires Sized(size, d) && tail == Enc(d.t, 4) + Enc(d.rel, 8)
    requires Has(b, p, EncStr(d.name) + (Enc(|d.dims|, 4) + (EncNums(d.dims, 8) + tail)))
    ensures Row(b, size, p) == Got(DescTensor(size, d), p + 24 + |d.name| + 8 * |d.dims|)
  {
    ReadNamed(b, p, d.name, Enc(|d.dims|, 4) + (EncNums(d.dims, 8) + tail));
    var q: nat := p + 8 + |d.name|;
    ReadRest(b, q, size, d, tail);
    RowVia(b, p, size, d.name, q);
  }

  lemma {:induction false} ReadRest(b: seq<Byte>, p: nat, size: Sizer, d: Desc, tail: seq<Byte>)
    requires Sized(size, d) && tail == Enc(d.t, 4) + Enc(d.rel, 8)
    requires Has(b, p, Enc(|d.dims|, 4) + (EncNums(d.dims, 8) + tail))
    ensures Described(b, size, d.name, p) == Got(DescTensor(size, d), p + 16 + 8 * |d.dims|)
  {
    var q: nat := p + 4 + 8 * |d.dims|;
    ReadDescribed(b, p, size, d, tail);
    DescribedVia(b, p, size, d.name, |d.dims|, d.dims, q);
    ReadTail(b, q, size, d, tail);
  }

  lemma {:induction false} ItemsRead(b: seq<Byte>, its: seq<Item>)
    requires forall i :: 0 <= i < |its| ==> ItemOk(its[i])
    ensures forall i, q: nat :: 0 <= i < |its| ==> Reads(b, Entries(b), EncItem, ItemKV, its[i], q)
  {
    forall i, q: nat | 0 <= i < |its| ensures Reads(b, Entries(b), EncItem, ItemKV, its[i], q) {
      if Has(b, q, EncItem(its[i])) { ReadItem(b, q, its[i]); }
    }
  }

  lemma {:induction false} DescsRead(b: seq<Byte>, size: Sizer, ds: seq<Desc>)
    requires forall i :: 0 <= i < |ds| ==> Sized(size, ds[i])
    ensures forall i, q: nat :: 0 <= i < |ds| ==> Reads(b, Rows(b, size), EncDesc, DescOut(size), ds[i], q)
  {
    forall i, q: nat | 0 <= i < |ds| ensures Reads(b, Rows(b, size), EncDesc, DescOut(size), ds[i], q) {
      if Has(b, q, EncDesc(ds[i])) { ReadDesc(b, q, size, ds[i]); }
    }
  }

  ghost predicate Opens(b: seq<Byte>, version: nat, nt: nat, nkv: nat)
  {
    && |b| >= 24 && b[..4] == Magic()
    && var p := |Magic()|; LE(b, p, 4) == version && LE(b, p + 4, 8) == nt && LE(b, p + 12, 8) == nkv
  }

  lemma {:induction false} ReadCounts(b: seq<Byte>, version: nat, nkv: nat, nt: nat)
    requires Has(b, 0, Counts(version, nkv, nt)) && version < 4 && nkv < Word && nt < Word
    ensures Opens(b, version, nt, nkv)
  {
    var r2 := Enc(nt, 8) + Enc(nkv, 8);
    assert Letters("GGUF") == Magic();
    HasSplit(b, 0, Magic(), Enc(version, 4) + r2);
    HasSplit(b, 4, Enc(version, 4), r2);
    HasSplit(b, 8, Enc(nt, 8), Enc(nkv, 8));
    assert b[..4] == Magic();
    ReadNum(b, 4, version, 4);
    ReadNum(b, 8, nt, 8);
    ReadNum(b, 16, nkv, 8);
  }

  /** Any two tables whose pieces are read wherever they stand. */
  lemma {:induction false} BothRead<I(!new), D(!new)>(b: seq<Byte>, f: nat -> Step<KV>, g: nat -> Step<Tensor>,
      enc: I -> seq<Byte>, out: (I, nat) -> KV, denc: D -> seq<Byte>, dout: (D, nat) -> Tensor,
      items: seq<I>, descs: seq<D>, p: nat)
    returns (kvs: Step<seq<KV>>, ts: Step<seq<Tensor>>)
    requires p == 24 + |EncAll(enc, items)| && Has(b, 24, EncAll(enc, items)) && Has(b, p, EncAll(denc, descs))
    requires forall i, q: nat :: 0 <= i < |items| ==> Reads(b, f, enc, out, items[i], q)
    requires forall i, q: nat :: 0 <= i < |descs| ==> Reads(b, g, denc, dout, descs[i], q)
    ensures kvs == Many(f, 24, |items|) == Got(Outs(enc, out, items, 24), p)
    ensures ts == Many(g, p, |descs|) == Got(Outs(denc, dout, descs, p), p + |EncAll(denc, descs)|)
  {
    ReadAll(b, f, enc, out, items, 24);
    ReadAll(b, g, denc, dout, descs, p);
    kvs, ts := Many(f, 24, |items|), Many(g, p, |descs|);
  }

  lemma {:induction false} HeaderFrom<I(!new), D(!new)>(b: seq<Byte>, f: nat -> Step<KV>, g: nat -> Step<Tensor>,
      close: Closer, enc: I -> seq<Byte>, out: (I, nat) -> KV, denc: D -> seq<Byte>,
      dout: (D, nat) -> Tensor, version: nat, items: seq<I>, descs: seq<D>, p: nat)
    returns (kvs: seq<KV>, ts: seq<Tensor>, at: nat)
    requires version == 2 || version == 3
    requires |descs| <= 0x40_0000 && |items| <= 0x10_0000 && p == 24 + |EncAll(enc, items)|
    requires Has(b, 0, Counts(version, |items|, |descs|) + (EncAll(enc, items) + EncAll(denc, descs)))
    requires forall i, q: nat :: 0 <= i < |items| ==> Reads(b, f, enc, out, items[i], q)
    requires forall i, q: nat :: 0 <= i < |descs| ==> Reads(b, g, denc, dout, descs[i], q)
    ensures kvs == Outs(enc, out, items, 24) && ts == Outs(denc, dout, descs, p) && at == p + |EncAll(denc, descs)|
    ensures HeaderWith(b, f, g, close) == close(version, kvs, ts, at)
  {
    HeaderParts(b, version, |items|, |descs|, EncAll(enc, items), EncAll(denc, descs));
    var k, t := BothRead(b, f, g, enc, out, denc, dout, items, descs, p);
    TwoTables(b, f, g, close, version, |items|, |descs|, k, t);
    kvs, ts, at := k.val, t.val, t.at;
  }

  lemma {:induction false} HeaderParts(b: seq<Byte>, version: nat, nkv: nat, nt: nat, e1: seq<Byte>, e2: seq<Byte>)
    requires version < 4 && Has(b, 0, Counts(version, nkv, nt) + (e1 + e2)) && nkv < Word && nt < Word
    ensures Opens(b, version, nt, nkv) && Has(b, 24, e1) && Has(b, 24 + |e1|, e2)
  {
    HasSplit(b, 0, Counts(version, nkv, nt), e1 + e2);
    ReadCounts(b, version, nkv, nt);
    HasSplit(b, 24, e1, e2);
  }

  function DescTensors(size: Sizer, ds: seq<Desc>): (r: seq<Tensor>)
    ensures |r| == |ds|
  {
    seq(|ds|, i requires 0 <= i < |ds| => DescTensor(size, ds[i]))
  }

  /** Tensor rows do not depend on where their descriptions stand. */
  lemma {:induction false} OutsFlat<I(!new), T(!new)>(enc: I -> seq<Byte>, out: (I, nat) -> T, its: seq<I>,
      flat: seq<T>, p: nat)
    requires |flat| == |its| && forall i, q: nat :: 0 <= i < |its| ==> out(its[i], q) == flat[i]
    ensures Outs(enc, out, its, p) == flat
    decreases |its|
  {
    if its != [] { OutsFlat(enc, out, its[1..], flat[1..], p + |enc(its[0])|); }
  }

  /** Parsing inverts encoding: whatever follows the header, the tables are those of the list,
      and the walk ends at the last header byte. */
  lemma {:induction false} HeaderRoundTrip(b: seq<Byte>, size: Sizer, close: Closer, version: nat, items: seq<Item>,
      descs: seq<Desc>)
    returns (kvs: seq<KV>, ts: seq<Tensor>, at: nat)
    requires version == 2 || version == 3
    requires Has(b, 0, Encode(version, items, descs)) && |items| <= 0x10_0000 && |descs| <= 0x40_0000
    requires forall i :: 0 <= i < |items| ==> ItemOk(items[i])
    requires forall i :: 0 <= i < |descs| ==> Sized(size, descs[i])
    ensures kvs == Outs(EncItem, ItemKV, items, 24) && ts == DescTensors(size, descs)
    ensures at == |Encode(version, items, descs)|
    ensures HeaderWith(b, Entries(b), Rows(b, size), close) == close(version, kvs, ts, at)
  {
    ItemsRead(b, items);
    DescsRead(b, size, descs);
    var p: nat := 24 + |EncAll(EncItem, items)|;
    kvs, ts, at := HeaderFrom(b, Entries(b), Rows(b, size), close, EncItem, ItemKV, EncDesc, DescOut(size), version,
      items,
      descs, p);
    OutsFlat(EncDesc, DescOut(size), descs, DescTensors(size, descs), p);
  }

  /** The same with the checks on alignment and file size that close the parse. */
  lemma {:induction false} EncodedHeader(b: seq<Byte>, size: Sizer, file: int, version: nat, items: seq<Item>,
      descs: seq<Desc>)
    requires version == 2 || version == 3
    requires Has(b, 0, Encode(version, items, descs)) && |items| <= 0x10_0000 && |descs| <= 0x40_0000
    requires forall i :: 0 <= i < |items| ==> ItemOk(items[i])
    requires forall i :: 0 <= i < |descs| ==> Sized(size, descs[i])
    ensures Header(b, size, file) ==
      Finish(version, Outs(EncItem, ItemKV, items, 24), DescTensors(size, descs), |Encode(version, items, descs)|, file)
  {
    var kvs, ts, at := HeaderRoundTrip(b, size, Closing(file), version, items, descs);
  }

  lemma {:induction false} TwoTables(b: seq<Byte>, f: nat -> Step<KV>, g: nat -> Step<Tensor>, close: Closer,
      version: nat, nkv: nat, nt: nat, kvs: Step<seq<KV>>, ts: Step<seq<Tensor>>)
    requires (version == 2 || version == 3) && Opens(b, version, nt, nkv)
    requires nt <= 0x40_0000 && nkv <= 0x10_0000
    requires kvs.Got? && kvs == Many(f, 24, nkv) && ts.Got? && ts == Many(g, kvs.at, nt)
    ensures HeaderWith(b, f, g, close) == close(version, kvs.val, ts.val, ts.at)
  {
  }

  /** The data section starts at the least aligned offset at or after the header, and the end
      computed for every accepted tensor is inside the file. */
  lemma {:induction false} DataSection(version: nat, kvs: seq<KV>, ts: seq<Tensor>, p: nat, file: int)
    requires Finish(version, kvs, ts, p, file).Got?
    ensures var t := Finish(version, kvs, ts, p, file).val;
      && p <= t.dataStart < p + t.align && t.dataStart % t.align == 0
      && (forall x :: p <= x < t.dataStart ==> x % t.align != 0)
      && (forall i :: 0 <= i < |ts| ==> EndOf(ts[i], t.dataStart) <= file)
  {
    var a := Alignment(kvs);
    RoundUp(p, a);
    var start := Aligned(p, a);
    forall x | p <= x < start ensures x % a != 0 { BetweenMultiples(x, start, a); }
    assert forall i :: 0 <= i < |ts| ==> ts[i] in ts;
  }

  lemma BetweenMultiples(x: nat, y: nat, a: nat)
    requires a >= 1 && x < y < x + a && y % a == 0
    ensures x % a != 0
  {
    var q := y / a - 1;
    assert y == (q + 1) * a == q * a + a;
    Ints.DivUnique(x, a, q, x - q * a);
  }

  // ------------------------------------------------------------------- what is refused

  /** A metadata type the format does not have is refused, whatever follows. */
  lemma {:induction false} UnknownType(b: seq<Byte>, p: nat, key: seq<Byte>, t: nat, payload: seq<Byte>)
    requires |key| < Word && 12 < t < 256 && Has(b, p, EncStr(key) + (Enc(t, 4) + payload))
    ensures Entry(b, p) == Malformed
  {
    ReadTagged(b, p, key, t, payload);
  }

  /** So is an array of arrays or of such a type. */
  lemma {:induction false} UnknownElements(b: seq<Byte>, p: nat, key: seq<Byte>, tag: nat, t: nat, len: nat,
      rest: seq<Byte>)
    requires |key| < Word && tag == 9 && (t == 9 || 12 < t < 256) && 2 * len < Word
    requires Has(b, p, EncStr(key) + (Enc(tag, 4) + (Enc(t, 4) + (Enc(len, 8) + rest))))
    ensures Entry(b, p) == Malformed
  {
    var q: nat := p + 12 + |key|;
    ArrTagged(b, p, q, key, tag, Enc(t, 4) + (Enc(len, 8) + rest));
    ReadArrHead(b, q, key, t, len, rest);
  }

  lemma {:induction false} ArrTagged(b: seq<Byte>, p: nat, q: nat, key: seq<Byte>, tag: nat, payload: seq<Byte>)
    requires |key| < Word && tag == 9 && q == p + 12 + |key| && Has(b, p, EncStr(key) + (Enc(tag, 4) + payload))
    ensures Entry(b, p) == ArrValue(b, key, q) && Has(b, q, payload)
  {
    ReadTagged(b, p, key, tag, payload);
    ArrayAsValue(b, key, tag, q);
  }

  /** And a tensor of a type the engine cannot represent, or of no or more than four dimensions. */
  lemma {:induction false} UnknownTensor(b: seq<Byte>, size: Sizer, p: nat)
    requires Row(b, size, p).Got?
    ensures Row(b, size, p).val.ty in TensorTypes() && 1 <= |Row(b, size, p).val.shape| <= 4
  {
    var name, q := Str(b, p).val, Str(b, p).at;
    var nd := LE(b, q, 4);
    var dims, r := Nums(b, q + 4, 8, nd).val, Nums(b, q + 4, 8, nd).at;
    NumsLength(b, q + 4, 8, nd);
    assert Described(b, size, name, q) == Tail(b, size, name, dims, r);
  }

  lemma {:induction false} NumsLength(b: seq<Byte>, p: nat, n: nat, k: nat)
    requires Nums(b, p, n, k).Got?
    ensures |Nums(b, p, n, k).val| == k
    decreases k
  {
    if k > 0 { NumsLength(b, p + n, n, k - 1); }
  }

  lemma {:induction false} ManyLength<T>(one: nat -> Step<T>, p: nat, k: nat)
    requires Many(one, p, k).Got?
    ensures |Many(one, p, k).val| == k
    decreases k
  {
    if k > 0 { ManyLength(one, one(p).at, k - 1); }
  }

  /** What every accepted header is: it opens with the magic, its version is 2 or 3, its tables are no
      longer than their limits, and its alignment is a power of two. */
  lemma {:induction false} Accepted(b: seq<Byte>, size: Sizer, file: int) returns (k: nat)
    requires Header(b, size, file).Got?
    ensures |b| >= 24 && b[..4] == Letters("GGUF")
    ensures var t := Header(b, size, file).val;
      && (t.version == 2 || t.version == 3) && t.align == Pow2(k)
      && |t.kvs| <= 0x10_0000 && |t.tensors| <= 0x40_0000
  {
    assert Letters("GGUF") == Magic();
    var m := |Magic()|;
    var nt, nkv := LE(b, m + 4, 8), LE(b, m + 12, 8);
    ManyLength(Entries(b), 24, nkv);
    ManyLength(Rows(b, size), Many(Entries(b), 24, nkv).at, nt);
    k := PowerOfTwo(Header(b, size, file).val.align);
  }

  // ---------------------------------------------------------------- alignment and extent

  /** A name in the pool is the text, and then ends. */
  predicate Spells(s: seq<Byte>, text: string)
  {
    Letters(text) <= s && (|s| > |text| ==> s[|text|] == 0)
  }

  lemma {:induction false} NameIs(s: seq<Byte>, t: seq<Byte>)
    requires 0 !in t
    ensures CName(s) == t <==> t <= s && (|s| > |t| ==> s[|t|] == 0)
    decreases |s|
  {
    if s != [] && s[0] != 0 && t != [] {
      NameIs(s[1..], t[1..]);
      assert t == [t[0]] + t[1..] && s == [s[0]] + s[1..];
    }
  }

  lemma {:induction false} KeyIs(s: seq<Byte>)
    ensures CName(s) == AlignmentKey() <==> Spells(s, "general.alignment")
  {
    assert Letters("general.alignment") == AlignmentKey();
    NameIs(s, AlignmentKey());
  }

  /** The first entry named general.alignment decides, if it is positive; otherwise it is 32. */
  lemma {:induction false} AlignmentIs(kvs: seq<KV>, i: nat)
    requires i <= |kvs| && forall j :: 0 <= j < i ==> !Spells(kvs[j].key, "general.alignment")
    requires i < |kvs| ==> Spells(kvs[i].key, "general.alignment")
    ensures Alignment(kvs) == if i < |kvs| && kvs[i].i > 0 then kvs[i].i else 32
    decreases i
  {
    if kvs != [] {
      KeyIs(kvs[0].key);
      if i > 0 { AlignmentIs(kvs[1..], i - 1); }
    }
  }

  function Extent(t: Tensor): int { Ints.S64(t.rel + t.nbytes) }

  /** The extent of the data section is the largest end of a tensor, or zero. */
  lemma {:induction false} LargestEnd(ts: seq<Tensor>)
    ensures DataBytes(ts) >= 0 && forall i :: 0 <= i < |ts| ==> Extent(ts[i]) <= DataBytes(ts)
    ensures DataBytes(ts) == 0 || exists i :: 0 <= i < |ts| && Extent(ts[i]) == DataBytes(ts)
    decreases |ts|
  {
    if ts != [] {
      var o := ts[..|ts| - 1];
      LargestEnd(o);
      if DataBytes(ts) == Extent(ts[|ts| - 1]) {
      } else if DataBytes(o) != 0 {
        var i :| 0 <= i < |o| && Extent(o[i]) == DataBytes(o);
        assert Extent(ts[i]) == DataBytes(ts);
      }
    }
  }

  // --------------------------------------------------------------------- reading back

  function TextsAt(b: seq<Byte>, p: nat, k: nat): seq<seq<Byte>>
    decreases k
  {
    if k == 0 then []
    else match Str(b, p)
      case Got(s, q) => [s] + TextsAt(b, q, k - 1)
      case _ => []
  }

  /** The type a code stands for. */
  function Typed(t: nat): Wire
  {
    if t == 0 then Uint8 else if t == 1 then Int8 else if t == 2 then Uint16 else if t == 3 then Int16
    else if t == 4 then Uint32 else if t == 5 then Int32 else if t == 6 then Float32 else if t == 7 then Bool
    else if t == 10 then Uint64 else if t == 11 then Int64 else Float64
  }

  /** A writer's value, recovered from a table row and the header it points into. */
  function ReadBack(b: seq<Byte>, kv: KV): Meta
  {
    if kv.ty == 8 then Text(kv.str)
    else if kv.ty == 9 then
      var n := if kv.arrLen > 0 then kv.arrLen else 0;
      if kv.arrTy == 8 then Texts(TextsAt(b, kv.arrData, n))
      else match Nums(b, kv.arrData, Width(Typed(kv.arrTy)), n)
        case Got(vs, _) => Scalars(Typed(kv.arrTy), vs)
        case _ => Scalars(Typed(kv.arrTy), [])
    else if kv.ty == 6 || kv.ty == 12 then Scalar(Typed(kv.ty), kv.f)
    else if kv.i >= 0 then Scalar(Typed(kv.ty), kv.i)
    else
      var bits := kv.i + Patterns(Typed(kv.ty));
      Scalar(Typed(kv.ty), if bits >= 0 then bits else 0)
  }

  /** Every bit of the value is kept: of a boolean only whether it is zero is. */
  predicate Canonical(m: Meta) { m.Scalar? && m.w == Bool ==> m.bits <= 1 }

  lemma OneText(b: seq<Byte>, p: nat, q: nat, k: nat, s: seq<Byte>, rest: seq<seq<Byte>>)
    requires k > 0 && Str(b, p) == Got(s, q) && TextsAt(b, q, k - 1) == rest
    ensures TextsAt(b, p, k) == [s] + rest
  {
  }

  lemma {:induction false} TextsBack(b: seq<Byte>, p: nat, ss: seq<seq<Byte>>)
    requires Has(b, p, EncStrs(ss)) && forall i :: 0 <= i < |ss| ==> |ss[i]| < Word
    ensures TextsAt(b, p, |ss|) == ss
    decreases |ss|
  {
    if ss != [] {
      HasSplit(b, p, EncStr(ss[0]), EncStrs(ss[1..]));
      ReadStr(b, p, ss[0]);
      var q: nat := p + 8 + |ss[0]|;
      TextsBack(b, q, ss[1..]);
      OneText(b, p, q, |ss|, ss[0], ss[1..]);
      assert ss == [ss[0]] + ss[1..];
    }
  }

  lemma {:induction false} PayloadBack(b: seq<Byte>, p: nat, key: seq<Byte>, m: Meta)
    requires MetaOk(m) && Canonical(m) && Has(b, p + 12 + |key|, Payload(m))
    ensures ReadBack(b, ItemKV(Item(key, m), p)) == m
  {
    match m
    case Scalar(w, bits) => ScalarBack(b, p, key, w, bits);
    case Text(s) =>
    case Scalars(w, elems) => NumsBackAt(b, p, key, w, elems);
    case Texts(ss) => TextsBackAt(b, p, key, ss);
  }

  lemma {:induction false} NumsBackAt(b: seq<Byte>, p: nat, key: seq<Byte>, w: Wire, elems: seq<nat>)
    requires MetaOk(Scalars(w, elems)) && Has(b, p + 12 + |key|, Payload(Scalars(w, elems)))
    ensures ReadBack(b, ItemKV(Item(key, Scalars(w, elems)), p)) == Scalars(w, elems)
  {
    PastScalarsHead(b, p + 12 + |key|, w, elems);
    NumsBackFrom(b, key, w, elems, p + 24 + |key|);
    ScalarsRow(key, w, elems, p);
  }

  lemma {:induction false} PastScalarsHead(b: seq<Byte>, p: nat, w: Wire, elems: seq<nat>)
    requires Has(b, p, Payload(Scalars(w, elems)))
    ensures Has(b, p + 12, EncNums(elems, Width(w)))
  {
    PastArrHead(b, p, Code(w), |elems|, EncNums(elems, Width(w)));
  }

  lemma {:induction false} NumsBackFrom(b: seq<Byte>, key: seq<Byte>, w: Wire, elems: seq<nat>, data: nat)
    requires MetaOk(Scalars(w, elems)) && Has(b, data, EncNums(elems, Width(w)))
    ensures ReadBack(b, ArrKV(key, Code(w), |elems|, data)) == Scalars(w, elems)
  {
    WireTable(w);
    ReadNums(b, data, elems, Width(w));
    BackNums(b, key, w, elems, data);
  }

  lemma BackNums(b: seq<Byte>, key: seq<Byte>, w: Wire, elems: seq<nat>, data: nat)
    requires Nums(b, data, Width(w), |elems|).Got? && Nums(b, data, Width(w), |elems|).val == elems
    ensures ReadBack(b, ArrKV(key, Code(w), |elems|, data)) == Scalars(w, elems)
  {
    assert Typed(Code(w)) == w && Code(w) != 8;
  }

  lemma BackTexts(b: seq<Byte>, key: seq<Byte>, ss: seq<seq<Byte>>, data: nat)
    requires TextsAt(b, data, |ss|) == ss
    ensures ReadBack(b, ArrKV(key, 8, |ss|, data)) == Texts(ss)
  {
  }

  lemma {:induction false} TextsBackAt(b: seq<Byte>, p: nat, key: seq<Byte>, ss: seq<seq<Byte>>)
    requires MetaOk(Texts(ss)) && Has(b, p + 12 + |key|, Payload(Texts(ss)))
    ensures ReadBack(b, ItemKV(Item(key, Texts(ss)), p)) == Texts(ss)
  {
    PastTexts(b, p + 12 + |key|, ss);
    TextsBackFrom(b, key, ss, p + 24 + |key|);
    TextsRow(key, ss, p);
  }

  lemma {:induction false} PastTexts(b: seq<Byte>, p: nat, ss: seq<seq<Byte>>)
    requires Has(b, p, Payload(Texts(ss)))
    ensures Has(b, p + 12, EncStrs(ss))
  {
    PastArrHead(b, p, 8, |ss|, EncStrs(ss));
  }

  lemma {:induction false} TextsBackFrom(b: seq<Byte>, key: seq<Byte>, ss: seq<seq<Byte>>, data: nat)
    requires MetaOk(Texts(ss)) && Has(b, data, EncStrs(ss))
    ensures ReadBack(b, ArrKV(key, 8, |ss|, data)) == Texts(ss)
  {
    TextsBack(b, data, ss);
    BackTexts(b, key, ss, data);
  }

  lemma {:induction false} ScalarBack(b: seq<Byte>, p: nat, key: seq<Byte>, w: Wire, bits: nat)
    requires bits < Patterns(w) && (w == Bool ==> bits <= 1)
    ensures ReadBack(b, ItemKV(Item(key, Scalar(w, bits)), p)) == Scalar(w, bits)
  {
    assert Typed(Code(w)) == w;
  }

  /** No information is lost: every scalar, string and array element comes back from the row
      its entry left in the table. */
  lemma {:induction false} ItemBack(b: seq<Byte>, p: nat, i: Item)
    requires ItemOk(i) && Canonical(i.val) && Has(b, p, EncItem(i))
    ensures ItemKV(i, p).key == i.key && ReadBack(b, ItemKV(i, p)) == i.val
  {
    ItemParts(i);
    ReadTagged(b, p, i.key, Tag(i.val), Payload(i.val));
    PayloadBack(b, p, i.key, i.val);
  }

  ghost predicate Back(b: seq<Byte>, kv: KV, i: Item) { kv.key == i.key && ReadBack(b, kv) == i.val }

  ghost predicate BackAt(b: seq<Byte>, enc: Item -> seq<Byte>, out: (Item, nat) -> KV, i: Item, q: nat)
  {
    Has(b, q, enc(i)) ==> Back(b, out(i, q), i)
  }

  lemma {:induction false} AllBack(b: seq<Byte>, enc: Item -> seq<Byte>, out: (Item, nat) -> KV, its: seq<Item>, p: nat)
    requires Has(b, p, EncAll(enc, its)) && forall i, q: nat :: 0 <= i < |its| ==> BackAt(b, enc, out, its[i], q)
    ensures forall i :: 0 <= i < |its| ==> Back(b, Outs(enc, out, its, p)[i], its[i])
    decreases |its|
  {
    if its != [] {
      HasSplit(b, p, enc(its[0]), EncAll(enc, its[1..]));
      assert BackAt(b, enc, out, its[0], p);
      AllBack(b, enc, out, its[1..], p + |enc(its[0])|);
    }
  }

  /** So the metadata table of an encoded list gives the list back, entry by entry. */
  lemma {:induction false} ItemsBack(b: seq<Byte>, its: seq<Item>, p: nat)
    requires Has(b, p, EncAll(EncItem, its))
    requires forall i :: 0 <= i < |its| ==> ItemOk(its[i]) && Canonical(its[i].val)
    ensures forall i :: 0 <= i < |its| ==> Back(b, Outs(EncItem, ItemKV, its, p)[i], its[i])
  {
    forall i, q: nat | 0 <= i < |its| ensures BackAt(b, EncItem, ItemKV, its[i], q) {
      if Has(b, q, EncItem(its[i])) { ItemBack(b, q, its[i]); }
    }
    AllBack(b, EncItem, ItemKV, its, p);
  }
}
