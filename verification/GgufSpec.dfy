/** The GGUF header as a grammar over a byte prefix, src/formats/gguf.c:25-66 and 228-398: what
    parses, what is malformed whatever follows, and what is merely cut short. */
module GgufSpec {
  import opened Bits
  import opened Bytes
  import opened Ints

  /** A piece read up to `at`, a prefix too short to tell, or a file no extension can mend. */
  datatype Step<T> = Got(val: T, at: nat) | Short | Malformed

  const Word := 0x1_0000_0000_0000_0000   // 2^64

  // --------------------------------------------------------------------- primitives

  /** Little-endian value of `n` bytes from `p` on. */
  function LE(b: seq<Byte>, p: nat, n: nat): nat
    requires p + n <= |b|
    decreases n, p
  {
    if n == 0 then 0 else b[p] % 256 + 256 * LE(b, p + 1, n - 1)
  }

  function Num(b: seq<Byte>, p: nat, n: nat): Step<nat>
  {
    if p + n <= |b| then Got(LE(b, p, n), p + n) else Short
  }

  /** Two's complement of `n` bytes. */
  function Signed(v: nat, n: nat): int { if v >= Span(n) / 2 then v - Span(n) else v }

  /** How many values `n` bytes hold, for the widths the format uses. */
  function Span(n: nat): nat
  {
    if n == 1 then 0x100 else if n == 2 then 0x1_0000 else if n == 4 then 0x1_0000_0000 else Word
  }

  /** A length, then that many bytes. */
  function Str(b: seq<Byte>, p: nat): Step<seq<Byte>>
  {
    match Num(b, p, 8)
    case Got(n, q) => if q + n <= |b| then Got(b[q..q + n], q + n) else Short
    case _ => Short
  }

  /** `k` strings in a row; only where they end matters. */
  function Strs(b: seq<Byte>, p: nat, k: nat): Step<nat>
    decreases k
  {
    if k == 0 then Got(0, p)
    else match Str(b, p)
      case Got(_, q) => Strs(b, q, k - 1)
      case _ => Short
  }

  function Nums(b: seq<Byte>, p: nat, n: nat, k: nat): Step<seq<nat>>
    decreases k
  {
    if k == 0 then Got([], p)
    else match Num(b, p, n)
      case Got(v, q) => (match Nums(b, q, n, k - 1)
        case Got(vs, r) => Got([v] + vs, r)
        case other => Short)
      case _ => Short
  }

  // ----------------------------------------------------------------------- metadata

  /** Bytes of a scalar metadata type; 0 for strings, arrays and unknown types. */
  function Size(t: nat): nat
  {
    if t == 0 || t == 1 || t == 7 then 1
    else if t == 2 || t == 3 then 2
    else if t == 4 || t == 5 || t == 6 then 4
    else if t == 10 || t == 11 || t == 12 then 8
    else 0
  }

  /** A row of the metadata table. Fields a type does not use stay zero; `arrData` is where the
      payload of an array begins in the header. */
  datatype KV = KV(key: seq<Byte>, ty: nat, i: int, f: nat, str: seq<Byte>, arrTy: nat, arrLen: int, arrData: nat)

  function Blank(key: seq<Byte>, t: nat): KV { KV(key, t, 0, 0, [], 0, 0, 0) }

  /** What a scalar of type `t` with stored bits `v` means. */
  function IntOf(t: nat, v: nat): int
  {
    if t == 7 then (if v != 0 then 1 else 0)
    else if t == 1 || t == 3 || t == 5 || t == 10 || t == 11 then Signed(v, Size(t))
    else v
  }

  function ScalarKV(key: seq<Byte>, t: nat, v: nat): KV
  {
    if t == 6 || t == 12 then Blank(key, t).(f := v) else Blank(key, t).(i := IntOf(t, v))
  }

  function ArrKV(key: seq<Byte>, t: nat, len: int, data: nat): KV
  {
    Blank(key, 9).(arrTy := t, arrLen := len, arrData := data)
  }

  /** An array is not read, only passed over; the byte count is computed modulo 2^64. */
  function ArrBody(b: seq<Byte>, key: seq<Byte>, t: nat, len: nat, p: nat): Step<KV>
  {
    var kv := ArrKV(key, t, Signed(len, 8), p);
    if Size(t) > 0 then
      var need := Size(t) * len % Word;
      if p + need <= |b| then Got(kv, p + need) else Short
    else if t == 8 then
      match Strs(b, p, if Signed(len, 8) > 0 then Signed(len, 8) else 0)
      case Got(_, q) => Got(kv, q)
      case _ => Short
    else Malformed
  }

  function ArrValue(b: seq<Byte>, key: seq<Byte>, p: nat): Step<KV>
  {
    match Num(b, p, 4)
    case Got(t, q) => (match Num(b, q, 8)
      case Got(len, r) => ArrBody(b, key, t, len, r)
      case _ => Short)
    case _ => Short
  }

  function Value(b: seq<Byte>, key: seq<Byte>, t: nat, p: nat): Step<KV>
  {
    if Size(t) > 0 then
      match Num(b, p, Size(t))
      case Got(v, q) => Got(ScalarKV(key, t, v), q)
      case _ => Short
    else if t == 8 then
      match Str(b, p)
      case Got(s, q) => Got(Blank(key, 8).(str := s), q)
      case _ => Short
    else if t == 9 then ArrValue(b, key, p)
    else Malformed
  }

  function Entry(b: seq<Byte>, p: nat): Step<KV>
  {
    match Str(b, p)
    case Got(key, q) => (match Num(b, q, 4)
      case Got(t, r) => Value(b, key, t, r)
      case _ => Short)
    case _ => Short
  }

  // ------------------------------------------------------------------------ tensors

  datatype Tensor = Tensor(name: seq<Byte>, shape: seq<int>, ty: nat, rel: int, nbytes: int)

  /** How many bytes a tensor of a given type and shape takes; negative when it cannot be. */
  type Sizer = (nat, seq<int>) -> int

  predicate Known(t: nat)
  {
    t <= 3 || 6 <= t <= 15 || 24 <= t <= 28 || t == 30
  }

  function SignedAll(vs: seq<nat>): (r: seq<int>)
    ensures |r| == |vs|
  {
    seq(|vs|, i requires 0 <= i < |vs| => Signed(vs[i], 8))
  }

  function Made(size: Sizer, name: seq<Byte>, dims: seq<nat>, t: nat, rel: nat, at: nat): Step<Tensor>
  {
    var shape := SignedAll(dims);
    if !Known(t) || size(t, shape) < 0 then Malformed
    else Got(Tensor(name, shape, t, Signed(rel, 8), size(t, shape)), at)
  }

  function Tail(b: seq<Byte>, size: Sizer, name: seq<Byte>, dims: seq<nat>, p: nat): Step<Tensor>
  {
    match Num(b, p, 4)
    case Got(t, q) => (match Num(b, q, 8)
      case Got(rel, r) => Made(size, name, dims, t, rel, r)
      case _ => Short)
    case _ => Short
  }

  function Described(b: seq<Byte>, size: Sizer, name: seq<Byte>, p: nat): Step<Tensor>
  {
    match Num(b, p, 4)
    case Got(nd, q) =>
      if nd < 1 || nd > 4 then Malformed
      else (match Nums(b, q, 8, nd)
        case Got(dims, r) => Tail(b, size, name, dims, r)
        case _ => Short)
    case _ => Short
  }

  function Row(b: seq<Byte>, size: Sizer, p: nat): Step<Tensor>
  {
    match Str(b, p)
    case Got(name, q) => Described(b, size, name, q)
    case _ => Short
  }

  // ------------------------------------------------------------------------- tables

  /** `k` pieces in a row, stopping at the first that fails. */
  function Many<T>(one: nat -> Step<T>, p: nat, k: nat): Step<seq<T>>
    decreases k
  {
    if k == 0 then Got([], p)
    else match one(p)
      case Got(v, q) => (match Many(one, q, k - 1)
        case Got(vs, r) => Got([v] + vs, r)
        case Short => Short
        case Malformed => Malformed)
      case Short => Short
      case Malformed => Malformed
  }

  function Entries(b: seq<Byte>): nat -> Step<KV> { (p: nat) => Entry(b, p) }
  function Rows(b: seq<Byte>, size: Sizer): nat -> Step<Tensor> { (p: nat) => Row(b, size, p) }

  datatype Table = Table(version: nat, kvs: seq<KV>, tensors: seq<Tensor>, align: nat, dataStart: nat, dataBytes: int)

  /** A pooled name ends at its first zero byte when compared. */
  function CName(s: seq<Byte>): seq<Byte>
  {
    if s == [] || s[0] == 0 then [] else [s[0]] + CName(s[1..])
  }

  function AlignmentKey(): seq<Byte>
  {
    // general.alignment
    [0x67, 0x65, 0x6e, 0x65, 0x72, 0x61, 0x6c, 0x2e, 0x61, 0x6c, 0x69, 0x67, 0x6e, 0x6d, 0x65, 0x6e, 0x74]
  }

  /** The first entry of that name decides, if its integer is positive; otherwise 32. */
  function Alignment(kvs: seq<KV>): (a: nat)
    ensures a >= 1
  {
    if kvs == [] then 32
    else if CName(kvs[0].key) == AlignmentKey() then (if kvs[0].i > 0 then kvs[0].i else 32)
    else Alignment(kvs[1..])
  }

  function Aligned(p: nat, a: nat): nat
    requires a >= 1
  {
    (p + a - 1) - And(p + a - 1, a - 1)
  }

  /** Where a tensor ends, as the reader computes it: two sums in signed 64-bit arithmetic. */
  function EndOf(t: Tensor, start: int): int { S64(S64(start + t.rel) + t.nbytes) }

  predicate Fits(ts: seq<Tensor>, start: nat, file: int)
  {
    forall t :: t in ts ==> EndOf(t, start) <= file
  }

  function DataBytes(ts: seq<Tensor>): int
  {
    if ts == [] then 0
    else
      var d, t := DataBytes(ts[..|ts| - 1]), ts[|ts| - 1];
      if S64(t.rel + t.nbytes) > d then S64(t.rel + t.nbytes) else d
  }

  function Finish(version: nat, kvs: seq<KV>, ts: seq<Tensor>, p: nat, file: int): Step<Table>
  {
    var a := Alignment(kvs);
    if And(a, a - 1) != 0 then Malformed
    else if !Fits(ts, Aligned(p, a), file) then Malformed
    else Got(Table(version, kvs, ts, a, Aligned(p, a), DataBytes(ts)), p)
  }

  /** What is made of the two tables once both have been read. */
  type Closer = (nat, seq<KV>, seq<Tensor>, nat) -> Step<Table>

  function Closing(file: int): Closer { (version: nat, kvs, ts, p: nat) => Finish(version, kvs, ts, p, file) }

  /** Metadata, then tensors, each read by its own piece reader. */
  function Body(f: nat -> Step<KV>, g: nat -> Step<Tensor>, close: Closer, version: nat, nt: nat, nkv: nat): Step<Table>
  {
    match Many(f, 24, nkv)
    case Got(kvs, p) => (match Many(g, p, nt)
      case Got(ts, q) => close(version, kvs, ts, q)
      case Short => Short
      case Malformed => Malformed)
    case Short => Short
    case Malformed => Malformed
  }

  function Magic(): seq<Byte> { [0x47, 0x47, 0x55, 0x46] }   // GGUF

  function HeaderWith(b: seq<Byte>, f: nat -> Step<KV>, g: nat -> Step<Tensor>, close: Closer): Step<Table>
  {
    if |b| < 24 then Short
    else if b[..4] != Magic() then Malformed
    else
      var p := |Magic()|;
      var version, nt, nkv := LE(b, p, 4), LE(b, p + 4, 8), LE(b, p + 12, 8);
      Counted(f, g, close, version, nt, nkv)
  }

  /** The version and the two counts are checked before anything is read by them. */
  function Counted(f: nat -> Step<KV>, g: nat -> Step<Tensor>, close: Closer, version: nat, nt: nat, nkv: nat)
    : Step<Table>
  {
    if version != 2 && version != 3 then Malformed
    else if nt > 0x40_0000 || nkv > 0x10_0000 then Malformed
    else Body(f, g, close, version, nt, nkv)
  }

  /** The whole header of a file of a given size. */
  function Header(b: seq<Byte>, size: Sizer, file: int): Step<Table>
  {
    HeaderWith(b, Entries(b), Rows(b, size), Closing(file))
  }

  // ------------------------------------------------------------------------- bounds

  lemma StrBounds(b: seq<Byte>, p: nat)
    ensures Str(b, p).Got? ==> Str(b, p).at == p + 8 + |Str(b, p).val| <= |b|
  {
  }

  lemma {:induction false} StrsBounds(b: seq<Byte>, p: nat, k: nat)
    requires p <= |b|
    ensures Strs(b, p, k).Got? ==> p <= Strs(b, p, k).at <= |b|
    decreases k
  {
    if k > 0 {
      StrBounds(b, p);
      if Str(b, p).Got? { StrsBounds(b, Str(b, p).at, k - 1); }
    }
  }

  lemma {:induction false} ValueBounds(b: seq<Byte>, key: seq<Byte>, t: nat, p: nat)
    ensures Value(b, key, t, p).Got? ==> p <= Value(b, key, t, p).at <= |b|
  {
    StrBounds(b, p);
    if Num(b, p, 4).Got? && Num(b, p + 4, 8).Got? {
      var len := Num(b, p + 4, 8).val;
      StrsBounds(b, p + 12, if Signed(len, 8) > 0 then Signed(len, 8) else 0);
    }
  }

  lemma {:induction false} NumsBounds(b: seq<Byte>, p: nat, n: nat, k: nat)
    requires p <= |b|
    ensures Nums(b, p, n, k).Got? ==> p <= Nums(b, p, n, k).at <= |b| && |Nums(b, p, n, k).val| == k
    decreases k
  {
    if k > 0 && Num(b, p, n).Got? { NumsBounds(b, p + n, n, k - 1); }
  }

  // --------------------------------------------------------------- prefix stability

  ghost predicate Ext(b: seq<Byte>, c: seq<Byte>) { |b| <= |c| && b == c[..|b|] }

  /** What was decided on a prefix stays decided. */
  ghost predicate Settled<T(!new)>(x: Step<T>, y: Step<T>) { x != Short ==> x == y }

  lemma {:induction false} LEStable(b: seq<Byte>, c: seq<Byte>, p: nat, n: nat)
    requires Ext(b, c) && p + n <= |b|
    ensures LE(b, p, n) == LE(c, p, n)
    decreases n
  {
    if n > 0 { LEStable(b, c, p + 1, n - 1); }
  }

  lemma SliceStable(b: seq<Byte>, c: seq<Byte>, p: nat, q: nat)
    requires Ext(b, c) && p <= q <= |b|
    ensures b[p..q] == c[p..q]
  {
  }

  lemma {:induction false} NumStable(b: seq<Byte>, c: seq<Byte>, p: nat, n: nat)
    requires Ext(b, c)
    ensures Settled(Num(b, p, n), Num(c, p, n))
  {
    if p + n <= |b| { LEStable(b, c, p, n); }
  }

  lemma {:induction false} StrStable(b: seq<Byte>, c: seq<Byte>, p: nat)
    requires Ext(b, c)
    ensures Settled(Str(b, p), Str(c, p))
  {
    NumStable(b, c, p, 8);
    if Str(b, p).Got? {
      SliceStable(b, c, p + 8, p + 8 + LE(b, p, 8));
    }
  }

  lemma {:induction false} StrsStable(b: seq<Byte>, c: seq<Byte>, p: nat, k: nat)
    requires Ext(b, c)
    ensures Settled(Strs(b, p, k), Strs(c, p, k))
    decreases k
  {
    if k > 0 {
      StrStable(b, c, p);
      if Str(b, p).Got? { StrsStable(b, c, Str(b, p).at, k - 1); }
    }
  }

  lemma {:induction false} NumsStable(b: seq<Byte>, c: seq<Byte>, p: nat, n: nat, k: nat)
    requires Ext(b, c)
    ensures Settled(Nums(b, p, n, k), Nums(c, p, n, k))
    decreases k
  {
    if k > 0 {
      NumStable(b, c, p, n);
      if Num(b, p, n).Got? { NumsStable(b, c, Num(b, p, n).at, n, k - 1); }
    }
  }

  lemma {:induction false} ArrStable(b: seq<Byte>, c: seq<Byte>, key: seq<Byte>, p: nat)
    requires Ext(b, c)
    ensures Settled(ArrValue(b, key, p), ArrValue(c, key, p))
  {
    NumStable(b, c, p, 4);
    if Num(b, p, 4).Got? {
      NumStable(b, c, Num(b, p, 4).at, 8);
      if Num(b, p + 4, 8).Got? { ArrBodyStable(b, c, key, Num(b, p, 4).val, Num(b, p + 4, 8).val, p + 12); }
    }
  }

  lemma {:induction false} ArrBodyStable(b: seq<Byte>, c: seq<Byte>, key: seq<Byte>, t: nat, len: nat, p: nat)
    requires Ext(b, c)
    ensures Settled(ArrBody(b, key, t, len, p), ArrBody(c, key, t, len, p))
  {
    if Size(t) == 0 && t == 8 { StrsStable(b, c, p, if Signed(len, 8) > 0 then Signed(len, 8) else 0); }
  }

  lemma {:induction false} ValueStable(b: seq<Byte>, c: seq<Byte>, key: seq<Byte>, t: nat, p: nat)
    requires Ext(b, c)
    ensures Settled(Value(b, key, t, p), Value(c, key, t, p))
  {
    if Size(t) > 0 { NumStable(b, c, p, Size(t)); }
    else if t == 8 { StrStable(b, c, p); }
    else if t == 9 { ArrStable(b, c, key, p); }
  }

  lemma {:induction false} EntryStable(b: seq<Byte>, c: seq<Byte>, p: nat)
    requires Ext(b, c)
    ensures Settled(Entry(b, p), Entry(c, p))
  {
    StrStable(b, c, p);
    if Str(b, p).Got? {
      var key, q := Str(b, p).val, Str(b, p).at;
      NumStable(b, c, q, 4);
      if Num(b, q, 4).Got? { ValueStable(b, c, key, Num(b, q, 4).val, q + 4); }
    }
  }

  lemma {:induction false} DescribedStable(b: seq<Byte>, c: seq<Byte>, size: Sizer, name: seq<Byte>, p: nat)
    requires Ext(b, c)
    ensures Settled(Described(b, size, name, p), Described(c, size, name, p))
  {
    NumStable(b, c, p, 4);
    if Num(b, p, 4).Got? {
      var nd, q := Num(b, p, 4).val, p + 4;
      NumsStable(b, c, q, 8, nd);
      if Nums(b, q, 8, nd).Got? {
        var r := Nums(b, q, 8, nd).at;
        NumStable(b, c, r, 4);
        NumStable(b, c, r + 4, 8);
      }
    }
  }

  lemma {:induction false} RowStable(b: seq<Byte>, c: seq<Byte>, size: Sizer, p: nat)
    requires Ext(b, c)
    ensures Settled(Row(b, size, p), Row(c, size, p))
  {
    StrStable(b, c, p);
    if Str(b, p).Got? { DescribedStable(b, c, size, Str(b, p).val, Str(b, p).at); }
  }

  ghost predicate SettledAt<T(!new)>(f: nat -> Step<T>, g: nat -> Step<T>, p: nat) { Settled(f(p), g(p)) }

  lemma {:induction false} ManyStable<T(!new)>(f: nat -> Step<T>, g: nat -> Step<T>, p: nat, k: nat)
    requires forall q: nat :: SettledAt(f, g, q)
    ensures Settled(Many(f, p, k), Many(g, p, k))
    decreases k
  {
    if k > 0 {
      assert SettledAt(f, g, p);
      if f(p).Got? { ManyStable(f, g, f(p).at, k - 1); }
    }
  }

  lemma {:induction false} BodyStable(f: nat -> Step<KV>, f': nat -> Step<KV>, g: nat -> Step<Tensor>,
      g': nat -> Step<Tensor>, close: Closer, version: nat, nt: nat, nkv: nat)
    requires (forall q: nat :: SettledAt(f, f', q)) && forall q: nat :: SettledAt(g, g', q)
    ensures Settled(Body(f, g, close, version, nt, nkv), Body(f', g', close, version, nt, nkv))
  {
    ManyStable(f, f', 24, nkv);
    if Many(f, 24, nkv).Got? { ManyStable(g, g', Many(f, 24, nkv).at, nt); }
  }

  lemma {:induction false} CountedStable(f: nat -> Step<KV>, f': nat -> Step<KV>, g: nat -> Step<Tensor>,
      g': nat -> Step<Tensor>, close: Closer, version: nat, nt: nat, nkv: nat)
    requires (forall q: nat :: SettledAt(f, f', q)) && forall q: nat :: SettledAt(g, g', q)
    ensures Settled(Counted(f, g, close, version, nt, nkv), Counted(f', g', close, version, nt, nkv))
  {
    BodyStable(f, f', g, g', close, version, nt, nkv);
  }

  lemma {:induction false} CountsStable(b: seq<Byte>, c: seq<Byte>, p: nat)
    requires Ext(b, c) && p + 20 <= |b| && p >= 4
    ensures b[..4] == c[..4]
    ensures LE(b, p, 4) == LE(c, p, 4) && LE(b, p + 4, 8) == LE(c, p + 4, 8) && LE(b, p + 12, 8) == LE(c, p + 12, 8)
  {
    SliceStable(b, c, 0, 4);
    LEStable(b, c, p, 4);
    LEStable(b, c, p + 4, 8);
    LEStable(b, c, p + 12, 8);
  }

  lemma {:induction false} HeaderWithIs(b: seq<Byte>, f: nat -> Step<KV>, g: nat -> Step<Tensor>, close: Closer, p: nat,
      version: nat, nt: nat, nkv: nat)
    requires |b| >= 24 && p == |Magic()| && version == LE(b, p, 4) && nt == LE(b, p + 4, 8) && nkv == LE(b, p + 12, 8)
    ensures HeaderWith(b, f, g, close) ==
      if b[..4] == Magic() then Counted(f, g, close, version, nt, nkv) else Malformed
  {
  }

  lemma {:induction false} HeaderWithStable(b: seq<Byte>, c: seq<Byte>, f: nat -> Step<KV>, f': nat -> Step<KV>,
      g: nat -> Step<Tensor>, g': nat -> Step<Tensor>, close: Closer)
    requires Ext(b, c) && (forall q: nat :: SettledAt(f, f', q)) && forall q: nat :: SettledAt(g, g', q)
    ensures Settled(HeaderWith(b, f, g, close), HeaderWith(c, f', g', close))
  {
    if |b| >= 24 {
      var p := |Magic()|;
      CountsStable(b, c, p);
      var version, nt, nkv := LE(b, p, 4), LE(b, p + 4, 8), LE(b, p + 12, 8);
      HeaderWithIs(b, f, g, close, p, version, nt, nkv);
      HeaderWithIs(c, f', g', close, p, version, nt, nkv);
      CountedStable(f, f', g, g', close, version, nt, nkv);
    }
  }

  /** Once a prefix is accepted or refused, every longer one gets the same verdict and tables. */
  lemma {:induction false} HeaderStable(b: seq<Byte>, c: seq<Byte>, size: Sizer, file: int)
    requires Ext(b, c)
    ensures Settled(Header(b, size, file), Header(c, size, file))
  {
    forall q: nat ensures SettledAt(Entries(b), Entries(c), q) { EntryStable(b, c, q); }
    forall q: nat ensures SettledAt(Rows(b, size), Rows(c, size), q) { RowStable(b, c, size, q); }
    HeaderWithStable(b, c, Entries(b), Entries(c), Rows(b, size), Rows(c, size), Closing(file));
  }
}
