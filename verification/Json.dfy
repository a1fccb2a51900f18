/** The hand-written scanner for safetensors headers, src/io/k3_st.c:73-162 and 231-335. */
module Json {
  import opened Bytes
  import opened Ints
  import opened Wrappers

  // Text is plain `char` values, as the compiler's target has them: a byte of 0x80 or more is
  // negative where `char` is signed and itself where it is not. Everything here holds of both.

  /** A value read up to `at`, or a scan that failed. */
  datatype R<T> = Ok(val: T, at: nat) | Bad

  // ------------------------------------------------------------------------- tokens

  function Ws(b: seq<Byte>, p: nat): (q: nat)
    ensures p <= q && (p <= |b| ==> q <= |b|)
    decreases |b| - p
  {
    if p < |b| && 0 <= b[p] <= 0x20 then Ws(b, p + 1) else p
  }

  predicate At(b: seq<Byte>, p: nat, c: Byte) { p < |b| && b[p] == c }

  function Lit(b: seq<Byte>, p: nat, c: Byte): R<nat>
  {
    var q := Ws(b, p);
    if At(b, q, c) then Ok(0, q + 1) else Bad
  }

  const Quote := 0x22
  const Slash := 0x5C
  const Comma := 0x2C
  const Colon := 0x3A
  const Open := 0x7B
  const Close := 0x7D
  const OpenList := 0x5B
  const CloseList := 0x5D

  /** A hexadecimal digit as the scanner computes it, of any character; a negative one takes the
      first branch. */
  function Hex(h: Byte): int { if h <= 0x39 then h - 0x30 else (if h / 32 % 2 == 1 then h else h + 32) - 0x61 + 10 }

  const U32 := 0x1_0000_0000

  function Hex4(b: seq<Byte>, p: nat): nat
    requires p + 4 <= |b|
  {
    (((Hex(b[p]) * 16 + Hex(b[p + 1])) * 16 + Hex(b[p + 2])) * 16 + Hex(b[p + 3])) % U32
  }

  /** What follows a backslash, other than u. */
  function Unescape(e: Byte): Byte
  {
    if e == 0x6E then 0x0A else if e == 0x74 then 0x09 else if e == 0x72 then 0x0D
    else if e == 0x62 then 0x08 else if e == 0x66 then 0x0C else e
  }

  /** The next character of a string and where it ends; fails at the closing quote. */
  function Char(b: seq<Byte>, p: nat): R<Byte>
  {
    if p >= |b| || b[p] == Quote then Bad
    else if b[p] != Slash then Ok(b[p], p + 1)
    else if p + 1 >= |b| then Bad
    else if b[p + 1] != 0x75 then Ok(Unescape(b[p + 1]), p + 2)
    else if p + 6 > |b| then Bad
    else Ok(if Hex4(b, p + 2) < 128 then Hex4(b, p + 2) else 0x3F, p + 6)
  }

  lemma CharMoves(b: seq<Byte>, p: nat)
    ensures Char(b, p).Ok? ==> p < Char(b, p).at <= |b|
  {
  }

  /** The rest of a string after its opening quote, put after what was read so far. */
  function Chars(b: seq<Byte>, p: nat, acc: seq<Byte>): R<seq<Byte>>
    decreases |b| - p
  {
    if At(b, p, Quote) then Ok(acc, p + 1)
    else
      CharMoves(b, p);
      match Char(b, p)
      case Ok(c, q) => Chars(b, q, acc + [c])
      case Bad => Bad
  }

  function Str(b: seq<Byte>, p: nat, cap: nat): R<seq<Byte>>
  {
    var q := Ws(b, p);
    if !At(b, q, Quote) then Bad
    else
      match Chars(b, q + 1, [])
      case Ok(s, r) => if |s| + 1 > cap then Bad else Ok(s, r)
      case Bad => Bad
  }

  predicate Digit(b: seq<Byte>, p: nat) { p < |b| && 0x30 <= b[p] <= 0x39 }

  function Digits(b: seq<Byte>, p: nat, acc: int): R<int>
    decreases |b| - p
  {
    if Digit(b, p) then Digits(b, p + 1, acc * 10 + (b[p] - 0x30)) else Ok(acc, p)
  }

  /** A decimal integer, as far as 64 bits hold it. */
  function I64(b: seq<Byte>, p: nat): R<int>
  {
    var q := Ws(b, p);
    var signed := At(b, q, 0x2D) || At(b, q, 0x2B);
    var r := if signed then q + 1 else q;
    if !Digit(b, r) then Bad
    else
      match Digits(b, r, 0)
      case Ok(v, s) => Ok(S64(if At(b, q, 0x2D) then -v else v), s)
      case Bad => Bad
  }

  /** Wrapping at every digit is wrapping once. */
  lemma {:induction false} NextDigit(n: int, d: int)
    ensures S64(S64(n) * 10 + d) == S64(n * 10 + d)
  {
    var k := S64Moves(n);
    S64Same(S64(n) * 10 + d, n * 10 + d, 10 * k);
  }

  lemma {:induction false} Negated(n: int)
    ensures S64(-S64(n)) == S64(-n)
  {
    var k := S64Moves(n);
    S64Same(-S64(n), -n, -k);
  }

  // ------------------------------------------------------------- skipping any value

  /** Past the closing quote of a string; an escaped character is stepped over whole. */
  function SkipStr(b: seq<Byte>, p: nat): R<nat>
    decreases |b| - p
  {
    if p >= |b| then Bad
    else if b[p] == Quote then Ok(0, p + 1)
    else if b[p] == Slash then SkipStr(b, p + 2)
    else SkipStr(b, p + 1)
  }

  lemma {:induction false} SkipStrMoves(b: seq<Byte>, p: nat)
    ensures SkipStr(b, p).Ok? ==> p < SkipStr(b, p).at <= |b|
    decreases |b| - p
  {
    if p < |b| && b[p] != Quote { SkipStrMoves(b, if b[p] == Slash then p + 2 else p + 1); }
  }

  /** Nesting after one more character outside strings. */
  function Depth(c: Byte, depth: int): int
  {
    if c == Open || c == OpenList then depth + 1
    else if c == Close || c == CloseList then depth - 1
    else depth
  }

  /** Past the bracket that closes the nesting, staying out of strings. */
  function Nest(b: seq<Byte>, p: nat, depth: int): R<nat>
    decreases |b| - p
  {
    if p >= |b| then Bad
    else if b[p] == Quote then
      SkipStrMoves(b, p + 1);
      match SkipStr(b, p + 1)
      case Ok(_, q) => if depth > 0 then Nest(b, q, depth) else Ok(0, q)
      case Bad => Bad
    else
      var d := Depth(b[p], depth);
      if d > 0 then Nest(b, p + 1, d) else Ok(0, p + 1)
  }

  predicate Stops(b: seq<Byte>, p: nat) { p >= |b| || b[p] == Comma || b[p] == Close || b[p] == CloseList }

  function Atom(b: seq<Byte>, p: nat): nat
    decreases |b| - p
  {
    if Stops(b, p) then p else Atom(b, p + 1)
  }

  function Skip(b: seq<Byte>, p: nat): R<nat>
  {
    var q := Ws(b, p);
    if q >= |b| then Bad
    else if b[q] == Quote then SkipStr(b, q + 1)
    else if b[q] == Open || b[q] == OpenList then Nest(b, q, 0)
    else Ok(0, Atom(b, q))
  }

  // ------------------------------------------------------------------- tensor entries

  /** The words the format reserves. */
  datatype Names = Names(dtype: seq<Byte>, shape: seq<Byte>, offsets: seq<Byte>, metadata: seq<Byte>,
    typeName: DType -> seq<Byte>)

  function DTypeName(t: DType): seq<Byte>
  {
    match t
    case U8 => [0x55, 0x38]
    case BF16 => [0x42, 0x46, 0x31, 0x36]
    case F16 => [0x46, 0x31, 0x36]
    case F32 => [0x46, 0x33, 0x32]
  }

  /** dtype, shape, data_offsets, __metadata__; U8, BF16, F16, F32. */
  function Standard(): Names
  {
    Names([0x64, 0x74, 0x79, 0x70, 0x65], [0x73, 0x68, 0x61, 0x70, 0x65],
          [0x64, 0x61, 0x74, 0x61, 0x5F, 0x6F, 0x66, 0x66, 0x73, 0x65, 0x74, 0x73],
          [0x5F, 0x5F, 0x6D, 0x65, 0x74, 0x61, 0x64, 0x61, 0x74, 0x61, 0x5F, 0x5F], DTypeName)
  }

  /** Letter for letter. */
  lemma StandardWords()
    ensures var K := Standard();
      && K.dtype == Letters("dtype") && K.shape == Letters("shape")
      && K.offsets == Letters("data_offsets") && K.metadata == Letters("__metadata__")
      && K.typeName(U8) == Letters("U8") && K.typeName(BF16) == Letters("BF16")
      && K.typeName(F16) == Letters("F16") && K.typeName(F32) == Letters("F32")
  {
  }

  function DTypeOf(K: Names, s: seq<Byte>): Option<DType>
  {
    if s == K.typeName(U8) then Some(U8) else if s == K.typeName(BF16) then Some(BF16)
    else if s == K.typeName(F16) then Some(F16) else if s == K.typeName(F32) then Some(F32) else None
  }

  function ElemSize(t: DType): nat { match t case U8 => 1 case BF16 => 2 case F16 => 2 case F32 => 4 }

  function Numel(shape: seq<int>): int
  {
    if shape == [] then 1 else S64(Numel(shape[..|shape| - 1]) * shape[|shape| - 1])
  }

  /** The fields of an entry as they are found. */
  datatype Entry = Entry(dt: Option<DType>, shape: seq<int>, offs: Option<(int, int)>)

  datatype Tensor = Tensor(name: seq<Byte>, dt: DType, shape: seq<int>, off: int, nbytes: int)

  /** Keys are compared as C strings, up to the first zero byte. */
  function CStr(s: seq<Byte>): seq<Byte> { if s == [] || s[0] == 0 then [] else [s[0]] + CStr(s[1..]) }

  /** Dimensions after the opening bracket, at least one, at most four in all. */
  function Dims(b: seq<Byte>, p: nat, shape: seq<int>): R<seq<int>>
    requires |shape| <= 4
    decreases 4 - |shape|
  {
    match I64(b, p)
    case Bad => Bad
    case Ok(d, q) =>
      if |shape| >= 4 then Bad
      else if Lit(b, q, Comma).Ok? then Dims(b, Lit(b, q, Comma).at, shape + [d])
      else if Lit(b, q, CloseList).Ok? then Ok(shape + [d], Lit(b, q, CloseList).at)
      else Bad
  }

  function Shape(b: seq<Byte>, p: nat, shape: seq<int>): R<seq<int>>
    requires |shape| <= 4
  {
    match Lit(b, p, OpenList)
    case Bad => Bad
    case Ok(_, q) => var r := Ws(b, q); if At(b, r, CloseList) then Ok(shape, r + 1) else Dims(b, q, shape)
  }

  function Offsets(b: seq<Byte>, p: nat): R<(int, int)>
  {
    match Lit(b, p, OpenList)
    case Bad => Bad
    case Ok(_, q) => (match I64(b, q)
      case Bad => Bad
      case Ok(o0, r) => (match Lit(b, r, Comma)
        case Bad => Bad
        case Ok(_, s) => (match I64(b, s)
          case Bad => Bad
          case Ok(o1, t) => (match Lit(b, t, CloseList)
            case Bad => Bad
            case Ok(_, u) => Ok((o0, o1), u)))))
  }

  // ------------------------------------------------------------------ forward motion

  lemma LitMoves(b: seq<Byte>, p: nat, c: Byte)
    ensures Lit(b, p, c).Ok? ==> p < Lit(b, p, c).at <= |b|
  {
  }

  lemma {:induction false} CharsMove(b: seq<Byte>, p: nat, acc: seq<Byte>)
    ensures Chars(b, p, acc).Ok? ==> p < Chars(b, p, acc).at <= |b|
    decreases |b| - p
  {
    CharMoves(b, p);
    if !At(b, p, Quote) && Char(b, p).Ok? { CharsMove(b, Char(b, p).at, acc + [Char(b, p).val]); }
  }

  lemma {:induction false} StrMoves(b: seq<Byte>, p: nat, cap: nat)
    ensures Str(b, p, cap).Ok? ==> p < Str(b, p, cap).at <= |b|
  {
    CharsMove(b, Ws(b, p) + 1, []);
  }

  lemma {:induction false} DigitsMove(b: seq<Byte>, p: nat, acc: int)
    ensures Digits(b, p, acc).Ok? && p <= Digits(b, p, acc).at && (p <= |b| ==> Digits(b, p, acc).at <= |b|)
    decreases |b| - p
  {
    if Digit(b, p) {
      DigitsMove(b, p + 1, acc * 10 + (b[p] - 0x30));
    }
  }

  lemma {:induction false} I64Moves(b: seq<Byte>, p: nat)
    ensures I64(b, p).Ok? ==> p < I64(b, p).at <= |b|
  {
    var q := Ws(b, p);
    var r := if At(b, q, 0x2D) || At(b, q, 0x2B) then q + 1 else q;
    if Digit(b, r) { DigitsMove(b, r + 1, b[r] - 0x30); }
  }

  lemma {:induction false} NestMoves(b: seq<Byte>, p: nat, depth: int)
    ensures Nest(b, p, depth).Ok? ==> p < Nest(b, p, depth).at <= |b|
    decreases |b| - p
  {
    if p < |b| {
      SkipStrMoves(b, p + 1);
      if b[p] == Quote {
        if SkipStr(b, p + 1).Ok? { NestMoves(b, SkipStr(b, p + 1).at, depth); }
      } else {
        NestMoves(b, p + 1, Depth(b[p], depth));
      }
    }
  }

  lemma {:induction false} AtomMoves(b: seq<Byte>, p: nat)
    ensures p <= Atom(b, p) && (p <= |b| ==> Atom(b, p) <= |b|)
    decreases |b| - p
  {
    if !Stops(b, p) { AtomMoves(b, p + 1); }
  }

  lemma {:induction false} SkipMoves(b: seq<Byte>, p: nat)
    ensures Skip(b, p).Ok? ==> p <= Skip(b, p).at <= |b|
  {
    var q := Ws(b, p);
    SkipStrMoves(b, q + 1);
    NestMoves(b, q, 0);
    AtomMoves(b, q);
  }

  lemma {:induction false} DimsMove(b: seq<Byte>, p: nat, shape: seq<int>)
    requires |shape| <= 4
    ensures Dims(b, p, shape).Ok? ==> p < Dims(b, p, shape).at <= |b| && |Dims(b, p, shape).val| <= 4
    decreases 4 - |shape|
  {
    I64Moves(b, p);
    if I64(b, p).Ok? && |shape| < 4 {
      var d, q := I64(b, p).val, I64(b, p).at;
      LitMoves(b, q, Comma);
      LitMoves(b, q, CloseList);
      if Lit(b, q, Comma).Ok? { DimsMove(b, Lit(b, q, Comma).at, shape + [d]); }
    }
  }

  lemma {:induction false} OffsetsMove(b: seq<Byte>, p: nat)
    ensures Offsets(b, p).Ok? ==> p < Offsets(b, p).at <= |b|
  {
    LitMoves(b, p, OpenList);
    if Lit(b, p, OpenList).Ok? {
      var q := Lit(b, p, OpenList).at;
      I64Moves(b, q);
      if I64(b, q).Ok? {
        var r := I64(b, q).at;
        LitMoves(b, r, Comma);
        if Lit(b, r, Comma).Ok? {
          var s := Lit(b, r, Comma).at;
          I64Moves(b, s);
          if I64(b, s).Ok? { LitMoves(b, I64(b, s).at, CloseList); }
        }
      }
    }
  }

  // ------------------------------------------------------------------------- headers

  /** One field's value, by its key; unknown keys are skipped. */
  function Field(K: Names, b: seq<Byte>, p: nat, key: seq<Byte>, e: Entry): R<Entry>
    requires |e.shape| <= 4
  {
    if key == K.dtype then
      match Str(b, p, 32)
      case Ok(s, q) => if DTypeOf(K, s).None? then Bad else Ok(e.(dt := DTypeOf(K, s)), q)
      case Bad => Bad
    else if key == K.shape then
      match Shape(b, p, e.shape)
      case Ok(ds, q) => Ok(e.(shape := ds), q)
      case Bad => Bad
    else if key == K.offsets then
      match Offsets(b, p)
      case Ok(o, q) => Ok(e.(offs := Some(o)), q)
      case Bad => Bad
    else
      match Skip(b, p)
      case Ok(_, q) => Ok(e, q)
      case Bad => Bad
  }

  lemma {:induction false} FieldMoves(K: Names, b: seq<Byte>, p: nat, key: seq<Byte>, e: Entry)
    requires |e.shape| <= 4
    ensures Field(K, b, p, key, e).Ok? ==>
      p <= Field(K, b, p, key, e).at <= |b| && |Field(K, b, p, key, e).val.shape| <= 4
  {
    StrMoves(b, p, 32);
    OffsetsMove(b, p);
    SkipMoves(b, p);
    LitMoves(b, p, OpenList);
    if Lit(b, p, OpenList).Ok? { DimsMove(b, Lit(b, p, OpenList).at, e.shape); }
  }

  /** A key, its colon, its value. */
  function Pair(K: Names, b: seq<Byte>, p: nat, e: Entry): R<Entry>
    requires |e.shape| <= 4
  {
    match Str(b, p, 64)
    case Bad => Bad
    case Ok(key, q) => (match Lit(b, q, Colon)
      case Bad => Bad
      case Ok(_, r) => Field(K, b, r, CStr(key), e))
  }

  lemma {:induction false} PairMoves(K: Names, b: seq<Byte>, p: nat, e: Entry)
    requires |e.shape| <= 4
    ensures Pair(K, b, p, e).Ok? ==> p < Pair(K, b, p, e).at <= |b| && |Pair(K, b, p, e).val.shape| <= 4
  {
    StrMoves(b, p, 64);
    if Str(b, p, 64).Ok? {
      var q := Str(b, p, 64).at;
      LitMoves(b, q, Colon);
      if Lit(b, q, Colon).Ok? { FieldMoves(K, b, Lit(b, q, Colon).at, CStr(Str(b, p, 64).val), e); }
    }
  }

  /** The pairs of an entry up to its closing brace. */
  function Fields(K: Names, b: seq<Byte>, p: nat, first: bool, e: Entry): R<Entry>
    requires |e.shape| <= 4
    decreases |b| - p
  {
    var q := Ws(b, p);
    if At(b, q, Close) then Ok(e, q + 1)
    else if !first && Lit(b, q, Comma).Bad? then Bad
    else
      var r := if first then q else Lit(b, q, Comma).at;
      LitMoves(b, q, Comma);
      PairMoves(K, b, r, e);
      match Pair(K, b, r, e)
      case Bad => Bad
      case Ok(e', s) => Fields(K, b, s, false, e')
  }

  /** A complete entry whose size agrees with its shape and whose end is not past the file, all in
      signed 64-bit arithmetic. Nothing is asked of where it starts. */
  function Made(name: seq<Byte>, e: Entry, base: int, file: int): Option<Tensor>
  {
    if e.dt.None? || e.offs.None? then None
    else
      var (o0, o1) := e.offs.value;
      var n := S64(o1 - o0);
      if n != S64(Numel(e.shape) * ElemSize(e.dt.value)) || S64(base + o1) > file then None
      else Some(Tensor(name, e.dt.value, e.shape, S64(base + o0), n))
  }

  function NoFields(): Entry { Entry(None, [], None) }

  /** What stands after a name and its colon: metadata is skipped, a tensor is added. */
  function Item(K: Names, b: seq<Byte>, p: nat, name: seq<Byte>, base: int, file: int, acc: seq<Tensor>): R<seq<Tensor>>
  {
    if CStr(name) == K.metadata then
      match Skip(b, p)
      case Ok(_, q) => Ok(acc, q)
      case Bad => Bad
    else
      match Lit(b, p, Open)
      case Bad => Bad
      case Ok(_, q) => (match Fields(K, b, q, true, NoFields())
        case Bad => Bad
        case Ok(e, r) =>
          if Made(name, e, base, file).None? then Bad else Ok(acc + [Made(name, e, base, file).value], r))
  }

  function Named(K: Names, b: seq<Byte>, p: nat, base: int, file: int, acc: seq<Tensor>): R<seq<Tensor>>
  {
    match Str(b, p, 512)
    case Bad => Bad
    case Ok(name, q) => (match Lit(b, q, Colon)
      case Bad => Bad
      case Ok(_, r) => Item(K, b, r, name, base, file, acc))
  }

  lemma {:induction false} FieldsMove(K: Names, b: seq<Byte>, p: nat, first: bool, e: Entry)
    requires |e.shape| <= 4
    ensures Fields(K, b, p, first, e).Ok? ==> p < Fields(K, b, p, first, e).at <= |b|
    decreases |b| - p
  {
    var q := Ws(b, p);
    LitMoves(b, q, Comma);
    if !At(b, q, Close) && (first || Lit(b, q, Comma).Ok?) {
      var r := if first then q else Lit(b, q, Comma).at;
      PairMoves(K, b, r, e);
      if Pair(K, b, r, e).Ok? { FieldsMove(K, b, Pair(K, b, r, e).at, false, Pair(K, b, r, e).val); }
    }
  }

  lemma {:induction false} NamedMoves(K: Names, b: seq<Byte>, p: nat, base: int, file: int, acc: seq<Tensor>)
    ensures Named(K, b, p, base, file, acc).Ok? ==> p < Named(K, b, p, base, file, acc).at <= |b|
  {
    StrMoves(b, p, 512);
    if Str(b, p, 512).Ok? {
      var q := Str(b, p, 512).at;
      LitMoves(b, q, Colon);
      if Lit(b, q, Colon).Ok? {
        var r := Lit(b, q, Colon).at;
        SkipMoves(b, r);
        LitMoves(b, r, Open);
        if Lit(b, r, Open).Ok? { FieldsMove(K, b, Lit(b, r, Open).at, true, NoFields()); }
      }
    }
  }

  /** How one named entry is read, given the tensors so far. */
  type Reader = (nat, seq<Tensor>) -> R<seq<Tensor>>

  function Entries(K: Names, b: seq<Byte>, base: int, file: int): Reader
  {
    (p: nat, acc) => Named(K, b, p, base, file, acc)
  }

  /** The entries up to the closing brace; a trailing comma is tolerated. Reading an entry always
      moves on (NamedMoves), so the test for that never fails. */
  function Items(named: Reader, b: seq<Byte>, p: nat, first: bool, acc: seq<Tensor>): R<seq<Tensor>>
    decreases |b| - p
  {
    var q := Ws(b, p);
    if At(b, q, Close) then Ok(acc, q + 1)
    else if !first && Lit(b, q, Comma).Bad? then Bad
    else
      var r := Ws(b, if first then q else Lit(b, q, Comma).at);
      if At(b, r, Close) then Ok(acc, r + 1)
      else
        match named(r, acc)
        case Bad => Bad
        case Ok(acc', s) => if p < s <= |b| then Items(named, b, s, false, acc') else Bad
  }

  /** The header text of a shard; offsets are relative to its end, eight bytes further on. */
  function Header(K: Names, b: seq<Byte>, file: int): R<seq<Tensor>>
  {
    match Lit(b, 0, Open)
    case Bad => Bad
    case Ok(_, p) => Items(Entries(K, b, 8 + |b|, file), b, p, true, [])
  }
}
