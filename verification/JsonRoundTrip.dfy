/** Scanning a header that json.dumps wrote gives back what was written, src/io/k3_st.c:73-162 and
    231-335; tools/make_st_fixture.py:40-56. */
module JsonRoundTrip {
  import opened Bytes
  import opened Ints
  import opened Wrappers
  import opened Json
  import opened JsonText

  // ------------------------------------------------------------------------- strings

  lemma {:induction false} CharBack(b: seq<Byte>, p: nat, c: Byte)
    requires 0 <= c < 128 && Has(b, p, Esc(c))
    ensures Char(b, p) == Ok(c, p + |Esc(c)|) && !At(b, p, Quote)
  {
    var e := Esc(c);
    assert b[p + 0] == e[0];
    if |e| >= 2 { assert b[p + 1] == e[1]; }
    if |e| == 6 {
      assert b[p + 2] == e[2] && b[p + 3] == e[3] && b[p + 4] == e[4] && b[p + 5] == e[5];
      assert Hex(e[4]) == c / 16 && Hex(e[5]) == c % 16;
    }
  }

  lemma {:induction false} CharsBack(b: seq<Byte>, p: nat, s: seq<Byte>, acc: seq<Byte>)
    requires Ascii(s) && Has(b, p, EscAll(s) + [Quote])
    ensures Chars(b, p, acc) == Ok(acc + s, p + |EscAll(s)| + 1)
    decreases |s|
  {
    HasSplit(b, p, EscAll(s), [Quote]);
    if s == [] {
      assert b[p + 0] == [Quote][0];
      assert acc + s == acc;
    } else {
      CharBack1(b, p, s);
      CharsBack(b, p + |Esc(s[0])|, s[1..], acc + [s[0]]);
      assert acc + [s[0]] + s[1..] == acc + s;
    }
  }

  lemma {:induction false} EscThere(b: seq<Byte>, p: nat, s: seq<Byte>)
    requires s != [] && Has(b, p, EscAll(s) + [Quote])
    ensures Has(b, p, Esc(s[0])) && Has(b, p + |Esc(s[0])|, EscAll(s[1..]) + [Quote])
    ensures |EscAll(s)| == |Esc(s[0])| + |EscAll(s[1..])|
  {
    assert EscAll(s) + [Quote] == Esc(s[0]) + (EscAll(s[1..]) + [Quote]);
    HasSplit(b, p, Esc(s[0]), EscAll(s[1..]) + [Quote]);
  }

  lemma {:induction false} CharBack1(b: seq<Byte>, p: nat, s: seq<Byte>)
    requires s != [] && Ascii(s) && Has(b, p, EscAll(s) + [Quote])
    ensures Char(b, p) == Ok(s[0], p + |Esc(s[0])|) && !At(b, p, Quote)
    ensures Has(b, p + |Esc(s[0])|, EscAll(s[1..]) + [Quote])
  {
    EscThere(b, p, s);
    CharBack(b, p, s[0]);
  }

  /** A quoted string, wherever the scanner starts in the space before it. */
  lemma {:induction false} StrBack(b: seq<Byte>, p: nat, q: nat, s: seq<Byte>, cap: nat)
    requires q == Ws(b, p) && Ascii(s) && |s| < cap && Has(b, q, Quoted(s))
    ensures Str(b, p, cap) == Ok(s, q + |Quoted(s)|)
  {
    HasSplit(b, q, [Quote], EscAll(s) + [Quote]);
    assert b[q + 0] == [Quote][0];
    CharsBack(b, q + 1, s, []);
    assert [] + s == s;
  }

  lemma {:induction false} SkipCharBack(b: seq<Byte>, p: nat, c: Byte)
    requires 0 <= c < 128 && Has(b, p, Esc(c))
    ensures SkipStr(b, p) == SkipStr(b, p + |Esc(c)|)
  {
    var e := Esc(c);
    assert b[p + 0] == e[0];
    if |e| == 6 {
      assert b[p + 2] == e[2] && b[p + 3] == e[3] && b[p + 4] == e[4] && b[p + 5] == e[5];
      assert SkipStr(b, p) == SkipStr(b, p + 2);
      assert SkipStr(b, p + 2) == SkipStr(b, p + 3);
      assert SkipStr(b, p + 3) == SkipStr(b, p + 4);
      assert SkipStr(b, p + 4) == SkipStr(b, p + 5);
    }
  }

  lemma {:induction false} SkipStrBack(b: seq<Byte>, p: nat, s: seq<Byte>)
    requires Ascii(s) && Has(b, p, EscAll(s) + [Quote])
    ensures SkipStr(b, p) == Ok(0, p + |EscAll(s)| + 1)
    decreases |s|
  {
    if s == [] {
      assert (EscAll(s) + [Quote])[0] == Quote;
      assert b[p + 0] == (EscAll(s) + [Quote])[0];
    } else {
      EscThere(b, p, s);
      SkipCharBack(b, p, s[0]);
      SkipStrBack(b, p + |Esc(s[0])|, s[1..]);
    }
  }

  // ------------------------------------------------------------------------- numbers

  lemma {:induction false} DigitsBack(b: seq<Byte>, p: nat, n: nat)
    requires Has(b, p, Dec(n))
    ensures Digit(b, p) && Digits(b, p, 0) == Digits(b, p + |Dec(n)|, n)
    decreases n
  {
    if n < 10 {
      assert b[p + 0] == Dec(n)[0];
    } else {
      var d := [0x30 + n % 10];
      HasSplit(b, p, Dec(n / 10), d);
      DigitsBack(b, p, n / 10);
      assert b[p + |Dec(n / 10)| + 0] == d[0];
    }
  }

  /** Any integer reads back as far as 64 bits hold it. */
  lemma {:induction false} IntBack(b: seq<Byte>, p: nat, q: nat, n: int)
    requires q == Ws(b, p) && Has(b, q, Num(n)) && !Digit(b, q + |Num(n)|)
    ensures I64(b, p) == Ok(S64(n), q + |Num(n)|)
  {
    if n < 0 {
      HasSplit(b, q, [0x2D], Dec(-n));
      assert b[q + 0] == [0x2D][0];
      DigitsBack(b, q + 1, -n);
    } else {
      DigitsBack(b, q, n);
    }
  }

  function Each(f: int -> int, ns: seq<int>): (r: seq<int>)
    ensures |r| == |ns|
  {
    seq(|ns|, i requires 0 <= i < |ns| => f(ns[i]))
  }

  function Wrapped(ns: seq<int>): (r: seq<int>)
    ensures |r| == |ns|
  {
    Each(S64, ns)
  }

  lemma {:induction false} WrappedHeld(ns: seq<int>)
    requires forall i :: 0 <= i < |ns| ==> IsInt64(ns[i])
    ensures Wrapped(ns) == ns
  {
    var f := S64;
    forall i | 0 <= i < |ns| ensures Each(f, ns)[i] == ns[i] { assert f(ns[i]) == S64(ns[i]); }
  }

  /** The character right after `s`. */
  lemma Next(b: seq<Byte>, p: nat, s: seq<Byte>, t: seq<Byte>)
    requires t != [] && Has(b, p, s + t)
    ensures Has(b, p, s) && Has(b, p + |s|, t) && At(b, p + |s|, t[0])
  {
    HasSplit(b, p, s, t);
    assert b[p + |s| + 0] == t[0];
  }

  /** One number of a list read, and the rest still to come: `text` is how a list is written,
      `len` how long a number is, `val` what it reads as. */
  ghost predicate DimReads(dims: (nat, seq<int>) -> R<seq<int>>, text: seq<int> -> seq<Byte>, len: int -> nat,
      val: int -> int, b: seq<Byte>, p: nat, q: nat, ns: seq<int>, shape: seq<int>)
  {
    q == Ws(b, p) && ns != [] && |shape| + |ns| <= 4 && Has(b, q, text(ns)) ==>
      if |ns| == 1 then EndReads(dims(p, shape), text(ns), q, len(ns[0]), shape + [val(ns[0])])
      else
        var r := q + len(ns[0]);
        dims(p, shape) == dims(r + 1, shape + [val(ns[0])]) && MoreText(b, text(ns), text(ns[1..]), r, len(ns[0]))
  }

  ghost predicate EndReads(d: R<seq<int>>, t: seq<Byte>, q: nat, n: nat, shape: seq<int>)
  {
    d == Ok(shape, q + n + 1) && |t| == n + 1
  }

  ghost predicate MoreText(b: seq<Byte>, t: seq<Byte>, rest: seq<Byte>, r: nat, n: nat)
  {
    Ws(b, r + 1) == r + 2 && Has(b, r + 2, rest) && |t| == n + 2 + |rest|
  }

  lemma {:induction false} DimsChain(dims: (nat, seq<int>) -> R<seq<int>>, text: seq<int> -> seq<Byte>,
      len: int -> nat, val: int -> int, b: seq<Byte>, p: nat, q: nat, ns: seq<int>, shape: seq<int>)
    requires forall p: nat, q: nat, ns, shape :: DimReads(dims, text, len, val, b, p, q, ns, shape)
    requires q == Ws(b, p) && ns != [] && |shape| + |ns| <= 4 && Has(b, q, text(ns))
    ensures dims(p, shape) == Ok(shape + Each(val, ns), q + |text(ns)|)
    decreases |ns|
  {
    var d, r := val(ns[0]), q + len(ns[0]);
    assert DimReads(dims, text, len, val, b, p, q, ns, shape);
    if |ns| == 1 {
      assert [d] == Each(val, ns);
    } else {
      DimsChain(dims, text, len, val, b, r + 1, r + 2, ns[1..], shape + [d]);
      assert shape + [d] + Each(val, ns[1..]) == shape + Each(val, ns);
    }
  }

  function DimsIn(b: seq<Byte>): (nat, seq<int>) -> R<seq<int>>
  {
    (p: nat, shape: seq<int>) => if |shape| <= 4 then Dims(b, p, shape) else Bad
  }

  function ListTail(): seq<int> -> seq<Byte> { (ns: seq<int>) => if ns == [] then [] else Commas(ns) }

  function NumSize(): int -> nat { (n: int) => |Num(n)| }

  lemma {:induction false} OneReads(b: seq<Byte>, p: nat, q: nat, ns: seq<int>, shape: seq<int>)
    ensures DimReads(DimsIn(b), ListTail(), NumSize(), S64, b, p, q, ns, shape)
  {
    if |ns| == 1 { OneReadsEnd(b, p, q, ns, shape); } else { OneReadsMore(b, p, q, ns, shape); }
  }

  lemma {:induction false} OneReadsEnd(b: seq<Byte>, p: nat, q: nat, ns: seq<int>, shape: seq<int>)
    requires |ns| == 1
    ensures DimReads(DimsIn(b), ListTail(), NumSize(), S64, b, p, q, ns, shape)
  {
    assert ListTail()(ns) == Commas(ns) && NumSize()(ns[0]) == |Num(ns[0])|;
    if q == Ws(b, p) && |shape| < 4 && Has(b, q, Commas(ns)) { EndRead(b, p, q, ns, shape); }
  }

  lemma {:induction false} OneReadsMore(b: seq<Byte>, p: nat, q: nat, ns: seq<int>, shape: seq<int>)
    requires |ns| != 1
    ensures DimReads(DimsIn(b), ListTail(), NumSize(), S64, b, p, q, ns, shape)
  {
    if q == Ws(b, p) && ns != [] && |shape| + |ns| <= 4 && Has(b, q, Commas(ns)) {
      assert ListTail()(ns[1..]) == Commas(ns[1..]) && NumSize()(ns[0]) == |Num(ns[0])|;
      MoreRead(b, p, q, ns, shape);
    }
  }

  lemma {:induction false} EndRead(b: seq<Byte>, p: nat, q: nat, ns: seq<int>, shape: seq<int>)
    requires q == Ws(b, p) && |ns| == 1 && |shape| < 4 && Has(b, q, Commas(ns))
    ensures EndReads(Dims(b, p, shape), Commas(ns), q, |Num(ns[0])|, shape + [S64(ns[0])])
  {
    LastDim(b, p, q, ns);
    DimsEnd(b, p, shape, S64(ns[0]), q + |Num(ns[0])|);
  }

  lemma {:induction false} MoreRead(b: seq<Byte>, p: nat, q: nat, ns: seq<int>, shape: seq<int>)
    requires q == Ws(b, p) && |ns| > 1 && |shape| < 4 && Has(b, q, Commas(ns))
    ensures var r := q + |Num(ns[0])|;
      && Dims(b, p, shape) == Dims(b, r + 1, shape + [S64(ns[0])])
      && MoreText(b, Commas(ns), Commas(ns[1..]), r, |Num(ns[0])|)
  {
    OneDim(b, p, q, ns);
    DimsStep(b, p, shape, S64(ns[0]), q + |Num(ns[0])|);
  }

  lemma {:induction false} DimsBack(b: seq<Byte>, p: nat, q: nat, ns: seq<int>)
    requires q == Ws(b, p) && 1 <= |ns| <= 4 && Has(b, q, Commas(ns))
    ensures Dims(b, p, []) == Ok(Wrapped(ns), q + |Commas(ns)|)
  {
    var dims, text, len := DimsIn(b), ListTail(), NumSize();
    forall p: nat, q: nat, ns, shape ensures DimReads(dims, text, len, S64, b, p, q, ns, shape) {
      OneReads(b, p, q, ns, shape);
    }
    DimsChain(dims, text, len, S64, b, p, q, ns, []);
    assert [] + Each(S64, ns) == Each(S64, ns);
  }

  lemma {:induction false} DimsEnd(b: seq<Byte>, p: nat, shape: seq<int>, d: int, r: nat)
    requires |shape| < 4 && I64(b, p) == Ok(d, r) && Lit(b, r, Comma).Bad? && Lit(b, r, CloseList) == Ok(0, r + 1)
    ensures Dims(b, p, shape) == Ok(shape + [d], r + 1)
  {
  }

  lemma {:induction false} DimsStep(b: seq<Byte>, p: nat, shape: seq<int>, d: int, r: nat)
    requires |shape| < 4 && I64(b, p) == Ok(d, r) && Lit(b, r, Comma) == Ok(0, r + 1)
    ensures Dims(b, p, shape) == Dims(b, r + 1, shape + [d])
  {
  }

  lemma {:induction false} LastDim(b: seq<Byte>, p: nat, q: nat, ns: seq<int>)
    requires q == Ws(b, p) && |ns| == 1 && Has(b, q, Commas(ns))
    ensures var r := q + |Num(ns[0])|;
      && I64(b, p) == Ok(S64(ns[0]), r) && Lit(b, r, Comma).Bad? && Lit(b, r, CloseList) == Ok(0, r + 1)
      && |Commas(ns)| == |Num(ns[0])| + 1
  {
    Next(b, q, Num(ns[0]), [CloseList]);
    IntBack(b, p, q, ns[0]);
  }

  /** A dimension that is not the last. */
  lemma {:induction false} OneDim(b: seq<Byte>, p: nat, q: nat, ns: seq<int>)
    requires q == Ws(b, p) && |ns| > 1 && Has(b, q, Commas(ns))
    ensures var r := q + |Num(ns[0])|;
      && I64(b, p) == Ok(S64(ns[0]), r) && Lit(b, r, Comma) == Ok(0, r + 1) && Ws(b, r + 1) == r + 2
      && Has(b, r + 2, Commas(ns[1..])) && |Commas(ns)| == |Num(ns[0])| + 2 + |Commas(ns[1..])|
  {
    var rest := [Comma, 0x20] + Commas(ns[1..]);
    Next(b, q, Num(ns[0]), rest);
    IntBack(b, p, q, ns[0]);
    CommasStart(ns[1..]);
    AfterSep(b, q + |Num(ns[0])|, Commas(ns[1..]));
  }

  lemma CommasStart(ns: seq<int>)
    requires ns != []
    ensures Commas(ns) != [] && Commas(ns)[0] > 0x20
  {
    NumStart(ns[0]);
  }

  lemma {:induction false} DecStart(n: nat)
    ensures 0x30 <= Dec(n)[0] <= 0x39
    decreases n
  {
    if n >= 10 { DecStart(n / 10); }
  }

  lemma {:induction false} NumStart(n: int)
    ensures 0x2D <= Num(n)[0] <= 0x39
  {
    if n >= 0 { DecStart(n); }
  }

  /** After a comma or a colon comes one space, then the rest. */
  lemma {:induction false} AfterMark(b: seq<Byte>, p: nat, c: Byte, rest: seq<Byte>)
    requires c > 0x20 && rest != [] && rest[0] > 0x20 && Has(b, p, [c, 0x20] + rest)
    ensures Lit(b, p, c) == Ok(0, p + 1) && Ws(b, p) == p && Ws(b, p + 1) == p + 2 && Has(b, p + 2, rest)
    ensures At(b, p, c)
  {
    HasSplit(b, p, [c, 0x20], rest);
    assert b[p + 0] == [c, 0x20][0] && b[p + 1] == [c, 0x20][1] && b[p + 2 + 0] == rest[0];
    assert Ws(b, p + 2) == p + 2;
  }

  lemma {:induction false} AfterSep(b: seq<Byte>, p: nat, rest: seq<Byte>)
    requires Has(b, p, [Comma, 0x20] + rest)
    ensures rest != [] && rest[0] > 0x20 ==>
      Lit(b, p, Comma) == Ok(0, p + 1) && Ws(b, p) == p && Ws(b, p + 1) == p + 2 && Has(b, p + 2, rest)
  {
    if rest != [] && rest[0] > 0x20 { AfterMark(b, p, Comma, rest); }
  }

  lemma {:induction false} ShapeBack(b: seq<Byte>, p: nat, q: nat, ns: seq<int>)
    requires q == Ws(b, p) && |ns| <= 4 && Has(b, q, List(ns))
    ensures Shape(b, p, []) == Ok(Wrapped(ns), q + |List(ns)|)
  {
    if ns == [] {
      HasSplit(b, q, [OpenList], [CloseList]);
      assert b[q + 0] == [OpenList][0] && b[q + 1 + 0] == [CloseList][0];
    } else {
      NoClose(ns);
      CommasStart(ns);
      ListOpens(b, p, q, Commas(ns));
      DimsBack(b, q + 1, q + 1, ns);
    }
  }

  lemma {:induction false} ListOpens(b: seq<Byte>, p: nat, q: nat, rest: seq<Byte>)
    requires q == Ws(b, p) && rest != [] && rest[0] > 0x20 && Has(b, q, [OpenList] + rest)
    ensures Lit(b, p, OpenList) == Ok(0, q + 1) && Ws(b, q + 1) == q + 1 && Has(b, q + 1, rest)
    ensures At(b, q + 1, CloseList) <==> rest[0] == CloseList
  {
    HasSplit(b, q, [OpenList], rest);
    assert b[q + 0] == [OpenList][0] && b[q + 1 + 0] == rest[0];
  }

  lemma NoClose(ns: seq<int>)
    requires ns != []
    ensures Commas(ns) != [] && Commas(ns)[0] != CloseList
  {
    NumStart(ns[0]);
  }

  lemma {:induction false} OffsetsVia(b: seq<Byte>, p: nat, q: nat, x: int, r: nat, y: int, t: nat)
    requires Lit(b, p, OpenList) == Ok(0, q) && I64(b, q) == Ok(x, r) && Lit(b, r, Comma) == Ok(0, r + 1)
    requires I64(b, r + 1) == Ok(y, t) && At(b, t, CloseList)
    ensures Offsets(b, p) == Ok((x, y), t + 1)
  {
  }

  lemma {:induction false} OffsetsBack(b: seq<Byte>, p: nat, q: nat, x: int, y: int, xs: seq<Byte>, ys: seq<Byte>)
    requires q == Ws(b, p) && xs == Num(x) && ys == Num(y)
    requires Has(b, q, [OpenList] + (xs + ([Comma, 0x20] + (ys + [CloseList]))))
    ensures Offsets(b, p) == Ok((S64(x), S64(y)), q + 4 + |xs| + |ys|)
  {
    NumStart(x);
    NumStart(y);
    var tail := ys + [CloseList];
    HasSplit(b, q, [OpenList], xs + ([Comma, 0x20] + tail));
    Next(b, q + 1, xs, [Comma, 0x20] + tail);
    assert b[q + 0] == [OpenList][0] && b[q + 1 + 0] == xs[0];
    IntBack(b, q + 1, q + 1, x);
    var r := q + 1 + |xs|;
    AfterMark(b, r, Comma, tail);
    Next(b, r + 2, ys, [CloseList]);
    IntBack(b, r + 1, r + 2, y);
    OffsetsVia(b, p, q + 1, S64(x), r, S64(y), r + 2 + |ys|);
  }

  lemma CommasStep(ns: seq<int>)
    requires |ns| > 1
    ensures Commas(ns) == Num(ns[0]) + ([Comma, 0x20] + Commas(ns[1..]))
  {
  }

  lemma CommasLast(ns: seq<int>)
    requires |ns| == 1
    ensures Commas(ns) == Num(ns[0]) + [CloseList]
  {
  }

  lemma {:induction false} ListOfTwo(ns: seq<int>)
    requires |ns| == 2
    ensures List(ns) == [OpenList] + (Num(ns[0]) + ([Comma, 0x20] + (Num(ns[1]) + [CloseList])))
  {
    CommasStep(ns);
    CommasLast(ns[1..]);
  }

  // ------------------------------------------------------------------------- entries

  lemma {:induction false} CStrBack(s: seq<Byte>)
    requires forall i :: 0 <= i < |s| ==> s[i] != 0
    ensures CStr(s) == s
  {
    if s != [] { CStrBack(s[1..]); }
  }

  predicate Clean(s: seq<Byte>) { Ascii(s) && forall i :: 0 <= i < |s| ==> s[i] != 0 }

  /** What is needed of the reserved words: printable in full, told apart. */
  ghost predicate NamesOk(K: Names)
  {
    && Clean(K.dtype) && Clean(K.shape) && Clean(K.offsets) && Clean(K.metadata)
    && |K.dtype| < 64 && |K.shape| < 64 && |K.offsets| < 64 && |K.metadata| < 512
    && K.dtype != K.shape && K.dtype != K.offsets && K.shape != K.offsets
    && (forall t :: Ascii(K.typeName(t)) && |K.typeName(t)| < 32)
    && (forall t, u :: K.typeName(t) == K.typeName(u) ==> t == u)
  }

  lemma StandardOk()
    ensures NamesOk(Standard())
  {
    StandardClean();
    var K := Standard();
    assert K.dtype[0] != K.shape[0];
    forall t, u | t != u ensures DTypeName(t) != DTypeName(u) { TypesDiffer(t, u); }
  }

  lemma StandardClean()
    ensures Clean(Standard().dtype) && Clean(Standard().shape) && Clean(Standard().offsets)
    ensures Clean(Standard().metadata)
  {
  }

  lemma TypesDiffer(t: DType, u: DType)
    requires t != u
    ensures DTypeName(t) != DTypeName(u)
  {
    assert |DTypeName(U8)| == 2 && |DTypeName(BF16)| == 4 && |DTypeName(F16)| == 3 && |DTypeName(F32)| == 3;
    assert DTypeName(F16)[1] != DTypeName(F32)[1];
  }

  /** The key of a pair and the place where its value stands. */
  lemma {:induction false} KeyBack(b: seq<Byte>, p: nat, q: nat, key: seq<Byte>, val: seq<Byte>, cap: nat)
    requires q == Ws(b, p) && Clean(key) && |key| < cap && val != [] && val[0] > 0x20 && Has(b, q, KeyVal(key, val))
    ensures var r := q + |Quoted(key)|;
      && Str(b, p, cap) == Ok(key, r) && CStr(key) == key
      && Lit(b, r, Colon) == Ok(0, r + 1) && Ws(b, r + 1) == r + 2 && Has(b, r + 2, val)
  {
    HasSplit(b, q, Quoted(key), [Colon, 0x20] + val);
    StrBack(b, p, q, key, cap);
    AfterMark(b, q + |Quoted(key)|, Colon, val);
    CStrBack(key);
  }

  lemma {:induction false} PairBack(K: Names, b: seq<Byte>, p: nat, q: nat, key: seq<Byte>, val: seq<Byte>, e: Entry)
    requires q == Ws(b, p) && Clean(key) && |key| < 64 && val != [] && val[0] > 0x20 && Has(b, q, KeyVal(key, val))
    requires |e.shape| <= 4
    ensures var r := q + |Quoted(key)|;
      Pair(K, b, p, e) == Field(K, b, r + 1, key, e) && Ws(b, r + 1) == r + 2 && Has(b, r + 2, val)
  {
    KeyBack(b, p, q, key, val, 64);
  }

  lemma {:induction false} DtypeField(K: Names, b: seq<Byte>, p: nat, q: nat, t: DType, e: Entry)
    requires NamesOk(K) && q == Ws(b, p) && Has(b, q, Quoted(K.typeName(t))) && |e.shape| <= 4
    ensures Field(K, b, p, K.dtype, e) == Ok(e.(dt := Some(t)), q + |Quoted(K.typeName(t))|)
  {
    StrBack(b, p, q, K.typeName(t), 32);
  }

  lemma {:induction false} ShapeField(K: Names, b: seq<Byte>, p: nat, q: nat, ns: seq<int>, e: Entry)
    requires NamesOk(K) && q == Ws(b, p) && Has(b, q, List(ns)) && |ns| <= 4 && e.shape == []
    ensures Field(K, b, p, K.shape, e) == Ok(e.(shape := Wrapped(ns)), q + |List(ns)|)
  {
    ShapeBack(b, p, q, ns);
  }

  lemma {:induction false} OffsetsField(K: Names, b: seq<Byte>, p: nat, q: nat, x: int, y: int, e: Entry)
    requires NamesOk(K) && q == Ws(b, p) && Has(b, q, List([x, y])) && |e.shape| <= 4
    ensures Field(K, b, p, K.offsets, e) == Ok(e.(offs := Some((S64(x), S64(y)))), q + |List([x, y])|)
  {
    ListOfTwo([x, y]);
    OffsetsBack(b, p, q, x, y, Num(x), Num(y));
  }

  lemma QuotedStart(s: seq<Byte>, val: seq<Byte>)
    ensures KeyVal(s, val) != [] && KeyVal(s, val)[0] == Quote && |KeyVal(s, val)| == |Quoted(s)| + 2 + |val|
    ensures Quoted(s) != [] && Quoted(s)[0] == Quote
  {
  }

  lemma ListStart(ns: seq<int>)
    ensures List(ns) != [] && List(ns)[0] == OpenList
  {
  }

  /** A value text that its field reads wherever it stands. */
  ghost predicate ValReads(K: Names, b: seq<Byte>, key: seq<Byte>, val: seq<Byte>, e: Entry, e': Entry, p: nat, q: nat)
    requires |e.shape| <= 4
  {
    q == Ws(b, p) && Has(b, q, val) ==> Field(K, b, p, key, e) == Ok(e', q + |val|)
  }

  lemma {:induction false} PairFrom(K: Names, b: seq<Byte>, p: nat, q: nat, key: seq<Byte>, val: seq<Byte>, e: Entry,
      e': Entry, r: nat, kv: seq<Byte>)
    requires q == Ws(b, p) && Clean(key) && |key| < 64 && val != [] && val[0] > 0x20
    requires kv == KeyVal(key, val) && Has(b, q, kv) && |e.shape| <= 4
    requires r == q + |Quoted(key)| && ValReads(K, b, key, val, e, e', r + 1, r + 2)
    ensures Pair(K, b, p, e) == Ok(e', q + |kv|)
  {
    QuotedStart(key, val);
    PairBack(K, b, p, q, key, val, e);
  }

  lemma {:induction false} DtypePair(K: Names, b: seq<Byte>, p: nat, q: nat, t: DType, e: Entry, kv: seq<Byte>)
    requires NamesOk(K) && q == Ws(b, p) && kv == KeyVal(K.dtype, Quoted(K.typeName(t))) && Has(b, q, kv)
    requires |e.shape| <= 4
    ensures Pair(K, b, p, e) == Ok(e.(dt := Some(t)), q + |kv|)
  {
    var val, r := Quoted(K.typeName(t)), q + |Quoted(K.dtype)|;
    QuotedStart(K.typeName(t), []);
    DtypeValue(K, b, t, e, val, r + 1, r + 2);
    PairFrom(K, b, p, q, K.dtype, val, e, e.(dt := Some(t)), r, kv);
  }

  lemma {:induction false} ShapePair(K: Names, b: seq<Byte>, p: nat, q: nat, ns: seq<int>, e: Entry, kv: seq<Byte>)
    requires NamesOk(K) && q == Ws(b, p) && kv == KeyVal(K.shape, List(ns)) && Has(b, q, kv) && |ns| <= 4
    requires e.shape == []
    ensures Pair(K, b, p, e) == Ok(e.(shape := Wrapped(ns)), q + |kv|)
  {
    var val, r := List(ns), q + |Quoted(K.shape)|;
    ListStart(ns);
    ShapeValue(K, b, ns, e, val, r + 1, r + 2);
    PairFrom(K, b, p, q, K.shape, val, e, e.(shape := Wrapped(ns)), r, kv);
  }

  lemma {:induction false} OffsetsPair(K: Names, b: seq<Byte>, p: nat, q: nat, x: int, y: int, e: Entry, kv: seq<Byte>)
    requires NamesOk(K) && q == Ws(b, p) && kv == KeyVal(K.offsets, List([x, y])) && Has(b, q, kv) && |e.shape| <= 4
    ensures Pair(K, b, p, e) == Ok(e.(offs := Some((S64(x), S64(y)))), q + |kv|)
  {
    var val, r := List([x, y]), q + |Quoted(K.offsets)|;
    ListStart([x, y]);
    OffsetsValue(K, b, x, y, e, val, r + 1, r + 2);
    PairFrom(K, b, p, q, K.offsets, val, e, e.(offs := Some((S64(x), S64(y)))), r, kv);
  }

  lemma {:induction false} DtypeValue(K: Names, b: seq<Byte>, t: DType, e: Entry, val: seq<Byte>, p: nat, q: nat)
    requires NamesOk(K) && val == Quoted(K.typeName(t)) && |e.shape| <= 4
    ensures ValReads(K, b, K.dtype, val, e, e.(dt := Some(t)), p, q)
  {
    if q == Ws(b, p) && Has(b, q, val) { DtypeField(K, b, p, q, t, e); }
  }

  lemma {:induction false} ShapeValue(K: Names, b: seq<Byte>, ns: seq<int>, e: Entry, val: seq<Byte>, p: nat, q: nat)
    requires NamesOk(K) && val == List(ns) && |ns| <= 4 && e.shape == []
    ensures ValReads(K, b, K.shape, val, e, e.(shape := Wrapped(ns)), p, q)
  {
    if q == Ws(b, p) && Has(b, q, val) { ShapeField(K, b, p, q, ns, e); }
  }

  lemma {:induction false} OffsetsValue(K: Names, b: seq<Byte>, x: int, y: int, e: Entry, val: seq<Byte>, p: nat,
      q: nat)
    requires NamesOk(K) && val == List([x, y]) && |e.shape| <= 4
    ensures ValReads(K, b, K.offsets, val, e, e.(offs := Some((S64(x), S64(y)))), p, q)
  {
    if q == Ws(b, p) && Has(b, q, val) { OffsetsField(K, b, p, q, x, y, e); }
  }

  /** One more pair, after a comma. */
  lemma {:induction false} MoreFields(K: Names, b: seq<Byte>, p: nat, e: Entry, e': Entry, s: nat)
    requires |e.shape| <= 4 && |e'.shape| <= 4 && At(b, p, Comma) && Pair(K, b, p + 1, e) == Ok(e', s)
    ensures Fields(K, b, p, false, e) == Fields(K, b, s, false, e')
  {
    assert Ws(b, p) == p;
  }

  lemma {:induction false} LastField(K: Names, b: seq<Byte>, p: nat, e: Entry)
    requires |e.shape| <= 4 && At(b, p, Close)
    ensures Fields(K, b, p, false, e) == Ok(e, p + 1)
  {
  }

  lemma {:induction false} FirstField(K: Names, b: seq<Byte>, p: nat, e': Entry, s: nat)
    requires At(b, p, Quote) && Pair(K, b, p, NoFields()) == Ok(e', s) && |e'.shape| <= 4
    ensures Fields(K, b, p, true, NoFields()) == Fields(K, b, s, false, e')
  {
    assert Ws(b, p) == p;
  }

  /** What the scanner finds of a written entry. */
  function Found(s: Spec): Entry { Entry(Some(s.dt), Wrapped(s.shape), Some((S64(s.start), S64(s.stop)))) }

  /** Three pairs that read as they should, separated and closed. */
  lemma {:induction false} ThreePairs(K: Names, b: seq<Byte>, p: nat, e1: Entry, p1: nat, e2: Entry, p2: nat, e3: Entry,
      p3: nat)
    requires |e1.shape| <= 4 && |e2.shape| <= 4 && |e3.shape| <= 4 && At(b, p, Quote) && At(b, p1, Comma)
    requires At(b, p2, Comma) && At(b, p3, Close)
    requires Pair(K, b, p, NoFields()) == Ok(e1, p1) && Pair(K, b, p1 + 1, e1) == Ok(e2, p2)
    requires Pair(K, b, p2 + 1, e2) == Ok(e3, p3)
    ensures Fields(K, b, p, true, NoFields()) == Ok(e3, p3 + 1)
  {
    FirstField(K, b, p, e1, p1);
    MoreFields(K, b, p1, e1, e2, p2);
    MoreFields(K, b, p2, e2, e3, p3);
    LastField(K, b, p3, e3);
  }

  /** Where the pieces of a written entry stand. */
  lemma {:induction false} Pieces(b: seq<Byte>, p: nat, x: seq<Byte>, y: seq<Byte>, z: seq<Byte>,
      p1: nat, p2: nat, p3: nat)
    requires x != [] && x[0] > 0x20 && y != [] && y[0] > 0x20 && z != [] && z[0] > 0x20
    requires p1 == p + |x| && p2 == p1 + 2 + |y| && p3 == p2 + 2 + |z|
    requires Has(b, p, x + ([Comma, 0x20] + (y + ([Comma, 0x20] + (z + [Close])))))
    ensures Has(b, p, x) && At(b, p, x[0]) && At(b, p1, Comma) && Ws(b, p1 + 1) == p1 + 2 && Has(b, p1 + 2, y)
    ensures At(b, p2, Comma) && Ws(b, p2 + 1) == p2 + 2 && Has(b, p2 + 2, z) && At(b, p3, Close)
  {
    var t2 := z + [Close];
    var t1 := y + ([Comma, 0x20] + t2);
    HasSplit(b, p, x, [Comma, 0x20] + t1);
    assert b[p + 0] == x[0];
    AfterMark(b, p1, Comma, t1);
    HasSplit(b, p1 + 2, y, [Comma, 0x20] + t2);
    AfterMark(b, p2, Comma, t2);
    Next(b, p2 + 2, z, [Close]);
  }

  /** A piece of text that reads as a pair wherever it stands. */
  ghost predicate PairReads(K: Names, b: seq<Byte>, x: seq<Byte>, e: Entry, e': Entry, p: nat, q: nat)
    requires |e.shape| <= 4
  {
    q == Ws(b, p) && Has(b, q, x) ==> Pair(K, b, p, e) == Ok(e', q + |x|)
  }

  lemma {:induction false} FieldsFrom(K: Names, b: seq<Byte>, p: nat, x: seq<Byte>, y: seq<Byte>, z: seq<Byte>,
      e1: Entry, e2: Entry, e3: Entry, p1: nat, p2: nat, p3: nat)
    requires |e1.shape| <= 4 && |e2.shape| <= 4 && |e3.shape| <= 4
    requires p1 == p + |x| && p2 == p1 + 2 + |y| && p3 == p2 + 2 + |z|
    requires x != [] && x[0] == Quote && y != [] && y[0] == Quote && z != [] && z[0] == Quote
    requires Has(b, p, x + ([Comma, 0x20] + (y + ([Comma, 0x20] + (z + [Close])))))
    requires PairReads(K, b, x, NoFields(), e1, p, p)
    requires PairReads(K, b, y, e1, e2, p1 + 1, p1 + 2)
    requires PairReads(K, b, z, e2, e3, p2 + 1, p2 + 2)
    ensures Fields(K, b, p, true, NoFields()) == Ok(e3, p3 + 1)
  {
    Pieces(b, p, x, y, z, p1, p2, p3);
    ThreePairs(K, b, p, e1, p1, e2, p2, e3, p3);
  }

  function DtypeText(K: Names, s: Spec): (x: seq<Byte>)
    ensures x != [] && x[0] == Quote
  {
    QuotedStart(K.dtype, Quoted(K.typeName(s.dt)));
    KeyVal(K.dtype, Quoted(K.typeName(s.dt)))
  }

  function ShapeText(K: Names, s: Spec): (x: seq<Byte>)
    ensures x != [] && x[0] == Quote
  {
    QuotedStart(K.shape, List(s.shape));
    KeyVal(K.shape, List(s.shape))
  }

  function OffsetsText(K: Names, s: Spec): (x: seq<Byte>)
    ensures x != [] && x[0] == Quote
  {
    QuotedStart(K.offsets, List([s.start, s.stop]));
    KeyVal(K.offsets, List([s.start, s.stop]))
  }

  lemma {:induction false} DtypeReads(K: Names, b: seq<Byte>, s: Spec, p: nat, q: nat, e1: Entry)
    requires NamesOk(K) && e1 == Entry(Some(s.dt), [], None)
    ensures PairReads(K, b, DtypeText(K, s), NoFields(), e1, p, q)
  {
    if q == Ws(b, p) && Has(b, q, DtypeText(K, s)) { DtypePair(K, b, p, q, s.dt, NoFields(), DtypeText(K, s)); }
  }

  lemma {:induction false} ShapeReads(K: Names, b: seq<Byte>, s: Spec, p: nat, q: nat, e1: Entry, e2: Entry)
    requires NamesOk(K) && |s.shape| <= 4 && e1 == Entry(Some(s.dt), [], None)
    requires e2 == Entry(Some(s.dt), Wrapped(s.shape), None)
    ensures PairReads(K, b, ShapeText(K, s), e1, e2, p, q)
  {
    if q == Ws(b, p) && Has(b, q, ShapeText(K, s)) { ShapePair(K, b, p, q, s.shape, e1, ShapeText(K, s)); }
  }

  lemma {:induction false} OffsetsReads(K: Names, b: seq<Byte>, s: Spec, p: nat, q: nat, e2: Entry)
    requires NamesOk(K) && |s.shape| <= 4 && e2 == Entry(Some(s.dt), Wrapped(s.shape), None)
    ensures PairReads(K, b, OffsetsText(K, s), e2, Found(s), p, q)
  {
    if q == Ws(b, p) && Has(b, q, OffsetsText(K, s)) {
      OffsetsPair(K, b, p, q, s.start, s.stop, e2, OffsetsText(K, s));
    }
  }

  lemma {:induction false} AllRead(K: Names, b: seq<Byte>, s: Spec, x: seq<Byte>, y: seq<Byte>, z: seq<Byte>, e1: Entry,
      e2: Entry)
    requires NamesOk(K) && |s.shape| <= 4 && e1 == Entry(Some(s.dt), [], None)
    requires e2 == Entry(Some(s.dt), Wrapped(s.shape), None)
    requires x == DtypeText(K, s) && y == ShapeText(K, s) && z == OffsetsText(K, s)
    ensures forall p: nat, q: nat :: PairReads(K, b, x, NoFields(), e1, p, q)
    ensures forall p: nat, q: nat :: PairReads(K, b, y, e1, e2, p, q)
    ensures forall p: nat, q: nat :: PairReads(K, b, z, e2, Found(s), p, q)
  {
    forall p: nat, q: nat ensures PairReads(K, b, x, NoFields(), e1, p, q) { DtypeReads(K, b, s, p, q, e1); }
    forall p: nat, q: nat ensures PairReads(K, b, y, e1, e2, p, q) { ShapeReads(K, b, s, p, q, e1, e2); }
    forall p: nat, q: nat ensures PairReads(K, b, z, e2, Found(s), p, q) { OffsetsReads(K, b, s, p, q, e2); }
  }

  /** The fields of a written entry, after its opening brace. */
  lemma {:induction false} FieldsBack(K: Names, b: seq<Byte>, p: nat, s: Spec, x: seq<Byte>, y: seq<Byte>, z: seq<Byte>)
    requires NamesOk(K) && |s.shape| <= 4 && x == DtypeText(K, s) && y == ShapeText(K, s) && z == OffsetsText(K, s)
    requires Has(b, p, x + ([Comma, 0x20] + (y + ([Comma, 0x20] + (z + [Close])))))
    ensures Fields(K, b, p, true, NoFields()) == Ok(Found(s), p + |x| + |y| + |z| + 5)
  {
    var e1, e2 := Entry(Some(s.dt), [], None), Entry(Some(s.dt), Wrapped(s.shape), None);
    AllRead(K, b, s, x, y, z, e1, e2);
    var p1: nat := p + |x|;
    var p2: nat := p1 + 2 + |y|;
    FieldsFrom(K, b, p, x, y, z, e1, e2, Found(s), p1, p2, p2 + 2 + |z|);
  }

  // -------------------------------------------------------------- skipping any value

  lemma {:induction false} NestPlain(b: seq<Byte>, p: nat, d: int, t: seq<Byte>)
    requires d > 0 && Has(b, p, t) && forall i :: 0 <= i < |t| ==> Plain(t[i])
    ensures Nest(b, p, d) == Nest(b, p + |t|, d)
    decreases |t|
  {
    if t != [] {
      assert b[p + 0] == t[0];
      assert t == [t[0]] + t[1..];
      HasSplit(b, p, [t[0]], t[1..]);
      NestPlain(b, p + 1, d, t[1..]);
    }
  }

  lemma {:induction false} NestStr(b: seq<Byte>, p: nat, d: int, s: seq<Byte>)
    requires d > 0 && Ascii(s) && Has(b, p, Quoted(s))
    ensures Nest(b, p, d) == Nest(b, p + |Quoted(s)|, d)
  {
    HasSplit(b, p, [Quote], EscAll(s) + [Quote]);
    assert b[p + 0] == [Quote][0];
    SkipStrBack(b, p + 1, s);
  }

  lemma {:induction false} NestBrackets(b: seq<Byte>, p: nat, d: int, l: Byte, body: seq<Byte>, r: Byte)
    requires d >= 0 && Has(b, p, [l] + (body + [r])) && (l == Open || l == OpenList) && (r == Close || r == CloseList)
    requires Has(b, p + 1, body) ==> Nest(b, p + 1, d + 1) == Nest(b, p + 1 + |body|, d + 1)
    ensures Has(b, p + 1, body)
    ensures Nest(b, p, d) == if d > 0 then Nest(b, p + 2 + |body|, d) else Ok(0, p + 2 + |body|)
  {
    HasSplit(b, p, [l], body + [r]);
    assert b[p + 0] == [l][0];
    HasSplit(b, p + 1, body, [r]);
    assert b[p + 1 + |body| + 0] == [r][0];
  }

  /** Skipping at one depth, as a function of the position. */
  ghost function Nesting(b: seq<Byte>, d: int): nat -> R<nat> { (p: nat) => Nest(b, p, d) }

  ghost predicate StepAt(f: nat -> R<nat>, b: seq<Byte>, t: seq<Byte>, p: nat) { Has(b, p, t) ==> f(p) == f(p + |t|) }

  /** Wherever the text stands it is stepped over and the depth is what it was. */
  ghost predicate Over(f: nat -> R<nat>, b: seq<Byte>, t: seq<Byte>) { forall p: nat :: StepAt(f, b, t, p) }

  function Join(ts: seq<seq<Byte>>): seq<Byte>
  {
    if ts == [] then [] else if |ts| == 1 then ts[0] else ts[0] + ([Comma, 0x20] + Join(ts[1..]))
  }

  lemma {:induction false} OverConcat(f: nat -> R<nat>, b: seq<Byte>, x: seq<Byte>, y: seq<Byte>)
    requires Over(f, b, x) && Over(f, b, y)
    ensures Over(f, b, x + y)
  {
    forall p: nat ensures StepAt(f, b, x + y, p) {
      if Has(b, p, x + y) {
        HasSplit(b, p, x, y);
        assert StepAt(f, b, x, p) && StepAt(f, b, y, p + |x|);
      }
    }
  }

  lemma {:induction false} OverJoin(f: nat -> R<nat>, b: seq<Byte>, ts: seq<seq<Byte>>)
    requires Over(f, b, [Comma, 0x20]) && forall i :: 0 <= i < |ts| ==> Over(f, b, ts[i])
    ensures Over(f, b, Join(ts))
    decreases |ts|
  {
    if ts == [] {
      forall p: nat ensures StepAt(f, b, [], p) { }
    } else if |ts| > 1 {
      OverJoin(f, b, ts[1..]);
      OverConcat(f, b, [Comma, 0x20], Join(ts[1..]));
      OverConcat(f, b, ts[0], [Comma, 0x20] + Join(ts[1..]));
    }
  }

  lemma {:induction false} OverPlain(b: seq<Byte>, d: int, t: seq<Byte>)
    requires d > 0 && forall i :: 0 <= i < |t| ==> Plain(t[i])
    ensures Over(Nesting(b, d), b, t)
  {
    forall p: nat ensures StepAt(Nesting(b, d), b, t, p) { if Has(b, p, t) { NestPlain(b, p, d, t); } }
  }

  lemma {:induction false} OverString(b: seq<Byte>, d: int, s: seq<Byte>)
    requires d > 0 && Ascii(s)
    ensures Over(Nesting(b, d), b, Quoted(s))
  {
    forall p: nat ensures StepAt(Nesting(b, d), b, Quoted(s), p) { if Has(b, p, Quoted(s)) { NestStr(b, p, d, s); } }
  }

  lemma {:induction false} OverBrackets(b: seq<Byte>, d: int, l: Byte, body: seq<Byte>, r: Byte)
    requires d > 0 && (l == Open || l == OpenList) && (r == Close || r == CloseList) && Over(Nesting(b, d + 1), b, body)
    ensures Over(Nesting(b, d), b, [l] + (body + [r]))
  {
    forall p: nat ensures StepAt(Nesting(b, d), b, [l] + (body + [r]), p) {
      if Has(b, p, [l] + (body + [r])) {
        assert StepAt(Nesting(b, d + 1), b, body, p + 1);
        NestBrackets(b, p, d, l, body, r);
      }
    }
  }

  function Dumps(vals: seq<Value>): (r: seq<seq<Byte>>)
    ensures |r| == |vals|
  {
    seq(|vals|, i requires 0 <= i < |vals| => Dump(vals[i]))
  }

  function PairTexts(keys: seq<seq<Byte>>, vals: seq<Value>): (r: seq<seq<Byte>>)
    requires |keys| == |vals|
    ensures |r| == |vals|
  {
    seq(|vals|, i requires 0 <= i < |vals| => KeyVal(keys[i], Dump(vals[i])))
  }

  lemma {:induction false} DumpAllJoins(vals: seq<Value>)
    ensures DumpAll(vals) == Join(Dumps(vals))
    decreases |vals|
  {
    if |vals| > 1 {
      DumpAllJoins(vals[1..]);
      assert Dumps(vals)[1..] == Dumps(vals[1..]);
    }
  }

  lemma {:induction false} DumpPairsJoin(keys: seq<seq<Byte>>, vals: seq<Value>)
    requires |keys| == |vals|
    ensures DumpPairs(keys, vals) == Join(PairTexts(keys, vals))
    decreases |vals|
  {
    if |vals| > 1 {
      DumpPairsJoin(keys[1..], vals[1..]);
      assert PairTexts(keys, vals)[1..] == PairTexts(keys[1..], vals[1..]);
    }
  }

  lemma {:induction false} OverPair(b: seq<Byte>, d: int, key: seq<Byte>, v: seq<Byte>)
    requires d > 0 && Ascii(key) && Over(Nesting(b, d), b, v)
    ensures Over(Nesting(b, d), b, KeyVal(key, v))
  {
    OverString(b, d, key);
    OverPlain(b, d, [Colon, 0x20]);
    OverConcat(Nesting(b, d), b, [Colon, 0x20], v);
    OverConcat(Nesting(b, d), b, Quoted(key), [Colon, 0x20] + v);
  }

  lemma {:induction false} OverAll(b: seq<Byte>, d: int, vals: seq<Value>)
    requires d > 0 && forall i :: 0 <= i < |vals| ==> Over(Nesting(b, d), b, Dump(vals[i]))
    ensures Over(Nesting(b, d), b, DumpAll(vals))
  {
    OverPlain(b, d, [Comma, 0x20]);
    OverJoin(Nesting(b, d), b, Dumps(vals));
    DumpAllJoins(vals);
  }

  lemma {:induction false} OverPairs(b: seq<Byte>, d: int, keys: seq<seq<Byte>>, vals: seq<Value>)
    requires d > 0 && |keys| == |vals| && (forall i :: 0 <= i < |keys| ==> Ascii(keys[i]))
    requires forall i :: 0 <= i < |vals| ==> Over(Nesting(b, d), b, Dump(vals[i]))
    ensures Over(Nesting(b, d), b, DumpPairs(keys, vals))
  {
    OverPlain(b, d, [Comma, 0x20]);
    var ts := PairTexts(keys, vals);
    forall i | 0 <= i < |ts| ensures Over(Nesting(b, d), b, ts[i]) { OverPair(b, d, keys[i], Dump(vals[i])); }
    OverJoin(Nesting(b, d), b, ts);
    DumpPairsJoin(keys, vals);
  }

  /** Inside brackets any value is stepped over whole. */
  lemma {:induction false} OverValue(b: seq<Byte>, d: int, v: Value)
    requires d > 0 && ValueOk(v)
    ensures Over(Nesting(b, d), b, Dump(v))
    decreases v
  {
    match v
    case Text(s) => OverString(b, d, s);
    case Number(t) => OverPlain(b, d, t);
    case Array(vals) =>
      forall i | 0 <= i < |vals| ensures Over(Nesting(b, d + 1), b, Dump(vals[i])) { OverValue(b, d + 1, vals[i]); }
      OverAll(b, d + 1, vals);
      OverBrackets(b, d, OpenList, DumpAll(vals), CloseList);
    case Dict(keys, vals) =>
      forall i | 0 <= i < |vals| ensures Over(Nesting(b, d + 1), b, Dump(vals[i])) { OverValue(b, d + 1, vals[i]); }
      OverPairs(b, d + 1, keys, vals);
      OverBrackets(b, d, Open, DumpPairs(keys, vals), Close);
  }

  lemma {:induction false} AtomBack(b: seq<Byte>, p: nat, t: seq<Byte>)
    requires Has(b, p, t) && (forall i :: 0 <= i < |t| ==> Plain(t[i]) && t[i] != Comma) && Stops(b, p + |t|)
    ensures Atom(b, p) == p + |t|
    decreases |t|
  {
    if t != [] {
      assert b[p + 0] == t[0];
      assert t == [t[0]] + t[1..];
      HasSplit(b, p, [t[0]], t[1..]);
      AtomBack(b, p + 1, t[1..]);
    }
  }

  lemma DumpStart(v: Value)
    requires ValueOk(v)
    ensures Dump(v) != [] && Dump(v)[0] > 0x20
  {
  }

  lemma {:induction false} SkipBracketed(b: seq<Byte>, p: nat, q: nat, l: Byte, body: seq<Byte>, r: Byte)
    requires q == Ws(b, p) && Has(b, q, [l] + (body + [r])) && (l == Open || l == OpenList)
    requires r == Close || r == CloseList
    requires Has(b, q + 1, body) ==> Nest(b, q + 1, 1) == Nest(b, q + 1 + |body|, 1)
    ensures Skip(b, p) == Ok(0, q + 2 + |body|)
  {
    NestBrackets(b, q, 0, l, body, r);
    HasSplit(b, q, [l], body + [r]);
    assert b[q + 0] == [l][0];
  }

  lemma {:induction false} SkipText(b: seq<Byte>, p: nat, q: nat, s: seq<Byte>)
    requires q == Ws(b, p) && Ascii(s) && Has(b, q, Quoted(s))
    ensures Skip(b, p) == Ok(0, q + |Quoted(s)|)
  {
    HasSplit(b, q, [Quote], EscAll(s) + [Quote]);
    assert b[q + 0] == [Quote][0];
    SkipStrBack(b, q + 1, s);
  }

  lemma {:induction false} SkipNumber(b: seq<Byte>, p: nat, q: nat, t: seq<Byte>)
    requires q == Ws(b, p) && ValueOk(Number(t)) && Has(b, q, t) && Stops(b, q + |t|)
    ensures Skip(b, p) == Ok(0, q + |t|)
  {
    assert b[q + 0] == t[0];
    AtomBack(b, q, t);
  }

  lemma {:induction false} SkipArray(b: seq<Byte>, p: nat, q: nat, vals: seq<Value>)
    requires q == Ws(b, p) && ValueOk(Array(vals)) && Has(b, q, [OpenList] + (DumpAll(vals) + [CloseList]))
    ensures Skip(b, p) == Ok(0, q + 2 + |DumpAll(vals)|)
  {
    forall i | 0 <= i < |vals| ensures Over(Nesting(b, 1), b, Dump(vals[i])) { OverValue(b, 1, vals[i]); }
    OverAll(b, 1, vals);
    assert StepAt(Nesting(b, 1), b, DumpAll(vals), q + 1);
    SkipBracketed(b, p, q, OpenList, DumpAll(vals), CloseList);
  }

  lemma {:induction false} SkipDict(b: seq<Byte>, p: nat, q: nat, keys: seq<seq<Byte>>, vals: seq<Value>)
    requires q == Ws(b, p) && ValueOk(Dict(keys, vals)) && Has(b, q, [Open] + (DumpPairs(keys, vals) + [Close]))
    ensures Skip(b, p) == Ok(0, q + 2 + |DumpPairs(keys, vals)|)
  {
    forall i | 0 <= i < |vals| ensures Over(Nesting(b, 1), b, Dump(vals[i])) { OverValue(b, 1, vals[i]); }
    OverPairs(b, 1, keys, vals);
    assert StepAt(Nesting(b, 1), b, DumpPairs(keys, vals), q + 1);
    SkipBracketed(b, p, q, Open, DumpPairs(keys, vals), Close);
  }

  /** Skipping steps over exactly one value, of any shape. */
  lemma {:induction false} SkipBack(b: seq<Byte>, p: nat, q: nat, v: Value)
    requires q == Ws(b, p) && ValueOk(v) && Has(b, q, Dump(v)) && Stops(b, q + |Dump(v)|)
    ensures Skip(b, p) == Ok(0, q + |Dump(v)|)
  {
    match v
    case Text(s) => SkipText(b, p, q, s);
    case Number(t) => SkipNumber(b, p, q, t);
    case Array(vals) => SkipArray(b, p, q, vals);
    case Dict(keys, vals) => SkipDict(b, p, q, keys, vals);
  }

  // -------------------------------------------------------------------------- header

  /** What the writer must respect: a printable name that is not the metadata key, at most four
      dimensions, and numbers the scanner accepts. */
  ghost predicate SpecOk(K: Names, s: Spec, base: int, file: int)
  {
    && Clean(s.name) && |s.name| < 512 && s.name != K.metadata && |s.shape| <= 4
    && Made(s.name, Found(s), base, file).Some?
  }

  function TensorOf(s: Spec, base: int): Tensor
  {
    Tensor(s.name, s.dt, Wrapped(s.shape), S64(base + S64(s.start)), S64(S64(s.stop) - S64(s.start)))
  }

  ghost predicate RowOk(K: Names, r: Row, base: int, file: int)
  {
    match r case Meta(v) => ValueOk(v) case Of(s) => SpecOk(K, s, base, file)
  }

  function Adds(r: Row, base: int): seq<Tensor> { match r case Meta(_) => [] case Of(s) => [TensorOf(s, base)] }

  lemma {:induction false} ItemFrom(K: Names, b: seq<Byte>, p: nat, q: nat, name: seq<Byte>, e: Entry, r: nat,
      t: Tensor, base: int, file: int, acc: seq<Tensor>)
    requires CStr(name) != K.metadata && q == Ws(b, p) && At(b, q, Open)
    requires Fields(K, b, q + 1, true, NoFields()) == Ok(e, r) && Made(name, e, base, file) == Some(t)
    ensures Item(K, b, p, name, base, file, acc) == Ok(acc + [t], r)
  {
  }

  lemma {:induction false} ObjectFields(K: Names, b: seq<Byte>, q: nat, s: Spec)
    requires NamesOk(K) && |s.shape| <= 4 && Has(b, q, Object(K, s))
    ensures At(b, q, Open) && Fields(K, b, q + 1, true, NoFields()) == Ok(Found(s), q + |Object(K, s)|)
  {
    var x, y, z := DtypeText(K, s), ShapeText(K, s), OffsetsText(K, s);
    ObjectIs(K, s, x, y, z);
    HasSplit(b, q, [Open], x + ([Comma, 0x20] + (y + ([Comma, 0x20] + (z + [Close])))));
    assert b[q + 0] == [Open][0];
    FieldsBack(K, b, q + 1, s, x, y, z);
  }

  lemma ObjectIs(K: Names, s: Spec, x: seq<Byte>, y: seq<Byte>, z: seq<Byte>)
    requires x == DtypeText(K, s) && y == ShapeText(K, s) && z == OffsetsText(K, s)
    ensures Object(K, s) == [Open] + (x + ([Comma, 0x20] + (y + ([Comma, 0x20] + (z + [Close])))))
    ensures |Object(K, s)| == |x| + |y| + |z| + 6
  {
  }

  lemma {:induction false} MadeBack(K: Names, s: Spec, base: int, file: int)
    requires SpecOk(K, s, base, file)
    ensures Made(s.name, Found(s), base, file) == Some(TensorOf(s, base))
  {
  }

  lemma {:induction false} SpecItem(K: Names, b: seq<Byte>, p: nat, q: nat, s: Spec, base: int, file: int,
      acc: seq<Tensor>, r: nat)
    requires SpecOk(K, s, base, file) && q == Ws(b, p) && CStr(s.name) == s.name && At(b, q, Open)
    requires Fields(K, b, q + 1, true, NoFields()) == Ok(Found(s), r)
    ensures Item(K, b, p, s.name, base, file, acc) == Ok(acc + [TensorOf(s, base)], r)
  {
    MadeBack(K, s, base, file);
    ItemFrom(K, b, p, q, s.name, Found(s), r, TensorOf(s, base), base, file, acc);
  }

  lemma ObjectStart(K: Names, s: Spec)
    ensures Object(K, s) != [] && Object(K, s)[0] == Open
  {
  }

  lemma {:induction false} NamedFrom(K: Names, b: seq<Byte>, p: nat, name: seq<Byte>, q: nat, base: int, file: int,
      acc: seq<Tensor>, acc': seq<Tensor>, s: nat)
    requires Str(b, p, 512) == Ok(name, q) && Lit(b, q, Colon) == Ok(0, q + 1)
    requires Item(K, b, q + 1, name, base, file, acc) == Ok(acc', s)
    ensures Named(K, b, p, base, file, acc) == Ok(acc', s)
  {
  }

  lemma {:induction false} MetaNamed(K: Names, b: seq<Byte>, p: nat, base: int, file: int, acc: seq<Tensor>, r: nat,
      t: nat)
    requires Str(b, p, 512) == Ok(K.metadata, r) && CStr(K.metadata) == K.metadata && Lit(b, r, Colon) == Ok(0, r + 1)
    requires Skip(b, r + 1) == Ok(0, t)
    ensures Named(K, b, p, base, file, acc) == Ok(acc, t)
  {
  }

  lemma {:induction false} MetaBack(K: Names, b: seq<Byte>, p: nat, v: Value, base: int, file: int, acc: seq<Tensor>,
      d: seq<Byte>)
    requires NamesOk(K) && ValueOk(v) && d == Dump(v) && p == Ws(b, p) && Has(b, p, KeyVal(K.metadata, d))
    requires Stops(b, p + |KeyVal(K.metadata, d)|)
    ensures Named(K, b, p, base, file, acc) == Ok(acc, p + |KeyVal(K.metadata, d)|)
  {
    DumpStart(v);
    QuotedStart(K.metadata, d);
    KeyBack(b, p, p, K.metadata, d, 512);
    var r: nat := p + |Quoted(K.metadata)|;
    SkipBack(b, r + 1, r + 2, v);
    MetaNamed(K, b, p, base, file, acc, r, r + 2 + |d|);
  }

  /** An object text whose fields are read wherever it stands. */
  ghost predicate ObjectReads(K: Names, b: seq<Byte>, o: seq<Byte>, s: Spec, q: nat)
  {
    Has(b, q, o) ==> At(b, q, Open) && Fields(K, b, q + 1, true, NoFields()) == Ok(Found(s), q + |o|)
  }

  lemma {:induction false} SpecBack(K: Names, b: seq<Byte>, p: nat, s: Spec, base: int, file: int, acc: seq<Tensor>,
      o: seq<Byte>, r: nat)
    requires SpecOk(K, s, base, file) && o != [] && o[0] == Open && p == Ws(b, p) && Has(b, p, KeyVal(s.name, o))
    requires r == p + |Quoted(s.name)|
    requires ObjectReads(K, b, o, s, r + 2)
    ensures Named(K, b, p, base, file, acc) == Ok(acc + [TensorOf(s, base)], r + 2 + |o|)
  {
    KeyBack(b, p, p, s.name, o, 512);
    SpecNamed(K, b, p, s, base, file, acc, r, r + 2 + |o|);
  }

  lemma {:induction false} SpecNamed(K: Names, b: seq<Byte>, p: nat, s: Spec, base: int, file: int, acc: seq<Tensor>,
      r: nat, t: nat)
    requires SpecOk(K, s, base, file) && Str(b, p, 512) == Ok(s.name, r) && CStr(s.name) == s.name
    requires Lit(b, r, Colon) == Ok(0, r + 1)
    requires Ws(b, r + 1) == r + 2 && At(b, r + 2, Open) && Fields(K, b, r + 3, true, NoFields()) == Ok(Found(s), t)
    ensures Named(K, b, p, base, file, acc) == Ok(acc + [TensorOf(s, base)], t)
  {
    SpecItem(K, b, r + 1, r + 2, s, base, file, acc, t);
    NamedFrom(K, b, p, s.name, r, base, file, acc, acc + [TensorOf(s, base)], t);
  }

  lemma {:induction false} ObjectReading(K: Names, b: seq<Byte>, s: Spec, o: seq<Byte>, q: nat)
    requires NamesOk(K) && |s.shape| <= 4 && o == Object(K, s)
    ensures o != [] && o[0] == Open && ObjectReads(K, b, o, s, q)
  {
    ObjectStart(K, s);
    if Has(b, q, o) { ObjectFields(K, b, q, s); }
  }

  /** A line that is read wherever it stands, as long as a separator or the end follows. */
  ghost predicate LineReads(named: Reader, b: seq<Byte>, text: seq<Byte>, add: seq<Tensor>, p: nat, acc: seq<Tensor>)
  {
    p == Ws(b, p) && Has(b, p, text) && Stops(b, p + |text|) ==> named(p, acc) == Ok(acc + add, p + |text|)
  }

  lemma {:induction false} RowBack(K: Names, b: seq<Byte>, p: nat, r: Row, base: int, file: int, acc: seq<Tensor>)
    requires NamesOk(K) && RowOk(K, r, base, file)
    ensures LineReads(Entries(K, b, base, file), b, RowText(K, r), Adds(r, base), p, acc)
  {
    match r
    case Meta(v) => MetaRow(K, b, p, v, base, file, acc);
    case Of(s) => SpecRow(K, b, p, s, base, file, acc, Object(K, s));
  }

  lemma {:induction false} MetaRow(K: Names, b: seq<Byte>, p: nat, v: Value, base: int, file: int, acc: seq<Tensor>)
    requires NamesOk(K) && ValueOk(v)
    ensures LineReads(Entries(K, b, base, file), b, KeyVal(K.metadata, Dump(v)), [], p, acc)
  {
    var text := KeyVal(K.metadata, Dump(v));
    if p == Ws(b, p) && Has(b, p, text) && Stops(b, p + |text|) {
      MetaBack(K, b, p, v, base, file, acc, Dump(v));
      assert acc + [] == acc;
    }
  }

  lemma {:induction false} SpecRow(K: Names, b: seq<Byte>, p: nat, s: Spec, base: int, file: int, acc: seq<Tensor>,
      o: seq<Byte>)
    requires NamesOk(K) && SpecOk(K, s, base, file) && o == Object(K, s)
    ensures LineReads(Entries(K, b, base, file), b, KeyVal(s.name, o), [TensorOf(s, base)], p, acc)
  {
    ObjectReading(K, b, s, o, p + |Quoted(s.name)| + 2);
    SpecReads(K, b, p, s, base, file, acc, o, p + |Quoted(s.name)|);
  }

  lemma {:induction false} SpecReads(K: Names, b: seq<Byte>, p: nat, s: Spec, base: int, file: int, acc: seq<Tensor>,
      o: seq<Byte>, r: nat)
    requires SpecOk(K, s, base, file) && o != [] && o[0] == Open && r == p + |Quoted(s.name)|
    requires ObjectReads(K, b, o, s, r + 2)
    ensures LineReads(Entries(K, b, base, file), b, KeyVal(s.name, o), [TensorOf(s, base)], p, acc)
  {
    QuotedStart(s.name, o);
    if p == Ws(b, p) && Has(b, p, KeyVal(s.name, o)) { SpecBack(K, b, p, s, base, file, acc, o, r); }
  }

  /** What follows a line: the end, or a comma and more lines. */
  function After(ls: seq<seq<Byte>>): seq<Byte> { if ls == [] then [Close] else [Comma, 0x20] + Lines(ls) }

  lemma LinesAre(ls: seq<seq<Byte>>)
    requires ls != []
    ensures Lines(ls) == ls[0] + After(ls[1..])
  {
    if |ls| == 1 { assert ls[1..] == []; }
  }

  lemma RowStart(K: Names, r: Row)
    ensures RowText(K, r) != [] && RowText(K, r)[0] == Quote
  {
    match r
    case Meta(v) => QuotedStart(K.metadata, Dump(v));
    case Of(s) => QuotedStart(s.name, Object(K, s));
  }

  lemma {:induction false} LineThere(b: seq<Byte>, p: nat, ls: seq<seq<Byte>>)
    requires ls != [] && ls[0] != [] && ls[0][0] == Quote && Has(b, p, Lines(ls))
    ensures var n := |ls[0]|;
      Has(b, p, ls[0]) && At(b, p, Quote) && Ws(b, p) == p && Stops(b, p + n) && Has(b, p + n, After(ls[1..]))
    ensures |Lines(ls)| == |ls[0]| + |After(ls[1..])| && Lines(ls) != [] && Lines(ls)[0] == Quote
  {
    LinesAre(ls);
    Next(b, p, ls[0], After(ls[1..]));
    assert b[p + 0] == ls[0][0];
  }

  lemma {:induction false} FirstItem(named: Reader, b: seq<Byte>, p: nat, acc: seq<Tensor>, acc': seq<Tensor>, s: nat)
    requires At(b, p, Quote) && named(p, acc) == Ok(acc', s) && p < s <= |b|
    ensures Items(named, b, p, true, acc) == Items(named, b, s, false, acc')
  {
    assert Ws(b, p) == p;
  }

  lemma {:induction false} NextItem(named: Reader, b: seq<Byte>, p: nat, acc: seq<Tensor>, acc': seq<Tensor>, s: nat)
    requires At(b, p, Comma) && Ws(b, p + 1) == p + 2 && At(b, p + 2, Quote) && named(p + 2, acc) == Ok(acc', s)
    requires p < s <= |b|
    ensures Items(named, b, p, false, acc) == Items(named, b, s, false, acc')
  {
    assert Ws(b, p) == p;
  }

  lemma {:induction false} NoMore(named: Reader, b: seq<Byte>, p: nat, first: bool, acc: seq<Tensor>)
    requires Has(b, p, [Close])
    ensures Items(named, b, p, first, acc) == Ok(acc, p + 1)
  {
    assert b[p + 0] == [Close][0];
  }

  /** Lines and what each of them adds. */
  ghost predicate Readable(named: Reader, b: seq<Byte>, ls: seq<seq<Byte>>, adds: seq<seq<Tensor>>)
  {
    && |ls| == |adds|
    && (forall i :: 0 <= i < |ls| ==> ls[i] != [] && ls[i][0] == Quote)
    && (forall i, p: nat, acc :: 0 <= i < |ls| ==> LineReads(named, b, ls[i], adds[i], p, acc))
  }

  function Flat(adds: seq<seq<Tensor>>): seq<Tensor> { if adds == [] then [] else adds[0] + Flat(adds[1..]) }

  lemma {:induction false} SepThere(b: seq<Byte>, p: nat, ls: seq<seq<Byte>>)
    requires ls != [] && ls[0] != [] && ls[0][0] == Quote && Has(b, p, After(ls))
    ensures At(b, p, Comma) && Ws(b, p + 1) == p + 2 && Has(b, p + 2, Lines(ls)) && |After(ls)| == 2 + |Lines(ls)|
  {
    LinesAre(ls);
    AfterMark(b, p, Comma, Lines(ls));
  }

  /** Everything after a line. */
  lemma {:induction false} RestBack(named: Reader, b: seq<Byte>, p: nat, ls: seq<seq<Byte>>, adds: seq<seq<Tensor>>,
      acc: seq<Tensor>)
    requires Readable(named, b, ls, adds) && Has(b, p, After(ls))
    ensures Items(named, b, p, false, acc) == Ok(acc + Flat(adds), p + |After(ls)|)
    decreases |ls|
  {
    if ls == [] {
      NoMore(named, b, p, false, acc);
      assert acc + [] == acc;
    } else {
      var s := OneMore(named, b, p, ls, adds, acc);
      RestReadable(named, b, ls, adds);
      RestBack(named, b, s, ls[1..], adds[1..], acc + adds[0]);
      assert acc + adds[0] + Flat(adds[1..]) == acc + Flat(adds);
    }
  }

  lemma {:induction false} OneMore(named: Reader, b: seq<Byte>, p: nat, ls: seq<seq<Byte>>, adds: seq<seq<Tensor>>,
      acc: seq<Tensor>)
    returns (s: nat)
    requires ls != [] && Readable(named, b, ls, adds) && Has(b, p, After(ls))
    ensures s == p + 2 + |ls[0]| && Has(b, s, After(ls[1..])) && s + |After(ls[1..])| == p + |After(ls)|
    ensures Items(named, b, p, false, acc) == Items(named, b, s, false, acc + adds[0])
  {
    SepThere(b, p, ls);
    LineThere(b, p + 2, ls);
    assert LineReads(named, b, ls[0], adds[0], p + 2, acc);
    s := p + 2 + |ls[0]|;
    NextItem(named, b, p, acc, acc + adds[0], s);
  }

  lemma {:induction false} RestReadable(named: Reader, b: seq<Byte>, ls: seq<seq<Byte>>, adds: seq<seq<Tensor>>)
    requires ls != [] && Readable(named, b, ls, adds)
    ensures Readable(named, b, ls[1..], adds[1..])
  {
    forall i, p: nat, acc | 0 <= i < |ls| - 1 ensures LineReads(named, b, ls[1..][i], adds[1..][i], p, acc) {
      assert LineReads(named, b, ls[i + 1], adds[i + 1], p, acc);
    }
  }

  lemma {:induction false} FirstOne(named: Reader, b: seq<Byte>, ls: seq<seq<Byte>>, adds: seq<seq<Tensor>>)
    returns (s: nat)
    requires ls != [] && Has(b, 1, Lines(ls)) && Readable(named, b, ls, adds)
    ensures s == 1 + |ls[0]| && Has(b, s, After(ls[1..])) && s + |After(ls[1..])| == 1 + |Lines(ls)|
    ensures Items(named, b, 1, true, []) == Items(named, b, s, false, adds[0])
  {
    LineThere(b, 1, ls);
    assert LineReads(named, b, ls[0], adds[0], 1, []);
    assert [] + adds[0] == adds[0];
    s := 1 + |ls[0]|;
    FirstItem(named, b, 1, [], adds[0], s);
  }

  /** Any lines that are readable, from the opening brace on. */
  lemma {:induction false} ItemsFrom(named: Reader, b: seq<Byte>, ls: seq<seq<Byte>>, adds: seq<seq<Tensor>>)
    requires Has(b, 1, Lines(ls)) && Readable(named, b, ls, adds)
    ensures Items(named, b, 1, true, []) == Ok(Flat(adds), 1 + |Lines(ls)|)
  {
    if ls == [] {
      NoMore(named, b, 1, true, []);
    } else {
      var s := FirstOne(named, b, ls, adds);
      RestReadable(named, b, ls, adds);
      RestBack(named, b, s, ls[1..], adds[1..], adds[0]);
    }
  }

  lemma {:induction false} HeaderVia(K: Names, b: seq<Byte>, file: int, named: Reader)
    requires At(b, 0, Open) && named == Entries(K, b, 8 + |b|, file)
    ensures Header(K, b, file) == Items(named, b, 1, true, [])
  {
    assert Ws(b, 0) == 0;
  }

  lemma {:induction false} OpenThere(b: seq<Byte>, body: seq<Byte>)
    requires b == [Open] + body
    ensures At(b, 0, Open) && Has(b, 1, body) && |b| == 1 + |body|
  {
    HasSplit(b, 0, [Open], body);
  }

  lemma {:induction false} HeaderFrom(K: Names, b: seq<Byte>, ls: seq<seq<Byte>>, adds: seq<seq<Tensor>>, file: int)
    requires b == [Open] + Lines(ls) && Readable(Entries(K, b, 8 + |b|, file), b, ls, adds)
    ensures Header(K, b, file) == Ok(Flat(adds), |b|)
  {
    OpenThere(b, Lines(ls));
    HeaderVia(K, b, file, Entries(K, b, 8 + |b|, file));
    ItemsFrom(Entries(K, b, 8 + |b|, file), b, ls, adds);
  }

  function AddsAll(rs: seq<Row>, base: int): (r: seq<seq<Tensor>>)
    ensures |r| == |rs|
  {
    seq(|rs|, i requires 0 <= i < |rs| => Adds(rs[i], base))
  }

  lemma {:induction false} RowsReadable(K: Names, b: seq<Byte>, rs: seq<Row>, base: int, file: int)
    requires NamesOk(K) && forall i :: 0 <= i < |rs| ==> RowOk(K, rs[i], base, file)
    ensures Readable(Entries(K, b, base, file), b, RowTexts(K, rs), AddsAll(rs, base))
  {
    var ls, adds := RowTexts(K, rs), AddsAll(rs, base);
    forall i | 0 <= i < |ls| ensures ls[i] != [] && ls[i][0] == Quote { RowStart(K, rs[i]); }
    forall i, p: nat, acc | 0 <= i < |ls| ensures LineReads(Entries(K, b, base, file), b, ls[i], adds[i], p, acc) {
      RowBack(K, b, p, rs[i], base, file, acc);
    }
  }

  /** Scanning inverts printing: the header written for any list of tensors, with or without
      metadata, gives back what each line stands for. */
  lemma {:induction false} HeaderRoundTrip(K: Names, rs: seq<Row>, file: int, b: seq<Byte>)
    requires NamesOk(K) && b == HeaderText(K, rs) && forall i :: 0 <= i < |rs| ==> RowOk(K, rs[i], 8 + |b|, file)
    ensures Header(K, b, file) == Ok(Flat(AddsAll(rs, 8 + |b|)), |b|)
  {
    RowsReadable(K, b, rs, 8 + |b|, file);
    HeaderFrom(K, b, RowTexts(K, rs), AddsAll(rs, 8 + |b|), file);
  }

  lemma {:induction false} FlatOnes(adds: seq<seq<Tensor>>, ts: seq<Tensor>)
    requires |adds| == |ts| && forall i :: 0 <= i < |ts| ==> adds[i] == [ts[i]]
    ensures Flat(adds) == ts
    decreases |ts|
  {
    if ts != [] { FlatOnes(adds[1..], ts[1..]); }
  }

  function TensorsOf(ss: seq<Spec>, base: int): (r: seq<Tensor>)
    ensures |r| == |ss|
  {
    seq(|ss|, i requires 0 <= i < |ss| => TensorOf(ss[i], base))
  }

  lemma {:induction false} FlatRows(meta: Option<Value>, ss: seq<Spec>, base: int)
    ensures Flat(AddsAll(Rows(meta, ss), base)) == TensorsOf(ss, base)
  {
    var adds, ts := AddsAll(Rows(meta, ss), base), TensorsOf(ss, base);
    if meta.Some? {
      assert adds[0] == [];
      FlatOnes(adds[1..], ts);
      assert [] + ts == ts;
    } else {
      FlatOnes(adds, ts);
    }
  }

  lemma {:induction false} RowsOk(K: Names, meta: Option<Value>, ss: seq<Spec>, base: int, file: int)
    requires meta.Some? ==> ValueOk(meta.value)
    requires forall i :: 0 <= i < |ss| ==> SpecOk(K, ss[i], base, file)
    ensures var rs := Rows(meta, ss); forall i :: 0 <= i < |rs| ==> RowOk(K, rs[i], base, file)
  {
    var rs, k := Rows(meta, ss), if meta.Some? then 1 else 0;
    forall i | 0 <= i < |rs| ensures RowOk(K, rs[i], base, file) {
      if i >= k { assert rs[i] == Of(ss[i - k]); }
    }
  }

  /** Every name, type and shape comes back, with offset 8 + N + start, as far as 64 bits hold the
      numbers. */
  lemma {:induction false} ShardRoundTrip(meta: Option<Value>, ss: seq<Spec>, file: int, K: Names, b: seq<Byte>)
    requires K == Standard() && b == HeaderText(K, Rows(meta, ss)) && (meta.Some? ==> ValueOk(meta.value))
    requires forall i :: 0 <= i < |ss| ==> SpecOk(K, ss[i], 8 + |b|, file)
    ensures Header(K, b, file) == Ok(TensorsOf(ss, 8 + |b|), |b|)
  {
    StandardOk();
    RowsOk(K, meta, ss, 8 + |b|, file);
    HeaderRoundTrip(K, Rows(meta, ss), file, b);
    FlatRows(meta, ss, 8 + |b|);
  }
}
