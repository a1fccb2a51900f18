/** The scanner as it runs: one pointer advanced in place, src/io/k3_st.c:73-162 and 231-335. */
module JsonScan {
  import opened Bytes
  import opened Wrappers
  import opened Ints
  import opened Json

  class Scan {
    const K: Names
    const b: seq<Byte>
    var p: nat

    constructor (names: Names, text: seq<Byte>)
      ensures K == names && b == text && p == 0
    {
      K, b, p := names, text, 0;
    }

    method SkipSpace()
      modifies this
      ensures p == Ws(b, old(p))
    {
      while p < |b| && 0 <= b[p] <= 0x20
        invariant Ws(b, p) == Ws(b, old(p))
        decreases |b| - p
      {
        p := p + 1;
      }
    }

    method ReadLit(c: Byte) returns (ok: bool)
      modifies this
      ensures ok == Lit(b, old(p), c).Ok?
      ensures p == if ok then Lit(b, old(p), c).at else Ws(b, old(p))
    {
      SkipSpace();
      ok := p < |b| && b[p] == c;
      if ok { p := p + 1; }
    }

    method ReadChar() returns (ok: bool, c: Byte)
      requires p < |b| && b[p] != Quote
      modifies this
      ensures ok == Char(b, old(p)).Ok?
      ensures ok ==> c == Char(b, old(p)).val && p == Char(b, old(p)).at
    {
      c, ok := b[p], true;
      p := p + 1;
      if c == Slash {
        if p >= |b| { return false, c; }
        var e := b[p];
        p := p + 1;
        if e == 0x75 {
          if |b| - p < 4 { return false, c; }
          var v := Hex4(b, p);
          p := p + 4;
          c := if v < 128 then v else 0x3F;
        } else {
          c := Unescape(e);
        }
      }
    }

    /** A string of fewer than `cap` characters, escapes undone. */
    method ReadStr(cap: nat) returns (ok: bool, out: seq<Byte>)
      modifies this
      ensures ok == Str(b, old(p), cap).Ok?
      ensures ok ==> out == Str(b, old(p), cap).val && p == Str(b, old(p), cap).at
    {
      out := [];
      SkipSpace();
      if p >= |b| || b[p] != Quote { return false, out; }
      p := p + 1;
      ghost var start := p;
      while p < |b| && b[p] != Quote
        invariant Chars(b, p, out) == Chars(b, start, [])
        decreases |b| - p
      {
        CharMoves(b, p);
        var c;
        ok, c := ReadChar();
        if !ok { return; }
        out := out + [c];
      }
      if p >= |b| { return false, out; }
      p := p + 1;
      ok := |out| + 1 <= cap;
    }

    method ReadInt() returns (ok: bool, v: int)
      modifies this
      ensures ok == I64(b, old(p)).Ok?
      ensures ok ==> v == I64(b, old(p)).val && p == I64(b, old(p)).at
    {
      v := 0;
      SkipSpace();
      var neg := false;
      if p < |b| && (b[p] == 0x2D || b[p] == 0x2B) {
        neg := b[p] == 0x2D;
        p := p + 1;
      }
      if p >= |b| || b[p] < 0x30 || b[p] > 0x39 { return false, v; }
      ghost var start, n := p, 0;
      while p < |b| && 0x30 <= b[p] <= 0x39
        invariant Digits(b, p, n) == Digits(b, start, 0) && v == S64(n)
        decreases |b| - p
      {
        NextDigit(n, b[p] - 0x30);
        v := S64(v * 10 + (b[p] - 0x30));
        n := n * 10 + (b[p] - 0x30);
        p := p + 1;
      }
      ok := true;
      Negated(n);
      if neg { v := S64(-v); }
    }

    method SkipString() returns (ok: bool)
      modifies this
      ensures ok == SkipStr(b, old(p)).Ok?
      ensures ok ==> p == SkipStr(b, old(p)).at
    {
      while p < |b| && b[p] != Quote
        invariant SkipStr(b, p) == SkipStr(b, old(p))
        decreases |b| - p
      {
        if b[p] == Slash { p := p + 1; }
        p := p + 1;
      }
      ok := p < |b|;
      if ok { p := p + 1; }
    }

    method SkipNest() returns (ok: bool)
      modifies this
      ensures ok == Nest(b, old(p), 0).Ok?
      ensures ok ==> p == Nest(b, old(p), 0).at
    {
      var depth, done := 0, false;
      ok := true;
      ghost var whole := Nest(b, p, 0);
      while !done
        invariant if done then whole == Ok(0, p) else Nest(b, p, depth) == whole
        invariant ok
        decreases !done, |b| - p
      {
        if p >= |b| { return false; }
        var c := b[p];
        SkipStrMoves(b, p + 1);
        p := p + 1;
        if c == Quote {
          ok := SkipString();
          if !ok { return; }
        } else if c == Open || c == OpenList {
          depth := depth + 1;
        } else if c == Close || c == CloseList {
          depth := depth - 1;
        }
        ok, done := true, depth <= 0;
      }
    }

    method SkipValue() returns (ok: bool)
      modifies this
      ensures ok == Skip(b, old(p)).Ok?
      ensures ok ==> p == Skip(b, old(p)).at
    {
      SkipSpace();
      if p >= |b| { return false; }
      if b[p] == Quote {
        p := p + 1;
        ok := SkipString();
      } else if b[p] == Open || b[p] == OpenList {
        ok := SkipNest();
      } else {
        ghost var start := p;
        while p < |b| && b[p] != Comma && b[p] != Close && b[p] != CloseList
          invariant Atom(b, p) == Atom(b, start)
          decreases |b| - p
        {
          p := p + 1;
        }
        ok := true;
      }
    }

    method ReadDims(shape0: seq<int>) returns (ok: bool, shape: seq<int>)
      requires |shape0| <= 4
      modifies this
      ensures ok == Dims(b, old(p), shape0).Ok?
      ensures ok ==> shape == Dims(b, old(p), shape0).val && p == Dims(b, old(p), shape0).at
    {
      shape := shape0;
      ghost var whole := Dims(b, p, shape0);
      while true
        invariant |shape| <= 4 && Dims(b, p, shape) == whole
        decreases 4 - |shape|
      {
        var d, more;
        ok, d := ReadInt();
        if !ok || |shape| >= 4 { return false, shape; }
        shape := shape + [d];
        ghost var q := p;
        more := ReadLit(Comma);
        if !more {
          WsTwice(b, q);
          ok := ReadLit(CloseList);
          return;
        }
      }
    }

    method ReadShape(shape0: seq<int>) returns (ok: bool, shape: seq<int>)
      requires |shape0| <= 4
      modifies this
      ensures ok == Shape(b, old(p), shape0).Ok?
      ensures ok ==> shape == Shape(b, old(p), shape0).val && p == Shape(b, old(p), shape0).at
    {
      shape := shape0;
      ok := ReadLit(OpenList);
      if !ok { return; }
      ghost var q := p;
      SkipSpace();
      if p < |b| && b[p] == CloseList {
        p := p + 1;
      } else {
        DimsAfterSpace(b, q, shape0);
        ok, shape := ReadDims(shape0);
      }
    }

    method ReadOffsets() returns (ok: bool, o0: int, o1: int)
      modifies this
      ensures ok == Offsets(b, old(p)).Ok?
      ensures ok ==> (o0, o1) == Offsets(b, old(p)).val && p == Offsets(b, old(p)).at
    {
      o0, o1 := 0, 0;
      ok := ReadLit(OpenList);
      if ok { ok, o0 := ReadInt(); }
      if ok { ok := ReadLit(Comma); }
      if ok { ok, o1 := ReadInt(); }
      if ok { ok := ReadLit(CloseList); }
    }

    method ReadField(key: seq<Byte>, e: Entry) returns (ok: bool, e': Entry)
      requires |e.shape| <= 4
      modifies this
      ensures ok == Field(K, b, old(p), key, e).Ok?
      ensures ok ==> e' == Field(K, b, old(p), key, e).val && p == Field(K, b, old(p), key, e).at
    {
      e' := e;
      if key == K.dtype {
        var s;
        ok, s := ReadStr(32);
        if ok {
          e' := e.(dt := DTypeOf(K, s));
          ok := e'.dt.Some?;
        }
      } else if key == K.shape {
        var ds;
        ok, ds := ReadShape(e.shape);
        e' := e.(shape := ds);
      } else if key == K.offsets {
        var o0, o1;
        ok, o0, o1 := ReadOffsets();
        e' := e.(offs := Some((o0, o1)));
      } else {
        ok := SkipValue();
      }
    }

    method ReadPair(e: Entry) returns (ok: bool, e': Entry)
      requires |e.shape| <= 4
      modifies this
      ensures ok == Pair(K, b, old(p), e).Ok?
      ensures ok ==> e' == Pair(K, b, old(p), e).val && p == Pair(K, b, old(p), e).at
    {
      var key;
      e' := e;
      ok, key := ReadStr(64);
      if ok { ok := ReadLit(Colon); }
      if ok { ok, e' := ReadField(CStr(key), e); }
    }

    method ReadFields() returns (ok: bool, e: Entry)
      modifies this
      ensures ok == Fields(K, b, old(p), true, NoFields()).Ok?
      ensures ok ==> e == Fields(K, b, old(p), true, NoFields()).val && p == Fields(K, b, old(p), true, NoFields()).at
    {
      e := NoFields();
      var first := true;
      ghost var whole := Fields(K, b, p, true, e);
      while true
        invariant |e.shape| <= 4 && Fields(K, b, p, first, e) == whole
        decreases |b| - p
      {
        WsTwice(b, p);
        SkipSpace();
        if p < |b| && b[p] == Close {
          p := p + 1;
          return true, e;
        }
        if !first {
          LitMoves(b, p, Comma);
          ok := ReadLit(Comma);
          if !ok { return; }
        }
        first := false;
        PairMoves(K, b, p, e);
        ok, e := ReadPair(e);
        if !ok { return; }
      }
    }

    method ReadItem(name: seq<Byte>, base: int, file: int, acc: seq<Tensor>) returns (ok: bool, acc': seq<Tensor>)
      modifies this
      ensures ok == Item(K, b, old(p), name, base, file, acc).Ok?
      ensures ok ==>
        acc' == Item(K, b, old(p), name, base, file, acc).val && p == Item(K, b, old(p), name, base, file, acc).at
    {
      acc' := acc;
      if CStr(name) == K.metadata {
        ok := SkipValue();
      } else {
        ok := ReadLit(Open);
        if ok {
          var e;
          ok, e := ReadFields();
          if ok {
            var t := Made(name, e, base, file);
            ok := t.Some?;
            if ok { acc' := acc + [t.value]; }
          }
        }
      }
    }

    method ReadNamed(base: int, file: int, acc: seq<Tensor>) returns (ok: bool, acc': seq<Tensor>)
      modifies this
      ensures ok == Named(K, b, old(p), base, file, acc).Ok?
      ensures ok ==> acc' == Named(K, b, old(p), base, file, acc).val && p == Named(K, b, old(p), base, file, acc).at
    {
      var name;
      acc' := acc;
      ok, name := ReadStr(512);
      if ok { ok := ReadLit(Colon); }
      if ok { ok, acc' := ReadItem(name, base, file, acc); }
    }

    /** The whole header: the list of tensors, or a refusal. */
    method ReadHeader(file: int) returns (ok: bool, ts: seq<Tensor>)
      requires p == 0
      modifies this
      ensures ok == Header(K, b, file).Ok?
      ensures ok ==> ts == Header(K, b, file).val && p == Header(K, b, file).at
    {
      ts := [];
      ok := ReadLit(Open);
      if !ok { return; }
      var base, first := 8 + |b|, true;
      ghost var named := Entries(K, b, base, file);
      ghost var whole := Items(named, b, p, true, []);
      while true
        invariant Items(named, b, p, first, ts) == whole && whole == Header(K, b, file)
        decreases |b| - p
      {
        WsTwice(b, p);
        SkipSpace();
        if p < |b| && b[p] == Close {
          p := p + 1;
          return true, ts;
        }
        LitMoves(b, p, Comma);
        if !first {
          ok := ReadLit(Comma);
          if !ok { return; }
        }
        first := false;
        SkipSpace();
        if p < |b| && b[p] == Close {
          p := p + 1;
          return true, ts;
        }
        NamedMoves(K, b, p, base, file, ts);
        ok, ts := ReadNamed(base, file, ts);
        if !ok { return; }
      }
    }
  }

  lemma {:induction false} IntAfterSpace(b: seq<Byte>, p: nat)
    ensures I64(b, Ws(b, p)) == I64(b, p)
  {
    WsTwice(b, p);
  }

  lemma {:induction false} DimsAfterSpace(b: seq<Byte>, p: nat, shape: seq<int>)
    requires |shape| <= 4
    ensures Dims(b, Ws(b, p), shape) == Dims(b, p, shape)
  {
    IntAfterSpace(b, p);
  }

  /** Skipping space twice is skipping it once. */
  lemma {:induction false} WsTwice(b: seq<Byte>, p: nat)
    ensures Ws(b, Ws(b, p)) == Ws(b, p)
    decreases |b| - p
  {
    if p < |b| && 0 <= b[p] <= 0x20 { WsTwice(b, p + 1); }
  }
}
