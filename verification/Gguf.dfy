/** The GGUF reader as it runs: a latching cursor, a bump pool for names, and a prefix that is
    read again, larger, until the header fits, src/formats/gguf.c:19-66, 116-398. */
module Gguf {
  import opened GgufSpec
  import opened Ints
  import opened Bytes
  import opened Bits

  /** A bounds-checked walk; once a read fails, every later one fails too and yields zero. */
  class Cur {
    const data: seq<Byte>
    var pos: nat
    var bad: bool

    constructor (b: seq<Byte>, p: nat)
      ensures data == b && pos == p && !bad
    {
      data, pos, bad := b, p, false;
    }

    method Rd(n: nat) returns (v: nat)
      modifies this
      ensures old(bad) ==> bad && v == 0
      ensures !old(bad) ==> match Num(data, old(pos), n)
        case Got(x, q) => !bad && v == x && pos == q
        case _ => bad && v == 0
    {
      v := 0;
      if bad || pos + n > |data| {
        bad := true;
        return;
      }
      v := Assemble(data, pos, n);
      pos := pos + n;
    }

    method RdStr() returns (s: seq<Byte>)
      modifies this
      ensures old(bad) ==> bad
      ensures !old(bad) ==> match Str(data, old(pos))
        case Got(x, q) => !bad && s == x && pos == q
        case _ => bad
    {
      s := [];
      var n := Rd(8);
      if bad || pos + n > |data| {
        bad := true;
        return;
      }
      s := data[pos..pos + n];
      pos := pos + n;
    }
  }

  /** Bytes put together from the lowest up, whatever the host's byte order. */
  method Assemble(b: seq<Byte>, p: nat, n: nat) returns (v: nat)
    requires p + n <= |b|
    ensures v == LE(b, p, n)
  {
    v := 0;
    var unit: nat := 1;
    for i := 0 to n
      invariant v + unit * LE(b, p + i, n - i) == LE(b, p, n)
    {
      Carry(unit, b[p + i] % 256, LE(b, p + i + 1, n - i - 1));
      v := v + unit * (b[p + i] % 256);
      unit := 256 * unit;
    }
  }

  lemma Carry(unit: nat, x: nat, y: nat)
    ensures unit * (x + 256 * y) == unit * x + 256 * unit * y
  {
  }

  /** Names are copied here and pointers handed out, so the pool must never grow. */
  class Pool {
    const cap: nat
    var used: nat

    constructor (c: nat)
      ensures cap == c && used == 0
    {
      cap, used := c, 0;
    }

    method Add(n: nat) returns (ok: bool)
      modifies this
      ensures ok <==> old(used) + n + 1 <= cap
      ensures used == if ok then old(used) + n + 1 else old(used)
    {
      ok := used + n + 1 <= cap;
      if ok { used := used + n + 1; }
    }
  }

  // ----------------------------------------------------------------------- metadata

  method SkipStrs(c: Cur, n: int)
    requires !c.bad
    modifies c
    ensures match Strs(c.data, old(c.pos), if n > 0 then n else 0)
      case Got(_, q) => !c.bad && c.pos == q
      case _ => c.bad
  {
    var j := 0;
    while j < n && !c.bad
      invariant j <= (if n > 0 then n else 0)
      invariant !c.bad ==>
        Strs(c.data, c.pos, if n > 0 then n - j else 0) == Strs(c.data, old(c.pos), if n > 0 then n else 0)
      invariant c.bad ==> Strs(c.data, old(c.pos), if n > 0 then n else 0) == Short
      decreases n - j
    {
      var _ := c.RdStr();
      j := j + 1;
    }
  }

  method ReadArr(c: Cur, key: seq<Byte>) returns (r: Step<KV>)
    requires !c.bad
    modifies c
    ensures r == ArrValue(c.data, key, old(c.pos))
    ensures r.Got? ==> !c.bad && c.pos == r.at
  {
    var t := c.Rd(4);
    var len := c.Rd(8);
    if c.bad { return Short; }
    var data := c.pos;
    var es := Size(t);
    if es > 0 {
      var need := es * len % Word;
      if c.pos + need > |c.data| { return Short; }
      c.pos := c.pos + need;
    } else if t == 8 {
      SkipStrs(c, Signed(len, 8));
      if c.bad { return Short; }
    } else {
      return Malformed;
    }
    r := Got(ArrKV(key, t, Signed(len, 8), data), c.pos);
  }

  /** The value after a type tag; a tag that could not be read counts as type 0 and its value
      then fails as well. */
  method ReadValue(c: Cur, key: seq<Byte>, t: nat) returns (r: Step<KV>)
    requires c.bad ==> t == 0
    modifies c
    ensures if old(c.bad) then r == Short else r == Value(c.data, key, t, old(c.pos))
    ensures r.Got? ==> !c.bad && c.pos == r.at
  {
    if Size(t) > 0 {
      var v := c.Rd(Size(t));
      r := if c.bad then Short else Got(ScalarKV(key, t, v), c.pos);
    } else if t == 8 {
      var s := c.RdStr();
      r := if c.bad then Short else Got(Blank(key, 8).(str := s), c.pos);
    } else if t == 9 {
      r := ReadArr(c, key);
    } else {
      r := Malformed;
    }
  }

  /** Room left in the pool for the names still to come: every name read so far lies in the
      part of the header already passed, plus one terminator each. */
  ghost predicate Roomy(c: Cur, pool: Pool, done: nat, total: nat)
    reads c, pool
  {
    pool.used <= c.pos + done && |c.data| + total <= pool.cap
  }

  method ReadEntry(c: Cur, pool: Pool, ghost done: nat, ghost total: nat) returns (r: Step<KV>)
    requires !c.bad && Roomy(c, pool, done, total) && done < total && c.pos <= |c.data|
    modifies c, pool
    ensures r == Entry(c.data, old(c.pos))
    ensures r.Got? ==> !c.bad && c.pos == r.at && Roomy(c, pool, done + 1, total) && c.pos <= |c.data|
  {
    StrBounds(c.data, c.pos);
    var key := c.RdStr();
    if c.bad { return Short; }
    var ok := pool.Add(|key|);
    var t := c.Rd(4);
    ghost var at := c.pos;
    r := ReadValue(c, key, t);
    ValueBounds(c.data, key, t, at);
    if !ok { r := Malformed; }
  }

  /** Pieces read so far, put before what the rest of the table yields. */
  ghost function Before<T>(acc: seq<T>, r: Step<seq<T>>): Step<seq<T>>
  {
    match r
    case Got(vs, q) => Got(acc + vs, q)
    case other => other
  }

  lemma BeforeNone<T>(r: Step<seq<T>>)
    ensures Before([], r) == r
  {
    if r.Got? { assert [] + r.val == r.val; }
  }

  lemma AllRead<T>(acc: seq<T>, one: nat -> Step<T>, p: nat)
    ensures Before(acc, Many(one, p, 0)) == Got(acc, p)
  {
    assert acc + [] == acc;
  }

  lemma BeforeStep<T>(acc: seq<T>, one: nat -> Step<T>, p: nat, k: nat)
    requires k > 0
    ensures one(p).Got? ==> Before(acc, Many(one, p, k)) == Before(acc + [one(p).val], Many(one, one(p).at, k - 1))
    ensures one(p).Short? ==> Before(acc, Many(one, p, k)) == Short
    ensures one(p).Malformed? ==> Before(acc, Many(one, p, k)) == Malformed
  {
    if one(p).Got? && Many(one, one(p).at, k - 1).Got? {
      var vs := Many(one, one(p).at, k - 1).val;
      assert acc + ([one(p).val] + vs) == acc + [one(p).val] + vs;
    }
  }

  /** `f` reads entries of `b`; stated pointwise so that the loops below need not look inside. */
  ghost predicate IsEntry(f: nat -> Step<KV>, b: seq<Byte>, p: nat) { f(p) == Entry(b, p) }
  ghost predicate IsRow(f: nat -> Step<Tensor>, b: seq<Byte>, size: Sizer, p: nat) { f(p) == Row(b, size, p) }

  method EntryTurn(c: Cur, pool: Pool, ghost f: nat -> Step<KV>, ghost acc: seq<KV>, ghost k: nat, ghost done: nat,
      ghost total: nat)
    returns (e: Step<KV>)
    requires !c.bad && Roomy(c, pool, done, total) && done < total && c.pos <= |c.data| && k > 0
    requires IsEntry(f, c.data, c.pos)
    modifies c, pool
    ensures e.Got? ==> !c.bad && Roomy(c, pool, done + 1, total) && c.pos <= |c.data|
    ensures Before(acc, Many(f, old(c.pos), k)) ==
      if e.Got? then Before(acc + [e.val], Many(f, c.pos, k - 1)) else if e.Short? then Short else Malformed
  {
    BeforeStep(acc, f, c.pos, k);
    e := ReadEntry(c, pool, done, total);
  }

  method ReadEntries(c: Cur, pool: Pool, n: nat, ghost f: nat -> Step<KV>, ghost total: nat) returns (r: Step<seq<KV>>)
    requires !c.bad && Roomy(c, pool, 0, total) && n <= total && c.pos <= |c.data|
    requires forall p: nat :: IsEntry(f, c.data, p)
    modifies c, pool
    ensures r == Many(f, old(c.pos), n)
    ensures r.Got? ==> !c.bad && c.pos == r.at && Roomy(c, pool, n, total) && c.pos <= |c.data|
  {
    var acc: seq<KV> := [];
    ghost var whole := Many(f, c.pos, n);
    BeforeNone(whole);
    for i := 0 to n
      invariant !c.bad && Roomy(c, pool, i, total) && c.pos <= |c.data|
      invariant Before(acc, Many(f, c.pos, n - i)) == whole
    {
      assert IsEntry(f, c.data, c.pos);
      var e := EntryTurn(c, pool, f, acc, n - i, i, total);
      if !e.Got? { return if e.Short? then Short else Malformed; }
      acc := acc + [e.val];
    }
    AllRead(acc, f, c.pos);
    r := Got(acc, c.pos);
  }

  // ------------------------------------------------------------------------ tensors

  method ReadDims(c: Cur, nd: nat) returns (dims: seq<nat>)
    modifies c
    ensures old(c.bad) ==> c.bad
    ensures !old(c.bad) ==> match Nums(c.data, old(c.pos), 8, nd)
      case Got(ds, q) => !c.bad && dims == ds && c.pos == q
      case _ => c.bad
  {
    dims := [];
    ghost var whole := Nums(c.data, c.pos, 8, nd);
    assert whole.Got? ==> [] + whole.val == whole.val;
    for d := 0 to nd
      invariant old(c.bad) ==> c.bad
      invariant !c.bad ==> match Nums(c.data, c.pos, 8, nd - d)
        case Got(ds, q) => whole == Got(dims + ds, q)
        case _ => whole == Short
      invariant c.bad && !old(c.bad) ==> whole == Short
    {
      ghost var was := dims;
      ghost var p := c.pos;
      var v := c.Rd(8);
      dims := dims + [v];
      if !c.bad && Nums(c.data, c.pos, 8, nd - d - 1).Got? {
        assert was + ([v] + Nums(c.data, c.pos, 8, nd - d - 1).val) == dims + Nums(c.data, c.pos, 8, nd - d - 1).val;
      }
    }
  }

  method ReadDescribed(c: Cur, size: Sizer, name: seq<Byte>) returns (r: Step<Tensor>)
    requires !c.bad && c.pos <= |c.data|
    modifies c
    ensures r == Described(c.data, size, name, old(c.pos))
    ensures r.Got? ==> !c.bad && c.pos == r.at && old(c.pos) <= c.pos <= |c.data|
  {
    var nd := c.Rd(4);
    if c.bad { return Short; }
    if nd < 1 || nd > 4 { return Malformed; }
    NumsBounds(c.data, c.pos, 8, nd);
    var dims := ReadDims(c, nd);
    var t := c.Rd(4);
    var rel := c.Rd(8);
    if c.bad { return Short; }
    r := Made(size, name, dims, t, rel, c.pos);
  }

  method ReadRow(c: Cur, pool: Pool, size: Sizer, ghost done: nat, ghost total: nat) returns (r: Step<Tensor>)
    requires !c.bad && Roomy(c, pool, done, total) && done < total && c.pos <= |c.data|
    modifies c, pool
    ensures r == Row(c.data, size, old(c.pos))
    ensures r.Got? ==> !c.bad && c.pos == r.at && Roomy(c, pool, done + 1, total) && c.pos <= |c.data|
  {
    StrBounds(c.data, c.pos);
    var name := c.RdStr();
    if c.bad { return Short; }
    var ok := pool.Add(|name|);
    r := ReadDescribed(c, size, name);
    if !ok { r := Malformed; }
  }

  method RowTurn(c: Cur, pool: Pool, size: Sizer, ghost f: nat -> Step<Tensor>, ghost acc: seq<Tensor>, ghost k: nat,
      ghost done: nat, ghost total: nat)
    returns (e: Step<Tensor>)
    requires !c.bad && Roomy(c, pool, done, total) && done < total && c.pos <= |c.data| && k > 0
    requires IsRow(f, c.data, size, c.pos)
    modifies c, pool
    ensures e.Got? ==> !c.bad && Roomy(c, pool, done + 1, total) && c.pos <= |c.data|
    ensures Before(acc, Many(f, old(c.pos), k)) ==
      if e.Got? then Before(acc + [e.val], Many(f, c.pos, k - 1)) else if e.Short? then Short else Malformed
  {
    BeforeStep(acc, f, c.pos, k);
    e := ReadRow(c, pool, size, done, total);
  }

  method ReadRows(c: Cur, pool: Pool, size: Sizer, n: nat, ghost f: nat -> Step<Tensor>, ghost done: nat,
      ghost total: nat)
    returns (r: Step<seq<Tensor>>)
    requires !c.bad && Roomy(c, pool, done, total) && done + n <= total && c.pos <= |c.data|
    requires forall p: nat :: IsRow(f, c.data, size, p)
    modifies c, pool
    ensures r == Many(f, old(c.pos), n)
    ensures r.Got? ==> !c.bad && c.pos == r.at
  {
    var acc: seq<Tensor> := [];
    ghost var whole := Many(f, c.pos, n);
    BeforeNone(whole);
    for i := 0 to n
      invariant !c.bad && Roomy(c, pool, done + i, total) && c.pos <= |c.data|
      invariant Before(acc, Many(f, c.pos, n - i)) == whole
    {
      assert IsRow(f, c.data, size, c.pos);
      var e := RowTurn(c, pool, size, f, acc, n - i, done + i, total);
      if !e.Got? { return if e.Short? then Short else Malformed; }
      acc := acc + [e.val];
    }
    AllRead(acc, f, c.pos);
    r := Got(acc, c.pos);
  }

  // ------------------------------------------------------------------------- header

  method FindAlignment(kvs: seq<KV>) returns (a: nat)
    ensures a == Alignment(kvs)
  {
    a := 32;
    for i := 0 to |kvs|
      invariant a == 32 && Alignment(kvs[i..]) == Alignment(kvs)
    {
      assert kvs[i..][1..] == kvs[i + 1..];
      if CName(kvs[i].key) == AlignmentKey() {
        if kvs[i].i > 0 { a := kvs[i].i; }
        return;
      }
    }
  }

  method CheckTensors(ts: seq<Tensor>, start: nat, file: int) returns (ok: bool, bytes: int)
    ensures ok == Fits(ts, start, file)
    ensures ok ==> bytes == DataBytes(ts)
  {
    bytes := 0;
    for i := 0 to |ts|
      invariant Fits(ts[..i], start, file) && bytes == DataBytes(ts[..i])
    {
      assert ts[..i + 1] == ts[..i] + [ts[i]];
      assert ts[..i + 1][..i] == ts[..i];
      if EndOf(ts[i], start) > file {
        assert ts[i] in ts;
        return false, bytes;
      }
      if S64(ts[i].rel + ts[i].nbytes) > bytes { bytes := S64(ts[i].rel + ts[i].nbytes); }
    }
    assert ts[..|ts|] == ts;
    ok := true;
  }

  method FinishTable(version: nat, kvs: seq<KV>, ts: seq<Tensor>, p: nat, file: int) returns (r: Step<Table>)
    ensures r == Finish(version, kvs, ts, p, file)
  {
    var a := FindAlignment(kvs);
    if And(a, a - 1) != 0 { return Malformed; }
    var start := Aligned(p, a);
    var ok, bytes := CheckTensors(ts, start, file);
    r := if ok then Got(Table(version, kvs, ts, a, start, bytes), p) else Malformed;
  }

  method ReadTables(b: seq<Byte>, size: Sizer, file: int, version: nat, nt: nat, nkv: nat) returns (r: Step<Table>)
    requires |b| >= 24
    ensures r == Body(Entries(b), Rows(b, size), Closing(file), version, nt, nkv)
  {
    var c := new Cur(b, 24);
    var pool := new Pool(|b| + nkv + nt + 2);
    assert forall p: nat :: IsEntry(Entries(b), b, p);
    assert forall p: nat :: IsRow(Rows(b, size), b, size, p);
    var kvs := ReadEntries(c, pool, nkv, Entries(b), nkv + nt);
    if kvs.Short? { return Short; }
    if kvs.Malformed? { return Malformed; }
    var ts := ReadRows(c, pool, size, nt, Rows(b, size), nkv, nkv + nt);
    if ts.Short? { return Short; }
    if ts.Malformed? { return Malformed; }
    r := FinishTable(version, kvs.val, ts.val, c.pos, file);
  }

  /** One parse of one prefix, with the name pool sized up front: it never runs out, so the
      verdict is the grammar's. */
  method ParseHeader(b: seq<Byte>, size: Sizer, file: int) returns (r: Step<Table>)
    ensures r == Header(b, size, file)
  {
    if |b| < 24 { return Short; }
    if b[..4] != Magic() { return Malformed; }
    var c := new Cur(b, 4);
    var version := c.Rd(4);
    if version != 2 && version != 3 { return Malformed; }
    var nt := c.Rd(8);
    var nkv := c.Rd(8);
    if nt > 0x40_0000 || nkv > 0x10_0000 { return Malformed; }
    r := ReadTables(b, size, file, version, nt, nkv);
  }

  // --------------------------------------------------------------------------- open

  const First := 0x80_0000      // 8 MB
  const Largest := 0x1000_0000  // 256 MB

  function Least(a: nat, b: nat): nat { if a <= b then a else b }

  /** One parse of the largest prefix that may be read. */
  ghost function Verdict(file: seq<Byte>, size: Sizer): Step<Table>
  {
    Header(file[..Least(|file|, Largest)], size, |file|)
  }

  lemma {:induction false} PrefixVerdict(file: seq<Byte>, size: Sizer, want: nat)
    requires want <= Least(|file|, Largest)
    ensures Settled(Header(file[..want], size, |file|), Verdict(file, size))
    ensures want == Least(|file|, Largest) ==> Header(file[..want], size, |file|) == Verdict(file, size)
  {
    HeaderStable(file[..want], file[..Least(|file|, Largest)], size, |file|);
  }

  lemma TooShort(file: seq<Byte>, size: Sizer)
    requires |file| < 24
    ensures Verdict(file, size) == Short
  {
  }

  method ParsePrefix(file: seq<Byte>, size: Sizer, want: nat) returns (r: Step<Table>)
    requires want <= Least(|file|, Largest)
    ensures Settled(r, Verdict(file, size)) && (want == Least(|file|, Largest) ==> r == Verdict(file, size))
  {
    r := ParseHeader(file[..want], size, |file|);
    PrefixVerdict(file, size, want);
  }

  /** Open by growing prefixes: it ends, and gives the verdict and the tables of one parse of
      the largest prefix it may read. */
  method Open(file: seq<Byte>, size: Sizer) returns (r: Step<Table>)
    ensures r == Verdict(file, size)
  {
    if |file| < 24 {
      TooShort(file, size);
      return Short;
    }
    var want := Least(First, |file|);
    r := ParsePrefix(file, size, want);
    while r.Short? && want < Largest && want < |file|
      invariant want <= Least(|file|, Largest)
      invariant Settled(r, Verdict(file, size)) && (want == Least(|file|, Largest) ==> r == Verdict(file, size))
      invariant want >= 24
      decreases Largest - want
    {
      want := Least(Least(4 * want, |file|), Largest);
      r := ParsePrefix(file, size, want);
    }
  }
}
