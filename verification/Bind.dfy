/** Binding a layer's tensors, from the shards into one blob and from a packed run in place,
    src/model/k3_bind.c:38-159, 249-297 and 320-443. */
module Bind {
  import opened Wrappers
  import opened Bits
  import opened Bytes

  /** Bytes of `n` elements. */
  function Size(dt: DType, n: nat): nat { match dt case U8 => n case BF16 => 2 * n case F16 => 2 * n case F32 => 4 * n }

  /** A tensor as the checkpoint holds it. */
  datatype Tensor = Tensor(dt: DType, numel: nat, bytes: seq<int>)

  ghost predicate TensorOk(t: Tensor) { |t.bytes| == Size(t.dt, t.numel) }

  /** What the engine asks for: how many elements there must be (negative: any number), how many
      it takes, and whether the checkpoint's own bf16 bytes will do. */
  datatype Req = Req(want: int, take: nat, narrow: bool)

  /** The conversions that are not plain byte moves: an f16 and an integer byte as float32, and a
      signed byte times a float32 scale. */
  datatype Conv = Conv(
    f16: (int, int) -> (int, int, int, int),
    u8: int -> (int, int, int, int),
    i8: ((int, int, int, int), int) -> (int, int, int, int))

  function Four(q: (int, int, int, int)): (s: seq<int>)
    ensures |s| == 4
  {
    [q.0, q.1, q.2, q.3]
  }

  /** Element `i` as the four bytes of a float32: bf16 is the upper half of one. */
  function Wide(cv: Conv, t: Tensor, i: nat): (s: seq<int>)
    requires Size(t.dt, i + 1) <= |t.bytes|
    ensures |s| == 4
  {
    match t.dt
    case F32 => t.bytes[4 * i..4 * i + 4]
    case BF16 => [0, 0, t.bytes[2 * i], t.bytes[2 * i + 1]]
    case F16 => Four(cv.f16(t.bytes[2 * i], t.bytes[2 * i + 1]))
    case U8 => Four(cv.u8(t.bytes[i]))
  }

  /** `n` pieces one after the other. */
  function Pieces(x: nat -> seq<int>, n: nat): seq<int> { if n == 0 then [] else Pieces(x, n - 1) + x(n - 1) }

  lemma {:induction false} PiecesSize(x: nat -> seq<int>, n: nat)
    requires forall i: nat :: |x(i)| == 4
    ensures |Pieces(x, n)| == 4 * n
  {
    if n > 0 { PiecesSize(x, n - 1); }
  }

  lemma {:induction false} PiecesSame(x: nat -> seq<int>, y: nat -> seq<int>, n: nat)
    requires forall i: nat :: i < n ==> x(i) == y(i)
    ensures Pieces(x, n) == Pieces(y, n)
  {
    if n > 0 { PiecesSame(x, y, n - 1); }
  }

  lemma {:induction false} PiecesOf(x: nat -> seq<int>, s: seq<int>, n: nat)
    requires 4 * n <= |s| && forall i: nat :: i < n ==> x(i) == s[4 * i..4 * i + 4]
    ensures Pieces(x, n) == s[..4 * n]
  {
    if n > 0 {
      PiecesOf(x, s, n - 1);
      assert s[..4 * n] == s[..4 * (n - 1)] + s[4 * (n - 1)..4 * (n - 1) + 4];
    }
  }

  function Widener(cv: Conv, t: Tensor): nat -> seq<int>
  {
    (i: nat) => if Size(t.dt, i + 1) <= |t.bytes| then Wide(cv, t, i) else [0, 0, 0, 0]
  }

  /** The first `n` elements widened. */
  function Widened(cv: Conv, t: Tensor, n: nat): (s: seq<int>)
    requires Size(t.dt, n) <= |t.bytes|
    ensures |s| == 4 * n
  {
    PiecesSize(Widener(cv, t), n);
    Pieces(Widener(cv, t), n)
  }

  /** A float32 tensor is its own widening. */
  lemma {:induction false} WidenedF32(cv: Conv, t: Tensor, n: nat)
    requires t.dt == F32 && 4 * n <= |t.bytes|
    ensures Widened(cv, t, n) == t.bytes[..4 * n]
  {
    var x := Widener(cv, t);
    forall i: nat | i < n ensures x(i) == t.bytes[4 * i..4 * i + 4] { assert Size(t.dt, i + 1) <= |t.bytes|; }
    PiecesOf(x, t.bytes, n);
  }

  /** Little-endian words. */
  function Word16(s: seq<int>, k: nat): int
    requires 2 * k + 2 <= |s|
  {
    s[2 * k] + 0x100 * s[2 * k + 1]
  }

  function Word32(s: seq<int>, k: nat): int
    requires 4 * k + 4 <= |s|
  {
    s[4 * k] + 0x100 * s[4 * k + 1] + 0x1_0000 * s[4 * k + 2] + 0x100_0000 * s[4 * k + 3]
  }

  /** Element `k` of `src` as the float32 at place `k` of `v`: the same word, the bf16 word in its
      upper half, or the half-precision word or integer byte converted. */
  ghost predicate ElemIs(cv: Conv, dt: DType, src: seq<int>, v: seq<int>, k: nat)
    requires 4 * k + 4 <= |v|
  {
    var four := v[4 * k..4 * k + 4];
    match dt
    case F32 => 4 * k + 4 <= |src| && four == src[4 * k..4 * k + 4]
    case BF16 => 2 * k + 2 <= |src| && Word32(v, k) == 0x1_0000 * Word16(src, k)
    case F16 => 2 * k + 2 <= |src| && four == Four(cv.f16(src[2 * k], src[2 * k + 1]))
    case U8 => k < |src| && four == Four(cv.u8(src[k]))
  }

  /** `v` is the first `n` elements as float32. */
  ghost predicate Shows(cv: Conv, dt: DType, src: seq<int>, v: seq<int>, n: nat)
  {
    |v| == 4 * n && forall k: nat :: k < n ==> ElemIs(cv, dt, src, v, k)
  }

  lemma {:induction false} OneShown(cv: Conv, t: Tensor, v: seq<int>, k: nat)
    requires Size(t.dt, k + 1) <= |t.bytes| && 4 * k + 4 <= |v| && v[4 * k..4 * k + 4] == Wide(cv, t, k)
    ensures ElemIs(cv, t.dt, t.bytes, v, k)
  {
    var four := v[4 * k..4 * k + 4];
    assert Word32(v, k) == four[0] + 0x100 * four[1] + 0x1_0000 * four[2] + 0x100_0000 * four[3];
  }

  lemma {:induction false} WidenedShows(cv: Conv, t: Tensor, n: nat)
    requires Size(t.dt, n) <= |t.bytes|
    ensures Shows(cv, t.dt, t.bytes, Widened(cv, t, n), n)
  {
    var x := Widener(cv, t);
    assert FourEach(x);
    forall k: nat | k < n ensures ElemIs(cv, t.dt, t.bytes, Widened(cv, t, n), k) {
      PiecesAt(x, n, k);
      ElemFits(t, n, k);
      OneShown(cv, t, Widened(cv, t, n), k);
    }
  }

  // --------------------------------------------------------------------- the layout

  function Align8(x: nat): nat { (x + 7) - And(x + 7, 7) }

  lemma Align8Is(x: nat)
    ensures x <= Align8(x) < x + 8 && Align8(x) % 8 == 0
  {
    assert Pow2(3) == 8;
    MaskIsMod(x + 7, 3);
    Floor(x + 7, 8);
  }

  /** Kept as bf16 only when asked for, allowed, and really stored so. */
  predicate Kept(q: Req, t: Tensor, narrowOk: bool) { q.narrow && narrowOk && t.dt == BF16 }

  function RegionSize(q: Req, t: Tensor, narrowOk: bool): nat { q.take * if Kept(q, t, narrowOk) then 2 else 4 }

  /** Where region `i` starts, and where the first `n` end. */
  function Start(qs: seq<Req>, ts: seq<Tensor>, narrowOk: bool, i: nat): nat
    requires i < |qs| == |ts|
    decreases i, 1
  {
    Align8(End(qs, ts, narrowOk, i))
  }

  function End(qs: seq<Req>, ts: seq<Tensor>, narrowOk: bool, n: nat): nat
    requires n <= |qs| == |ts|
    decreases n, 0
  {
    if n == 0 then 0 else Start(qs, ts, narrowOk, n - 1) + RegionSize(qs[n - 1], ts[n - 1], narrowOk)
  }

  /** Regions are aligned, in order, apart, and inside the blob. */
  lemma {:induction false} Regions(qs: seq<Req>, ts: seq<Tensor>, narrowOk: bool, i: nat, j: nat)
    requires i < j <= |qs| == |ts|
    ensures Start(qs, ts, narrowOk, i) % 8 == 0
    ensures Start(qs, ts, narrowOk, i) + RegionSize(qs[i], ts[i], narrowOk) <= End(qs, ts, narrowOk, j)
    ensures j < |qs| ==> End(qs, ts, narrowOk, j) <= Start(qs, ts, narrowOk, j)
    decreases j
  {
    Align8Is(End(qs, ts, narrowOk, i));
    if j < |qs| { Align8Is(End(qs, ts, narrowOk, j)); }
    if i < j - 1 {
      Regions(qs, ts, narrowOk, i, j - 1);
      Align8Is(End(qs, ts, narrowOk, j - 1));
    }
  }

  /** What every request must satisfy before a byte is read. */
  predicate Fits(q: Req, t: Option<Tensor>, narrowOk: bool)
  {
    && t.Some? && (q.want >= 0 ==> t.value.numel == q.want) && q.take <= t.value.numel
    && (Kept(q, t.value, narrowOk) ==> q.take == t.value.numel)
  }

  function Values(found: seq<Option<Tensor>>): (ts: seq<Tensor>)
    requires forall i :: 0 <= i < |found| ==> found[i].Some?
    ensures |ts| == |found|
  {
    seq(|found|, i requires 0 <= i < |found| => found[i].value)
  }

  predicate AllFit(qs: seq<Req>, found: seq<Option<Tensor>>, narrowOk: bool)
  {
    |qs| == |found| && forall i :: 0 <= i < |qs| ==> Fits(qs[i], found[i], narrowOk)
  }

  /** A large matrix that is not bf16 after all. */
  predicate Demotes(q: Req, f: Option<Tensor>, narrowOk: bool) { f.Some? && q.narrow && narrowOk && f.value.dt != BF16 }

  predicate Demoted(qs: seq<Req>, found: seq<Option<Tensor>>, narrowOk: bool)
    requires |qs| == |found|
  {
    exists i :: 0 <= i < |qs| && Demotes(qs[i], found[i], narrowOk)
  }

  /** One request against what was found for it. */
  method CheckOne(q: Req, f: Option<Tensor>, narrowOk: bool) returns (fits: bool, demote: bool, size: nat)
    ensures fits <==> Fits(q, f, narrowOk)
    ensures fits ==> (demote <==> Demotes(q, f, narrowOk)) && size == RegionSize(q, f.value, narrowOk)
  {
    fits, demote, size := false, false, 0;
    if f.None? || (q.want >= 0 && f.value.numel != q.want) || q.take > f.value.numel { return; }
    var narrow := q.narrow && narrowOk;
    if narrow && f.value.dt != BF16 { narrow, demote := false, true; }
    if narrow && q.take != f.value.numel { return; }
    fits, size := true, q.take * if narrow then 2 else 4;
  }

  /** Check everything and lay out the blob; a bad request is counted and the rest still looked
      at, as the messages want. */
  method Resolve(qs: seq<Req>, found: seq<Option<Tensor>>, narrowOk: bool)
    returns (ok: bool, offs: seq<nat>, need: nat, demoted: nat)
    requires |qs| == |found|
    ensures ok <==> AllFit(qs, found, narrowOk)
    ensures ok ==> (demoted > 0 <==> Demoted(qs, found, narrowOk))
    ensures ok ==> |offs| == |qs| && need == End(qs, Values(found), narrowOk, |qs|)
    ensures ok ==> forall i :: 0 <= i < |qs| ==> offs[i] == Start(qs, Values(found), narrowOk, i)
  {
    var bad: nat := 0;
    need, offs, demoted := 0, [], 0;
    for i := 0 to |qs|
      invariant |offs| == i && (bad == 0 <==> forall j :: 0 <= j < i ==> Fits(qs[j], found[j], narrowOk))
      invariant bad == 0 ==> (demoted > 0 <==> exists j :: 0 <= j < i && Demotes(qs[j], found[j], narrowOk))
      invariant AllFit(qs, found, narrowOk) ==> need == End(qs, Values(found), narrowOk, i)
      invariant AllFit(qs, found, narrowOk) ==> forall j :: 0 <= j < i ==>
        offs[j] == Start(qs, Values(found), narrowOk, j)
    {
      var fits, demote, size := CheckOne(qs[i], found[i], narrowOk);
      if fits {
        if demote { demoted := demoted + 1; }
        need := Align8(need);
        offs := offs + [need];
        need := need + size;
      } else {
        bad := bad + 1;
        offs := offs + [0];
      }
    }
    ok := bad == 0;
  }

  // ------------------------------------------------------------- from the shards

  /** The bytes a region must hold. */
  function RegionBytes(cv: Conv, q: Req, t: Tensor, narrowOk: bool): (s: seq<int>)
    requires TensorOk(t) && Fits(q, Some(t), narrowOk)
    ensures |s| == RegionSize(q, t, narrowOk)
  {
    Enough(t, q.take);
    if Kept(q, t, narrowOk) then t.bytes else Widened(cv, t, q.take)
  }

  lemma Enough(t: Tensor, n: nat)
    requires TensorOk(t) && n <= t.numel
    ensures Size(t.dt, n) <= |t.bytes|
  {
  }

  method Copy(buf: array<int>, at: nat, src: seq<int>)
    requires at + |src| <= buf.Length
    modifies buf
    ensures buf[at..at + |src|] == src
    ensures forall k :: 0 <= k < buf.Length && (k < at || k >= at + |src|) ==> buf[k] == old(buf[k])
  {
    for i := 0 to |src|
      invariant buf[at..at + i] == src[..i]
      invariant forall k :: 0 <= k < buf.Length && (k < at || k >= at + i) ==> buf[k] == old(buf[k])
    {
      buf[at + i] := src[i];
      assert buf[at..at + i + 1] == buf[at..at + i] + [src[i]];
    }
  }

  lemma ElemFits(t: Tensor, n: nat, i: nat)
    requires Size(t.dt, n) <= |t.bytes| && i < n
    ensures Size(t.dt, i + 1) <= |t.bytes| && Size(t.dt, i) <= |t.bytes|
  {
  }

  lemma SliceJoin(s: seq<int>, a: nat, b: nat, c: nat)
    requires a <= b <= c <= |s|
    ensures s[a..c] == s[a..b] + s[b..c]
  {
  }

  /** More bytes after those already written. */
  method Extend(buf: array<int>, at: nat, n: nat, x: seq<int>, ghost w: seq<int>)
    requires at + n + |x| <= buf.Length && buf[at..at + n] == w
    modifies buf
    ensures buf[at..at + n + |x|] == w + x
    ensures forall k :: 0 <= k < buf.Length && (k < at || k >= at + n + |x|) ==> buf[k] == old(buf[k])
  {
    Copy(buf, at + n, x);
    assert buf[at..at + n] == w;
    SliceJoin(buf[..], at, at + n, at + n + |x|);
  }

  method FillPieces(buf: array<int>, at: nat, n: nat, x: nat -> seq<int>)
    requires at + 4 * n <= buf.Length && forall i: nat :: |x(i)| == 4
    modifies buf
    ensures buf[at..at + 4 * n] == Pieces(x, n)
    ensures forall k :: 0 <= k < buf.Length && (k < at || k >= at + 4 * n) ==> buf[k] == old(buf[k])
  {
    for i := 0 to n
      invariant buf[at..at + 4 * i] == Pieces(x, i)
      invariant forall k :: 0 <= k < buf.Length && (k < at || k >= at + 4 * i) ==> buf[k] == old(buf[k])
    {
      Extend(buf, at, 4 * i, x(i), Pieces(x, i));
    }
  }

  /** Widening into place, element by element. */
  method WidenInto(cv: Conv, t: Tensor, n: nat, buf: array<int>, at: nat)
    requires Size(t.dt, n) <= |t.bytes| && at + 4 * n <= buf.Length
    modifies buf
    ensures buf[at..at + 4 * n] == Widened(cv, t, n)
    ensures forall k :: 0 <= k < buf.Length && (k < at || k >= at + 4 * n) ==> buf[k] == old(buf[k])
  {
    FillPieces(buf, at, n, Widener(cv, t));
  }

  /** The first `n` regions hold what they must. */
  ghost predicate Filled(cv: Conv, qs: seq<Req>, ts: seq<Tensor>, narrowOk: bool, b: seq<int>, i: nat)
    requires i < |qs| == |ts| && TensorOk(ts[i]) && Fits(qs[i], Some(ts[i]), narrowOk)
  {
    var at, n := Start(qs, ts, narrowOk, i), RegionSize(qs[i], ts[i], narrowOk);
    at + n <= |b| && b[at..at + n] == RegionBytes(cv, qs[i], ts[i], narrowOk)
  }

  lemma {:induction false} StillFilled(cv: Conv, qs: seq<Req>, ts: seq<Tensor>, narrowOk: bool, was: seq<int>,
      b: seq<int>, i: nat, j: nat)
    requires i < j < |qs| == |ts| && TensorOk(ts[i]) && Fits(qs[i], Some(ts[i]), narrowOk)
    requires Filled(cv, qs, ts, narrowOk, was, i) && |was| == |b|
    requires forall k :: 0 <= k < |b| && k < Start(qs, ts, narrowOk, j) ==> b[k] == was[k]
    ensures Filled(cv, qs, ts, narrowOk, b, i)
  {
    Regions(qs, ts, narrowOk, i, j);
    var at, n := Start(qs, ts, narrowOk, i), RegionSize(qs[i], ts[i], narrowOk);
    assert b[at..at + n] == was[at..at + n];
  }

  ghost predicate Ready(qs: seq<Req>, ts: seq<Tensor>, narrowOk: bool)
  {
    |qs| == |ts| && forall i :: 0 <= i < |qs| ==> TensorOk(ts[i]) && Fits(qs[i], Some(ts[i]), narrowOk)
  }

  /** What lies at `at` in the blob for a request: the tensor's own bf16 words, or its elements as
      float32. */
  ghost predicate Holds(cv: Conv, q: Req, t: Tensor, narrowOk: bool, b: seq<int>, at: nat)
  {
    if q.narrow && narrowOk && t.dt == BF16 then at + |t.bytes| <= |b| && b[at..at + |t.bytes|] == t.bytes
    else at + 4 * q.take <= |b| && Shows(cv, t.dt, t.bytes, b[at..at + 4 * q.take], q.take)
  }

  lemma {:induction false} FilledHolds(cv: Conv, qs: seq<Req>, ts: seq<Tensor>, narrowOk: bool, b: seq<int>, i: nat)
    requires i < |qs| == |ts| && TensorOk(ts[i]) && Fits(qs[i], Some(ts[i]), narrowOk)
    requires Filled(cv, qs, ts, narrowOk, b, i)
    ensures Holds(cv, qs[i], ts[i], narrowOk, b, Start(qs, ts, narrowOk, i))
  {
    HeldAt(cv, qs[i], ts[i], narrowOk, b, Start(qs, ts, narrowOk, i));
  }

  lemma {:induction false} HeldAt(cv: Conv, q: Req, t: Tensor, narrowOk: bool, b: seq<int>, at: nat)
    requires TensorOk(t) && Fits(q, Some(t), narrowOk) && at + RegionSize(q, t, narrowOk) <= |b|
    requires b[at..at + RegionSize(q, t, narrowOk)] == RegionBytes(cv, q, t, narrowOk)
    ensures Holds(cv, q, t, narrowOk, b, at)
  {
    Enough(t, q.take);
    WidenedShows(cv, t, q.take);
  }

  lemma {:induction false} AllHold(cv: Conv, qs: seq<Req>, ts: seq<Tensor>, narrowOk: bool, b: seq<int>, offs: seq<nat>)
    requires Ready(qs, ts, narrowOk) && |offs| == |qs|
    requires forall i :: 0 <= i < |qs| ==> offs[i] == Start(qs, ts, narrowOk, i)
    requires forall i :: 0 <= i < |qs| ==> Filled(cv, qs, ts, narrowOk, b, i)
    ensures forall i :: 0 <= i < |qs| ==> Holds(cv, qs[i], ts[i], narrowOk, b, offs[i])
  {
    forall i | 0 <= i < |qs| ensures Holds(cv, qs[i], ts[i], narrowOk, b, offs[i]) {
      FilledHolds(cv, qs, ts, narrowOk, b, i);
    }
  }

  method LoadOne(cv: Conv, q: Req, t: Tensor, narrowOk: bool, blob: array<int>, at: nat)
    requires TensorOk(t) && Fits(q, Some(t), narrowOk) && at + RegionSize(q, t, narrowOk) <= blob.Length
    modifies blob
    ensures blob[at..at + RegionSize(q, t, narrowOk)] == RegionBytes(cv, q, t, narrowOk)
    ensures forall k :: 0 <= k < blob.Length && (k < at || k >= at + RegionSize(q, t, narrowOk)) ==>
      blob[k] == old(blob[k])
  {
    Enough(t, q.take);
    if Kept(q, t, narrowOk) { Copy(blob, at, t.bytes); } else { WidenInto(cv, t, q.take, blob, at); }
  }

  lemma {:induction false} AllStillFilled(cv: Conv, qs: seq<Req>, ts: seq<Tensor>, narrowOk: bool, was: seq<int>,
      b: seq<int>, i: nat)
    requires Ready(qs, ts, narrowOk) && i < |qs| && |was| == |b|
    requires forall j :: 0 <= j < i ==> Filled(cv, qs, ts, narrowOk, was, j)
    requires forall k :: 0 <= k < |b| && k < Start(qs, ts, narrowOk, i) ==> b[k] == was[k]
    ensures forall j :: 0 <= j < i ==> Filled(cv, qs, ts, narrowOk, b, j)
  {
    forall j | 0 <= j < i ensures Filled(cv, qs, ts, narrowOk, b, j) {
      StillFilled(cv, qs, ts, narrowOk, was, b, j, i);
    }
  }

  method LoadNext(cv: Conv, qs: seq<Req>, ts: seq<Tensor>, narrowOk: bool, at: nat, blob: array<int>, i: nat)
    requires Ready(qs, ts, narrowOk) && blob.Length == End(qs, ts, narrowOk, |qs|) && i < |qs|
    requires at == Start(qs, ts, narrowOk, i)
    requires forall j :: 0 <= j < i ==> Filled(cv, qs, ts, narrowOk, blob[..], j)
    modifies blob
    ensures forall j :: 0 <= j <= i ==> Filled(cv, qs, ts, narrowOk, blob[..], j)
  {
    Regions(qs, ts, narrowOk, i, |qs|);
    ghost var was := blob[..];
    LoadOne(cv, qs[i], ts[i], narrowOk, blob, at);
    AllStillFilled(cv, qs, ts, narrowOk, was, blob[..], i);
    assert Filled(cv, qs, ts, narrowOk, blob[..], i);
  }

  /** Fill the blob; a read may fail at any tensor, and then nothing is bound. */
  method Load(cv: Conv, qs: seq<Req>, ts: seq<Tensor>, narrowOk: bool, offs: seq<nat>, blob: array<int>,
      reading: nat -> bool)
    returns (ok: bool)
    requires Ready(qs, ts, narrowOk) && |offs| == |qs| && blob.Length == End(qs, ts, narrowOk, |qs|)
    requires forall i :: 0 <= i < |qs| ==> offs[i] == Start(qs, ts, narrowOk, i)
    modifies blob
    ensures ok ==> forall i :: 0 <= i < |qs| ==> Filled(cv, qs, ts, narrowOk, blob[..], i)
    ensures (forall i :: 0 <= i < |qs| ==> reading(i)) ==> ok
  {
    for i := 0 to |qs|
      invariant forall j :: 0 <= j < i ==> Filled(cv, qs, ts, narrowOk, blob[..], j)
    {
      if !reading(i) { return false; }
      LoadNext(cv, qs, ts, narrowOk, offs[i], blob, i);
    }
    ok := true;
  }

  /** Bind from the shards: bf16 throughout if every large matrix is, otherwise everything is
      bound again as float32, since one tag describes the whole layer. */
  method BindLayer(cv: Conv, qs: seq<Req>, found: seq<Option<Tensor>>, reading: nat -> bool)
    returns (ok: bool, bf16: bool, blob: array<int>, offs: seq<nat>)
    requires |qs| == |found| && forall i :: 0 <= i < |found| ==> found[i].Some? ==> TensorOk(found[i].value)
    ensures ok ==> AllFit(qs, found, true) && (bf16 <==> !Demoted(qs, found, true)) && Ready(qs, Values(found), bf16)
    ensures ok ==> |offs| == |qs| && forall i :: 0 <= i < |qs| ==> offs[i] == Start(qs, Values(found), bf16, i)
    ensures ok ==> forall i :: 0 <= i < |qs| ==> Filled(cv, qs, Values(found), bf16, blob[..], i)
    ensures ok ==> forall i :: 0 <= i < |qs| ==> Holds(cv, qs[i], Values(found)[i], bf16, blob[..], offs[i])
    ensures AllFit(qs, found, true) && AllFit(qs, found, false) && (forall i :: 0 <= i < |qs| ==> reading(i)) ==> ok
  {
    var need, demoted;
    blob, bf16 := new int[0], true;
    ok, offs, need, demoted := Resolve(qs, found, true);
    if !ok { return; }
    if demoted > 0 {
      bf16 := false;
      ok, offs, need, demoted := Resolve(qs, found, false);
      if !ok { return; }
    }
    blob := new int[need];
    ok := Load(cv, qs, Values(found), bf16, offs, blob, reading);
    if ok { AllHold(cv, qs, Values(found), bf16, blob[..], offs); }
  }

  // ---------------------------------------------------------- from a packed run

  /** How a tensor lies in the run: elements one after the other, or rows of signed bytes each
      led by a float32 scale. */
  datatype Form = Plain(dt: DType) | Int8Rows

  /** Where the manifest says a tensor lies in the run. */
  datatype Spot = Spot(off: nat, nb: nat, form: Form)

  /** A bound field points into the run itself or into the widen area. */
  datatype Ptr = InRun(off: nat) | InWiden(off: nat)

  /** Whole elements of a type in `nb` bytes. */
  function Have(dt: DType, nb: nat): nat
  {
    match dt case U8 => nb case BF16 => nb / 2 case F16 => nb / 2 case F32 => nb / 4
  }

  ghost predicate SpotsOk(spots: seq<Option<Spot>>, run: seq<int>)
  {
    forall i :: 0 <= i < |spots| && spots[i].Some? ==> spots[i].value.off + spots[i].value.nb <= |run|
  }

  function BytesAt(run: seq<int>, sp: Spot): (b: seq<int>)
    requires sp.off + sp.nb <= |run|
    ensures |b| == sp.nb
  {
    run[sp.off..sp.off + sp.nb]
  }

  function TensorAt(run: seq<int>, sp: Spot): Tensor
    requires sp.off + sp.nb <= |run| && sp.form.Plain?
  {
    Tensor(sp.form.dt, Have(sp.form.dt, sp.nb), BytesAt(run, sp))
  }

  /** The most elements that fit. */
  lemma HaveMost(dt: DType, nb: nat)
    ensures Size(dt, Have(dt, nb)) <= nb < Size(dt, Have(dt, nb) + 1)
  {
  }

  lemma HaveFits(dt: DType, nb: nat, n: nat)
    requires n <= Have(dt, nb)
    ensures Size(dt, n) <= nb
  {
  }

  /** `nb` bytes are whole rows of equal width holding `take` signed bytes. */
  predicate RowsFit(nb: nat, take: nat)
  {
    nb > take && (nb - take) % 4 == 0 && take % ((nb - take) / 4) == 0
  }

  function Rows(nb: nat, take: nat): (n: nat)
    requires RowsFit(nb, take)
    ensures n >= 1
  {
    (nb - take) / 4
  }

  function Cols(nb: nat, take: nat): nat
    requires RowsFit(nb, take)
  {
    take / Rows(nb, take)
  }

  lemma RowsCover(nb: nat, take: nat)
    requires RowsFit(nb, take)
    ensures Rows(nb, take) * Cols(nb, take) == take && Rows(nb, take) * (4 + Cols(nb, take)) == nb
  {
    var r, c := Rows(nb, take), Cols(nb, take);
    assert take == r * c;
    assert r * (4 + c) == 4 * r + r * c;
  }

  /** Row `r`, column `k` as float32: the row's scale times the signed byte. */
  function Scaled(cv: Conv, b: seq<int>, width: nat, r: nat, k: nat): (s: seq<int>)
    ensures |s| == 4
  {
    var at := r * width;
    if at + 4 + k < |b| then Four(cv.i8((b[at], b[at + 1], b[at + 2], b[at + 3]), b[at + 4 + k])) else [0, 0, 0, 0]
  }

  function ScaledRow(cv: Conv, b: seq<int>, width: nat, r: nat): nat -> seq<int>
  {
    (k: nat) => Scaled(cv, b, width, r, k)
  }

  function ScaledRows(cv: Conv, b: seq<int>, width: nat): nat -> nat -> seq<int>
  {
    (r: nat) => ScaledRow(cv, b, width, r)
  }

  /** The pieces of `n` rows one after the other. */
  function Grid(x: nat -> nat -> seq<int>, cols: nat, n: nat): seq<int>
  {
    if n == 0 then [] else Grid(x, cols, n - 1) + Pieces(x(n - 1), cols)
  }

  ghost predicate FourEach(x: nat -> seq<int>) { forall k: nat :: |x(k)| == 4 }

  lemma {:induction false} GridSize(x: nat -> nat -> seq<int>, cols: nat, n: nat)
    requires forall r: nat :: FourEach(x(r))
    ensures |Grid(x, cols, n)| == 4 * (n * cols)
  {
    if n > 0 {
      GridSize(x, cols, n - 1);
      assert FourEach(x(n - 1));
      PiecesSize(x(n - 1), cols);
      assert n * cols == (n - 1) * cols + cols;
    }
  }

  lemma {:induction false} ScaledFours(cv: Conv, b: seq<int>, width: nat)
    ensures forall r: nat :: FourEach(ScaledRows(cv, b, width)(r))
  {
    forall r: nat ensures FourEach(ScaledRows(cv, b, width)(r)) { }
  }

  /** Rows of signed bytes dequantised to `take` float32 values. */
  function Dequantised(cv: Conv, b: seq<int>, take: nat): (s: seq<int>)
    requires RowsFit(|b|, take)
    ensures |s| == 4 * take
  {
    var cols := Cols(|b|, take);
    ScaledFours(cv, b, 4 + cols);
    GridSize(ScaledRows(cv, b, 4 + cols), cols, Rows(|b|, take));
    RowsCover(|b|, take);
    Grid(ScaledRows(cv, b, 4 + cols), cols, Rows(|b|, take))
  }

  lemma {:induction false} PiecesAt(x: nat -> seq<int>, n: nat, k: nat)
    requires FourEach(x) && k < n
    ensures |Pieces(x, n)| == 4 * n && Pieces(x, n)[4 * k..4 * k + 4] == x(k)
  {
    PiecesSize(x, n);
    PiecesSize(x, n - 1);
    if k < n - 1 { PiecesAt(x, n - 1, k); }
  }

  lemma {:induction false} GridAt(x: nat -> nat -> seq<int>, cols: nat, n: nat, r: nat, k: nat, at: nat)
    requires (forall r: nat :: FourEach(x(r))) && r < n && k < cols && at == 4 * (r * cols)
    ensures at + 4 * k + 4 <= |Grid(x, cols, n)| && Grid(x, cols, n)[at + 4 * k..at + 4 * k + 4] == x(r)(k)
    decreases n
  {
    GridSize(x, cols, n - 1);
    assert FourEach(x(n - 1));
    if r < n - 1 {
      GridAt(x, cols, n - 1, r, k, at);
      PiecesSize(x(n - 1), cols);
      GridKeeps(Grid(x, cols, n - 1), Pieces(x(n - 1), cols), at + 4 * k);
    } else {
      PiecesAt(x(r), cols, k);
    }
  }

  lemma GridKeeps(a: seq<int>, b: seq<int>, at: nat)
    requires at + 4 <= |a|
    ensures (a + b)[at..at + 4] == a[at..at + 4]
  {
  }

  lemma {:induction false} ScaledAt(cv: Conv, b: seq<int>, width: nat, r: nat, k: nat, row: nat)
    requires row == r * width && row + 4 + k < |b|
    ensures ScaledRows(cv, b, width)(r)(k) == Four(cv.i8((b[row], b[row + 1], b[row + 2], b[row + 3]), b[row + 4 + k]))
  {
  }

  lemma {:induction false} RowInside(n: nat, rows: nat, cols: nat, r: nat, k: nat)
    requires rows * (4 + cols) == n && r < rows && k < cols
    ensures r * (4 + cols) + 4 + k < n && r * cols + k < rows * cols
  {
    RowEnd(r, rows, 4 + cols);
    RowEnd(r, rows, cols);
  }

  /** Value `k` of row `r`, which starts at `row`, stands in its place `at`: the row's own scale
      times its own byte. */
  lemma {:induction false} DequantisedAt(cv: Conv, b: seq<int>, take: nat, r: nat, k: nat, row: nat, at: nat)
    requires RowsFit(|b|, take) && r < Rows(|b|, take) && k < Cols(|b|, take)
    requires row == r * (4 + Cols(|b|, take)) && at == 4 * (r * Cols(|b|, take)) + 4 * k
    ensures row + 4 + k < |b| && at + 4 <= 4 * take
    ensures Dequantised(cv, b, take)[at..at + 4] ==
      Four(cv.i8((b[row], b[row + 1], b[row + 2], b[row + 3]), b[row + 4 + k]))
  {
    var rows, cols := Rows(|b|, take), Cols(|b|, take);
    RowsCover(|b|, take);
    RowInside(|b|, rows, cols, r, k);
    assert at + 4 == 4 * (r * cols + k + 1);
    ScaledFours(cv, b, 4 + cols);
    ScaledAt(cv, b, 4 + cols, r, k, row);
    GridAt(ScaledRows(cv, b, 4 + cols), cols, rows, r, k, at - 4 * k);
  }

  /** What every request must satisfy by itself. */
  predicate MemFits(q: Req, sp: Option<Spot>)
  {
    sp.Some? &&
    match sp.value.form
    case Int8Rows => q.narrow || RowsFit(sp.value.nb, q.take)
    case Plain(dt) =>
      && (q.want >= 0 ==> Have(dt, sp.value.nb) == q.want) && q.take <= Have(dt, sp.value.nb)
      && (dt == BF16 || dt == F32)
  }

  /** A large matrix in rows of signed bytes, and one in float32. */
  predicate IsInt8(q: Req, sp: Option<Spot>) { q.narrow && sp.Some? && sp.value.form == Int8Rows }
  predicate IsFloat(q: Req, sp: Option<Spot>) { q.narrow && sp.Some? && sp.value.form == Plain(F32) }

  predicate SomeInt8(qs: seq<Req>, spots: seq<Option<Spot>>)
    requires |qs| == |spots|
  {
    exists i :: 0 <= i < |qs| && IsInt8(qs[i], spots[i])
  }

  predicate SomeFloat(qs: seq<Req>, spots: seq<Option<Spot>>)
    requires |qs| == |spots|
  {
    exists i :: 0 <= i < |qs| && IsFloat(qs[i], spots[i])
  }

  /** Every tensor is in the run in a usable form, and a large float32 matrix only where the layer
      is tagged int8 anyway. */
  predicate Usable(qs: seq<Req>, spots: seq<Option<Spot>>)
  {
    && |qs| == |spots| && (forall i :: 0 <= i < |qs| ==> MemFits(qs[i], spots[i]))
    && (SomeFloat(qs, spots) ==> SomeInt8(qs, spots))
  }

  predicate MustWiden(q: Req, sp: Option<Spot>)
  {
    !q.narrow && sp.Some? && (sp.value.form == Plain(BF16) || sp.value.form == Int8Rows)
  }

  /** How much of the widen area the first `n` requests use. */
  function Used(qs: seq<Req>, spots: seq<Option<Spot>>, n: nat): nat
    requires n <= |qs| == |spots|
  {
    if n == 0 then 0
    else if MustWiden(qs[n - 1], spots[n - 1]) then Align8(Used(qs, spots, n - 1)) + 4 * qs[n - 1].take
    else Used(qs, spots, n - 1)
  }

  lemma {:induction false} UsedGrows(qs: seq<Req>, spots: seq<Option<Spot>>, m: nat, n: nat)
    requires m <= n <= |qs| == |spots|
    ensures Used(qs, spots, m) <= Used(qs, spots, n)
    decreases n
  {
    if m < n {
      UsedGrows(qs, spots, m, n - 1);
      Align8Is(Used(qs, spots, n - 1));
    }
  }

  /** Where request `i` is widened to. */
  function WidenAt(qs: seq<Req>, spots: seq<Option<Spot>>, i: nat): nat
    requires i < |qs| == |spots|
  {
    Align8(Used(qs, spots, i))
  }

  /** Widened regions are aligned, in order, apart, and inside what the area has in use. */
  lemma {:induction false} WidenRegions(qs: seq<Req>, spots: seq<Option<Spot>>, i: nat, j: nat)
    requires i < j <= |qs| == |spots| && MustWiden(qs[i], spots[i])
    ensures WidenAt(qs, spots, i) % 8 == 0
    ensures WidenAt(qs, spots, i) + 4 * qs[i].take <= Used(qs, spots, |qs|)
    ensures j < |qs| ==> WidenAt(qs, spots, i) + 4 * qs[i].take <= WidenAt(qs, spots, j)
  {
    Align8Is(Used(qs, spots, i));
    UsedGrows(qs, spots, i + 1, |qs|);
    UsedGrows(qs, spots, i + 1, j);
    if j < |qs| { Align8Is(Used(qs, spots, j)); }
  }

  /** The float32 values of a tensor the kernels want widened. */
  function WideBytes(cv: Conv, q: Req, sp: Spot, run: seq<int>): (s: seq<int>)
    requires sp.off + sp.nb <= |run| && MemFits(q, Some(sp)) && !q.narrow
    ensures |s| == 4 * q.take
  {
    match sp.form
    case Int8Rows => Dequantised(cv, BytesAt(run, sp), q.take)
    case Plain(dt) =>
      HaveFits(dt, sp.nb, q.take);
      Widened(cv, TensorAt(run, sp), q.take)
  }

  /** Bytes behind a bound field: whole rows of signed bytes, bf16 as stored, or float32. */
  function Width(q: Req, sp: Spot): nat
  {
    if !q.narrow then 4 * q.take
    else match sp.form case Int8Rows => sp.nb case Plain(dt) => Size(dt, q.take)
  }

  /** The bytes a kernel sees through a bound field. */
  function Seen(cv: Conv, q: Req, sp: Spot, run: seq<int>): (s: seq<int>)
    requires sp.off + sp.nb <= |run| && MemFits(q, Some(sp))
    ensures |s| == Width(q, sp)
  {
    if !q.narrow then WideBytes(cv, q, sp, run)
    else
      if sp.form.Plain? then HaveFits(sp.form.dt, sp.nb, q.take); BytesAt(run, sp)[..Width(q, sp)]
      else BytesAt(run, sp)
  }

  function View(run: seq<int>, widen: seq<int>, p: Ptr, n: nat): seq<int>
  {
    match p
    case InRun(off) => if off + n <= |run| then run[off..off + n] else []
    case InWiden(off) => if off + n <= |widen| then widen[off..off + n] else []
  }

  /** Request `i` is bound: an aligned region of its own in the widen area, or the run itself. */
  ghost predicate Bound(cv: Conv, qs: seq<Req>, spots: seq<Option<Spot>>, run: seq<int>, widen: seq<int>, p: Ptr,
      i: nat)
    requires i < |qs| == |spots| && SpotsOk(spots, run)
  {
    && MemFits(qs[i], spots[i])
    && (var q, sp := qs[i], spots[i].value;
        if MustWiden(q, spots[i]) then
          var at := WidenAt(qs, spots, i);
          p == InWiden(at) && at + 4 * q.take <= |widen| && widen[at..at + 4 * q.take] == WideBytes(cv, q, sp, run)
        else p == InRun(sp.off))
  }

  lemma {:induction false} StillBound(cv: Conv, qs: seq<Req>, spots: seq<Option<Spot>>, run: seq<int>, was: seq<int>,
      b: seq<int>, p: Ptr, i: nat, j: nat)
    requires i < j < |qs| == |spots| && SpotsOk(spots, run) && Bound(cv, qs, spots, run, was, p, i) && |was| == |b|
    requires forall k :: 0 <= k < |b| && k < Used(qs, spots, j) ==> b[k] == was[k]
    ensures Bound(cv, qs, spots, run, b, p, i)
  {
    if MustWiden(qs[i], spots[i]) {
      UsedGrows(qs, spots, i + 1, j);
      var at, n := WidenAt(qs, spots, i), 4 * qs[i].take;
      assert b[at..at + n] == was[at..at + n];
    }
  }

  /** A field seen through its pointer shows the tensor, in the form the kernels expect. */
  lemma {:induction false} BoundView(cv: Conv, qs: seq<Req>, spots: seq<Option<Spot>>, run: seq<int>, widen: seq<int>,
      p: Ptr, i: nat)
    requires i < |qs| == |spots| && SpotsOk(spots, run) && Bound(cv, qs, spots, run, widen, p, i)
    ensures View(run, widen, p, Width(qs[i], spots[i].value)) == Seen(cv, qs[i], spots[i].value, run)
  {
    if !MustWiden(qs[i], spots[i]) { RunView(cv, qs[i], spots[i].value, run); }
  }

  lemma {:induction false} RunView(cv: Conv, q: Req, sp: Spot, run: seq<int>)
    requires sp.off + sp.nb <= |run| && MemFits(q, Some(sp)) && !MustWiden(q, Some(sp))
    ensures Width(q, sp) <= sp.nb && run[sp.off..sp.off + Width(q, sp)] == Seen(cv, q, sp, run)
  {
    if sp.form.Plain? {
      HaveFits(sp.form.dt, sp.nb, q.take);
      var t := TensorAt(run, sp);
      if !q.narrow { WidenedF32(cv, t, q.take); }
      assert t.bytes[..Width(q, sp)] == run[sp.off..sp.off + Width(q, sp)];
    }
  }

  /** What a kernel reads through a field bound to elements lying one after the other: those in the
      run, or the same as float32. */
  ghost predicate Reads(cv: Conv, q: Req, sp: Spot, run: seq<int>, widen: seq<int>, p: Ptr)
    requires sp.off + sp.nb <= |run| && sp.form.Plain?
  {
    var src := run[sp.off..sp.off + sp.nb];
    if q.narrow then
      var n := if sp.form.dt == BF16 then 2 * q.take else 4 * q.take;
      n <= sp.nb && View(run, widen, p, n) == src[..n]
    else Shows(cv, sp.form.dt, src, View(run, widen, p, 4 * q.take), q.take)
  }

  lemma {:induction false} BoundReads(cv: Conv, qs: seq<Req>, spots: seq<Option<Spot>>, run: seq<int>, widen: seq<int>,
      p: Ptr, i: nat)
    requires i < |qs| == |spots| && SpotsOk(spots, run) && Bound(cv, qs, spots, run, widen, p, i)
    requires spots[i].value.form.Plain?
    ensures Reads(cv, qs[i], spots[i].value, run, widen, p)
  {
    var q, sp := qs[i], spots[i].value;
    var t := TensorAt(run, sp);
    HaveFits(t.dt, sp.nb, q.take);
    BoundView(cv, qs, spots, run, widen, p, i);
    if !q.narrow { WidenedShows(cv, t, q.take); }
  }

  ghost predicate Read(cv: Conv, q: Req, f: Option<Spot>, run: seq<int>, widen: seq<int>, p: Ptr)
    requires f.Some? ==> f.value.off + f.value.nb <= |run|
  {
    && f.Some?
    && match f.value.form
       case Plain(_) => Reads(cv, q, f.value, run, widen, p)
       case Int8Rows => q.narrow ==> View(run, widen, p, f.value.nb) == BytesAt(run, f.value)
  }

  ghost predicate AllRead(cv: Conv, qs: seq<Req>, spots: seq<Option<Spot>>, run: seq<int>, widen: seq<int>,
      ptrs: seq<Ptr>)
    requires |qs| == |spots| == |ptrs| && SpotsOk(spots, run)
  {
    forall i :: 0 <= i < |qs| ==> Read(cv, qs[i], spots[i], run, widen, ptrs[i])
  }

  lemma {:induction false} AllBound(cv: Conv, qs: seq<Req>, spots: seq<Option<Spot>>, run: seq<int>, widen: seq<int>,
      ptrs: seq<Ptr>)
    requires |qs| == |spots| == |ptrs| && SpotsOk(spots, run)
    requires forall i :: 0 <= i < |qs| ==> Bound(cv, qs, spots, run, widen, ptrs[i], i)
    ensures AllRead(cv, qs, spots, run, widen, ptrs)
  {
    forall i | 0 <= i < |qs| ensures Read(cv, qs[i], spots[i], run, widen, ptrs[i]) {
      assert Bound(cv, qs, spots, run, widen, ptrs[i], i);
      if spots[i].value.form.Plain? { BoundReads(cv, qs, spots, run, widen, ptrs[i], i); }
      else { BoundView(cv, qs, spots, run, widen, ptrs[i], i); }
    }
  }

  /** Rows of signed bytes dequantised into place, row by row. */
  method DequantInto(cv: Conv, b: seq<int>, take: nat, buf: array<int>, at: nat)
    requires RowsFit(|b|, take) && at + 4 * take <= buf.Length
    modifies buf
    ensures buf[at..at + 4 * take] == Dequantised(cv, b, take)
    ensures forall k :: 0 <= k < buf.Length && (k < at || k >= at + 4 * take) ==> buf[k] == old(buf[k])
  {
    var rows := (|b| - take) / 4;
    var cols := take / rows;
    ScaledFours(cv, b, 4 + cols);
    RowsCover(|b|, take);
    FillGrid(buf, at, ScaledRows(cv, b, 4 + cols), cols, rows, take);
  }

  lemma {:induction false} GridGrows(x: nat -> nat -> seq<int>, cols: nat, r: nat, rows: nat)
    requires (forall r: nat :: FourEach(x(r))) && r < rows
    ensures |Grid(x, cols, r + 1)| == |Grid(x, cols, r)| + 4 * cols && |Grid(x, cols, r + 1)| <= 4 * (rows * cols)
  {
    GridSize(x, cols, r);
    GridSize(x, cols, r + 1);
    RowEnd(r, rows, cols);
  }

  method FillGrid(buf: array<int>, at: nat, x: nat -> nat -> seq<int>, cols: nat, rows: nat, n: nat)
    requires (forall r: nat :: FourEach(x(r))) && rows * cols == n && at + 4 * n <= buf.Length
    modifies buf
    ensures buf[at..at + 4 * n] == Grid(x, cols, rows)
    ensures forall k :: 0 <= k < buf.Length && (k < at || k >= at + 4 * n) ==> buf[k] == old(buf[k])
  {
    GridSize(x, cols, rows);
    var done: nat := 0;
    for r := 0 to rows
      invariant done == |Grid(x, cols, r)| <= 4 * n && buf[at..at + done] == Grid(x, cols, r)
      invariant forall k :: 0 <= k < buf.Length && (k < at || k >= at + done) ==> buf[k] == old(buf[k])
    {
      GridGrows(x, cols, r, rows);
      FillRow(buf, at, done, x(r), cols, Grid(x, cols, r));
      done := done + 4 * cols;
    }
  }

  lemma RowEnd(r: nat, rows: nat, cols: nat)
    requires r < rows
    ensures (r + 1) * cols == r * cols + cols && (r + 1) * cols <= rows * cols
  {
    assert rows * cols == (r + 1) * cols + (rows - r - 1) * cols;
  }

  /** One more row after those already written. */
  method FillRow(buf: array<int>, at: nat, done: nat, x: nat -> seq<int>, cols: nat, ghost w: seq<int>)
    requires FourEach(x) && at + done + 4 * cols <= buf.Length && buf[at..at + done] == w
    modifies buf
    ensures buf[at..at + done + 4 * cols] == w + Pieces(x, cols)
    ensures forall k :: 0 <= k < buf.Length && (k < at || k >= at + done + 4 * cols) ==> buf[k] == old(buf[k])
  {
    FillPieces(buf, at + done, cols, x);
    assert buf[at..at + done] == w;
    SliceJoin(buf[..], at, at + done, at + done + 4 * cols);
  }

  /** Widening or dequantising one tensor into place. */
  method WideInto(cv: Conv, q: Req, sp: Spot, run: seq<int>, widen: array<int>, at: nat)
    requires sp.off + sp.nb <= |run| && MemFits(q, Some(sp)) && !q.narrow && at + 4 * q.take <= widen.Length
    modifies widen
    ensures widen[at..at + 4 * q.take] == WideBytes(cv, q, sp, run)
    ensures forall k :: 0 <= k < widen.Length && (k < at || k >= at + 4 * q.take) ==> widen[k] == old(widen[k])
  {
    if sp.form == Int8Rows {
      DequantInto(cv, BytesAt(run, sp), q.take, widen, at);
    } else {
      HaveFits(sp.form.dt, sp.nb, q.take);
      WidenInto(cv, TensorAt(run, sp), q.take, widen, at);
    }
  }

  method BindOne(cv: Conv, q: Req, sp: Spot, run: seq<int>, widen: array<int>, w: nat)
    returns (ok: bool, p: Ptr, w': nat)
    requires sp.off + sp.nb <= |run| && MemFits(q, Some(sp))
    modifies widen
    ensures ok <==> !MustWiden(q, Some(sp)) || Align8(w) + 4 * q.take <= widen.Length
    ensures ok && MustWiden(q, Some(sp)) ==> p == InWiden(Align8(w)) && w' == Align8(w) + 4 * q.take
    ensures ok && MustWiden(q, Some(sp)) ==> widen[Align8(w)..w'] == WideBytes(cv, q, sp, run)
    ensures ok && !MustWiden(q, Some(sp)) ==> p == InRun(sp.off) && w' == w
    ensures forall k :: 0 <= k < widen.Length && k < w ==> widen[k] == old(widen[k])
  {
    ok, p, w' := true, InRun(sp.off), w;
    if q.narrow || sp.form == Plain(F32) { return; }
    Align8Is(w);
    var at := Align8(w);
    if at + 4 * q.take > widen.Length { return false, p, w; }
    WideInto(cv, q, sp, run, widen, at);
    p, w' := InWiden(at), at + 4 * q.take;
  }

  /** The storage tag of a layer's large matrices. */
  datatype Tag = Bf16Tag | Int8Tag

  function TagOf(qs: seq<Req>, spots: seq<Option<Spot>>): Tag
    requires |qs| == |spots|
  {
    if SomeInt8(qs, spots) then Int8Tag else Bf16Tag
  }

  /** Bind from a packed run: point at what can be used as it lies, widen the rest. It succeeds
      exactly when every tensor is there in a usable form and the widen area is large enough. */
  method BindMem(cv: Conv, qs: seq<Req>, spots: seq<Option<Spot>>, run: seq<int>, widen: array<int>)
    returns (ok: bool, ptrs: seq<Ptr>, w: nat, tag: Tag)
    requires |qs| == |spots| && SpotsOk(spots, run)
    modifies widen
    ensures ok <==> Usable(qs, spots) && Used(qs, spots, |qs|) <= widen.Length
    ensures ok ==> |ptrs| == |qs| && w == Used(qs, spots, |qs|) && tag == TagOf(qs, spots)
    ensures ok ==> forall i :: 0 <= i < |qs| ==> Bound(cv, qs, spots, run, widen[..], ptrs[i], i)
    ensures ok ==> AllRead(cv, qs, spots, run, widen[..], ptrs)
  {
    ok, ptrs, w, tag := true, [], 0, Bf16Tag;
    var narrowed, int8 := true, false;
    for i := 0 to |qs|
      invariant |ptrs| == i && w == Used(qs, spots, i) && w <= widen.Length && ok
      invariant forall j :: 0 <= j < i ==> MemFits(qs[j], spots[j])
      invariant int8 <==> exists j :: 0 <= j < i && IsInt8(qs[j], spots[j])
      invariant !narrowed <==> exists j :: 0 <= j < i && IsFloat(qs[j], spots[j])
      invariant forall j :: 0 <= j < i ==> Bound(cv, qs, spots, run, widen[..], ptrs[j], j)
    {
      if !MemFits(qs[i], spots[i]) { return false, ptrs, w, tag; }
      if IsInt8(qs[i], spots[i]) { int8 := true; }
      if IsFloat(qs[i], spots[i]) { narrowed := false; }
      ok, ptrs, w := BindNext(cv, qs, spots, run, widen, ptrs, w, i);
      if !ok {
        UsedGrows(qs, spots, i + 1, |qs|);
        return;
      }
    }
    AllBound(cv, qs, spots, run, widen[..], ptrs);
    if !narrowed && !int8 { ok := false; }
    if int8 { tag := Int8Tag; }
  }

  method BindNext(cv: Conv, qs: seq<Req>, spots: seq<Option<Spot>>, run: seq<int>, widen: array<int>, ptrs: seq<Ptr>,
      w: nat, i: nat)
    returns (ok: bool, ptrs': seq<Ptr>, w': nat)
    requires i < |qs| == |spots| && SpotsOk(spots, run) && |ptrs| == i && w == Used(qs, spots, i)
    requires MemFits(qs[i], spots[i])
    requires forall j :: 0 <= j < i ==> Bound(cv, qs, spots, run, widen[..], ptrs[j], j)
    requires w <= widen.Length
    modifies widen
    ensures ok <==> Used(qs, spots, i + 1) <= widen.Length
    ensures ok ==> |ptrs'| == i + 1 && w' == Used(qs, spots, i + 1)
    ensures ok ==> forall j :: 0 <= j <= i ==> Bound(cv, qs, spots, run, widen[..], ptrs'[j], j)
  {
    ghost var was := widen[..];
    var p;
    ok, p, w' := BindOne(cv, qs[i], spots[i].value, run, widen, w);
    ptrs' := ptrs + [p];
    if ok {
      forall j | 0 <= j < i ensures Bound(cv, qs, spots, run, widen[..], ptrs'[j], j) {
        StillBound(cv, qs, spots, run, was, widen[..], ptrs[j], j, i);
      }
      assert Bound(cv, qs, spots, run, widen[..], p, i);
    }
  }

  /** The tag says truly how the field is stored. */
  predicate Describes(tag: Tag, q: Req, sp: Option<Spot>)
  {
    q.narrow && sp.Some? ==> sp.value.form == if tag == Int8Tag then Int8Rows else Plain(BF16)
  }

  /** Some large matrices are rows of signed bytes and some are not. */
  predicate Mixed(qs: seq<Req>, spots: seq<Option<Spot>>)
    requires |qs| == |spots|
  {
    SomeInt8(qs, spots) && exists j :: 0 <= j < |qs| && qs[j].narrow && spots[j].Some? && spots[j].value.form.Plain?
  }

  /** One tag describes all the large matrices of a bound layer exactly when the two formats are
      not mixed in it. */
  lemma {:induction false} TagExactly(qs: seq<Req>, spots: seq<Option<Spot>>)
    requires Usable(qs, spots)
    ensures (forall i :: 0 <= i < |qs| ==> Describes(TagOf(qs, spots), qs[i], spots[i])) <==> !Mixed(qs, spots)
  {
    var tag := TagOf(qs, spots);
    if Mixed(qs, spots) {
      var j :| 0 <= j < |qs| && qs[j].narrow && spots[j].Some? && spots[j].value.form.Plain?;
      assert !Describes(tag, qs[j], spots[j]);
    } else {
      forall i | 0 <= i < |qs| ensures Describes(tag, qs[i], spots[i]) {
        assert MemFits(qs[i], spots[i]);
        assert IsFloat(qs[i], spots[i]) ==> SomeFloat(qs, spots);
        assert IsInt8(qs[i], spots[i]) ==> SomeInt8(qs, spots);
      }
    }
  }

  /** A mixed layer is accepted and tagged int8, whatever its bf16 matrix holds. */
  lemma {:induction false} MixedAccepted(m: nat, n: nat)
    ensures var qs := [Req(m, m, true), Req(n, n, true)];
      var spots := [Some(Spot(0, m + 4, Int8Rows)), Some(Spot(m + 4, 2 * n, Plain(BF16)))];
      Usable(qs, spots) && TagOf(qs, spots) == Int8Tag && !Describes(Int8Tag, qs[1], spots[1])
  {
    var qs := [Req(m, m, true), Req(n, n, true)];
    var spots := [Some(Spot(0, m + 4, Int8Rows)), Some(Spot(m + 4, 2 * n, Plain(BF16)))];
    assert IsInt8(qs[0], spots[0]);
  }

  // ------------------------------------------------------------------ agreement

  /** The run holds the checkpoint's tensors. */
  ghost predicate Packed(found: seq<Option<Tensor>>, spots: seq<Option<Spot>>, run: seq<int>)
  {
    && |found| == |spots| && SpotsOk(spots, run)
    && forall i :: 0 <= i < |found| ==> Same(found[i], spots[i], run)
  }

  ghost predicate Same(f: Option<Tensor>, sp: Option<Spot>, run: seq<int>)
  {
    f.Some? && sp.Some? && sp.value.off + sp.value.nb <= |run| ==>
      sp.value.form == Plain(f.value.dt) && BytesAt(run, sp.value) == f.value.bytes
  }

  lemma {:induction false} SeenEqual(cv: Conv, q: Req, t: Tensor, sp: Spot, run: seq<int>)
    requires sp.off + sp.nb <= |run| && Same(Some(t), Some(sp), run) && TensorOk(t) && Fits(q, Some(t), true)
    requires MemFits(q, Some(sp)) && !IsFloat(q, Some(sp))
    ensures RegionBytes(cv, q, t, true) == Seen(cv, q, sp, run) && RegionSize(q, t, true) == Width(q, sp)
  {
    HaveFits(sp.form.dt, sp.nb, q.take);
    Enough(t, q.take);
    WidenedSame(cv, t, TensorAt(run, sp), q.take);
    if q.narrow { assert t.bytes[..2 * q.take] == t.bytes; }
  }

  lemma {:induction false} WideSame(cv: Conv, t: Tensor, u: Tensor, i: nat)
    requires t.dt == u.dt && t.bytes == u.bytes && Size(t.dt, i + 1) <= |t.bytes|
    ensures Wide(cv, t, i) == Wide(cv, u, i)
  {
  }

  lemma {:induction false} WidenedSame(cv: Conv, t: Tensor, u: Tensor, n: nat)
    requires t.dt == u.dt && t.bytes == u.bytes && Size(t.dt, n) <= |t.bytes|
    ensures Widened(cv, t, n) == Widened(cv, u, n)
  {
    var x, y := Widener(cv, t), Widener(cv, u);
    forall i: nat | i < n ensures x(i) == y(i) {
      ElemFits(t, n, i);
      WideSame(cv, t, u, i);
    }
    PiecesSame(x, y, n);
  }

  /** A field shows the same bytes through both bindings. */
  ghost predicate Alike(n: nat, blob: seq<int>, off: nat, run: seq<int>, widen: seq<int>, p: Ptr)
  {
    off + n <= |blob| && blob[off..off + n] == View(run, widen, p, n)
  }

  lemma {:induction false} AlikeAt(cv: Conv, qs: seq<Req>, ts: seq<Tensor>, spots: seq<Option<Spot>>, run: seq<int>,
      widen: seq<int>, blob: seq<int>, p: Ptr, i: nat)
    requires i < |qs| == |ts| == |spots| && SpotsOk(spots, run) && spots[i].Some? && Same(Some(ts[i]), spots[i], run)
    requires TensorOk(ts[i]) && Fits(qs[i], Some(ts[i]), true) && Filled(cv, qs, ts, true, blob, i)
    requires Bound(cv, qs, spots, run, widen, p, i) && !IsFloat(qs[i], spots[i])
    ensures Alike(Width(qs[i], spots[i].value), blob, Start(qs, ts, true, i), run, widen, p)
  {
    SeenEqual(cv, qs[i], ts[i], spots[i].value, run);
    BoundView(cv, qs, spots, run, widen, p, i);
  }

  /** Both can succeed only when every large matrix is bf16, so the tags are the same. */
  lemma {:induction false} SameTag(qs: seq<Req>, found: seq<Option<Tensor>>, spots: seq<Option<Spot>>, run: seq<int>)
    requires |qs| == |found| && Packed(found, spots, run) && Usable(qs, spots)
    requires forall i :: 0 <= i < |qs| ==> found[i].Some?
    ensures !Demoted(qs, found, true) && TagOf(qs, spots) == Bf16Tag && !SomeFloat(qs, spots)
  {
    forall i | 0 <= i < |qs| ensures !IsInt8(qs[i], spots[i]) { assert Same(found[i], spots[i], run); }
    forall i | 0 <= i < |qs| && qs[i].narrow ensures found[i].value.dt == BF16 {
      assert MemFits(qs[i], spots[i]) && Same(found[i], spots[i], run) && !IsFloat(qs[i], spots[i]);
    }
  }

  lemma {:induction false} AllAlike(cv: Conv, qs: seq<Req>, found: seq<Option<Tensor>>, spots: seq<Option<Spot>>,
      run: seq<int>, widen: seq<int>, blob: seq<int>, offs: seq<nat>, ptrs: seq<Ptr>)
    requires |qs| == |found| == |offs| == |ptrs| && Packed(found, spots, run) && AllFit(qs, found, true)
    requires Ready(qs, Values(found), true) && !SomeFloat(qs, spots)
    requires forall i :: 0 <= i < |qs| ==> offs[i] == Start(qs, Values(found), true, i)
    requires forall i :: 0 <= i < |qs| ==> Filled(cv, qs, Values(found), true, blob, i)
    requires forall i :: 0 <= i < |qs| ==> Bound(cv, qs, spots, run, widen, ptrs[i], i)
    ensures forall i :: 0 <= i < |qs| ==> spots[i].Some?
    ensures forall i :: 0 <= i < |qs| ==> Alike(Width(qs[i], spots[i].value), blob, offs[i], run, widen, ptrs[i])
  {
    var ts := Values(found);
    forall i | 0 <= i < |qs|
      ensures spots[i].Some? && Alike(Width(qs[i], spots[i].value), blob, offs[i], run, widen, ptrs[i])
    {
      assert Same(found[i], spots[i], run) && Bound(cv, qs, spots, run, widen, ptrs[i], i);
      assert !IsFloat(qs[i], spots[i]);
      AlikeAt(cv, qs, ts, spots, run, widen, blob, ptrs[i], i);
    }
  }

  /** The two binders agree: when both succeed they choose the same tag, and every field shows
      the same bytes. */
  method BindBoth(cv: Conv, qs: seq<Req>, found: seq<Option<Tensor>>, reading: nat -> bool, spots: seq<Option<Spot>>,
      run: seq<int>, widen: array<int>)
    returns (both: bool, bf16: bool, tag: Tag, blob: array<int>, offs: seq<nat>, ptrs: seq<Ptr>)
    requires |qs| == |found| && (forall i :: 0 <= i < |found| ==> found[i].Some? ==> TensorOk(found[i].value))
    requires Packed(found, spots, run)
    modifies widen
    ensures both ==> bf16 && tag == Bf16Tag && |offs| == |ptrs| == |qs|
    ensures both ==> forall i :: 0 <= i < |qs| ==> spots[i].Some?
    ensures both ==> forall i :: 0 <= i < |qs| ==>
      Alike(Width(qs[i], spots[i].value), blob[..], offs[i], run, widen[..], ptrs[i])
  {
    var ok, w;
    ok, ptrs, w, tag := BindMem(cv, qs, spots, run, widen);
    both, bf16, blob, offs := BindLayer(cv, qs, found, reading);
    both := both && ok;
    if both {
      SameTag(qs, found, spots, run);
      AllAlike(cv, qs, found, spots, run, widen[..], blob[..], offs, ptrs);
    }
  }
}
