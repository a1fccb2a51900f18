/** Reading byte ranges through a device that may return short, src/io/k3_st.c:457-512. */
module Reader {
  import opened Bits

  /** A file behind pread: each call may stop early, fail, or hit the end of the file. */
  class Device {
    const data: seq<int>
    const limit: nat -> int   // how much the n-th call is willing to return
    var calls: nat

    constructor (d: seq<int>, l: nat -> int)
      ensures data == d && limit == l
    {
      data, limit, calls := d, l, 0;
    }

    /** The device keeps going while there is something to read. */
    ghost predicate Steady() { forall i: nat :: limit(i) >= 1 }

    method Pread(buf: array<int>, at: nat, n: nat, off: nat) returns (r: int)
      requires at + n <= buf.Length
      modifies this, buf
      ensures r <= n && (r > 0 ==> off + r <= |data| && buf[at..at + r] == data[off..off + r])
      ensures forall k :: 0 <= k < buf.Length && (k < at || k >= at + r) ==> buf[k] == old(buf[k])
      ensures Steady() && n > 0 && off < |data| ==> r > 0
    {
      r := limit(calls);
      calls := calls + 1;
      if r > n { r := n; }
      if r > |data| - off { r := |data| - off; }
      if r > 0 {
        for i := 0 to r
          invariant buf[at..at + i] == data[off..off + i]
          invariant forall k :: 0 <= k < buf.Length && (k < at || k >= at + i) ==> buf[k] == old(buf[k])
        {
          buf[at + i] := data[off + i];
          assert buf[at..at + i + 1] == buf[at..at + i] + [data[off + i]];
        }
      }
    }
  }

  /** What a read of `n` bytes of `d` at `off` into `b` at `at` leaves behind when it got `got`. */
  ghost predicate Holds(d: seq<int>, off: nat, b: seq<int>, at: nat, got: nat)
  {
    off + got <= |d| && at + got <= |b| && b[at..at + got] == d[off..off + got]
  }

  /** Read until everything is there or the device stops; used by both readers. */
  method ReadLoop(dev: Device, buf: array<int>, at: nat, n: nat, off: nat) returns (got: nat)
    requires at + n <= buf.Length
    modifies dev, buf
    ensures got <= n && (got > 0 ==> Holds(dev.data, off, buf[..], at, got))
    ensures forall k :: 0 <= k < buf.Length && (k < at || k >= at + n) ==> buf[k] == old(buf[k])
    ensures dev.Steady() && off + n <= |dev.data| ==> got == n
    ensures dev.Steady() && off <= |dev.data| && got < n ==> off + got == |dev.data|
  {
    got := 0;
    while got < n
      invariant got <= n && (got > 0 ==> Holds(dev.data, off, buf[..], at, got))
      invariant forall k :: 0 <= k < buf.Length && (k < at || k >= at + n) ==> buf[k] == old(buf[k])
    {
      ghost var was := buf[..];
      var r := dev.Pread(buf, at + got, n - got, off + got);
      if r <= 0 { return; }
      Joined(dev.data, off, was, buf[..], at, got, r);
      got := got + r;
    }
  }

  /** Bytes already read stay, and the new ones continue them. */
  lemma Joined(d: seq<int>, off: nat, was: seq<int>, b: seq<int>, at: nat, got: nat, r: nat)
    requires |was| == |b| && (got > 0 ==> Holds(d, off, was, at, got)) && Holds(d, off + got, b, at + got, r)
    requires forall k :: at <= k < at + got ==> b[k] == was[k]
    ensures Holds(d, off, b, at, got + r)
  {
    assert b[at..at + got] == was[at..at + got];
    assert b[at..at + (got + r)] == b[at..at + got] + b[at + got..at + got + r];
    assert d[off..off + (got + r)] == d[off..off + got] + d[off + got..off + got + r];
  }

  const Align := 4096

  function Down(x: nat): nat { x - And(x, Align - 1) }

  lemma DownIs(x: nat)
    ensures x - Align < Down(x) <= x && Down(x) % Align == 0
  {
    assert Pow2(12) == Align;
    MaskIsMod(x, 12);
    Floor(x, Align);
  }

  /** The window that an aligned read widens to: it covers the range and is never more than two
      blocks longer. */
  lemma Window(off: nat, n: nat)
    ensures var lo, hi := Down(off), Down(off + n + Align - 1);
      lo <= off && off + n <= hi && hi - lo <= n + 2 * Align && lo % Align == 0 && hi % Align == 0
  {
    DownIs(off);
    DownIs(off + n + Align - 1);
  }

  /** Either path: without a direct descriptor an ordinary read, otherwise the widened window.
      The bytes reported are where the payload offset says, whatever the device did. */
  method ReadAligned(dev: Device, direct: bool, off: nat, n: nat, buf: array<int>) returns (r: nat, pad: nat)
    modifies dev, buf
    ensures r <= n && (r > 0 ==> Holds(dev.data, off, buf[..], pad, r))
    ensures dev.Steady() && off + n <= |dev.data| && buf.Length >= n + 2 * Align ==> r == n
    ensures pad < Align && (!direct ==> pad == 0)
  {
    r, pad := 0, 0;
    if !direct {
      if buf.Length < n { return; }
      r := ReadLoop(dev, buf, 0, n, off);
      return;
    }
    Window(off, n);
    DownIs(off);
    var lo, hi := Down(off), Down(off + n + Align - 1);
    var len := hi - lo;
    if len > buf.Length { return; }
    pad := off - lo;
    var got := ReadLoop(dev, buf, 0, len, lo);
    r := if got >= pad + n then n else if got > pad then got - pad else 0;
    if r > 0 { Inside(dev.data, lo, buf[..], got, pad, r); }
  }

  lemma Inside(d: seq<int>, lo: nat, b: seq<int>, got: nat, pad: nat, r: nat)
    requires Holds(d, lo, b, 0, got) && pad + r <= got
    ensures Holds(d, lo + pad, b, pad, r)
  {
    SliceOfSlice(b, 0, got, pad, pad + r);
    SliceOfSlice(d, lo, lo + got, pad, pad + r);
  }

  lemma SliceOfSlice(s: seq<int>, a: nat, b: nat, c: nat, e: nat)
    requires a <= b <= |s| && c <= e <= b - a
    ensures s[a..b][c..e] == s[a + c..a + e]
  {
    var t := s[a..b];
    assert forall k :: c <= k < e ==> t[k] == s[a + k];
    assert t[c..e] == s[a + c..a + e];
  }
}
