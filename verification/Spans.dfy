/** Byte ranges and when they tile a run. */
module Spans {

  datatype Span = Span(off: int, n: nat)

  ghost function Range(off: int, n: nat): (s: set<int>)
    ensures |s| == n && forall x :: x in s <==> off <= x < off + n
  {
    if n == 0 then {} else Range(off, n - 1) + {off + n - 1}
  }

  function Total(spans: seq<Span>): nat
  {
    if spans == [] then 0 else Total(spans[..|spans| - 1]) + spans[|spans| - 1].n
  }

  ghost function Bytes(spans: seq<Span>): set<int>
  {
    if spans == [] then {} else Bytes(spans[..|spans| - 1]) + Range(spans[|spans| - 1].off, spans[|spans| - 1].n)
  }

  predicate Apart(a: Span, b: Span) { a.n == 0 || b.n == 0 || a.off + a.n <= b.off || b.off + b.n <= a.off }

  predicate Disjoint(spans: seq<Span>) { forall i, j :: 0 <= i < j < |spans| ==> Apart(spans[i], spans[j]) }

  predicate Within(spans: seq<Span>, lo: int, hi: int)
  {
    forall i :: 0 <= i < |spans| ==> lo <= spans[i].off && spans[i].off + spans[i].n <= hi
  }

  predicate InSome(spans: seq<Span>, x: int)
  {
    exists i :: 0 <= i < |spans| && spans[i].off <= x < spans[i].off + spans[i].n
  }

  /** Every byte of the run belongs to some span. */
  ghost predicate Covers(spans: seq<Span>, lo: int, hi: int) { forall x :: lo <= x < hi ==> InSome(spans, x) }

  lemma SomeSplit(t: seq<Span>, z: Span, x: int)
    ensures InSome(t + [z], x) <==> InSome(t, x) || z.off <= x < z.off + z.n
  {
    var s := t + [z];
    assert s[|t|] == z;
    assert forall i :: 0 <= i < |t| ==> s[i] == t[i];
    if InSome(t, x) {
      var i :| 0 <= i < |t| && t[i].off <= x < t[i].off + t[i].n;
      assert s[i].off <= x < s[i].off + s[i].n;
    }
  }

  lemma {:induction false} InBytes(spans: seq<Span>, x: int)
    ensures x in Bytes(spans) <==> InSome(spans, x)
  {
    if spans != [] {
      var t, z := spans[..|spans| - 1], spans[|spans| - 1];
      InBytes(t, x);
      SomeSplit(t, z, x);
      assert spans == t + [z];
    }
  }

  lemma {:induction false} ApartFromAll(t: seq<Span>, z: Span)
    ensures Bytes(t) * Range(z.off, z.n) == {} <==> forall i :: 0 <= i < |t| ==> Apart(t[i], z)
  {
    if forall i :: 0 <= i < |t| ==> Apart(t[i], z) {
      forall x | x in Bytes(t) && x in Range(z.off, z.n) ensures false { InBytes(t, x); }
    } else {
      var i :| 0 <= i < |t| && !Apart(t[i], z);
      var x := if t[i].off >= z.off then t[i].off else z.off;
      InBytes(t, x);
      assert x in Bytes(t) * Range(z.off, z.n);
    }
  }

  /** Counting bytes: no more than the lengths, and exactly as many when nothing overlaps. */
  lemma {:induction false} ByteCount(spans: seq<Span>)
    ensures |Bytes(spans)| <= Total(spans)
    ensures |Bytes(spans)| == Total(spans) <==> Disjoint(spans)
  {
    if spans != [] {
      var t, z := spans[..|spans| - 1], spans[|spans| - 1];
      ByteCount(t);
      ApartFromAll(t, z);
      var B, R := Bytes(t), Range(z.off, z.n);
      assert |B + R| == |B| + |R| - |B * R|;
      assert |B * R| == 0 <==> B * R == {};
      LastApart(spans);
    }
  }

  lemma LastApart(spans: seq<Span>)
    requires spans != []
    ensures var t, z := spans[..|spans| - 1], spans[|spans| - 1];
      Disjoint(spans) <==> Disjoint(t) && forall i :: 0 <= i < |t| ==> Apart(t[i], z)
  {
    var t, z := spans[..|spans| - 1], spans[|spans| - 1];
    if Disjoint(spans) {
      forall i | 0 <= i < |t| ensures Apart(t[i], z) { assert Apart(spans[i], spans[|spans| - 1]); }
      forall i, j | 0 <= i < j < |t| ensures Apart(t[i], t[j]) { assert Apart(spans[i], spans[j]); }
    }
    if Disjoint(t) && forall i :: 0 <= i < |t| ==> Apart(t[i], z) {
      forall i, j | 0 <= i < j < |spans| ensures Apart(spans[i], spans[j]) {
        if j < |t| { assert Apart(t[i], t[j]); } else { assert Apart(t[i], z); }
      }
    }
  }

  /** When the lengths add up to the run, having no overlap and leaving no foreign byte are the
      same thing; the length test alone promises neither. */
  lemma {:induction false} Tiling(spans: seq<Span>, lo: int, hi: int)
    requires Within(spans, lo, hi) && Total(spans) == hi - lo
    ensures Disjoint(spans) <==> Covers(spans, lo, hi)
  {
    ByteCount(spans);
    var B, R := Bytes(spans), Range(lo, hi - lo);
    BytesWithin(spans, lo, hi);
    SameSize(B, R);
    CoversIs(spans, lo, hi);
  }

  lemma {:induction false} BytesWithin(spans: seq<Span>, lo: int, hi: int)
    requires Within(spans, lo, hi) && lo <= hi
    ensures Bytes(spans) <= Range(lo, hi - lo)
  {
    forall x | x in Bytes(spans) ensures x in Range(lo, hi - lo) { InBytes(spans, x); }
  }

  lemma {:induction false} CoversIs(spans: seq<Span>, lo: int, hi: int)
    requires lo <= hi
    ensures Covers(spans, lo, hi) <==> Range(lo, hi - lo) <= Bytes(spans)
  {
    var B, R := Bytes(spans), Range(lo, hi - lo);
    if Covers(spans, lo, hi) {
      forall x | x in R ensures x in B { InBytes(spans, x); }
    }
    if R <= B {
      forall x | lo <= x < hi ensures InSome(spans, x) { InBytes(spans, x); }
    }
  }

  lemma SameSize(B: set<int>, R: set<int>)
    requires B <= R
    ensures |B| == |R| <==> B == R
  {
    assert R == B + (R - B);
  }

  /** Two copies of one byte beside a gap pass the length test. */
  lemma LengthTestFooled()
    ensures var spans := [Span(0, 1), Span(0, 1), Span(2, 1)];
      Within(spans, 0, 3) && Total(spans) == 3 - 0 && !Disjoint(spans) && !Covers(spans, 0, 3)
  {
    var spans := [Span(0, 1), Span(0, 1), Span(2, 1)];
    assert spans[..2][..1] == [spans[0]] && spans[..2][1] == spans[1];
    assert Total(spans[..2][..1]) == 1 && Total(spans[..2]) == 2;
    assert !Apart(spans[0], spans[1]);
    Tiling(spans, 0, 3);
  }

  // ------------------------------------------------------------------------ extent

  function Lowest(spans: seq<Span>): int
    requires spans != []
  {
    if |spans| == 1 then spans[0].off
    else
      var l, z := Lowest(spans[..|spans| - 1]), spans[|spans| - 1].off;
      if z < l then z else l
  }

  function Highest(spans: seq<Span>): int
  {
    if spans == [] then 0
    else
      var h, z := Highest(spans[..|spans| - 1]), spans[|spans| - 1];
      if z.off + z.n > h then z.off + z.n else h
  }

  lemma {:induction false} Bounds(spans: seq<Span>)
    requires spans != []
    ensures Within(spans, Lowest(spans), Highest(spans))
    decreases |spans|
  {
    var t := spans[..|spans| - 1];
    if t != [] {
      Bounds(t);
      forall i | 0 <= i < |spans| ensures Lowest(spans) <= spans[i].off && spans[i].off + spans[i].n <= Highest(spans) {
        if i < |t| { assert t[i] == spans[i]; }
      }
    }
  }

  method Extent(all: seq<Span>) returns (lo: int, hi: int, own: nat)
    requires all != []
    ensures lo == Lowest(all) && hi == Highest(all) && own == Total(all)
  {
    lo, hi, own := all[0].off, 0, 0;
    for i := 0 to |all|
      invariant hi == Highest(all[..i]) && own == Total(all[..i])
      invariant lo == if i == 0 then all[0].off else Lowest(all[..i])
    {
      assert all[..i + 1][..i] == all[..i];
      if all[i].off < lo { lo := all[i].off; }
      if all[i].off + all[i].n > hi { hi := all[i].off + all[i].n; }
      own := own + all[i].n;
    }
    assert all[..|all|] == all;
  }

  lemma {:induction false} HighestIn(spans: seq<Span>, n: nat)
    ensures Within(spans, 0, n) ==> Highest(spans) <= n
    decreases |spans|
  {
    if spans != [] && Within(spans, 0, n) {
      var t := spans[..|spans| - 1];
      forall i | 0 <= i < |t| ensures 0 <= t[i].off && t[i].off + t[i].n <= n { assert t[i] == spans[i]; }
      HighestIn(t, n);
    }
  }

  lemma {:induction false} LowestIn(spans: seq<Span>)
    requires spans != [] && forall k :: 0 <= k < |spans| ==> spans[k].off >= 0
    ensures Lowest(spans) >= 0
  {
    if |spans| > 1 { LowestIn(spans[..|spans| - 1]); }
  }
}
