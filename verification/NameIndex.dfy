/** The open-addressed index over tensor names, src/io/k3_st.c:411-429 and 442-453. The hash is
    arbitrary: nothing below depends on how well it spreads. */
module NameIndex {
  import opened Bits

  type Name = seq<int>
  type Hash = Name -> nat

  ghost predicate Repeats(names: seq<Name>)
  {
    exists a, b :: 0 <= a < b < |names| && names[a] == names[b]
  }

  // ------------------------------------------------------------------- the table

  /** The slot `d` steps after the home of `name`, in a ring of 2^k slots. */
  ghost function Slot(h: Hash, k: nat, name: Name, d: nat): (j: nat)
    ensures j < Pow2(k)
  {
    (h(name) + d) % Pow2(k)
  }

  /** The first `d` slots from the home of `name` are taken, by other names. */
  ghost predicate Passed(h: Hash, k: nat, b: seq<int>, names: seq<Name>, name: Name, d: nat)
    requires |b| == Pow2(k) && forall j :: 0 <= j < |b| ==> b[j] < |names|
  {
    forall e :: 0 <= e < d ==> var j := Slot(h, k, name, e); b[j] >= 0 && names[b[j]] != name
  }

  /** Entry `i` sits `d` slots after its home, with no empty slot on the way. */
  ghost predicate Placed(h: Hash, k: nat, b: seq<int>, name: Name, i: nat, d: nat)
    requires |b| == Pow2(k)
  {
    b[Slot(h, k, name, d)] == i && forall e :: 0 <= e < d ==> b[Slot(h, k, name, e)] >= 0
  }

  ghost function Empties(b: seq<int>): set<nat> { set j: nat | j < |b| && b[j] < 0 }

  /** The table holds exactly `names`, each name once. */
  ghost predicate Holds(h: Hash, k: nat, b: seq<int>, names: seq<Name>, steps: seq<nat>)
  {
    && |b| == Pow2(k) && |steps| == |names|
    && (forall j :: 0 <= j < |b| ==> b[j] < |names|)
    && (forall i :: 0 <= i < |names| ==> Placed(h, k, b, names[i], i, steps[i]))
    && |Empties(b)| == |b| - |names|
    && !Repeats(names)
  }

  /** While a slot is empty every walk meets one. */
  lemma {:induction false} EmptyAhead(h: Hash, k: nat, b: seq<int>, names: seq<Name>, steps: seq<nat>, name: Name)
    returns (d: nat)
    requires Holds(h, k, b, names, steps) && |names| < |b|
    ensures b[Slot(h, k, name, d)] < 0
  {
    assert Empties(b) != {};
    var e :| e in Empties(b);
    d := ReachMod(h(name), e, Pow2(k));
  }

  /** An empty slot on the walk means the name is nowhere in the table. */
  lemma {:induction false} Absent(h: Hash, k: nat, b: seq<int>, names: seq<Name>, steps: seq<nat>, name: Name, d: nat)
    requires Holds(h, k, b, names, steps) && b[Slot(h, k, name, d)] < 0 && Passed(h, k, b, names, name, d)
    ensures name !in names
  {
    forall i | 0 <= i < |names| ensures names[i] != name {
      assert Placed(h, k, b, names[i], i, steps[i]);
    }
  }

  /** Taking the empty slot a walk ended at keeps every other entry reachable. */
  lemma {:induction false} Insert(h: Hash, k: nat, b: seq<int>, names: seq<Name>, steps: seq<nat>, name: Name, d: nat)
    requires Holds(h, k, b, names, steps) && b[Slot(h, k, name, d)] < 0 && Passed(h, k, b, names, name, d)
    ensures Holds(h, k, b[Slot(h, k, name, d) := |names|], names + [name], steps + [d])
  {
    var n, j := |names|, Slot(h, k, name, d);
    var b', names', steps' := b[j := n], names + [name], steps + [d];
    Absent(h, k, b, names, steps, name, d);
    forall i | 0 <= i <= n ensures Placed(h, k, b', names'[i], i, steps'[i]) {
      if i < n { assert Placed(h, k, b, names[i], i, steps[i]); }
    }
    assert Empties(b') == Empties(b) - {j};
  }

  lemma {:induction false} AllEmpty(h: Hash, k: nat, b: seq<int>)
    requires |b| == Pow2(k) && forall j :: 0 <= j < |b| ==> b[j] == -1
    ensures Holds(h, k, b, [], [])
  {
    assert Empties(b) == Below(|b|);
  }

  ghost function Below(n: nat): (s: set<nat>)
    ensures |s| == n && forall j :: j in s <==> 0 <= j < n
  {
    if n == 0 then {} else Below(n - 1) + {n - 1}
  }

  // ----------------------------------------------------------------- open and find

  class Index {
    const hash: Hash
    var names: seq<Name>
    var bucket: array?<int>
    ghost var k: nat
    ghost var steps: seq<nat>

    ghost predicate Valid()
      reads this, bucket
    {
      bucket != null ==>
        Holds(hash, k, bucket[..], names, steps) && 2 * |names| <= bucket.Length && bucket.Length >= 1024
    }

    constructor (h: Hash)
      ensures hash == h && bucket == null && Valid()
    {
      hash := h;
      bucket := null;
    }

    /** Walk from the home slot of `name` to its entry or to an empty slot. The walk ends: an
        empty slot is always ahead, wherever the walk wraps round. */
    method Probe(b: array<int>, name: Name, list: seq<Name>, ghost p: nat, ghost at: seq<nat>)
      returns (j: nat, ghost d: nat)
      requires Holds(hash, p, b[..], list, at) && |list| < b.Length
      ensures j < b.Length && j == Slot(hash, p, name, d) && Passed(hash, p, b[..], list, name, d)
      ensures b[j] >= 0 ==> list[b[j]] == name
    {
      j := And(hash(name), b.Length - 1);
      MaskIsMod(hash(name), p);
      d := 0;
      ghost var far := EmptyAhead(hash, p, b[..], list, at, name);
      while b[j] >= 0 && list[b[j]] != name
        invariant j == Slot(hash, p, name, d) && d <= far && Passed(hash, p, b[..], list, name, d)
        decreases far - d
      {
        NextMod(hash(name) + d, Pow2(p));
        MaskIsMod(j + 1, p);
        j := And(j + 1, b.Length - 1);
        d := d + 1;
      }
    }

    /** Enter the names in order, stopping at the first that is already there. */
    method Fill(b: array<int>, list: seq<Name>, ghost p: nat) returns (ok: bool, ghost at: seq<nat>)
      requires b.Length == Pow2(p) && 2 * |list| <= b.Length && b.Length >= 1
      requires forall j :: 0 <= j < b.Length ==> b[j] == -1
      modifies b
      ensures ok <==> !Repeats(list)
      ensures ok ==> Holds(hash, p, b[..], list, at)
    {
      at := [];
      AllEmpty(hash, p, b[..]);
      for i := 0 to |list|
        invariant Holds(hash, p, b[..], list[..i], at)
      {
        ghost var d;
        var j;
        j, d := Probe(b, list[i], list[..i], p, at);
        if b[j] >= 0 {
          assert list[b[j]] == list[i];
          return false, at;
        }
        Insert(hash, p, b[..], list[..i], at, list[i], d);
        assert list[..i + 1] == list[..i] + [list[i]];
        ghost var old_b := b[..];
        b[j] := i;
        assert b[..] == old_b[j := i];
        at := at + [d];
      }
      assert list[..|list|] == list;
      ok := true;
    }

    /** Opening fails on a repeated name exactly when there is one, and leaves no table then. */
    method Build(list: seq<Name>) returns (ok: bool)
      modifies this
      ensures Valid() && (ok <==> !Repeats(list))
      ensures if ok then bucket != null && fresh(bucket) && names == list else bucket == null
    {
      var nb := 1024;
      ghost var p := 10;
      assert Pow2(10) == 1024;
      while nb < |list| * 2
        invariant nb == Pow2(p) && nb >= 1024
        decreases |list| * 2 - nb
      {
        nb, p := nb * 2, p + 1;
      }
      var b := new int[nb](_ => -1);
      ghost var at;
      ok, at := Fill(b, list, p);
      if ok {
        names, bucket, k, steps := list, b, p, at;
      } else {
        names, bucket := [], null;
      }
    }

    /** The index answers what a linear search of the names would. */
    method Find(name: Name) returns (r: int)
      requires Valid()
      ensures bucket == null ==> r == -1
      ensures bucket != null ==> (if r >= 0 then r < |names| && names[r] == name else name !in names)
      ensures bucket != null ==> forall i :: 0 <= i < |names| && names[i] == name ==> i == r
    {
      if bucket == null { return -1; }
      var j;
      ghost var d;
      j, d := Probe(bucket, name, names, k, steps);
      r := bucket[j];
      if r < 0 {
        Absent(hash, k, bucket[..], names, steps, name, d);
        r := -1;
      }
    }
  }
}
