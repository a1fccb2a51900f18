/** The n-gram drafter, src/cli/k3_run.c:270-304. */
module Draft {

  type Token = int

  const SPEC_MAX: nat := 8

  /** The last `n` tokens of `s` also stand at position `j`, with something after them. */
  ghost predicate Occurs(s: seq<Token>, n: nat, j: int)
  {
    0 <= j && j + n < |s| && s[j..j + n] == s[|s| - n..]
  }

  /** `d` repeats what followed the occurrence at `j`. */
  ghost predicate Follows(s: seq<Token>, n: nat, j: int, d: seq<Token>)
  {
    Occurs(s, n, j) && j + n + |d| <= |s| && d == s[j + n..j + n + |d|]
  }

  /** The drafter fires only on evidence: the most recent earlier occurrence of the last
      four (else three) tokens, and where there is a second most recent one, only as far as
      the two histories agree and the second has not run into the first. */
  ghost predicate Evidence(s: seq<Token>, n: nat, m1: int, m2: int, d: seq<Token>)
  {
    && Follows(s, n, m1, d)
    && (forall j :: m1 < j ==> !Occurs(s, n, j))
    && (forall j :: m2 < j < m1 ==> !Occurs(s, n, j))
    && (m2 >= 0 ==> m2 < m1 && Follows(s, n, m2, d) && (|d| > 0 ==> m2 + n + |d| <= m1))
  }

  /** The longest such draft of at most `cap` tokens. */
  ghost predicate Longest(s: seq<Token>, n: nat, m1: int, m2: int, cap: nat, d: seq<Token>)
  {
    |d| <= cap && Evidence(s, n, m1, m2, d) && forall d' :: |d'| <= cap && Evidence(s, n, m1, m2, d') ==> |d'| <= |d|
  }

  /** What the last `n` tokens call for: nothing if they never occurred before. */
  ghost predicate Proposal(s: seq<Token>, n: nat, cap: nat, d: seq<Token>)
  {
    if exists j :: Occurs(s, n, j) then exists m1, m2 :: Longest(s, n, m1, m2, cap, d) else d == []
  }

  lemma {:induction false} SameEvidence(s: seq<Token>, n: nat, m1: int, m2: int, k1: int, k2: int, d: seq<Token>,
      e: seq<Token>)
    requires Evidence(s, n, m1, m2, d) && Evidence(s, n, k1, k2, e)
    ensures m1 == k1 && Evidence(s, n, m1, m2, e)
  {
    assert Occurs(s, n, m1) && Occurs(s, n, k1);
  }

  /** There is one proposal for every sequence, length and cap. */
  lemma {:induction false} OneProposal(s: seq<Token>, n: nat, cap: nat, d: seq<Token>, e: seq<Token>)
    requires Proposal(s, n, cap, d) && Proposal(s, n, cap, e)
    ensures d == e
  {
    if exists j :: Occurs(s, n, j) {
      var m1, m2 :| Longest(s, n, m1, m2, cap, d);
      var k1, k2 :| Longest(s, n, k1, k2, cap, e);
      SameEvidence(s, n, m1, m2, k1, k2, d, e);
      SameEvidence(s, n, k1, k2, m1, m2, e, d);
    }
  }

  /** What a draft says of the histories behind it at each of its positions. */
  lemma {:induction false} Agreed(s: seq<Token>, n: nat, m1: int, m2: int, d: seq<Token>, k: nat)
    requires Evidence(s, n, m1, m2, d)
    ensures k < |d| ==> m1 + n + k < |s| && (m2 >= 0 ==> m2 + n + k < m1 && s[m2 + n + k] == s[m1 + n + k])
  {
    if k < |d| { assert d[k] == s[m1 + n + k]; }
    if k < |d| && m2 >= 0 { assert d[k] == s[m2 + n + k]; }
  }

  /** Nothing can be added where the drafter stops. */
  lemma {:induction false} StopsAtLongest(s: seq<Token>, n: nat, m1: int, m2: int, cap: nat, d: seq<Token>)
    requires |d| <= cap && Evidence(s, n, m1, m2, d)
    requires |d| == cap || m1 + n + |d| == |s| ||
      (m2 >= 0 && (m2 + n + |d| >= m1 || s[m2 + n + |d|] != s[m1 + n + |d|]))
    ensures Longest(s, n, m1, m2, cap, d)
  {
    forall d' | |d'| <= cap && Evidence(s, n, m1, m2, d') ensures |d'| <= |d| { Agreed(s, n, m1, m2, d', |d|); }
  }

  method Matches(s: seq<Token>, n: nat, j: nat) returns (hit: bool)
    requires 0 < n && j + n < |s|
    ensures hit <==> Occurs(s, n, j)
  {
    ghost var a, b := s[j..j + n], s[|s| - n..];
    hit := true;
    var i := 0;
    while i < n && hit
      invariant 0 <= i <= n
      invariant hit ==> a[..i] == b[..i]
      invariant !hit ==> a != b
    {
      if s[j + i] != s[|s| - n + i] {
        assert a[i] != b[i];
        hit := false;
      }
      i := i + 1;
    }
    assert a[..n] == a && b[..n] == b;
  }

  /** The two most recent earlier occurrences, or -1. */
  method Recent(s: seq<Token>, n: nat) returns (m1: int, m2: int)
    requires 0 < n < |s|
    ensures -1 <= m2 && -1 <= m1 && (m1 < 0 ==> m2 < 0)
    ensures m1 >= 0 ==> Occurs(s, n, m1)
    ensures m2 >= 0 ==> Occurs(s, n, m2) && m2 < m1
    ensures forall j :: m1 < j ==> !Occurs(s, n, j)
    ensures forall j :: m2 < j < m1 ==> !Occurs(s, n, j)
  {
    m1, m2 := -1, -1;
    var j := |s| - n - 1;
    while j >= 0 && m2 < 0
      invariant -1 <= j < |s| - n && -1 <= m1 && -1 <= m2
      invariant m1 < 0 ==> m2 < 0 && forall k :: j < k ==> !Occurs(s, n, k)
      invariant m1 >= 0 ==> j < m1 && Occurs(s, n, m1) && forall k :: m1 < k ==> !Occurs(s, n, k)
      invariant m1 >= 0 && m2 < 0 ==> forall k :: j < k < m1 ==> !Occurs(s, n, k)
      invariant m2 >= 0 ==> m2 < m1 && Occurs(s, n, m2) && forall k :: m2 < k < m1 ==> !Occurs(s, n, k)
      decreases j + 1
    {
      var hit := Matches(s, n, j);
      if hit {
        if m1 < 0 { m1 := j; } else { m2 := j; }
      }
      j := j - 1;
    }
  }

  method Propose(s: seq<Token>, n: nat, m1: int, m2: int, cap: nat) returns (d: seq<Token>)
    requires Occurs(s, n, m1) && (m2 >= 0 ==> Occurs(s, n, m2) && m2 < m1)
    requires forall j :: m1 < j ==> !Occurs(s, n, j)
    requires forall j :: m2 < j < m1 ==> !Occurs(s, n, j)
    ensures Longest(s, n, m1, m2, cap, d)
  {
    d := [];
    while |d| < cap && m1 + n + |d| < |s|
      invariant |d| <= cap && Evidence(s, n, m1, m2, d)
      decreases cap - |d|
    {
      var cand := s[m1 + n + |d|];
      if m2 >= 0 && (m2 + n + |d| >= m1 || s[m2 + n + |d|] != cand) {
        StopsAtLongest(s, n, m1, m2, cap, d);
        return;
      }
      d := d + [cand];
    }
    StopsAtLongest(s, n, m1, m2, cap, d);
  }

  /** One round of the loop over the match length. */
  method Try(s: seq<Token>, n: nat, cap: nat) returns (d: seq<Token>)
    requires n > 0
    ensures |d| <= cap && Proposal(s, n, cap, d)
  {
    d := [];
    if n < |s| {
      var m1, m2 := Recent(s, n);
      if m1 >= 0 {
        assert Occurs(s, n, m1);
        d := Propose(s, n, m1, m2, cap);
      } else {
        assert forall j :: Occurs(s, n, j) ==> m1 < j;
      }
    }
  }

  /** The drafts: what the last four tokens call for if that is anything, otherwise what the last
      three do; never more than `cap` and never more than eight. */
  method SpecDraft(s: seq<Token>, cap: nat) returns (d: seq<Token>)
    ensures |d| <= cap && |d| <= SPEC_MAX
    ensures var c := if cap > SPEC_MAX then SPEC_MAX else cap;
      (d != [] && Proposal(s, 4, c, d)) || (Proposal(s, 4, c, []) && Proposal(s, 3, c, d))
  {
    var c := if cap > SPEC_MAX then SPEC_MAX else cap;
    d := [];
    var n := 4;
    while n >= 3 && d == []
      invariant 2 <= n <= 4 && |d| <= c
      invariant d != [] ==> n < 4 && Proposal(s, n + 1, c, d)
      invariant forall k: nat :: n < k <= 4 && (d == [] || k > n + 1) ==> Proposal(s, k, c, [])
      decreases n
    {
      d := Try(s, n, c);
      n := n - 1;
    }
  }
}
