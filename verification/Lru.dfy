/** The online replays of tools/sim_cache.py, LRU (36-48) and pinned LRU (79-110): what they
    hold, when they hit, how they compare with each other and with the offline optimum. */
module Lru {
  import opened CachePolicy

  // --------------------------------------------------------------- ordered residents

  function Without(s: seq<Key>, k: Key): (r: seq<Key>)
    ensures |r| <= |s| && forall x :: x in r <==> x in s && x != k
  {
    if s == [] then [] else if s[0] == k then Without(s[1..], k) else [s[0]] + Without(s[1..], k)
  }

  ghost predicate NoDup(s: seq<Key>) { forall i, j :: 0 <= i < j < |s| ==> s[i] != s[j] }

  lemma {:induction false} WithoutConcat(a: seq<Key>, b: seq<Key>, k: Key)
    ensures Without(a + b, k) == Without(a, k) + Without(b, k)
  {
    if a == [] {
      assert a + b == b;
    } else {
      assert (a + b)[1..] == a[1..] + b;
      WithoutConcat(a[1..], b, k);
    }
  }

  lemma {:induction false} WithoutAbsent(s: seq<Key>, k: Key)
    requires k !in s
    ensures Without(s, k) == s
  {
    if s != [] { WithoutAbsent(s[1..], k); }
  }

  lemma {:induction false} WithoutPresent(s: seq<Key>, k: Key)
    requires NoDup(s)
    ensures NoDup(Without(s, k))
    ensures k in s ==> |Without(s, k)| == |s| - 1
  {
    if s != [] {
      assert s[0] !in s[1..];
      WithoutPresent(s[1..], k);
      if s[0] == k { WithoutAbsent(s[1..], k); }
    }
  }

  /** One LRU request, oldest key first: a hit moves to the end, a miss evicts the oldest. */
  function LruStep(cap: nat, seen: seq<Key>, k: Key): seq<Key>
    requires cap >= 1
  {
    if k in seen then Without(seen, k) + [k]
    else (if |seen| >= cap then seen[1..] else seen) + [k]
  }

  function LruState(cap: nat, trace: seq<Key>): seq<Key>
    requires cap >= 1
  {
    if trace == [] then [] else LruStep(cap, LruState(cap, trace[..|trace| - 1]), trace[|trace| - 1])
  }

  function LruHits(cap: nat, trace: seq<Key>): nat
    requires cap >= 1
  {
    if trace == [] then 0
    else
      var t, k := trace[..|trace| - 1], trace[|trace| - 1];
      LruHits(cap, t) + if k in LruState(cap, t) then 1 else 0
  }

  lemma Last(t: seq<Key>, k: Key)
    ensures (t + [k])[..|t + [k]| - 1] == t && (t + [k])[|t + [k]| - 1] == k
  {
  }

  lemma {:induction false} LruOne(cap: nat, t: seq<Key>, k: Key)
    requires cap >= 1
    ensures LruState(cap, t + [k]) == LruStep(cap, LruState(cap, t), k)
    ensures LruHits(cap, t + [k]) == LruHits(cap, t) + if k in LruState(cap, t) then 1 else 0
  {
    Last(t, k);
  }

  /** The replay as the script runs it. */
  method LruReplay(trace: seq<Key>, cap: nat) returns (hits: nat)
    requires cap >= 1
    ensures hits == LruHits(cap, trace)
  {
    var seen: seq<Key> := [];
    hits := 0;
    for i := 0 to |trace|
      invariant seen == LruState(cap, trace[..i]) && hits == LruHits(cap, trace[..i])
    {
      var k := trace[i];
      assert trace[..i + 1] == trace[..i] + [k];
      LruOne(cap, trace[..i], k);
      if k in seen {
        seen := Without(seen, k) + [k];
        hits := hits + 1;
      } else {
        if |seen| >= cap { seen := seen[1..]; }
        seen := seen + [k];
      }
    }
    assert trace[..|trace|] == trace;
  }

  // ------------------------------------------------------------- recency and inclusion

  /** Every key requested so far, least recently requested first: LRU with no capacity. */
  ghost function Recency(trace: seq<Key>): seq<Key>
  {
    if trace == [] then [] else Without(Recency(trace[..|trace| - 1]), trace[|trace| - 1]) + [trace[|trace| - 1]]
  }

  lemma {:induction false} RecencyKeys(trace: seq<Key>)
    ensures NoDup(Recency(trace)) && forall x :: x in Recency(trace) <==> x in trace
  {
    if trace != [] {
      var t, k := trace[..|trace| - 1], trace[|trace| - 1];
      RecencyKeys(t);
      WithoutPresent(Recency(t), k);
      assert trace == t + [k];
    }
  }

  ghost function Newest(s: seq<Key>, cap: nat): seq<Key> { if |s| <= cap then s else s[|s| - cap..] }

  lemma {:induction false} NewestHit(P: seq<Key>, S: seq<Key>, cap: nat, k: Key)
    requires cap >= 1 && NoDup(P + S) && k in S && |S| <= cap && (P == [] || |S| == cap)
    ensures LruStep(cap, S, k) == Newest(Without(P + S, k) + [k], cap)
  {
    assert k !in P;
    assert NoDup(S) by { assert (P + S)[|P|..] == S; }
    WithoutConcat(P, S, k);
    WithoutPresent(S, k);
    WithoutAbsent(P, k);
    assert Without(P + S, k) + [k] == P + (Without(S, k) + [k]);
  }

  lemma {:induction false} NewestMiss(P: seq<Key>, S: seq<Key>, cap: nat, k: Key)
    requires cap >= 1 && k !in S && |S| <= cap && (P == [] || |S| == cap)
    ensures LruStep(cap, S, k) == Newest(Without(P + S, k) + [k], cap)
  {
    WithoutConcat(P, S, k);
    WithoutAbsent(S, k);
    assert Without(P + S, k) + [k] == Without(P, k) + (S + [k]);
  }

  lemma {:induction false} NewestStep(R: seq<Key>, cap: nat, k: Key)
    requires cap >= 1 && NoDup(R)
    ensures LruStep(cap, Newest(R, cap), k) == Newest(Without(R, k) + [k], cap)
  {
    var S := Newest(R, cap);
    var P := R[..|R| - |S|];
    assert R == P + S;
    if k in S { NewestHit(P, S, cap, k); } else { NewestMiss(P, S, cap, k); }
  }

  /** An LRU cache of any size holds exactly the most recently used keys, in order. */
  lemma {:induction false} LruIsNewest(cap: nat, trace: seq<Key>)
    requires cap >= 1
    ensures LruState(cap, trace) == Newest(Recency(trace), cap)
  {
    if trace != [] {
      var t, k := trace[..|trace| - 1], trace[|trace| - 1];
      LruIsNewest(cap, t);
      RecencyKeys(t);
      NewestStep(Recency(t), cap, k);
    }
  }

  /** Inclusion: at every point of every trace the larger cache holds the smaller's keys. */
  lemma {:induction false} LruInclusion(small: nat, large: nat, trace: seq<Key>)
    requires 1 <= small <= large
    ensures forall k :: k in LruState(small, trace) ==> k in LruState(large, trace)
    ensures LruHits(small, trace) <= LruHits(large, trace)
  {
    LruIsNewest(small, trace);
    LruIsNewest(large, trace);
    var R := Recency(trace);
    forall k | k in Newest(R, small) ensures k in Newest(R, large) {
      if |R| > large {
        assert Newest(R, small) == Newest(R, large)[large - small..];
      }
    }
    if trace != [] { LruInclusion(small, large, trace[..|trace| - 1]); }
  }

  /** The distinct keys requested after the last request of `k`. */
  ghost function Since(trace: seq<Key>, k: Key): set<Key>
  {
    if trace == [] || trace[|trace| - 1] == k then {}
    else Since(trace[..|trace| - 1], k) + {trace[|trace| - 1]}
  }

  /** Keys standing after `k` in a list. */
  ghost predicate Trails(R: seq<Key>, i: nat, D: set<Key>)
    requires i < |R|
  {
    forall x :: x in D <==> x in R[i + 1..]
  }

  lemma {:induction false} RecencyRank(trace: seq<Key>, k: Key) returns (i: nat)
    requires k in trace
    ensures i < |Recency(trace)| && Recency(trace)[i] == k && Trails(Recency(trace), i, Since(trace, k))
  {
    var t, z := trace[..|trace| - 1], trace[|trace| - 1];
    assert trace == t + [z];
    if z == k {
      i := |Without(Recency(t), z)|;
    } else {
      var j := RecencyRank(t, k);
      var R := Recency(t);
      var A, B := R[..j], R[j + 1..];
      assert R == A + ([k] + B);
      WithoutConcat(A, [k] + B, z);
      WithoutConcat([k], B, z);
      i := |Without(A, z)|;
      assert Recency(trace) == Without(A, z) + ([k] + (Without(B, z) + [z]));
      assert Recency(trace)[i + 1..] == Without(B, z) + [z];
    }
  }

  lemma {:induction false} KeysOf(s: seq<Key>, D: set<Key>)
    requires NoDup(s) && forall x :: x in D <==> x in s
    ensures |D| == |s|
  {
    if s == [] {
      assert D == {};
    } else {
      var k := s[|s| - 1];
      KeysOf(s[..|s| - 1], D - {k});
    }
  }

  lemma InNewest(R: seq<Key>, cap: nat, i: nat)
    requires NoDup(R) && i < |R|
    ensures R[i] in Newest(R, cap) <==> |R| - i <= cap
  {
    var S := Newest(R, cap);
    assert forall j :: 0 <= j < |S| ==> S[j] == R[|R| - |S| + j];
    if |R| - i <= cap { assert S[i - (|R| - |S|)] == R[i]; }
  }

  /** Reuse distance: LRU of capacity `cap` holds a key exactly when it was requested before
      and fewer than `cap` distinct keys have been requested since. */
  lemma {:induction false} LruHolds(cap: nat, trace: seq<Key>, k: Key)
    requires cap >= 1
    ensures k in LruState(cap, trace) <==> k in trace && |Since(trace, k)| < cap
  {
    LruIsNewest(cap, trace);
    RecencyKeys(trace);
    if k in trace {
      var R := Recency(trace);
      var i := RecencyRank(trace, k);
      KeysOf(R[i + 1..], Since(trace, k));
      InNewest(R, cap, i);
    }
  }

  // -------------------------------------------------------- LRU is a legal schedule

  lemma {:induction false} LruSmall(cap: nat, trace: seq<Key>)
    requires cap >= 1
    ensures |LruState(cap, trace)| <= cap && NoDup(LruState(cap, trace))
  {
    LruIsNewest(cap, trace);
    RecencyKeys(trace);
  }

  ghost function Residents(cap: nat, trace: seq<Key>): set<Key>
    requires cap >= 1
  {
    set k | k in LruState(cap, trace)
  }

  /** A policy given by what it holds and how many hits it has had after each history. */
  ghost predicate Policy(cap: nat, held: seq<Key> -> set<Key>, hits: seq<Key> -> int)
  {
    && held([]) == {} && hits([]) == 0
    && (forall t :: |held(t)| <= cap)
    && (forall t, k :: Serves(held, hits, t, k))
  }

  ghost predicate Serves(held: seq<Key> -> set<Key>, hits: seq<Key> -> int, t: seq<Key>, k: Key)
  {
    held(t + [k]) <= held(t) + {k} && hits(t + [k]) == hits(t) + if k in held(t) then 1 else 0
  }

  ghost function Schedule(trace: seq<Key>, held: seq<Key> -> set<Key>): seq<set<Key>>
  {
    seq(|trace| + 1, n requires 0 <= n <= |trace| => held(trace[..n]))
  }

  lemma {:induction false} Counted(trace: seq<Key>, cap: nat, held: seq<Key> -> set<Key>, hits: seq<Key> -> int, n: nat)
    requires n <= |trace| && Policy(cap, held, hits)
    ensures hits(trace[..n]) == HitsSoFar(trace, Schedule(trace, held), n)
    decreases n
  {
    if n > 0 {
      Counted(trace, cap, held, hits, n - 1);
      assert trace[..n] == trace[..n - 1] + [trace[n - 1]];
      assert Serves(held, hits, trace[..n - 1], trace[n - 1]);
    } else {
      assert trace[..0] == [];
    }
  }

  /** A policy achieves its score as a legal schedule. */
  lemma {:induction false} PolicyLegal(trace: seq<Key>, cap: nat, held: seq<Key> -> set<Key>, hits: seq<Key> -> int)
    requires Policy(cap, held, hits)
    ensures Legal(trace, cap, Schedule(trace, held)) && HitsFrom(trace, Schedule(trace, held), 0) == hits(trace)
  {
    var S := Schedule(trace, held);
    assert trace[..0] == [];
    forall j | 0 <= j < |trace| ensures Moves(trace, S, j) {
      assert trace[..j + 1] == trace[..j] + [trace[j]];
      assert Serves(held, hits, trace[..j], trace[j]);
    }
    Counted(trace, cap, held, hits, |trace|);
    assert trace[..|trace|] == trace;
    SoFarAll(trace, S, |trace|);
  }

  lemma {:induction false} LruHeld(cap: nat, t: seq<Key>)
    requires cap >= 1
    ensures |Residents(cap, t)| <= cap
  {
    LruSmall(cap, t);
    KeysOf(LruState(cap, t), Residents(cap, t));
  }

  lemma {:induction false} LruAdmits(cap: nat, t: seq<Key>, k: Key)
    requires cap >= 1
    ensures Residents(cap, t + [k]) <= Residents(cap, t) + {k}
    ensures LruHits(cap, t + [k]) == LruHits(cap, t) + if k in Residents(cap, t) then 1 else 0
  {
    LruOne(cap, t, k);
  }

  /** LRU is one of the schedules the optimum is taken over. */
  lemma {:induction false} LruLegal(trace: seq<Key>, cap: nat) returns (S: seq<set<Key>>)
    requires cap >= 1
    ensures Legal(trace, cap, S) && HitsFrom(trace, S, 0) == LruHits(cap, trace)
  {
    var held, hits := t => Residents(cap, t), t => LruHits(cap, t);
    forall t ensures |held(t)| <= cap { LruHeld(cap, t); }
    forall t, k ensures Serves(held, hits, t, k) { LruAdmits(cap, t, k); }
    PolicyLegal(trace, cap, held, hits);
    S := Schedule(trace, held);
  }

  // -------------------------------------------------------------------- pinned LRU

  /** The requests whose being pinned is `pinned`, in order. */
  function Part(trace: seq<Key>, hot: set<Key>, pinned: bool): (r: seq<Key>)
    ensures forall x :: x in r <==> x in trace && (x in hot <==> pinned)
  {
    if trace == [] then []
    else
      var t, k := trace[..|trace| - 1], trace[|trace| - 1];
      if k in hot <==> pinned then Part(t, hot, pinned) + [k] else Part(t, hot, pinned)
  }

  function Only(trace: seq<Key>, hot: set<Key>): seq<Key> { Part(trace, hot, true) }

  function Rest(trace: seq<Key>, hot: set<Key>): seq<Key> { Part(trace, hot, false) }

  /** Hits on the pinned keys themselves: every request but the first. */
  function Gain(trace: seq<Key>, hot: set<Key>): int { |Only(trace, hot)| - |Distinct(Only(trace, hot))| }

  /** Pinned keys hit on every request but their first; the rest run through an LRU of what
      capacity is left, as if the pinned requests were not there. */
  function PinnedHits(room: nat, hot: set<Key>, trace: seq<Key>): int
    requires room >= 1
  {
    Gain(trace, hot) + LruHits(room, Rest(trace, hot))
  }

  lemma {:induction false} PartOne(t: seq<Key>, hot: set<Key>, pinned: bool, k: Key)
    ensures Part(t + [k], hot, pinned) ==
      if k in hot <==> pinned then Part(t, hot, pinned) + [k] else Part(t, hot, pinned)
  {
    Last(t, k);
  }

  lemma {:induction false} GainOne(hot: set<Key>, t: seq<Key>, k: Key)
    ensures Distinct(Only(t + [k], hot)) == if k in hot then Distinct(Only(t, hot)) + {k} else Distinct(Only(t, hot))
    ensures Gain(t + [k], hot) == Gain(t, hot) + if k in hot && k in t then 1 else 0
  {
    PartOne(t, hot, true, k);
    var D := Distinct(Only(t, hot));
    assert k in hot ==> Distinct(Only(t, hot) + [k]) == D + {k};
    assert k in D <==> k in hot && k in t;
    if k in D { assert D + {k} == D; }
  }

  lemma {:induction false} PinnedOne(room: nat, hot: set<Key>, t: seq<Key>, k: Key)
    requires room >= 1
    ensures Rest(t + [k], hot) == if k in hot then Rest(t, hot) else Rest(t, hot) + [k]
    ensures Distinct(Only(t + [k], hot)) == if k in hot then Distinct(Only(t, hot)) + {k} else Distinct(Only(t, hot))
    ensures PinnedHits(room, hot, t + [k]) == PinnedHits(room, hot, t) +
      if (if k in hot then k in t else k in LruState(room, Rest(t, hot))) then 1 else 0
  {
    PartOne(t, hot, false, k);
    GainOne(hot, t, k);
    LruOne(room, Rest(t, hot), k);
  }

  /** Requests for `k` in the trace. */
  function Count(trace: seq<Key>, k: Key): nat { multiset(trace)[k] }

  /** The `n` most requested keys, or all of them if there are fewer. */
  ghost predicate Hottest(trace: seq<Key>, n: nat, hot: set<Key>)
  {
    && hot <= Distinct(trace)
    && |hot| == (if n <= |Distinct(trace)| then n else |Distinct(trace)|)
    && forall a, b :: a in hot && b in trace && b !in hot ==> Count(trace, b) <= Count(trace, a)
  }

  method Hotter(trace: seq<Key>, todo: set<Key>) returns (best: Key)
    requires todo != {}
    ensures best in todo && forall k :: k in todo ==> Count(trace, k) <= Count(trace, best)
  {
    best :| best in todo;
    var left := todo;
    while left != {}
      invariant left <= todo && best in todo
      invariant forall k :: k in todo && k !in left ==> Count(trace, k) <= Count(trace, best)
      decreases |left|
    {
      var k :| k in left;
      if Count(trace, k) > Count(trace, best) { best := k; }
      left := left - {k};
    }
  }

  method MostCommon(trace: seq<Key>, n: nat) returns (hot: set<Key>)
    ensures Hottest(trace, n, hot)
  {
    var all := Distinct(trace);
    hot := {};
    while |hot| < n && hot != all
      invariant hot <= all && |hot| <= n
      invariant forall a, b :: a in hot && b in trace && b !in hot ==> Count(trace, b) <= Count(trace, a)
      decreases |all - hot|
    {
      var best := Hotter(trace, all - hot);
      hot := hot + {best};
    }
    Fits(hot, all);
  }

  lemma Fits(hot: set<Key>, all: set<Key>)
    requires hot <= all
    ensures |hot| <= |all| && (|hot| == |all| ==> hot == all)
  {
    assert all == hot + (all - hot);
  }

  ghost predicate PinnedAfter(room: nat, hot: set<Key>, t: seq<Key>, loaded: set<Key>, seen: seq<Key>, hits: nat)
    requires room >= 1
  {
    && loaded == Distinct(Only(t, hot)) && seen == LruState(room, Rest(t, hot))
    && hits == PinnedHits(room, hot, t)
  }

  /** One request: pinned keys first, then the LRU remainder. */
  method PinnedTurn(room: nat, hot: set<Key>, ghost t: seq<Key>, k: Key, loaded: set<Key>, seen: seq<Key>, hits: nat)
    returns (loaded': set<Key>, seen': seq<Key>, hits': nat)
    requires room >= 1 && PinnedAfter(room, hot, t, loaded, seen, hits)
    ensures PinnedAfter(room, hot, t + [k], loaded', seen', hits')
  {
    PinnedOne(room, hot, t, k);
    LruOne(room, Rest(t, hot), k);
    loaded', seen', hits' := loaded, seen, hits;
    if k in hot {
      if k in loaded { hits' := hits + 1; } else { loaded' := loaded + {k}; }
    } else if k in seen {
      seen' := Without(seen, k) + [k];
      hits' := hits + 1;
    } else {
      if |seen| >= room { seen' := seen[1..]; }
      seen' := seen' + [k];
    }
  }

  /** The replay as the script runs it, for the hot set it chose. */
  method PinnedReplay(trace: seq<Key>, cap: nat, npin: nat) returns (hits: nat, hot: set<Key>)
    requires cap >= 1
    ensures Hottest(trace, if npin >= cap then cap - 1 else npin, hot) && |hot| < cap
    ensures hits == PinnedHits(cap - |hot|, hot, trace)
  {
    var pins := MostCommon(trace, if npin >= cap then cap - 1 else npin);
    var room := if cap - |pins| > 1 then cap - |pins| else 1;
    var loaded, seen: seq<Key> := {}, [];
    hits, hot := 0, pins;
    for i := 0 to |trace|
      invariant PinnedAfter(room, pins, trace[..i], loaded, seen, hits)
    {
      assert trace[..i + 1] == trace[..i] + [trace[i]];
      loaded, seen, hits := PinnedTurn(room, pins, trace[..i], trace[i], loaded, seen, hits);
    }
    assert trace[..|trace|] == trace;
  }

  ghost function Held(room: nat, hot: set<Key>, t: seq<Key>): set<Key>
    requires room >= 1
  {
    Distinct(Only(t, hot)) + Residents(room, Rest(t, hot))
  }

  lemma UnionSize(a: set<Key>, b: set<Key>)
    ensures |a + b| <= |a| + |b|
  {
  }

  lemma {:induction false} HeldSmall(room: nat, hot: set<Key>, t: seq<Key>)
    requires room >= 1
    ensures |Held(room, hot, t)| <= |hot| + room
  {
    var H, L := Distinct(Only(t, hot)), LruState(room, Rest(t, hot));
    LruSmall(room, Rest(t, hot));
    KeysOf(L, Residents(room, Rest(t, hot)));
    Fits(H, hot);
    UnionSize(H, Residents(room, Rest(t, hot)));
  }

  lemma {:induction false} HeldOne(room: nat, hot: set<Key>, t: seq<Key>, k: Key)
    requires room >= 1
    ensures Held(room, hot, t + [k]) <= Held(room, hot, t) + {k}
    ensures PinnedHits(room, hot, t + [k]) == PinnedHits(room, hot, t) + if k in Held(room, hot, t) then 1 else 0
  {
    PinnedOne(room, hot, t, k);
    LruOne(room, Rest(t, hot), k);
    ResidentWanted(room, Rest(t, hot));
  }

  lemma {:induction false} ResidentWanted(room: nat, t: seq<Key>)
    requires room >= 1
    ensures Residents(room, t) <= Distinct(t)
  {
    forall k | k in Residents(room, t) ensures k in t { LruHolds(room, t, k); }
  }

  /** So is pinned LRU, whatever set is pinned: the first touch of a pinned key is paid for,
      and pinned and recent keys together never exceed the capacity. */
  lemma {:induction false} PinnedLegal(trace: seq<Key>, room: nat, hot: set<Key>) returns (S: seq<set<Key>>)
    requires room >= 1
    ensures Legal(trace, |hot| + room, S) && HitsFrom(trace, S, 0) == PinnedHits(room, hot, trace)
  {
    var held, hits := t => Held(room, hot, t), t => PinnedHits(room, hot, t);
    forall t ensures |held(t)| <= |hot| + room { HeldSmall(room, hot, t); }
    forall t, k ensures Serves(held, hits, t, k) { HeldOne(room, hot, t, k); }
    PolicyLegal(trace, |hot| + room, held, hits);
    S := Schedule(trace, held);
  }

  /** Neither online policy beats a bound on all schedules. */
  lemma {:induction false} NeitherBeats(trace: seq<Key>, cap: nat, hot: set<Key>, best: nat)
    requires cap >= 1 && |hot| < cap && forall S :: Legal(trace, cap, S) ==> HitsFrom(trace, S, 0) <= best
    ensures LruHits(cap, trace) <= best && PinnedHits(cap - |hot|, hot, trace) <= best
  {
    var L := LruLegal(trace, cap);
    var room := cap - |hot|;
    var P := PinnedLegal(trace, room, hot);
    assert Legal(trace, cap, P);
  }

  /** The three columns of the report, in order: neither online policy beats the optimum, and
      nothing beats requests minus distinct keys. */
  method Compare(trace: seq<Key>, cap: nat) returns (lru: nat, best: nat, pinned: nat, hot: set<Key>)
    requires cap >= 1
    ensures lru == LruHits(cap, trace) && lru <= best && pinned <= best
    ensures Hottest(trace, cap / 2, hot) && |hot| < cap && pinned == PinnedHits(cap - |hot|, hot, trace)
    ensures forall S :: Legal(trace, cap, S) ==> HitsFrom(trace, S, 0) <= best
    ensures best + |Distinct(trace)| <= |trace|
  {
    ghost var B;
    lru := LruReplay(trace, cap);
    best, B := Belady(trace, cap);
    pinned, hot := PinnedReplay(trace, cap, cap / 2);
    NeitherBeats(trace, cap, hot, best);
    Compulsory(trace, cap, B);
  }

  // ----------------------------------------------------- which keys to pin

  lemma {:induction false} OnlyStep(trace: seq<Key>, hot: set<Key>, x: Key)
    requires x in hot
    ensures |Only(trace, hot)| == |Only(trace, hot - {x})| + Count(trace, x)
  {
    if trace != [] {
      var t, k := trace[..|trace| - 1], trace[|trace| - 1];
      OnlyStep(t, hot, x);
      assert trace == t + [k];
    }
  }

  lemma {:induction false} GainStep(trace: seq<Key>, hot: set<Key>, x: Key)
    requires x in hot
    ensures Gain(trace, hot) == Gain(trace, hot - {x}) + if x in trace then Count(trace, x) - 1 else 0
  {
    OnlyStep(trace, hot, x);
    var D, E := Distinct(Only(trace, hot)), Distinct(Only(trace, hot - {x}));
    assert E == D - {x};
  }

  lemma {:induction false} OnlyNone(trace: seq<Key>)
    ensures Only(trace, {}) == []
  {
    if trace != [] { OnlyNone(trace[..|trace| - 1]); }
  }

  lemma {:induction false} GainAtLeast(trace: seq<Key>, hot: set<Key>)
    ensures Gain(trace, hot) >= 0
    ensures hot == {} ==> Gain(trace, hot) == 0
  {
    if hot == {} {
      OnlyNone(trace);
    } else {
      var x :| x in hot;
      GainStep(trace, hot, x);
      GainAtLeast(trace, hot - {x});
    }
  }

  /** Of all sets of its size, the hottest keys win the most hits by being pinned. */
  lemma {:induction false} HottestGainsMost(trace: seq<Key>, hot: set<Key>, other: set<Key>)
    requires |other| <= |hot|
    requires forall a, b :: a in hot && b in other && b in trace && b !in hot ==> Count(trace, b) <= Count(trace, a)
    requires forall a :: a in hot ==> a in trace
    ensures Gain(trace, other) <= Gain(trace, hot)
    decreases |other|
  {
    GainAtLeast(trace, hot);
    GainAtLeast(trace, other);
    if other != {} {
      var b :| b in other;
      GainStep(trace, other, b);
      if b in hot {
        GainStep(trace, hot, b);
        HottestGainsMost(trace, hot - {b}, other - {b});
      } else {
        assert hot <= other ==> hot <= other - {b};
        if hot <= other { Fits(hot, other - {b}); }
        var a :| a in hot && a !in other;
        GainStep(trace, hot, a);
        HottestGainsMost(trace, hot - {a}, other - {b});
      }
    }
  }

  // -------------------------------------------------------------------- cyclic scans

  /** `rounds` passes over the same keys in the same order. */
  function Cycle(keys: seq<Key>, rounds: nat): seq<Key>
  {
    if rounds == 0 then [] else Cycle(keys, rounds - 1) + keys
  }

  lemma {:induction false} CycleSize(keys: seq<Key>, rounds: nat)
    ensures |Cycle(keys, rounds)| == rounds * |keys|
  {
    if rounds > 0 { CycleSize(keys, rounds - 1); }
  }

  lemma {:induction false} SinceAfter(t: seq<Key>, k: Key, u: seq<Key>)
    requires k !in u
    ensures Since(t + [k] + u, k) == Distinct(u)
  {
    var w := t + [k] + u;
    if u == [] {
      assert w == t + [k];
    } else {
      var v := u[..|u| - 1];
      assert w[..|w| - 1] == t + [k] + v;
      SinceAfter(t, k, v);
      assert Distinct(u) == Distinct(v) + {u[|u| - 1]} by { assert u == v + [u[|u| - 1]]; }
    }
  }

  /** After whole rounds and the first `j` keys of the next, the key about to come was last
      seen one full round ago. */
  lemma {:induction false} ScanSince(keys: seq<Key>, rounds: nat, j: nat)
    requires NoDup(keys) && j < |keys|
    ensures rounds == 0 ==> keys[j] !in Cycle(keys, 0) + keys[..j]
    ensures rounds > 0 ==> |Since(Cycle(keys, rounds) + keys[..j], keys[j])| == |keys| - 1
  {
    if rounds > 0 {
      var k, u := keys[j], keys[j + 1..] + keys[..j];
      var t := Cycle(keys, rounds - 1) + keys[..j];
      assert keys == keys[..j] + [k] + keys[j + 1..];
      assert Cycle(keys, rounds) + keys[..j] == t + [k] + u;
      SinceAfter(t, k, u);
      KeysOf(u, Distinct(u));
    }
  }

  ghost function Scanned(keys: seq<Key>, rounds: nat, j: nat): seq<Key>
    requires j <= |keys|
  {
    Cycle(keys, rounds) + keys[..j]
  }

  ghost predicate NoGain(keys: seq<Key>, hits: seq<Key> -> int, rounds: nat, j: nat)
    requires j < |keys|
  {
    hits(Scanned(keys, rounds, j + 1)) == hits(Scanned(keys, rounds, j))
  }

  lemma {:induction false} NextRound(keys: seq<Key>, rounds: nat)
    ensures Scanned(keys, 0, 0) == []
    ensures rounds > 0 ==> Scanned(keys, rounds, 0) == Scanned(keys, rounds - 1, |keys|)
  {
    assert keys[..0] == [] && keys[..|keys|] == keys;
  }

  lemma {:induction false} NeverGains(keys: seq<Key>, hits: seq<Key> -> int, rounds: nat, j: nat)
    requires j <= |keys| && hits([]) == 0 && forall r: nat, i: nat :: i < |keys| ==> NoGain(keys, hits, r, i)
    ensures hits(Scanned(keys, rounds, j)) == 0
    decreases rounds, j
  {
    NextRound(keys, rounds);
    if j > 0 {
      NeverGains(keys, hits, rounds, j - 1);
      assert NoGain(keys, hits, rounds, j - 1);
    } else if rounds > 0 {
      NeverGains(keys, hits, rounds - 1, |keys|);
    }
  }

  lemma {:induction false} Absent(keys: seq<Key>, rounds: nat, j: nat, cap: nat)
    requires NoDup(keys) && j < |keys| && 1 <= cap < |keys|
    ensures keys[j] !in LruState(cap, Scanned(keys, rounds, j))
  {
    ScanSince(keys, rounds, j);
    LruHolds(cap, Scanned(keys, rounds, j), keys[j]);
  }

  lemma {:induction false} ScannedNext(keys: seq<Key>, rounds: nat, j: nat)
    requires j < |keys|
    ensures Scanned(keys, rounds, j + 1) == Scanned(keys, rounds, j) + [keys[j]]
  {
  }

  lemma {:induction false} MissKeeps(cap: nat, t: seq<Key>, k: Key, t': seq<Key>)
    requires cap >= 1 && k !in LruState(cap, t) && t' == t + [k]
    ensures LruHits(cap, t') == LruHits(cap, t)
  {
    LruOne(cap, t, k);
  }

  lemma {:induction false} ScanMiss(keys: seq<Key>, rounds: nat, j: nat, cap: nat)
    requires NoDup(keys) && j < |keys| && 1 <= cap < |keys|
    ensures LruHits(cap, Scanned(keys, rounds, j + 1)) == LruHits(cap, Scanned(keys, rounds, j))
  {
    Absent(keys, rounds, j, cap);
    ScannedNext(keys, rounds, j);
    MissKeeps(cap, Scanned(keys, rounds, j), keys[j], Scanned(keys, rounds, j + 1));
  }

  lemma {:induction false} ScanMisses(keys: seq<Key>, rounds: nat, cap: nat)
    requires NoDup(keys) && 1 <= cap < |keys|
    ensures LruHits(cap, Cycle(keys, rounds)) == 0
  {
    var hits := t => if cap >= 1 then LruHits(cap, t) else 0;
    forall r: nat, i: nat | i < |keys| ensures NoGain(keys, hits, r, i) { ScanMiss(keys, r, i, cap); }
    NeverGains(keys, hits, rounds, 0);
    assert Scanned(keys, rounds, 0) == Cycle(keys, rounds);
  }

  lemma {:induction false} PartConcat(a: seq<Key>, b: seq<Key>, hot: set<Key>, pinned: bool)
    ensures Part(a + b, hot, pinned) == Part(a, hot, pinned) + Part(b, hot, pinned)
  {
    if b == [] {
      assert a + b == a;
    } else {
      assert (a + b)[..|a + b| - 1] == a + b[..|b| - 1];
      PartConcat(a, b[..|b| - 1], hot, pinned);
    }
  }

  ghost predicate Distributes(f: seq<Key> -> seq<Key>, a: seq<Key>, b: seq<Key>) { f(a + b) == f(a) + f(b) }

  lemma {:induction false} CycleImage(keys: seq<Key>, rounds: nat, f: seq<Key> -> seq<Key>)
    requires f([]) == [] && forall a, b :: Distributes(f, a, b)
    ensures f(Cycle(keys, rounds)) == Cycle(f(keys), rounds)
  {
    if rounds > 0 {
      CycleImage(keys, rounds - 1, f);
      assert Distributes(f, Cycle(keys, rounds - 1), keys);
    }
  }

  lemma {:induction false} PartCycle(keys: seq<Key>, rounds: nat, hot: set<Key>, pinned: bool)
    ensures Part(Cycle(keys, rounds), hot, pinned) == Cycle(Part(keys, hot, pinned), rounds)
  {
    var f := t => Part(t, hot, pinned);
    forall a, b ensures Distributes(f, a, b) { PartConcat(a, b, hot, pinned); }
    CycleImage(keys, rounds, f);
  }

  lemma {:induction false} SplitSizes(keys: seq<Key>, hot: set<Key>)
    requires NoDup(keys)
    ensures NoDup(Only(keys, hot)) && NoDup(Rest(keys, hot))
    ensures |Only(keys, hot)| + |Rest(keys, hot)| == |keys|
  {
    if keys != [] {
      var t, k := keys[..|keys| - 1], keys[|keys| - 1];
      SplitSizes(t, hot);
      assert keys == t + [k];
    }
  }

  lemma {:induction false} CycleKeys(keys: seq<Key>, rounds: nat)
    requires rounds >= 1
    ensures Distinct(Cycle(keys, rounds)) == Distinct(keys)
  {
    if rounds > 1 { CycleKeys(keys, rounds - 1); }
    assert rounds == 1 ==> Cycle(keys, 0) + keys == keys;
  }

  /** The scan that collapses LRU: with one slot too few it never hits, while pinning any `hot`
      part of the scan hits on exactly that part in every round but the first. */
  lemma {:induction false} CyclicScan(keys: seq<Key>, rounds: nat, cap: nat, hot: set<Key>)
    requires NoDup(keys) && 1 <= cap < |keys| && rounds >= 1
    requires hot <= Distinct(keys) && |hot| < cap
    ensures LruHits(cap, Cycle(keys, rounds)) == 0
    ensures PinnedHits(cap - |hot|, hot, Cycle(keys, rounds)) == |hot| * (rounds - 1)
  {
    var trace := Cycle(keys, rounds);
    ScanMisses(keys, rounds, cap);
    PartCycle(keys, rounds, hot, true);
    PartCycle(keys, rounds, hot, false);
    SplitSizes(keys, hot);
    var H, L := Only(keys, hot), Rest(keys, hot);
    KeysOf(H, hot);
    CycleKeys(H, rounds);
    CycleSize(H, rounds);
    KeysOf(H, Distinct(H));
    ScanMisses(L, rounds, cap - |hot|);
    assert rounds * |hot| - |hot| == |hot| * (rounds - 1);
  }

  /** The script's own run on a cyclic scan: exactly the capped number of pins pays off. */
  method ScanReplay(keys: seq<Key>, rounds: nat, cap: nat, npin: nat) returns (lru: nat, pinned: nat)
    requires NoDup(keys) && 1 <= cap < |keys| && rounds >= 1
    ensures lru == 0 && pinned == (if npin >= cap then cap - 1 else npin) * (rounds - 1)
  {
    var trace := Cycle(keys, rounds);
    lru := LruReplay(trace, cap);
    ghost var hot;
    pinned, hot := PinnedReplay(trace, cap, npin);
    CycleKeys(keys, rounds);
    KeysOf(keys, Distinct(keys));
    CyclicScan(keys, rounds, cap, hot);
  }

  // ------------------------------------------- when the hottest keys are the best to pin

  lemma {:induction false} CycleNone(rounds: nat)
    ensures Cycle([], rounds) == []
  {
    if rounds > 0 { CycleNone(rounds - 1); }
  }

  lemma {:induction false} PartAll(s: seq<Key>, hot: set<Key>, pinned: bool)
    requires forall k :: k in s ==> (k in hot <==> pinned)
    ensures Part(s, hot, pinned) == s && Part(s, hot, !pinned) == []
  {
    if s != [] {
      assert s == s[..|s| - 1] + [s[|s| - 1]];
      PartAll(s[..|s| - 1], hot, pinned);
    }
  }

  ghost predicate Apart(a: seq<Key>, b: seq<Key>) { NoDup(a) && NoDup(b) && forall k :: k in b ==> k !in a }

  lemma {:induction false} NoDupParts(a: seq<Key>, b: seq<Key>)
    requires NoDup(a + b)
    ensures Apart(a, b)
  {
    assert forall i :: 0 <= i < |a| ==> (a + b)[i] == a[i];
    assert forall i :: 0 <= i < |b| ==> (a + b)[|a| + i] == b[i];
  }

  lemma {:induction false} ApartSize(a: seq<Key>, b: seq<Key>)
    requires Apart(a, b)
    ensures |Distinct(a) + Distinct(b)| == |a| + |b| && |Distinct(a)| == |a|
  {
    KeysOf(a, Distinct(a));
    KeysOf(b, Distinct(b));
    assert Distinct(a) !! Distinct(b);
  }

  /** A trace in two phases: some keys `m` times over, then others `n` times. */
  function Phases(a: seq<Key>, m: nat, b: seq<Key>, n: nat): seq<Key> { Cycle(a, m) + Cycle(b, n) }

  lemma {:induction false} PhasesPart(a: seq<Key>, m: nat, b: seq<Key>, n: nat, hot: set<Key>, pinned: bool)
    ensures Part(Phases(a, m, b, n), hot, pinned) == Phases(Part(a, hot, pinned), m, Part(b, hot, pinned), n)
  {
    PartConcat(Cycle(a, m), Cycle(b, n), hot, pinned);
    PartCycle(a, m, hot, pinned);
    PartCycle(b, n, hot, pinned);
  }

  /** Requests of `size` keys after the first of `rounds` rounds. */
  function Again(rounds: nat, size: nat): nat { if rounds <= 1 then 0 else Again(rounds - 1, size) + size }

  lemma {:induction false} CycleAgain(keys: seq<Key>, rounds: nat)
    requires rounds >= 1
    ensures |Cycle(keys, rounds)| == |keys| + Again(rounds, |keys|)
  {
    if rounds > 1 { CycleAgain(keys, rounds - 1); }
  }

  lemma {:induction false} AgainOneMore(rounds: nat, size: nat)
    requires rounds >= 1
    ensures Again(rounds, 0) == 0 && Again(rounds, size + 1) == Again(rounds, size) + rounds - 1
  {
    if rounds > 1 { AgainOneMore(rounds - 1, size); }
  }

  lemma {:induction false} PhasesKeys(a: seq<Key>, m: nat, b: seq<Key>, n: nat)
    requires m >= 1 && n >= 1
    ensures Distinct(Phases(a, m, b, n)) == Distinct(a) + Distinct(b)
    ensures |Phases(a, m, b, n)| == |a| + |b| + Again(m, |a|) + Again(n, |b|)
  {
    CycleKeys(a, m);
    CycleKeys(b, n);
    CycleAgain(a, m);
    CycleAgain(b, n);
    assert Distinct(Phases(a, m, b, n)) == Distinct(Cycle(a, m)) + Distinct(Cycle(b, n));
  }

  lemma {:induction false} CountOnce(keys: seq<Key>, k: Key)
    requires NoDup(keys)
    ensures Count(keys, k) == if k in keys then 1 else 0
  {
    if keys != [] {
      var t, z := keys[..|keys| - 1], keys[|keys| - 1];
      CountOnce(t, k);
      assert keys == t + [z];
    }
  }

  lemma {:induction false} CountCycle(keys: seq<Key>, rounds: nat, k: Key)
    requires NoDup(keys)
    ensures Count(Cycle(keys, rounds), k) == if k in keys then rounds else 0
  {
    if rounds > 0 {
      CountCycle(keys, rounds - 1, k);
      CountOnce(keys, k);
    }
  }

  lemma {:induction false} PhasesCount(a: seq<Key>, m: nat, b: seq<Key>, n: nat, k: Key)
    requires Apart(a, b)
    ensures Count(Phases(a, m, b, n), k) == if k in a then m else if k in b then n else 0
  {
    CountCycle(a, m, k);
    CountCycle(b, n, k);
  }

  /** The keys of the longer phase are the hottest, without ties. */
  lemma {:induction false} PhasesHot(a: seq<Key>, m: nat, b: seq<Key>, n: nat)
    requires Apart(a, b) && m > n >= 1
    ensures Hottest(Phases(a, m, b, n), |a|, Distinct(a))
  {
    PhasesKeys(a, m, b, n);
    ApartSize(a, b);
    forall x, y | x in a && y in b ensures Count(Phases(a, m, b, n), y) <= Count(Phases(a, m, b, n), x) {
      PhasesCount(a, m, b, n, x);
      PhasesCount(a, m, b, n, y);
    }
    assert forall y :: y in Phases(a, m, b, n) ==> y in Distinct(Phases(a, m, b, n));
  }

  lemma {:induction false} HitsGrow(cap: nat, u: seq<Key>, v: seq<Key>)
    requires cap >= 1
    ensures LruHits(cap, u) <= LruHits(cap, u + v)
  {
    if v == [] {
      assert u + v == u;
    } else {
      var w := v[..|v| - 1];
      assert u + v == (u + w) + [v[|v| - 1]];
      LruOne(cap, u + w, v[|v| - 1]);
      HitsGrow(cap, u, w);
    }
  }

  lemma {:induction false} PhasesGain(hot: set<Key>, trace: seq<Key>, a: seq<Key>, m: nat, b: seq<Key>, n: nat)
    requires m >= 1 && n >= 1 && Apart(a, b) && Only(trace, hot) == Phases(a, m, b, n)
    ensures Gain(trace, hot) == Again(m, |a|) + if b == [] then 0 else if |b| == 1 then n - 1 else Again(n, |b|)
  {
    PhasesKeys(a, m, b, n);
    ApartSize(a, b);
    AgainOneMore(n, 0);
  }

  /** The hits of pinned LRU from its two parts. */
  lemma {:induction false} PinnedIs(room: nat, hot: set<Key>, trace: seq<Key>, rest: seq<Key>, gain: int, hits: nat)
    requires room >= 1 && Gain(trace, hot) == gain && Rest(trace, hot) == rest && LruHits(room, rest) >= hits
    ensures PinnedHits(room, hot, trace) >= gain + hits
    ensures LruHits(room, rest) == hits ==> PinnedHits(room, hot, trace) == gain + hits
  {
  }

  lemma {:induction false} PhasesApart(a: seq<Key>, m: nat, b: seq<Key>, n: nat, pinned: bool)
    requires Apart(a, b)
    ensures Part(Phases(a, m, b, n), Distinct(a), pinned) == if pinned then Phases(a, m, [], n) else Phases([], m, b, n)
  {
    PhasesPart(a, m, b, n, Distinct(a), pinned);
    PartAll(a, Distinct(a), true);
    PartAll(b, Distinct(a), false);
  }

  lemma {:induction false} PhasesRest(a: seq<Key>, m: nat, b: seq<Key>, n: nat)
    requires Apart(a, b)
    ensures Rest(Phases(a, m, b, n), Distinct(a)) == Cycle(b, n)
  {
    PhasesApart(a, m, b, n, false);
    CycleNone(m);
  }

  /** Pinning the first phase: its repeats hit, and the second phase is a scan one key too
      large for what is left. */
  lemma {:induction false} PinFirst(a: seq<Key>, m: nat, b: seq<Key>, n: nat, room: nat)
    requires Apart(a, b) && |b| == room + 1 && room >= 1 && m >= 1 && n >= 1
    ensures PinnedHits(room, Distinct(a), Phases(a, m, b, n)) == Again(m, |a|)
  {
    var hot, trace := Distinct(a), Phases(a, m, b, n);
    PhasesApart(a, m, b, n, true);
    PhasesGain(hot, trace, a, m, [], n);
    PhasesRest(a, m, b, n);
    ScanMisses(b, n, room);
    PinnedIs(room, hot, trace, Cycle(b, n), Gain(trace, hot), 0);
  }

  /** Pinning one key `c` of the scan instead of the hot key `z`. */
  ghost predicate Sheds(hot: set<Key>, a: seq<Key>, z: Key, c: Key, b: seq<Key>)
  {
    Apart(a + [z], [c] + b) && hot == Distinct(a) + {c}
  }

  lemma {:induction false} ShedKeys(hot: set<Key>, a: seq<Key>, z: Key, c: Key, b: seq<Key>)
    requires Sheds(hot, a, z, c, b)
    ensures Apart(a, [c])
    ensures z !in hot && forall k :: k in b ==> k !in hot
  {
    NoDupParts(a, [z]);
    NoDupParts([c], b);
    assert c in [c] + b;
    forall k | k in a ensures k != c { assert k in a + [z]; }
    forall k | k in b ensures k !in a && k != c { assert k in [c] + b; }
    assert z in a + [z];
  }

  lemma {:induction false} ShedParts(hot: set<Key>, a: seq<Key>, z: Key, c: Key, b: seq<Key>, pinned: bool)
    requires Sheds(hot, a, z, c, b)
    ensures Part(a + [z], hot, pinned) == if pinned then a else [z]
    ensures Part([c] + b, hot, pinned) == if pinned then [c] else b
  {
    ShedKeys(hot, a, z, c, b);
    PartConcat(a, [z], hot, pinned);
    PartConcat([c], b, hot, pinned);
    PartAll(a, hot, true);
    PartAll([z], hot, false);
    PartAll([c], hot, true);
    PartAll(b, hot, false);
  }

  lemma {:induction false} LruSingle(cap: nat, z: Key, m: nat)
    requires cap >= 1 && m >= 1
    ensures LruHits(cap, Cycle([z], m)) == m - 1 && LruState(cap, Cycle([z], m)) == [z]
  {
    LruOne(cap, Cycle([z], m - 1), z);
    if m > 1 { LruSingle(cap, z, m - 1); }
  }

  lemma {:induction false} LruAtLeast(cap: nat, z: Key, m: nat, b: seq<Key>, n: nat)
    requires cap >= 1 && m >= 1
    ensures LruHits(cap, Phases([z], m, b, n)) >= m - 1
  {
    LruSingle(cap, z, m);
    HitsGrow(cap, Cycle([z], m), Cycle(b, n));
  }

  lemma {:induction false} ShedPhases(hot: set<Key>, a: seq<Key>, m: nat, z: Key, c: Key, b: seq<Key>, n: nat,
      pinned: bool)
    requires Sheds(hot, a, z, c, b)
    ensures Part(Phases(a + [z], m, [c] + b, n), hot, pinned) ==
      if pinned then Phases(a, m, [c], n) else Phases([z], m, b, n)
  {
    ShedParts(hot, a, z, c, b, pinned);
    PhasesPart(a + [z], m, [c] + b, n, hot, pinned);
  }

  lemma {:induction false} PinSecond(hot: set<Key>, a: seq<Key>, m: nat, z: Key, c: Key, b: seq<Key>, n: nat, room: nat)
    requires Sheds(hot, a, z, c, b) && room >= 1 && m >= 1 && n >= 1
    ensures PinnedHits(room, hot, Phases(a + [z], m, [c] + b, n)) >= Again(m, |a|) + (n - 1) + (m - 1)
  {
    var trace := Phases(a + [z], m, [c] + b, n);
    ShedKeys(hot, a, z, c, b);
    ShedPhases(hot, a, m, z, c, b, n, true);
    ShedPhases(hot, a, m, z, c, b, n, false);
    PhasesGain(hot, trace, a, m, [c], n);
    LruAtLeast(room, z, m, b, n);
    PinnedIs(room, hot, trace, Phases([z], m, b, n), Again(m, |a|) + (n - 1), m - 1);
  }

  /** Pinning `other` gives more hits than pinning `hot`. */
  ghost predicate Beaten(trace: seq<Key>, cap: nat, hot: set<Key>, other: set<Key>)
    requires |hot| < cap && |other| < cap
  {
    PinnedHits(cap - |hot|, hot, trace) < PinnedHits(cap - |other|, other, trace)
  }

  lemma {:induction false} SwapPaysOff(hot: set<Key>, a: seq<Key>, m: nat, z: Key, c: Key, b: seq<Key>, n: nat,
      room: nat)
    requires Sheds(hot, a, z, c, b) && room == |b| >= 1 && m > n >= 2
    ensures var trace := Phases(a + [z], m, [c] + b, n);
      PinnedHits(room, Distinct(a + [z]), trace) < PinnedHits(room, hot, trace)
  {
    AgainOneMore(m, |a|);
    PinFirst(a + [z], m, [c] + b, n, room);
    PinSecond(hot, a, m, z, c, b, n, room);
  }

  lemma {:induction false} BeatenBy(trace: seq<Key>, cap: nat, hot: set<Key>, other: set<Key>, room: nat)
    requires |hot| == |other| && cap == |hot| + room && room >= 1
    requires PinnedHits(room, hot, trace) < PinnedHits(room, other, trace)
    ensures Beaten(trace, cap, hot, other)
  {
    assert cap - |hot| == room;
  }

  lemma {:induction false} ShedSize(hot: set<Key>, a: seq<Key>, z: Key, c: Key, b: seq<Key>)
    requires Sheds(hot, a, z, c, b)
    ensures |hot| == |Distinct(a + [z])| == |a| + 1
  {
    ShedKeys(hot, a, z, c, b);
    ApartSize(a, [c]);
    assert Distinct([c]) == {c};
    ApartSize(a + [z], [c] + b);
  }

  lemma {:induction false} Carve(keys: seq<Key>, cap: nat, k: nat) returns (a: seq<Key>, z: Key, c: Key, b: seq<Key>)
    requires NoDup(keys) && 1 <= k < cap < |keys|
    ensures |a| + 1 == k && |a| + 1 + |b| == cap && Apart(a + [z], [c] + b)
    ensures Distinct(a + [z]) + Distinct([c] + b) <= Distinct(keys)
  {
    a, z, c, b := keys[..k - 1], keys[k - 1], keys[k], keys[k + 1..cap + 1];
    var u, v, w := a + [z], [c] + b, keys[cap + 1..];
    assert keys == (u + v) + w;
    NoDupParts(u + v, w);
    NoDupParts(u, v);
  }

  lemma {:induction false} SwapBeats(a: seq<Key>, m: nat, z: Key, c: Key, b: seq<Key>, n: nat, k: nat, cap: nat)
    returns (trace: seq<Key>, hot: set<Key>, other: set<Key>)
    requires Apart(a + [z], [c] + b) && |b| >= 1 && m > n >= 2 && k == |a| + 1 && cap == k + |b|
    ensures Distinct(trace) == Distinct(a + [z]) + Distinct([c] + b) && Hottest(trace, k, hot)
    ensures |hot| == |other| == k && Beaten(trace, cap, hot, other)
  {
    trace, hot, other := Phases(a + [z], m, [c] + b, n), Distinct(a + [z]), Distinct(a) + {c};
    SwapPaysOff(other, a, m, z, c, b, n, |b|);
    ShedSize(other, a, z, c, b);
    BeatenBy(trace, cap, hot, other, |b|);
    PhasesKeys(a + [z], m, [c] + b, n);
    PhasesHot(a + [z], m, [c] + b, n);
  }

  /** For every number of pins and every room beside them there is a trace, with no ties, on
      which the hottest keys are beaten: some keys three times over, then two rounds over one key
      more than the room holds. */
  lemma {:induction false} HottestNotBest(keys: seq<Key>, cap: nat, k: nat)
    returns (trace: seq<Key>, hot: set<Key>, other: set<Key>)
    requires NoDup(keys) && 1 <= k < cap < |keys|
    ensures Distinct(trace) <= Distinct(keys) && Hottest(trace, k, hot)
    ensures |hot| == |other| == k && Beaten(trace, cap, hot, other)
  {
    var a, z, c, b := Carve(keys, cap, k);
    trace, hot, other := SwapBeats(a, 3, z, c, b, 2, k, cap);
  }

  lemma {:induction false} SinceKeys(t: seq<Key>, k: Key)
    ensures Since(t, k) <= Distinct(t) - {k}
  {
    if t != [] { SinceKeys(t[..|t| - 1], k); }
  }

  /** An LRU cache with room for every key misses only first requests. */
  lemma {:induction false} LruRoomy(cap: nat, t: seq<Key>)
    requires cap >= 1 && |Distinct(t)| <= cap
    ensures LruHits(cap, t) == |t| - |Distinct(t)|
  {
    if t != [] {
      var u, k := t[..|t| - 1], t[|t| - 1];
      assert t == u + [k];
      assert Distinct(t) == Distinct(u) + {k};
      Fits(Distinct(u), Distinct(t));
      LruRoomy(cap, u);
      SinceKeys(u, k);
      Fits(Since(u, k), Distinct(t) - {k});
      LruHolds(cap, u, k);
      if k in u { assert Distinct(t) == Distinct(u); }
    }
  }

  lemma {:induction false} PartsTogether(trace: seq<Key>, hot: set<Key>)
    ensures |Only(trace, hot)| + |Rest(trace, hot)| == |trace|
  {
    if trace != [] { PartsTogether(trace[..|trace| - 1], hot); }
  }

  lemma {:induction false} RestKeys(trace: seq<Key>, hot: set<Key>)
    requires hot <= Distinct(trace)
    ensures |Distinct(Rest(trace, hot))| == |Distinct(trace)| - |hot|
  {
    assert Distinct(Rest(trace, hot)) == Distinct(trace) - hot;
  }

  /** A trace whose keys all fit: any requested keys pinned miss only first requests. */
  lemma {:induction false} PinnedRoomy(trace: seq<Key>, cap: nat, hot: set<Key>)
    requires |hot| < cap && hot <= Distinct(trace) && |Distinct(trace)| <= cap
    ensures PinnedHits(cap - |hot|, hot, trace) == |trace| - |Distinct(trace)|
  {
    var room, rest := cap - |hot|, Rest(trace, hot);
    PartsTogether(trace, hot);
    assert Distinct(Only(trace, hot)) == hot;
    RestKeys(trace, hot);
    LruRoomy(room, rest);
    PinnedIs(room, hot, trace, rest, Gain(trace, hot), |rest| - |Distinct(rest)|);
  }

  lemma {:induction false} PinnedAtMost(trace: seq<Key>, cap: nat, other: set<Key>)
    requires |other| < cap
    ensures PinnedHits(cap - |other|, other, trace) <= |trace| - |Distinct(trace)|
  {
    var room := cap - |other|;
    var S := PinnedLegal(trace, room, other);
    Compulsory(trace, |other| + room, S);
  }

  /** On a trace whose keys all fit, no pinned set beats the hottest. */
  lemma {:induction false} HottestBestIfRoomy(trace: seq<Key>, cap: nat, k: nat, hot: set<Key>, other: set<Key>)
    requires k < cap && Hottest(trace, k, hot) && |other| < cap && |Distinct(trace)| <= cap
    ensures !Beaten(trace, cap, hot, other)
  {
    PinnedRoomy(trace, cap, hot);
    PinnedAtMost(trace, cap, other);
  }

  /** Over the traces on given keys, the hottest keys are an upper bound for every set of as many
      pins exactly when nothing is pinned or the cache holds all the keys. */
  lemma {:induction false} HottestBestExactly(keys: seq<Key>, cap: nat, npin: nat)
    requires NoDup(keys) && cap >= 1
    ensures var k := if npin >= cap then cap - 1 else npin;
      (forall trace, hot, other ::
        Distinct(trace) <= Distinct(keys) && Hottest(trace, k, hot) && |other| == k ==> !Beaten(trace, cap, hot, other))
      <==> k == 0 || |keys| <= cap
  {
    var k := if npin >= cap then cap - 1 else npin;
    if k > 0 && |keys| > cap {
      var trace, hot, other := HottestNotBest(keys, cap, k);
    } else {
      forall trace, hot, other |
        Distinct(trace) <= Distinct(keys) && Hottest(trace, k, hot) && |other| == k
        ensures !Beaten(trace, cap, hot, other)
      {
        if k == 0 {
          assert hot == {} && other == {};
        } else {
          KeysOf(keys, Distinct(keys));
          Fits(Distinct(trace), Distinct(keys));
          HottestBestIfRoomy(trace, cap, k, hot, other);
        }
      }
    }
  }
}
