/** What any expert cache can do, and the optimal offline policy, tools/sim_cache.py:51-76. */
module CachePolicy {

  type Key(==, !new)   // a (layer, expert) pair

  function Distinct(trace: seq<Key>): set<Key> { set k | k in trace }

  // ------------------------------------------------------------------- schedules

  /** Between two requests only the key just requested can come in. */
  ghost predicate Moves(trace: seq<Key>, S: seq<set<Key>>, j: nat)
    requires j < |trace| && |S| == |trace| + 1
  {
    S[j + 1] <= S[j] + {trace[j]}
  }

  /** A schedule lists what is resident before each request and after the last. A policy may
      keep, drop and insert as it likes, but it inserts only the key just requested and never
      holds more than `cap`. */
  ghost predicate LegalFrom(trace: seq<Key>, cap: nat, S: seq<set<Key>>, i: nat)
  {
    && |S| == |trace| + 1 && i <= |trace|
    && (forall j :: i <= j < |trace| ==> Moves(trace, S, j))
    && (forall j :: i <= j <= |trace| ==> |S[j]| <= cap)
  }

  ghost predicate Legal(trace: seq<Key>, cap: nat, S: seq<set<Key>>)
  {
    LegalFrom(trace, cap, S, 0) && S[0] == {}
  }

  /** Requests from the i-th on that find their key resident. */
  ghost function HitsFrom(trace: seq<Key>, S: seq<set<Key>>, i: nat): nat
    requires |S| == |trace| + 1 && i <= |trace|
    decreases |trace| - i
  {
    if i == |trace| then 0 else (if trace[i] in S[i] then 1 else 0) + HitsFrom(trace, S, i + 1)
  }

  /** Position of the next request of `x` at or after `i`, or the length if there is none. */
  function FirstFrom(trace: seq<Key>, i: nat, x: Key): (r: nat)
    requires i <= |trace|
    ensures i <= r <= |trace| && (r < |trace| ==> trace[r] == x)
    decreases |trace| - i
  {
    if i == |trace| then i else if trace[i] == x then i else FirstFrom(trace, i + 1, x)
  }

  lemma {:induction false} SameTail(trace: seq<Key>, S: seq<set<Key>>, S': seq<set<Key>>, i: nat)
    requires |S| == |S'| == |trace| + 1 && i <= |trace|
    requires forall j :: i <= j <= |trace| ==> S[j] == S'[j]
    ensures HitsFrom(trace, S, i) == HitsFrom(trace, S', i)
    decreases |trace| - i
  {
    if i < |trace| { SameTail(trace, S, S', i + 1); }
  }

  /** A legal continuation preceded by a state it could have come from. */
  lemma {:induction false} Prepend(trace: seq<Key>, cap: nat, R: seq<set<Key>>, i: nat, C: set<Key>)
    requires i < |trace| && LegalFrom(trace, cap, R, i + 1) && R[i + 1] <= C + {trace[i]} && |C| <= cap
    ensures LegalFrom(trace, cap, R[i := C], i)
    ensures HitsFrom(trace, R[i := C], i) == (if trace[i] in C then 1 else 0) + HitsFrom(trace, R, i + 1)
  {
    SameTail(trace, R, R[i := C], i + 1);
    var S := R[i := C];
    forall j | i <= j < |trace| ensures Moves(trace, S, j) {
      if j > i { assert Moves(trace, R, j); }
    }
  }

  /** Holding more at the start never costs a hit. */
  lemma {:induction false} Grow(trace: seq<Key>, cap: nat, S: seq<set<Key>>, i: nat, D: set<Key>)
    returns (S': seq<set<Key>>)
    requires LegalFrom(trace, cap, S, i) && S[i] <= D && |D| <= cap
    ensures LegalFrom(trace, cap, S', i) && S'[i] == D
    ensures HitsFrom(trace, S', i) >= HitsFrom(trace, S, i)
  {
    S' := S[i := D];
    if i < |trace| {
      assert Moves(trace, S, i);
      Prepend(trace, cap, S, i, D);
    }
  }

  /** Losing one key costs at most one hit. */
  lemma {:induction false} DropOne(trace: seq<Key>, cap: nat, S: seq<set<Key>>, i: nat, x: Key)
    returns (S': seq<set<Key>>)
    requires LegalFrom(trace, cap, S, i) && x in S[i]
    ensures LegalFrom(trace, cap, S', i) && S'[i] == S[i] - {x}
    ensures HitsFrom(trace, S, i) <= HitsFrom(trace, S', i) + 1
    decreases |trace| - i
  {
    var R := S;
    assert i < |trace| ==> Moves(trace, S, i);
    if i < |trace| && trace[i] != x && x in S[i + 1] {
      R := DropOne(trace, cap, S, i + 1, x);
    }
    S' := R[i := S[i] - {x}];
    if i < |trace| { Prepend(trace, cap, R, i, S[i] - {x}); }
  }

  lemma SwapSize(C: set<Key>, a: Key, b: Key)
    requires b in C && a !in C
    ensures |C - {b} + {a}| == |C|
  {
  }

  /** The exchange at the heart of optimality: holding `a` instead of `b` never costs a hit
      when `a` is needed no later than `b`. */
  lemma {:induction false} Exchange(trace: seq<Key>, cap: nat, S: seq<set<Key>>, i: nat, a: Key, b: Key)
    returns (S': seq<set<Key>>)
    requires LegalFrom(trace, cap, S, i) && b in S[i] && a !in S[i]
    requires FirstFrom(trace, i, a) <= FirstFrom(trace, i, b)
    ensures LegalFrom(trace, cap, S', i) && S'[i] == S[i] - {b} + {a}
    ensures HitsFrom(trace, S', i) >= HitsFrom(trace, S, i)
    decreases |trace| - i, 1
  {
    var C := S[i] - {b} + {a};
    SwapSize(S[i], a, b);
    if i < |trace| {
      var R := ExchangeNext(trace, cap, S, i, a, b);
      Prepend(trace, cap, R, i, C);
      S' := R[i := C];
    } else {
      S' := S[i := C];
    }
  }

  /** What the schedule holding `a` does after request i. */
  lemma {:induction false} ExchangeNext(trace: seq<Key>, cap: nat, S: seq<set<Key>>, i: nat, a: Key, b: Key)
    returns (R: seq<set<Key>>)
    requires i < |trace| && LegalFrom(trace, cap, S, i) && b in S[i] && a !in S[i]
    requires FirstFrom(trace, i, a) <= FirstFrom(trace, i, b)
    ensures LegalFrom(trace, cap, R, i + 1) && R[i + 1] <= S[i] - {b} + {a} + {trace[i]}
    ensures HitsFrom(trace, R, i + 1) + (if trace[i] == a then 1 else 0) >= HitsFrom(trace, S, i + 1)
    ensures trace[i] != b
    decreases |trace| - i, 0
  {
    R := S;
    assert Moves(trace, S, i);
    if b in S[i + 1] {
      if trace[i] == a {
        R := DropOne(trace, cap, S, i + 1, b);
      } else {
        R := Exchange(trace, cap, S, i + 1, a, b);
      }
    }
  }

  // ---------------------------------------------------------------------- Belady

  /** One step of the offline policy: keep everything while there is room; otherwise, of the
      resident keys and the one requested, let go one that is needed furthest in the future
      (which may be the requested one, left uncached). */
  ghost predicate BeladyStep(trace: seq<Key>, cap: nat, i: nat, C: set<Key>, X: set<Key>)
    requires i < |trace|
  {
    var k := trace[i];
    if k in C then X == C
    else if |C| < cap then X == C + {k}
    else exists z :: Furthest(trace, i + 1, C + {k}, z) && X == C + {k} - {z}
  }

  ghost predicate Furthest(trace: seq<Key>, i: nat, W: set<Key>, z: Key)
    requires i <= |trace|
  {
    z in W && forall x :: x in W ==> FirstFrom(trace, i, x) <= FirstFrom(trace, i, z)
  }

  ghost predicate BeladyAt(trace: seq<Key>, cap: nat, B: seq<set<Key>>, j: nat)
  {
    j < |trace| && j + 1 < |B| && BeladyStep(trace, cap, j, B[j], B[j + 1])
  }

  ghost predicate BeladyFrom(trace: seq<Key>, cap: nat, B: seq<set<Key>>, i: nat)
  {
    && |B| == |trace| + 1 && i <= |trace|
    && forall j :: i <= j < |trace| ==> BeladyAt(trace, cap, B, j)
  }

  lemma SizeSplit(W: set<Key>, X: set<Key>) returns (y: Key)
    requires X <= W && |X| < |W|
    ensures y in W && y !in X
  {
    assert W <= X ==> W == X;
    y :| y in W && y !in X;
  }

  /** From the policy's step on, some schedule that agrees with it does at least as well. */
  lemma {:induction false} BeladyStepBest(trace: seq<Key>, cap: nat, S: seq<set<Key>>, i: nat, X: set<Key>)
    returns (S': seq<set<Key>>)
    requires i < |trace| && LegalFrom(trace, cap, S, i) && BeladyStep(trace, cap, i, S[i], X) && |X| <= cap
    ensures LegalFrom(trace, cap, S', i + 1) && S'[i + 1] == X
    ensures HitsFrom(trace, S', i + 1) >= HitsFrom(trace, S, i + 1)
  {
    var C, k := S[i], trace[i];
    assert Moves(trace, S, i);
    if k in C || |C| < cap {
      S' := Grow(trace, cap, S, i + 1, X);
    } else {
      var W := C + {k};
      var z :| Furthest(trace, i + 1, W, z) && X == W - {z};
      var y := SizeSplit(W, S[i + 1]);
      var R := Grow(trace, cap, S, i + 1, W - {y});
      if y == z {
        S' := R;
      } else {
        S' := Exchange(trace, cap, R, i + 1, y, z);
        assert W - {y} - {z} + {y} == W - {z};
      }
    }
  }

  /** No legal schedule beats the policy from any point the two share. */
  lemma {:induction false} BeladyBest(trace: seq<Key>, cap: nat, B: seq<set<Key>>, S: seq<set<Key>>, i: nat)
    requires BeladyFrom(trace, cap, B, i) && LegalFrom(trace, cap, B, i)
    requires LegalFrom(trace, cap, S, i) && S[i] == B[i]
    ensures HitsFrom(trace, S, i) <= HitsFrom(trace, B, i)
    decreases |trace| - i
  {
    if i < |trace| {
      assert BeladyAt(trace, cap, B, i);
      var S' := BeladyStepBest(trace, cap, S, i, B[i + 1]);
      BeladyBest(trace, cap, B, S', i + 1);
    }
  }

  // ------------------------------------------------------------------- the replay

  lemma WantedLater(trace: seq<Key>, i: nat, x: Key)
    requires i < |trace|
    ensures FirstFrom(trace, i, x) == if trace[i] == x then i else FirstFrom(trace, i + 1, x)
  {
  }

  function Lookup(last: map<Key, nat>, k: Key, n: nat): nat { if k in last then last[k] else n }

  /** `last` says for every key when it is first requested from i on. */
  ghost predicate Ahead(trace: seq<Key>, last: map<Key, nat>, i: nat)
  {
    i <= |trace| && forall k :: Lookup(last, k, |trace|) == FirstFrom(trace, i, k)
  }

  lemma AheadStep(trace: seq<Key>, last: map<Key, nat>, i: nat)
    requires i < |trace| && Ahead(trace, last, i + 1)
    ensures Ahead(trace, last[trace[i] := i], i)
  {
    var last' := last[trace[i] := i];
    forall x ensures Lookup(last', x, |trace|) == FirstFrom(trace, i, x) {
      assert Lookup(last, x, |trace|) == FirstFrom(trace, i + 1, x);
    }
  }

  /** The backward pass: for every request, when its key is wanted again. */
  method NextUses(trace: seq<Key>) returns (nxt: seq<nat>)
    ensures |nxt| == |trace|
    ensures forall i :: 0 <= i < |trace| ==> nxt[i] == FirstFrom(trace, i + 1, trace[i])
  {
    var n := |trace|;
    nxt := seq(n, _ => n);
    var last: map<Key, nat> := map[];
    for i := n downto 0
      invariant |nxt| == n && Ahead(trace, last, i)
      invariant forall j :: i <= j < n ==> nxt[j] == FirstFrom(trace, j + 1, trace[j])
    {
      nxt := nxt[i := Lookup(last, trace[i], n)];
      AheadStep(trace, last, i);
      last := last[trace[i] := i];
    }
  }

  /** A resident key needed furthest in the future; which one among equals does not matter. */
  method MaxKey(resident: map<Key, nat>) returns (victim: Key)
    requires resident != map[]
    ensures victim in resident && forall k :: k in resident ==> resident[k] <= resident[victim]
  {
    var todo := resident.Keys;
    assert exists k :: k in resident;
    victim :| victim in resident;
    while todo != {}
      invariant todo <= resident.Keys && victim in resident
      invariant forall k :: k in resident && k !in todo ==> resident[k] <= resident[victim]
      decreases |todo|
    {
      var k :| k in todo;
      if resident[k] > resident[victim] { victim := k; }
      todo := todo - {k};
    }
  }

  /** `resident` maps each resident key to its next use from request i on. */
  ghost predicate Tracks(trace: seq<Key>, i: nat, resident: map<Key, nat>)
  {
    i <= |trace| && forall k :: k in resident ==> resident[k] == FirstFrom(trace, i, k)
  }

  /** A miss with the cache full: the victim goes, unless even it is wanted sooner. */
  method Evict(trace: seq<Key>, cap: nat, i: nat, nxt: nat, resident: map<Key, nat>) returns (resident': map<Key, nat>)
    requires i < |trace| && trace[i] !in resident && nxt == FirstFrom(trace, i + 1, trace[i]) && 1 <= cap == |resident|
    requires Tracks(trace, i + 1, resident)
    ensures Tracks(trace, i + 1, resident') && |resident'| <= cap
    ensures exists z ::
      Furthest(trace, i + 1, resident.Keys + {trace[i]}, z) && resident'.Keys == resident.Keys + {trace[i]} - {z}
  {
    var k := trace[i];
    ghost var W := resident.Keys + {k};
    var victim := MaxKey(resident);
    if resident[victim] < nxt {
      resident' := resident;
      assert resident'.Keys == W - {k};
      assert Furthest(trace, i + 1, W, k);
    } else {
      var rest := resident - {victim};
      resident' := rest[k := nxt];
      assert rest.Keys == resident.Keys - {victim};
      assert resident'.Keys == rest.Keys + {k};
      assert resident'.Keys == W - {victim};
      assert Furthest(trace, i + 1, W, victim);
    }
  }

  /** One request of the replay. */
  method BeladyRequest(trace: seq<Key>, cap: nat, i: nat, nxt: nat, resident: map<Key, nat>)
    returns (hit: bool, resident': map<Key, nat>)
    requires cap >= 1 && i < |trace| && Tracks(trace, i, resident) && nxt == FirstFrom(trace, i + 1, trace[i])
    requires |resident| <= cap
    ensures hit <==> trace[i] in resident
    ensures Tracks(trace, i + 1, resident') && |resident'| <= cap
    ensures BeladyStep(trace, cap, i, resident.Keys, resident'.Keys)
  {
    var k := trace[i];
    forall x | x in resident && x != k ensures resident[x] == FirstFrom(trace, i + 1, x) { WantedLater(trace, i, x); }
    hit := k in resident;
    if hit || |resident| < cap {
      resident' := resident[k := nxt];
      assert resident'.Keys == resident.Keys + {k};
    } else {
      resident' := Evict(trace, cap, i, nxt, resident);
    }
  }

  /** The first requests were handled by the offline policy, from an empty cache. */
  ghost predicate BeladySoFar(trace: seq<Key>, cap: nat, B: seq<set<Key>>)
  {
    && 1 <= |B| <= |trace| + 1 && B[0] == {}
    && (forall j :: 0 <= j < |B| ==> |B[j]| <= cap)
    && (forall j :: 0 <= j < |B| - 1 ==> BeladyAt(trace, cap, B, j))
  }

  /** Optimality: a complete run of the policy is legal and unbeaten. */
  lemma {:induction false} BeladyOptimal(trace: seq<Key>, cap: nat, B: seq<set<Key>>)
    requires BeladySoFar(trace, cap, B) && |B| == |trace| + 1
    ensures Legal(trace, cap, B)
    ensures forall S :: Legal(trace, cap, S) ==> HitsFrom(trace, S, 0) <= HitsFrom(trace, B, 0)
  {
    forall j | 0 <= j < |trace| ensures Moves(trace, B, j) { assert BeladyAt(trace, cap, B, j); }
    forall S | Legal(trace, cap, S) ensures HitsFrom(trace, S, 0) <= HitsFrom(trace, B, 0) {
      BeladyBest(trace, cap, B, S, 0);
    }
  }

  lemma {:induction false} BeladyExtend(trace: seq<Key>, cap: nat, B: seq<set<Key>>, X: set<Key>)
    requires BeladySoFar(trace, cap, B) && |B| <= |trace| && |X| <= cap
    requires BeladyStep(trace, cap, |B| - 1, B[|B| - 1], X)
    ensures BeladySoFar(trace, cap, B + [X])
    ensures HitsSoFar(trace, B + [X], |B|) == HitsSoFar(trace, B, |B| - 1) +
      if trace[|B| - 1] in B[|B| - 1] then 1 else 0
  {
    SoFarStable(trace, B, B + [X], |B| - 1);
    forall j | 0 <= j < |B| ensures BeladyAt(trace, cap, B + [X], j) {
      if j < |B| - 1 { assert BeladyAt(trace, cap, B, j); }
    }
  }

  /** After i requests: what is resident, when each of it is wanted next, the hits so far. */
  ghost predicate Replayed(trace: seq<Key>, cap: nat, i: nat, resident: map<Key, nat>, hits: nat, B: seq<set<Key>>)
  {
    && |B| == i + 1 && B[i] == resident.Keys && Tracks(trace, i, resident) && |resident| <= cap
    && BeladySoFar(trace, cap, B) && hits == HitsSoFar(trace, B, i)
  }

  method BeladyTurn(trace: seq<Key>, cap: nat, i: nat, nxt: nat, resident: map<Key, nat>, hits: nat,
      ghost B: seq<set<Key>>)
    returns (resident': map<Key, nat>, hits': nat, ghost B': seq<set<Key>>)
    requires cap >= 1 && i < |trace| && nxt == FirstFrom(trace, i + 1, trace[i])
    requires Replayed(trace, cap, i, resident, hits, B)
    ensures Replayed(trace, cap, i + 1, resident', hits', B')
  {
    var hit;
    hit, resident' := BeladyRequest(trace, cap, i, nxt, resident);
    hits' := if hit then hits + 1 else hits;
    assert |resident'.Keys| == |resident'|;
    BeladyExtend(trace, cap, B, resident'.Keys);
    B' := B + [resident'.Keys];
  }

  /** The forward pass over the trace. */
  method BeladyReplay(trace: seq<Key>, cap: nat) returns (hits: nat, ghost B: seq<set<Key>>)
    requires cap >= 1
    ensures |B| == |trace| + 1 && BeladySoFar(trace, cap, B) && hits == HitsSoFar(trace, B, |trace|)
  {
    var nxt := NextUses(trace);
    var resident: map<Key, nat> := map[];
    hits, B := 0, [{}];
    for i := 0 to |trace|
      invariant Replayed(trace, cap, i, resident, hits, B)
    {
      resident, hits, B := BeladyTurn(trace, cap, i, nxt[i], resident, hits, B);
    }
  }

  /** The optimal replay: the hits it reports are achieved by a legal schedule, and no legal
      schedule of the same capacity, online or not, achieves more. */
  method Belady(trace: seq<Key>, cap: nat) returns (hits: nat, ghost B: seq<set<Key>>)
    requires cap >= 1
    ensures Legal(trace, cap, B) && hits == HitsFrom(trace, B, 0)
    ensures forall S :: Legal(trace, cap, S) ==> HitsFrom(trace, S, 0) <= hits
  {
    hits, B := BeladyReplay(trace, cap);
    SoFarAll(trace, B, |trace|);
    BeladyOptimal(trace, cap, B);
  }

  /** Hits among the first `n` requests. */
  ghost function HitsSoFar(trace: seq<Key>, S: seq<set<Key>>, n: nat): nat
    requires n <= |trace| && n <= |S|
  {
    if n == 0 then 0 else HitsSoFar(trace, S, n - 1) + if trace[n - 1] in S[n - 1] then 1 else 0
  }

  lemma {:induction false} SoFarStable(trace: seq<Key>, S: seq<set<Key>>, S': seq<set<Key>>, n: nat)
    requires n <= |trace| && n <= |S| <= |S'| && S == S'[..|S|]
    ensures HitsSoFar(trace, S, n) == HitsSoFar(trace, S', n)
  {
    if n > 0 { SoFarStable(trace, S, S', n - 1); }
  }

  /** Counting forwards and counting backwards agree. */
  lemma {:induction false} SoFarAll(trace: seq<Key>, S: seq<set<Key>>, n: nat)
    requires |S| == |trace| + 1 && n <= |trace|
    ensures HitsSoFar(trace, S, n) + HitsFrom(trace, S, n) == HitsFrom(trace, S, 0)
    decreases n
  {
    if n > 0 { SoFarAll(trace, S, n - 1); }
  }

  // ------------------------------------------------------------ compulsory misses

  /** What can be resident before request n: only keys already requested. */
  lemma {:induction false} OnlyRequested(trace: seq<Key>, cap: nat, S: seq<set<Key>>, n: nat)
    requires Legal(trace, cap, S) && n <= |trace|
    ensures S[n] <= Distinct(trace[..n])
    decreases n
  {
    if n > 0 {
      OnlyRequested(trace, cap, S, n - 1);
      assert Moves(trace, S, n - 1);
      assert trace[..n] == trace[..n - 1] + [trace[n - 1]];
    }
  }

  lemma DistinctStep(trace: seq<Key>, n: nat)
    requires n < |trace|
    ensures |Distinct(trace[..n + 1])| == |Distinct(trace[..n])| + if trace[n] in Distinct(trace[..n]) then 0 else 1
  {
    assert trace[..n + 1] == trace[..n] + [trace[n]];
    assert Distinct(trace[..n + 1]) == Distinct(trace[..n]) + {trace[n]};
  }

  lemma {:induction false} CompulsorySoFar(trace: seq<Key>, cap: nat, S: seq<set<Key>>, n: nat)
    requires Legal(trace, cap, S) && n <= |trace|
    ensures HitsSoFar(trace, S, n) + |Distinct(trace[..n])| <= n
    decreases n
  {
    if n > 0 {
      CompulsorySoFar(trace, cap, S, n - 1);
      OnlyRequested(trace, cap, S, n - 1);
      DistinctStep(trace, n - 1);
    }
  }

  /** Every key must be read once: no schedule of any capacity hits more often than requests
      minus distinct keys. */
  lemma Compulsory(trace: seq<Key>, cap: nat, S: seq<set<Key>>)
    requires Legal(trace, cap, S)
    ensures HitsFrom(trace, S, 0) + |Distinct(trace)| <= |trace|
  {
    CompulsorySoFar(trace, cap, S, |trace|);
    SoFarAll(trace, S, |trace|);
    assert trace[..|trace|] == trace;
  }
}
