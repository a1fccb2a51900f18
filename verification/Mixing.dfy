/** Attention's weights and the experts' gates over the real numbers, src/core/k3_ops.c:336-366 and
    443-456. A valuation gives every number its real value; rounding is set aside. */
module Mixing {
  import opened Numerics
  import opened Mla
  import Moe

  ghost predicate RealAt(A: Arith<Scalar>, g: Scalar -> real, x: Scalar, y: Scalar)
  {
    && g(A.ops.add(x, y)) == g(x) + g(y)
    && g(A.ops.sub(x, y)) == g(x) - g(y)
    && g(A.ops.mul(x, y)) == g(x) * g(y)
    && (g(y) != 0.0 ==> g(A.div(x, y)) == g(x) / g(y))
    && (A.gt(x, y) <==> g(x) > g(y))
  }

  /** Computing with numbers is computing with their values. */
  ghost predicate Real(A: Arith<Scalar>, g: Scalar -> real)
  {
    g(A.ops.zero) == 0.0 && forall x, y :: RealAt(A, g, x, y)
  }

  lemma SumOfTwo(A: Arith<Scalar>, g: Scalar -> real, x: Scalar, y: Scalar)
    requires Real(A, g)
    ensures g(A.ops.add(x, y)) == g(x) + g(y)
  {
    assert RealAt(A, g, x, y);
  }

  lemma ProductOf(A: Arith<Scalar>, g: Scalar -> real, x: Scalar, y: Scalar, a: real, b: real)
    requires Real(A, g) && a == g(x) && b == g(y)
    ensures g(A.ops.mul(x, y)) == a * b
  {
    assert RealAt(A, g, x, y);
  }

  lemma QuotientOf(A: Arith<Scalar>, g: Scalar -> real, x: Scalar, y: Scalar, a: real, b: real)
    requires Real(A, g) && a == g(x) && b == g(y) && b != 0.0
    ensures g(A.div(x, y)) == a / b
  {
    assert RealAt(A, g, x, y);
  }

  ghost predicate ExpAt(e: real -> real, a: real, b: real) { e(a) > 0.0 && e(a - b) * e(b) == e(a) }

  /** The exponential: positive, and differences become quotients. */
  ghost predicate Exponential(A: Arith<Scalar>, g: Scalar -> real, e: real -> real)
  {
    (forall a, b :: ExpAt(e, a, b)) && forall x :: g(A.exp(x)) == e(g(x))
  }

  // --------------------------------------------------------------------------- sums

  /** The first `n` terms added up. */
  ghost function Total(f: nat -> real, n: nat): real { if n == 0 then 0.0 else Total(f, n - 1) + f(n - 1) }

  ghost predicate ScaledAt(f: nat -> real, f': nat -> real, k: real, i: nat) { f(i) * k == f'(i) }

  lemma {:induction false} TotalScaled(f: nat -> real, f': nat -> real, k: real, n: nat)
    requires forall i: nat :: i < n ==> ScaledAt(f, f', k, i)
    ensures Total(f, n) * k == Total(f', n)
    decreases n
  {
    if n > 0 {
      TotalScaled(f, f', k, n - 1);
      assert ScaledAt(f, f', k, n - 1);
      Spread(Total(f, n - 1), f(n - 1), k);
    }
  }

  lemma {:induction false} TotalPositive(f: nat -> real, n: nat)
    requires forall i: nat :: i < n ==> f(i) > 0.0
    ensures Total(f, n) >= 0.0 && (n > 0 ==> Total(f, n) > 0.0)
    decreases n
  {
    if n > 0 { TotalPositive(f, n - 1); }
  }

  ghost function Times(f: nat -> real, v: nat -> real): nat -> real { (i: nat) => f(i) * v(i) }

  ghost predicate StepsTo(m: nat -> real, f: nat -> real, i: nat) { m(i + 1) == m(i) + f(i) }

  lemma {:induction false} Stepped(m: nat -> real, f: nat -> real, n: nat)
    requires m(0) == 0.0 && forall i: nat :: i < n ==> StepsTo(m, f, i)
    ensures m(n) == Total(f, n)
    decreases n
  {
    if n > 0 {
      Stepped(m, f, n - 1);
      assert StepsTo(m, f, n - 1);
    }
  }

  /** A sum built up one weighted term at a time, when the weights are scaled. */
  lemma {:induction false} Weighted(m: nat -> real, f: nat -> real, f': nat -> real, v: nat -> real, k: real, n: nat)
    requires m(0) == 0.0 && forall i: nat :: i < n ==> StepsTo(m, Times(f, v), i)
    requires forall i: nat :: i < n ==> ScaledAt(f, f', k, i)
    ensures m(n) * k == Total(Times(f', v), n)
  {
    Stepped(m, Times(f, v), n);
    TimesScaled(f, f', v, k, n);
    TotalScaled(Times(f, v), Times(f', v), k, n);
  }

  lemma {:induction false} TimesScaled(f: nat -> real, f': nat -> real, v: nat -> real, k: real, n: nat)
    requires forall i: nat :: i < n ==> ScaledAt(f, f', k, i)
    ensures forall i: nat :: i < n ==> ScaledAt(Times(f, v), Times(f', v), k, i)
  {
    forall i: nat | i < n ensures ScaledAt(Times(f, v), Times(f', v), k, i) {
      assert ScaledAt(f, f', k, i);
      Swap(f(i), v(i), k, f'(i));
    }
  }

  lemma Spread(a: real, b: real, k: real)
    ensures (a + b) * k == a * k + b * k
  {
  }

  lemma Swap(p: real, v: real, k: real, a: real)
    requires p * k == a
    ensures (p * v) * k == a * v
  {
    assert (p * v) * k == (p * k) * v;
  }

  lemma Quotient(a: real, b: real, k: real, x: real, y: real)
    requires k > 0.0 && y > 0.0 && a * k == x && b * k == y
    ensures b > 0.0 && (a / b) * y == x && a / b == x / y
  {
    if b <= 0.0 { NotPositive(b, k); }
    var p := a / b;
    assert p * b == a;
    Swap(p, k, b, a);
    assert p * y == (p * k) * b;
  }

  lemma NotPositive(b: real, k: real)
    requires b <= 0.0 && k > 0.0
    ensures b * k <= 0.0
  {
  }

  lemma PositiveQuotient(a: real, y: real)
    requires a > 0.0 && y > 0.0
    ensures a / y > 0.0
  {
  }

  lemma One(a: real, y: real)
    requires a * y == y && y > 0.0
    ensures a == 1.0
  {
  }

  // ---------------------------------------------------------------------- attention

  /** No score exceeds the maximum, so no exponential taken is above one; and the maximum is one
      of the scores, unless none was above where the search began. */
  lemma {:induction false} TopScore(A: Arith<Scalar>, g: Scalar -> real, w: MlaW, q: Query, h: nat, st: KvState, n: nat)
    requires Real(A, g) && Valid(st) && n <= |st.kv|
    ensures var m := MaxScore(A, w, q, h, st, n);
      && (forall s :: 0 <= s < n ==> g(Score(w, q, h, st, s)) <= g(m))
      && (m == A.negInf || exists s :: 0 <= s < n && m == Score(w, q, h, st, s))
    decreases n
  {
    if n > 0 {
      TopScore(A, g, w, q, h, st, n - 1);
      assert RealAt(A, g, Score(w, q, h, st, n - 1), MaxScore(A, w, q, h, st, n - 1));
    }
  }

  /** The exponential of the score itself at each position. */
  ghost function Raised(g: Scalar -> real, e: real -> real, w: MlaW, q: Query, h: nat, st: KvState): nat -> real
  {
    (s: nat) => if s < |st.kv| && s < |st.rope| then e(g(w.score(q, h, st.kv[s], st.rope[s]))) else 0.0
  }

  ghost function Weights(A: Arith<Scalar>, g: Scalar -> real, w: MlaW, q: Query, h: nat, st: KvState): nat -> real
    requires Valid(st)
  {
    (s: nat) => if s < |st.kv| then g(Weight(A, w, q, h, st, s)) else 0.0
  }

  /** The weight each position's values are taken with. */
  ghost function Shares(A: Arith<Scalar>, g: Scalar -> real, w: MlaW, q: Query, h: nat, st: KvState): nat -> real
    requires Valid(st)
  {
    (s: nat) => if s < |st.kv| then g(A.div(Weight(A, w, q, h, st, s), Denom(A, w, q, h, st, |st.kv|))) else 0.0
  }

  /** Taking the maximum off first scales every exponential alike. */
  lemma {:induction false} Shifted(A: Arith<Scalar>, g: Scalar -> real, e: real -> real, w: MlaW, q: Query, h: nat,
      st: KvState, s: nat, k: real)
    requires Real(A, g) && Exponential(A, g, e) && Valid(st) && s < |st.kv|
    requires k == e(g(MaxScore(A, w, q, h, st, |st.kv|)))
    ensures k > 0.0 && Raised(g, e, w, q, h, st)(s) > 0.0
    ensures ScaledAt(Weights(A, g, w, q, h, st), Raised(g, e, w, q, h, st), k, s)
  {
    var x, m := Score(w, q, h, st, s), MaxScore(A, w, q, h, st, |st.kv|);
    assert RealAt(A, g, x, m);
    assert g(Weight(A, w, q, h, st, s)) == e(g(x) - g(m));
    assert ExpAt(e, g(x), g(m)) && ExpAt(e, g(m), g(m));
  }

  lemma {:induction false} DenomTotal(A: Arith<Scalar>, g: Scalar -> real, w: MlaW, q: Query, h: nat, st: KvState,
      n: nat)
    requires Real(A, g) && Valid(st) && n <= |st.kv|
    ensures g(Denom(A, w, q, h, st, n)) == Total(Weights(A, g, w, q, h, st), n)
    decreases n
  {
    if n > 0 {
      DenomTotal(A, g, w, q, h, st, n - 1);
      SumOfTwo(A, g, Denom(A, w, q, h, st, n - 1), Weight(A, w, q, h, st, n - 1));
    }
  }

  lemma {:induction false} DenomIs(A: Arith<Scalar>, g: Scalar -> real, e: real -> real, w: MlaW, q: Query, h: nat,
      st: KvState, k: real, d: real, y: real)
    requires Real(A, g) && Exponential(A, g, e) && Valid(st) && |st.kv| > 0
    requires k == e(g(MaxScore(A, w, q, h, st, |st.kv|))) && d == g(Denom(A, w, q, h, st, |st.kv|))
    requires y == Total(Raised(g, e, w, q, h, st), |st.kv|)
    ensures d * k == y > 0.0
  {
    AllShifted(A, g, e, w, q, h, st, k);
    DenomTotal(A, g, w, q, h, st, |st.kv|);
    TotalScaled(Weights(A, g, w, q, h, st), Raised(g, e, w, q, h, st), k, |st.kv|);
    TotalPositive(Raised(g, e, w, q, h, st), |st.kv|);
  }

  lemma {:induction false} AllShifted(A: Arith<Scalar>, g: Scalar -> real, e: real -> real, w: MlaW, q: Query, h: nat,
      st: KvState, k: real)
    requires Real(A, g) && Exponential(A, g, e) && Valid(st)
    requires k == e(g(MaxScore(A, w, q, h, st, |st.kv|)))
    ensures forall i: nat :: i < |st.kv| ==> ScaledAt(Weights(A, g, w, q, h, st), Raised(g, e, w, q, h, st), k, i)
    ensures forall i: nat :: i < |st.kv| ==> Raised(g, e, w, q, h, st)(i) > 0.0
  {
    var x, a := Weights(A, g, w, q, h, st), Raised(g, e, w, q, h, st);
    forall i: nat | i < |st.kv| ensures ScaledAt(x, a, k, i) && a(i) > 0.0 { Shifted(A, g, e, w, q, h, st, i, k); }
  }

  /** The weight of position `s` is its score's exponential over the sum of all of them: the maximum
      taken off first cancels. It is positive. */
  lemma {:induction false} Softmax(A: Arith<Scalar>, g: Scalar -> real, e: real -> real, w: MlaW, q: Query, h: nat,
      st: KvState, s: nat, a: real, y: real)
    requires Real(A, g) && Exponential(A, g, e) && Valid(st) && s < |st.kv|
    requires a == e(g(w.score(q, h, st.kv[s], st.rope[s]))) && y == Total(Raised(g, e, w, q, h, st), |st.kv|)
    ensures y > 0.0 && Shares(A, g, w, q, h, st)(s) == a / y > 0.0
    ensures ScaledAt(Shares(A, g, w, q, h, st), Raised(g, e, w, q, h, st), y, s)
  {
    var k := e(g(MaxScore(A, w, q, h, st, |st.kv|)));
    var x, d := Weight(A, w, q, h, st, s), Denom(A, w, q, h, st, |st.kv|);
    Shifted(A, g, e, w, q, h, st, s, k);
    DenomIs(A, g, e, w, q, h, st, k, g(d), y);
    SoftmaxAt(A, g, x, d, k, a, y);
  }

  lemma SoftmaxAt(A: Arith<Scalar>, g: Scalar -> real, x: Scalar, d: Scalar, k: real, a: real, y: real)
    requires Real(A, g) && k > 0.0 && a > 0.0 && y > 0.0 && g(x) * k == a && g(d) * k == y
    ensures g(A.div(x, d)) == a / y > 0.0 && g(A.div(x, d)) * y == a
  {
    var p, b := g(x), g(d);
    Quotient(p, b, k, a, y);
    QuotientOf(A, g, x, d, p, b);
    PositiveQuotient(a, y);
  }

  lemma {:induction false} AllShares(A: Arith<Scalar>, g: Scalar -> real, e: real -> real, w: MlaW, q: Query, h: nat,
      st: KvState, y: real)
    requires Real(A, g) && Exponential(A, g, e) && Valid(st) && |st.kv| > 0
    requires y == Total(Raised(g, e, w, q, h, st), |st.kv|)
    ensures y > 0.0
    ensures forall i: nat :: i < |st.kv| ==> ScaledAt(Shares(A, g, w, q, h, st), Raised(g, e, w, q, h, st), y, i)
  {
    var p, a := Shares(A, g, w, q, h, st), Raised(g, e, w, q, h, st);
    forall i: nat | i < |st.kv| ensures ScaledAt(p, a, y, i) && y > 0.0 {
      Softmax(A, g, e, w, q, h, st, i, a(i), y);
    }
    Softmax(A, g, e, w, q, h, st, 0, a(0), y);
  }

  /** The weights add up to one. */
  lemma {:induction false} SumToOne(A: Arith<Scalar>, g: Scalar -> real, e: real -> real, w: MlaW, q: Query, h: nat,
      st: KvState)
    requires Real(A, g) && Exponential(A, g, e) && Valid(st) && |st.kv| > 0
    ensures Total(Shares(A, g, w, q, h, st), |st.kv|) == 1.0
  {
    var p, a, n := Shares(A, g, w, q, h, st), Raised(g, e, w, q, h, st), |st.kv|;
    var y := Total(a, n);
    AllShares(A, g, e, w, q, h, st, y);
    TotalScaled(p, a, y, n);
    One(Total(p, n), y);
  }

  ghost predicate MixAt(w: MlaW, g: Scalar -> real, u: HeadAcc -> real, val: (KvRow, nat) -> real, o: HeadAcc,
      p: Scalar,
      r: KvRow, h: nat)
  {
    u(w.axpy(o, p, r, h)) == u(o) + g(p) * val(r, h)
  }

  /** `u` reads one component of an accumulator and `val` the same one of a value row. */
  ghost predicate Component(w: MlaW, g: Scalar -> real, u: HeadAcc -> real, val: (KvRow, nat) -> real)
  {
    u(w.accZero) == 0.0 && forall o, p, r, h :: MixAt(w, g, u, val, o, p, r, h)
  }

  /** That component of the value row at each position. */
  ghost function Values(val: (KvRow, nat) -> real, h: nat, st: KvState): nat -> real
  {
    (s: nat) => if s < |st.kv| then val(st.kv[s], h) else 0.0
  }

  ghost function Mixed(A: Arith<Scalar>, u: HeadAcc -> real, w: MlaW, q: Query, h: nat, st: KvState): nat -> real
    requires Valid(st)
  {
    (n: nat) => if n <= |st.kv| then u(Mix(A, w, q, h, st, n)) else 0.0
  }

  lemma {:induction false} MixSteps(A: Arith<Scalar>, g: Scalar -> real, u: HeadAcc -> real, val: (KvRow, nat) -> real,
      w: MlaW, q: Query, h: nat, st: KvState, s: nat)
    requires Component(w, g, u, val) && Valid(st) && s < |st.kv|
    ensures StepsTo(Mixed(A, u, w, q, h, st), Times(Shares(A, g, w, q, h, st), Values(val, h, st)), s)
  {
    var p := A.div(Weight(A, w, q, h, st, s), Denom(A, w, q, h, st, |st.kv|));
    var n: nat := s + 1;
    assert Mix(A, w, q, h, st, n) == w.axpy(Mix(A, w, q, h, st, s), p, st.kv[s], h);
    MixStep(w, g, u, val, Mix(A, w, q, h, st, s), p, st.kv[s], h, Shares(A, g, w, q, h, st), Values(val, h, st), s);
    assert Mixed(A, u, w, q, h, st)(n) == u(Mix(A, w, q, h, st, n));
  }

  lemma {:induction false} AllMixSteps(A: Arith<Scalar>, g: Scalar -> real, u: HeadAcc -> real,
      val: (KvRow, nat) -> real, w: MlaW, q: Query, h: nat, st: KvState)
    requires Component(w, g, u, val) && Valid(st)
    ensures forall s: nat :: s < |st.kv| ==>
      StepsTo(Mixed(A, u, w, q, h, st), Times(Shares(A, g, w, q, h, st), Values(val, h, st)), s)
  {
    forall s: nat | s < |st.kv|
      ensures StepsTo(Mixed(A, u, w, q, h, st), Times(Shares(A, g, w, q, h, st), Values(val, h, st)), s)
    {
      MixSteps(A, g, u, val, w, q, h, st, s);
    }
  }

  lemma MixStep(w: MlaW, g: Scalar -> real, u: HeadAcc -> real, val: (KvRow, nat) -> real, o: HeadAcc, p: Scalar,
      r: KvRow, h: nat, f: nat -> real, v: nat -> real, i: nat)
    requires Component(w, g, u, val) && f(i) == g(p) && v(i) == val(r, h)
    ensures u(w.axpy(o, p, r, h)) == u(o) + Times(f, v)(i)
  {
    assert MixAt(w, g, u, val, o, p, r, h);
  }

  /** What a head attends to is the mean of the values it may see, each weighted by its score's
      exponential. */
  lemma {:induction false} AttendIsMean(A: Arith<Scalar>, g: Scalar -> real, e: real -> real, u: HeadAcc -> real,
      val: (KvRow, nat) -> real, w: MlaW, q: Query, h: nat, st: KvState, y: real)
    requires Real(A, g) && Exponential(A, g, e) && Component(w, g, u, val) && Valid(st) && |st.kv| > 0
    requires y == Total(Raised(g, e, w, q, h, st), |st.kv|)
    ensures y > 0.0
    ensures u(Attend(A, w, q, h, st)) * y == Total(Times(Raised(g, e, w, q, h, st), Values(val, h, st)), |st.kv|)
  {
    AllShares(A, g, e, w, q, h, st, y);
    AllMixSteps(A, g, u, val, w, q, h, st);
    assert Mix(A, w, q, h, st, 0) == w.accZero;
    Weighted(Mixed(A, u, w, q, h, st), Shares(A, g, w, q, h, st), Raised(g, e, w, q, h, st), Values(val, h, st), y,
      |st.kv|);
  }

  // ------------------------------------------------------------------------- experts

  ghost predicate PlusAt(w: Moe.MoeW, g: Scalar -> real, tv: Moe.Total -> real, t: Moe.Total, s: Scalar)
  {
    tv(w.plus(t, s)) == tv(t) + g(s)
  }

  /** The weights are summed, and the sum inverted with `eps` added to keep it off zero. */
  ghost predicate Summed(w: Moe.MoeW, g: Scalar -> real, tv: Moe.Total -> real, eps: real)
  {
    && tv(w.none) == 0.0 && (forall t, s :: PlusAt(w, g, tv, t, s))
    && forall t :: tv(t) + eps != 0.0 ==> g(w.inverse(t)) == 1.0 / (tv(t) + eps)
  }

  ghost function Reals(g: Scalar -> real, xs: seq<Scalar>): nat -> real
  {
    (i: nat) => if i < |xs| then g(xs[i]) else 0.0
  }

  lemma {:induction false} SumIs(w: Moe.MoeW, g: Scalar -> real, tv: Moe.Total -> real, eps: real, raw: seq<Scalar>,
      n: nat)
    requires Summed(w, g, tv, eps) && n <= |raw|
    ensures tv(Moe.SumOf(w, raw, n)) == Total(Reals(g, raw), n)
    decreases n
  {
    if n > 0 {
      SumIs(w, g, tv, eps, raw, n - 1);
      assert PlusAt(w, g, tv, Moe.SumOf(w, raw, n - 1), raw[n - 1]);
    }
  }

  /** What each raw score is multiplied by: the scale, over the sum when weights are renormalised. A
      single weight is not. */
  ghost function Factor(w: Moe.MoeW, n: nat, sum: real, scale: real): real
    requires sum != 0.0
  {
    if w.renorm && n > 1 then scale / sum else scale
  }

  /** Every gate is its raw score times one common factor, so gates keep the ratios of the scores. */
  lemma {:induction false} GateIs(A: Arith<Scalar>, w: Moe.MoeW, g: Scalar -> real, tv: Moe.Total -> real, eps: real,
      raw: seq<Scalar>, j: nat, sum: real, scale: real)
    requires Real(A, g) && Summed(w, g, tv, eps) && j < |raw|
    requires sum == Total(Reals(g, raw), |raw|) + eps != 0.0 && scale == g(w.scale)
    ensures g(Moe.Reweighed(A, w, raw)[j]) == g(raw[j]) * Factor(w, |raw|, sum, scale)
  {
    if w.renorm && |raw| > 1 {
      SumIs(w, g, tv, eps, raw, |raw|);
      var inv := w.inverse(Moe.SumOf(w, raw, |raw|));
      TwoProducts(A, g, raw[j], inv, w.scale, g(raw[j]), sum, scale);
    } else {
      ProductOf(A, g, raw[j], w.scale, g(raw[j]), scale);
    }
  }

  lemma TwoProducts(A: Arith<Scalar>, g: Scalar -> real, x: Scalar, inv: Scalar, s: Scalar, a: real, sum: real,
      scale: real)
    requires Real(A, g) && a == g(x) && sum != 0.0 && g(inv) == 1.0 / sum && scale == g(s)
    ensures g(A.ops.mul(A.ops.mul(x, inv), s)) == a * (scale / sum)
  {
    var d := g(inv);
    ProductOf(A, g, x, inv, a, d);
    ProductOf(A, g, A.ops.mul(x, inv), s, a * d, scale);
    Regroup(a, sum, scale, d);
  }

  lemma Regroup(a: real, sum: real, k: real, d: real)
    requires sum != 0.0 && d == 1.0 / sum
    ensures (a * d) * k == a * (k / sum)
  {
    assert k / sum == d * k;
    assert (a * d) * k == a * (d * k);
  }

  /** Renormalised gates add up to the scale, short of it only by what `eps` adds to the sum. */
  lemma {:induction false} GatesSum(A: Arith<Scalar>, w: Moe.MoeW, g: Scalar -> real, tv: Moe.Total -> real, eps: real,
      raw: seq<Scalar>, sum: real, scale: real)
    requires Real(A, g) && Summed(w, g, tv, eps) && w.renorm && |raw| > 1
    requires sum == Total(Reals(g, raw), |raw|) + eps != 0.0 && scale == g(w.scale)
    ensures Total(Reals(g, Moe.Reweighed(A, w, raw)), |raw|) == (sum - eps) * (scale / sum)
    ensures eps == 0.0 ==> Total(Reals(g, Moe.Reweighed(A, w, raw)), |raw|) == scale
  {
    var x, z := Reals(g, raw), Reals(g, Moe.Reweighed(A, w, raw));
    var f := Factor(w, |raw|, sum, scale);
    forall i: nat | i < |raw| ensures ScaledAt(x, z, f, i) { GateIs(A, w, g, tv, eps, raw, i, sum, scale); }
    TotalScaled(x, z, f, |raw|);
  }

  ghost predicate AddAt(w: Moe.MoeW, g: Scalar -> real, lv: Moe.Latent -> real, o: Moe.Latent, p: Scalar, c: Moe.Latent)
  {
    lv(w.axpy(o, p, c)) == lv(o) + g(p) * lv(c)
  }

  /** `lv` reads one component of a latent row. */
  ghost predicate Linear(w: Moe.MoeW, g: Scalar -> real, lv: Moe.Latent -> real)
  {
    lv(w.latZero) == 0.0 && forall o, p, c :: AddAt(w, g, lv, o, p, c)
  }

  ghost function Gates(A: Arith<Scalar>, w: Moe.MoeW, g: Scalar -> real, x: Vec): nat -> real
  {
    (j: nat) => if j < w.topk then g(Moe.Gate(A, w, x, j)) else 0.0
  }

  /** That component of what the expert in each slot makes of the token. */
  ghost function Outputs(A: Arith<Scalar>, w: Moe.MoeW, lv: Moe.Latent -> real, x: Vec): nat -> real
  {
    (j: nat) => if j < w.topk then lv(w.apply(w.expert(Moe.Picked(A, w, x)[j].0), w.down(x))) else 0.0
  }

  ghost function Aggregated(A: Arith<Scalar>, w: Moe.MoeW, lv: Moe.Latent -> real, x: Vec): nat -> real
  {
    (n: nat) => if n <= w.topk then lv(Moe.Aggregate(A, w, x, n)) else 0.0
  }

  lemma {:induction false} AddSteps(A: Arith<Scalar>, w: Moe.MoeW, g: Scalar -> real, lv: Moe.Latent -> real, x: Vec,
      j: nat)
    requires Linear(w, g, lv) && j < w.topk
    ensures StepsTo(Aggregated(A, w, lv, x), Times(Gates(A, w, g, x), Outputs(A, w, lv, x)), j)
  {
    var n: nat, o, p, c := j + 1, Moe.Aggregate(A, w, x, j), Moe.Gate(A, w, x, j), Moe.Contribution(A, w, x, j);
    assert Moe.Aggregate(A, w, x, n) == w.axpy(o, p, c);
    AddStep(w, g, lv, o, p, c, Gates(A, w, g, x), Outputs(A, w, lv, x), j);
    assert Aggregated(A, w, lv, x)(n) == lv(Moe.Aggregate(A, w, x, n));
  }

  lemma {:induction false} AllAddSteps(A: Arith<Scalar>, w: Moe.MoeW, g: Scalar -> real, lv: Moe.Latent -> real, x: Vec)
    requires Linear(w, g, lv)
    ensures forall j: nat :: j < w.topk ==>
      StepsTo(Aggregated(A, w, lv, x), Times(Gates(A, w, g, x), Outputs(A, w, lv, x)), j)
  {
    forall j: nat | j < w.topk
      ensures StepsTo(Aggregated(A, w, lv, x), Times(Gates(A, w, g, x), Outputs(A, w, lv, x)), j)
    {
      AddSteps(A, w, g, lv, x, j);
    }
  }

  lemma AddStep(w: Moe.MoeW, g: Scalar -> real, lv: Moe.Latent -> real, o: Moe.Latent, p: Scalar, c: Moe.Latent,
      f: nat -> real, v: nat -> real, i: nat)
    requires Linear(w, g, lv) && f(i) == g(p) && v(i) == lv(c)
    ensures lv(w.axpy(o, p, c)) == lv(o) + Times(f, v)(i)
  {
    assert AddAt(w, g, lv, o, p, c);
  }

  /** What a token gets is the tail of its experts' outputs, each weighted by its slot's gate and added
      up over all slots. */
  lemma {:induction false} MoeIsWeighted(A: Arith<Scalar>, w: Moe.MoeW, g: Scalar -> real, lv: Moe.Latent -> real,
      x: Vec)
    returns (y: Moe.Latent)
    requires Linear(w, g, lv)
    ensures Moe.MoeOut(A, w)(x) == w.tail(x, y)
    ensures lv(y) == Total(Times(Gates(A, w, g, x), Outputs(A, w, lv, x)), w.topk)
  {
    AllAddSteps(A, w, g, lv, x);
    assert Moe.Aggregate(A, w, x, 0) == w.latZero;
    Stepped(Aggregated(A, w, lv, x), Times(Gates(A, w, g, x), Outputs(A, w, lv, x)), w.topk);
    y := Moe.Aggregate(A, w, x, w.topk);
  }
}
