/** Sequential machines: a state carried from one token to the next, and one output per
    token. Every stage of the engine that looks at earlier tokens (the short convolution,
    the KDA recurrence, attention over the KV cache, a decoder layer, the whole model) is
    such a machine; "batched equals serial" is a statement about running one. */
module Machines {

  datatype Mealy<!S, !I, !O> = Mealy(next: (S, I) -> S, out: (S, I) -> O)

  /** The state after consuming `xs` one at a time. */
  function After<S, I, O>(m: Mealy<S, I, O>, s: S, xs: seq<I>): S
  {
    if |xs| == 0 then s
    else m.next(After(m, s, xs[..|xs| - 1]), xs[|xs| - 1])
  }

  /** The output at position `t` of a serial run over `xs`. */
  function OutAt<S, I, O>(m: Mealy<S, I, O>, s: S, xs: seq<I>, t: nat): O
    requires t < |xs|
  {
    m.out(After(m, s, xs[..t]), xs[t])
  }

  function Outs<S, I, O>(m: Mealy<S, I, O>, s: S, xs: seq<I>): (ys: seq<O>)
    ensures |ys| == |xs|
  {
    seq(|xs|, t requires 0 <= t < |xs| => OutAt(m, s, xs, t))
  }

  lemma {:induction false} AfterConcat<S, I, O>(m: Mealy<S, I, O>, s: S, xs: seq<I>, ys: seq<I>)
    ensures After(m, s, xs + ys) == After(m, After(m, s, xs), ys)
    decreases |ys|
  {
    if |ys| == 0 {
      assert xs + ys == xs;
    } else {
      var n := |xs + ys| - 1;
      assert (xs + ys)[..n] == xs + ys[..|ys| - 1];
      AfterConcat(m, s, xs, ys[..|ys| - 1]);
    }
  }

  /** A run over a concatenation is a run over the first part followed by a run over the
      second part from the state the first part left. */
  lemma OutsConcat<S, I, O>(m: Mealy<S, I, O>, s: S, xs: seq<I>, ys: seq<I>)
    ensures Outs(m, s, xs + ys) == Outs(m, s, xs) + Outs(m, After(m, s, xs), ys)
  {
    forall t | 0 <= t < |xs + ys|
      ensures Outs(m, s, xs + ys)[t] == (Outs(m, s, xs) + Outs(m, After(m, s, xs), ys))[t]
    {
      if t < |xs| {
        assert (xs + ys)[..t] == xs[..t];
      } else {
        assert (xs + ys)[..t] == xs + ys[..t - |xs|];
        AfterConcat(m, s, xs, ys[..t - |xs|]);
      }
    }
  }

  /** Output at a position depends only on the inputs up to it. */
  lemma OutsPrefix<S, I, O>(m: Mealy<S, I, O>, s: S, xs: seq<I>, n: nat)
    requires n <= |xs|
    ensures Outs(m, s, xs[..n]) == Outs(m, s, xs)[..n]
  {
    assert xs == xs[..n] + xs[n..];
    OutsConcat(m, s, xs[..n], xs[n..]);
  }

  /** One step of a run, as a loop over the inputs takes it. */
  lemma RunStep<S, I, O>(m: Mealy<S, I, O>, s: S, xs: seq<I>, t: nat)
    requires t < |xs|
    ensures After(m, s, xs[..t + 1]) == m.next(After(m, s, xs[..t]), xs[t])
    ensures Outs(m, s, xs)[t] == m.out(After(m, s, xs[..t]), xs[t])
    ensures Outs(m, s, xs)[..t + 1] == Outs(m, s, xs)[..t] + [m.out(After(m, s, xs[..t]), xs[t])]
  {
    assert xs[..t + 1][..t] == xs[..t];
  }

  /** A stateless stage before and after a machine; the input also bypasses it. */
  function Wrap<S, I, J, P, O>(pre: I -> J, m: Mealy<S, J, P>, post: (I, P) -> O): Mealy<S, I, O>
  {
    Mealy((s, x) => m.next(s, pre(x)), (s, x) => post(x, m.out(s, pre(x))))
  }

  function Map<I, J>(f: I -> J, xs: seq<I>): (ys: seq<J>)
    ensures |ys| == |xs|
    ensures forall t :: 0 <= t < |xs| ==> ys[t] == f(xs[t])
  {
    seq(|xs|, t requires 0 <= t < |xs| => f(xs[t]))
  }

  /** Running the stages one after the other over the whole batch (all of `pre`, then all
      of the machine, then all of `post`) is running the wrapped machine token by token. */
  lemma {:induction false} WrapAfter<S, I, J, P, O>(pre: I -> J, m: Mealy<S, J, P>, post: (I, P) -> O, s: S, xs: seq<I>)
    ensures After(Wrap(pre, m, post), s, xs) == After(m, s, Map(pre, xs))
    decreases |xs|
  {
    if |xs| > 0 {
      var n := |xs| - 1;
      assert Map(pre, xs)[..n] == Map(pre, xs[..n]);
      WrapAfter(pre, m, post, s, xs[..n]);
    }
  }

  lemma WrapOuts<S, I, J, P, O>(pre: I -> J, m: Mealy<S, J, P>, post: (I, P) -> O, s: S, xs: seq<I>)
    ensures forall t :: 0 <= t < |xs| ==>
              Outs(Wrap(pre, m, post), s, xs)[t] == post(xs[t], Outs(m, s, Map(pre, xs))[t])
  {
    forall t | 0 <= t < |xs|
      ensures Outs(Wrap(pre, m, post), s, xs)[t] == post(xs[t], Outs(m, s, Map(pre, xs))[t])
    {
      assert Map(pre, xs)[..t] == Map(pre, xs[..t]);
      WrapAfter(pre, m, post, s, xs[..t]);
    }
  }

  // ------------------------------------------------------------- towers of machines

  /** One token after the first `n` machines, each in its own state. */
  function Climb<S, K>(ms: seq<Mealy<S, K, K>>, cs: seq<S>, k: K, n: nat): K
    decreases n
  {
    if n == 0 then k
    else
      var below := Climb(ms, cs, k, n - 1);
      if n <= |ms| && n <= |cs| then ms[n - 1].out(cs[n - 1], below) else below
  }

  function NextStates<S, K>(ms: seq<Mealy<S, K, K>>, cs: seq<S>, k: K): (r: seq<S>)
    ensures |r| == |cs|
  {
    seq(|cs|, i requires 0 <= i < |cs| => if i < |ms| then ms[i].next(cs[i], Climb(ms, cs, k, i)) else cs[i])
  }

  /** Token-major: each token climbs all the machines before the next token starts. */
  function Tower<S, K>(ms: seq<Mealy<S, K, K>>): Mealy<seq<S>, K, K>
  {
    Mealy((cs, k) => NextStates(ms, cs, k), (cs, k) => Climb(ms, cs, k, |ms|))
  }

  /** Layer-major: the whole batch after the first `n` machines. */
  function Sweep<S, K>(ms: seq<Mealy<S, K, K>>, cs: seq<S>, ks: seq<K>, n: nat): (r: seq<K>)
    requires n <= |ms| == |cs|
    ensures |r| == |ks|
    decreases n
  {
    if n == 0 then ks else Outs(ms[n - 1], cs[n - 1], Sweep(ms, cs, ks, n - 1))
  }

  lemma {:induction false} SweepPrefix<S, K>(ms: seq<Mealy<S, K, K>>, cs: seq<S>, ks: seq<K>, n: nat, t: nat)
    requires n <= |ms| == |cs| && t <= |ks|
    ensures Sweep(ms, cs, ks[..t], n) == Sweep(ms, cs, ks, n)[..t]
    decreases n
  {
    if n > 0 {
      SweepPrefix(ms, cs, ks, n - 1, t);
      OutsPrefix(ms[n - 1], cs[n - 1], Sweep(ms, cs, ks, n - 1), t);
    }
  }

  lemma {:induction false} TowerWidth<S, K>(ms: seq<Mealy<S, K, K>>, cs: seq<S>, ks: seq<K>)
    ensures |After(Tower(ms), cs, ks)| == |cs|
    decreases |ks|
  {
    if |ks| > 0 { TowerWidth(ms, cs, ks[..|ks| - 1]); }
  }

  /** Layer-major equals token-major, states: what machine `i` holds after the batch. */
  lemma {:induction false} SweepState<S, K>(ms: seq<Mealy<S, K, K>>, cs: seq<S>, ks: seq<K>, i: nat)
    requires |ms| == |cs| && i < |ms|
    ensures |After(Tower(ms), cs, ks)| == |cs|
    ensures After(Tower(ms), cs, ks)[i] == After(ms[i], cs[i], Sweep(ms, cs, ks, i))
    decreases |ks|, 0, 0
  {
    TowerWidth(ms, cs, ks);
    if |ks| > 0 {
      var n := |ks| - 1;
      TowerWidth(ms, cs, ks[..n]);
      SweepState(ms, cs, ks[..n], i);
      SweepPrefix(ms, cs, ks, i, n);
      SweepClimb(ms, cs, ks, i, n);
    }
  }

  /** Layer-major equals token-major, tokens: token `t` after the first `i` machines. */
  lemma {:induction false} SweepClimb<S, K>(ms: seq<Mealy<S, K, K>>, cs: seq<S>, ks: seq<K>, i: nat, t: nat)
    requires |ms| == |cs| && i <= |ms| && t < |ks|
    ensures Sweep(ms, cs, ks, i)[t] == Climb(ms, After(Tower(ms), cs, ks[..t]), ks[t], i)
    decreases t, 1, i
  {
    if i > 0 {
      var st := After(Tower(ms), cs, ks[..t]);
      var low := Sweep(ms, cs, ks, i - 1);
      SweepClimb(ms, cs, ks, i - 1, t);
      assert |st| == |cs| && After(ms[i - 1], cs[i - 1], low[..t]) == st[i - 1] by {
        SweepPrefix(ms, cs, ks, i - 1, t);
        SweepState(ms, cs, ks[..t], i - 1);
      }
      assert Sweep(ms, cs, ks, i)[t] == ms[i - 1].out(st[i - 1], low[t]);
    }
  }

  /** A layer-major sweep over the whole batch gives every token what a serial run would. */
  lemma {:induction false} SweepOuts<S, K>(ms: seq<Mealy<S, K, K>>, cs: seq<S>, ks: seq<K>)
    requires |ms| == |cs|
    ensures Sweep(ms, cs, ks, |ms|) == Outs(Tower(ms), cs, ks)
  {
    forall t | 0 <= t < |ks| ensures Sweep(ms, cs, ks, |ms|)[t] == Outs(Tower(ms), cs, ks)[t] {
      SweepClimb(ms, cs, ks, |ms|, t);
    }
  }

  /** The same with a stateless stage at the foot and one at the top of the tower. */
  lemma {:induction false} SweepWrapped<S, I, K, O>(pre: I -> K, ms: seq<Mealy<S, K, K>>, post: (I, K) -> O, cs: seq<S>,
      xs: seq<I>)
    requires |ms| == |cs|
    ensures forall t :: 0 <= t < |xs| ==>
              Outs(Wrap(pre, Tower(ms), post), cs, xs)[t] == post(xs[t], Sweep(ms, cs, Map(pre, xs), |ms|)[t])
    ensures |After(Wrap(pre, Tower(ms), post), cs, xs)| == |cs|
    ensures forall i :: 0 <= i < |cs| ==>
              After(Wrap(pre, Tower(ms), post), cs, xs)[i] == After(ms[i], cs[i], Sweep(ms, cs, Map(pre, xs), i))
  {
    WrapOuts(pre, Tower(ms), post, cs, xs);
    WrapAfter(pre, Tower(ms), post, cs, xs);
    SweepOuts(ms, cs, Map(pre, xs));
    TowerWidth(ms, cs, Map(pre, xs));
    forall i | 0 <= i < |cs|
      ensures After(Wrap(pre, Tower(ms), post), cs, xs)[i] == After(ms[i], cs[i], Sweep(ms, cs, Map(pre, xs), i))
    {
      SweepState(ms, cs, Map(pre, xs), i);
    }
  }
}
