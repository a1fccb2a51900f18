/** Greedy decoding as a definition: the simple thing every decode mode must agree with. */
module Greedy {
  import opened Machines

  type Token = int

  /** The next token after a context: the output at its last position of a serial run. */
  function NextTok<S>(M: Mealy<S, Token, Token>, s0: S, ctx: seq<Token>): Token
    requires |ctx| > 0
  {
    OutAt(M, s0, ctx, |ctx| - 1)
  }

  /** `n` tokens, each the next token after everything before it. */
  function Decode<S>(M: Mealy<S, Token, Token>, s0: S, ctx: seq<Token>, n: nat): (out: seq<Token>)
    requires |ctx| > 0
    ensures |out| == n
    decreases n
  {
    if n == 0 then []
    else
      var t := NextTok(M, s0, ctx);
      [t] + Decode(M, s0, ctx + [t], n - 1)
  }

  lemma DecodeOne<S>(M: Mealy<S, Token, Token>, s0: S, ctx: seq<Token>)
    requires |ctx| > 0
    ensures Decode(M, s0, ctx, 1) == [NextTok(M, s0, ctx)]
  {
    assert Decode(M, s0, ctx, 1) == [NextTok(M, s0, ctx)] + Decode(M, s0, ctx + [NextTok(M, s0, ctx)], 0);
  }

  /** Stopping and continuing from the extended context changes nothing. */
  lemma {:induction false} DecodeSplit<S>(M: Mealy<S, Token, Token>, s0: S, ctx: seq<Token>, a: nat, b: nat)
    requires |ctx| > 0
    ensures Decode(M, s0, ctx, a + b) == Decode(M, s0, ctx, a) + Decode(M, s0, ctx + Decode(M, s0, ctx, a), b)
    decreases a
  {
    if a == 0 {
      assert ctx + [] == ctx;
    } else {
      var t := NextTok(M, s0, ctx);
      DecodeSplit(M, s0, ctx + [t], a - 1, b);
      assert (ctx + [t]) + Decode(M, s0, ctx + [t], a - 1) == ctx + Decode(M, s0, ctx, a);
    }
  }

  /** The prediction at position `i` of a batch fed after `ctx` minus its last token. */
  lemma BatchOut<S>(M: Mealy<S, Token, Token>, s0: S, ctx: seq<Token>, d: seq<Token>, i: nat)
    requires |ctx| > 0 && i <= |d|
    ensures Outs(M, After(M, s0, ctx[..|ctx| - 1]), [ctx[|ctx| - 1]] + d)[i] == NextTok(M, s0, ctx + d[..i])
  {
    var n := |ctx| - 1;
    var ids := [ctx[n]] + d;
    var full := ctx + d[..i];
    if i > 0 {
      assert full[..|full| - 1] == ctx[..n] + ids[..i];
    } else {
      assert full[..|full| - 1] == ctx[..n] + ids[..i];
    }
    AfterConcat(M, s0, ctx[..n], ids[..i]);
  }

  ghost predicate Predicts<S>(M: Mealy<S, Token, Token>, s0: S, ctx: seq<Token>, d: seq<Token>, i: nat, t: Token)
    requires |ctx| > 0 && i <= |d|
  {
    NextTok(M, s0, ctx + d[..i]) == t
  }

  /** Drafts that each equal the next token after the drafts before them are greedy output. */
  lemma {:induction false} Chain<S>(M: Mealy<S, Token, Token>, s0: S, ctx: seq<Token>, d: seq<Token>, k: nat)
    requires |ctx| > 0 && k <= |d|
    requires forall i :: 0 <= i < k ==> Predicts(M, s0, ctx, d, i, d[i])
    ensures Decode(M, s0, ctx, k) == d[..k]
    decreases k
  {
    if k > 0 {
      Chain(M, s0, ctx, d, k - 1);
      DecodeSplit(M, s0, ctx, k - 1, 1);
      assert Predicts(M, s0, ctx, d, k - 1, d[k - 1]);
      DecodeOne(M, s0, ctx + d[..k - 1]);
      assert d[..k] == d[..k - 1] + [d[k - 1]];
    }
  }

  /** Batched verification: if the batch's own predictions agree with the first `k` drafts,
      those drafts and the prediction after them are exactly the next k + 1 greedy tokens,
      whatever the remaining drafts were. */
  lemma {:induction false} Accepted<S>(M: Mealy<S, Token, Token>, s0: S, ctx: seq<Token>, d: seq<Token>,
      arg: seq<Token>, k: nat)
    requires |ctx| > 0 && k <= |d|
    requires arg == Outs(M, After(M, s0, ctx[..|ctx| - 1]), [ctx[|ctx| - 1]] + d)
    requires forall i :: 0 <= i < k ==> arg[i] == d[i]
    ensures Decode(M, s0, ctx, k + 1) == d[..k] + [arg[k]]
  {
    forall i | 0 <= i <= k ensures Predicts(M, s0, ctx, d, i, arg[i]) { BatchOut(M, s0, ctx, d, i); }
    Chain(M, s0, ctx, d, k);
    DecodeSplit(M, s0, ctx, k, 1);
    assert Predicts(M, s0, ctx, d, k, arg[k]);
    DecodeOne(M, s0, ctx + d[..k]);
  }

  /** The last prediction of a pass over everything not yet consumed is the next token,
      wherever the consumed part ended. */
  lemma LastOut<S>(M: Mealy<S, Token, Token>, s0: S, s: seq<Token>, base: nat)
    requires base < |s|
    ensures Decode(M, s0, s, 1) == [Outs(M, After(M, s0, s[..base]), s[base..])[|s| - base - 1]]
  {
    assert s == s[..base] + s[base..];
    OutsConcat(M, s0, s[..base], s[base..]);
    var k := |s| - 1;
    assert Outs(M, s0, s)[k] == (Outs(M, s0, s[..base]) + Outs(M, After(M, s0, s[..base]), s[base..]))[k];
    DecodeOne(M, s0, s);
  }

  /** The same, for a batch taken as the tail of `s + d`: what is emitted, and what has then
      been consumed. */
  lemma {:induction false} VerifiedBatch<S>(M: Mealy<S, Token, Token>, s0: S, s: seq<Token>, d: seq<Token>,
      arg: seq<Token>, k: nat, emit: seq<Token>)
    requires |s| > 0 && k <= |d|
    requires arg == Outs(M, After(M, s0, (s + d)[..|s| - 1]), (s + d)[|s| - 1..])
    requires forall i :: 0 <= i < k ==> arg[i] == d[i]
    requires emit == d[..k] + [arg[k]]
    ensures emit == Decode(M, s0, s, |emit|)
    ensures (s + d)[..|s| + k] == s + emit[..|emit| - 1]
  {
    assert (s + d)[..|s| - 1] == s[..|s| - 1];
    assert (s + d)[|s| - 1..] == [s[|s| - 1]] + d;
    Accepted(M, s0, s, d, arg, k);
  }
}
