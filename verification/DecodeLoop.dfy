/** The decode loop, src/cli/k3_run.c:982-1349: full recompute, incremental, and speculative
    decoding with an arbitrary drafter, over the buffers the loop mutates. */
module DecodeLoop {
  import opened Numerics
  import opened Machines
  import opened Layer
  import opened Forward
  import Greedy
  import Draft
  import Moe

  /** Where drafts come from: the n-gram lookup, or a draft model whose proposals may be
      anything at all (they depend on the sequence and the round). */
  datatype Drafter = NoDraft | NGram | DraftModel(propose: (seq<Token>, nat) -> seq<Token>)

  // ------------------------------------------------------------- buffers as values

  lemma MemFits(m: Model, mem: seq<Buf>, n: nat, k: nat)
    requires MemOk(m, mem, n) && k <= n
    ensures MemOk(m, mem, k)
  {
  }

  /** A pass keeps every buffer's size, so what fitted before still fits. */
  lemma MemKeepsRoom(m: Model, mem: seq<Buf>, mem': seq<Buf>, n: nat, k: nat, e: nat)
    requires MemOk(m, mem, n) && KeepsAll(mem, mem', k) && MemOk(m, mem', e)
    ensures MemOk(m, mem', n)
    ensures Cached(mem) ==> Cached(mem')
  {
  }

  /** Rollback puts back the recurrent blocks only; KV rows are left as they are. */
  method Restore(m: Model, mem: seq<Buf>, snap: seq<Buf>, ghost n: nat, ghost cap: nat) returns (r: seq<Buf>)
    requires MemOk(m, snap, n) && MemOk(m, snap, cap) && MemOk(m, mem, cap) && KeepsAll(snap, mem, n)
    ensures MemOk(m, r, cap) && MemOk(m, r, n)
    ensures Carries(m, r, n) == Carries(m, snap, n)
    ensures Cached(snap) ==> Cached(r)
  {
    r := mem;
    for L := 0 to |mem|
      invariant |r| == |mem|
      invariant forall i :: 0 <= i < |mem| ==> r[i] == if i < L && snap[i].KdaBuf? then snap[i] else mem[i]
    {
      if snap[L].KdaBuf? { r := r[L := snap[L]]; }
    }
    assert forall i :: 0 <= i < |m.layers| ==> BufOk(m.layers[i], r[i], n);
  }

  /** The buffers, with `n` positions occupied, carry the state of a serial run over `s`. */
  ghost predicate StateIs(M: Mealy<seq<Carry>, Token, Token>, s0: seq<Carry>, m: Model, mem: seq<Buf>, n: nat,
      s: seq<Token>)
  {
    MemOk(m, mem, n) && n == |s| && Carries(m, mem, n) == After(M, s0, s)
  }

  /** An exact pass over the rest of `s` brings the state forward and predicts from it. */
  lemma {:induction false} FeedExact(M: Mealy<seq<Carry>, Token, Token>, s0: seq<Carry>, m: Model, s: seq<Token>,
      from: nat, mem: seq<Buf>, arg: seq<Token>, mem': seq<Buf>)
    requires from <= |s| && Cached(mem) && StateIs(M, s0, m, mem, from, s[..from])
    requires Exact(M, m, s[from..], mem, from, arg, mem', |s|)
    ensures StateIs(M, s0, m, mem', |s|, s)
    ensures arg == Outs(M, After(M, s0, s[..from]), s[from..])
  {
    AfterConcat(M, s0, s[..from], s[from..]);
    assert s[..from] + s[from..] == s;
  }

  /** Without a KV cache every attention layer works from scratch memory. */
  ghost predicate Uncached(m: Model, mem: seq<Buf>)
  {
    |mem| == |m.layers| && forall L :: 0 <= L < |mem| && m.layers[L].attn.MlaA? ==> mem[L].NoBuf?
  }

  lemma FreshState(A: Arith<Scalar>, m: Model, M: Mealy<seq<Carry>, Token, Token>, s0: seq<Carry>, mem: seq<Buf>)
    requires Wired(A, m, M, s0) && MemOk(m, mem, 0) && Uncached(m, mem)
    requires forall L :: 0 <= L < |mem| && m.layers[L].attn.KdaA? ==> mem[L] == KdaBuf(m.kdaZero(L))
    ensures Carries(m, mem, 0) == s0
  {
    assert Key(0);
  }

  /** Full recompute delivers the next token: the pass started from the initial state. */
  lemma {:induction false} FromScratch(M: Mealy<seq<Carry>, Token, Token>, s0: seq<Carry>, m: Model, s: seq<Token>,
                                       mem: seq<Buf>, arg: seq<Token>, mem': seq<Buf>, end: nat)
    requires |s| > 0 && MemOk(m, mem, 0) && Carries(m, mem, 0) == s0 && Exact(M, m, s, mem, 0, arg, mem', end)
    ensures [arg[|s| - 1]] == Greedy.Decode(M, s0, s, 1)
  {
    assert s[0..] == s && s[..0] == [];
    Greedy.LastOut(M, s0, s, 0);
  }

  /** A pass over the rest of the sequence `s` delivers its next token. */
  lemma {:induction false} OneMore(M: Mealy<seq<Carry>, Token, Token>, s0: seq<Carry>, m: Model, mem: seq<Buf>,
      s: seq<Token>, base: nat, arg: seq<Token>, emit: seq<Token>)
    requires base < |s| && StateIs(M, s0, m, mem, |s|, s)
    requires arg == Outs(M, After(M, s0, s[..base]), s[base..])
    requires emit == [arg[|s| - base - 1]]
    ensures emit == Greedy.Decode(M, s0, s, |emit|)
    ensures StateIs(M, s0, m, mem, |s|, s + emit[..|emit| - 1])
  {
    Greedy.LastOut(M, s0, s, base);
    assert s + emit[..|emit| - 1] == s;
  }

  method AcceptedPrefix(arg: seq<Token>, d: seq<Token>) returns (k: nat)
    requires |arg| == |d| + 1
    ensures k <= |d| && (forall i :: 0 <= i < k ==> arg[i] == d[i]) && (k < |d| ==> arg[k] != d[k])
  {
    k := 0;
    while k < |d| && arg[k] == d[k]
      invariant k <= |d| && forall i :: 0 <= i < k ==> arg[i] == d[i]
    {
      k := k + 1;
    }
  }

  /** Emitted tokens followed by delivered ones are greedy output. */
  lemma {:induction false} Extend(M: Mealy<seq<Carry>, Token, Token>, s0: seq<Carry>, ctx: seq<Token>, out: seq<Token>,
      emit: seq<Token>)
    requires |ctx| > 0
    requires out == Greedy.Decode(M, s0, ctx, |out|)
    requires emit == Greedy.Decode(M, s0, ctx + out, |emit|)
    ensures out + emit == Greedy.Decode(M, s0, ctx, |out + emit|)
  {
    Greedy.DecodeSplit(M, s0, ctx, |out|, |emit|);
  }

  class Engine {
    const A: Arith<Scalar>
    const m: Model
    const src: Moe.Source
    const streamed: bool
    const noBatch: bool
    const incremental: bool
    const specN: nat              // most drafts per round, 0 for none
    const drafter: Drafter
    const gen: nat                // tokens to generate
    const start: nat              // tokens before the first generated one
    const buf: array<Token>       // the sequence buffer, with room to spare
    ghost const ctx: seq<Token>   // those first tokens
    ghost const M: Mealy<seq<Carry>, Token, Token>   // the model one token at a time
    ghost const s0: seq<Carry>                       // and its initial state

    var T: nat                    // tokens in the sequence
    var cached: nat               // positions the buffers have consumed
    var mem: seq<Buf>
    var out: seq<Token>           // tokens generated so far

    /** `tokens` is the saved history, if any, followed by the prompt; `mem0` has consumed the
        first `cached0` of them. */
    constructor (A: Arith<Scalar>, m: Model, src: Moe.Source, streamed: bool, noBatch: bool, incremental: bool,
                 specN: nat, drafter: Drafter, gen: nat, tokens: seq<Token>, mem0: seq<Buf>, cached0: nat)
      requires ValidModel(m) && |tokens| >= 1 && specN <= Draft.SPEC_MAX
      requires cached0 <= |tokens| && MemOk(m, mem0, |tokens| + gen + 1)
      requires if incremental then Cached(mem0) && StateIs(ModelM(A, m), Init(m), m, mem0, cached0, tokens[..cached0])
               else Uncached(m, mem0)
      ensures Valid() && Truthful() && fresh(buf)
      ensures this.A == A && this.m == m && this.src == src && this.incremental == incremental && this.specN == specN
      ensures this.gen == gen && this.ctx == tokens && out == [] && cached == cached0
      ensures this.M == ModelM(A, m) && this.s0 == Init(m)
    {
      this.A, this.m, this.src, this.streamed, this.noBatch := A, m, src, streamed, noBatch;
      this.incremental, this.specN, this.drafter, this.gen := incremental, specN, drafter, gen;
      this.start, this.ctx, this.T, this.out := |tokens|, tokens, |tokens|, [];
      this.mem, this.cached, this.M, this.s0 := mem0, cached0, ModelM(A, m), Init(m);
      var n := |tokens|;
      this.buf := new Token[|tokens| + gen + 8](i => if 0 <= i < n then tokens[i] else 0);
      new;
      assert buf[..T] == tokens;
      assert ctx + out == ctx;
    }

    /** Positions every per-position buffer, the KV cache included, is sized for. */
    function Tmax(): nat { start + gen + 1 }

    ghost predicate Layout()
      reads this, buf
    {
      && ValidModel(m) && Wired(A, m, M, s0) && start >= 1 && specN <= Draft.SPEC_MAX && buf.Length == Tmax() + 7
      && |ctx| == start && |out| <= gen && T == start + |out| && buf[..T] == ctx + out
      && MemOk(m, mem, Tmax()) && (if incremental then Cached(mem) else Uncached(m, mem))
    }

    ghost predicate Valid()
      reads this, buf
    {
      Layout() && (incremental ==> cached <= T)
    }

    /** With no expert dropped so far: what has been emitted is greedy output, and the carried
        state is that of a serial run over the consumed positions. */
    ghost predicate Truthful()
      reads this, buf, src
    {
      src.drops == 0 ==>
        && |ctx| > 0 && out == Greedy.Decode(M, s0, ctx, |out|)
        && (incremental ==> cached <= |ctx + out| && StateIs(M, s0, m, mem, cached, (ctx + out)[..cached]))
    }

    /** What a round must deliver: at least one token and no more than are still wanted; with
        no drop, the next greedy tokens, and a state that has consumed all but the last. */
    ghost predicate Delivered(emit: seq<Token>)
      requires |ctx| + |out| > 0
      reads this, src
    {
      && 1 <= |emit| <= gen - |out|
      && (incremental ==> cached == T + |emit| - 1)
      && (src.drops == 0 ==>
            && emit == Greedy.Decode(M, s0, ctx + out, |emit|)
            && (incremental ==> StateIs(M, s0, m, mem, cached, ctx + out + emit[..|emit| - 1])))
    }

    /** A pass over positions from..end of the sequence `s`, which starts the buffer. */
    method Feed(from: nat, end: nat, ghost s: seq<Token>) returns (ok: bool, arg: seq<Token>)
      requires Layout() && incremental && from <= end == |s| <= Tmax() && buf[..end] == s
      modifies this`mem, src
      ensures Layout() && src.drops >= old(src.drops)
      ensures KeepsAll(old(mem), mem, from)
      ensures ok ==> |arg| == end - from
      ensures ok && src.drops == 0 && StateIs(M, s0, m, old(mem), from, s[..from]) ==>
                && StateIs(M, s0, m, mem, end, s)
                && arg == Outs(M, After(M, s0, s[..from]), s[from..])
    {
      ghost var before := mem;
      MemFits(m, mem, Tmax(), from);
      MemFits(m, mem, Tmax(), end);
      assert buf[from..end] == s[from..];
      assert from + |buf[from..end]| == end;
      ok, arg, mem := Pass(A, m, M, s0, buf[from..end], mem, from, src, streamed, noBatch);
      MemKeepsRoom(m, before, mem, Tmax(), from, end);
      if ok && src.drops == 0 && StateIs(M, s0, m, before, from, s[..from]) {
        FeedExact(M, s0, m, s, from, before, arg, mem);
      }
    }

    /** First incremental round: everything not yet consumed, the whole prompt on a fresh run,
        the pending token and the new prompt on a resumed one. */
    method FirstStep() returns (ok: bool, emit: seq<Token>)
      requires Valid() && Truthful() && incremental && cached < T && |out| < gen
      modifies this`mem, this`cached, src
      ensures Layout() && src.drops >= old(src.drops)
      ensures ok ==> Delivered(emit)
    {
      var base := cached;
      ghost var s := ctx + out;
      var arg;
      ok, arg := Feed(base, T, s);
      emit := [];
      if ok {
        cached := T;
        emit := [arg[T - base - 1]];
        if src.drops == 0 {
          OneMore(M, s0, m, mem, s, base, arg, emit);
        }
      }
    }

    /** One token, one pass: the pending token is fed and its successor emitted. */
    method PlainStep() returns (ok: bool, emit: seq<Token>)
      requires Valid() && Truthful() && incremental && cached == T - 1 && |out| < gen
      modifies this`mem, this`cached, src
      ensures Layout() && src.drops >= old(src.drops)
      ensures ok ==> Delivered(emit)
    {
      ok, emit := FirstStep();
    }

    /** Full recompute: state is cleared and the whole sequence fed. */
    method FullStep() returns (ok: bool, emit: seq<Token>)
      requires Valid() && Truthful() && !incremental && |out| < gen
      modifies this`mem, src
      ensures Layout() && src.drops >= old(src.drops)
      ensures ok ==> Delivered(emit)
    {
      mem := ClearStates(m, mem);
      assert MemOk(m, mem, Tmax());
      MemFits(m, mem, Tmax(), 0);
      MemFits(m, mem, Tmax(), T);
      FreshState(A, m, M, s0, mem);
      ghost var before := mem;
      var arg;
      assert T == 0 + |buf[..T]|;
      ok, arg, mem := Pass(A, m, M, s0, buf[..T], mem, 0, src, streamed, noBatch);
      MemKeepsRoom(m, before, mem, Tmax(), 0, T);
      emit := [];
      if ok {
        emit := [arg[T - 1]];
        if src.drops == 0 { FromScratch(M, s0, m, ctx + out, before, arg, mem, T); }
      }
    }

    /** Drafts are written after the sequence, where a rejected one is later overwritten. */
    method WriteDrafts(d: seq<Token>)
      requires Layout() && T + |d| <= buf.Length
      modifies buf
      ensures Layout() && buf[..T + |d|] == ctx + out + d
    {
      for i := 0 to |d|
        invariant buf[..T] == ctx + out
        invariant forall j :: 0 <= j < i ==> buf[T + j] == d[j]
      {
        buf[T + i] := d[i];
      }
    }

    /** Undo a batch that absorbed rejected drafts, and replay the accepted part of it: the
        recurrent blocks come from the snapshot, the KV rows from the replay itself. */
    method Replay(snap: seq<Buf>, base: nat, end: nat, ghost s: seq<Token>) returns (ok: bool)
      requires Layout() && incremental && base <= end == |s| <= Tmax() && buf[..end] == s
      requires MemOk(m, snap, Tmax()) && Cached(snap) && KeepsAll(snap, mem, base)
      modifies this`mem, src
      ensures Layout() && src.drops >= old(src.drops)
      ensures ok && src.drops == 0 && StateIs(M, s0, m, snap, base, s[..base]) ==> StateIs(M, s0, m, mem, end, s)
    {
      MemFits(m, snap, Tmax(), base);
      mem := Restore(m, mem, snap, base, Tmax());
      var arg;
      ok, arg := Feed(base, end, s);
    }

    /** After a verified batch of which `k` drafts hold: either everything fed had true
        context, or the batch is undone and its accepted part replayed. */
    method Settle(snap: seq<Buf>, base: nat, nd: nat, k: nat, ghost all: seq<Token>) returns (ok: bool)
      requires Layout() && incremental && base + nd + 1 == |all| <= Tmax() && buf[..|all|] == all && k <= nd
      requires MemOk(m, snap, Tmax()) && Cached(snap) && KeepsAll(snap, mem, base)
      modifies this`mem, this`cached, src
      ensures Layout() && src.drops >= old(src.drops)
      ensures ok ==> cached == base + k + 1
      ensures ok && src.drops == 0 ==> StateIs(M, s0, m, snap, base, all[..base]) ==>
                StateIs(M, s0, m, old(mem), |all|, all) ==>
                StateIs(M, s0, m, mem, cached, all[..base + k + 1])
    {
      if k == nd {
        cached, ok := base + nd + 1, true;
        assert all[..base + k + 1] == all;
      } else {
        cached := base;
        assert buf[..base + k + 1] == all[..base + k + 1];
        assert all[..base + k + 1][..base] == all[..base];
        ok := Replay(snap, base, base + k + 1, all[..base + k + 1]);
        cached := base + k + 1;
      }
    }

    /** Snapshot, feed the pending token and the drafts in one batch, count the drafts the
        model itself would have produced, settle. `tok` is the model's own token after them. */
    method VerifyBatch(d: seq<Token>, ghost s: seq<Token>) returns (ok: bool, k: nat, tok: Token)
      requires Layout() && incremental && cached + 1 == T == |s| && T + |d| <= Tmax() && buf[..T + |d|] == s + d
      requires src.drops == 0 ==> StateIs(M, s0, m, mem, cached, s[..cached])
      modifies this`mem, this`cached, src
      ensures Layout() && src.drops >= old(src.drops)
      ensures ok ==> k <= |d| && cached == T + k
      ensures ok && src.drops == 0 ==>
                && d[..k] + [tok] == Greedy.Decode(M, s0, s, k + 1)
                && StateIs(M, s0, m, mem, cached, s + d[..k])
    {
      var base, snap := cached, mem;
      ghost var all := s + d;
      assert all[..base] == s[..base];
      var arg;
      ok, arg := Feed(base, T + |d|, all);
      k, tok := 0, 0;
      if ok {
        k := AcceptedPrefix(arg, d);
        tok := arg[k];
        ok := Settle(snap, base, |d|, k, all);
        if ok && src.drops == 0 {
          Greedy.VerifiedBatch(M, s0, s, d, arg, k, d[..k] + [tok]);
          assert all[..base + k + 1] == s + d[..k];
        }
      }
    }

    /** One speculative round: the drafts that verify and the model's own token after them. A
        partial acceptance has been rolled back and replayed. */
    method SpecStep(d: seq<Token>) returns (ok: bool, emit: seq<Token>)
      requires Valid() && Truthful() && incremental && cached == T - 1
      requires 0 < |d| <= specN && T + specN + 1 < Tmax()
      modifies this`mem, this`cached, buf, src
      ensures Layout() && src.drops >= old(src.drops)
      ensures ok ==> Delivered(emit)
    {
      WriteDrafts(d);
      var k, tok;
      ok, k, tok := VerifyBatch(d, ctx + out);
      emit := [];
      if ok {
        emit := d[..k] + [tok];
        assert emit[..|emit| - 1] == d[..k];
      }
    }

    /** The round's tokens join the sequence. The loop's own limits never cut it short: a round
        delivers no more than is still wanted, and the sequence stays below Tmax. */
    method Emit(emit: seq<Token>)
      requires Layout() && Delivered(emit)
      requires src.drops == 0 ==> out == Greedy.Decode(M, s0, ctx, |out|)
      modifies this`T, this`out, buf
      ensures Valid() && Truthful() && out == old(out) + emit
      ensures incremental ==> cached == T - 1
    {
      ghost var out0 := out;
      ghost var good := src.drops == 0;
      var i := 0;
      while i < |emit| && |out| < gen && T < Tmax()
        invariant 0 <= i <= |emit| && out == out0 + emit[..i] && T == start + |out|
        invariant start + |out0| + |emit| < Tmax() && |out0| + |emit| <= gen
        invariant buf[..T] == ctx + out
      {
        buf[T] := emit[i];
        out, T := out + [emit[i]], T + 1;
        i := i + 1;
      }
      assert emit[..i] == emit;
      assert ctx + out == ctx + out0 + emit;
      if src.drops == 0 {
        Extend(M, s0, ctx, out0, emit);
        assert incremental ==> (ctx + out)[..cached] == ctx + out0 + emit[..|emit| - 1];
      }
    }

    /** The drafts of round `g`, never more than `specN`. */
    method Drafts(g: nat) returns (d: seq<Token>)
      requires Layout()
      ensures |d| <= specN
    {
      match drafter {
        case NoDraft => d := [];
        case NGram => d := Draft.SpecDraft(buf[..T], specN);
        case DraftModel(propose) =>
          d := propose(buf[..T], g);
          if |d| > specN { d := d[..specN]; }
      }
    }

    /** One round of the decode loop. */
    method Round(g: nat) returns (ok: bool, emit: seq<Token>)
      requires Valid() && Truthful() && |out| < gen
      requires incremental ==> if g == 0 then cached < T else cached == T - 1
      modifies this`mem, this`cached, buf, src
      ensures Layout() && src.drops >= old(src.drops)
      ensures ok ==> Delivered(emit)
    {
      if incremental && g == 0 {
        ok, emit := FirstStep();
      } else if incremental {
        var d: seq<Token> := [];
        if specN > 0 && T + specN + 1 < Tmax() && cached + specN + 1 <= Tmax() {
          d := Drafts(g);
        }
        if |d| > 0 {
          ok, emit := SpecStep(d);
        } else {
          ok, emit := PlainStep();
        }
      } else {
        ok, emit := FullStep();
      }
    }

    /** The decode loop. In every mode and with every drafter, a run that does not abort emits
        exactly `gen` tokens, and with no expert dropped they are the greedy continuation of
        the context. The state it ends with has consumed all but the last token. */
    method Generate() returns (ok: bool)
      requires Valid() && Truthful() && out == [] && (incremental ==> cached < T)
      modifies this`T, this`out, this`mem, this`cached, buf, src
      ensures src.drops >= old(src.drops)
      ensures ok ==> Valid() && Truthful() && |out| == gen
      ensures ok && src.drops == 0 ==> out == Greedy.Decode(M, s0, ctx, gen)
      ensures ok && incremental && gen > 0 ==> cached == T - 1
      ensures ok && gen == 0 ==> cached == old(cached)
    {
      var g := 0;
      while |out| < gen
        invariant Valid() && Truthful() && src.drops >= old(src.drops)
        invariant incremental ==> if g == 0 then cached < T else cached == T - 1
        invariant (g == 0 <==> |out| == 0) && (g == 0 ==> cached == old(cached))
        invariant T < Tmax()
        decreases gen - |out|
      {
        var emit;
        ok, emit := Round(g);
        if !ok { return; }
        Emit(emit);
        g := g + 1;
      }
      ok := true;
    }
  }
}
