/** Saving and resuming a conversation, src/cli/k3_run.c:188-268, and whole runs of the
    program, src/cli/k3_run.c:982-1076, 1193-1361. */
module Session {
  import opened Numerics
  import opened Wrappers
  import opened Machines
  import opened Kda
  import opened Mla
  import opened Layer
  import opened Forward
  import opened DecodeLoop
  import Greedy
  import Draft
  import Moe

  /** The state file. Rows of all MLA layers follow one another in each stream, `cached` rows
      per layer: only occupied positions are written. */
  datatype StateFile = StateFile(
    fp: int,                 // fingerprint of the architecture
    nBound: nat,             // layers
    nMla: nat,
    cached: nat,
    nseq: nat,               // tokens
    tokens: seq<Token>,
    ks: seq<KdaState>,
    kv: seq<KvRow>,
    rope: seq<RopeRow>)

  /** How many of the first `L` layers are attention layers with a KV slice. */
  function Slot(m: Model, L: nat): nat
    requires L <= |m.layers|
  {
    if L == 0 then 0 else Slot(m, L - 1) + if m.layers[L - 1].attn.MlaA? then 1 else 0
  }

  /** The carried state has the kind its layer needs, with `n` rows in every KV slice. */
  ghost predicate KindsOk(m: Model, cs: seq<Carry>, n: nat)
  {
    && |cs| == |m.layers|
    && forall L :: 0 <= L < |cs| ==>
         match cs[L]
         case KdaC(st) => m.layers[L].attn.KdaA? && Kda.ValidState(m.layers[L].attn.kda, st)
         case MlaC(st) => m.layers[L].attn.MlaA? && |st.kv| == |st.rope| == n
  }

  // The three payload sections for the first L layers.

  ghost function KsOf(cs: seq<Carry>, L: nat): seq<KdaState>
    requires L <= |cs|
  {
    if L == 0 then [] else KsOf(cs, L - 1) + if cs[L - 1].KdaC? then [cs[L - 1].kda] else []
  }

  ghost function KvOf(cs: seq<Carry>, L: nat): seq<KvRow>
    requires L <= |cs|
  {
    if L == 0 then [] else KvOf(cs, L - 1) + if cs[L - 1].MlaC? then cs[L - 1].rows.kv else []
  }

  ghost function RopeOf(cs: seq<Carry>, L: nat): seq<RopeRow>
    requires L <= |cs|
  {
    if L == 0 then [] else RopeOf(cs, L - 1) + if cs[L - 1].MlaC? then cs[L - 1].rows.rope else []
  }

  /** The file holds the payload of the carried state `cs`. */
  ghost predicate Payload(m: Model, cs: seq<Carry>, f: StateFile)
  {
    KindsOk(m, cs, f.cached) && f.ks == KsOf(cs, |cs|) && f.kv == KvOf(cs, |cs|) && f.rope == RopeOf(cs, |cs|)
  }

  /** The file is a true record: its payload is the state of a serial run over its own first
      `cached` tokens, which are never more tokens than it lists. */
  ghost predicate Faithful(A: Arith<Scalar>, m: Model, fp: int, f: StateFile)
  {
    && f.fp == fp && f.nBound == |m.layers| && f.nMla == Slot(m, |m.layers|)
    && f.nseq == |f.tokens| && f.cached <= f.nseq
    && Payload(m, After(ModelM(A, m), Init(m), f.tokens[..f.cached]), f)
  }

  // ------------------------------------------------------------------------ save

  lemma MemKinds(m: Model, mem: seq<Buf>, n: nat)
    requires MemOk(m, mem, n) && Cached(mem)
    ensures KindsOk(m, Carries(m, mem, n), n)
  {
  }

  method SaveState(m: Model, fp: int, tokens: seq<Token>, mem: seq<Buf>, cached: nat) returns (f: StateFile)
    requires MemOk(m, mem, cached) && Cached(mem)
    ensures f.fp == fp && f.nBound == |m.layers| && f.nMla == Slot(m, |m.layers|) && f.cached == cached
    ensures f.tokens == tokens && f.nseq == |tokens|
    ensures Payload(m, Carries(m, mem, cached), f)
  {
    MemKinds(m, mem, cached);
    ghost var cs := Carries(m, mem, cached);
    var ks: seq<KdaState>, kv: seq<KvRow>, rope: seq<RopeRow> := [], [], [];
    var n := 0;
    for L := 0 to |mem|
      invariant n == Slot(m, L)
      invariant ks == KsOf(cs, L) && kv == KvOf(cs, L) && rope == RopeOf(cs, L)
    {
      match mem[L] {
        case KdaBuf(st) => ks := ks + [st];
        case KvBuf(sl) =>
          kv := kv + sl.kv[..cached];
          rope := rope + sl.rope[..cached];
          n := n + 1;
        case NoBuf =>
      }
    }
    f := StateFile(fp, |m.layers|, n, cached, |tokens|, tokens, ks, kv, rope);
  }

  // ------------------------------------------------------------------------ load

  datatype Loaded = Refused | Restored(mem: seq<Buf>)

  /** A cleared slice of `cap` positions whose first rows are the given ones. */
  method SliceOf(kv: seq<KvRow>, rope: seq<RopeRow>, cap: nat) returns (sl: Slice)
    requires |kv| == |rope| <= cap
    ensures |sl.kv| == |sl.rope| == cap
    ensures Stored(sl, |kv|) == KvState(kv, rope)
  {
    var a := new KvRow[cap - |kv|];
    var b := new RopeRow[cap - |rope|];
    sl := Slice(kv + a[..], rope + b[..]);
  }

  method CountMla(m: Model) returns (n: nat)
    ensures n == Slot(m, |m.layers|)
  {
    n := 0;
    for L := 0 to |m.layers|
      invariant n == Slot(m, L)
    {
      if m.layers[L].attn.MlaA? { n := n + 1; }
    }
  }

  /** How many of the first `L` layers carry a recurrent block. */
  function KdaSlot(m: Model, L: nat): nat
    requires L <= |m.layers|
  {
    if L == 0 then 0 else KdaSlot(m, L - 1) + if m.layers[L - 1].attn.KdaA? then 1 else 0
  }

  /** Rows of the first `L` layers in each stream, `n` for every KV slice. */
  function RowsAt(m: Model, n: nat, L: nat): nat
    requires L <= |m.layers|
  {
    if L == 0 then 0 else RowsAt(m, n, L - 1) + if m.layers[L - 1].attn.MlaA? then n else 0
  }

  lemma {:induction false} RowsAreSlices(m: Model, n: nat, L: nat)
    requires L <= |m.layers|
    ensures RowsAt(m, n, L) == n * Slot(m, L) && KdaSlot(m, L) + Slot(m, L) == L
  {
    if L > 0 {
      RowsAreSlices(m, n, L - 1);
      assert n * (Slot(m, L - 1) + 1) == n * Slot(m, L - 1) + n;
    }
  }

  /** The file holds what layer `L` needs, where the reader will look for it. */
  ghost predicate Holds(m: Model, f: StateFile, L: nat)
    requires L < |m.layers|
  {
    match m.layers[L].attn
    case KdaA(w) => KdaSlot(m, L) < |f.ks| && Kda.ValidState(w, f.ks[KdaSlot(m, L)])
    case MlaA(_) => RowsAt(m, f.cached, L) + f.cached <= |f.kv| && RowsAt(m, f.cached, L) + f.cached <= |f.rope|
  }

  /** Layer `L`'s own section of the file. */
  ghost function SectionOf(m: Model, f: StateFile, L: nat): Carry
    requires L < |m.layers| && Holds(m, f, L)
  {
    var b := RowsAt(m, f.cached, L);
    match m.layers[L].attn
    case KdaA(_) => KdaC(f.ks[KdaSlot(m, L)])
    case MlaA(_) => MlaC(KvState(f.kv[b..b + f.cached], f.rope[b..b + f.cached]))
  }

  /** Nothing is cut off: all tokens, and every layer's section. */
  ghost predicate Complete(m: Model, f: StateFile)
  {
    |f.tokens| == f.nseq && forall L :: 0 <= L < |m.layers| ==> Holds(m, f, L)
  }

  ghost function Sections(m: Model, f: StateFile): (cs: seq<Carry>)
    requires Complete(m, f)
    ensures |cs| == |m.layers| && forall L :: 0 <= L < |m.layers| ==> cs[L] == SectionOf(m, f, L)
  {
    seq(|m.layers|, L requires 0 <= L < |m.layers| => SectionOf(m, f, L))
  }

  lemma {:induction false} PositionsGrow(m: Model, n: nat, L: nat, end: nat)
    requires L <= end <= |m.layers|
    ensures KdaSlot(m, L) <= KdaSlot(m, end) && RowsAt(m, n, L) <= RowsAt(m, n, end)
    decreases end
  {
    if L < end { PositionsGrow(m, n, L, end - 1); }
  }

  lemma {:induction false} CoveredUpTo(m: Model, f: StateFile, L: nat)
    requires L <= |m.layers| && forall i :: 0 <= i < L ==> Holds(m, f, i)
    ensures KdaSlot(m, L) <= |f.ks|
    ensures RowsAt(m, f.cached, L) <= |f.kv| && RowsAt(m, f.cached, L) <= |f.rope|
  {
    if L > 0 {
      CoveredUpTo(m, f, L - 1);
      assert Holds(m, f, L - 1);
    }
  }

  /** Layer `L`'s block, if it has one and the file holds it, is of the model's shape. */
  ghost predicate BlockFits(m: Model, f: StateFile, L: nat)
    requires L < |m.layers|
  {
    m.layers[L].attn.KdaA? && KdaSlot(m, L) < |f.ks| ==> Kda.ValidState(m.layers[L].attn.kda, f.ks[KdaSlot(m, L)])
  }

  ghost predicate Covers(m: Model, f: StateFile)
  {
    var n := |m.layers|;
    |f.ks| >= KdaSlot(m, n) && |f.kv| >= RowsAt(m, f.cached, n) && |f.rope| >= RowsAt(m, f.cached, n)
  }

  lemma {:induction false} HoldsIf(m: Model, f: StateFile, L: nat)
    requires L < |m.layers| && Covers(m, f) && BlockFits(m, f, L)
    ensures Holds(m, f, L)
  {
    PositionsGrow(m, f.cached, L + 1, |m.layers|);
  }

  /** A file is complete exactly when its token list and its three streams are as long as the
      header's counts call for and its blocks have the model's shape. */
  lemma {:induction false} CompleteExactly(m: Model, f: StateFile)
    ensures var n := |m.layers|;
      Complete(m, f) <==>
        && |f.tokens| == f.nseq && |f.ks| >= n - Slot(m, n)
        && |f.kv| >= f.cached * Slot(m, n) && |f.rope| >= f.cached * Slot(m, n)
        && forall L :: 0 <= L < n ==> BlockFits(m, f, L)
  {
    var n := |m.layers|;
    RowsAreSlices(m, f.cached, n);
    if forall L :: 0 <= L < n ==> Holds(m, f, L) {
      CoveredUpTo(m, f, n);
      forall L | 0 <= L < n ensures BlockFits(m, f, L) { assert Holds(m, f, L); }
    }
    if Covers(m, f) {
      forall L | 0 <= L < n && BlockFits(m, f, L) ensures Holds(m, f, L) { HoldsIf(m, f, L); }
    }
  }

  lemma {:induction false} KsPrefix(cs: seq<Carry>, L: nat, n: nat)
    requires L <= n <= |cs|
    ensures KsOf(cs, L) <= KsOf(cs, n) && KvOf(cs, L) <= KvOf(cs, n) && RopeOf(cs, L) <= RopeOf(cs, n)
    decreases n
  {
    if L < n { KsPrefix(cs, L, n - 1); }
  }

  lemma PrefixSlice<T>(whole: seq<T>, part: seq<T>, head: seq<T>, tail: seq<T>, b: nat, n: nat)
    requires part <= whole && part == head + tail && |head| == b && |tail| == n
    ensures b + n <= |whole| && whole[b..b + n] == tail
  {
  }

  lemma {:induction false} PayloadPositions(m: Model, cs: seq<Carry>, n: nat, L: nat)
    requires KindsOk(m, cs, n) && L <= |cs|
    ensures |KsOf(cs, L)| == KdaSlot(m, L) && |KvOf(cs, L)| == |RopeOf(cs, L)| == RowsAt(m, n, L)
    decreases L
  {
    if L > 0 { PayloadPositions(m, cs, n, L - 1); }
  }

  lemma {:induction false} SectionAt(m: Model, cs: seq<Carry>, f: StateFile, L: nat)
    requires Payload(m, cs, f) && L < |m.layers|
    ensures Holds(m, f, L) && SectionOf(m, f, L) == cs[L]
  {
    assert cs[L].KdaC? <==> m.layers[L].attn.KdaA?;
    if m.layers[L].attn.MlaA? { RowsSection(m, cs, f, L); } else { BlockSection(m, cs, f, L); }
  }

  lemma {:induction false} RowsSection(m: Model, cs: seq<Carry>, f: StateFile, L: nat)
    requires Payload(m, cs, f) && L < |m.layers| && m.layers[L].attn.MlaA? && cs[L].MlaC?
    ensures Holds(m, f, L) && SectionOf(m, f, L) == cs[L]
  {
    KsPrefix(cs, L + 1, |cs|);
    PayloadPositions(m, cs, f.cached, L);
    assert |cs[L].rows.kv| == |cs[L].rows.rope| == f.cached;
    var b := RowsAt(m, f.cached, L);
    PrefixSlice(f.kv, KvOf(cs, L + 1), KvOf(cs, L), cs[L].rows.kv, b, f.cached);
    PrefixSlice(f.rope, RopeOf(cs, L + 1), RopeOf(cs, L), cs[L].rows.rope, b, f.cached);
  }

  lemma {:induction false} BlockSection(m: Model, cs: seq<Carry>, f: StateFile, L: nat)
    requires Payload(m, cs, f) && L < |m.layers| && m.layers[L].attn.KdaA? && cs[L].KdaC?
    ensures Holds(m, f, L) && SectionOf(m, f, L) == cs[L]
  {
    KsPrefix(cs, L + 1, |cs|);
    PayloadPositions(m, cs, f.cached, L);
    PrefixItem(f.ks, KsOf(cs, L + 1), KsOf(cs, L), cs[L].kda);
  }

  /** What was saved is complete and its sections are the state that was saved. */
  lemma {:induction false} SavedSections(m: Model, cs: seq<Carry>, f: StateFile)
    requires Payload(m, cs, f) && |f.tokens| == f.nseq
    ensures Complete(m, f) && Sections(m, f) == cs
  {
    forall L | 0 <= L < |m.layers| ensures Holds(m, f, L) && SectionOf(m, f, L) == cs[L] { SectionAt(m, cs, f, L); }
  }

  lemma PrefixItem<T>(whole: seq<T>, part: seq<T>, head: seq<T>, x: T)
    requires part <= whole && part == head + [x]
    ensures |head| < |whole| && whole[|head|] == x
  {
  }

  /** A buffer of this run's size that shows layer `L`'s section. */
  ghost predicate IsSection(m: Model, f: StateFile, cap: nat, L: nat, b: Buf)
    requires L < |m.layers|
  {
    && BufOk(m.layers[L], b, cap) && BufOk(m.layers[L], b, f.cached) && !b.NoBuf?
    && Holds(m, f, L) && CarryOf(m.layers[L], b, f.cached) == SectionOf(m, f, L)
  }

  lemma {:induction false} AllSections(m: Model, f: StateFile, cap: nat, mem: seq<Buf>)
    requires |f.tokens| == f.nseq && |mem| == |m.layers|
    requires forall i :: 0 <= i < |mem| ==> IsSection(m, f, cap, i, mem[i])
    ensures Complete(m, f) && MemOk(m, mem, cap) && MemOk(m, mem, f.cached) && Cached(mem)
    ensures Carries(m, mem, f.cached) == Sections(m, f)
  {
    forall L | 0 <= L < |m.layers|
      ensures Holds(m, f, L) && BufOk(m.layers[L], mem[L], cap) && BufOk(m.layers[L], mem[L], f.cached)
      ensures !mem[L].NoBuf?
    {
      assert IsSection(m, f, cap, L, mem[L]);
    }
    var cs, ss := Carries(m, mem, f.cached), Sections(m, f);
    forall L | 0 <= L < |cs| ensures cs[L] == ss[L] { assert IsSection(m, f, cap, L, mem[L]); }
  }

  /** One layer's buffer from its part of the file, or nothing if the part is not there. */
  method LoadLayer(m: Model, f: StateFile, cap: nat, L: nat, a: nat, b: nat) returns (r: Option<Buf>)
    requires L < |m.layers| && f.cached <= cap && a == KdaSlot(m, L) && b == RowsAt(m, f.cached, L)
    ensures r.Some? <==> Holds(m, f, L)
    ensures r.Some? ==> IsSection(m, f, cap, L, r.value)
  {
    if m.layers[L].attn.KdaA? {
      if a >= |f.ks| || !Kda.ValidState(m.layers[L].attn.kda, f.ks[a]) { return None; }
      r := Some(KdaBuf(f.ks[a]));
    } else {
      if b + f.cached > |f.kv| || b + f.cached > |f.rope| { return None; }
      var sl := SliceOf(f.kv[b..b + f.cached], f.rope[b..b + f.cached], cap);
      r := Some(KvBuf(sl));
    }
  }

  /** The header is that of this architecture and layer split, and the positions fit. */
  predicate Matches(m: Model, fp: int, f: StateFile, cap: nat)
  {
    f.fp == fp && f.nBound == |m.layers| && f.nMla == Slot(m, |m.layers|) && f.cached <= cap
  }

  /** Reads the sections layer by layer into buffers sized for this run. Files of another
      architecture or layer split, files with more positions than fit, and truncated files
      are refused, and no others; what is restored is the file's own sections, whatever the
      capacity they were saved under. */
  method LoadState(m: Model, fp: int, f: StateFile, cap: nat) returns (r: Loaded)
    ensures r.Restored? <==> Matches(m, fp, f, cap) && Complete(m, f)
    ensures r.Restored? ==> MemOk(m, r.mem, cap) && MemOk(m, r.mem, f.cached) && Cached(r.mem)
    ensures r.Restored? ==> Carries(m, r.mem, f.cached) == Sections(m, f)
  {
    var nMla := CountMla(m);
    if f.fp != fp || f.nBound != |m.layers| || f.nMla != nMla || f.cached > cap || |f.tokens| != f.nseq {
      return Refused;
    }
    var mem: seq<Buf> := [];
    var a: nat, b: nat := 0, 0;       // read positions in the block and row sections
    for L := 0 to |m.layers|
      invariant |mem| == L && a == KdaSlot(m, L) && b == RowsAt(m, f.cached, L)
      invariant forall i :: 0 <= i < L ==> IsSection(m, f, cap, i, mem[i])
    {
      var x := LoadLayer(m, f, cap, L, a, b);
      if x.None? { return Refused; }
      mem := mem + [x.value];
      if m.layers[L].attn.KdaA? { a := a + 1; } else { b := b + f.cached; }
    }
    r := Restored(mem);
    AllSections(m, f, cap, mem);
  }

  // ------------------------------------------------------------------ whole runs

  /** Buffers for a new conversation: cleared recurrent blocks, and KV slices of `cap`
      positions, or none when the cache is not used. */
  method FreshMem(m: Model, cap: nat, incremental: bool) returns (mem: seq<Buf>)
    requires ValidModel(m)
    ensures MemOk(m, mem, cap)
    ensures if incremental then Cached(mem) && MemOk(m, mem, 0) && Carries(m, mem, 0) == Init(m) else Uncached(m, mem)
  {
    mem := [];
    for L := 0 to |m.layers|
      invariant |mem| == L
      invariant forall i :: 0 <= i < L ==> BufOk(m.layers[i], mem[i], cap) && BufOk(m.layers[i], mem[i], 0)
      invariant forall i :: 0 <= i < L ==>
        if incremental then !mem[i].NoBuf? else m.layers[i].attn.MlaA? ==> mem[i].NoBuf?
      invariant incremental ==> forall i :: 0 <= i < L ==> CarryOf(m.layers[i], mem[i], 0) == InitCarry(m, i)
    {
      if m.layers[L].attn.KdaA? {
        mem := mem + [KdaBuf(m.kdaZero(L))];
      } else if incremental {
        var sl := SliceOf([], [], cap);
        mem := mem + [KvBuf(sl)];
      } else {
        mem := mem + [NoBuf];
      }
    }
  }

  lemma InitIsStart(A: Arith<Scalar>, m: Model, mem: seq<Buf>, tokens: seq<Token>)
    requires MemOk(m, mem, 0) && Carries(m, mem, 0) == Init(m)
    ensures StateIs(ModelM(A, m), Init(m), m, mem, 0, tokens[..0])
  {
  }

  /** A file this program may be given: either it is of another make or truncated (and will be
      refused) or it is a true record. */
  ghost predicate Acceptable(A: Arith<Scalar>, m: Model, fp: int, f: StateFile)
  {
    Matches(m, fp, f, f.cached) && Complete(m, f) ==> Faithful(A, m, fp, f)
  }

  /** The tokens a resumed run starts from. */
  function Prior(load: Option<StateFile>): seq<Token>
  {
    if load.Some? then load.value.tokens else []
  }

  /** Buffers and position to start from: fresh, or restored into slices of this run's size. */
  method OpenState(A: Arith<Scalar>, m: Model, fp: int, load: Option<StateFile>, tokens: seq<Token>, cap: nat,
      incremental: bool)
    returns (ok: bool, mem: seq<Buf>, cached: nat)
    requires ValidModel(m) && |tokens| <= cap && Prior(load) <= tokens
    requires load.Some? ==> Acceptable(A, m, fp, load.value)
    ensures load.None? ==> ok
    ensures ok ==> MemOk(m, mem, cap) && cached <= |Prior(load)|
    ensures ok && incremental ==> Cached(mem) && StateIs(ModelM(A, m), Init(m), m, mem, cached, tokens[..cached])
    ensures ok && !incremental ==> Uncached(m, mem)
  {
    ok, mem, cached := true, [], 0;
    if load.Some? {
      if !incremental { return false, [], 0; }
      var f := load.value;
      var r := LoadState(m, fp, f, cap);
      if r.Refused? { return false, [], 0; }
      SavedSections(m, After(ModelM(A, m), Init(m), f.tokens[..f.cached]), f);
      mem, cached := r.mem, f.cached;
      assert tokens[..cached] == f.tokens[..cached];
    } else {
      mem := FreshMem(m, cap, incremental);
      if incremental { InitIsStart(A, m, mem, tokens); }
    }
  }

  /** One run of the program: open or resume, decode, save. Whatever the mode, the number of
      drafts and the drafter, the tokens are the greedy continuation of the saved history and
      the prompt, and the file written is again a true record. */
  method RunProgram(A: Arith<Scalar>, m: Model, fp: int, src: Moe.Source, streamed: bool, noBatch: bool,
      incremental: bool, spec: nat, drafter: Drafter, gen: nat, load: Option<StateFile>, prompt: seq<Token>)
    returns (ok: bool, out: seq<Token>, saved: Option<StateFile>)
    requires ValidModel(m) && |prompt| >= 1
    requires load.Some? ==> Acceptable(A, m, fp, load.value)
    modifies src
    ensures ok ==> |out| == gen && (saved.Some? <==> incremental)
    ensures ok && src.drops == 0 ==> out == Greedy.Decode(ModelM(A, m), Init(m), Prior(load) + prompt, gen)
    ensures ok && src.drops == 0 && incremental ==>
              Faithful(A, m, fp, saved.value) && saved.value.tokens == Prior(load) + prompt + out
    ensures ok && incremental && gen > 0 ==> saved.value.cached == |saved.value.tokens| - 1
  {
    var tokens := Prior(load) + prompt;
    var mem, cached;
    out, saved := [], None;
    ok, mem, cached := OpenState(A, m, fp, load, tokens, |tokens| + gen + 1, incremental);
    if ok {
      var drafts := if spec > Draft.SPEC_MAX then Draft.SPEC_MAX else spec;
      var e := new Engine(A, m, src, streamed, noBatch, incremental, drafts, drafter, gen, tokens, mem, cached);
      ok := e.Generate();
      if ok {
        out := e.out;
        if incremental {
          var f := WriteFile(e, fp);
          saved := Some(f);
        }
      }
    }
  }

  /** Writes the file at the end of a run. */
  method WriteFile(e: Engine, fp: int) returns (f: StateFile)
    requires e.Valid() && e.Truthful() && e.incremental
    requires e.M == ModelM(e.A, e.m) && e.s0 == Init(e.m)
    ensures f.cached == e.cached && f.tokens == e.ctx + e.out
    ensures e.src.drops == 0 ==> Faithful(e.A, e.m, fp, f)
  {
    MemFits(e.m, e.mem, e.Tmax(), e.cached);
    f := SaveState(e.m, fp, e.buf[..e.T], e.mem, e.cached);
  }
}
