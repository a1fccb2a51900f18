/** The scratch memory of a decoder layer, src/core/k3_ops.c:497-513, 636-645, 800-809, 901-942, and what
    a run sets aside for it, src/cli/k3_run.c:1018-1023. All sizes are in floats. */
module Scratch {
  import opened WidenArea

  function Max(a: nat, b: nat): nat { if a > b then a else b }

  function Rows(T: nat, width: nat): nat { T * width }
  function QueryWidth(c: Cfg): nat { c.heads * (c.qkNope + c.qkRope) }
  function ValueWidth(c: Cfg): nat { c.heads * c.vHead }
  function KvWidth(c: Cfg): nat { c.heads * (c.qkNope + c.vHead) }

  /** Attention with `cap` positions to score; without a cache the keys and values are here too. */
  function MlaFloats(c: Cfg, T: nat, cap: nat, cached: bool): nat
  {
    Rows(T, QueryWidth(c)) + (c.kvLora + c.qkRope) + c.qLora + 2 * ValueWidth(c) + Max(cap, T)
    + if cached then 0 else Rows(T, KvWidth(c)) + Rows(T, c.qkRope)
  }

  function KdaFloats(c: Cfg, T: nat): nat
  {
    var p := c.kdaHeads * c.kdaHeadDim;
    6 * Rows(T, p) + Rows(T, c.kdaHeads) + 2 * p + c.kdaHeadDim
  }

  function MoeFloats(c: Cfg): nat
  {
    3 * c.latent + 3 * c.moeInter + 3 * (c.moeInter * c.shared) + c.hidden
  }

  /** The part all stages share, sized for the largest of the three. */
  function SubFloats(c: Cfg, T: nat): nat { Max(Max(MlaFloats(c, T, T, false), KdaFloats(c, T)), MoeFloats(c)) }

  /** What lies before it: three batches of rows, two folds, the source stack, the dense gate and up. */
  function Front(c: Cfg, maxb: nat, T: nat): nat
  {
    3 * Rows(T, c.hidden) + 2 * c.hidden + Rows(maxb, c.hidden) + 2 * c.denseInter
  }

  function LayerFloats(c: Cfg, maxb: nat, T: nat): nat { Front(c, maxb, T) + SubFloats(c, T) }

  /** What a run allocates for batches of up to `tmax` tokens. */
  function Allocated(c: Cfg, maxb: nat, tmax: nat): nat
  {
    Max(LayerFloats(c, maxb, tmax), MlaFloats(c, tmax, tmax, true))
  }

  /** What a layer's attention and its MLP use of the shared part; a dense MLP keeps its activated
      row there, which the size does not count. */
  function AttnUse(c: Cfg, mla: bool, T: nat, cap: nat, cached: bool): nat
  {
    if mla then MlaFloats(c, T, if cached then cap else T, cached) else KdaFloats(c, T)
  }

  function MlpUse(c: Cfg, dense: bool): nat { if dense then c.denseInter else MoeFloats(c) }

  /** A layer on `T` tokens stays inside the memory it is given. */
  predicate Inside(c: Cfg, maxb: nat, mla: bool, dense: bool, T: nat, cap: nat, cached: bool, have: nat)
  {
    Front(c, maxb, T) + AttnUse(c, mla, T, cap, cached) <= have && Front(c, maxb, T) + MlpUse(c, dense) <= have
  }

  lemma RowsGrow(T: nat, tmax: nat, width: nat)
    requires T <= tmax
    ensures Rows(tmax, width) == Rows(T, width) + Rows(tmax - T, width)
  {
    assert tmax * width == T * width + (tmax - T) * width;
  }

  lemma {:induction false} MlaGrows(c: Cfg, T: nat, cap: nat, cached: bool, tmax: nat)
    requires T <= tmax && cap <= tmax
    ensures MlaFloats(c, T, cap, cached) <= MlaFloats(c, tmax, tmax, false)
  {
    RowsGrow(T, tmax, QueryWidth(c));
    RowsGrow(T, tmax, KvWidth(c));
    RowsGrow(T, tmax, c.qkRope);
  }

  lemma {:induction false} KdaGrows(c: Cfg, T: nat, tmax: nat)
    requires T <= tmax
    ensures KdaFloats(c, T) <= KdaFloats(c, tmax)
  {
    RowsGrow(T, tmax, c.kdaHeads * c.kdaHeadDim);
    RowsGrow(T, tmax, c.kdaHeads);
  }

  /** The second term of the allocation never decides it. */
  lemma {:induction false} AllocatedIs(c: Cfg, maxb: nat, tmax: nat)
    ensures Allocated(c, maxb, tmax) == LayerFloats(c, maxb, tmax)
  {
    MlaGrows(c, tmax, tmax, true, tmax);
  }

  lemma {:induction false} FrontGrows(c: Cfg, maxb: nat, T: nat, tmax: nat)
    requires T <= tmax
    ensures Front(c, maxb, tmax) == Front(c, maxb, T) + 3 * Rows(tmax - T, c.hidden)
  {
    RowsGrow(T, tmax, c.hidden);
  }

  /** Every layer of a run stays inside what the run allocates, except that a dense one does exactly
      when its row fits the shared part and the rows its batch leaves free. */
  lemma {:induction false} DenseExactly(c: Cfg, maxb: nat, mla: bool, dense: bool, T: nat, cap: nat, cached: bool,
      tmax: nat)
    requires T <= tmax && cap <= tmax
    ensures Inside(c, maxb, mla, dense, T, cap, cached, Allocated(c, maxb, tmax))
      <==> !dense || c.denseInter <= SubFloats(c, tmax) + 3 * Rows(tmax - T, c.hidden)
  {
    AllocatedIs(c, maxb, tmax);
    FrontGrows(c, maxb, T, tmax);
    MlaGrows(c, T, if cached then cap else T, cached, tmax);
    KdaGrows(c, T, tmax);
  }

  /** A configuration whose dense layers do not: an intermediate width of a thousand, everything
      else one. */
  lemma {:induction false} DenseOverruns(cap: nat, cached: bool)
    requires cap <= 1
    ensures var c := Cfg(1, 1, 1, 1, 1, 1, 1, 1, 1, 1, 1, 1, 1000, 1, 1, false);
      Allocated(c, 3, 1) == 2019 && !Inside(c, 3, false, true, 1, cap, cached, 2019)
  {
    var c := Cfg(1, 1, 1, 1, 1, 1, 1, 1, 1, 1, 1, 1, 1000, 1, 1, false);
    DenseExactly(c, 3, false, true, 1, cap, cached, 1);
  }
}
