/** The causal depthwise convolution with carried history, src/core/k3_ops.c:126-158. */
module ShortConv {
  import opened Numerics
  import opened Machines

  /** Taps are ordered oldest to newest: the last tap multiplies the current input and is
      added first, then the history in order. */
  function TapSum(A: Arith<Scalar>, taps: seq<Scalar>, buf: seq<Scalar>, cur: Scalar, n: nat): Scalar
    requires |taps| == |buf| + 1 && n <= |buf|
  {
    if n == 0 then A.ops.mul(taps[|buf|], cur)
    else A.ops.add(TapSum(A, taps, buf, cur, n - 1), A.ops.mul(taps[n - 1], buf[n - 1]))
  }

  function TapOut(A: Arith<Scalar>, taps: seq<Scalar>, buf: seq<Scalar>, cur: Scalar): Scalar
  {
    if |taps| == |buf| + 1 then
      var acc := TapSum(A, taps, buf, cur, |buf|);
      A.ops.mul(acc, A.sigmoid(acc))
    else A.ops.zero
  }

  /** The history window slides by one; a width-one kernel keeps none. */
  function Slide(buf: seq<Scalar>, cur: Scalar): (r: seq<Scalar>)
    ensures |r| == |buf|
  {
    if |buf| == 0 then [] else buf[1..] + [cur]
  }

  /** One channel: the machine whose state is its history. */
  function Channel(A: Arith<Scalar>, taps: seq<Scalar>): Mealy<seq<Scalar>, Scalar, Scalar>
  {
    Mealy((buf, cur) => Slide(buf, cur), (buf, cur) => TapOut(A, taps, buf, cur))
  }

  // ------------------------------------------------------- one channel, index by index

  /** A channel's carried history and then its inputs. After a run the history is the last of
      that line, oldest first. */
  lemma {:induction false} HistoryIsLast(A: Arith<Scalar>, taps: seq<Scalar>, hist: seq<Scalar>, xs: seq<Scalar>)
    ensures After(Channel(A, taps), hist, xs) == (hist + xs)[|xs|..]
    decreases |xs|
  {
    if |xs| == 0 {
      assert hist + xs == hist;
    } else {
      var ys, y := xs[..|xs| - 1], xs[|xs| - 1];
      HistoryIsLast(A, taps, hist, ys);
      assert hist + xs == (hist + ys) + [y];
    }
  }

  /** Sums from the first on. */
  function SumUp(A: Arith<Scalar>, ps: seq<Scalar>): Scalar
    requires |ps| > 0
  {
    if |ps| == 1 then ps[0] else A.ops.add(SumUp(A, ps[..|ps| - 1]), ps[|ps| - 1])
  }

  /** Tap `j` meets place `t + j` of the line. */
  function Products(A: Arith<Scalar>, taps: seq<Scalar>, line: seq<Scalar>, t: nat): (r: seq<Scalar>)
    requires t + |taps| <= |line|
    ensures |r| == |taps|
  {
    seq(|taps|, j requires 0 <= j < |taps| => A.ops.mul(taps[j], line[t + j]))
  }

  /** Output `t`: the product with the newest comes first, then the others from the oldest on; the
      sum times its sigmoid. */
  function ConvAt(A: Arith<Scalar>, taps: seq<Scalar>, line: seq<Scalar>, t: nat): Scalar
    requires |taps| > 0 && t + |taps| <= |line|
  {
    var ps := Products(A, taps, line, t);
    var s := SumUp(A, [ps[|ps| - 1]] + ps[..|ps| - 1]);
    A.ops.mul(s, A.sigmoid(s))
  }

  lemma {:induction false} TapsInOrder(A: Arith<Scalar>, taps: seq<Scalar>, buf: seq<Scalar>, cur: Scalar,
      ps: seq<Scalar>, n: nat)
    requires |taps| == |buf| + 1 == |ps| && n <= |buf|
    requires ps == Products(A, taps, buf + [cur], 0)
    ensures TapSum(A, taps, buf, cur, n) == SumUp(A, [ps[|buf|]] + ps[..n])
    decreases n
  {
    if n == 0 {
      assert [ps[|buf|]] + ps[..0] == [ps[|buf|]];
    } else {
      TapsInOrder(A, taps, buf, cur, ps, n - 1);
      var all := [ps[|buf|]] + ps[..n];
      assert all[..|all| - 1] == [ps[|buf|]] + ps[..n - 1];
    }
  }

  /** Each output of a channel, by index, in its own and its carried inputs. */
  lemma {:induction false} ConvIsWindow(A: Arith<Scalar>, taps: seq<Scalar>, hist: seq<Scalar>, xs: seq<Scalar>, t: nat)
    requires |taps| == |hist| + 1 && t < |xs|
    ensures Outs(Channel(A, taps), hist, xs)[t] == ConvAt(A, taps, hist + xs, t)
  {
    var buf := (hist + xs[..t])[t..];
    HistoryIsLast(A, taps, hist, xs[..t]);
    WindowSum(A, taps, buf, xs[t], hist + xs, t);
  }

  lemma {:induction false} WindowSum(A: Arith<Scalar>, taps: seq<Scalar>, buf: seq<Scalar>, cur: Scalar,
      line: seq<Scalar>, t: nat)
    requires |taps| == |buf| + 1 && t + |taps| <= |line|
    requires line[t + |buf|] == cur && forall j :: 0 <= j < |buf| ==> line[t + j] == buf[j]
    ensures TapOut(A, taps, buf, cur) == ConvAt(A, taps, line, t)
  {
    var ps := Products(A, taps, buf + [cur], 0);
    assert ps == Products(A, taps, line, t);
    TapsInOrder(A, taps, buf, cur, ps, |buf|);
  }

  function At(v: seq<Scalar>, c: nat, A: Arith<Scalar>): Scalar { if c < |v| then v[c] else A.ops.zero }

  /** All channels together, token by token: each token's row updates every history. */
  function Conv(A: Arith<Scalar>, w: seq<seq<Scalar>>): Mealy<seq<seq<Scalar>>, seq<Scalar>, seq<Scalar>>
  {
    Mealy((hist: seq<seq<Scalar>>, x: seq<Scalar>) =>
            seq(|hist|, c requires 0 <= c < |hist| => Slide(hist[c], At(x, c, A))),
          (hist: seq<seq<Scalar>>, x: seq<Scalar>) =>
            seq(|hist|, c requires 0 <= c < |hist| =>
              TapOut(A, if c < |w| then w[c] else [], hist[c], At(x, c, A))))
  }

  /** Channel `c` of a batch, as the channel-outer loop of the source walks it. */
  function Column(A: Arith<Scalar>, xs: seq<seq<Scalar>>, c: nat): (col: seq<Scalar>)
    ensures |col| == |xs|
  {
    seq(|xs|, t requires 0 <= t < |xs| => At(xs[t], c, A))
  }

  /** Channels are independent: the token-major run restricted to one channel is that
      channel's own run over its column. */
  lemma {:induction false} ConvColumn(A: Arith<Scalar>, w: seq<seq<Scalar>>, hist: seq<seq<Scalar>>,
      xs: seq<seq<Scalar>>, c: nat)
    requires c < |hist|
    ensures |After(Conv(A, w), hist, xs)| == |hist|
    ensures After(Conv(A, w), hist, xs)[c] ==
            After(Channel(A, if c < |w| then w[c] else []), hist[c], Column(A, xs, c))
    decreases |xs|
  {
    if |xs| > 0 {
      var n := |xs| - 1;
      ConvColumn(A, w, hist, xs[..n], c);
      assert Column(A, xs, c)[..n] == Column(A, xs[..n], c);
    }
  }

  lemma ConvOut(A: Arith<Scalar>, w: seq<seq<Scalar>>, hist: seq<seq<Scalar>>, xs: seq<seq<Scalar>>, c: nat, t: nat)
    requires c < |hist| && t < |xs|
    ensures |Outs(Conv(A, w), hist, xs)[t]| == |hist|
    ensures Outs(Conv(A, w), hist, xs)[t][c] ==
            Outs(Channel(A, if c < |w| then w[c] else []), hist[c], Column(A, xs, c))[t]
  {
    ConvColumn(A, w, hist, xs[..t], c);
    assert Column(A, xs, c)[..t] == Column(A, xs[..t], c);
  }

  lemma {:induction false} AfterWidth(A: Arith<Scalar>, w: seq<seq<Scalar>>, hist: seq<seq<Scalar>>,
      xs: seq<seq<Scalar>>)
    ensures |After(Conv(A, w), hist, xs)| == |hist|
    ensures forall c :: 0 <= c < |hist| ==> |After(Conv(A, w), hist, xs)[c]| == |hist[c]|
    decreases |xs|
  {
    if |xs| > 0 { AfterWidth(A, w, hist, xs[..|xs| - 1]); }
  }

  lemma OutWidth(A: Arith<Scalar>, w: seq<seq<Scalar>>, hist: seq<seq<Scalar>>, xs: seq<seq<Scalar>>, t: nat)
    requires t < |xs|
    ensures |Outs(Conv(A, w), hist, xs)[t]| == |hist|
  {
    AfterWidth(A, w, hist, xs[..t]);
  }

  /** Row `t` of a batch held in a matrix. */
  ghost function Rows(x: array2<Scalar>): seq<seq<Scalar>>
    reads x
  {
    seq(x.Length0, t requires 0 <= t < x.Length0 reads x =>
      seq(x.Length1, c requires 0 <= c < x.Length1 reads x => x[t, c]))
  }

  /** Column `c` of a batch held in a matrix. */
  ghost function Col(x: array2<Scalar>, c: nat): (col: seq<Scalar>)
    requires c < x.Length1
    reads x
    ensures |col| == x.Length0
  {
    seq(x.Length0, t requires 0 <= t < x.Length0 reads x => x[t, c])
  }

  /** One position of one channel: the tap loop, the activation, the slide of the window. */
  method Tap(A: Arith<Scalar>, taps: seq<Scalar>, buf: seq<Scalar>, cur: Scalar) returns (y: Scalar, buf': seq<Scalar>)
    requires |taps| == |buf| + 1
    ensures y == TapOut(A, taps, buf, cur) && buf' == Slide(buf, cur)
  {
    var acc := A.ops.mul(taps[|buf|], cur);
    for j := 0 to |buf|
      invariant acc == TapSum(A, taps, buf, cur, j)
    {
      acc := A.ops.add(acc, A.ops.mul(taps[j], buf[j]));
    }
    y := A.ops.mul(acc, A.sigmoid(acc));
    buf' := if |buf| == 0 then [] else buf[1..] + [cur];
  }

  /** The inner loop for one channel: `buf` slides along the batch, each output replacing
      the input it was computed from. */
  method ApplyChannel(A: Arith<Scalar>, taps: seq<Scalar>, hist: seq<Scalar>, x: array2<Scalar>, c: nat,
      ghost ch: Mealy<seq<Scalar>, Scalar, Scalar>)
    returns (buf: seq<Scalar>)
    requires c < x.Length1 && |taps| == |hist| + 1 && ch == Channel(A, taps)
    modifies x
    ensures buf == After(ch, hist, old(Col(x, c)))
    ensures Col(x, c) == Outs(ch, hist, old(Col(x, c)))
    ensures forall t, d :: 0 <= t < x.Length0 && 0 <= d < x.Length1 && d != c ==> x[t, d] == old(x[t, d])
  {
    ghost var col := Col(x, c);
    ghost var ys: seq<Scalar> := [];
    buf := hist;
    for t := 0 to x.Length0
      invariant |buf| == |hist|
      invariant buf == After(ch, hist, col[..t]) && ys == Outs(ch, hist, col)[..t]
      invariant forall u :: 0 <= u < x.Length0 ==> x[u, c] == if u < t then ys[u] else col[u]
      invariant forall u, d :: 0 <= u < x.Length0 && 0 <= d < x.Length1 && d != c ==> x[u, d] == old(x[u, d])
    {
      RunStep(ch, hist, col, t);
      var y;
      y, buf := Tap(A, taps, buf, x[t, c]);
      x[t, c] := y;
      ys := ys + [y];
    }
    assert col[..x.Length0] == col;
    assert Col(x, c) == ys;
  }

  /** In place over `x`, channels outermost, each channel's history read from and written
      back to the carried state. Equal to the token-by-token machine for every batch
      length, including none, and every kernel width, including one. */
  method Apply(A: Arith<Scalar>, w: seq<seq<Scalar>>, state: seq<seq<Scalar>>, x: array2<Scalar>)
    returns (state': seq<seq<Scalar>>)
    requires |w| == |state| == x.Length1
    requires forall c :: 0 <= c < |w| ==> |w[c]| == |state[c]| + 1
    modifies x
    ensures state' == After(Conv(A, w), state, old(Rows(x)))
    ensures Rows(x) == Outs(Conv(A, w), state, old(Rows(x)))
    ensures |state'| == |state|
    ensures forall c :: 0 <= c < |w| ==> Carried(state[c], old(Col(x, c)), state'[c])
    ensures forall c :: 0 <= c < |w| ==> Convolved(A, w[c], state[c], old(Col(x, c)), Col(x, c))
  {
    ghost var xs := Rows(x);
    AfterWidth(A, w, state, xs);
    forall t | 0 <= t < |xs| ensures |Outs(Conv(A, w), state, xs)[t]| == |state| { OutWidth(A, w, state, xs, t); }
    state' := state;
    for c := 0 to x.Length1
      invariant |state'| == |state|
      invariant forall d :: c <= d < |state| ==> state'[d] == state[d]
      invariant forall d :: 0 <= d < c ==> state'[d] == After(Conv(A, w), state, xs)[d]
      invariant forall t, d :: 0 <= t < x.Length0 && c <= d < x.Length1 ==> x[t, d] == xs[t][d]
      invariant forall t, d :: 0 <= t < x.Length0 && 0 <= d < c ==>
                  x[t, d] == Outs(Conv(A, w), state, xs)[t][d]
    {
      assert Col(x, c) == Column(A, xs, c);
      var buf := ApplyChannel(A, w[c], state[c], x, c, Channel(A, w[c]));
      ConvColumn(A, w, state, xs, c);
      state' := state'[c := buf];
      forall t | 0 <= t < x.Length0 ensures x[t, c] == Outs(Conv(A, w), state, xs)[t][c] {
        ConvOut(A, w, state, xs, c, t);
        assert x[t, c] == Col(x, c)[t];
      }
    }
    forall t | 0 <= t < |xs| ensures Rows(x)[t] == Outs(Conv(A, w), state, xs)[t] { }
    forall c | 0 <= c < |w|
      ensures Carried(state[c], old(Col(x, c)), state'[c]) && Convolved(A, w[c], state[c], old(Col(x, c)), Col(x, c))
    {
      assert old(Col(x, c)) == Column(A, xs, c);
      ApplyColumn(A, w, state, xs, c);
      assert Col(x, c) == OutColumn(A, w, state, xs, c);
    }
  }

  /** The history left behind is the last of the inputs. */
  ghost predicate Carried(hist: seq<Scalar>, col: seq<Scalar>, hist': seq<Scalar>)
  {
    hist' == (hist + col)[|col|..]
  }

  /** Every output is the window's. */
  ghost predicate Convolved(A: Arith<Scalar>, taps: seq<Scalar>, hist: seq<Scalar>, col: seq<Scalar>, out: seq<Scalar>)
    requires |taps| == |hist| + 1
  {
    |out| == |col| && forall t :: 0 <= t < |col| ==> out[t] == ConvAt(A, taps, hist + col, t)
  }

  /** Channel `c` of the outputs. */
  ghost function OutColumn(A: Arith<Scalar>, w: seq<seq<Scalar>>, state: seq<seq<Scalar>>, xs: seq<seq<Scalar>>, c: nat)
    : (r: seq<Scalar>)
    requires c < |state|
    ensures |r| == |xs|
  {
    seq(|xs|, t requires 0 <= t < |xs| => At(Outs(Conv(A, w), state, xs)[t], c, A))
  }

  lemma {:induction false} ApplyColumn(A: Arith<Scalar>, w: seq<seq<Scalar>>, state: seq<seq<Scalar>>,
      xs: seq<seq<Scalar>>, c: nat)
    requires c < |state| == |w| && |w[c]| == |state[c]| + 1
    ensures |After(Conv(A, w), state, xs)| == |state|
    ensures Carried(state[c], Column(A, xs, c), After(Conv(A, w), state, xs)[c])
    ensures Convolved(A, w[c], state[c], Column(A, xs, c), OutColumn(A, w, state, xs, c))
  {
    ConvColumn(A, w, state, xs, c);
    HistoryIsLast(A, w[c], state[c], Column(A, xs, c));
    forall t | 0 <= t < |xs|
      ensures OutColumn(A, w, state, xs, c)[t] == ConvAt(A, w[c], state[c] + Column(A, xs, c), t)
    {
      ConvOut(A, w, state, xs, c, t);
      ConvIsWindow(A, w[c], state[c], Column(A, xs, c), t);
    }
  }
}
