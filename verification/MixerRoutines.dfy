/** The mixers' in-place routines run over copies of the engine's buffers: what they leave in them is
    what a layer of the model computes. */
module MixerRoutines {
  import opened Sums
  import opened Striding
  import opened Blocks
  import opened Elementary
  import opened Conv
  import opened Gdn
  import opened RotaryEmbedding = Rope
  import opened Attention
  import opened Llama

  method Buffer(v: Vec) returns (a: array<real>)
    ensures fresh(a) && a[..] == v
  {
    a := new real[|v|](i requires 0 <= i < |v| => v[i]);
  }

  method Zeros(n: nat) returns (a: array<real>)
    ensures fresh(a) && a.Length == n
  {
    a := new real[n](_ => 0.0);
  }

  lemma PartIsBlock(v: Vec, n: nat, c: nat, h: nat)
    requires |v| == n * c && h < n
    ensures h * c + c <= |v| && Part(v, h * c, c) == Block(v, c, h)
  {
    RowEnd(h, n, c);
    Nonneg(h, c);
    PartIsSlice(v, h * c, c);
  }

  lemma PartIsSlice(v: Vec, at: nat, c: nat)
    requires at + c <= |v|
    ensures Part(v, at, c) == v[at..at + c]
  {
    forall d | 0 <= d < c
      ensures Part(v, at, c)[d] == v[at..at + c][d]
    {
      assert Part(v, at, c)[d] == At(v, at + d);
    }
  }

  /** The rotation a layer uses: of whole heads, or of their first n_rot dimensions. */
  function RotationOf(m: Model, whole: bool): Rotation {
    if whole then m.cfg.Full(m.cfg.ropeScale) else m.cfg.Partial(m.cfg.ropeScale)
  }

  lemma RotatedBlocks(m: Model, rot: Rotation, was: Vec, now: Vec, heads: nat, pos: nat)
    requires |was| == |now| == heads * rot.headDim
    requires rot.AllRotated(was, now, heads, pos)
    ensures now == m.RotateHeads(rot, was, heads, pos)
  {
    hide Rotation.Rotate, Block, FromBlocks;
    var f := (h: int) => rot.Rotate(Part(was, h * rot.headDim, rot.headDim), pos);
    forall h | 0 <= h < heads
      ensures BlockIs(now, heads, rot.headDim, h, f(h))
    {
      PartIsBlock(was, heads, rot.headDim, h);
      assert rot.HeadRotated(was, now, heads, pos, h);
    }
    BlocksDecide(now, heads, rot.headDim, f);
  }

  /** `rope` or `rope_partial` on the query and key buffers. */
  method RotateBuffers(m: Model, whole: bool, q: Vec, k: Vec, pos: nat) returns (query: Vec, key: Vec)
    requires |q| == m.cfg.shape.heads * m.cfg.shape.headDim && |k| == m.cfg.shape.KvDim()
    requires m.cfg.nRot <= m.cfg.shape.headDim || whole
    ensures query == m.RotateHeads(RotationOf(m, whole), q, m.cfg.shape.heads, pos)
    ensures key == m.RotateHeads(RotationOf(m, whole), k, m.cfg.shape.kvHeads, pos)
  {
    hide Model.RotateHeads, Rotation.AllRotated;
    var cfg, rot := m.cfg, RotationOf(m, whole);
    var shape := cfg.shape;
    var qs := Buffer(q);
    var ks := Buffer(k);
    if whole {
      RotaryEmbedding.Rope(cfg.math, shape.headDim, cfg.theta, cfg.ropeScale, qs, ks, shape.heads, shape.kvHeads, pos);
    } else {
      RopePartial(cfg.math, shape.headDim, cfg.nRot, cfg.theta, cfg.ropeScale, qs, ks, shape.heads, shape.kvHeads, pos);
    }
    query, key := qs[..], ks[..];
    RotatedBlocks(m, rot, q, query, shape.heads, pos);
    RotatedBlocks(m, rot, k, key, shape.kvHeads, pos);
  }

  /** `attention_into` over everything the cache holds up to this position. */
  method AttendBuffers(m: Model, q: Vec, keys: Vec, values: Vec, n: nat) returns (out: Vec)
    requires m.cfg.shape.Ok() && |q| == m.cfg.shape.heads * m.cfg.shape.headDim
    requires |keys| == |values| == n * m.cfg.shape.KvDim()
    ensures out == m.AttendFlat(q, keys, values, n)
  {
    hide Shape.Attend, FromBlocks;
    var shape, math := m.cfg.shape, m.cfg.math;
    var outs := Zeros(|q|);
    var scores := Zeros(n);
    AttentionInto(shape, math, q, keys, values, n, outs, scores);
    out := outs[..];
    ghost var f := (h: int) => if 0 <= h < shape.heads then shape.Attend(math, q, keys, values, n, h) else [];
    forall h | 0 <= h < shape.heads
      ensures BlockIs(out, shape.heads, shape.headDim, h, f(h))
    {
      assert HeadWritten(shape, math, q, keys, values, n, h, out);
    }
    BlocksDecide(out, shape.heads, shape.headDim, f);
  }

  /** `short_conv_gate_and_conv`: the gated convolution's output, and the history one token on. */
  method ShortConvBuffers(m: Model, taps: Taps, bcx: Vec, history: Vec) returns (bx: Vec, convOut: Vec, next: Vec)
    requires taps.Ok() && |bcx| == 3 * taps.channels && |history| == taps.HistorySize()
    ensures bx == Gated(bcx, taps.channels)
    ensures convOut == m.ShortConvOut(taps, bcx, history) && next == taps.Next(history, Gated(bcx, taps.channels))
  {
    hide Taps.Output, Gated, Mul, Taps.Next;
    var hist := Buffer(history);
    var bxs := Zeros(taps.channels);
    var outs := Zeros(taps.channels);
    ShortConvGateAndConv(taps, bcx, hist, bxs, outs);
    bx, convOut, next := bxs[..], outs[..], hist[..];
  }

  /** `causal_depthwise_conv` with SiLU. */
  method ConvSiluBuffers(m: Model, taps: Taps, history: Vec, qkv: Vec) returns (conv: Vec, next: Vec)
    requires taps.Ok() && |qkv| == taps.channels && |history| == taps.HistorySize()
    ensures conv == m.ConvSilu(taps, history, qkv) && next == taps.Next(history, qkv)
  {
    hide Taps.Output, Taps.Next, Silu;
    var hist := Buffer(history);
    var outs := Zeros(taps.channels);
    assert qkv[..taps.channels] == qkv;
    CausalDepthwiseConv(taps, hist, qkv, outs, g => Silu(m.cfg.math, g));
    conv, next := outs[..], hist[..];
  }

  /** The delta-rule recurrence of every head. */
  method RecurBuffers(m: Model, conv: Vec, beta: Vec, decay: Vec, s: Vec) returns (out: Vec, next: Vec)
    requires m.cfg.gdn.Ok() && |s| == m.cfg.gdn.StateSize()
    ensures out == m.RecurOutputs(conv, beta, decay, s) && next == m.RecurStates(conv, beta, decay, s)
  {
    hide Head.Step, Head.Outputs, Heads.HeadToken, Heads.HeadDone, Model.RecurOutputs, Model.RecurStates;
    var heads := m.cfg.gdn;
    var states := Buffer(s);
    var outs := Zeros(heads.valueHeads * heads.head.valueDim);
    var vpred := Zeros(heads.head.valueDim);
    var delta := Zeros(heads.head.valueDim);
    heads.Recur(conv, beta, decay, states, outs, vpred, delta);
    out, next := outs[..], states[..];
    HeadsRecurred(m, conv, beta, decay, s, out, next);
  }

  lemma HeadsRecurred(m: Model, conv: Vec, beta: Vec, decay: Vec, s: Vec, out: Vec, next: Vec)
    requires m.cfg.gdn.Ok() && |s| == |next| == m.cfg.gdn.StateSize()
    requires |out| == m.cfg.gdn.valueHeads * m.cfg.gdn.head.valueDim
    requires var heads := m.cfg.gdn; forall h :: 0 <= h < heads.valueHeads ==>
      heads.HeadDone(s, next, out, heads.HeadToken(conv, beta, decay, h), h)
    ensures out == m.RecurOutputs(conv, beta, decay, s) && next == m.RecurStates(conv, beta, decay, s)
  {
    hide Head.Step, Head.Outputs, Heads.HeadToken, FromBlocks, Block;
    var heads := m.cfg.gdn;
    var f := (h: int) => m.HeadStepped(conv, beta, decay, s, h);
    var g := (h: int) => if h < 0 then [] else
      heads.head.Outputs(m.HeadStepped(conv, beta, decay, s, h), heads.HeadToken(conv, beta, decay, h));
    forall h | 0 <= h < heads.valueHeads
      ensures BlockIs(next, heads.valueHeads, heads.head.Size(), h, f(h))
      ensures BlockIs(out, heads.valueHeads, heads.head.valueDim, h, g(h))
    {
      PartIsBlock(s, heads.valueHeads, heads.head.Size(), h);
      assert heads.HeadDone(s, next, out, heads.HeadToken(conv, beta, decay, h), h);
    }
    BlocksDecide(next, heads.valueHeads, heads.head.Size(), f);
    BlocksDecide(out, heads.valueHeads, heads.head.valueDim, g);
  }
}
