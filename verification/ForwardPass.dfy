/** Whole passes over the layer stack, in the orders the three implementations use, and why they agree. */
module ForwardPass {
  import opened Sums
  import opened Elementary
  import opened Striding
  import opened Gdn
  import opened Matmul
  import opened KvCaching
  import opened Llama
  import opened Rope
  import opened Attention

  // ---- Token by token: `run` ----

  /** One token through the layers ls, whose states are ss. */
  function TokenPass(m: Model, env: Env, ls: seq<Layer>, ss: seq<LayerState>, maxSeq: nat, pos: nat, x: Vec)
      : (r: (Vec, seq<LayerState>))
    requires m.LayersOk(ls) && m.StatesOk(ls, ss, maxSeq) && pos < maxSeq
    ensures m.StatesOk(ls, r.1, maxSeq)
  {
    hide Model.MixerOk;
    if ls == [] then (x, ss)
    else
      var (y, s) := m.LayerStep(env, ls[0], ss[0], pos, x);
      var (z, rest) := TokenPass(m, env, ls[1..], ss[1..], maxSeq, pos, y);
      (z, [s] + rest)
  }

  /** Tokens outside, layers inside. */
  function TokenMajor(m: Model, env: Env, ls: seq<Layer>, ss: seq<LayerState>, maxSeq: nat, pos: nat, xs: seq<Vec>)
      : (r: (seq<Vec>, seq<LayerState>))
    requires m.LayersOk(ls) && m.StatesOk(ls, ss, maxSeq) && pos + |xs| <= maxSeq
    ensures |r.0| == |xs| && m.StatesOk(ls, r.1, maxSeq)
  {
    if xs == [] then ([], ss)
    else
      var n := |xs| - 1;
      var (ys, s1) := TokenMajor(m, env, ls, ss, maxSeq, pos, xs[..n]);
      var (y, s2) := TokenPass(m, env, ls, s1, maxSeq, pos + n, xs[n]);
      (ys + [y], s2)
  }

  // ---- Layer by layer: `run_batch` ----

  /** The environment `run_batch` mixes a layer in: plain attention projects through decoded rows. */
  function MixEnv(env: Env, layer: Layer): Env {
    if layer.mixer.Attention? then env.(int8 := false) else env
  }

  /** The mixer of one layer over all tokens, in order. */
  function MixRun(m: Model, env: Env, mixer: Mixer, st: LayerState, maxSeq: nat, pos: nat, xns: seq<Vec>)
      : (r: (seq<Vec>, LayerState))
    requires m.MixerOk(mixer) && m.StateOk(mixer, st, maxSeq) && pos + |xns| <= maxSeq
    ensures |r.0| == |xns| && m.StateOk(mixer, r.1, maxSeq)
  {
    if xns == [] then ([], st)
    else
      var n := |xns| - 1;
      var (ps, s1) := MixRun(m, env, mixer, st, maxSeq, pos, xns[..n]);
      var (p, s2) := m.Mix(env, mixer, s1, pos + n, xns[n]);
      (ps + [p], s2)
  }

  /** The attention outputs of a whole batch, in order, before the output projection. */
  function AttendRun(m: Model, env: Env, mixer: Mixer, st: LayerState, maxSeq: nat, pos: nat, xns: seq<Vec>)
      : (r: (seq<Vec>, LayerState))
    requires mixer.Attention? && m.MixerOk(mixer) && m.StateOk(mixer, st, maxSeq) && pos + |xns| <= maxSeq
    ensures |r.0| == |xns| && m.StateOk(mixer, r.1, maxSeq)
  {
    if xns == [] then ([], st)
    else
      var n, x := |xns| - 1, xns[|xns| - 1];
      var (outs, s1) := AttendRun(m, env, mixer, st, maxSeq, pos, xns[..n]);
      var (out, s2) := m.AttentionOut(env, mixer, s1, pos + n, m.Project(env, mixer.wq, x), m.Project(env, mixer.wk, x),
                                      m.Project(env, mixer.wv, x));
      (outs + [out], s2)
  }

  function Projector(m: Model, env: Env, name: string): Vec -> Vec { x => m.Project(env, name, x) }

  /** Attending over the batch and projecting afterwards is mixing token by token. */
  lemma {:induction false} AttendThenProject(m: Model, env: Env, mixer: Mixer, st: LayerState, maxSeq: nat, pos: nat,
                                             xns: seq<Vec>)
    requires mixer.Attention? && m.MixerOk(mixer) && m.StateOk(mixer, st, maxSeq) && pos + |xns| <= maxSeq
    ensures var (outs, s) := AttendRun(m, env, mixer, st, maxSeq, pos, xns);
      MixRun(m, env, mixer, st, maxSeq, pos, xns) == (MapRows(outs, Projector(m, env, mixer.wo)), s)
    decreases |xns|
  {
    hide Model.AttentionOut, Model.Project, Model.MixerOk;
    var f := Projector(m, env, mixer.wo);
    if xns != [] {
      var n := |xns| - 1;
      AttendThenProject(m, env, mixer, st, maxSeq, pos, xns[..n]);
      var (outs, s1) := AttendRun(m, env, mixer, st, maxSeq, pos, xns[..n]);
      var out := AttendRun(m, env, mixer, st, maxSeq, pos, xns).0[n];
      assert MapRows(outs + [out], f) == MapRows(outs, f) + [f(out)];
    }
  }

  /** f, row by row. */
  function MapRows(xs: seq<Vec>, f: Vec -> Vec): (ys: seq<Vec>)
    ensures |ys| == |xs|
  {
    seq(|xs|, t requires 0 <= t < |xs| => f(xs[t]))
  }

  function AddRows(xs: seq<Vec>, ps: seq<Vec>): (ys: seq<Vec>)
    requires |ps| == |xs|
    ensures |ys| == |xs|
  {
    seq(|xs|, t requires 0 <= t < |xs| => Add(xs[t], ps[t]))
  }

  function Normer(m: Model, weight: Vec): Vec -> Vec { x => m.Norm(x, weight) }

  function FfnStepper(m: Model, env: Env, layer: Layer): Vec -> Vec { x => m.FfnStep(env, layer, x) }

  /** One layer over the whole batch, phase by phase. */
  function LayerBatch(m: Model, env: Env, layer: Layer, st: LayerState, maxSeq: nat, pos: nat, xs: seq<Vec>)
      : (r: (seq<Vec>, LayerState))
    requires m.MixerOk(layer.mixer) && m.StateOk(layer.mixer, st, maxSeq) && pos + |xs| <= maxSeq
    ensures |r.0| == |xs| && m.StateOk(layer.mixer, r.1, maxSeq)
  {
    var (ps, st') :=
      MixRun(m, MixEnv(env, layer), layer.mixer, st, maxSeq, pos, MapRows(xs, Normer(m, layer.attnNorm)));
    (MapRows(AddRows(xs, ps), FfnStepper(m, env.(int8 := false), layer)), st')
  }

  /** Layers outside, tokens inside. */
  function BatchPass(m: Model, env: Env, ls: seq<Layer>, ss: seq<LayerState>, maxSeq: nat, pos: nat, xs: seq<Vec>)
      : (r: (seq<Vec>, seq<LayerState>))
    requires m.LayersOk(ls) && m.StatesOk(ls, ss, maxSeq) && pos + |xs| <= maxSeq
    ensures |r.0| == |xs| && m.StatesOk(ls, r.1, maxSeq)
  {
    hide Model.MixerOk, Model.StateOk;
    if ls == [] then (xs, ss)
    else
      var (ys, s) := LayerBatch(m, env, ls[0], ss[0], maxSeq, pos, xs);
      var (zs, rest) := BatchPass(m, env, ls[1..], ss[1..], maxSeq, pos, ys);
      (zs, [s] + rest)
  }

  // ---- Where the int8 kernel would make a difference ----

  /** The projections that `run` sends through `matmul_into` and `run_batch` through `matmul_batch_into`. */
  predicate BatchSafe(m: Model, layer: Layer) {
    && Harmless(m.Get(layer.ffnDown))
    && (layer.mixer.Attention? ==>
          Harmless(m.Get(layer.mixer.wq)) && Harmless(m.Get(layer.mixer.wk))
          && Harmless(m.Get(layer.mixer.wv)) && Harmless(m.Get(layer.mixer.wo)))
  }

  predicate AllBatchSafe(m: Model, ls: seq<Layer>) { forall i :: 0 <= i < |ls| ==> BatchSafe(m, ls[i]) }

  lemma SameProjection(m: Model, env: Env, name: string, x: Vec)
    requires Harmless(m.Get(name))
    ensures m.Project(env.(int8 := false), name, x) == m.Project(env, name, x)
  {
    HarmlessProduct(m.Get(name), x);
  }

  /** On batch-safe layers the batch's environments compute what `run`'s does. */
  lemma BatchEnvAgrees(m: Model, env: Env, layer: Layer, st: LayerState, pos: nat, x: Vec)
    requires m.MixerOk(layer.mixer) && pos < |st.cells| && BatchSafe(m, layer)
    ensures m.Mix(MixEnv(env, layer), layer.mixer, st, pos, x) == m.Mix(env, layer.mixer, st, pos, x)
    ensures m.FfnStep(env.(int8 := false), layer, x) == m.FfnStep(env, layer, x)
  {
    SameProjection(m, env, layer.ffnDown, m.FfnHidden(layer, m.Norm(x, layer.ffnNorm)));
    if layer.mixer.Attention? {
      var mixer, exact := layer.mixer, env.(int8 := false);
      SameProjection(m, env, mixer.wq, x);
      SameProjection(m, env, mixer.wk, x);
      SameProjection(m, env, mixer.wv, x);
      var q := m.NormedIf(m.Project(env, mixer.wq, x), m.cfg.shape.heads, mixer.qNorm);
      var k := m.NormedIf(m.Project(env, mixer.wk, x), m.cfg.shape.kvHeads, mixer.kNorm);
      var out := m.Attended(env, m.cfg.Full(env.ropeScale), q, k, m.Project(env, mixer.wv, x), pos, st).0;
      SameProjection(m, env, mixer.wo, out);
    }
  }

  // ---- The interchange ----

  /** One token more through a layer's phases. */
  lemma OneTokenMore(m: Model, env: Env, layer: Layer, st: LayerState, maxSeq: nat, pos: nat, xs: seq<Vec>)
    requires m.MixerOk(layer.mixer) && m.StateOk(layer.mixer, st, maxSeq) && pos + |xs| <= maxSeq && xs != []
    ensures var n := |xs| - 1;
      var (ys, s1) := LayerBatch(m, env, layer, st, maxSeq, pos, xs[..n]);
      var (p, s2) := m.Mix(MixEnv(env, layer), layer.mixer, s1, pos + n, m.Norm(xs[n], layer.attnNorm));
      LayerBatch(m, env, layer, st, maxSeq, pos, xs)
        == (ys + [m.FfnStep(env.(int8 := false), layer, Add(xs[n], p))], s2)
  {
    hide Model.Mix, Model.FfnStep, Add, Model.Norm, Model.MixerOk;
    var n, norm, f := |xs| - 1, Normer(m, layer.attnNorm), FfnStepper(m, env.(int8 := false), layer);
    var (ps, s1) := MixRun(m, MixEnv(env, layer), layer.mixer, st, maxSeq, pos, MapRows(xs[..n], norm));
    assert MapRows(xs, norm)[..n] == MapRows(xs[..n], norm);
    var p := m.Mix(MixEnv(env, layer), layer.mixer, s1, pos + n, m.Norm(xs[n], layer.attnNorm)).0;
    assert MapRows(AddRows(xs, ps + [p]), f) == MapRows(AddRows(xs[..n], ps), f) + [f(Add(xs[n], p))];
  }

  /** On batch-safe layers, a layer's phases over the batch are its steps, token by token. */
  lemma PhasesAreSteps(m: Model, env: Env, layer: Layer, st: LayerState, maxSeq: nat, pos: nat, xs: seq<Vec>)
    requires m.MixerOk(layer.mixer) && m.StateOk(layer.mixer, st, maxSeq) && pos + |xs| <= maxSeq
    requires BatchSafe(m, layer) && xs != []
    ensures var n := |xs| - 1;
      var (ys, s1) := LayerBatch(m, env, layer, st, maxSeq, pos, xs[..n]);
      var (y, s2) := m.LayerStep(env, layer, s1, pos + n, xs[n]);
      LayerBatch(m, env, layer, st, maxSeq, pos, xs) == (ys + [y], s2)
  {
    hide LayerBatch, Model.Mix, Model.FfnStep, Add, Model.Norm, BatchSafe, Model.MixerOk;
    var n := |xs| - 1;
    OneTokenMore(m, env, layer, st, maxSeq, pos, xs);
    var s1 := LayerBatch(m, env, layer, st, maxSeq, pos, xs[..n]).1;
    var xn := m.Norm(xs[n], layer.attnNorm);
    BatchEnvAgrees(m, env, layer, s1, pos + n, xn);
    BatchEnvAgrees(m, env, layer, s1, pos + n, Add(xs[n], m.Mix(env, layer.mixer, s1, pos + n, xn).0));
  }

  lemma EmptyBatch(m: Model, env: Env, layer: Layer, st: LayerState, maxSeq: nat, pos: nat)
    requires m.MixerOk(layer.mixer) && m.StateOk(layer.mixer, st, maxSeq) && pos <= maxSeq
    ensures LayerBatch(m, env, layer, st, maxSeq, pos, []) == ([], st)
  {}

  /** Taking the first layer out of the token loop. */
  lemma {:induction false} FirstLayerOut(m: Model, env: Env, ls: seq<Layer>, ss: seq<LayerState>, maxSeq: nat,
                                         pos: nat, xs: seq<Vec>)
    requires m.LayersOk(ls) && m.StatesOk(ls, ss, maxSeq) && pos + |xs| <= maxSeq
    requires ls != [] && AllBatchSafe(m, ls)
    ensures var (ys, s) := LayerBatch(m, env, ls[0], ss[0], maxSeq, pos, xs);
      var (zs, rest) := TokenMajor(m, env, ls[1..], ss[1..], maxSeq, pos, ys);
      TokenMajor(m, env, ls, ss, maxSeq, pos, xs) == (zs, [s] + rest)
    decreases |xs|
  {
    hide Model.LayerStep, LayerBatch, BatchSafe, Model.MixerOk;
    if xs == [] {
      EmptyBatch(m, env, ls[0], ss[0], maxSeq, pos);
      assert ss == [ss[0]] + ss[1..];
    } else {
      var n := |xs| - 1;
      FirstLayerOut(m, env, ls, ss, maxSeq, pos, xs[..n]);
      PhasesAreSteps(m, env, ls[0], ss[0], maxSeq, pos, xs);
      var (ys, s) := LayerBatch(m, env, ls[0], ss[0], maxSeq, pos, xs[..n]);
      var (zs, rest) := TokenMajor(m, env, ls[1..], ss[1..], maxSeq, pos, ys);
      var (y, s2) := m.LayerStep(env, ls[0], s, pos + n, xs[n]);
      assert ([s] + rest)[1..] == rest;
      assert (ys + [y])[..n] == ys;
    }
  }

  /** Layer-major prefill is token-major prefill: for every layer list with its four kinds of mixer, every
      batch, start position and starting states, both give the same streams and leave the same states. */
  lemma {:induction false} BatchIsTokenMajor(m: Model, env: Env, ls: seq<Layer>, ss: seq<LayerState>, maxSeq: nat,
                                             pos: nat, xs: seq<Vec>)
    requires m.LayersOk(ls) && m.StatesOk(ls, ss, maxSeq) && pos + |xs| <= maxSeq && AllBatchSafe(m, ls)
    ensures BatchPass(m, env, ls, ss, maxSeq, pos, xs) == TokenMajor(m, env, ls, ss, maxSeq, pos, xs)
    decreases |ls|
  {
    hide Model.MixerOk, TokenMajor, LayerBatch;
    if ls == [] {
      NoLayers(m, env, ls, ss, maxSeq, pos, xs);
    } else {
      var ys := LayerBatch(m, env, ls[0], ss[0], maxSeq, pos, xs).0;
      BatchIsTokenMajor(m, env, ls[1..], ss[1..], maxSeq, pos, ys);
      FirstLayerOut(m, env, ls, ss, maxSeq, pos, xs);
    }
  }

  lemma {:induction false} NoLayers(m: Model, env: Env, ls: seq<Layer>, ss: seq<LayerState>, maxSeq: nat, pos: nat,
                                    xs: seq<Vec>)
    requires ls == [] && m.StatesOk(ls, ss, maxSeq) && pos + |xs| <= maxSeq
    ensures TokenMajor(m, env, ls, ss, maxSeq, pos, xs) == (xs, ss)
    decreases |xs|
  {
    if xs != [] {
      NoLayers(m, env, ls, ss, maxSeq, pos, xs[..|xs| - 1]);
      assert xs[..|xs| - 1] + [xs[|xs| - 1]] == xs;
    }
  }

  // ---- Why a Q5_K down projection has to be excluded ----

  const IN: string := "in"
  const OUT: string := "out"
  const GATE: string := "gate"
  const UP: string := "up"
  const DOWN: string := "down"

  function ZeroRows(rows: nat, width: nat): Tensor { Tensor(seq(rows, _ => seq(width, _ => 0.0)), false) }

  /** 1 at the front. */
  function Front(width: nat): (x: Vec)
    ensures |x| == width
  {
    seq(width, i => if i == 0 then 1.0 else 0.0)
  }

  /** One short-convolution layer that adds nothing, then a feed-forward block whose hidden activations are
      `hidden` when the residual stream is Front. */
  function Telltale(math: Math, eps: real, format: KvFormat, t: Tensor, hidden: Vec): Model {
    var width, n := |t.rows|, |hidden|;
    var silu, rms := Silu(math, 1.0), Rms(math, Front(width), eps);
    Model(Config(math, eps, width, Shape(1, 1, 1), 1.0, 1.0, 0, 1, Heads(0, 1, Head(1, 1, 1.0)), 1),
          map[IN := ZeroRows(3 * width, width), OUT := ZeroRows(width, width),
              GATE := Tensor(seq(n, _ => [1.0]), false), UP := Tensor(seq(n, i => [Div(At(hidden, i), silu)]), false),
              DOWN := t],
          IN, [Layer([], ShortConv(IN, OUT, seq(width, _ => 0.0)), seq(width, _ => rms), GATE, UP, DOWN)],
          [], IN, format)
  }

  lemma FrontDot(a: real, width: nat)
    requires width > 0
    ensures Dot([a], Front(width)) == a
  {
    var h := (i: int) => Mul(At([a], i), At(Front(width), i));
    SumOne(width, 0, h);
    SumEq(width, h, i => if i == 0 then h(i) else 0.0);
  }

  lemma ZeroProduct(rows: nat, width: nat, x: Vec)
    ensures ZeroRows(rows, width).Exact(x) == seq(rows, _ => 0.0)
  {
    hide Dot;
    forall r | 0 <= r < rows
      ensures Dot(ZeroRows(rows, width).rows[r], x) == 0.0
    {
      ZeroDot(ZeroRows(rows, width).rows[r], x);
    }
  }

  /** The telltale layer's stream after its mixer is Front still, and its hidden activations are as promised. */
  lemma TelltaleHidden(math: Math, eps: real, format: KvFormat, t: Tensor, hidden: Vec, layer: Layer)
    requires |t.rows| > 0 && Silu(math, 1.0) != 0.0 && Rms(math, Front(|t.rows|), eps) != 0.0
    requires var m := Telltale(math, eps, format, t, hidden); layer == m.layers[0]
    ensures var m := Telltale(math, eps, format, t, hidden); var x := Front(|t.rows|);
      m.Norm(x, layer.ffnNorm) == x && m.FfnHidden(layer, x) == hidden
  {
    hide Dot, Silu, Rms;
    var m, x := Telltale(math, eps, format, t, hidden), Front(|t.rows|);
    forall i | 0 <= i < |x|
      ensures m.Norm(x, layer.ffnNorm)[i] == x[i]
    {
      RmsNormAt(math, x, layer.ffnNorm, eps, i);
    }
    FrontDot(1.0, |x|);
    forall i | 0 <= i < |hidden|
      ensures m.FfnHidden(layer, x)[i] == hidden[i]
    {
      FrontDot(Div(hidden[i], Silu(math, 1.0)), |x|);
    }
  }

  lemma TelltaleFits(math: Math, eps: real, format: KvFormat, t: Tensor, hidden: Vec, st: LayerState)
    requires st == LayerState([Cell([], [])], [], [], [])
    ensures var m := Telltale(math, eps, format, t, hidden);
      && |m.layers| == 1 && m.layers[0].mixer.ShortConv? && m.Get(m.layers[0].ffnDown) == t
      && m.LayersPresent(m.layers) && m.MixerOk(m.layers[0].mixer) && m.StateOk(m.layers[0].mixer, st, 1)
  {}

  /** What the telltale layer gives, with either product. */
  lemma TelltaleStep(math: Math, eps: real, format: KvFormat, t: Tensor, hidden: Vec, env: Env, st: LayerState)
    requires |t.rows| > 0 && Silu(math, 1.0) != 0.0 && Rms(math, Front(|t.rows|), eps) != 0.0
    requires st == LayerState([Cell([], [])], [], [], [])
    ensures var m := Telltale(math, eps, format, t, hidden); var layer, x := m.layers[0], Front(|t.rows|);
      && m.MixerOk(layer.mixer)
      && Add(x, m.Mix(env, layer.mixer, st, 0, m.Norm(x, layer.attnNorm)).0) == x
      && m.FfnStep(env, layer, x) == Add(x, if env.int8 then t.Product(hidden) else t.Exact(hidden))
  {
    hide Dot, Silu, Rms, Model.Norm, Model.FfnHidden, Model.ShortConvOut, Tensor.Product, Tensor.Exact;
    TelltaleFits(math, eps, format, t, hidden, st);
    var m, x := Telltale(math, eps, format, t, hidden), Front(|t.rows|);
    var layer := m.layers[0];
    TelltaleHidden(math, eps, format, t, hidden, layer);
    var bcx := m.Project(env, IN, m.Norm(x, layer.attnNorm));
    var convOut := m.ShortConvOut(m.cfg.ShortTaps(layer.mixer.convWeight), bcx, st.conv);
    HarmlessProduct(ZeroRows(|x|, |x|), convOut);
    ZeroProduct(|x|, |x|, convOut);
    assert m.Mix(env, layer.mixer, st, 0, m.Norm(x, layer.attnNorm)).0 == seq(|x|, _ => 0.0);
    assert Add(x, seq(|x|, _ => 0.0)) == x;
  }

  /** A model of one layer, one token: both passes are the layer's step, each with its own product. */
  lemma OnlyLayer(m: Model, env: Env, layer: Layer, st: LayerState, x: Vec)
    requires m.layers == [layer] && m.MixerOk(layer.mixer) && m.StateOk(layer.mixer, st, 1) && layer.mixer.ShortConv?
    ensures m.LayersOk(m.layers) && m.StatesOk(m.layers, [st], 1)
    ensures var x1 := Add(x, m.Mix(env, layer.mixer, st, 0, m.Norm(x, layer.attnNorm)).0);
      && BatchPass(m, env, m.layers, [st], 1, 0, [x]).0 == [m.FfnStep(env.(int8 := false), layer, x1)]
      && TokenMajor(m, env, m.layers, [st], 1, 0, [x]).0 == [m.FfnStep(env, layer, x1)]
  {
    hide Model.Mix, Model.FfnStep, Add, Model.Norm, Model.MixerOk;
    EmptyBatch(m, env, layer, st, 1, 0);
    OneTokenMore(m, env, layer, st, 1, 0, [x]);
    assert [x][..0] == [] && [st][1..] == [] && m.layers[1..] == [];
    assert TokenMajor(m, env, m.layers, [st], 1, 0, []) == ([], [st]);
    assert TokenPass(m, env, m.layers, [st], 1, 0, x).0 == m.LayerStep(env, layer, st, 0, x).0;
  }

  /** For every Q5_K weight that is not all zeros there is a model, complete and well-formed, with that
      weight as down projection, whose batched pass and token-by-token pass part on one token. */
  lemma Q5KParts(math: Math, eps: real, format: KvFormat, t: Tensor, n: nat)
      returns (m: Model, ss: seq<LayerState>, x: Vec)
    requires WholeBlocks(t, n) && !Harmless(t)
    requires Silu(math, 1.0) != 0.0 && Rms(math, Front(|t.rows|), eps) != 0.0
    ensures |m.layers| == 1 && m.Get(m.layers[0].ffnDown) == t && m.LayersPresent(m.layers)
    ensures m.LayersOk(m.layers) && m.StatesOk(m.layers, ss, 1)
    ensures BatchPass(m, m.CpuEnv(), m.layers, ss, 1, 0, [x]).0 != TokenMajor(m, m.CpuEnv(), m.layers, ss, 1, 0, [x]).0
  {
    hide Telltale, Model.FfnStep, Model.Mix, BatchPass, TokenMajor, Harmless, Silu, Rms, Model.MixerOk, Model.StateOk;
    hide Model.Norm, Tensor.Product, Tensor.Exact;
    var r, hidden := Telling(t, n);
    m, x := Telltale(math, eps, format, t, hidden), Front(|t.rows|);
    ss := [LayerState([Cell([], [])], [], [], [])];
    TelltaleFits(math, eps, format, t, hidden, ss[0]);
    var layer, env := m.layers[0], m.CpuEnv();
    OnlyLayer(m, env, layer, ss[0], x);
    TelltaleStep(math, eps, format, t, hidden, env, ss[0]);
    TelltaleStep(math, eps, format, t, hidden, env.(int8 := false), ss[0]);
    assert m.layers == [layer];
    assert BatchPass(m, env, m.layers, ss, 1, 0, [x]).0[0] == Add(x, t.Exact(hidden));
    assert TokenMajor(m, env, m.layers, ss, 1, 0, [x]).0[0] == Add(x, t.Product(hidden));
    assert Add(x, t.Product(hidden))[r] != Add(x, t.Exact(hidden))[r];
  }

  // ---- Cutting a prompt into batches ----

  /** One layer's phases over a batch, whatever its weights: the first part, then the rest from where it leaves off. */
  lemma {:induction false} LayerSplits(m: Model, env: Env, layer: Layer, st: LayerState, maxSeq: nat, pos: nat,
                                       xs: seq<Vec>, more: seq<Vec>)
    requires m.MixerOk(layer.mixer) && m.StateOk(layer.mixer, st, maxSeq) && pos + |xs| + |more| <= maxSeq
    ensures var (ys, s1) := LayerBatch(m, env, layer, st, maxSeq, pos, xs);
      var (zs, s2) := LayerBatch(m, env, layer, s1, maxSeq, pos + |xs|, more);
      LayerBatch(m, env, layer, st, maxSeq, pos, xs + more) == (ys + zs, s2)
    decreases |more|
  {
    hide LayerBatch, Model.Mix, Model.FfnStep, Add, Model.Norm, Model.MixerOk;
    var (ys, s1) := LayerBatch(m, env, layer, st, maxSeq, pos, xs);
    if more == [] {
      EmptyBatch(m, env, layer, s1, maxSeq, pos + |xs|);
      assert xs + more == xs && ys + [] == ys;
    } else {
      var n := |more| - 1;
      LayerSplits(m, env, layer, st, maxSeq, pos, xs, more[..n]);
      OneTokenMore(m, env, layer, s1, maxSeq, pos + |xs|, more);
      OneTokenMore(m, env, layer, st, maxSeq, pos, xs + more);
      assert (xs + more)[..|xs| + n] == xs + more[..n] && (xs + more)[|xs| + n] == more[n];
      var (zs, s2) := LayerBatch(m, env, layer, s1, maxSeq, pos + |xs|, more[..n]);
      var (p, s3) := m.Mix(MixEnv(env, layer), layer.mixer, s2, pos + |xs| + n, m.Norm(more[n], layer.attnNorm));
      var z := m.FfnStep(env.(int8 := false), layer, Add(more[n], p));
      assert LayerBatch(m, env, layer, s1, maxSeq, pos + |xs|, more) == (zs + [z], s3);
      assert ys + zs + [z] == ys + (zs + [z]);
    }
  }

  /** A prompt may be cut into batches anywhere: for every layer list, whatever its weights, running the first
      part as one batch and the rest as another gives the streams and states of the whole batch. */
  lemma {:induction false} SplitAnywhere(m: Model, env: Env, ls: seq<Layer>, ss: seq<LayerState>, maxSeq: nat, pos: nat,
                                         xs: seq<Vec>, more: seq<Vec>)
    requires m.LayersOk(ls) && m.StatesOk(ls, ss, maxSeq) && pos + |xs| + |more| <= maxSeq
    ensures var (ys, s1) := BatchPass(m, env, ls, ss, maxSeq, pos, xs);
      var (zs, s2) := BatchPass(m, env, ls, s1, maxSeq, pos + |xs|, more);
      BatchPass(m, env, ls, ss, maxSeq, pos, xs + more) == (ys + zs, s2)
    decreases |ls|
  {
    hide LayerBatch, Model.MixerOk;
    if ls != [] {
      var (ys, s) := LayerBatch(m, env, ls[0], ss[0], maxSeq, pos, xs);
      var (zs, s') := LayerBatch(m, env, ls[0], s, maxSeq, pos + |xs|, more);
      LayerSplits(m, env, ls[0], ss[0], maxSeq, pos, xs, more);
      SplitAnywhere(m, env, ls[1..], ss[1..], maxSeq, pos, ys, zs);
      var rest := BatchPass(m, env, ls[1..], ss[1..], maxSeq, pos, ys).1;
      assert ([s] + rest)[0] == s && ([s] + rest)[1..] == rest;
    }
  }

  /** Token by token, a run cut in two is the run. */
  lemma {:induction false} TokenRunSplits(m: Model, env: Env, ls: seq<Layer>, ss: seq<LayerState>, maxSeq: nat,
                                          pos: nat, xs: seq<Vec>, more: seq<Vec>)
    requires m.LayersOk(ls) && m.StatesOk(ls, ss, maxSeq) && pos + |xs| + |more| <= maxSeq
    ensures var (ys, s1) := TokenMajor(m, env, ls, ss, maxSeq, pos, xs);
      var (zs, s2) := TokenMajor(m, env, ls, s1, maxSeq, pos + |xs|, more);
      TokenMajor(m, env, ls, ss, maxSeq, pos, xs + more) == (ys + zs, s2)
    decreases |more|
  {
    hide TokenPass, Model.LayersOk;
    if more == [] {
      var (ys, s1) := TokenMajor(m, env, ls, ss, maxSeq, pos, xs);
      assert xs + more == xs && ys + [] == ys;
      assert TokenMajor(m, env, ls, s1, maxSeq, pos + |xs|, more) == ([], s1);
    } else {
      var n := |more| - 1;
      TokenRunSplits(m, env, ls, ss, maxSeq, pos, xs, more[..n]);
      assert (xs + more)[..|xs| + n] == xs + more[..n];
      var (ys, s1) := TokenMajor(m, env, ls, ss, maxSeq, pos, xs);
      var (zs, s2) := TokenMajor(m, env, ls, s1, maxSeq, pos + |xs|, more[..n]);
      var (y, s3) := TokenPass(m, env, ls, s2, maxSeq, pos + |xs| + n, more[n]);
      assert ys + zs + [y] == ys + (zs + [y]);
      assert TokenMajor(m, env, ls, s1, maxSeq, pos + |xs|, more) == (zs + [y], s3);
      assert (xs + more)[|xs| + n] == more[n] && |xs + more| - 1 == |xs| + n;
      assert TokenMajor(m, env, ls, ss, maxSeq, pos, xs + more) == (ys + zs + [y], s3);
    }
  }

  // ---- Cells not yet written ----

  predicate UsesCells(mixer: Mixer) { mixer.Attention? || mixer.GatedAttention? }

  /** Two states of a layer that differ at most in cells it does not use, or from position pos on. */
  predicate SameBelow(mixer: Mixer, s1: LayerState, s2: LayerState, pos: nat) {
    && s1.conv == s2.conv && s1.gdnConv == s2.gdnConv && s1.gdnState == s2.gdnState
    && pos <= |s1.cells| == |s2.cells| && (UsesCells(mixer) ==> s1.cells[..pos] == s2.cells[..pos])
  }

  predicate AllSameBelow(ls: seq<Layer>, ss1: seq<LayerState>, ss2: seq<LayerState>, pos: nat) {
    |ls| == |ss1| == |ss2| && forall i :: 0 <= i < |ls| ==> SameBelow(ls[i].mixer, ss1[i], ss2[i], pos)
  }

  /** Attention writes its own position before it reads the cache, and reads nothing past it. */
  lemma AttendedSame(m: Model, env: Env, mixer: Mixer, rot: Rotation, q: Vec, k: Vec, v: Vec, pos: nat,
                     s1: LayerState, s2: LayerState)
    requires m.cfg.shape.Ok() && UsesCells(mixer) && SameBelow(mixer, s1, s2, pos) && pos < |s1.cells|
    ensures m.Attended(env, rot, q, k, v, pos, s1).0 == m.Attended(env, rot, q, k, v, pos, s2).0
    ensures var (_, t1), (_, t2) := m.Attended(env, rot, q, k, v, pos, s1), m.Attended(env, rot, q, k, v, pos, s2);
      SameBelow(mixer, t1, t2, pos + 1)
  {
    hide Model.AttendHeads, Model.RotateHeads;
    var cell := Cell(env.codec(m.RotateHeads(rot, k, m.cfg.shape.kvHeads, pos)), env.codec(v));
    assert s1.cells[pos := cell][..pos + 1] == s1.cells[..pos] + [cell];
    assert s2.cells[pos := cell][..pos + 1] == s2.cells[..pos] + [cell];
  }

  lemma MixSame(m: Model, env: Env, mixer: Mixer, s1: LayerState, s2: LayerState, pos: nat, xn: Vec)
    requires m.MixerOk(mixer) && SameBelow(mixer, s1, s2, pos) && pos < |s1.cells|
    ensures m.Mix(env, mixer, s1, pos, xn).0 == m.Mix(env, mixer, s2, pos, xn).0
    ensures SameBelow(mixer, m.Mix(env, mixer, s1, pos, xn).1, m.Mix(env, mixer, s2, pos, xn).1, pos + 1)
  {
    hide Model.Attended, Model.NormHeads, Model.GatedNorm, Model.RecurOutputs, Model.RecurStates, Model.DecaysOf;
    hide Model.L2Normed, Model.ConvSilu, Model.ShortConvOut, Model.SplitQg, Model.GateOutput, Model.Project;
    hide Model.NormedIf;
    match mixer
    case Attention(wq, wk, wv, _, qn, kn) =>
      AttendedSame(m, env, mixer, m.cfg.Full(env.ropeScale), m.NormedIf(m.Project(env, wq, xn), m.cfg.shape.heads, qn),
                   m.NormedIf(m.Project(env, wk, xn), m.cfg.shape.kvHeads, kn), m.Project(env, wv, xn), pos, s1, s2);
    case GatedAttention(wqg, wk, wv, _, qn, kn) =>
      AttendedSame(m, env, mixer, m.cfg.Partial(env.ropeScale),
                   m.NormHeads(m.SplitQg(m.Project(env, wqg, xn), false), m.cfg.shape.heads, m.Weight(qn)),
                   m.NormHeads(m.Project(env, wk, xn), m.cfg.shape.kvHeads, m.Weight(kn)),
                   m.Project(env, wv, xn), pos, s1, s2);
    case ShortConv(_, _, _) =>
    case GatedDeltaNet(_, _, _, _, _, _, _, _, _) =>
  }

  lemma {:induction false} PassSame(m: Model, env: Env, ls: seq<Layer>, ss1: seq<LayerState>, ss2: seq<LayerState>,
                                    maxSeq: nat, pos: nat, x: Vec)
    requires m.LayersOk(ls) && m.StatesOk(ls, ss1, maxSeq) && m.StatesOk(ls, ss2, maxSeq) && pos < maxSeq
    requires AllSameBelow(ls, ss1, ss2, pos)
    ensures TokenPass(m, env, ls, ss1, maxSeq, pos, x).0 == TokenPass(m, env, ls, ss2, maxSeq, pos, x).0
    ensures var t1, t2 := TokenPass(m, env, ls, ss1, maxSeq, pos, x).1, TokenPass(m, env, ls, ss2, maxSeq, pos, x).1;
      AllSameBelow(ls, t1, t2, pos + 1)
    decreases |ls|
  {
    hide Model.Mix, Model.FfnStep, Model.Norm, Add, SameBelow, Model.MixerOk;
    if ls != [] {
      CellsCount(m, ls, ss1, ss2, maxSeq);
      MixSame(m, env, ls[0].mixer, ss1[0], ss2[0], pos, m.Norm(x, ls[0].attnNorm));
      var y := m.LayerStep(env, ls[0], ss1[0], pos, x).0;
      PassSame(m, env, ls[1..], ss1[1..], ss2[1..], maxSeq, pos, y);
    }
  }

  lemma CellsCount(m: Model, ls: seq<Layer>, ss1: seq<LayerState>, ss2: seq<LayerState>, maxSeq: nat)
    requires m.StatesOk(ls, ss1, maxSeq) && m.StatesOk(ls, ss2, maxSeq) && ls != []
    ensures |ss1[0].cells| == |ss2[0].cells| == maxSeq
  {
    assert m.StateOk(ls[0].mixer, ss1[0], maxSeq) && m.StateOk(ls[0].mixer, ss2[0], maxSeq);
  }

  /** Every cell is written before it is read: a run gives the same streams whatever the cache held from its
      first position on, and leaves the same states up to its last. */
  lemma {:induction false} StaleCellsDoNotMatter(m: Model, env: Env, ls: seq<Layer>, ss1: seq<LayerState>,
                                                 ss2: seq<LayerState>, maxSeq: nat, pos: nat, xs: seq<Vec>)
    requires m.LayersOk(ls) && m.StatesOk(ls, ss1, maxSeq) && m.StatesOk(ls, ss2, maxSeq) && pos + |xs| <= maxSeq
    requires AllSameBelow(ls, ss1, ss2, pos)
    ensures var (ys1, t1) := TokenMajor(m, env, ls, ss1, maxSeq, pos, xs);
      var (ys2, t2) := TokenMajor(m, env, ls, ss2, maxSeq, pos, xs);
      ys1 == ys2 && AllSameBelow(ls, t1, t2, pos + |xs|)
    decreases |xs|
  {
    hide TokenPass, SameBelow;
    if xs != [] {
      var n := |xs| - 1;
      StaleCellsDoNotMatter(m, env, ls, ss1, ss2, maxSeq, pos, xs[..n]);
      var s1 := TokenMajor(m, env, ls, ss1, maxSeq, pos, xs[..n]).1;
      var s2 := TokenMajor(m, env, ls, ss2, maxSeq, pos, xs[..n]).1;
      PassSame(m, env, ls, s1, s2, maxSeq, pos + n, xs[n]);
    }
  }

  /** What the resident pass computes with: exact products, its own KV codec, unscaled RoPE. */
  function GpuEnv(codec: Vec -> Vec): Env { Env(false, codec, 1.0) }
}
