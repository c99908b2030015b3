/** What the layers' gates and activations do, by positions of the raw projections: the gated attention's query and
    gate, the feed-forward's gate and up, and the decay of Gated DeltaNet. */
module LayerLayout {
  import opened Sums
  import opened Blocks
  import opened Elementary
  import opened RotaryEmbedding = Rope
  import opened Llama
  import opened ElementRoutines

  // ---- Gated attention ----

  /** Entry d of head h's query in the fused projection, and of its gate. */
  function QueryAt(m: Model, raw: Vec, h: int, d: int): real {
    At(raw, 2 * h * m.cfg.shape.headDim + d)
  }

  function GateAt(m: Model, raw: Vec, h: int, d: int): real {
    At(raw, (2 * h + 1) * m.cfg.shape.headDim + d)
  }

  /** Two projections with the same queries; their gates may differ. */
  predicate SameQueries(m: Model, raw1: Vec, raw2: Vec) {
    forall h, d :: 0 <= h < m.cfg.shape.heads && 0 <= d < m.cfg.shape.headDim ==>
      QueryAt(m, raw1, h, d) == QueryAt(m, raw2, h, d)
  }

  lemma FusedCell(m: Model, raw: Vec, h: nat, d: nat)
    requires h < m.cfg.shape.heads && d < m.cfg.shape.headDim
    ensures 0 <= h * m.cfg.shape.headDim + d < m.cfg.shape.heads * m.cfg.shape.headDim
    ensures m.SplitQg(raw, false)[h * m.cfg.shape.headDim + d] == QueryAt(m, raw, h, d)
    ensures m.SplitQg(raw, true)[h * m.cfg.shape.headDim + d] == GateAt(m, raw, h, d)
  {
    hide Model.SplitQg;
    SplitCell(m, raw, h, d);
    TwoPerHead(h, m.cfg.shape.headDim);
  }

  lemma TwoPerHead(h: nat, n: nat)
    ensures h * 2 * n == 2 * h * n && (2 * h + 1) * n == h * 2 * n + n
  {}

  /** A gate changes nothing of what its layer attends to: not the attention and not what it writes. */
  lemma GatesDoNotAttend(m: Model, env: Env, rot: Rotation, weight: Vec, k: Vec, v: Vec, pos: nat, st: LayerState,
                         raw1: Vec, raw2: Vec)
    requires m.cfg.shape.Ok() && pos < |st.cells| && SameQueries(m, raw1, raw2)
    ensures var heads := m.cfg.shape.heads;
      m.Attended(env, rot, m.NormHeads(m.SplitQg(raw1, false), heads, weight), k, v, pos, st)
        == m.Attended(env, rot, m.NormHeads(m.SplitQg(raw2, false), heads, weight), k, v, pos, st)
  {
    hide Model.SplitQg, Model.Attended, Model.NormHeads, QueryAt;
    var heads, n := m.cfg.shape.heads, m.cfg.shape.headDim;
    forall i | 0 <= i < heads * n
      ensures m.SplitQg(raw1, false)[i] == m.SplitQg(raw2, false)[i]
    {
      var h := BlockOf(i, heads, n);
      FusedCell(m, raw1, h, i % n);
      FusedCell(m, raw2, h, i % n);
      assert QueryAt(m, raw1, h, i % n) == QueryAt(m, raw2, h, i % n);
    }
    assert m.SplitQg(raw1, false) == m.SplitQg(raw2, false);
  }

  /** Attention first, from the queries; then every cell of it times the sigmoid of its own gate goes into wo. */
  lemma GateActsLast(m: Model, env: Env, mixer: Mixer, st: LayerState, pos: nat, xn: Vec) returns (y: Vec)
    requires mixer.GatedAttention? && m.MixerOk(mixer) && pos < |st.cells|
    ensures var shape, raw := m.cfg.shape, m.Project(env, mixer.wqg, xn);
      var q := m.NormHeads(m.SplitQg(raw, false), shape.heads, m.Weight(mixer.gqNorm));
      var k := m.NormHeads(m.Project(env, mixer.wk, xn), shape.kvHeads, m.Weight(mixer.gkNorm));
      var (a, st') := m.Attended(env, m.cfg.Partial(env.ropeScale), q, k, m.Project(env, mixer.wv, xn), pos, st);
      && m.MixGatedAttention(env, mixer, st, pos, xn) == (m.Project(env, mixer.wo, y), st')
      && |a| == |y| == shape.heads * shape.headDim
      && forall h, d :: 0 <= h < shape.heads && 0 <= d < shape.headDim ==>
           At(y, h * shape.headDim + d)
             == Mul(At(a, h * shape.headDim + d), Sigmoid(m.cfg.math, GateAt(m, raw, h, d)))
  {
    hide Model.SplitQg, Model.AttendHeads, Model.NormHeads, Model.Project, Model.GateOutput, Model.RotateHeads, GateAt;
    hide Sigmoid, Mul, Model.Weight;
    var shape, raw := m.cfg.shape, m.Project(env, mixer.wqg, xn);
    var q := m.NormHeads(m.SplitQg(raw, false), shape.heads, m.Weight(mixer.gqNorm));
    var k := m.NormHeads(m.Project(env, mixer.wk, xn), shape.kvHeads, m.Weight(mixer.gkNorm));
    var (a, st') := m.Attended(env, m.cfg.Partial(env.ropeScale), q, k, m.Project(env, mixer.wv, xn), pos, st);
    y := m.GateOutput(a, m.SplitQg(raw, true));
    forall h, d | 0 <= h < shape.heads && 0 <= d < shape.headDim
      ensures At(y, h * shape.headDim + d)
        == Mul(At(a, h * shape.headDim + d), Sigmoid(m.cfg.math, GateAt(m, raw, h, d)))
    {
      FusedCell(m, raw, h, d);
      GatedBy(m, a, m.SplitQg(raw, true), h * shape.headDim + d);
    }
  }

  lemma GatedBy(m: Model, a: Vec, gate: Vec, i: nat)
    requires i < |a| && i < |gate|
    ensures m.GateOutput(a, gate)[i] == Mul(a[i], Sigmoid(m.cfg.math, gate[i]))
  {
    hide Sigmoid, Mul;
  }

  // ---- The feed-forward block ----

  /** Each hidden activation is its gate row's dot g times exp(g) / (exp(g) + 1) times its up row's dot. */
  lemma HiddenIsGated(m: Model, layer: Layer, xn: Vec, r: nat)
    requires ExpLaws(m.cfg.math) && r < |m.Get(layer.ffnGate).rows| && r < |m.Get(layer.ffnUp).rows|
    ensures r < |m.FfnHidden(layer, xn)|
    ensures var g, u := Dot(m.Get(layer.ffnGate).rows[r], xn), Dot(m.Get(layer.ffnUp).rows[r], xn);
      m.FfnHidden(layer, xn)[r] * (m.cfg.math.exp(g) + 1.0) == g * m.cfg.math.exp(g) * u
  {
    hide Dot, Silu, ExpLaws, Model.SiluTimes, Model.Get;
    var gate, up := m.Get(layer.ffnGate), m.Get(layer.ffnUp);
    var g, u := Dot(gate.rows[r], xn), Dot(up.rows[r], xn);
    SiluLaw(m.cfg.math, g);
    Activated(m, gate.Exact(xn), up.Exact(xn), r);
    Weighted(Silu(m.cfg.math, g), m.cfg.math.exp(g), g, u);
  }

  lemma Activated(m: Model, gate: Vec, up: Vec, r: nat)
    requires r < |gate| && r < |up|
    ensures m.SiluTimes(gate, up)[r] == Silu(m.cfg.math, gate[r]) * up[r]
  {
    hide Silu;
  }

  lemma Weighted(s: real, e: real, g: real, u: real)
    requires s * (e + 1.0) == g * e
    ensures (s * u) * (e + 1.0) == g * e * u
  {
    assert (s * u) * (e + 1.0) == (s * (e + 1.0)) * u;
  }

  // ---- Gated DeltaNet's gates ----

  /** exp undoes ln. */
  ghost predicate LnLaw(math: Math) { forall a :: a > 0.0 ==> math.exp(math.ln(a)) == a }

  /** The write gate lies strictly between 0 and 1. */
  lemma BetaIsSigmoid(m: Model, raw: Vec, h: nat)
    requires ExpLaws(m.cfg.math) && h < m.cfg.gdn.valueHeads
    ensures var e := m.cfg.math.exp(At(raw, h));
      m.Betas(raw)[h] * (e + 1.0) == e && 0.0 < m.Betas(raw)[h] < 1.0
  {
    SigmoidLaw(m.cfg.math, At(raw, h));
  }

  /** Up to the threshold the decay of a head is (1 + exp(alpha + bias)) to the power of its a: it multiplies where
      exponents add, and at a = -1 it is the reciprocal. */
  lemma DecayIsPower(m: Model, alpha: real, bias: real, a1: real, a2: real)
    requires ExpLaws(m.cfg.math) && LnLaw(m.cfg.math) && alpha + bias <= 20.0
    ensures m.DecayOf(a1 + a2, alpha, bias) == m.DecayOf(a1, alpha, bias) * m.DecayOf(a2, alpha, bias)
    ensures m.DecayOf(0.0, alpha, bias) == 1.0
    ensures m.DecayOf(1.0, alpha, bias) == 1.0 + m.cfg.math.exp(alpha + bias)
  {
    hide Model.Softplus;
    var math, s := m.cfg.math, m.Softplus(alpha + bias);
    assert ExpAdds(math, Mul(a1, s), Mul(a2, s));
    Distributed(a1, a2, s);
    ExpOfZero(math);
    assert Mul(0.0, s) == 0.0 && Mul(1.0, s) == s;
    SoftplusIs(m, alpha + bias);
  }

  lemma Distributed(a: real, b: real, s: real)
    ensures Mul(a + b, s) == Mul(a, s) + Mul(b, s)
  {}

  lemma SoftplusIs(m: Model, x: real)
    requires ExpLaws(m.cfg.math) && LnLaw(m.cfg.math)
    ensures x <= 20.0 ==> m.cfg.math.exp(m.Softplus(x)) == 1.0 + m.cfg.math.exp(x)
    ensures x > 20.0 ==> m.Softplus(x) == x
  {
    assert 1.0 + m.cfg.math.exp(x) > 0.0;
  }

  /** Past the threshold it is exp(a * (alpha + bias)). */
  lemma DecayPastThreshold(m: Model, a: real, alpha: real, bias: real)
    requires alpha + bias > 20.0
    ensures m.DecayOf(a, alpha, bias) == m.cfg.math.exp(Mul(a, alpha + bias))
  {}

  /** So with a = -1, a head's decay and the sigmoid of alpha + bias add up to 1. */
  lemma UnitDecay(m: Model, alpha: real, bias: real)
    requires ExpLaws(m.cfg.math) && LnLaw(m.cfg.math) && alpha + bias <= 20.0
    ensures m.DecayOf(-1.0, alpha, bias) == 1.0 - Sigmoid(m.cfg.math, alpha + bias)
  {
    hide Model.DecayOf, ExpLaws, LnLaw, Sigmoid;
    var math, x := m.cfg.math, alpha + bias;
    DecayIsPower(m, alpha, bias, -1.0, 1.0);
    SigmoidLaw(math, x);
    Complement(m.DecayOf(-1.0, alpha, bias), Sigmoid(math, x), math.exp(x));
    ExpOfNegative(math, x);
  }

  lemma Complement(d: real, s: real, e: real)
    requires d * (1.0 + e) == 1.0 && s * (e + 1.0) == e
    ensures e > 0.0 ==> d == 1.0 - s
  {
    assert (d + s - 1.0) * (1.0 + e) == 0.0;
  }
}
