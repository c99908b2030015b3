/** A model on which the resident pass and `run` part for no other reason than what the KV cache keeps: one attention
    layer whose query is zero, so that it shows the values it holds. */
module CacheWitness {
  import opened Sums
  import opened Elementary
  import opened Errors
  import opened Gdn
  import opened Attention
  import opened RotaryEmbedding = Rope
  import opened KvCaching
  import opened Matmul
  import opened Llama
  import opened ForwardPass
  import opened GpuPass
  import opened OneHeadLayers

  const VALUE: string := "v"
  const ZERO: string := "zero"
  const OUT: string := "o"

  /** Rows of one column: v for every stream that starts with 1. */
  function OneColumn(v: Vec): Tensor { Tensor(seq(|v|, i requires 0 <= i < |v| => [v[i]]), false) }

  function Identity(n: nat): Tensor { Tensor(seq(n, r requires 0 <= r < n => Picks(n, r)), false) }

  /** The value is v whenever the stream is Front; queries and keys are zero; the output is what attention gives; the
      feed-forward block adds nothing. RoPE's scale is 1. */
  function Keeper(math: Math, eps: real, theta: real, v: Vec, format: KvFormat): Model {
    var n, rms := |v|, Rms(math, Front(|v|), eps);
    Model(Config(math, eps, n, Shape(n, 1, 1), theta, 1.0, 0, 1, Heads(0, 1, Head(1, 1, 1.0)), 1),
          map[VALUE := OneColumn(v), ZERO := ZeroRows(n, n), OUT := Identity(n)],
          ZERO, [Layer(seq(n, _ => rms), Attention(ZERO, ZERO, VALUE, OUT, None, None), [], ZERO, ZERO, ZERO)],
          [], ZERO, format)
  }

  /** Rows of the cache as wide as the head. */
  predicate RowsOf(cells: seq<Cell>, n: nat) {
    forall p :: 0 <= p < |cells| ==> |cells[p].key| == |cells[p].value| == n
  }

  /** The weights of n equal scores. */
  function EvenWeights(math: Math, n: nat): (w: Vec)
    ensures |w| == n
  {
    Softmax(math, seq(n, _ => 0.0))
  }

  /** What the values already held put into dimension d of the output. */
  function Earlier(w: Vec, cells: seq<Cell>, d: nat): real {
    Sum(|cells|, (t: int) => if 0 <= t < |cells| then Mul(At(w, t), At(cells[t].value, d)) else 0.0)
  }

  // ---- One head, no query ----

  lemma ScoresOfNothing(math: Math, n: nat, keys: Vec, len: nat)
    requires n > 0
    ensures Shape(n, 1, 1).Scores(math, Nothing(n), keys, len, 0) == seq(len, _ => 0.0)
  {
    hide Sum;
    var shape := Shape(n, 1, 1);
    forall t | 0 <= t < len
      ensures Sum(n, shape.ScoreTerms(Nothing(n), keys, 0, t)) == 0.0
    {
      forall i | 0 <= i < n
        ensures shape.ScoreTerms(Nothing(n), keys, 0, t)(i) == 0.0
      {
        HeadBase(n, t);
        assert At(Nothing(n), i) == 0.0;
        TimesZeroLeft(At(keys, shape.KvBase(0, t) + i));
      }
      SumZero(n, shape.ScoreTerms(Nothing(n), keys, 0, t));
    }
    ZeroDivided(math.sqrt(n as real));
  }

  /** The output shows the last value, on top of something that the earlier ones decide. */
  lemma LastShows(math: Math, n: nat, before: seq<Cell>, last: Cell, d: nat)
    requires n > 0 && d < n && RowsOf(before, n) && |last.key| == |last.value| == n
    ensures var cells, w := before + [last], EvenWeights(math, |before| + 1);
      Shape(n, 1, 1).Attend(math, Nothing(n), FlatKeys(cells), FlatValues(cells), |cells|, 0)[d]
        == Earlier(w, before, d) + Mul(w[|before|], last.value[d])
  {
    hide Sum, FlatKeys, FlatValues, Softmax, Shape.Scores, Mul;
    var cells, pos, w := before + [last], |before|, EvenWeights(math, |before| + 1);
    ScoresOfNothing(math, n, FlatKeys(cells), pos + 1);
    var f := Shape(n, 1, 1).MixTerms(w, FlatValues(cells), 0, d);
    var g := (t: int) => if 0 <= t < |before| then Mul(At(w, t), At(before[t].value, d)) else 0.0;
    forall t | 0 <= t <= pos
      ensures f(t) == Mul(At(w, t), cells[t].value[d])
    {
      FlatAt(cells, n, t, d);
      HeadBase(n, t);
    }
    SumEq(pos, f, g);
    SumStep(pos, f);
  }

  // ---- The layer ----

  lemma KeeperProjects(math: Math, eps: real, theta: real, v: Vec, format: KvFormat, env: Env)
    requires v != []
    ensures var m := Keeper(math, eps, theta, v, format);
      m.Project(env, VALUE, Front(|v|)) == v && m.Project(env, ZERO, Front(|v|)) == Nothing(|v|)
  {
    hide Tensor.Exact, Dot;
    var x := Front(|v|);
    forall i | 0 <= i < |v|
      ensures Dot(OneColumn(v).rows[i], x) == v[i]
    {
      FirstOnly(v[i], x);
    }
    RowsGive(OneColumn(v), x, v);
    ZeroProduct(|v|, |v|, x);
    HarmlessProduct(OneColumn(v), x);
    HarmlessProduct(ZeroRows(|v|, |v|), x);
  }

  lemma RowsGive(t: Tensor, x: Vec, y: Vec)
    requires |t.rows| == |y| && forall i :: 0 <= i < |y| ==> Dot(t.rows[i], x) == y[i]
    ensures t.Exact(x) == y
  {
    hide Dot;
  }

  lemma KeeperOut(math: Math, eps: real, theta: real, v: Vec, format: KvFormat, env: Env, a: Vec)
    requires |a| == |v|
    ensures Keeper(math, eps, theta, v, format).Project(env, OUT, a) == a
  {
    hide Tensor.Exact, Dot;
    forall i | 0 <= i < |a|
      ensures Dot(Identity(|v|).rows[i], a) == a[i]
    {
      Picked(|a|, i, a);
    }
    RowsGive(Identity(|v|), a, a);
    HarmlessProduct(Identity(|v|), a);
  }

  /** An environment whose codec keeps the length of what this model writes. */
  predicate KeepsLengths(env: Env, v: Vec) {
    |env.codec(v)| == |v| && |env.codec(Nothing(|v|))| == |v|
  }

  /** What the mixer adds to the stream: the value as the codec kept it, weighted, on top of the earlier ones. */
  lemma KeeperMix(math: Math, eps: real, theta: real, v: Vec, format: KvFormat, env: Env, cells: seq<Cell>, pos: nat)
    requires Rms(math, Front(|v|), eps) != 0.0 && v != [] && pos < |cells| && RowsOf(cells, |v|)
    requires KeepsLengths(env, v)
    ensures var m := Keeper(math, eps, theta, v, format); var layer := m.layers[0];
      && m.MixerOk(layer.mixer)
      && var w := EvenWeights(math, pos + 1);
         var out := m.Mix(env, layer.mixer, LayerState(cells, [], [], []), pos, m.Norm(Front(|v|), layer.attnNorm)).0;
         && |out| == |v|
         && forall d :: 0 <= d < |v| ==> out[d] == Earlier(w, cells[..pos], d) + Mul(w[pos], env.codec(v)[d])
  {
    hide Rotation.Rotate, Rms, Model.AttendHeads, Model.RotateHeads, Shape.Attend, Dot, Harmless;
    hide Tensor.Product, Tensor.Exact, RmsNorm, FlatKeys, FlatValues, Earlier, Softmax, Mul;
    var m, n := Keeper(math, eps, theta, v, format), |v|;
    var mixer, rot := m.layers[0].mixer, m.cfg.Full(env.ropeScale);
    FrontNormed(math, eps, n);
    KeeperProjects(math, eps, theta, v, format, env);
    OneHeadRotated(m, rot, Nothing(n), pos);
    NothingTurns(rot, pos);
    var last := Cell(env.codec(Nothing(n)), env.codec(v));
    var held := cells[..pos] + [last];
    assert cells[pos := last][..pos + 1] == held;
    OneHeadAttends(m, Nothing(n), held);
    forall d | 0 <= d < n
      ensures m.AttendHeads(Nothing(n), held)[d]
        == Earlier(EvenWeights(math, pos + 1), cells[..pos], d) + Mul(EvenWeights(math, pos + 1)[pos], last.value[d])
    {
      LastShows(math, n, cells[..pos], last, d);
    }
    KeeperOut(math, eps, theta, v, format, env, m.AttendHeads(Nothing(n), held));
  }

  /** The feed-forward block adds nothing. */
  lemma KeeperFfn(math: Math, eps: real, theta: real, v: Vec, format: KvFormat, env: Env, x: Vec)
    requires |x| == |v|
    ensures var m := Keeper(math, eps, theta, v, format); m.FfnStep(env, m.layers[0], x) == x
  {
    hide Tensor.Exact, Model.FfnHidden, Model.Norm;
    var m, n := Keeper(math, eps, theta, v, format), |v|;
    var hidden := m.FfnHidden(m.layers[0], m.Norm(x, m.layers[0].ffnNorm));
    ZeroProduct(n, n, hidden);
    HarmlessProduct(ZeroRows(n, n), hidden);
    assert Add(x, seq(n, _ => 0.0)) == x;
  }

  lemma KeeperFits(math: Math, eps: real, theta: real, v: Vec, format: KvFormat, cells: seq<Cell>, pos: nat)
    requires v != []
    ensures var m := Keeper(math, eps, theta, v, format);
      && m.format == format && |m.layers| == 1 && m.layers[0].mixer.Attention? && m.LayersPresent(m.layers)
      && WeightsSafe(m, m.layers) && AllAnglesAgree(m, m.layers, pos) && m.MixerOk(m.layers[0].mixer)
      && m.StateOk(m.layers[0].mixer, LayerState(cells, [], [], []), |cells|)
  {
    var m := Keeper(math, eps, theta, v, format);
    NamesAt(m.layers[0]);
  }

  /** What it writes at any position. */
  lemma KeeperWrites(math: Math, eps: real, theta: real, v: Vec, format: KvFormat, pos: nat)
    requires Rms(math, Front(|v|), eps) != 0.0 && v != []
    ensures var m := Keeper(math, eps, theta, v, format);
      KeyValue(m, m.layers[0].mixer, pos, m.Norm(Front(|v|), m.layers[0].attnNorm)) == (Nothing(|v|), v)
  {
    hide Rotation.Rotate, Rms, Model.RotateHeads, RmsNorm, Model.Project;
    var m := Keeper(math, eps, theta, v, format);
    var rot := m.cfg.Full(m.cfg.ropeScale);
    FrontNormed(math, eps, |v|);
    KeeperProjects(math, eps, theta, v, format, m.CpuEnv());
    OneHeadRotated(m, rot, Nothing(|v|), pos);
    NothingTurns(rot, pos);
  }

  /** What one pass leaves in the stream. */
  lemma KeeperPass(math: Math, eps: real, theta: real, v: Vec, format: KvFormat, env: Env, cells: seq<Cell>, pos: nat)
    requires Rms(math, Front(|v|), eps) != 0.0 && v != [] && pos < |cells| && RowsOf(cells, |v|)
    requires KeepsLengths(env, v)
    ensures var m := Keeper(math, eps, theta, v, format); var ss := [LayerState(cells, [], [], [])];
      && m.LayersOk(m.layers) && m.StatesOk(m.layers, ss, |cells|)
      && var w, x := EvenWeights(math, pos + 1), TokenPass(m, env, m.layers, ss, |cells|, pos, Front(|v|)).0;
         && |x| == |v|
         && forall d :: 0 <= d < |v| ==>
           x[d] == Front(|v|)[d] + (Earlier(w, cells[..pos], d) + Mul(w[pos], env.codec(v)[d]))
  {
    hide Rms, Model.Mix, Model.FfnStep, Model.Norm, TokenPass, Earlier, Mul, EvenWeights, Front;
    var m := Keeper(math, eps, theta, v, format);
    var st, layer, x := LayerState(cells, [], [], []), m.layers[0], Front(|v|);
    KeeperFits(math, eps, theta, v, format, cells, pos);
    OneLayerPass(m, env, st, |cells|, pos, x);
    KeeperMix(math, eps, theta, v, format, env, cells, pos);
    var delta := m.Mix(env, layer.mixer, st, pos, m.Norm(x, layer.attnNorm)).0;
    KeeperFfn(math, eps, theta, v, format, env, Add(x, delta));
  }

  // ---- Where the passes part ----

  lemma LastWeight(math: Math, pos: nat)
    requires ExpLaws(math)
    ensures EvenWeights(math, pos + 1)[pos] > 0.0
  {
    WeightsAreADistribution(math, seq(pos + 1, _ => 0.0));
  }

  lemma SameWeighted(w: real, a: real, b: real)
    requires w > 0.0
    ensures Mul(w, a) == Mul(w, b) <==> a == b
  {
    if Mul(w, a) == Mul(w, b) {
      assert w * (a - b) == 0.0;
    }
  }

  /** For every row, at every position and whatever the cache holds before it, there is a model, complete, with no
      weight that parts the products and no angle that RoPE's scale changes, that writes this row as its value. Its
      resident pass and `run` give the same stream exactly when the device keeps the row as the CPU does. */
  lemma CacheDecides(math: Math, eps: real, theta: real, v: Vec, format: KvFormat, round: real -> int, cells: seq<Cell>,
                     pos: nat)
      returns (m: Model, ss: seq<LayerState>, x: Vec)
    requires ExpLaws(math) && Rms(math, Front(|v|), eps) != 0.0 && v != [] && pos < |cells| && RowsOf(cells, |v|)
    ensures m.format == format && |m.layers| == 1 && m.LayersPresent(m.layers) && m.LayersOk(m.layers)
    ensures ss == [LayerState(cells, [], [], [])] && m.StatesOk(m.layers, ss, |cells|)
    ensures WeightsSafe(m, m.layers) && AllAnglesAgree(m, m.layers, pos) && UsesCells(m.layers[0].mixer)
    ensures KeyValue(m, m.layers[0].mixer, pos, m.Norm(x, m.layers[0].attnNorm)) == (Nothing(|v|), v)
    ensures TokenPass(m, GpuEnv(DeviceCodec(m, round)), m.layers, ss, |cells|, pos, x).0
         == TokenPass(m, m.CpuEnv(), m.layers, ss, |cells|, pos, x).0
      <==> DeviceRow(format, round, v) == format.RoundTrip(v)
  {
    hide ExpLaws, Rms, TokenPass, WeightsSafe, AllAnglesAgree, KeyValue, DeviceRow, KvFormat.RoundTrip, EvenWeights;
    hide Earlier, Mul, Model.Norm;
    m, x := Keeper(math, eps, theta, v, format), Front(|v|);
    ss := [LayerState(cells, [], [], [])];
    KeeperFits(math, eps, theta, v, format, cells, pos);
    KeeperWrites(math, eps, theta, v, format, pos);
    var gpu, cpu := GpuEnv(DeviceCodec(m, round)), m.CpuEnv();
    KeeperPass(math, eps, theta, v, format, gpu, cells, pos);
    KeeperPass(math, eps, theta, v, format, cpu, cells, pos);
    LastWeight(math, pos);
    var ys := TokenPass(m, gpu, m.layers, ss, |cells|, pos, x).0;
    var zs := TokenPass(m, cpu, m.layers, ss, |cells|, pos, x).0;
    forall d | 0 <= d < |v|
      ensures ys[d] == zs[d] <==> DeviceRow(format, round, v)[d] == format.RoundTrip(v)[d]
    {
      SameWeighted(EvenWeights(math, pos + 1)[pos], gpu.codec(v)[d], cpu.codec(v)[d]);
    }
  }

  /** So with a Q8_0 cache there is, for every encoder of half-precision numbers and every rounding, a model on whose
      first token the resident pass and `run` part. */
  lemma BlockCacheParts(math: Math, eps: real, theta: real, format: KvFormat, round: real -> int)
      returns (m: Model, ss: seq<LayerState>, x: Vec)
    requires ExpLaws(math) && Rms(math, Front(1), eps) != 0.0 && format.dtype == Q8_0 && Nearest(round)
    ensures m.format == format && |m.layers| == 1 && m.LayersPresent(m.layers) && m.LayersOk(m.layers)
    ensures m.StatesOk(m.layers, ss, 1) && WeightsSafe(m, m.layers) && AllAnglesAgree(m, m.layers, 0)
    ensures !CacheAgrees(m, DeviceCodec(m, round), m.layers, ss, 1, 0, x)
    ensures TokenPass(m, GpuEnv(DeviceCodec(m, round)), m.layers, ss, 1, 0, x).0
         != TokenPass(m, m.CpuEnv(), m.layers, ss, 1, 0, x).0
  {
    hide ExpLaws, Rms, TokenPass, WeightsSafe, AllAnglesAgree, KeyValue, DeviceRow, KvFormat.RoundTrip, Nearest;
    ThirdsDiffer(format, round);
    m, ss, x := CacheDecides(math, eps, theta, THIRDS, format, round, [Cell([0.0], [0.0])], 0);
  }
}
