/** A model on which the resident pass and `run` part for no other reason than RoPE's scale: one attention layer that
    looks back at a single key. */
module RopeWitness {
  import opened Sums
  import opened Striding
  import opened Elementary
  import opened Errors
  import opened Gdn
  import opened Attention
  import opened RotaryEmbedding = Rope
  import opened KvCaching
  import opened Matmul
  import opened Llama
  import opened ForwardPass
  import opened GpuPass
  import opened OneHeadLayers

  const QUERY: string := "q"
  const ZERO: string := "zero"
  const SUM: string := "o"

  /** What the witness needs of exp beyond its laws. */
  ghost predicate ExpTells(math: Math) { ExpLaws(math) && forall a, b :: math.exp(a) == math.exp(b) ==> a == b }

  /** The query is 1 in dimension d whenever the stream is Front; keys and values are zero; the output goes to the first
      cell of the stream; the feed-forward block adds nothing. */
  function Compass(math: Math, eps: real, theta: real, scale: real, n: nat, d: nat, format: KvFormat): Model {
    var rms := Rms(math, Front(n), eps);
    Model(Config(math, eps, n, Shape(n, 1, 1), theta, scale, 0, 1, Heads(0, 1, Head(1, 1, 1.0)), 1),
          map[QUERY := Selector(n, d), ZERO := ZeroRows(n, n), SUM := Selector(n, 0)],
          ZERO, [Layer(seq(n, _ => rms), Attention(QUERY, ZERO, ZERO, SUM, None, None), [], ZERO, ZERO, ZERO)],
          [], ZERO, format)
  }

  /** The cache holds one key and one value, at position 0. */
  function Looking(n: nat, key: Vec, pos: nat): (cells: seq<Cell>)
    requires |key| == n
    ensures |cells| == pos + 1 && forall p :: 0 <= p < |cells| ==> |cells[p].key| == |cells[p].value| == n
  {
    [Cell(key, Front(n))] + seq(pos, t => Cell(Nothing(n), Nothing(n)))
  }

  // ---- One head, one key ----

  /** With one key that selects a dimension of the query, the scores are that dimension and zeros. */
  lemma ScoresOf(math: Math, n: nat, q: Vec, e: nat, pos: nat)
    requires n > 0 && |q| == n && e < n && pos > 0
    ensures var cells := Looking(n, Picks(n, e), pos);
      Shape(n, 1, 1).Scores(math, q, FlatKeys(cells), pos + 1, 0)
        == seq(pos + 1, t => if t == 0 then Div(q[e], math.sqrt(n as real)) else 0.0)
  {
    hide Sum, FlatKeys;
    var shape, cells := Shape(n, 1, 1), Looking(n, Picks(n, e), pos);
    forall t | 0 <= t <= pos
      ensures Sum(n, shape.ScoreTerms(q, FlatKeys(cells), 0, t)) == if t == 0 then q[e] else 0.0
    {
      var f, g := shape.ScoreTerms(q, FlatKeys(cells), 0, t), (i: int) => At(q, i);
      forall i | 0 <= i < n
        ensures f(i) == if t == 0 then (if i == e then g(i) else 0.0) else 0.0
      {
        FlatAt(cells, n, t, i);
        HeadBase(n, t);
        assert f(i) == Mul(At(q, 0 * n + i), At(FlatKeys(cells), t * n + i));
        assert t > 0 ==> cells[t].key == Nothing(n);
        TimesOneOrZero(q[i], cells[t].key[i]);
      }
      if t == 0 {
        SumEq(n, f, i => if i == e then g(i) else 0.0);
        SumOne(n, e, g);
      } else {
        SumZero(n, f);
      }
    }
    ZeroDivided(math.sqrt(n as real));
  }

  lemma {:induction false} SumAfterFirst(n: nat, f: int -> real, rest: real)
    requires n > 0 && forall t :: 1 <= t < n ==> f(t) == rest
    ensures Sum(n, f) == f(0) + (n - 1) as real * rest
  {
    if n == 1 {
      SumStep(0, f);
      SumNone(f);
    } else {
      SumAfterFirst(n - 1, f, rest);
      SumStep(n - 1, f);
      var k := (n - 2) as real;
      assert (n - 1) as real == k + 1.0;
      assert (k + 1.0) * rest == k * rest + rest;
    }
  }

  /** The share of one score among zeros. */
  function Share(math: Math, score: real, others: nat): real {
    Div(math.exp(score), math.exp(score) + Mul(others as real, math.exp(0.0)))
  }

  /** The first weight of such scores. */
  lemma FirstWeight(math: Math, score: real, pos: nat)
    requires ExpLaws(math)
    ensures var s := seq(pos + 1, t => if t == 0 then score else 0.0); Softmax(math, s)[0] == Share(math, score, pos)
  {
    hide Softmax, ExpLaws, Sum;
    var s := seq(pos + 1, t => if t == 0 then score else 0.0);
    AnyShift(math, s, 0.0, 0);
    SumAfterFirst(pos + 1, ExpTerms(math, s, 0.0), math.exp(0.0));
  }

  /** The first dimension of the attention's output is that weight. */
  lemma FirstOutput(math: Math, n: nat, q: Vec, e: nat, pos: nat)
    requires ExpLaws(math) && n > 0 && |q| == n && e < n && pos > 0
    ensures var cells := Looking(n, Picks(n, e), pos);
      Shape(n, 1, 1).Attend(math, q, FlatKeys(cells), FlatValues(cells), pos + 1, 0)[0]
        == Share(math, Div(q[e], math.sqrt(n as real)), pos)
  {
    hide Sum, FlatKeys, FlatValues, Softmax, ExpLaws, Shape.Scores, Share;
    var shape, cells := Shape(n, 1, 1), Looking(n, Picks(n, e), pos);
    ScoresOf(math, n, q, e, pos);
    var s := shape.Scores(math, q, FlatKeys(cells), pos + 1, 0);
    var w := Softmax(math, s);
    FirstWeight(math, Div(q[e], math.sqrt(n as real)), pos);
    var f, g := shape.MixTerms(w, FlatValues(cells), 0, 0), (t: int) => At(w, t);
    forall t | 0 <= t <= pos
      ensures f(t) == if t == 0 then g(t) else 0.0
    {
      FlatAt(cells, n, t, 0);
      HeadBase(n, t);
      assert f(t) == Mul(At(w, t), At(FlatValues(cells), t * n + 0));
      assert t > 0 ==> cells[t].value == Nothing(n);
      TimesOneOrZero(At(w, t), cells[t].value[0]);
    }
    SumEq(pos + 1, f, t => if t == 0 then g(t) else 0.0);
    SumOne(pos + 1, 0, g);
  }

  /** Different scores get different shares. */
  lemma SharesDiffer(math: Math, a: real, b: real, others: nat)
    requires ExpTells(math) && others > 0 && a != b
    ensures Share(math, a, others) != Share(math, b, others)
  {
    hide Div, Mul;
    ProductPositive(others as real, math.exp(0.0));
    QuotientsDiffer(math.exp(a), math.exp(b), Mul(others as real, math.exp(0.0)));
  }

  lemma ProductPositive(a: real, b: real)
    requires a > 0.0 && b > 0.0
    ensures Mul(a, b) > 0.0
  {}

  lemma QuotientsDiffer(x: real, y: real, k: real)
    requires x > 0.0 && y > 0.0 && k > 0.0 && x != y
    ensures Div(x, x + k) != Div(y, y + k)
  {
    var p, q := x / (x + k), y / (y + k);
    assert p * (x + k) == x && q * (y + k) == y;
    if p == q {
      assert p * (x - y) == x - y;
      ZeroFactor(p - 1.0, x - y);
    }
  }

  lemma ZeroFactor(a: real, b: real)
    requires a * b == 0.0 && b != 0.0
    ensures a == 0.0
  {}

  // ---- The layer ----

  /** An environment that keeps zeros. */
  predicate KeepsNothing(env: Env, n: nat) { env.codec(Nothing(n)) == Nothing(n) }

  /** What the compass's mixer adds to the stream: in its first cell, the share of the turned query's dimension e. */
  lemma CompassMix(math: Math, eps: real, theta: real, scale: real, n: nat, d: nat, e: nat, format: KvFormat,
                   env: Env, pos: nat)
    requires ExpLaws(math) && Rms(math, Front(n), eps) != 0.0 && d < n && e < n && pos > 0 && KeepsNothing(env, n)
    ensures var m := Compass(math, eps, theta, scale, n, d, format); var layer := m.layers[0];
      var st := LayerState(Looking(n, Picks(n, e), pos), [], [], []);
      && m.MixerOk(layer.mixer)
      && var score := Div(m.cfg.Full(env.ropeScale).Rotate(Picks(n, d), pos)[e], math.sqrt(n as real));
         m.Mix(env, layer.mixer, st, pos, m.Norm(Front(n), layer.attnNorm)).0
           == seq(n, i => if i == 0 then Share(math, score, pos) else 0.0)
  {
    hide ExpLaws, Share, Rotation.Rotate, Rms, Looking, Model.AttendHeads, Model.RotateHeads, Shape.Attend, Dot;
    hide Harmless;
    hide Tensor.Product, Tensor.Exact, RmsNorm, FlatKeys, FlatValues;
    var m := Compass(math, eps, theta, scale, n, d, format);
    var mixer, rot := m.layers[0].mixer, m.cfg.Full(env.ropeScale);
    var cells := Looking(n, Picks(n, e), pos);
    FrontNormed(math, eps, n);
    CompassProjects(math, eps, theta, scale, n, d, format, env);
    OneHeadRotated(m, rot, Picks(n, d), pos);
    OneHeadRotated(m, rot, Nothing(n), pos);
    NothingTurns(rot, pos);
    LookingLast(n, Picks(n, e), pos);
    assert cells[pos := Cell(Nothing(n), Nothing(n))][..pos + 1] == cells;
    var q := rot.Rotate(Picks(n, d), pos);
    OneHeadAttends(m, q, cells);
    FirstOutput(math, n, q, e, pos);
    CompassOut(math, eps, theta, scale, n, d, format, env, m.AttendHeads(q, cells));
  }

  lemma LookingLast(n: nat, key: Vec, pos: nat)
    requires |key| == n && pos > 0
    ensures Looking(n, key, pos)[pos] == Cell(Nothing(n), Nothing(n))
  {}

  lemma CompassProjects(math: Math, eps: real, theta: real, scale: real, n: nat, d: nat, format: KvFormat, env: Env)
    requires d < n
    ensures var m := Compass(math, eps, theta, scale, n, d, format);
      m.Project(env, QUERY, Front(n)) == Picks(n, d) && m.Project(env, ZERO, Front(n)) == Nothing(n)
  {
    hide Tensor.Exact;
    Selected(n, d, Front(n));
    ZeroProduct(n, n, Front(n));
    HarmlessProduct(Selector(n, d), Front(n));
    HarmlessProduct(ZeroRows(n, n), Front(n));
    assert Front(n)[0] == 1.0;
  }

  lemma CompassOut(math: Math, eps: real, theta: real, scale: real, n: nat, d: nat, format: KvFormat, env: Env, a: Vec)
    requires d < n == |a|
    ensures Compass(math, eps, theta, scale, n, d, format).Project(env, SUM, a)
      == seq(n, i => if i == 0 then a[0] else 0.0)
  {
    hide Tensor.Exact;
    Selected(n, 0, a);
    HarmlessProduct(Selector(n, 0), a);
  }

  /** The feed-forward block adds nothing. */
  lemma CompassFfn(math: Math, eps: real, theta: real, scale: real, n: nat, d: nat, format: KvFormat, env: Env, x: Vec)
    requires |x| == n
    ensures var m := Compass(math, eps, theta, scale, n, d, format); m.FfnStep(env, m.layers[0], x) == x
  {
    hide Tensor.Exact, Model.FfnHidden, Model.Norm;
    var m := Compass(math, eps, theta, scale, n, d, format);
    var hidden := m.FfnHidden(m.layers[0], m.Norm(x, m.layers[0].ffnNorm));
    ZeroProduct(n, n, hidden);
    HarmlessProduct(ZeroRows(n, n), hidden);
    assert Add(x, seq(n, _ => 0.0)) == x;
  }

  lemma CompassFits(math: Math, eps: real, theta: real, scale: real, n: nat, d: nat, e: nat, format: KvFormat, pos: nat)
    requires d < n && e < n
    ensures var m := Compass(math, eps, theta, scale, n, d, format);
      && |m.layers| == 1 && m.layers[0].mixer.Attention? && m.LayersPresent(m.layers) && WeightsSafe(m, m.layers)
      && Harmless(m.Get(m.lmHead)) && m.MixerOk(m.layers[0].mixer)
      && m.StateOk(m.layers[0].mixer, LayerState(Looking(n, Picks(n, e), pos), [], [], []), pos + 1)
  {
    hide Looking;
    var m := Compass(math, eps, theta, scale, n, d, format);
    NamesAt(m.layers[0]);
  }

  /** What one pass over the compass leaves in the first cell of the stream. */
  lemma CompassPass(math: Math, eps: real, theta: real, scale: real, n: nat, d: nat, e: nat, format: KvFormat,
                    env: Env, pos: nat)
    requires ExpLaws(math) && Rms(math, Front(n), eps) != 0.0 && d < n && e < n && pos > 0 && KeepsNothing(env, n)
    ensures var m := Compass(math, eps, theta, scale, n, d, format);
      var st := LayerState(Looking(n, Picks(n, e), pos), [], [], []);
      && m.LayersOk(m.layers) && m.StatesOk(m.layers, [st], pos + 1)
      && |TokenPass(m, env, m.layers, [st], pos + 1, pos, Front(n)).0| == n
      && TokenPass(m, env, m.layers, [st], pos + 1, pos, Front(n)).0[0]
           == 1.0 + Share(math, Div(m.cfg.Full(env.ropeScale).Rotate(Picks(n, d), pos)[e], math.sqrt(n as real)), pos)
  {
    hide ExpLaws, Share, Rotation.Rotate, Rms, Looking, Model.Mix, Model.FfnStep, Model.Norm, TokenPass;
    var m := Compass(math, eps, theta, scale, n, d, format);
    var st, layer := LayerState(Looking(n, Picks(n, e), pos), [], [], []), m.layers[0];
    CompassFits(math, eps, theta, scale, n, d, e, format, pos);
    OneLayerPass(m, env, st, pos + 1, pos, Front(n));
    CompassMix(math, eps, theta, scale, n, d, e, format, env, pos);
    var delta := m.Mix(env, layer.mixer, st, pos, m.Norm(Front(n), layer.attnNorm)).0;
    CompassFfn(math, eps, theta, scale, n, d, format, env, Add(Front(n), delta));
  }

  /** A dimension of the turned Picks(n, d) in which the two scales differ. */
  lemma AnglesTell(rot: Rotation, other: Rotation, pos: int) returns (d: nat, e: nat)
    requires rot.Ok() && other == rot.(scale := other.scale) && !rot.SameAngles(other, pos)
    ensures d < rot.headDim && e < rot.headDim
    ensures rot.Rotate(Picks(rot.headDim, d), pos)[e] != other.Rotate(Picks(rot.headDim, d), pos)[e]
  {
    hide Rotation.Angle, Rotation.Half, Rotation.Rotate;
    d :| 0 <= d < rot.Half() && (rot.math.cos(rot.Angle(pos, d)) != rot.math.cos(other.Angle(pos, d))
                                 || rot.math.sin(rot.Angle(pos, d)) != rot.math.sin(other.Angle(pos, d)));
    rot.SameHalf(other);
    rot.UnitTurned(pos, d);
    other.UnitTurned(pos, d);
    assert rot.Unit(d) == Picks(rot.headDim, d) == other.Unit(d);
    e := if rot.math.cos(rot.Angle(pos, d)) != rot.math.cos(other.Angle(pos, d)) then d else d + rot.Half();
  }

  /** At position 0 nothing is turned. */
  lemma SameAtStart(rot: Rotation, other: Rotation)
    requires other == rot.(scale := other.scale)
    ensures rot.SameAngles(other, 0)
  {
    forall d | 0 <= d < rot.Half()
      ensures rot.Angle(0, d) == 0.0 && other.Angle(0, d) == 0.0
    {
      NoAngle(rot, d);
      NoAngle(other, d);
    }
  }

  lemma NoAngle(rot: Rotation, d: int)
    ensures rot.Angle(0, d) == 0.0
  {
    ZeroDivided(rot.math.pow(rot.theta, Div(2.0 * (d as real), rot.rotated as real)));
  }

  /** Wherever the RoPE scale changes a sine or a cosine, there is a model, complete, with no weight that parts the
      products and a cache that keeps everything alike, whose resident pass and `run` part at that position. */
  lemma RopeParts(math: Math, eps: real, theta: real, scale: real, n: nat, format: KvFormat, round: real -> int,
                  pos: nat)
      returns (m: Model, ss: seq<LayerState>, x: Vec)
    requires ExpTells(math) && math.sqrt(n as real) != 0.0 && Rms(math, Front(n), eps) != 0.0
    requires format.dtype == F16 && format.Stored(0.0) == 0.0
    requires !Rotation(math, n, n, theta, 1.0).SameAngles(Rotation(math, n, n, theta, scale), pos)
    ensures m.cfg.ropeScale == scale && m.cfg.Full(scale) == Rotation(math, n, n, theta, scale) && m.format == format
    ensures |m.layers| == 1 && m.LayersPresent(m.layers) && m.LayersOk(m.layers) && m.StatesOk(m.layers, ss, pos + 1)
    ensures WeightsSafe(m, m.layers) && CacheAgrees(m, DeviceCodec(m, round), m.layers, ss, pos + 1, pos, x)
    ensures TokenPass(m, GpuEnv(DeviceCodec(m, round)), m.layers, ss, pos + 1, pos, x).0
         != TokenPass(m, m.CpuEnv(), m.layers, ss, pos + 1, pos, x).0
  {
    hide ExpTells, Share, Rotation.Rotate, Rotation.SameAngles, Rms, Looking, TokenPass, CacheAgrees, WeightsSafe;
    hide Compass, DeviceRow, KvFormat.RoundTrip, Model.MixerOk, Model.LayerPresent;
    var rot, other := Rotation(math, n, n, theta, 1.0), Rotation(math, n, n, theta, scale);
    assert rot.Ok();
    var d, e := AnglesTell(rot, other, pos);
    if pos == 0 { SameAtStart(rot, other); }
    m := Compass(math, eps, theta, scale, n, d, format);
    var st := LayerState(Looking(n, Picks(n, e), pos), [], [], []);
    ss, x := [st], Front(n);
    CompassIs(math, eps, theta, scale, n, d, format);
    CompassFits(math, eps, theta, scale, n, d, e, format, pos);
    var gpu, cpu := GpuEnv(DeviceCodec(m, round)), m.CpuEnv();
    NothingKept(m, round, n);
    assert ExpLaws(math) by { TellsHasLaws(math); }
    CompassPass(math, eps, theta, scale, n, d, e, format, gpu, pos);
    CompassPass(math, eps, theta, scale, n, d, e, format, cpu, pos);
    HalfCacheAgrees(m, round, m.layers, ss, pos + 1, pos, x);
    var a, b, r := rot.Rotate(Picks(n, d), pos)[e], other.Rotate(Picks(n, d), pos)[e], math.sqrt(n as real);
    QuotientTells(a, b, r);
    SharesDiffer(math, Div(a, r), Div(b, r), pos);
  }

  lemma TellsHasLaws(math: Math)
    requires ExpTells(math)
    ensures ExpLaws(math)
  {}

  lemma CompassIs(math: Math, eps: real, theta: real, scale: real, n: nat, d: nat, format: KvFormat)
    ensures var m := Compass(math, eps, theta, scale, n, d, format);
      && m.cfg.ropeScale == scale && m.format == format
      && forall s :: m.cfg.Full(s) == Rotation(math, n, n, theta, s)
  {}

  lemma NothingKept(m: Model, round: real -> int, n: nat)
    requires m.format.dtype == F16 && m.format.Stored(0.0) == 0.0
    ensures KeepsNothing(GpuEnv(DeviceCodec(m, round)), n) && KeepsNothing(m.CpuEnv(), n)
  {
    var z := Nothing(n);
    assert DeviceRow(m.format, round, z) == z && m.format.RoundTrip(z) == z;
  }

  lemma QuotientTells(a: real, b: real, r: real)
    requires a != b && r != 0.0
    ensures Div(a, r) != Div(b, r)
  {
    assert a / r * r == a && b / r * r == b;
  }
}
