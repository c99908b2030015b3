/** When the resident pass on the device computes what `run` computes: no weight that tells the two products apart,
    angles that RoPE's scale does not change, and cache rows that the device keeps as the CPU does. */
module GpuPass {
  import opened Sums
  import opened Blocks
  import opened Matmul
  import opened KvCaching
  import opened Llama
  import opened RotaryEmbedding = Rope
  import opened ForwardPass

  // ---- Conditions ----

  predicate AllHarmless(m: Model, names: seq<string>) { forall i :: 0 <= i < |names| ==> Harmless(m.Get(names[i])) }

  /** The projections of a layer that `run` sends through `matmul_into`. */
  function Int8Names(layer: Layer): seq<string> {
    (match layer.mixer
     case Attention(wq, wk, wv, wo, _, _) => [wq, wk, wv, wo]
     case ShortConv(inp, out, _) => [inp, out]
     case GatedAttention(wqg, wk, wv, wo, _, _) => [wqg, wk, wv, wo]
     case GatedDeltaNet(wqkv, wgate, _, _, _, beta, alpha, _, out) => [wqkv, wgate, beta, alpha, out])
    + [layer.ffnDown]
  }

  predicate WeightsSafe(m: Model, ls: seq<Layer>) {
    forall i :: 0 <= i < |ls| ==> AllHarmless(m, Int8Names(ls[i]))
  }

  function RotationFor(m: Model, mixer: Mixer, scale: real): Rotation {
    if mixer.Attention? then m.cfg.Full(scale) else m.cfg.Partial(scale)
  }

  /** At this position the model's RoPE scale changes no sine and no cosine of the layer's angles. */
  predicate AnglesAgree(m: Model, mixer: Mixer, pos: nat) {
    UsesCells(mixer) ==> RotationFor(m, mixer, 1.0).SameAngles(RotationFor(m, mixer, m.cfg.ropeScale), pos)
  }

  predicate AllAnglesAgree(m: Model, ls: seq<Layer>, pos: nat) {
    forall i :: 0 <= i < |ls| ==> AnglesAgree(m, ls[i].mixer, pos)
  }

  /** The key and the value that an attention layer writes for one token, before the cache rounds them. */
  function KeyValue(m: Model, mixer: Mixer, pos: nat, xn: Vec): (Vec, Vec)
    requires UsesCells(mixer)
  {
    var env, heads := m.CpuEnv(), m.cfg.shape.kvHeads;
    var k := match mixer
      case Attention(_, wk, _, _, _, kn) => m.NormedIf(m.Project(env, wk, xn), heads, kn)
      case GatedAttention(_, wk, _, _, _, kn) => m.NormHeads(m.Project(env, wk, xn), heads, m.Weight(kn));
    (m.RotateHeads(RotationFor(m, mixer, m.cfg.ropeScale), k, heads, pos), m.Project(env, mixer.wv, xn))
  }

  /** The device's cache keeps what the layer writes as the CPU's does. */
  predicate RowsAgree(m: Model, codec: Vec -> Vec, mixer: Mixer, pos: nat, xn: Vec) {
    UsesCells(mixer) ==>
      var (k, v) := KeyValue(m, mixer, pos, xn);
      codec(k) == m.format.RoundTrip(k) && codec(v) == m.format.RoundTrip(v)
  }

  /** It does so for everything one pass writes. */
  predicate CacheAgrees(m: Model, codec: Vec -> Vec, ls: seq<Layer>, ss: seq<LayerState>, maxSeq: nat, pos: nat, x: Vec)
    requires m.LayersOk(ls) && m.StatesOk(ls, ss, maxSeq) && pos < maxSeq
  {
    ls == [] ||
    (&& RowsAgree(m, codec, ls[0].mixer, pos, m.Norm(x, ls[0].attnNorm))
     && CacheAgrees(m, codec, ls[1..], ss[1..], maxSeq, pos, m.LayerStep(m.CpuEnv(), ls[0], ss[0], pos, x).0))
  }

  /** And for everything a run of tokens writes. */
  predicate RunCacheAgrees(m: Model, codec: Vec -> Vec, ls: seq<Layer>, ss: seq<LayerState>, maxSeq: nat, pos: nat,
                           xs: seq<Vec>)
    requires m.LayersOk(ls) && m.StatesOk(ls, ss, maxSeq) && pos + |xs| <= maxSeq
    decreases |xs|
  {
    xs == [] ||
    (var n := |xs| - 1;
     && RunCacheAgrees(m, codec, ls, ss, maxSeq, pos, xs[..n])
     && CacheAgrees(m, codec, ls, TokenMajor(m, m.CpuEnv(), ls, ss, maxSeq, pos, xs[..n]).1, maxSeq, pos + n, xs[n]))
  }

  // ---- The device's codec ----

  function DeviceCodec(m: Model, round: real -> int): Vec -> Vec { (x: Vec) => DeviceRow(m.format, round, x) }

  /** With a half-precision cache there is no condition on what is written. */
  lemma {:induction false} HalfCacheAgrees(m: Model, round: real -> int, ls: seq<Layer>, ss: seq<LayerState>,
                                           maxSeq: nat, pos: nat, x: Vec)
    requires m.LayersOk(ls) && m.StatesOk(ls, ss, maxSeq) && pos < maxSeq && m.format.dtype == F16
    ensures CacheAgrees(m, DeviceCodec(m, round), ls, ss, maxSeq, pos, x)
    decreases |ls|
  {
    hide Model.LayerStep, Model.Norm, KeyValue, KvFormat.RoundTrip, DeviceRow, Model.MixerOk;
    if ls != [] {
      var xn := m.Norm(x, ls[0].attnNorm);
      if UsesCells(ls[0].mixer) {
        HalfRowsAgree(m.format, round, KeyValue(m, ls[0].mixer, pos, xn).0);
        HalfRowsAgree(m.format, round, KeyValue(m, ls[0].mixer, pos, xn).1);
      }
      HalfCacheAgrees(m, round, ls[1..], ss[1..], maxSeq, pos, m.LayerStep(m.CpuEnv(), ls[0], ss[0], pos, x).0);
    }
  }

  lemma {:induction false} HalfRunAgrees(m: Model, round: real -> int, ls: seq<Layer>, ss: seq<LayerState>,
                                         maxSeq: nat, pos: nat, xs: seq<Vec>)
    requires m.LayersOk(ls) && m.StatesOk(ls, ss, maxSeq) && pos + |xs| <= maxSeq && m.format.dtype == F16
    ensures RunCacheAgrees(m, DeviceCodec(m, round), ls, ss, maxSeq, pos, xs)
    decreases |xs|
  {
    hide CacheAgrees, TokenMajor;
    if xs != [] {
      var n := |xs| - 1;
      HalfRunAgrees(m, round, ls, ss, maxSeq, pos, xs[..n]);
      HalfCacheAgrees(m, round, ls, TokenMajor(m, m.CpuEnv(), ls, ss, maxSeq, pos, xs[..n]).1, maxSeq, pos + n, xs[n]);
    }
  }

  /** With a Q8_0 cache, the row written by a layer is kept alike exactly when its scales are half-precision numbers and
      its elements round alike, for the key and for the value. */
  lemma BlockCodecAgrees(m: Model, round: real -> int, mixer: Mixer, pos: nat, xn: Vec)
    requires m.format.dtype == Q8_0 && Nearest(round) && UsesCells(mixer)
    ensures var (k, v) := KeyValue(m, mixer, pos, xn);
      RowsAgree(m, DeviceCodec(m, round), mixer, pos, xn) <==>
        ScalesExact(m.format, k) && RoundsAlike(k, round) && ScalesExact(m.format, v) && RoundsAlike(v, round)
  {
    hide KeyValue, ScalesExact, RoundsAlike, KvFormat.RoundTrip, DeviceRow, Nearest;
    BlockRowsAgree(m.format, round, KeyValue(m, mixer, pos, xn).0);
    BlockRowsAgree(m.format, round, KeyValue(m, mixer, pos, xn).1);
  }

  // ---- One layer ----

  lemma ExactProjection(m: Model, codec: Vec -> Vec, names: seq<string>, i: nat)
    requires AllHarmless(m, names) && i < |names|
    ensures forall x :: m.Project(GpuEnv(codec), names[i], x) == m.Project(m.CpuEnv(), names[i], x)
  {
    forall x
      ensures m.Project(GpuEnv(codec), names[i], x) == m.Project(m.CpuEnv(), names[i], x)
    {
      HarmlessProduct(m.Get(names[i]), x);
    }
  }

  /** Where a mixer's names stand in the list. */
  lemma NamesAt(layer: Layer)
    ensures var n := Int8Names(layer);
      && n[|n| - 1] == layer.ffnDown
      && match layer.mixer
         case Attention(wq, wk, wv, wo, _, _) => |n| == 5 && n[0] == wq && n[1] == wk && n[2] == wv && n[3] == wo
         case ShortConv(inp, out, _) => |n| == 3 && n[0] == inp && n[1] == out
         case GatedAttention(wqg, wk, wv, wo, _, _) => |n| == 5 && n[0] == wqg && n[1] == wk && n[2] == wv && n[3] == wo
         case GatedDeltaNet(wqkv, wgate, _, _, _, beta, alpha, _, out) =>
           |n| == 6 && n[0] == wqkv && n[1] == wgate && n[2] == beta && n[3] == alpha && n[4] == out
  {}

  /** Rotations by angles of the same sine and cosine are the same, head by head. */
  lemma SameRotated(m: Model, rot: Rotation, other: Rotation, x: Vec, heads: nat, pos: nat)
    requires other == rot.(scale := other.scale) && rot.SameAngles(other, pos)
    ensures m.RotateHeads(rot, x, heads, pos) == m.RotateHeads(other, x, heads, pos)
  {
    hide Rotation.Rotate, Rotation.SameAngles, Part, FromBlocks;
    var c := rot.headDim;
    var f, g := (h: int) => rot.Rotate(Part(x, h * c, c), pos), (h: int) => other.Rotate(Part(x, h * c, c), pos);
    forall h | 0 <= h < heads
      ensures f(h) == g(h)
    {
      rot.HeadSame(other, Part(x, h * c, c), pos);
    }
    FromBlocksEq(heads, c, f, g);
  }

  lemma AttendedAgrees(m: Model, codec: Vec -> Vec, rot: Rotation, other: Rotation, q: Vec, k: Vec, v: Vec, pos: nat,
                       st: LayerState)
    requires m.cfg.shape.Ok() && pos < |st.cells| && other == rot.(scale := other.scale) && rot.SameAngles(other, pos)
    requires var key := m.RotateHeads(other, k, m.cfg.shape.kvHeads, pos);
      codec(key) == m.format.RoundTrip(key) && codec(v) == m.format.RoundTrip(v)
    ensures m.Attended(GpuEnv(codec), rot, q, k, v, pos, st) == m.Attended(m.CpuEnv(), other, q, k, v, pos, st)
  {
    hide Model.AttendHeads, Model.RotateHeads, KvFormat.RoundTrip, Rotation.SameAngles;
    SameRotated(m, rot, other, q, m.cfg.shape.heads, pos);
    SameRotated(m, rot, other, k, m.cfg.shape.kvHeads, pos);
  }

  lemma GpuLayerAgrees(m: Model, codec: Vec -> Vec, layer: Layer, st: LayerState, pos: nat, x: Vec)
    requires m.MixerOk(layer.mixer) && pos < |st.cells| && AllHarmless(m, Int8Names(layer))
    requires AnglesAgree(m, layer.mixer, pos) && RowsAgree(m, codec, layer.mixer, pos, m.Norm(x, layer.attnNorm))
    ensures m.LayerStep(GpuEnv(codec), layer, st, pos, x) == m.LayerStep(m.CpuEnv(), layer, st, pos, x)
  {
    hide Model.Attended, Model.NormHeads, Model.GatedNorm, Model.RecurOutputs, Model.RecurStates, Model.DecaysOf;
    hide Model.L2Normed, Model.ConvSilu, Model.ShortConvOut, Model.SplitQg, Model.GateOutput, Model.Project;
    hide Model.NormedIf;
    hide Model.Norm, Model.FfnHidden, AnglesAgree, RowsAgree;
    var names := Int8Names(layer);
    var xn := m.Norm(x, layer.attnNorm);
    NamesAt(layer);
    ExactProjection(m, codec, names, |names| - 1);
    match layer.mixer
    case Attention(_, _, _, _, _, _) => GpuAttentionAgrees(m, codec, layer, st, pos, xn);
    case ShortConv(_, _, _) =>
      ExactProjection(m, codec, names, 0);
      ExactProjection(m, codec, names, 1);
    case GatedAttention(_, _, _, _, _, _) => GpuGatedAttentionAgrees(m, codec, layer, st, pos, xn);
    case GatedDeltaNet(_, _, _, _, _, _, _, _, _) =>
      ExactProjection(m, codec, names, 0);
      ExactProjection(m, codec, names, 1);
      ExactProjection(m, codec, names, 2);
      ExactProjection(m, codec, names, 3);
      ExactProjection(m, codec, names, 4);
  }

  lemma GpuAttentionAgrees(m: Model, codec: Vec -> Vec, layer: Layer, st: LayerState, pos: nat, xn: Vec)
    requires layer.mixer.Attention? && m.MixerOk(layer.mixer) && pos < |st.cells| && AllHarmless(m, Int8Names(layer))
    requires AnglesAgree(m, layer.mixer, pos) && RowsAgree(m, codec, layer.mixer, pos, xn)
    ensures m.MixAttention(GpuEnv(codec), layer.mixer, st, pos, xn)
      == m.MixAttention(m.CpuEnv(), layer.mixer, st, pos, xn)
  {
    hide Model.Attended, Model.NormedIf, Model.Project, Rotation.SameAngles, Model.RotateHeads, KvFormat.RoundTrip;
    var names, mixer, cpu := Int8Names(layer), layer.mixer, m.CpuEnv();
    NamesAt(layer);
    ExactProjection(m, codec, names, 0);
    ExactProjection(m, codec, names, 1);
    ExactProjection(m, codec, names, 2);
    ExactProjection(m, codec, names, 3);
    AttendedAgrees(m, codec, m.cfg.Full(1.0), m.cfg.Full(m.cfg.ropeScale),
      m.NormedIf(m.Project(cpu, mixer.wq, xn), m.cfg.shape.heads, mixer.qNorm),
      m.NormedIf(m.Project(cpu, mixer.wk, xn), m.cfg.shape.kvHeads, mixer.kNorm),
      m.Project(cpu, mixer.wv, xn), pos, st);
  }

  lemma GpuGatedAttentionAgrees(m: Model, codec: Vec -> Vec, layer: Layer, st: LayerState, pos: nat, xn: Vec)
    requires layer.mixer.GatedAttention? && m.MixerOk(layer.mixer) && pos < |st.cells|
    requires AllHarmless(m, Int8Names(layer))
    requires AnglesAgree(m, layer.mixer, pos) && RowsAgree(m, codec, layer.mixer, pos, xn)
    ensures m.MixGatedAttention(GpuEnv(codec), layer.mixer, st, pos, xn)
      == m.MixGatedAttention(m.CpuEnv(), layer.mixer, st, pos, xn)
  {
    hide Model.Attended, Model.NormHeads, Model.Project, Model.SplitQg, Model.GateOutput, Model.Weight;
    hide Rotation.SameAngles, Model.RotateHeads, KvFormat.RoundTrip;
    var names, mixer, cpu := Int8Names(layer), layer.mixer, m.CpuEnv();
    NamesAt(layer);
    ExactProjection(m, codec, names, 0);
    ExactProjection(m, codec, names, 1);
    ExactProjection(m, codec, names, 2);
    ExactProjection(m, codec, names, 3);
    AttendedAgrees(m, codec, m.cfg.Partial(1.0), m.cfg.Partial(m.cfg.ropeScale),
      m.NormHeads(m.SplitQg(m.Project(cpu, mixer.wqg, xn), false), m.cfg.shape.heads, m.Weight(mixer.gqNorm)),
      m.NormHeads(m.Project(cpu, mixer.wk, xn), m.cfg.shape.kvHeads, m.Weight(mixer.gkNorm)),
      m.Project(cpu, mixer.wv, xn), pos, st);
  }

  // ---- Passes and runs ----

  /** With no weight that parts the products, angles that agree at this position and a cache that keeps what is written
      alike, the device's environment gives exactly `run`'s stream and states. */
  lemma {:induction false} GpuPassAgrees(m: Model, codec: Vec -> Vec, ls: seq<Layer>, ss: seq<LayerState>,
                                         maxSeq: nat, pos: nat, x: Vec)
    requires m.LayersOk(ls) && m.StatesOk(ls, ss, maxSeq) && pos < maxSeq
    requires WeightsSafe(m, ls) && AllAnglesAgree(m, ls, pos) && CacheAgrees(m, codec, ls, ss, maxSeq, pos, x)
    ensures TokenPass(m, GpuEnv(codec), ls, ss, maxSeq, pos, x) == TokenPass(m, m.CpuEnv(), ls, ss, maxSeq, pos, x)
    decreases |ls|
  {
    hide Model.LayerStep, Model.Norm, RowsAgree, AnglesAgree, AllHarmless, Model.MixerOk;
    if ls != [] {
      GpuLayerAgrees(m, codec, ls[0], ss[0], pos, x);
      var y := m.LayerStep(m.CpuEnv(), ls[0], ss[0], pos, x).0;
      GpuPassAgrees(m, codec, ls[1..], ss[1..], maxSeq, pos, y);
    }
  }

  /** So token by token: the same streams, states and logits. */
  lemma {:induction false} GpuRunAgrees(m: Model, codec: Vec -> Vec, ls: seq<Layer>, ss: seq<LayerState>,
                                        maxSeq: nat, pos: nat, xs: seq<Vec>)
    requires m.LayersOk(ls) && m.StatesOk(ls, ss, maxSeq) && pos + |xs| <= maxSeq
    requires WeightsSafe(m, ls) && Harmless(m.Get(m.lmHead)) && RunCacheAgrees(m, codec, ls, ss, maxSeq, pos, xs)
    requires forall p :: pos <= p < pos + |xs| ==> AllAnglesAgree(m, ls, p)
    ensures TokenMajor(m, GpuEnv(codec), ls, ss, maxSeq, pos, xs) == TokenMajor(m, m.CpuEnv(), ls, ss, maxSeq, pos, xs)
    ensures forall x :: m.Logits(GpuEnv(codec), x) == m.Logits(m.CpuEnv(), x)
    decreases |xs|
  {
    hide TokenPass, CacheAgrees, AllAnglesAgree, WeightsSafe;
    assert [m.lmHead][0] == m.lmHead;
    ExactProjection(m, codec, [m.lmHead], 0);
    if xs != [] {
      var n := |xs| - 1;
      GpuRunAgrees(m, codec, ls, ss, maxSeq, pos, xs[..n]);
      var s1 := TokenMajor(m, m.CpuEnv(), ls, ss, maxSeq, pos, xs[..n]).1;
      GpuPassAgrees(m, codec, ls, s1, maxSeq, pos + n, xs[n]);
    }
  }
}
