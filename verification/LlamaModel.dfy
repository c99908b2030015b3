/** The engine's forward passes as they run: buffers, histories and caches overwritten in place. */
module LlamaModel {
  import opened Sums
  import opened Blocks
  import opened Elementary
  import opened Errors
  import opened Conv
  import opened Rope
  import opened KvCaching
  import opened Llama
  import opened ForwardPass
  import opened MixerRoutines
  import opened ElementRoutines
  import opened DeviceLaunches
  import opened DeviceLayers

  /** Scratch buffers, overwritten by every pass, and the persistent histories and matrices. */
  class InferenceState {
    var x: Vec
    var xn: Vec
    var q: Vec
    var k: Vec
    var v: Vec
    var attnOut: Vec
    var proj: Vec
    var ffnAct: Vec
    var logits: Vec
    var bcx: Vec
    var bx: Vec
    var convOut: Vec
    var qgRaw: Vec
    var gate: Vec
    var gdnQkv: Vec
    var gdnConvOut: Vec
    var gdnZ: Vec
    var gdnBeta: Vec
    var gdnAlpha: Vec
    var gdnOut: Vec
    var convState: seq<Vec>
    var gdnConvState: seq<Vec>
    var gdnRecurrent: seq<Vec>

    constructor (convs: seq<Vec>, gdnConvs: seq<Vec>, recurrents: seq<Vec>)
      ensures convState == convs && gdnConvState == gdnConvs && gdnRecurrent == recurrents
    {
      x, xn, q, k, v, attnOut, proj, ffnAct, logits := [], [], [], [], [], [], [], [], [];
      bcx, bx, convOut, qgRaw, gate := [], [], [], [], [];
      gdnQkv, gdnConvOut, gdnZ, gdnBeta, gdnAlpha, gdnOut := [], [], [], [], [], [];
      convState, gdnConvState, gdnRecurrent := convs, gdnConvs, recurrents;
    }
  }

  /** The buffers a resident pass keeps on the device: every layer's state, in the device's own codec, and
      for which length and type the KV cache of which layers is allocated. */
  class GpuState {
    const dev: Device
    var layers: seq<LayerState>
    var maxSeq: nat
    var dtype: KvDtype
    var cached: set<nat>

    constructor (device: Device, ls: seq<LayerState>)
      ensures dev == device && layers == ls && maxSeq == 0 && dtype == F16 && cached == {}
    {
      dev, layers, maxSeq, dtype, cached := device, ls, 0, F16, {};
    }
  }

  /** The layers' persistent states, gathered from where they are kept. */
  function Gather(cells: Table, convs: seq<Vec>, gdnConvs: seq<Vec>, recurrents: seq<Vec>): (ss: seq<LayerState>)
    requires |cells| == |convs| == |gdnConvs| == |recurrents|
    ensures |ss| == |cells|
  {
    seq(|cells|, i requires 0 <= i < |cells| => LayerState(cells[i], convs[i], gdnConvs[i], recurrents[i]))
  }

  lemma GatherWritten(f: KvFormat, cells: Table, convs: seq<Vec>, gdnConvs: seq<Vec>, recurrents: seq<Vec>,
                      i: nat, pos: nat, k: Vec, v: Vec)
    requires |cells| == |convs| == |gdnConvs| == |recurrents| && i < |cells| && pos < |cells[i]|
    ensures var ss := Gather(cells, convs, gdnConvs, recurrents);
      Gather(Written(f, cells, i, pos, k, v), convs, gdnConvs, recurrents)
        == ss[i := ss[i].(cells := ss[i].cells[pos := Cell(f.RoundTrip(k), f.RoundTrip(v))])]
  {
    hide KvFormat.RoundTrip;
  }

  lemma GatherAt(cells: Table, convs: seq<Vec>, gdnConvs: seq<Vec>, recurrents: seq<Vec>, i: nat)
    requires |cells| == |convs| == |gdnConvs| == |recurrents| && i < |cells|
    ensures Gather(cells, convs, gdnConvs, recurrents)[i] == LayerState(cells[i], convs[i], gdnConvs[i], recurrents[i])
  {}

  lemma GatherCells(cells: Table, convs: seq<Vec>, gdnConvs: seq<Vec>, recurrents: seq<Vec>, i: nat)
    requires |cells| == |convs| == |gdnConvs| == |recurrents| && i < |cells|
    ensures Gather(cells, convs, gdnConvs, recurrents)[i].cells == cells[i]
  {}

  lemma GatherConv(cells: Table, convs: seq<Vec>, gdnConvs: seq<Vec>, recurrents: seq<Vec>, i: nat, conv: Vec)
    requires |cells| == |convs| == |gdnConvs| == |recurrents| && i < |cells|
    ensures var ss := Gather(cells, convs, gdnConvs, recurrents);
      Gather(cells, convs[i := conv], gdnConvs, recurrents) == ss[i := ss[i].(conv := conv)]
  {}

  lemma GatherGdn(cells: Table, convs: seq<Vec>, gdnConvs: seq<Vec>, recurrents: seq<Vec>, i: nat, conv: Vec, s: Vec)
    requires |cells| == |convs| == |gdnConvs| == |recurrents| && i < |cells|
    ensures var ss := Gather(cells, convs, gdnConvs, recurrents);
      Gather(cells, convs, gdnConvs[i := conv], recurrents[i := s]) == ss[i := ss[i].(gdnConv := conv, gdnState := s)]
  {}

  lemma StateTaken(ss: seq<LayerState>, i: nat, s: LayerState, rest: seq<LayerState>)
    requires i < |ss|
    ensures ss[i := s][i + 1..] == ss[i + 1..] && ss[i := s][..i + 1] == ss[..i] + [s]
    ensures ss[..i] + ([s] + rest) == ss[i := s][..i + 1] + rest
  {}

  lemma ConvFits(cfg: Config)
    ensures 2 * cfg.gdn.KeyWidth() <= cfg.ConvDim()
  {
    Nonneg(cfg.gdn.valueHeads, cfg.gdn.head.valueDim);
  }

  class Engine {
    const m: Model
    const hasGpu: bool
    const gpu: GpuState
    var state: InferenceState?

    constructor (model: Model, present: bool, device: GpuState, st: InferenceState)
      ensures m == model && hasGpu == present && gpu == device && state == st
    {
      m, hasGpu, gpu, state := model, present, device, st;
    }

    /** `gpu_resident_ready_backend`: a device, with every weight of the pass on it. */
    predicate GpuReady() {
      && hasGpu && m.lmHead in gpu.dev.handles
      && forall i :: 0 <= i < |m.layers| ==> LayerResident(gpu.dev, m.layers[i]) && HeadNormsPresent(m.layers[i].mixer)
    }

    /** The per-head norm weights of an attention layer were uploaded with the others. */
    predicate HeadNormsPresent(mixer: Mixer) {
      match mixer
      case Attention(_, _, _, _, qn, kn) => m.OptionPresent(qn) && m.OptionPresent(kn)
      case GatedAttention(_, _, _, _, qn, kn) => qn in m.tensors && kn in m.tensors
      case ShortConv(_, _, _) => true
      case GatedDeltaNet(_, _, _, _, _, _, _, _, _) => true
    }

    /** The states a device keeps: their sizes, and cells as wide as the cache's rows. */
    predicate DeviceStatesOk(ss: seq<LayerState>, maxSeq: nat) {
      && m.StatesOk(m.layers, ss, maxSeq)
      && forall i :: 0 <= i < |m.layers| && UsesCells(m.layers[i].mixer) ==> CellsFit(m, ss[i].cells)
    }

    /** What a ready device rests on: handles that are the model's weights, and the laws of exp that a softmax needs. */
    ghost predicate DeviceSound() { Launchable(gpu.dev, m) && |m.layers| > 0 && m.LayersOk(m.layers) }

    /** A ready device lacks no tensor. */
    lemma ReadyIsComplete()
      requires GpuReady() && DeviceSound()
      ensures Complete()
    {
      hide Uploaded, ExpLaws;
      forall i | 0 <= i < |m.layers|
        ensures m.LayerPresent(m.layers[i])
      {
        var layer := m.layers[i];
        assert LayerResident(gpu.dev, layer) && HeadNormsPresent(layer.mixer);
        NamesResident(gpu.dev, layer.mixer);
        var n := [layer.ffnGate, layer.ffnUp, layer.ffnDown];
        assert n[0] in gpu.dev.handles && n[1] in gpu.dev.handles && n[2] in gpu.dev.handles;
      }
    }

    ghost predicate Ready(kv: KvCache, st: InferenceState)
      reads kv, st
    {
      && kv.Valid() && kv.layers == |m.layers| && kv.format == m.format && kv.kvDim == m.cfg.shape.KvDim()
      && |st.convState| == |st.gdnConvState| == |st.gdnRecurrent| == |m.layers|
      && m.LayersOk(m.layers) && m.StatesOk(m.layers, States(kv, st), kv.maxSeq)
    }

    /** Everything that outlives a pass, layer by layer. */
    ghost function States(kv: KvCache, st: InferenceState): (ss: seq<LayerState>)
      requires kv.Valid() && kv.layers == |m.layers|
      requires |st.convState| == |st.gdnConvState| == |st.gdnRecurrent| == |m.layers|
      reads kv, st
      ensures |ss| == |m.layers|
    {
      Gather(kv.Contents(), st.convState, st.gdnConvState, st.gdnRecurrent)
    }

    /** What a pass needs of the tensors beyond its tokens. */
    predicate Complete() { m.LayersPresent(m.layers) && m.lmHead in m.tensors }

    // ---- Matrix products by name ----

    method MatmulInto(name: string, x: Vec) returns (r: Result<Vec>)
      ensures r.Success? <==> name in m.tensors
      ensures r.Success? ==> r.value == m.Project(m.CpuEnv(), name, x) && |r.value| == |m.tensors[name].rows|
    {
      if name !in m.tensors { return Failure(MissingMetadata(name)); }
      return Success(m.tensors[name].Product(x));
    }

    method NormWeight(name: string) returns (r: Result<Vec>)
      ensures r.Success? <==> name in m.tensors
      ensures r.Success? ==> r.value == m.Weight(name)
    {
      if name !in m.tensors { return Failure(MissingMetadata(name)); }
      var rows := m.tensors[name].rows;
      return Success(if rows == [] then [] else rows[0]);
    }

    method Embed(token: nat) returns (r: Result<Vec>)
      ensures r.Success? <==> m.TokenKnown(token)
      ensures r.Success? ==> r.value == m.Embedding(token)
    {
      if m.tokenEmbd !in m.tensors { return Failure(MissingMetadata(m.tokenEmbd)); }
      if token >= |m.tensors[m.tokenEmbd].rows| { return Failure(BackendError); }
      return Success(m.tensors[m.tokenEmbd].rows[token]);
    }

    // ---- The mixers, one token ----

    /** After a mixer: its output in proj, its layer's state advanced, nothing else of what persists touched. */
    twostate predicate Mixed(i: nat, pos: nat, kv: KvCache, st: InferenceState)
      requires old(Ready(kv, st)) && i < |m.layers| && pos < kv.maxSeq
      reads kv, st
    {
      && Ready(kv, st)
      && st.x == old(st.x)
      && var (proj, s) := m.Mix(m.CpuEnv(), m.layers[i].mixer, old(States(kv, st))[i], pos, old(st.xn));
         st.proj == proj && States(kv, st) == old(States(kv, st))[i := s]
    }

    /** Three projections of xn. */
    method QkvInto(wq: string, wk: string, wv: string, st: InferenceState) returns (r: Result<()>)
      modifies st`q, st`k, st`v
      ensures r.Success? <==> wq in m.tensors && wk in m.tensors && wv in m.tensors
      ensures r.Success? ==> st.q == m.Project(m.CpuEnv(), wq, st.xn) && st.k == m.Project(m.CpuEnv(), wk, st.xn)
      ensures r.Success? ==> st.v == m.Project(m.CpuEnv(), wv, st.xn)
      ensures r.Success? ==>
        |st.q| == |m.tensors[wq].rows| && |st.k| == |m.tensors[wk].rows| && |st.v| == |m.tensors[wv].rows|
    {
      hide Model.Project;
      st.q :- MatmulInto(wq, st.xn);
      st.k :- MatmulInto(wk, st.xn);
      st.v :- MatmulInto(wv, st.xn);
      return Success(());
    }

    method NormInto(x: Vec, weight: Vec) returns (xn: Vec)
      ensures xn == m.Norm(x, weight)
    {
      xn := RmsNormInto(m.cfg.math, x, weight, m.cfg.eps);
    }

    method NormIf(x: Vec, heads: nat, name: Option<string>) returns (r: Result<Vec>)
      requires |x| == heads * m.cfg.shape.headDim
      ensures r.Success? <==> name.None? || name.value in m.tensors
      ensures r.Success? ==> r.value == m.NormedIf(x, heads, name) && |r.value| == |x|
    {
      hide Model.NormHeads;
      if name.None? { return Success(x); }
      var w :- NormWeight(name.value);
      var normed := QkNorm(m, x, heads, w);
      return Success(normed);
    }

    /** The three projections, queries and keys normalised head by head where the layer has the weights for it. */
    method NormedQkvInto(mixer: Mixer, st: InferenceState) returns (r: Result<()>)
      requires mixer.Attention? && m.MixerOk(mixer)
      modifies st`q, st`k, st`v
      ensures r.Success? <==>
        && mixer.wq in m.tensors && mixer.wk in m.tensors && mixer.wv in m.tensors
        && m.OptionPresent(mixer.qNorm) && m.OptionPresent(mixer.kNorm)
      ensures r.Success? ==> var env, shape := m.CpuEnv(), m.cfg.shape;
        && st.q == m.NormedIf(m.Project(env, mixer.wq, st.xn), shape.heads, mixer.qNorm)
        && st.k == m.NormedIf(m.Project(env, mixer.wk, st.xn), shape.kvHeads, mixer.kNorm)
        && st.v == m.Project(env, mixer.wv, st.xn)
        && |st.q| == shape.heads * shape.headDim && |st.k| == |st.v| == shape.KvDim()
    {
      hide Model.NormedIf, Model.Project;
      var _ :- QkvInto(mixer.wq, mixer.wk, mixer.wv, st);
      st.q :- NormIf(st.q, m.cfg.shape.heads, mixer.qNorm);
      st.k :- NormIf(st.k, m.cfg.shape.kvHeads, mixer.kNorm);
      return Success(());
    }

    /** Rotate, write the key and value into the cache, read everything back up to here, attend. */
    method RotateAndAttend(whole: bool, q: Vec, k: Vec, v: Vec, i: nat, pos: nat, kv: KvCache, st: InferenceState)
        returns (out: Vec)
      requires Ready(kv, st) && i < |m.layers| && pos < kv.maxSeq && m.cfg.shape.Ok()
      requires |q| == m.cfg.shape.heads * m.cfg.shape.headDim && |k| == |v| == kv.kvDim
      requires whole || m.cfg.nRot <= m.cfg.shape.headDim
      modifies kv
      ensures kv.Valid()
      ensures (out, States(kv, st)[i])
        == m.Attended(m.CpuEnv(), RotationOf(m, whole), q, k, v, pos, old(States(kv, st))[i])
      ensures States(kv, st) == old(States(kv, st))[i := States(kv, st)[i]]
    {
      hide Model.AttendFlat, Model.RotateHeads, KvFormat.RoundTrip, Gather, Model.LayersOk, Model.StatesOk;
      ghost var cells := kv.Contents();
      var query, key := RotateBuffers(m, whole, q, k, pos);
      kv.Write(i, pos, key, v);
      var keys, values := kv.ReadUpTo(i, pos);
      out := AttendBuffers(m, query, keys, values, pos + 1);
      GatherWritten(m.format, cells, st.convState, st.gdnConvState, st.gdnRecurrent, i, pos, key, v);
      GatherCells(cells, st.convState, st.gdnConvState, st.gdnRecurrent, i);
    }

    /** `Mixer::Attention`. */
    method AttentionMixer(i: nat, pos: nat, kv: KvCache, st: InferenceState) returns (r: Result<()>)
      requires Ready(kv, st) && i < |m.layers| && pos < kv.maxSeq && m.layers[i].mixer.Attention?
      modifies kv, st
      ensures Ready(kv, st)
      ensures r.Success? <==> m.MixerPresent(m.layers[i].mixer)
      ensures r.Success? ==> Mixed(i, pos, kv, st)
    {
      hide Model.Attended, Model.NormedIf, Model.Project, Gather;
      var mixer := m.layers[i].mixer;
      var _ :- NormedQkvInto(mixer, st);
      st.attnOut := RotateAndAttend(true, st.q, st.k, st.v, i, pos, kv, st);
      st.proj :- MatmulInto(mixer.wo, st.attnOut);
      return Success(());
    }

    /** The gated convolution of `bcx`, and the layer's history one token on. */
    method ConvolveInto(i: nat, kv: KvCache, st: InferenceState)
      requires Ready(kv, st) && i < |m.layers| && m.layers[i].mixer.ShortConv?
      requires |st.bcx| == 3 * m.cfg.width
      modifies st`bx, st`convOut, st`convState
      ensures Ready(kv, st)
      ensures var taps, s := m.cfg.ShortTaps(m.layers[i].mixer.convWeight), old(States(kv, st))[i];
        && st.convOut == m.ShortConvOut(taps, st.bcx, s.conv)
        && States(kv, st) == old(States(kv, st))[i := s.(conv := taps.Next(s.conv, Gated(st.bcx, taps.channels)))]
    {
      hide Model.ShortConvOut, Gather, Taps.Next, Gated;
      var taps := m.cfg.ShortTaps(m.layers[i].mixer.convWeight);
      GatherAt(kv.Contents(), st.convState, st.gdnConvState, st.gdnRecurrent, i);
      var bx, convOut, next := ShortConvBuffers(m, taps, st.bcx, st.convState[i]);
      GatherConv(kv.Contents(), st.convState, st.gdnConvState, st.gdnRecurrent, i, next);
      st.bx, st.convOut, st.convState := bx, convOut, st.convState[i := next];
    }

    /** `short_conv`. */
    method ShortConvMixer(i: nat, pos: nat, kv: KvCache, st: InferenceState) returns (r: Result<()>)
      requires Ready(kv, st) && i < |m.layers| && pos < kv.maxSeq && m.layers[i].mixer.ShortConv?
      modifies st
      ensures Ready(kv, st)
      ensures r.Success? <==> m.MixerPresent(m.layers[i].mixer)
      ensures r.Success? ==> Mixed(i, pos, kv, st)
    {
      hide Model.ShortConvOut, Model.Project, Gather, Taps.Next, Gated;
      var mixer := m.layers[i].mixer;
      st.bcx :- MatmulInto(mixer.inProj, st.xn);
      ConvolveInto(i, kv, st);
      st.proj :- MatmulInto(mixer.outProj, st.convOut);
      return Success(());
    }

    /** The fused query-and-gate projection, key and value, split per head and normed. */
    method GatedQkvInto(mixer: Mixer, st: InferenceState) returns (r: Result<()>)
      requires mixer.GatedAttention? && m.KvFits(mixer.wk, mixer.wv)
      modifies st`qgRaw, st`q, st`k, st`v, st`gate
      ensures r.Success? <==>
        mixer.wqg in m.tensors && mixer.wk in m.tensors && mixer.wv in m.tensors
        && mixer.gqNorm in m.tensors && mixer.gkNorm in m.tensors
      ensures r.Success? ==> var env := m.CpuEnv(); var raw := m.Project(env, mixer.wqg, st.xn);
        && st.gate == m.SplitQg(raw, true) && st.v == m.Project(env, mixer.wv, st.xn) && |st.v| == m.cfg.shape.KvDim()
        && st.q == m.NormHeads(m.SplitQg(raw, false), m.cfg.shape.heads, m.Weight(mixer.gqNorm))
        && st.k == m.NormHeads(m.Project(env, mixer.wk, st.xn), m.cfg.shape.kvHeads, m.Weight(mixer.gkNorm))
        && |st.q| == m.cfg.shape.heads * m.cfg.shape.headDim && |st.k| == m.cfg.shape.KvDim()
    {
      hide Model.NormHeads, Model.Project, Model.SplitQg, Model.Weight;
      st.qgRaw :- MatmulInto(mixer.wqg, st.xn);
      st.k :- MatmulInto(mixer.wk, st.xn);
      st.v :- MatmulInto(mixer.wv, st.xn);
      st.q, st.gate := PartQg(m, st.qgRaw);
      var wq :- NormWeight(mixer.gqNorm);
      st.q := QkNorm(m, st.q, m.cfg.shape.heads, wq);
      var wk :- NormWeight(mixer.gkNorm);
      st.k := QkNorm(m, st.k, m.cfg.shape.kvHeads, wk);
      return Success(());
    }

    /** The gate, and the output projection. */
    method GateOutInto(wo: string, out: Vec, st: InferenceState) returns (r: Result<()>)
      modifies st`attnOut, st`proj
      ensures r.Success? <==> wo in m.tensors
      ensures r.Success? ==> st.proj == m.Project(m.CpuEnv(), wo, m.GateOutput(out, st.gate))
    {
      hide Model.Project, Model.GateOutput;
      st.attnOut := GateInto(m, out, st.gate);
      st.proj :- MatmulInto(wo, st.attnOut);
      return Success(());
    }

    /** `gated_attention`. */
    method GatedAttentionMixer(i: nat, pos: nat, kv: KvCache, st: InferenceState) returns (r: Result<()>)
      requires Ready(kv, st) && i < |m.layers| && pos < kv.maxSeq && m.layers[i].mixer.GatedAttention?
      modifies kv, st
      ensures Ready(kv, st)
      ensures r.Success? <==> m.MixerPresent(m.layers[i].mixer)
      ensures r.Success? ==> Mixed(i, pos, kv, st)
    {
      hide Model.Attended, Model.NormHeads, Model.Project, Gather, Model.SplitQg, Model.GateOutput, Model.Weight;
      var mixer := m.layers[i].mixer;
      var _ :- GatedQkvInto(mixer, st);
      var out := RotateAndAttend(false, st.q, st.k, st.v, i, pos, kv, st);
      r := GateOutInto(mixer.wo, out, st);
    }

    /** `matmul_gdn_proj_into`: the four projections, the raw logits turned into beta and decay. */
    method GdnProjInto(mixer: Mixer, st: InferenceState) returns (r: Result<()>)
      requires mixer.GatedDeltaNet? && m.MixerOk(mixer)
      modifies st`gdnQkv, st`gdnZ, st`gdnBeta, st`gdnAlpha
      ensures r.Success? <==>
        mixer.wqkv in m.tensors && mixer.wgate in m.tensors && mixer.ssmBeta in m.tensors && mixer.ssmAlpha in m.tensors
      ensures r.Success? ==> var env := m.CpuEnv();
        && st.gdnQkv == Part(m.Project(env, mixer.wqkv, st.xn), 0, m.cfg.GdnTaps(mixer.gdnWeight).channels)
        && st.gdnZ == m.Project(env, mixer.wgate, st.xn)
        && st.gdnBeta == m.Betas(m.Project(env, mixer.ssmBeta, st.xn))
        && st.gdnAlpha == m.DecaysOf(mixer.ssmA, m.Project(env, mixer.ssmAlpha, st.xn), mixer.dtBias)
    {
      hide Model.Project, Model.Betas, Model.DecaysOf, Part;
      var qkv :- MatmulInto(mixer.wqkv, st.xn);
      st.gdnQkv := Part(qkv, 0, m.cfg.GdnTaps(mixer.gdnWeight).channels);
      st.gdnZ :- MatmulInto(mixer.wgate, st.xn);
      st.gdnBeta :- MatmulInto(mixer.ssmBeta, st.xn);
      st.gdnAlpha :- MatmulInto(mixer.ssmAlpha, st.xn);
      st.gdnBeta, st.gdnAlpha := GateAndDecay(m, mixer.ssmA, mixer.dtBias, st.gdnBeta, st.gdnAlpha);
      return Success(());
    }

    /** Convolution, L2 norm, recurrence and gated norm of the four projections, and the layer's history and matrices
        one token on. */
    method RecurInto(i: nat, kv: KvCache, st: InferenceState)
      requires Ready(kv, st) && i < |m.layers| && m.layers[i].mixer.GatedDeltaNet?
      requires |st.gdnQkv| == m.cfg.GdnTaps(m.layers[i].mixer.gdnWeight).channels
      modifies st`gdnConvOut, st`gdnConvState, st`gdnRecurrent, st`gdnOut
      ensures Ready(kv, st)
      ensures var mixer, s := m.layers[i].mixer, old(States(kv, st))[i];
        var taps := m.cfg.GdnTaps(mixer.gdnWeight);
        var conv := m.L2Normed(m.ConvSilu(taps, s.gdnConv, st.gdnQkv));
        var s' := s.(gdnConv := taps.Next(s.gdnConv, st.gdnQkv),
                     gdnState := m.RecurStates(conv, st.gdnBeta, st.gdnAlpha, s.gdnState));
        && st.gdnOut == m.GatedNorm(m.RecurOutputs(conv, st.gdnBeta, st.gdnAlpha, s.gdnState), st.gdnZ, mixer.ssmNorm)
        && States(kv, st) == old(States(kv, st))[i := s']
    {
      hide Gather, Taps.Next, Model.ConvSilu, Model.L2Normed, Model.RecurOutputs, Model.RecurStates, Model.GatedNorm;
      var mixer := m.layers[i].mixer;
      ghost var cells := kv.Contents();
      GatherAt(cells, st.convState, st.gdnConvState, st.gdnRecurrent, i);
      var conv, history := ConvSiluBuffers(m, m.cfg.GdnTaps(mixer.gdnWeight), st.gdnConvState[i], st.gdnQkv);
      ConvFits(m.cfg);
      st.gdnConvOut := L2NormHeads(m, conv);
      var out, next := RecurBuffers(m, st.gdnConvOut, st.gdnBeta, st.gdnAlpha, st.gdnRecurrent[i]);
      GatherGdn(cells, st.convState, st.gdnConvState, st.gdnRecurrent, i, history, next);
      st.gdnConvState := st.gdnConvState[i := history];
      st.gdnRecurrent := st.gdnRecurrent[i := next];
      st.gdnOut := GatedNormHeads(m, out, st.gdnZ, mixer.ssmNorm);
    }

    /** `gated_delta_net`. */
    method GatedDeltaNetMixer(i: nat, pos: nat, kv: KvCache, st: InferenceState) returns (r: Result<()>)
      requires Ready(kv, st) && i < |m.layers| && pos < kv.maxSeq && m.layers[i].mixer.GatedDeltaNet?
      modifies st
      ensures Ready(kv, st)
      ensures r.Success? <==> m.MixerPresent(m.layers[i].mixer)
      ensures r.Success? ==> Mixed(i, pos, kv, st)
    {
      hide Model.Project, Gather, Taps.Next, Model.ConvSilu, Model.L2Normed, Model.RecurOutputs, Model.RecurStates;
      hide Model.GatedNorm, Model.Betas, Model.DecaysOf, Part;
      var mixer := m.layers[i].mixer;
      var _ :- GdnProjInto(mixer, st);
      RecurInto(i, kv, st);
      st.proj :- MatmulInto(mixer.ssmOut, st.gdnOut);
      return Success(());
    }

    method MixerInto(i: nat, pos: nat, kv: KvCache, st: InferenceState) returns (r: Result<()>)
      requires Ready(kv, st) && i < |m.layers| && pos < kv.maxSeq
      modifies kv, st
      ensures Ready(kv, st)
      ensures r.Success? <==> m.MixerPresent(m.layers[i].mixer)
      ensures r.Success? ==> Mixed(i, pos, kv, st)
    {
      hide Engine.Ready, Engine.Mixed, Model.MixerPresent;
      match m.layers[i].mixer
      case Attention(_, _, _, _, _, _) => r := AttentionMixer(i, pos, kv, st);
      case ShortConv(_, _, _) => r := ShortConvMixer(i, pos, kv, st);
      case GatedAttention(_, _, _, _, _, _) => r := GatedAttentionMixer(i, pos, kv, st);
      case GatedDeltaNet(_, _, _, _, _, _, _, _, _) => r := GatedDeltaNetMixer(i, pos, kv, st);
    }

    /** `matmul_ffn_into`, on the CPU. */
    method FfnInto(layer: Layer, st: InferenceState) returns (r: Result<()>)
      modifies st`ffnAct, st`proj
      ensures r.Success? <==> layer.ffnGate in m.tensors && layer.ffnUp in m.tensors && layer.ffnDown in m.tensors
      ensures r.Success? ==> st.proj == m.Ffn(m.CpuEnv(), layer, st.xn)
    {
      if layer.ffnGate !in m.tensors { return Failure(MissingMetadata(layer.ffnGate)); }
      if layer.ffnUp !in m.tensors { return Failure(MissingMetadata(layer.ffnUp)); }
      var gate, up := m.tensors[layer.ffnGate].Exact(st.xn), m.tensors[layer.ffnUp].Exact(st.xn);
      st.ffnAct := SiluMul(m, gate, up);
      st.proj :- MatmulInto(layer.ffnDown, st.ffnAct);
      return Success(());
    }

    /** One layer of `run`. */
    /** The residual add, the norm, the feed-forward block, and the residual add after it. */
    method FfnStepInto(layer: Layer, st: InferenceState) returns (r: Result<()>)
      modifies st`x, st`xn, st`ffnAct, st`proj
      ensures r.Success? <==> layer.ffnGate in m.tensors && layer.ffnUp in m.tensors && layer.ffnDown in m.tensors
      ensures r.Success? ==> st.x == m.FfnStep(m.CpuEnv(), layer, Add(old(st.x), old(st.proj)))
    {
      hide Model.Ffn, Model.Norm, Add;
      st.x := AddInto(st.x, st.proj);
      st.xn := NormInto(st.x, layer.ffnNorm);
      var _ :- FfnInto(layer, st);
      st.x := AddInto(st.x, st.proj);
      return Success(());
    }

    method LayerInto(i: nat, pos: nat, kv: KvCache, st: InferenceState) returns (r: Result<()>)
      requires Ready(kv, st) && i < |m.layers| && pos < kv.maxSeq
      modifies kv, st
      ensures Ready(kv, st)
      ensures r.Success? <==> m.LayerPresent(m.layers[i])
      ensures r.Success? ==>
        var (y, s) := m.LayerStep(m.CpuEnv(), m.layers[i], old(States(kv, st))[i], pos, old(st.x));
        st.x == y && States(kv, st) == old(States(kv, st))[i := s]
    {
      hide Model.Mix, Model.FfnStep, Model.Norm, Add, Model.MixerPresent, Gather;
      var layer := m.layers[i];
      ghost var ss, x := States(kv, st), st.x;
      st.xn := NormInto(st.x, layer.attnNorm);
      var _ :- MixerInto(i, pos, kv, st);
      r := FfnStepInto(layer, st);
    }

    // ---- `run`: one token ----

    /** A pass from layer i on, in terms of the pass after it. */
    lemma PassFrom(env: Env, ss: seq<LayerState>, maxSeq: nat, i: nat, pos: nat, x: Vec)
      requires m.LayersOk(m.layers) && m.StatesOk(m.layers, ss, maxSeq) && i < |m.layers| && pos < maxSeq
      ensures m.LayersOk(m.layers[i..]) && m.StatesOk(m.layers[i..], ss[i..], maxSeq)
      ensures m.LayersOk(m.layers[i + 1..]) && m.StatesOk(m.layers[i + 1..], ss[i + 1..], maxSeq)
      ensures var (y, s) := m.LayerStep(env, m.layers[i], ss[i], pos, x);
        var (z, rest) := TokenPass(m, env, m.layers[i + 1..], ss[i + 1..], maxSeq, pos, y);
        TokenPass(m, env, m.layers[i..], ss[i..], maxSeq, pos, x) == (z, [s] + rest)
    {
      hide Model.LayerStep, Model.MixerOk, Model.StateOk;
      assert m.layers[i..][1..] == m.layers[i + 1..] && ss[i..][1..] == ss[i + 1..];
    }

    /** Layers 0..i-1 done, states ss and stream x reached: what remains of the pass from ss0 and x0. */
    ghost predicate PassReaches(env: Env, ss0: seq<LayerState>, x0: Vec, maxSeq: nat, pos: nat,
                                i: nat, ss: seq<LayerState>, x: Vec)
      requires m.LayersOk(m.layers) && m.StatesOk(m.layers, ss0, maxSeq) && m.StatesOk(m.layers, ss, maxSeq)
      requires pos < maxSeq && i <= |m.layers|
    {
      var (z, rest) := TokenPass(m, env, m.layers[i..], ss[i..], maxSeq, pos, x);
      TokenPass(m, env, m.layers, ss0, maxSeq, pos, x0) == (z, ss[..i] + rest)
    }

    lemma PassStarts(env: Env, ss: seq<LayerState>, maxSeq: nat, pos: nat, x: Vec)
      requires m.LayersOk(m.layers) && m.StatesOk(m.layers, ss, maxSeq) && pos < maxSeq
      ensures PassReaches(env, ss, x, maxSeq, pos, 0, ss, x)
    {
      hide TokenPass;
      assert m.layers[0..] == m.layers && ss[0..] == ss;
      var r := TokenPass(m, env, m.layers, ss, maxSeq, pos, x);
      assert ss[..0] + r.1 == r.1;
    }

    lemma PassAdvances(env: Env, ss0: seq<LayerState>, x0: Vec, maxSeq: nat, pos: nat, i: nat, ss: seq<LayerState>,
                       x: Vec)
      requires m.LayersOk(m.layers) && m.StatesOk(m.layers, ss0, maxSeq) && m.StatesOk(m.layers, ss, maxSeq)
      requires pos < maxSeq && i < |m.layers| && PassReaches(env, ss0, x0, maxSeq, pos, i, ss, x)
      ensures var (y, s) := m.LayerStep(env, m.layers[i], ss[i], pos, x);
        m.StatesOk(m.layers, ss[i := s], maxSeq) && PassReaches(env, ss0, x0, maxSeq, pos, i + 1, ss[i := s], y)
    {
      hide TokenPass, Model.LayerStep, Model.MixerOk;
      var (y, s) := m.LayerStep(env, m.layers[i], ss[i], pos, x);
      PassFrom(env, ss, maxSeq, i, pos, x);
      var rest := TokenPass(m, env, m.layers[i + 1..], ss[i + 1..], maxSeq, pos, y).1;
      StateTaken(ss, i, s, rest);
    }

    lemma PassEnds(env: Env, ss0: seq<LayerState>, x0: Vec, maxSeq: nat, pos: nat, ss: seq<LayerState>, x: Vec)
      requires m.LayersOk(m.layers) && m.StatesOk(m.layers, ss0, maxSeq) && m.StatesOk(m.layers, ss, maxSeq)
      requires pos < maxSeq && PassReaches(env, ss0, x0, maxSeq, pos, |m.layers|, ss, x)
      ensures TokenPass(m, env, m.layers, ss0, maxSeq, pos, x0) == (x, ss)
    {
      assert ss[..|m.layers|] + ss[|m.layers|..] == ss;
    }

    /** `run`: one token through every layer; what the scratch buffers held before does not matter. */
    method Run(token: nat, pos: nat, kv: KvCache, st: InferenceState) returns (r: Result<Vec>)
      requires Ready(kv, st) && pos < kv.maxSeq
      modifies kv, st
      ensures Ready(kv, st)
      ensures r.Success? <==> m.TokenKnown(token) && Complete()
      ensures r.Success? ==>
        var (x, ss) := TokenPass(m, m.CpuEnv(), m.layers, old(States(kv, st)), kv.maxSeq, pos, m.Embedding(token));
        r.value == m.Logits(m.CpuEnv(), x) && States(kv, st) == ss
    {
      hide TokenPass, Model.LayerStep, Model.Norm, Model.Project, Model.LayerPresent, Gather, Model.TokenKnown;
      hide Engine.PassReaches, Model.LayersOk, Model.StatesOk;
      ghost var ss0, env := States(kv, st), m.CpuEnv();
      st.x :- Embed(token);
      ghost var x0 := st.x;
      PassStarts(env, ss0, kv.maxSeq, pos, x0);
      for i := 0 to |m.layers|
        invariant Ready(kv, st)
        invariant forall j :: 0 <= j < i ==> m.LayerPresent(m.layers[j])
        invariant PassReaches(env, ss0, x0, kv.maxSeq, pos, i, States(kv, st), st.x)
      {
        PassAdvances(env, ss0, x0, kv.maxSeq, pos, i, States(kv, st), st.x);
        var _ :- LayerInto(i, pos, kv, st);
      }
      PassEnds(env, ss0, x0, kv.maxSeq, pos, States(kv, st), st.x);
      st.xn := NormInto(st.x, m.outputNorm);
      st.logits :- MatmulInto(m.lmHead, st.xn);
      return Success(st.logits);
    }

    // ---- `run_gpu_resident`: every residual add fused with the norm that follows it ----

    /** The norm weight that the residual add before layer i is fused with; past the last layer, the output's. */
    function UpcomingNorm(i: nat): Vec {
      if i < |m.layers| then m.layers[i].attnNorm else m.outputNorm
    }

    /** `run_gpu_resident`, launch by launch: for every order in which the device lets its lanes go, the pass in the
        device's environment. xn is always the norm of x under the upcoming layer's weight. */
    method RunGpuResident(token: nat, pos: nat, maxSeq: nat, device: GpuState) returns (r: Result<Vec>)
      requires DeviceSound() && device == gpu && GpuReady() && DeviceStatesOk(device.layers, maxSeq) && pos < maxSeq
      modifies device`layers, device.dev`clock
      ensures DeviceStatesOk(device.layers, maxSeq)
      ensures r.Success? <==> m.TokenKnown(token)
      ensures r.Failure? ==> device.layers == old(device.layers)
      ensures r.Success? ==> var env := DeviceEnv(gpu.dev, m);
        var (x, ss) := TokenPass(m, env, m.layers, old(device.layers), maxSeq, pos, m.Embedding(token));
        r.value == m.Logits(env, x) && device.layers == ss
    {
      hide TokenPass, Model.Mix, Model.Ffn, RmsNorm, Add, Model.Project, Model.TokenKnown, Engine.PassReaches;
      hide DeviceEnv;
      hide Launchable, LayerResident, CellsFit;
      ghost var ss0, env := device.layers, DeviceEnv(gpu.dev, m);
      var dev, math, eps := device.dev, m.cfg.math, m.cfg.eps;
      var x :- Embed(token);
      ghost var x0 := x;
      PassStarts(env, ss0, maxSeq, pos, x0);
      var xn := dev.LaunchRmsNorm(math, x, m.layers[0].attnNorm, eps);
      for i := 0 to |m.layers|
        invariant DeviceStatesOk(device.layers, maxSeq)
        invariant xn == m.Norm(x, UpcomingNorm(i))
        invariant PassReaches(env, ss0, x0, maxSeq, pos, i, device.layers, x)
      {
        PassAdvances(env, ss0, x0, maxSeq, pos, i, device.layers, x);
        assert LayerResident(dev, m.layers[i]);
        x, xn := LayerOnDevice(i, pos, maxSeq, device, x, xn);
      }
      PassEnds(env, ss0, x0, maxSeq, pos, device.layers, x);
      assert gpu.dev == dev;
      LaunchableHandles();
      var logits := Launch(dev, m, m.lmHead, xn);
      return Success(logits);
    }

    lemma LaunchableHandles()
      requires DeviceSound()
      ensures HandlesFit(gpu.dev, m)
    {}

    /** One layer of the resident pass: the mixer, its residual fused with the feed-forward block's norm, the block, and
        its residual fused with the norm of what comes next. */
    method LayerOnDevice(i: nat, pos: nat, maxSeq: nat, device: GpuState, x: Vec, xn: Vec) returns (x2: Vec, xn2: Vec)
      requires DeviceSound() && device == gpu && i < |m.layers| && LayerResident(device.dev, m.layers[i])
      requires DeviceStatesOk(device.layers, maxSeq) && pos < maxSeq && xn == m.Norm(x, UpcomingNorm(i))
      modifies device`layers, device.dev`clock
      ensures DeviceStatesOk(device.layers, maxSeq)
      ensures var (y, s) := m.LayerStep(DeviceEnv(gpu.dev, m), m.layers[i], old(device.layers)[i], pos, x);
        x2 == y && device.layers == old(device.layers)[i := s]
      ensures xn2 == m.Norm(x2, UpcomingNorm(i + 1))
    {
      hide Model.Mix, Model.Ffn, RmsNorm, Add, CellsFit, DeviceEnv, HandlesFit, ExpLaws, MixerResident;
      var dev, layer, st := device.dev, m.layers[i], device.layers[i];
      assert m.StateOk(layer.mixer, st, maxSeq);
      var delta, s := DeviceMix(dev, m, layer.mixer, st, maxSeq, pos, xn);
      device.layers := device.layers[i := s];
      var x1, xn1 := dev.LaunchAddResidualRmsNorm(m.cfg.math, x, delta, layer.ffnNorm, m.cfg.eps);
      var down := DeviceFfn(dev, m, layer, xn1);
      x2, xn2 := dev.LaunchAddResidualRmsNorm(m.cfg.math, x1, down, UpcomingNorm(i + 1), m.cfg.eps);
    }

    // ---- `run_batch`: layer by layer over the whole batch ----

    function BatchEnv(): Env { m.CpuEnv().(int8 := false) }

    /** `matmul_batch_into`. */
    method MatmulBatch(name: string, xs: seq<Vec>) returns (r: Result<seq<Vec>>)
      ensures r.Success? <==> name in m.tensors
      ensures r.Success? ==> r.value == MapRows(xs, Projector(m, BatchEnv(), name))
    {
      if name !in m.tensors { return Failure(MissingMetadata(name)); }
      return Success(MapRows(xs, x => m.tensors[name].Exact(x)));
    }

    /** One position of the batch: norm, rotate, store, attend. */
    method AttendOne(i: nat, pos: nat, q0: Vec, k0: Vec, v: Vec, kv: KvCache, st: InferenceState)
        returns (r: Result<Vec>)
      requires Ready(kv, st) && i < |m.layers| && pos < kv.maxSeq && m.layers[i].mixer.Attention?
      requires |q0| == m.cfg.shape.heads * m.cfg.shape.headDim && |k0| == |v| == kv.kvDim
      modifies kv
      ensures Ready(kv, st)
      ensures r.Success? <==> m.OptionPresent(m.layers[i].mixer.qNorm) && m.OptionPresent(m.layers[i].mixer.kNorm)
      ensures r.Success? ==>
        var (out, s) := m.AttentionOut(BatchEnv(), m.layers[i].mixer, old(States(kv, st))[i], pos, q0, k0, v);
        r.value == out && States(kv, st) == old(States(kv, st))[i := s]
    {
      hide Model.Attended, Model.NormedIf, Gather;
      var mixer := m.layers[i].mixer;
      var q :- NormIf(q0, m.cfg.shape.heads, mixer.qNorm);
      var k :- NormIf(k0, m.cfg.shape.kvHeads, mixer.kNorm);
      SameAttended(m.cfg.Full(m.cfg.ropeScale), q, k, v, pos, States(kv, st)[i]);
      var out := RotateAndAttend(true, q, k, v, i, pos, kv, st);
      return Success(out);
    }

    /** Position by position over the batch's projections. */
    method AttendBatch(i: nat, posStart: nat, qb: seq<Vec>, kb: seq<Vec>, vb: seq<Vec>, ghost xnb: seq<Vec>,
                       kv: KvCache, st: InferenceState) returns (r: Result<seq<Vec>>)
      requires Ready(kv, st) && i < |m.layers| && posStart + |xnb| <= kv.maxSeq && m.layers[i].mixer.Attention?
      requires |qb| == |kb| == |vb| == |xnb| && forall t :: 0 <= t < |xnb| ==> Projected(i, qb[t], kb[t], vb[t], xnb[t])
      modifies kv
      ensures Ready(kv, st)
      ensures |xnb| > 0 ==>
        (r.Success? <==> m.OptionPresent(m.layers[i].mixer.qNorm) && m.OptionPresent(m.layers[i].mixer.kNorm))
      ensures r.Success? ==>
        var (outs, s) := AttendRun(m, BatchEnv(), m.layers[i].mixer, old(States(kv, st))[i], kv.maxSeq, posStart, xnb);
        r.value == outs && States(kv, st) == old(States(kv, st))[i := s]
    {
      hide Model.AttentionOut, Model.Project, Gather, Model.OptionPresent, Model.MixerOk, Model.RowsFit, Model.KvFits;
      var mixer, outs := m.layers[i].mixer, [];
      ghost var ss0 := States(kv, st);
      for t := 0 to |qb|
        invariant Ready(kv, st)
        invariant t > 0 ==> m.OptionPresent(mixer.qNorm) && m.OptionPresent(mixer.kNorm)
        invariant var (os, s) := AttendRun(m, BatchEnv(), mixer, ss0[i], kv.maxSeq, posStart, xnb[..t]);
          outs == os && States(kv, st) == ss0[i := s]
      {
        assert xnb[..t + 1][..t] == xnb[..t];
        assert Projected(i, qb[t], kb[t], vb[t], xnb[t]);
        var out :- AttendOne(i, posStart + t, qb[t], kb[t], vb[t], kv, st);
        outs := outs + [out];
      }
      assert xnb[..|qb|] == xnb;
      return Success(outs);
    }

    ghost predicate Projected(i: nat, q: Vec, k: Vec, v: Vec, xn: Vec)
      requires i < |m.layers| && m.layers[i].mixer.Attention?
    {
      var mixer := m.layers[i].mixer;
      && q == m.Project(BatchEnv(), mixer.wq, xn) && k == m.Project(BatchEnv(), mixer.wk, xn)
      && v == m.Project(BatchEnv(), mixer.wv, xn)
      && |q| == m.cfg.shape.heads * m.cfg.shape.headDim && |k| == |v| == m.cfg.shape.KvDim()
    }

    /** Attention proper does not depend on how projections are computed. */
    lemma SameAttended(rot: Rotation, q: Vec, k: Vec, v: Vec, pos: nat, s: LayerState)
      requires m.cfg.shape.Ok() && pos < |s.cells|
      ensures m.Attended(BatchEnv(), rot, q, k, v, pos, s) == m.Attended(m.CpuEnv(), rot, q, k, v, pos, s)
    {}

    /** The attention mixer over the batch: three batched projections, attention per position, one batched
        projection. */
    method AttentionBatch(i: nat, posStart: nat, xnb: seq<Vec>, kv: KvCache, st: InferenceState)
        returns (r: Result<seq<Vec>>)
      requires Ready(kv, st) && i < |m.layers| && posStart + |xnb| <= kv.maxSeq && xnb != []
      requires m.layers[i].mixer.Attention?
      modifies kv
      ensures Ready(kv, st)
      ensures r.Success? <==> m.MixerPresent(m.layers[i].mixer)
      ensures r.Success? ==>
        var (ps, s) := MixRun(m, BatchEnv(), m.layers[i].mixer, old(States(kv, st))[i], kv.maxSeq, posStart, xnb);
        r.value == ps && States(kv, st) == old(States(kv, st))[i := s]
    {
      hide AttendRun, MixRun, Gather;
      var mixer := m.layers[i].mixer;
      ghost var s0 := States(kv, st)[i];
      var qb :- MatmulBatch(mixer.wq, xnb);
      var kb :- MatmulBatch(mixer.wk, xnb);
      var vb :- MatmulBatch(mixer.wv, xnb);
      assert forall t :: 0 <= t < |xnb| ==> Projected(i, qb[t], kb[t], vb[t], xnb[t]) by {
        assert |m.tensors[mixer.wq].rows| == m.cfg.shape.heads * m.cfg.shape.headDim;
        assert |m.tensors[mixer.wk].rows| == |m.tensors[mixer.wv].rows| == m.cfg.shape.KvDim();
      }
      var outs :- AttendBatch(i, posStart, qb, kb, vb, xnb, kv, st);
      AttendThenProject(m, BatchEnv(), mixer, s0, kv.maxSeq, posStart, xnb);
      r := MatmulBatch(mixer.wo, outs);
    }

    /** The other mixers: one position at a time through the single-token routines. */
    method MixEach(i: nat, posStart: nat, xnb: seq<Vec>, kv: KvCache, st: InferenceState) returns (r: Result<seq<Vec>>)
      requires Ready(kv, st) && i < |m.layers| && posStart + |xnb| <= kv.maxSeq && xnb != []
      modifies kv, st
      ensures Ready(kv, st)
      ensures r.Success? <==> m.MixerPresent(m.layers[i].mixer)
      ensures r.Success? ==>
        var (ps, s) := MixRun(m, m.CpuEnv(), m.layers[i].mixer, old(States(kv, st))[i], kv.maxSeq, posStart, xnb);
        r.value == ps && States(kv, st) == old(States(kv, st))[i := s]
    {
      hide Model.Mix, Model.MixerPresent, Gather, Model.MixerOk;
      var mixer, ps := m.layers[i].mixer, [];
      ghost var ss0 := States(kv, st);
      for t := 0 to |xnb|
        invariant Ready(kv, st) && (t > 0 ==> m.MixerPresent(mixer))
        invariant var (os, s) := MixRun(m, m.CpuEnv(), mixer, ss0[i], kv.maxSeq, posStart, xnb[..t]);
          ps == os && States(kv, st) == ss0[i := s]
      {
        assert xnb[..t + 1][..t] == xnb[..t];
        st.xn := xnb[t];
        var _ :- MixerInto(i, posStart + t, kv, st);
        ps := ps + [st.proj];
      }
      assert xnb[..|xnb|] == xnb;
      return Success(ps);
    }

    method NormRows(xs: seq<Vec>, weight: Vec) returns (xns: seq<Vec>)
      ensures xns == MapRows(xs, Normer(m, weight))
    {
      xns := [];
      for t := 0 to |xs|
        invariant |xns| == t && forall u :: 0 <= u < t ==> xns[u] == m.Norm(xs[u], weight)
      {
        var xn := NormInto(xs[t], weight);
        xns := xns + [xn];
      }
    }

    method SiluRows(gates: seq<Vec>, ups: seq<Vec>) returns (acts: seq<Vec>)
      requires |gates| == |ups|
      ensures |acts| == |gates| && forall t :: 0 <= t < |acts| ==> acts[t] == m.SiluTimes(gates[t], ups[t])
    {
      acts := [];
      for t := 0 to |gates|
        invariant |acts| == t && forall u :: 0 <= u < t ==> acts[u] == m.SiluTimes(gates[u], ups[u])
      {
        var act := SiluMul(m, gates[t], ups[t]);
        acts := acts + [act];
      }
    }

    /** The feed-forward block over the batch, with its residual. */
    method FfnBatch(layer: Layer, xb: seq<Vec>) returns (r: Result<seq<Vec>>)
      ensures r.Success? <==> layer.ffnGate in m.tensors && layer.ffnUp in m.tensors && layer.ffnDown in m.tensors
      ensures r.Success? ==> r.value == MapRows(xb, FfnStepper(m, BatchEnv(), layer))
    {
      hide Model.Norm, Model.SiluTimes, Add;
      var xnb := NormRows(xb, layer.ffnNorm);
      var gateb :- MatmulBatch(layer.ffnGate, xnb);
      var upb :- MatmulBatch(layer.ffnUp, xnb);
      var actb := SiluRows(gateb, upb);
      var downb :- MatmulBatch(layer.ffnDown, actb);
      r := Success(AddRows(xb, downb));
      forall t | 0 <= t < |xb|
        ensures r.value[t] == m.FfnStep(BatchEnv(), layer, xb[t])
      {}
    }

    /** One layer of `run_batch`. */
    method LayerBatchInto(i: nat, posStart: nat, xb: seq<Vec>, kv: KvCache, st: InferenceState)
        returns (r: Result<seq<Vec>>)
      requires Ready(kv, st) && i < |m.layers| && posStart + |xb| <= kv.maxSeq && xb != []
      modifies kv, st
      ensures Ready(kv, st)
      ensures r.Success? <==> m.LayerPresent(m.layers[i])
      ensures r.Success? ==>
        var (ys, s) := LayerBatch(m, m.CpuEnv(), m.layers[i], old(States(kv, st))[i], kv.maxSeq, posStart, xb);
        r.value == ys && States(kv, st) == old(States(kv, st))[i := s]
    {
      hide MixRun, MapRows, AddRows, Model.MixerPresent, Gather, Model.MixerOk;
      var layer := m.layers[i];
      var xnb := NormRows(xb, layer.attnNorm);
      var projb;
      if layer.mixer.Attention? {
        projb :- AttentionBatch(i, posStart, xnb, kv, st);
      } else {
        projb :- MixEach(i, posStart, xnb, kv, st);
      }
      var x1 := AddRows(xb, projb);
      r := FfnBatch(layer, x1);
    }

    ghost predicate BatchReaches(ss0: seq<LayerState>, xs0: seq<Vec>, maxSeq: nat, pos: nat,
                                 i: nat, ss: seq<LayerState>, xs: seq<Vec>)
      requires m.LayersOk(m.layers) && m.StatesOk(m.layers, ss0, maxSeq) && m.StatesOk(m.layers, ss, maxSeq)
      requires |xs0| == |xs| && pos + |xs| <= maxSeq && i <= |m.layers|
    {
      var (zs, rest) := BatchPass(m, m.CpuEnv(), m.layers[i..], ss[i..], maxSeq, pos, xs);
      BatchPass(m, m.CpuEnv(), m.layers, ss0, maxSeq, pos, xs0) == (zs, ss[..i] + rest)
    }

    lemma BatchStarts(ss: seq<LayerState>, maxSeq: nat, pos: nat, xs: seq<Vec>)
      requires m.LayersOk(m.layers) && m.StatesOk(m.layers, ss, maxSeq) && pos + |xs| <= maxSeq
      ensures BatchReaches(ss, xs, maxSeq, pos, 0, ss, xs)
    {
      hide BatchPass;
      assert m.layers[0..] == m.layers && ss[0..] == ss;
      var r := BatchPass(m, m.CpuEnv(), m.layers, ss, maxSeq, pos, xs);
      assert ss[..0] + r.1 == r.1;
    }

    lemma BatchAdvances(ss0: seq<LayerState>, xs0: seq<Vec>, maxSeq: nat, pos: nat, i: nat, ss: seq<LayerState>,
                        xs: seq<Vec>)
      requires m.LayersOk(m.layers) && m.StatesOk(m.layers, ss0, maxSeq) && m.StatesOk(m.layers, ss, maxSeq)
      requires |xs0| == |xs| && pos + |xs| <= maxSeq && i < |m.layers| && BatchReaches(ss0, xs0, maxSeq, pos, i, ss, xs)
      ensures var (ys, s) := LayerBatch(m, m.CpuEnv(), m.layers[i], ss[i], maxSeq, pos, xs);
        m.StatesOk(m.layers, ss[i := s], maxSeq) && BatchReaches(ss0, xs0, maxSeq, pos, i + 1, ss[i := s], ys)
    {
      hide LayerBatch, Model.MixerOk, Model.StateOk;
      var (ys, s) := LayerBatch(m, m.CpuEnv(), m.layers[i], ss[i], maxSeq, pos, xs);
      assert m.layers[i..][1..] == m.layers[i + 1..] && ss[i..][1..] == ss[i + 1..];
      var rest := BatchPass(m, m.CpuEnv(), m.layers[i + 1..], ss[i + 1..], maxSeq, pos, ys).1;
      StateTaken(ss, i, s, rest);
    }

    lemma BatchEnds(ss0: seq<LayerState>, xs0: seq<Vec>, maxSeq: nat, pos: nat, ss: seq<LayerState>, xs: seq<Vec>)
      requires m.LayersOk(m.layers) && m.StatesOk(m.layers, ss0, maxSeq) && m.StatesOk(m.layers, ss, maxSeq)
      requires |xs0| == |xs| && pos + |xs| <= maxSeq && BatchReaches(ss0, xs0, maxSeq, pos, |m.layers|, ss, xs)
      ensures BatchPass(m, m.CpuEnv(), m.layers, ss0, maxSeq, pos, xs0) == (xs, ss)
    {
      assert ss[..|m.layers|] + ss[|m.layers|..] == ss;
    }

    predicate TokensKnown(tokens: seq<nat>) { forall t :: 0 <= t < |tokens| ==> m.TokenKnown(tokens[t]) }

    function Embeddings(tokens: seq<nat>): (xs: seq<Vec>)
      requires TokensKnown(tokens)
      ensures |xs| == |tokens|
    {
      seq(|tokens|, t requires 0 <= t < |tokens| => m.Embedding(tokens[t]))
    }

    method EmbedAll(tokens: seq<nat>) returns (r: Result<seq<Vec>>)
      ensures r.Success? <==> TokensKnown(tokens)
      ensures r.Success? ==> r.value == Embeddings(tokens)
    {
      hide Model.TokenKnown;
      var xs := [];
      for t := 0 to |tokens|
        invariant |xs| == t && forall u :: 0 <= u < t ==> m.TokenKnown(tokens[u]) && xs[u] == m.Embedding(tokens[u])
      {
        var x :- Embed(tokens[t]);
        xs := xs + [x];
      }
      return Success(xs);
    }

    method RunBatch(tokens: seq<nat>, posStart: nat, kv: KvCache, st: InferenceState) returns (r: Result<Vec>)
      requires Ready(kv, st) && tokens != [] && posStart + |tokens| <= kv.maxSeq
      modifies kv, st
      ensures Ready(kv, st)
      ensures r.Success? <==> TokensKnown(tokens) && Complete()
      ensures r.Success? ==>
        var (xs, ss) :=
          BatchPass(m, m.CpuEnv(), m.layers, old(States(kv, st)), kv.maxSeq, posStart, Embeddings(tokens));
        r.value == m.Logits(m.CpuEnv(), xs[|tokens| - 1]) && States(kv, st) == ss
    {
      hide BatchPass, LayerBatch, Model.Norm, Model.Project, Model.LayerPresent, Gather, Model.TokenKnown;
      hide Engine.BatchReaches, Model.LayersOk, Model.StatesOk;
      ghost var ss0 := States(kv, st);
      var xb :- EmbedAll(tokens);
      ghost var xs0 := xb;
      BatchStarts(ss0, kv.maxSeq, posStart, xs0);
      for i := 0 to |m.layers|
        invariant Ready(kv, st) && |xb| == |tokens|
        invariant forall j :: 0 <= j < i ==> m.LayerPresent(m.layers[j])
        invariant BatchReaches(ss0, xs0, kv.maxSeq, posStart, i, States(kv, st), xb)
      {
        BatchAdvances(ss0, xs0, kv.maxSeq, posStart, i, States(kv, st), xb);
        xb :- LayerBatchInto(i, posStart, xb, kv, st);
      }
      BatchEnds(ss0, xs0, kv.maxSeq, posStart, States(kv, st), xb);
      st.xn := NormInto(xb[|tokens| - 1], m.outputNorm);
      st.logits :- MatmulInto(m.lmHead, st.xn);
      return Success(st.logits);
    }

    // ---- `forward` and `forward_batch`: choose the path, take the state out and put it back ----

    ghost predicate CanRun(kv: KvCache)
      reads this, kv, state, gpu
    {
      && state != null && Ready(kv, state)
      && (GpuReady() ==> DeviceSound() && DeviceStatesOk(gpu.layers, gpu.maxSeq))
    }

    /** The persistent state of the path in use: the device's, or the histories and the KV cache. */
    ghost function Persisted(kv: KvCache): seq<LayerState>
      requires CanRun(kv)
      reads this, kv, state, gpu
    {
      if GpuReady() then gpu.layers else States(kv, state)
    }

    function PassEnv(): Env { if GpuReady() then DeviceEnv(gpu.dev, m) else m.CpuEnv() }

    /** The device's KV cache is there, at this length and type. */
    predicate Allocated(maxSeq: nat, dtype: KvDtype)
      reads gpu`maxSeq, gpu`dtype, gpu`cached
    {
      && gpu.maxSeq == maxSeq && gpu.dtype == dtype
      && forall i :: 0 <= i < |m.layers| && UsesCells(m.layers[i].mixer) ==> i in gpu.cached
    }

    /** No KV cell is dropped on entering a pass: on the CPU, or with the device's cache as it should be. */
    ghost predicate Keeps(kv: KvCache)
      reads gpu`maxSeq, gpu`dtype, gpu`cached
    {
      GpuReady() ==> Allocated(kv.maxSeq, kv.format.dtype)
    }

    /** What a pass starts from: what was kept, all of it unless the device's cache had to be allocated anew;
        then everything but the cells. */
    predicate Begins(before: seq<LayerState>, kept: bool, start: seq<LayerState>) {
      && |before| == |start| && (kept ==> start == before)
      && forall i :: 0 <= i < |start| ==> start[i] == before[i].(cells := start[i].cells)
    }

    /** `ensure_gpu_kv_cache`: nothing on a repeat call; new cells, zeros or whatever memory held, otherwise. */
    method EnsureGpuKvCache(maxSeq: nat, dtype: KvDtype)
      requires DeviceStatesOk(gpu.layers, gpu.maxSeq)
      modifies gpu
      ensures Allocated(maxSeq, dtype) && gpu.maxSeq == maxSeq && DeviceStatesOk(gpu.layers, maxSeq)
      ensures Begins(old(gpu.layers), old(Allocated(maxSeq, dtype)), gpu.layers)
    {
      hide CellsFit;
      if Allocated(maxSeq, dtype) { return; }
      ghost var was := gpu.layers;
      for i := 0 to |m.layers|
        invariant |gpu.layers| == |was|
        invariant forall j :: 0 <= j < i ==>
          m.StateOk(m.layers[j].mixer, gpu.layers[j], maxSeq) && CellsFit(m, gpu.layers[j].cells)
        invariant forall j :: 0 <= j < i ==> UsesCells(m.layers[j].mixer) ==> j in gpu.cached
        invariant forall j :: 0 <= j < |was| ==> gpu.layers[j] == was[j].(cells := gpu.layers[j].cells)
      {
        var cells := FreshCells(maxSeq, dtype);
        assert m.StateOk(m.layers[i].mixer, was[i], old(gpu.maxSeq));
        gpu.layers := gpu.layers[i := gpu.layers[i].(cells := cells)];
        gpu.cached := gpu.cached + {i};
      }
      gpu.maxSeq, gpu.dtype := maxSeq, dtype;
    }

    /** Half-precision cells start as zeros; Q8_0 cells are uninitialised memory. */
    method FreshCells(maxSeq: nat, dtype: KvDtype) returns (cells: seq<Cell>)
      ensures |cells| == maxSeq && CellsFit(m, cells)
    {
      var row := if dtype == F16 then seq(m.cfg.shape.KvDim(), _ => 0.0) else gpu.dev.Stale(m.cfg.shape.KvDim());
      cells := seq(maxSeq, _ => Cell(row, row));
    }

    /** `forward`: one token on the path in use; the state is taken out and put back, whatever happens. */
    method Forward(token: nat, pos: nat, kv: KvCache) returns (r: Result<Vec>, ghost start: seq<LayerState>)
      requires CanRun(kv) && pos < kv.maxSeq
      modifies `state, kv, state, gpu, gpu.dev`clock
      ensures CanRun(kv) && state == old(state) && Keeps(kv)
      ensures m.StatesOk(m.layers, start, kv.maxSeq) && Begins(old(Persisted(kv)), old(Keeps(kv)), start)
      ensures r.Success? <==> m.TokenKnown(token) && Complete()
      ensures r.Success? ==>
        var (x, ss) := TokenPass(m, PassEnv(), m.layers, start, kv.maxSeq, pos, m.Embedding(token));
        r.value == m.Logits(PassEnv(), x) && Persisted(kv) == ss
    {
      hide TokenPass, Model.Logits, Model.LayersOk, Model.StatesOk, Engine.Complete, Model.TokenKnown, Gather;
      hide Engine.Allocated;
      hide Engine.GpuReady, CellsFit, Launchable;
      var st := state;
      state := null;
      if GpuReady() {
        EnsureGpuKvCache(kv.maxSeq, kv.format.dtype);
        ReadyIsComplete();
        start := gpu.layers;
        r := RunGpuResident(token, pos, kv.maxSeq, gpu);
      } else {
        start := States(kv, st);
        r := Run(token, pos, kv, st);
      }
      state := st;
    }

    /** The default `forward_batch`: one `forward` after the other, keeping the last logits. */
    method ForwardEach(tokens: seq<nat>, posStart: nat, kv: KvCache)
        returns (r: Result<Vec>, ghost start: seq<LayerState>)
      requires CanRun(kv) && posStart + |tokens| <= kv.maxSeq
      modifies `state, kv, state, gpu, gpu.dev`clock
      ensures CanRun(kv) && state == old(state)
      ensures tokens == [] ==> r == Success([]) && start == Persisted(kv) == old(Persisted(kv))
      ensures tokens != [] ==> (r.Success? <==> TokensKnown(tokens) && Complete())
      ensures tokens != [] ==>
        m.StatesOk(m.layers, start, kv.maxSeq) && Begins(old(Persisted(kv)), old(Keeps(kv)), start)
      ensures tokens != [] && r.Success? ==> Prefilled(start, tokens, posStart, kv, r.value)
    {
      hide TokenPass, Model.Logits, Model.LayersOk, Model.StatesOk, Engine.Complete, Model.TokenKnown, Model.Embedding;
      hide Engine.Begins, Engine.Keeps, TokenMajor;
      start := Persisted(kv);
      var logits := [];
      for t := 0 to |tokens|
        invariant CanRun(kv) && state == old(state) && (t > 0 ==> Complete() && Keeps(kv))
        invariant t == 0 ==> logits == [] && start == Persisted(kv) == old(Persisted(kv)) && Keeps(kv) == old(Keeps(kv))
        invariant TokensKnown(tokens[..t])
        invariant t > 0 ==> m.StatesOk(m.layers, start, kv.maxSeq) && Begins(old(Persisted(kv)), old(Keeps(kv)), start)
        invariant t > 0 ==> Prefilled(start, tokens[..t], posStart, kv, logits)
      {
        ghost var before, kept := Persisted(kv), Keeps(kv);
        var pass, s := Forward(tokens[t], posStart + t, kv);
        if t == 0 { start := s; } else { NothingDropped(before, s); }
        if pass.Failure? { return pass, start; }
        logits := pass.value;
        TokenMajorNone(PassEnv(), start, posStart, kv.maxSeq);
        TokenMajorMore(PassEnv(), start, tokens, t, posStart, kv.maxSeq);
      }
      assert tokens[..|tokens|] == tokens;
      return Success(logits), start;
    }

    lemma NothingDropped(before: seq<LayerState>, start: seq<LayerState>)
      requires Begins(before, true, start)
      ensures start == before
    {}

    /** The state and the logits are those of the tokens run one by one from ss0. */
    ghost predicate Prefilled(ss0: seq<LayerState>, tokens: seq<nat>, posStart: nat, kv: KvCache, logits: Vec)
      requires CanRun(kv) && m.StatesOk(m.layers, ss0, kv.maxSeq) && posStart + |tokens| <= kv.maxSeq
      requires TokensKnown(tokens)
      reads this, kv, state, gpu
    {
      var (xs, ss) := TokenMajor(m, PassEnv(), m.layers, ss0, kv.maxSeq, posStart, Embeddings(tokens));
      Persisted(kv) == ss && (tokens != [] ==> logits == m.Logits(PassEnv(), xs[|tokens| - 1]))
    }

    /** One token more of a token-by-token run. */
    lemma TokenMajorNone(env: Env, ss0: seq<LayerState>, posStart: nat, maxSeq: nat)
      requires m.LayersOk(m.layers) && m.StatesOk(m.layers, ss0, maxSeq) && posStart <= maxSeq
      ensures TokenMajor(m, env, m.layers, ss0, maxSeq, posStart, Embeddings([])) == ([], ss0)
    {}

    lemma TokenMajorMore(env: Env, ss0: seq<LayerState>, tokens: seq<nat>, t: nat, posStart: nat, maxSeq: nat)
      requires m.LayersOk(m.layers) && m.StatesOk(m.layers, ss0, maxSeq) && posStart + |tokens| <= maxSeq
      requires t < |tokens| && TokensKnown(tokens[..t]) && m.TokenKnown(tokens[t])
      ensures TokensKnown(tokens[..t + 1])
      ensures var (xs, ss) := TokenMajor(m, env, m.layers, ss0, maxSeq, posStart, Embeddings(tokens[..t]));
        var (x, ss') := TokenPass(m, env, m.layers, ss, maxSeq, posStart + t, m.Embedding(tokens[t]));
        TokenMajor(m, env, m.layers, ss0, maxSeq, posStart, Embeddings(tokens[..t + 1])) == (xs + [x], ss')
    {
      hide TokenPass, Model.LayersOk, Model.TokenKnown, Model.Embedding;
      assert Embeddings(tokens[..t + 1])[..t] == Embeddings(tokens[..t]);
    }

    /** What `forward_batch` computes of a batch on the path in use: token by token on the device, layer by layer on
        the CPU. */
    function BatchRun(ss: seq<LayerState>, maxSeq: nat, pos: nat, xs: seq<Vec>): (r: (seq<Vec>, seq<LayerState>))
      requires m.LayersOk(m.layers) && m.StatesOk(m.layers, ss, maxSeq) && pos + |xs| <= maxSeq
      ensures |r.0| == |xs| && m.StatesOk(m.layers, r.1, maxSeq)
    {
      if GpuReady() then TokenMajor(m, PassEnv(), m.layers, ss, maxSeq, pos, xs)
      else BatchPass(m, PassEnv(), m.layers, ss, maxSeq, pos, xs)
    }

    /** The state and the logits are those of the batch run from ss0. */
    ghost predicate Batched(ss0: seq<LayerState>, tokens: seq<nat>, posStart: nat, kv: KvCache, logits: Vec)
      requires CanRun(kv) && m.StatesOk(m.layers, ss0, kv.maxSeq) && posStart + |tokens| <= kv.maxSeq
      requires TokensKnown(tokens)
      reads this, kv, state, gpu
    {
      var (xs, ss) := BatchRun(ss0, kv.maxSeq, posStart, Embeddings(tokens));
      Persisted(kv) == ss && (tokens != [] ==> logits == m.Logits(PassEnv(), xs[|tokens| - 1]))
    }

    /** A prompt may be cut anywhere into two calls of `forward_batch`: on either path and with any weights, the second
        call, from where the first leaves off, gives the streams (so the logits) and the states of one call on the
        whole. */
    lemma CutAnywhere(ss0: seq<LayerState>, tokens: seq<nat>, more: seq<nat>, posStart: nat, maxSeq: nat)
      requires m.LayersOk(m.layers) && m.StatesOk(m.layers, ss0, maxSeq) && posStart + |tokens| + |more| <= maxSeq
      requires TokensKnown(tokens) && TokensKnown(more)
      ensures TokensKnown(tokens + more)
      ensures var (xs, ss1) := BatchRun(ss0, maxSeq, posStart, Embeddings(tokens));
        var (ys, ss2) := BatchRun(ss1, maxSeq, posStart + |tokens|, Embeddings(more));
        BatchRun(ss0, maxSeq, posStart, Embeddings(tokens + more)) == (xs + ys, ss2)
    {
      hide TokenMajor, BatchPass, Model.LayersOk, Model.StatesOk, Model.TokenKnown, Model.Embedding, Engine.PassEnv;
      hide Engine.GpuReady;
      assert Embeddings(tokens + more) == Embeddings(tokens) + Embeddings(more);
      if GpuReady() {
        TokenRunSplits(m, PassEnv(), m.layers, ss0, maxSeq, posStart, Embeddings(tokens), Embeddings(more));
      } else {
        SplitAnywhere(m, PassEnv(), m.layers, ss0, maxSeq, posStart, Embeddings(tokens), Embeddings(more));
      }
    }

    /** Two calls, one after the other: as one call on both batches together. */
    method ForwardTwice(tokens: seq<nat>, more: seq<nat>, posStart: nat, kv: KvCache)
        returns (r: Result<Vec>, ghost start: seq<LayerState>)
      requires CanRun(kv) && posStart + |tokens| + |more| <= kv.maxSeq && tokens != [] && more != []
      modifies `state, kv, state, gpu, gpu.dev`clock
      ensures CanRun(kv) && state == old(state)
      ensures r.Success? <==> TokensKnown(tokens + more) && Complete()
      ensures m.StatesOk(m.layers, start, kv.maxSeq) && Begins(old(Persisted(kv)), old(Keeps(kv)), start)
      ensures r.Success? ==> Batched(start, tokens + more, posStart, kv, r.value)
    {
      hide BatchPass, TokenMajor, Model.Logits, Model.LayersOk, Model.StatesOk, Engine.Complete, Model.TokenKnown;
      hide Model.Embedding;
      hide Engine.Begins, Engine.Keeps, Engine.GpuReady, Gather, Engine.BatchRun;
      assert TokensKnown(tokens + more) <==> TokensKnown(tokens) && TokensKnown(more) by { KnownParts(tokens, more); }
      r, start := ForwardBatch(tokens, posStart, kv);
      if r.Failure? { return; }
      ghost var mid := Persisted(kv);
      ghost var begun;
      r, begun := ForwardBatch(more, posStart + |tokens|, kv);
      NothingDropped(mid, begun);
      if r.Success? { CutAnywhere(start, tokens, more, posStart, kv.maxSeq); }
    }

    lemma KnownParts(tokens: seq<nat>, more: seq<nat>)
      ensures TokensKnown(tokens + more) <==> TokensKnown(tokens) && TokensKnown(more)
    {
      hide Model.TokenKnown;
      var all := tokens + more;
      if TokensKnown(all) {
        forall t | 0 <= t < |tokens| ensures m.TokenKnown(tokens[t]) { assert all[t] == tokens[t]; }
        forall t | 0 <= t < |more| ensures m.TokenKnown(more[t]) { assert all[|tokens| + t] == more[t]; }
      }
    }

    /** `forward_batch`: nothing for no tokens; the resident pass token by token, or the batched CPU pass.
        Where no weight makes the batched products differ, this is the token-by-token run. */
    method ForwardBatch(tokens: seq<nat>, posStart: nat, kv: KvCache)
        returns (r: Result<Vec>, ghost start: seq<LayerState>)
      requires CanRun(kv) && posStart + |tokens| <= kv.maxSeq
      modifies `state, kv, state, gpu, gpu.dev`clock
      ensures CanRun(kv) && state == old(state)
      ensures tokens == [] ==> r == Success([]) && start == Persisted(kv) == old(Persisted(kv))
      ensures tokens != [] ==> (r.Success? <==> TokensKnown(tokens) && Complete()) && Keeps(kv)
      ensures tokens != [] ==>
        m.StatesOk(m.layers, start, kv.maxSeq) && Begins(old(Persisted(kv)), old(Keeps(kv)), start)
      ensures tokens != [] && r.Success? ==> Batched(start, tokens, posStart, kv, r.value)
      ensures tokens != [] && r.Success? && (GpuReady() || AllBatchSafe(m, m.layers)) ==>
        Prefilled(start, tokens, posStart, kv, r.value)
    {
      hide TokenPass, BatchPass, Model.Logits, Engine.Complete, Model.TokenKnown, Model.Embedding, AllBatchSafe, Gather;
      hide Engine.Allocated, Engine.GpuReady, CellsFit, Launchable;
      if tokens == [] { return Success([]), Persisted(kv); }
      var st := state;
      state := null;
      if GpuReady() {
        EnsureGpuKvCache(kv.maxSeq, kv.format.dtype);
        ReadyIsComplete();
        start := gpu.layers;
        r := ResidentEach(tokens, posStart, kv.maxSeq);
      } else {
        start := States(kv, st);
        r := RunBatch(tokens, posStart, kv, st);
        if AllBatchSafe(m, m.layers) && TokensKnown(tokens) {
          BatchIsTokenMajor(m, m.CpuEnv(), m.layers, start, kv.maxSeq, posStart, Embeddings(tokens));
        }
      }
      state := st;
    }

    method ResidentEach(tokens: seq<nat>, posStart: nat, maxSeq: nat) returns (r: Result<Vec>)
      requires DeviceSound() && GpuReady() && DeviceStatesOk(gpu.layers, maxSeq) && posStart + |tokens| <= maxSeq
      requires tokens != []
      modifies gpu`layers, gpu.dev`clock
      ensures DeviceStatesOk(gpu.layers, maxSeq)
      ensures r.Success? <==> TokensKnown(tokens)
      ensures r.Success? ==> var env := DeviceEnv(gpu.dev, m);
        var (xs, ss) := TokenMajor(m, env, m.layers, old(gpu.layers), maxSeq, posStart, Embeddings(tokens));
        gpu.layers == ss && r.value == m.Logits(env, xs[|tokens| - 1])
    {
      hide TokenPass, Model.Logits, Engine.Complete, Model.TokenKnown, Model.Embedding, Model.LayersOk, Model.StatesOk;
      hide Engine.GpuReady, CellsFit, Launchable, DeviceEnv;
      ghost var ss0, env := gpu.layers, DeviceEnv(gpu.dev, m);
      var logits := [];
      for t := 0 to |tokens|
        invariant DeviceStatesOk(gpu.layers, maxSeq) && TokensKnown(tokens[..t])
        invariant var (xs, ss) := TokenMajor(m, env, m.layers, ss0, maxSeq, posStart, Embeddings(tokens[..t]));
          gpu.layers == ss && (t > 0 ==> logits == m.Logits(env, xs[t - 1]))
      {
        logits :- RunGpuResident(tokens[t], posStart + t, maxSeq, gpu);
        TokenMajorMore(env, ss0, tokens, t, posStart, maxSeq);
      }
      assert tokens[..|tokens|] == tokens;
      return Success(logits);
    }
  }
}
