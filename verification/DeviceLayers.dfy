/** The resident pass's mixers and feed-forward block, launch by launch, and that they are the model's, computed with
    exact products, unscaled angles and the device's own cache. */
module DeviceLayers {
  import opened Sums
  import opened Blocks
  import opened Elementary
  import opened Errors
  import opened RotaryEmbedding = Rope
  import opened Conv
  import opened KvCaching
  import opened Matmul
  import opened Llama
  import opened ForwardPass
  import opened GpuPass
  import opened DeviceLaunches
  import opened DeviceMixers

  /** The environment of the device's passes. */
  function DeviceEnv(dev: Device, m: Model): Env { GpuEnv(DeviceCodec(m, dev.round)) }

  /** Every handle is an uploaded weight of the model. */
  ghost predicate HandlesFit(dev: Device, m: Model) {
    forall name :: name in dev.handles ==> name in m.tensors && Uploaded(dev.handles[name], m.tensors[name])
  }

  predicate AllResident(dev: Device, names: seq<string>) { forall i :: 0 <= i < |names| ==> names[i] in dev.handles }

  /** The names of a mixer's projections are all there. */
  predicate MixerResident(dev: Device, mixer: Mixer) {
    match mixer
    case Attention(wq, wk, wv, wo, _, _) => AllResident(dev, [wq, wk, wv, wo])
    case ShortConv(inp, out, _) => AllResident(dev, [inp, out])
    case GatedAttention(wqg, wk, wv, wo, _, _) => AllResident(dev, [wqg, wk, wv, wo])
    case GatedDeltaNet(wqkv, wgate, _, _, _, beta, alpha, _, out) => AllResident(dev, [wqkv, wgate, beta, alpha, out])
  }

  predicate LayerResident(dev: Device, layer: Layer) {
    MixerResident(dev, layer.mixer) && AllResident(dev, [layer.ffnGate, layer.ffnUp, layer.ffnDown])
  }

  /** Cells as wide as the cache's rows. */
  predicate CellsFit(m: Model, cells: seq<Cell>) {
    forall t :: 0 <= t < |cells| ==> |cells[t].key| == |cells[t].value| == m.cfg.shape.KvDim()
  }

  /** What a launch may be asked for. */
  ghost predicate Launchable(dev: Device, m: Model) { HandlesFit(dev, m) && ExpLaws(m.cfg.math) }

  method Launch(dev: Device, m: Model, name: string, x: Vec) returns (y: Vec)
    requires HandlesFit(dev, m) && name in dev.handles
    modifies dev`clock
    ensures name in m.tensors && y == m.Project(DeviceEnv(dev, m), name, x) && |y| == |m.tensors[name].rows|
  {
    hide Uploaded, Tensor.Exact;
    y := dev.LaunchMatmul(dev.handles[name], x, m.tensors[name]);
  }

  // ---- Attention ----

  /** Write the rotated key and the value, then attend over everything up to this position. */
  method WriteAndAttend(dev: Device, m: Model, q: Vec, k: Vec, v: Vec, pos: nat, st: LayerState)
      returns (out: Vec, st': LayerState)
    requires m.cfg.shape.Ok() && ExpLaws(m.cfg.math) && pos < |st.cells| && CellsFit(m, st.cells)
    requires |q| == m.cfg.shape.heads * m.cfg.shape.headDim && |k| == |v| == m.cfg.shape.KvDim()
    modifies dev`clock
    ensures var codec := DeviceCodec(m, dev.round); var cells := st.cells[pos := Cell(codec(k), codec(v))];
      out == m.AttendHeads(q, cells[..pos + 1]) && st' == st.(cells := cells) && CellsFit(m, st'.cells)
  {
    hide DeviceRow, Model.AttendFlat, ExpLaws;
    var key, value := LaunchKvWrite(dev, m.format, k, v);
    var cells := st.cells[pos := Cell(key, value)];
    FlatLengths(cells[..pos + 1], m.cfg.shape.KvDim());
    out := LaunchAttention(dev, m, q, FlatKeys(cells[..pos + 1]), FlatValues(cells[..pos + 1]), pos + 1);
    st' := st.(cells := cells);
  }

  /** A query or key projection: normed and turned, or only turned. */
  method Turn(dev: Device, m: Model, x: Vec, norm: Option<string>, heads: nat, rot: Rotation, pos: nat)
      returns (out: Vec)
    requires rot.Ok() && rot.headDim == m.cfg.shape.headDim
    modifies dev`clock
    ensures out == m.RotateHeads(rot, m.NormedIf(x, heads, norm), heads, pos)
  {
    hide Model.RotateHeads, Model.NormHeads, Rotation.Ok;
    if norm.Some? {
      out := LaunchQkNormRope(dev, m, x, m.Weight(norm.value), heads, rot, pos);
    } else {
      out := LaunchRope(dev, m, x, heads, rot, pos);
    }
  }

  method DeviceAttention(dev: Device, m: Model, mixer: Mixer, st: LayerState, pos: nat, xn: Vec)
      returns (delta: Vec, st': LayerState)
    requires Launchable(dev, m) && mixer.Attention? && m.MixerOk(mixer) && MixerResident(dev, mixer)
    requires pos < |st.cells| && CellsFit(m, st.cells)
    modifies dev`clock
    ensures (delta, st') == m.MixAttention(DeviceEnv(dev, m), mixer, st, pos, xn) && CellsFit(m, st'.cells)
  {
    hide Model.RotateHeads, Model.NormedIf, Model.Project, DeviceRow, Model.AttendHeads, ExpLaws, HandlesFit;
    var rot := m.cfg.Full(1.0);
    assert rot.Ok();
    NamesResident(dev, mixer);
    var q := Launch(dev, m, mixer.wq, xn);
    var k := Launch(dev, m, mixer.wk, xn);
    var v := Launch(dev, m, mixer.wv, xn);
    q := Turn(dev, m, q, mixer.qNorm, m.cfg.shape.heads, rot, pos);
    k := Turn(dev, m, k, mixer.kNorm, m.cfg.shape.kvHeads, rot, pos);
    var out;
    out, st' := WriteAndAttend(dev, m, q, k, v, pos, st);
    delta := Launch(dev, m, mixer.wo, out);
  }

  lemma NamesResident(dev: Device, mixer: Mixer)
    requires MixerResident(dev, mixer)
    ensures match mixer
      case Attention(wq, wk, wv, wo, _, _) =>
        wq in dev.handles && wk in dev.handles && wv in dev.handles && wo in dev.handles
      case ShortConv(inp, out, _) => inp in dev.handles && out in dev.handles
      case GatedAttention(wqg, wk, wv, wo, _, _) =>
        wqg in dev.handles && wk in dev.handles && wv in dev.handles && wo in dev.handles
      case GatedDeltaNet(wqkv, wgate, _, _, _, beta, alpha, _, out) =>
        wqkv in dev.handles && wgate in dev.handles && beta in dev.handles && alpha in dev.handles && out in dev.handles
  {
    match mixer
    case Attention(wq, wk, wv, wo, _, _) =>
      var n := [wq, wk, wv, wo];
      assert n[0] in dev.handles && n[1] in dev.handles && n[2] in dev.handles && n[3] in dev.handles;
    case ShortConv(inp, out, _) =>
      var n := [inp, out];
      assert n[0] in dev.handles && n[1] in dev.handles;
    case GatedAttention(wqg, wk, wv, wo, _, _) =>
      var n := [wqg, wk, wv, wo];
      assert n[0] in dev.handles && n[1] in dev.handles && n[2] in dev.handles && n[3] in dev.handles;
    case GatedDeltaNet(wqkv, wgate, _, _, _, beta, alpha, _, out) =>
      var n := [wqkv, wgate, beta, alpha, out];
      assert n[0] in dev.handles && n[1] in dev.handles && n[2] in dev.handles;
      assert n[3] in dev.handles && n[4] in dev.handles;
  }

  method DeviceGatedAttention(dev: Device, m: Model, mixer: Mixer, st: LayerState, pos: nat, xn: Vec)
      returns (delta: Vec, st': LayerState)
    requires Launchable(dev, m) && mixer.GatedAttention? && m.MixerOk(mixer) && MixerResident(dev, mixer)
    requires pos < |st.cells| && CellsFit(m, st.cells)
    modifies dev`clock
    ensures (delta, st') == m.MixGatedAttention(DeviceEnv(dev, m), mixer, st, pos, xn) && CellsFit(m, st'.cells)
  {
    hide Model.RotateHeads, Model.NormHeads, Model.Project, DeviceRow, Model.AttendHeads, ExpLaws, HandlesFit;
    hide Model.SplitQg, Model.GateOutput, Model.Weight;
    var rot, heads, kvHeads := m.cfg.Partial(1.0), m.cfg.shape.heads, m.cfg.shape.kvHeads;
    assert rot.Ok();
    NamesResident(dev, mixer);
    var raw := Launch(dev, m, mixer.wqg, xn);
    var k := Launch(dev, m, mixer.wk, xn);
    var v := Launch(dev, m, mixer.wv, xn);
    var q, gate := m.SplitQg(raw, false), m.SplitQg(raw, true);
    q := LaunchQkNormRope(dev, m, q, m.Weight(mixer.gqNorm), heads, rot, pos);
    k := LaunchQkNormRope(dev, m, k, m.Weight(mixer.gkNorm), kvHeads, rot, pos);
    var out;
    out, st' := WriteAndAttend(dev, m, q, k, v, pos, st);
    delta := Launch(dev, m, mixer.wo, m.GateOutput(out, gate));
  }

  // ---- Convolution and recurrence ----

  method DeviceShortConv(dev: Device, m: Model, mixer: Mixer, st: LayerState, xn: Vec)
      returns (delta: Vec, st': LayerState)
    requires Launchable(dev, m) && mixer.ShortConv? && m.MixerOk(mixer) && MixerResident(dev, mixer)
    requires |st.conv| == m.cfg.ShortTaps(mixer.convWeight).HistorySize()
    modifies dev`clock
    ensures (delta, st') == m.MixShortConv(DeviceEnv(dev, m), mixer, st, xn)
  {
    hide Model.ShortConvOut, Model.Project, Taps.Next, Gated, ExpLaws, HandlesFit;
    var taps := m.cfg.ShortTaps(mixer.convWeight);
    NamesResident(dev, mixer);
    var bcx := Launch(dev, m, mixer.inProj, xn);
    var out, next := LaunchShortConv(dev, m, taps, bcx, st.conv);
    delta := Launch(dev, m, mixer.outProj, out);
    st' := st.(conv := next);
  }

  method DeviceGatedDeltaNet(dev: Device, m: Model, mixer: Mixer, st: LayerState, xn: Vec)
      returns (delta: Vec, st': LayerState)
    requires Launchable(dev, m) && mixer.GatedDeltaNet? && m.MixerOk(mixer) && MixerResident(dev, mixer)
    requires |st.gdnConv| == m.cfg.GdnTaps(mixer.gdnWeight).HistorySize() && |st.gdnState| == m.cfg.gdn.StateSize()
    modifies dev`clock
    ensures (delta, st') == m.MixGatedDeltaNet(DeviceEnv(dev, m), mixer, st, xn)
  {
    hide Model.ConvSilu, Model.L2Normed, Model.RecurOutputs, Model.RecurStates, Model.GatedNorm, Model.Betas;
    hide Model.DecaysOf;
    hide Model.Project, Taps.Next, Part, ExpLaws, HandlesFit;
    var taps := m.cfg.GdnTaps(mixer.gdnWeight);
    NamesResident(dev, mixer);
    var qkv := Launch(dev, m, mixer.wqkv, xn);
    var z := Launch(dev, m, mixer.wgate, xn);
    var beta := Launch(dev, m, mixer.ssmBeta, xn);
    var alpha := Launch(dev, m, mixer.ssmAlpha, xn);
    beta, alpha := m.Betas(beta), m.DecaysOf(mixer.ssmA, alpha, mixer.dtBias);
    qkv := Part(qkv, 0, taps.channels);
    var conv, history := LaunchConvSilu(dev, m, taps, st.gdnConv, qkv);
    ConvLength(m, taps, st.gdnConv, qkv);
    conv := LaunchL2(dev, m, conv);
    var out, next := LaunchRecur(dev, m, conv, beta, alpha, st.gdnState);
    out := LaunchGatedNorm(dev, m, out, z, mixer.ssmNorm);
    delta := Launch(dev, m, mixer.ssmOut, out);
    st' := st.(gdnConv := history, gdnState := next);
  }

  lemma ConvLength(m: Model, taps: Taps, history: Vec, x: Vec)
    requires taps.Ok()
    ensures |m.ConvSilu(taps, history, x)| == taps.channels
  {}

  // ---- The mixers and the feed-forward block ----

  method DeviceMix(dev: Device, m: Model, mixer: Mixer, st: LayerState, maxSeq: nat, pos: nat, xn: Vec)
      returns (delta: Vec, st': LayerState)
    requires Launchable(dev, m) && m.MixerOk(mixer) && MixerResident(dev, mixer) && m.StateOk(mixer, st, maxSeq)
    requires pos < maxSeq
    requires UsesCells(mixer) ==> CellsFit(m, st.cells)
    modifies dev`clock
    ensures (delta, st') == m.Mix(DeviceEnv(dev, m), mixer, st, pos, xn)
    ensures UsesCells(mixer) ==> CellsFit(m, st'.cells)
  {
    hide Model.MixAttention, Model.MixShortConv, Model.MixGatedAttention, Model.MixGatedDeltaNet, Launchable;
    hide MixerResident;
    hide CellsFit;
    match mixer
    case Attention(_, _, _, _, _, _) => delta, st' := DeviceAttention(dev, m, mixer, st, pos, xn);
    case ShortConv(_, _, _) => delta, st' := DeviceShortConv(dev, m, mixer, st, xn);
    case GatedAttention(_, _, _, _, _, _) => delta, st' := DeviceGatedAttention(dev, m, mixer, st, pos, xn);
    case GatedDeltaNet(_, _, _, _, _, _, _, _, _) => delta, st' := DeviceGatedDeltaNet(dev, m, mixer, st, xn);
  }

  /** `ffn_chain_from_handle`. */
  method DeviceFfn(dev: Device, m: Model, layer: Layer, xn: Vec) returns (down: Vec)
    requires HandlesFit(dev, m) && AllResident(dev, [layer.ffnGate, layer.ffnUp, layer.ffnDown])
    modifies dev`clock
    ensures down == m.Ffn(DeviceEnv(dev, m), layer, xn)
  {
    hide Model.SiluTimes, HandlesFit, Tensor.Exact;
    var n := [layer.ffnGate, layer.ffnUp, layer.ffnDown];
    assert n[0] in dev.handles && n[1] in dev.handles && n[2] in dev.handles;
    var gate := Launch(dev, m, layer.ffnGate, xn);
    var up := Launch(dev, m, layer.ffnUp, xn);
    down := Launch(dev, m, layer.ffnDown, m.SiluTimes(gate, up));
  }
}
