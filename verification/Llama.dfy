/** A model's weights and configuration, and what one layer does to the residual stream of one token. */
module Llama {
  import opened Sums
  import opened Blocks
  import opened Elementary
  import opened Errors
  import opened Conv
  import opened Gdn
  import opened Attention
  import opened Rope
  import opened KvCaching
  import opened Matmul

  datatype Mixer =
    | Attention(wq: string, wk: string, wv: string, wo: string, qNorm: Option<string>, kNorm: Option<string>)
    | ShortConv(inProj: string, outProj: string, convWeight: Vec)
    | GatedAttention(wqg: string, wk: string, wv: string, wo: string, gqNorm: string, gkNorm: string)
    | GatedDeltaNet(wqkv: string, wgate: string, gdnWeight: Vec, ssmA: Vec, dtBias: Vec,
                    ssmBeta: string, ssmAlpha: string, ssmNorm: Vec, ssmOut: string)

  datatype Layer = Layer(attnNorm: Vec, mixer: Mixer, ffnNorm: Vec, ffnGate: string, ffnUp: string, ffnDown: string)

  /** What a layer remembers between tokens: its KV cells, its convolution histories, its recurrent matrix. */
  datatype LayerState = LayerState(cells: seq<Cell>, conv: Vec, gdnConv: Vec, gdnState: Vec)

  /** How a pass computes: with the int8 Q5_K kernel or not, through which KV codec, at which RoPE scale. */
  datatype Env = Env(int8: bool, codec: Vec -> Vec, ropeScale: real)

  datatype Config = Config(math: Math, eps: real, width: nat, shape: Shape, theta: real, ropeScale: real,
                           nRot: nat, lCache: nat, gdn: Heads, gdnKernel: nat) {

    function Full(scale: real): Rotation { Rotation(math, shape.headDim, shape.headDim, theta, scale) }

    function Partial(scale: real): Rotation { Rotation(math, shape.headDim, nRot, theta, scale) }

    function ConvDim(): nat { 2 * gdn.KeyWidth() + ValueWidth() }

    function ValueWidth(): nat { gdn.valueHeads * gdn.head.valueDim }

    function ShortTaps(weight: Vec): Taps { Taps(width, lCache, weight) }

    function GdnTaps(weight: Vec): Taps { Taps(ConvDim(), gdnKernel, weight) }
  }

  datatype Model = Model(cfg: Config, tensors: map<string, Tensor>, tokenEmbd: string, layers: seq<Layer>,
                         outputNorm: Vec, lmHead: string, format: KvFormat) {

    // ---- What the code takes for granted of a loaded model ----

    predicate MixerOk(mixer: Mixer) {
      match mixer
      case Attention(wq, wk, wv, _, _, _) =>
        cfg.shape.Ok() && RowsFit(wq, cfg.shape.heads * cfg.shape.headDim) && KvFits(wk, wv)
      case ShortConv(inProj, _, weight) => cfg.ShortTaps(weight).Ok() && RowsFit(inProj, 3 * cfg.width)
      case GatedAttention(_, wk, wv, _, _, _) =>
        cfg.shape.Ok() && cfg.nRot <= cfg.shape.headDim && KvFits(wk, wv)
      case GatedDeltaNet(_, _, weight, _, _, _, _, _, _) =>
        cfg.GdnTaps(weight).Ok() && cfg.gdn.Ok() && cfg.gdn.head.keyDim > 0
    }

    /** A projection fills the buffer it is written into. */
    predicate RowsFit(name: string, rows: nat) { name in tensors ==> |tensors[name].rows| == rows }

    /** A key and a value projection fill one row of the KV cache each. */
    predicate KvFits(wk: string, wv: string) { RowsFit(wk, cfg.shape.KvDim()) && RowsFit(wv, cfg.shape.KvDim()) }

    predicate LayersOk(ls: seq<Layer>) { forall i :: 0 <= i < |ls| ==> MixerOk(ls[i].mixer) }

    /** The sizes of a layer's persistent state. */
    predicate StateOk(mixer: Mixer, st: LayerState, maxSeq: nat) {
      && |st.cells| == maxSeq
      && (mixer.ShortConv? ==> |st.conv| == cfg.ShortTaps(mixer.convWeight).HistorySize())
      && (mixer.GatedDeltaNet? ==>
            |st.gdnConv| == cfg.GdnTaps(mixer.gdnWeight).HistorySize() && |st.gdnState| == cfg.gdn.StateSize())
    }

    predicate StatesOk(ls: seq<Layer>, ss: seq<LayerState>, maxSeq: nat) {
      |ss| == |ls| && forall i :: 0 <= i < |ls| ==> StateOk(ls[i].mixer, ss[i], maxSeq)
    }

    // ---- Names ----

    /** The tensors a mixer looks up are there. */
    predicate MixerPresent(mixer: Mixer) {
      match mixer
      case Attention(wq, wk, wv, wo, qn, kn) =>
        wq in tensors && wk in tensors && wv in tensors && wo in tensors && OptionPresent(qn) && OptionPresent(kn)
      case ShortConv(inp, out, _) => inp in tensors && out in tensors
      case GatedAttention(wqg, wk, wv, wo, qn, kn) =>
        wqg in tensors && wk in tensors && wv in tensors && wo in tensors && qn in tensors && kn in tensors
      case GatedDeltaNet(wqkv, wgate, _, _, _, beta, alpha, _, out) =>
        wqkv in tensors && wgate in tensors && beta in tensors && alpha in tensors && out in tensors
    }

    predicate OptionPresent(name: Option<string>) { name.None? || name.value in tensors }

    predicate LayerPresent(layer: Layer) {
      MixerPresent(layer.mixer) && layer.ffnGate in tensors && layer.ffnUp in tensors && layer.ffnDown in tensors
    }

    predicate LayersPresent(ls: seq<Layer>) { forall i :: 0 <= i < |ls| ==> LayerPresent(ls[i]) }

    predicate TokenKnown(token: nat) { tokenEmbd in tensors && token < |tensors[tokenEmbd].rows| }

    function Embedding(token: nat): Vec
      requires TokenKnown(token)
    {
      tensors[tokenEmbd].rows[token]
    }

    function Get(name: string): Tensor {
      if name in tensors then tensors[name] else Tensor([], false)
    }

    /** A norm weight: the tensor's first row. */
    function Weight(name: string): Vec {
      if |Get(name).rows| > 0 then Get(name).rows[0] else []
    }

    function Project(env: Env, name: string, x: Vec): Vec {
      if env.int8 then Get(name).Product(x) else Get(name).Exact(x)
    }

    // ---- Pieces of the mixers ----

    /** Per-head RMS norm, as `qk_norm`. */
    function NormHeads(x: Vec, heads: nat, weight: Vec): (r: Vec)
      ensures |r| == heads * cfg.shape.headDim
    {
      FromBlocks(heads, cfg.shape.headDim,
                 h => RmsNorm(cfg.math, Part(x, h * cfg.shape.headDim, cfg.shape.headDim), weight, cfg.eps))
    }

    function NormedIf(x: Vec, heads: nat, name: Option<string>): Vec {
      if name.Some? then NormHeads(x, heads, Weight(name.value)) else x
    }

    function RotateHeads(rot: Rotation, x: Vec, heads: nat, pos: nat): (r: Vec)
      ensures |r| == heads * rot.headDim
    {
      FromBlocks(heads, rot.headDim, h => rot.Rotate(Part(x, h * rot.headDim, rot.headDim), pos))
    }

    /** All heads over flat keys and values of positions 0..n-1. */
    function AttendFlat(q: Vec, keys: Vec, values: Vec, n: nat): (out: Vec)
      requires cfg.shape.Ok()
      ensures |out| == cfg.shape.heads * cfg.shape.headDim
    {
      FromBlocks(cfg.shape.heads, cfg.shape.headDim, h =>
        if 0 <= h < cfg.shape.heads then cfg.shape.Attend(cfg.math, q, keys, values, n, h) else [])
    }

    function AttendHeads(q: Vec, cells: seq<Cell>): (out: Vec)
      requires cfg.shape.Ok()
      ensures |out| == cfg.shape.heads * cfg.shape.headDim
    {
      AttendFlat(q, FlatKeys(cells), FlatValues(cells), |cells|)
    }

    /** Rotate, store the new key and value, attend over everything up to this position. */
    function Attended(env: Env, rot: Rotation, q: Vec, k: Vec, v: Vec, pos: nat, st: LayerState): (r: (Vec, LayerState))
      requires cfg.shape.Ok() && pos < |st.cells|
      ensures r.1 == st.(cells := r.1.cells) && |r.1.cells| == |st.cells|
    {
      var key := RotateHeads(rot, k, cfg.shape.kvHeads, pos);
      var cells := st.cells[pos := Cell(env.codec(key), env.codec(v))];
      (AttendHeads(RotateHeads(rot, q, cfg.shape.heads, pos), cells[..pos + 1]), st.(cells := cells))
    }

    /** The queries, or the gates, of the fused projection [query | gate] per head. */
    function SplitQg(raw: Vec, gates: bool): (r: Vec)
      ensures |r| == cfg.shape.heads * cfg.shape.headDim
    {
      var hd := cfg.shape.headDim;
      FromBlocks(cfg.shape.heads, hd, h => Part(raw, h * 2 * hd + (if gates then hd else 0), hd))
    }

    function GateOutput(out: Vec, gate: Vec): (r: Vec)
      ensures |r| == |out|
    {
      seq(|out|, i => Mul(At(out, i), Sigmoid(cfg.math, At(gate, i))))
    }

    function ShortConvOut(taps: Taps, bcx: Vec, history: Vec): Vec
      requires taps.Ok()
    {
      seq(taps.channels, ch =>
        Mul(At(bcx, taps.channels + ch), taps.Output(history, Gated(bcx, taps.channels), ch)))
    }

    function Softplus(x: real): real {
      if x > 20.0 then x else cfg.math.ln(1.0 + cfg.math.exp(x))
    }

    function Betas(raw: Vec): (beta: Vec)
      ensures |beta| == cfg.gdn.valueHeads
    {
      seq(cfg.gdn.valueHeads, h => Sigmoid(cfg.math, At(raw, h)))
    }

    function DecayOf(a: real, alpha: real, bias: real): real { cfg.math.exp(Mul(a, Softplus(alpha + bias))) }

    function DecaysOf(a: Vec, raw: Vec, bias: Vec): (decay: Vec)
      ensures |decay| == cfg.gdn.valueHeads
    {
      seq(cfg.gdn.valueHeads, h => DecayOf(At(a, h), At(raw, h), At(bias, h)))
    }

    function ConvSilu(taps: Taps, history: Vec, x: Vec): (conv: Vec)
      requires taps.Ok()
      ensures |conv| == taps.channels
    {
      seq(taps.channels, ch => Silu(cfg.math, taps.Output(history, x, ch)))
    }

    /** Query and key heads divided by their length. */
    function L2Normed(conv: Vec): (r: Vec)
      requires cfg.gdn.head.keyDim > 0
      ensures |r| == |conv|
    {
      var n := cfg.gdn.head.keyDim;
      seq(|conv|, i =>
        if 0 <= i < 2 * cfg.gdn.KeyWidth()
        then Div(At(conv, i), cfg.math.sqrt(SumSquares(Part(conv, i / n * n, n)) + cfg.eps)) else At(conv, i))
    }

    function HeadState(s: Vec, h: int): Vec { Part(s, h * cfg.gdn.head.Size(), cfg.gdn.head.Size()) }

    function HeadStepped(conv: Vec, beta: Vec, decay: Vec, s: Vec, h: int): Vec
      requires cfg.gdn.Ok()
    {
      if h < 0 then [] else cfg.gdn.head.Step(HeadState(s, h), cfg.gdn.HeadToken(conv, beta, decay, h))
    }

    function RecurStates(conv: Vec, beta: Vec, decay: Vec, s: Vec): (s': Vec)
      requires cfg.gdn.Ok()
      ensures |s'| == cfg.gdn.StateSize()
    {
      FromBlocks(cfg.gdn.valueHeads, cfg.gdn.head.Size(), h => HeadStepped(conv, beta, decay, s, h))
    }

    function RecurOutputs(conv: Vec, beta: Vec, decay: Vec, s: Vec): (out: Vec)
      requires cfg.gdn.Ok()
      ensures |out| == cfg.gdn.valueHeads * cfg.gdn.head.valueDim
    {
      FromBlocks(cfg.gdn.valueHeads, cfg.gdn.head.valueDim, h =>
        if h < 0 then [] else
        cfg.gdn.head.Outputs(HeadStepped(conv, beta, decay, s, h), cfg.gdn.HeadToken(conv, beta, decay, h)))
    }

    /** Per-head RMS norm of the recurrence's output, times silu of the gate z. */
    function GatedNorm(out: Vec, z: Vec, weight: Vec): (r: Vec)
      ensures |r| == cfg.gdn.valueHeads * cfg.gdn.head.valueDim
    {
      var n := cfg.gdn.head.valueDim;
      FromBlocks(cfg.gdn.valueHeads, n, h =>
        seq(n, d => Mul(ScaledBy(At(weight, d), At(out, h * n + d), Rms(cfg.math, Part(out, h * n, n), cfg.eps)),
                        Silu(cfg.math, At(z, h * n + d)))))
    }

    // ---- The four mixers ----

    function MixAttention(env: Env, mixer: Mixer, st: LayerState, pos: nat, xn: Vec): (r: (Vec, LayerState))
      requires mixer.Attention? && MixerOk(mixer) && pos < |st.cells|
      ensures r.1 == st.(cells := r.1.cells) && |r.1.cells| == |st.cells|
    {
      var (out, st') := AttentionOut(env, mixer, st, pos, Project(env, mixer.wq, xn), Project(env, mixer.wk, xn),
                                     Project(env, mixer.wv, xn));
      (Project(env, mixer.wo, out), st')
    }

    /** From the three projections of one token to its attention output. */
    function AttentionOut(env: Env, mixer: Mixer, st: LayerState, pos: nat, q: Vec, k: Vec, v: Vec)
        : (r: (Vec, LayerState))
      requires mixer.Attention? && MixerOk(mixer) && pos < |st.cells|
      ensures r.1 == st.(cells := r.1.cells) && |r.1.cells| == |st.cells|
    {
      Attended(env, cfg.Full(env.ropeScale), NormedIf(q, cfg.shape.heads, mixer.qNorm),
               NormedIf(k, cfg.shape.kvHeads, mixer.kNorm), v, pos, st)
    }

    function MixShortConv(env: Env, mixer: Mixer, st: LayerState, xn: Vec): (r: (Vec, LayerState))
      requires mixer.ShortConv? && MixerOk(mixer)
      ensures r.1 == st.(conv := r.1.conv) && |r.1.conv| == |st.conv|
    {
      var taps, bcx := cfg.ShortTaps(mixer.convWeight), Project(env, mixer.inProj, xn);
      (Project(env, mixer.outProj, ShortConvOut(taps, bcx, st.conv)),
       st.(conv := taps.Next(st.conv, Gated(bcx, taps.channels))))
    }

    function MixGatedAttention(env: Env, mixer: Mixer, st: LayerState, pos: nat, xn: Vec): (r: (Vec, LayerState))
      requires mixer.GatedAttention? && MixerOk(mixer) && pos < |st.cells|
      ensures r.1 == st.(cells := r.1.cells) && |r.1.cells| == |st.cells|
    {
      var raw := Project(env, mixer.wqg, xn);
      var q := NormHeads(SplitQg(raw, false), cfg.shape.heads, Weight(mixer.gqNorm));
      var k := NormHeads(Project(env, mixer.wk, xn), cfg.shape.kvHeads, Weight(mixer.gkNorm));
      var (out, st') := Attended(env, cfg.Partial(env.ropeScale), q, k, Project(env, mixer.wv, xn), pos, st);
      (Project(env, mixer.wo, GateOutput(out, SplitQg(raw, true))), st')
    }

    function MixGatedDeltaNet(env: Env, mixer: Mixer, st: LayerState, xn: Vec): (r: (Vec, LayerState))
      requires mixer.GatedDeltaNet? && MixerOk(mixer)
      ensures r.1 == st.(gdnConv := r.1.gdnConv, gdnState := r.1.gdnState)
      ensures |r.1.gdnConv| == |st.gdnConv| && |r.1.gdnState| == cfg.gdn.StateSize()
    {
      var taps := cfg.GdnTaps(mixer.gdnWeight);
      var qkv := Part(Project(env, mixer.wqkv, xn), 0, taps.channels);
      var beta := Betas(Project(env, mixer.ssmBeta, xn));
      var decay := DecaysOf(mixer.ssmA, Project(env, mixer.ssmAlpha, xn), mixer.dtBias);
      var conv := L2Normed(ConvSilu(taps, st.gdnConv, qkv));
      var out := GatedNorm(RecurOutputs(conv, beta, decay, st.gdnState), Project(env, mixer.wgate, xn), mixer.ssmNorm);
      (Project(env, mixer.ssmOut, out),
       st.(gdnConv := taps.Next(st.gdnConv, qkv), gdnState := RecurStates(conv, beta, decay, st.gdnState)))
    }

    function Mix(env: Env, mixer: Mixer, st: LayerState, pos: nat, xn: Vec): (r: (Vec, LayerState))
      requires MixerOk(mixer) && pos < |st.cells|
      ensures forall maxSeq: nat :: StateOk(mixer, st, maxSeq) ==> StateOk(mixer, r.1, maxSeq)
      ensures |r.1.cells| == |st.cells|
    {
      match mixer
      case Attention(_, _, _, _, _, _) => MixAttention(env, mixer, st, pos, xn)
      case ShortConv(_, _, _) => MixShortConv(env, mixer, st, xn)
      case GatedAttention(_, _, _, _, _, _) => MixGatedAttention(env, mixer, st, pos, xn)
      case GatedDeltaNet(_, _, _, _, _, _, _, _, _) => MixGatedDeltaNet(env, mixer, st, xn)
    }

    // ---- The feed-forward block and the layer ----

    function Norm(x: Vec, weight: Vec): Vec { RmsNorm(cfg.math, x, weight, cfg.eps) }

    function SiluTimes(g: Vec, u: Vec): (act: Vec)
      ensures |act| == |g|
    {
      seq(|g|, r => Mul(Silu(cfg.math, At(g, r)), At(u, r)))
    }

    /** Gate and up are always dotted exactly; only the down projection may take the int8 kernel. */
    function FfnHidden(layer: Layer, xn: Vec): Vec {
      SiluTimes(Get(layer.ffnGate).Exact(xn), Get(layer.ffnUp).Exact(xn))
    }

    function Ffn(env: Env, layer: Layer, xn: Vec): Vec {
      Project(env, layer.ffnDown, FfnHidden(layer, xn))
    }

    /** The second half of a layer: x plus the feed-forward of its norm. */
    function FfnStep(env: Env, layer: Layer, x: Vec): Vec {
      Add(x, Ffn(env, layer, Norm(x, layer.ffnNorm)))
    }

    /** One layer, one token: the new residual stream and the layer's new state. */
    function LayerStep(env: Env, layer: Layer, st: LayerState, pos: nat, x: Vec): (r: (Vec, LayerState))
      requires MixerOk(layer.mixer) && pos < |st.cells|
      ensures forall maxSeq: nat :: StateOk(layer.mixer, st, maxSeq) ==> StateOk(layer.mixer, r.1, maxSeq)
      ensures |r.1.cells| == |st.cells|
    {
      var (proj, st') := Mix(env, layer.mixer, st, pos, Norm(x, layer.attnNorm));
      (FfnStep(env, layer, Add(x, proj)), st')
    }

    /** The logits of a finished residual stream. */
    function Logits(env: Env, x: Vec): Vec {
      Project(env, lmHead, Norm(x, outputNorm))
    }

    function CpuEnv(): Env { Env(true, (x: Vec) => format.RoundTrip(x), cfg.ropeScale) }
  }
}
