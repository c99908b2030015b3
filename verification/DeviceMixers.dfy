/** The launches that work head by head, block by block or channel by channel, each proved to compute what a layer of
    the model means by it. */
module DeviceMixers {
  import opened Sums
  import opened Blocks
  import opened Elementary
  import opened QuantGpu
  import opened Workgroup
  import opened TreeReduction
  import opened WorkgroupKernels
  import opened HeadKernels
  import opened RotaryEmbedding = Rope
  import opened Conv
  import opened Gdn
  import opened Attention
  import opened KvCaching
  import opened KvWriteKernel
  import Columns = ColumnKernels
  import opened Llama
  import opened DeviceLaunches

  // ---- Norms and rotations, head by head ----

  /** One workgroup of a norm over a head, in place. */
  method NormHead(dev: Device, head: Vec, rescale: Rescale) returns (out: Vec)
    modifies dev`clock
    ensures out == Rescaled(head, rescale)
  {
    hide NormKernel, Rescaled;
    LanesArePowers();
    var shared := dev.Stale(LANES);
    var mem := shared + head;
    assert mem[LANES..] == head;
    NormMeaning(LANES, head, rescale, seq(LANES, _ => IDLE), mem);
    var final := dev.RunWorkgroup(NormKernel(LANES, |head|, rescale), LANES, mem);
    out := final[LANES..];
  }

  /** One workgroup of `qk_norm_rope`. */
  method NormRopeHead(dev: Device, head: Vec, rot: Rotation, pos: int, rescale: Rescale) returns (out: Vec)
    requires rot.Ok() && |head| == rot.headDim
    modifies dev`clock
    ensures out == rot.Rotate(Rescaled(head, rescale), pos)
  {
    hide QkNormRopeKernel, Rescaled, Rotation.Rotate;
    LanesArePowers();
    var shared := dev.Stale(LANES);
    var mem := shared + head;
    assert mem[LANES..] == head;
    QkNormRopeMeaning(LANES, head, rot, pos, rescale, seq(LANES, _ => IDLE), mem);
    var final := dev.RunWorkgroup(QkNormRopeKernel(LANES, rot, pos, rescale), LANES, mem);
    out := final[LANES..];
  }

  /** `launch_qk_norm_rope`. */
  method LaunchQkNormRope(dev: Device, m: Model, x: Vec, weight: Vec, heads: nat, rot: Rotation, pos: nat)
      returns (out: Vec)
    requires rot.Ok() && rot.headDim == m.cfg.shape.headDim
    modifies dev`clock
    ensures out == m.RotateHeads(rot, m.NormHeads(x, heads, weight), heads, pos)
  {
    hide Rotation.Rotate, Rescaled, Part, FromBlocks, Model.NormHeads;
    var c, rescale := rot.headDim, QkRescale(m.cfg.math, weight, m.cfg.eps, rot.headDim);
    ghost var normed := m.NormHeads(x, heads, weight);
    var blocks: seq<Vec> := [];
    for h := 0 to heads
      invariant |blocks| == h && forall g :: 0 <= g < h ==> blocks[g] == rot.Rotate(Part(normed, g * c, c), pos)
    {
      var block := NormRopeHead(dev, Part(x, h * c, c), rot, pos, rescale);
      NormedHead(m, x, heads, weight, h);
      blocks := blocks + [block];
    }
    out := Blocked(blocks, c);
    BlockedIs(blocks, c, h => rot.Rotate(Part(normed, h * c, c), pos));
  }

  /** One head of `rope`, a thread for each pair. */
  method RopeHead(dev: Device, head: Vec, rot: Rotation, pos: int) returns (out: Vec)
    requires rot.Ok() && |head| == rot.headDim
    modifies dev`clock
    ensures out == rot.Rotate(head, pos)
  {
    hide RotatePhase, Rotation.Rotate, CodeOk, PhaseMem, PhaseRaceFree, PhaseRegs;
    var threads := if rot.Half() == 0 then 1 else rot.Half();
    var unused := dev.Stale(threads);
    var mem, kernel := unused + head, [RotatePhase(rot, pos, threads)];
    assert mem[threads..] == head;
    RotateMeaning(rot, pos, threads, seq(threads, _ => IDLE), mem);
    MeaningCons(RotatePhase(rot, pos, threads), [], seq(threads, _ => IDLE), mem);
    assert kernel == [RotatePhase(rot, pos, threads)] + [];
    assert RaceFree(kernel);
    var final := dev.RunWorkgroup(kernel, threads, mem);
    out := final[threads..];
  }

  /** `launch_rope`. */
  method LaunchRope(dev: Device, m: Model, x: Vec, heads: nat, rot: Rotation, pos: nat) returns (out: Vec)
    requires rot.Ok()
    modifies dev`clock
    ensures out == m.RotateHeads(rot, x, heads, pos)
  {
    hide Rotation.Rotate, Part, FromBlocks;
    var c := rot.headDim;
    var blocks: seq<Vec> := [];
    for h := 0 to heads
      invariant |blocks| == h && forall g :: 0 <= g < h ==> blocks[g] == rot.Rotate(Part(x, g * c, c), pos)
    {
      var block := RopeHead(dev, Part(x, h * c, c), rot, pos);
      blocks := blocks + [block];
    }
    out := Blocked(blocks, c);
    BlockedIs(blocks, c, h => rot.Rotate(Part(x, h * c, c), pos));
  }

  /** `launch_l2_norm_heads`: the query segments and the key segments, in place. */
  method LaunchL2(dev: Device, m: Model, conv: Vec) returns (out: Vec)
    requires m.cfg.gdn.head.keyDim > 0 && 2 * m.cfg.gdn.KeyWidth() <= |conv|
    modifies dev`clock
    ensures out == m.L2Normed(conv)
  {
    hide Rescaled, Part, Model.L2Normed, FromBlocks;
    var n, rescale := m.cfg.gdn.head.keyDim, L2Rescale(m.cfg.math, m.cfg.eps);
    var segments := 2 * m.cfg.gdn.keyHeads;
    var blocks: seq<Vec> := [];
    for h := 0 to segments
      invariant |blocks| == h && forall g :: 0 <= g < h ==> blocks[g] == Part(m.L2Normed(conv), g * n, n)
    {
      var block := NormHead(dev, Part(conv, h * n, n), rescale);
      L2Head(m, conv, h);
      blocks := blocks + [block];
    }
    out := Blocked(blocks, n) + conv[2 * m.cfg.gdn.KeyWidth()..];
    BlockedIs(blocks, n, h => Part(m.L2Normed(conv), h * n, n));
    L2Whole(m, conv, out);
  }

  lemma L2Whole(m: Model, conv: Vec, out: Vec)
    requires m.cfg.gdn.head.keyDim > 0 && 2 * m.cfg.gdn.KeyWidth() <= |conv|
    requires var n, l2 := m.cfg.gdn.head.keyDim, m.L2Normed(conv);
      out == FromBlocks(2 * m.cfg.gdn.keyHeads, n, h => Part(l2, h * n, n)) + conv[2 * m.cfg.gdn.KeyWidth()..]
    ensures out == m.L2Normed(conv)
  {
    hide Model.L2Normed, FromBlocks, Part;
    var n, l2, front := m.cfg.gdn.head.keyDim, m.L2Normed(conv), 2 * m.cfg.gdn.KeyWidth();
    assert 2 * m.cfg.gdn.keyHeads * n == front;
    L2Length(m, conv);
    forall i | 0 <= i < |conv|
      ensures out[i] == l2[i]
    {
      if i < front {
        PartMakes(l2, 2 * m.cfg.gdn.keyHeads, n, i);
      } else {
        L2Tail(m, conv, i);
      }
    }
  }

  lemma L2Length(m: Model, conv: Vec)
    requires m.cfg.gdn.head.keyDim > 0
    ensures |m.L2Normed(conv)| == |conv|
  {}

  lemma L2Tail(m: Model, conv: Vec, i: nat)
    requires m.cfg.gdn.head.keyDim > 0 && 2 * m.cfg.gdn.KeyWidth() <= i < |conv|
    ensures m.L2Normed(conv)[i] == conv[i]
  {}

  /** `launch_gdn_gated_norm`. */
  method LaunchGatedNorm(dev: Device, m: Model, x: Vec, z: Vec, weight: Vec) returns (out: Vec)
    modifies dev`clock
    ensures out == m.GatedNorm(x, z, weight)
  {
    hide Rescaled, Part, FromBlocks, Model.GatedNorm;
    var n, heads := m.cfg.gdn.head.valueDim, m.cfg.gdn.valueHeads;
    var blocks: seq<Vec> := [];
    for h := 0 to heads
      invariant |blocks| == h && forall g :: 0 <= g < h ==> blocks[g] == Part(m.GatedNorm(x, z, weight), g * n, n)
    {
      var block := NormHead(dev, Part(x, h * n, n), GatedRescale(m.cfg.math, weight, Part(z, h * n, n), m.cfg.eps, n));
      GatedHead(m, x, z, weight, h);
      blocks := blocks + [block];
    }
    out := Blocked(blocks, n);
    ghost var whole := m.GatedNorm(x, z, weight);
    BlockedIs(blocks, n, h => Part(whole, h * n, n));
    GatedLength(m, x, z, weight);
    PartsMake(whole, heads, n);
  }

  lemma GatedLength(m: Model, x: Vec, z: Vec, weight: Vec)
    ensures |m.GatedNorm(x, z, weight)| == m.cfg.gdn.valueHeads * m.cfg.gdn.head.valueDim
  {}

  /** A vector is its parts laid end to end. */
  lemma PartsMake(v: Vec, n: nat, c: nat)
    requires |v| == n * c
    ensures FromBlocks(n, c, h => Part(v, h * c, c)) == v
  {
    hide FromBlocks, Part;
    var f := (h: int) => Part(v, h * c, c);
    forall i | 0 <= i < n * c
      ensures FromBlocks(n, c, f)[i] == v[i]
    {
      PartMakes(v, n, c, i);
    }
  }

  lemma PartMakes(v: Vec, n: nat, c: nat, i: nat)
    requires i < n * c <= |v|
    ensures FromBlocks(n, c, h => Part(v, h * c, c))[i] == v[i]
  {
    hide FromBlocks, Part;
    var f := (h: int) => Part(v, h * c, c);
    var q := BlockOf(i, n, c);
    FromBlocksAt(n, c, f, i);
    PartAt(v, q * c, c, i % c);
    assert At(f(q), i % c) == f(q)[i % c];
  }

  // ---- The key/value cache ----

  /** One workgroup of `kv_cache_write_q8_0`: the nine words of the key's block and of the value's. */
  method WriteBlocks(dev: Device, k: Vec, v: Vec, block: nat) returns (kb: GpuBlock, vb: GpuBlock)
    modifies dev`clock
    ensures kb == WriteBlock(k, block, dev.round) && vb == WriteBlock(v, block, dev.round)
  {
    hide WriteKernel, WriteBlock;
    var mem := dev.Stale(CELLS);
    WriteMeaning(k, v, block, dev.round, seq(32, _ => IDLE), mem);
    var final := dev.RunWorkgroup(WriteKernel(k, v, block, dev.round), 32, mem);
    BlockInMemory(HalfJob(k, block, KEY_BLOCK, dev.round), final);
    BlockInMemory(HalfJob(v, block, VALUE_BLOCK, dev.round), final);
    kb, vb := BlockAt(final, KEY_BLOCK), BlockAt(final, VALUE_BLOCK);
  }

  function WordAt(a: real): Word { if 0 <= a.Floor < 0x1_0000_0000 then a.Floor else 0 }

  /** The block that nine cells hold. */
  function BlockAt(mem: Memory, out: nat): GpuBlock
    requires out + 9 <= |mem|
  {
    GpuBlock(mem[out], seq<Word>(8, j requires 0 <= j < 8 => WordAt(mem[out + 1 + j])))
  }

  lemma BlockInMemory(job: HalfJob, mem: Memory)
    requires job.Ok() && |mem| == CELLS && job.Holds(mem)
    ensures BlockAt(mem, job.out) == WriteBlock(job.x, job.block, job.round)
  {
    hide QuantWord, Scale;
    var b := WriteBlock(job.x, job.block, job.round);
    forall j | 0 <= j < 8
      ensures WordAt(mem[job.out + 1 + j]) == b.words[j]
    {
      assert mem[job.out + 1 + j] == b.words[j] as real;
      assert (b.words[j] as real).Floor == b.words[j];
    }
  }

  /** `launch_kv_cache_write`, or `launch_kv_cache_write_q8_0` and what its blocks read back as. */
  method LaunchKvWrite(dev: Device, f: KvFormat, k: Vec, v: Vec) returns (key: Vec, value: Vec)
    requires |k| == |v|
    modifies dev`clock
    ensures key == DeviceRow(f, dev.round, k) && value == DeviceRow(f, dev.round, v)
  {
    if f.dtype == F16 {
      key := seq(|k|, i requires 0 <= i < |k| => f.Stored(k[i]));
      value := seq(|v|, i requires 0 <= i < |v| => f.Stored(v[i]));
      return;
    }
    hide WriteBlock, Dequant;
    var kbs: seq<GpuBlock>, vbs: seq<GpuBlock> := [], [];
    for block := 0 to (|k| + 31) / 32
      invariant |kbs| == |vbs| == block
      invariant forall b :: 0 <= b < block ==>
        kbs[b] == WriteBlock(k, b, dev.round) && vbs[b] == WriteBlock(v, b, dev.round)
    {
      var kb, vb := WriteBlocks(dev, k, v, block);
      kbs, vbs := kbs + [kb], vbs + [vb];
    }
    WordsPerBlock();
    key, value := ReadBlocks(kbs, |k|), ReadBlocks(vbs, |v|);
  }

  lemma WordsPerBlock()
    ensures forall x: Vec, b: nat, round: real -> int :: |WriteBlock(x, b, round).words| == 8
  {}

  /** `dequant_kv_q8_0`, element by element. */
  function ReadBlocks(blocks: seq<GpuBlock>, n: nat): Vec
    requires (n + 31) / 32 <= |blocks| && forall b :: 0 <= b < |blocks| ==> |blocks[b].words| == 8
  {
    seq(n, i requires 0 <= i < n => Dequant(blocks[i / 32], i % 32))
  }

  // ---- Attention ----

  /** The softmax workgroup of one head: its unnormalised weights, and their sum. */
  method SoftmaxWorkgroup(dev: Device, math: Math, scores: Vec) returns (weights: Vec, sum: real, ghost top: real)
    modifies dev`clock
    ensures |weights| == |scores| && forall t :: 0 <= t < |scores| ==> weights[t] == math.exp(scores[t] - top)
    ensures sum == Sum(|scores|, ExpTerms(math, scores, top))
  {
    hide SoftmaxJob.Kernel, Sum;
    LanesArePowers();
    var job := SoftmaxJob(LANES, scores, FLOOR, math);
    var mem := dev.Stale(job.Cells());
    top := job.KernelMeaning(seq(LANES, _ => IDLE), mem);
    var final := dev.RunWorkgroup(job.Kernel(), LANES, mem);
    weights, sum := final[LANES..][..|scores|], final[LANES + |scores|];
    SumEq(|scores|, job.Weight(top), ExpTerms(math, scores, top));
  }

  /** Where the running maximum starts. */
  const FLOOR: real := -1000000000000000000000000000000.0

  /** One head through the three kernels. */
  method HeadAttention(dev: Device, shape: Shape, math: Math, q: Vec, keys: Vec, values: Vec, n: nat, h: nat)
      returns (out: Vec)
    requires shape.Ok() && h < shape.heads && n > 0 && ExpLaws(math)
    requires |q| == shape.heads * shape.headDim && |keys| == |values| == n * shape.KvDim()
    modifies dev`clock
    ensures out == shape.Attend(math, q, keys, values, n, h)
  {
    hide Sum, Shape.Scores, Shape.Mix, Softmax, ExpLaws, ExpTerms, Shape.OutputOf;
    var scores: Vec := [];
    for t := 0 to n
      invariant |scores| == t && forall u :: 0 <= u < t ==> scores[u] == shape.Scores(math, q, keys, n, h)[u]
    {
      var score := shape.ScoreThread(math, q, keys, h, t, n);
      scores := scores + [score];
    }
    assert scores == shape.Scores(math, q, keys, n, h);
    var weights, sum, top := SoftmaxWorkgroup(dev, math, scores);
    ghost var attended := shape.Attend(math, q, keys, values, n, h);
    out := [];
    for d := 0 to shape.headDim
      invariant |out| == d && forall e :: 0 <= e < d ==> out[e] == attended[e]
    {
      var cell := shape.OutputThread(values, weights, sum, h, d, n);
      WeightsDivideLater(shape, math, scores, top, weights, values, h, d);
      out := out + [cell];
    }
  }

  lemma WeightsDivideLater(shape: Shape, math: Math, s: Vec, top: real, w: Vec, v: Vec, h: nat, d: nat)
    requires shape.Ok() && h < shape.heads && ExpLaws(math) && s != [] && |w| == |s| && d < shape.headDim
    requires forall t :: 0 <= t < |s| ==> w[t] == math.exp(s[t] - top)
    ensures shape.OutputOf(v, w, Sum(|s|, ExpTerms(math, s, top)), h, d) == shape.Mix(Softmax(math, s), v, h)[d]
  {
    hide ExpLaws, Sum, Shape.Mix, Softmax, ExpTerms, Shape.OutputOf;
    shape.DivideLater(math, s, top, w, v, h, d);
  }

  /** `launch_attention`. */
  method LaunchAttention(dev: Device, m: Model, q: Vec, keys: Vec, values: Vec, n: nat) returns (out: Vec)
    requires m.cfg.shape.Ok() && n > 0 && ExpLaws(m.cfg.math)
    requires |q| == m.cfg.shape.heads * m.cfg.shape.headDim && |keys| == |values| == n * m.cfg.shape.KvDim()
    modifies dev`clock
    ensures out == m.AttendFlat(q, keys, values, n)
  {
    hide Shape.Attend, FromBlocks, ExpLaws;
    var shape, math := m.cfg.shape, m.cfg.math;
    var blocks: seq<Vec> := [];
    for h := 0 to shape.heads
      invariant |blocks| == h && forall g :: 0 <= g < h ==> blocks[g] == shape.Attend(math, q, keys, values, n, g)
    {
      var block := HeadAttention(dev, shape, math, q, keys, values, n, h);
      blocks := blocks + [block];
    }
    out := Blocked(blocks, shape.headDim);
    BlockedIs(blocks, shape.headDim,
              h => if 0 <= h < shape.heads then shape.Attend(math, q, keys, values, n, h) else []);
  }

  // ---- Convolutions and the recurrence ----

  /** A launch with a thread for every column, to its end. */
  method RunColumns(dev: Device, codes: seq<Code<Columns.Held>>, rows: nat, mem: Memory) returns (final: Memory)
    requires Columns.CodesOk(codes, rows) && |mem| == rows * |codes|
    modifies dev`clock
    ensures Complete([Columns.ColumnPhase(codes)], seq(|codes|, _ => Columns.CLEARED), mem, final)
  {
    hide *;
    Columns.PhaseOk(codes, rows);
    var launch := dev.clock;
    var regs := seq(|codes|, _ => Columns.CLEARED);
    final := Execute((step: nat) => dev.pick(launch, step), [Columns.ColumnPhase(codes)], regs, mem);
    dev.clock := launch + 1;
  }

  /** `causal_conv1d_silu` or `short_conv`: outputs through act, and the history one token on. */
  method LaunchConv(dev: Device, taps: Taps, x: Vec, act: (int, real) -> real, history: Vec)
      returns (out: Vec, next: Vec)
    requires taps.Ok() && |x| == taps.channels && |history| == taps.HistorySize()
    modifies dev`clock
    ensures next == taps.Next(history, x) && |out| == taps.channels
    ensures forall ch :: 0 <= ch < taps.channels ==> out[ch] == act(ch, taps.Output(history, x, ch))
  {
    hide Taps.Output, Taps.Next, Columns.ConvThread;
    var codes, stale := Columns.ConvThreads(taps, x, act), dev.Stale(taps.channels);
    Columns.ConvThreadsOk(taps, x, act);
    assert |history + stale| == taps.kernel * taps.channels;
    var final := RunColumns(dev, codes, taps.kernel, history + stale);
    ghost var regs := seq(|codes|, _ => Columns.CLEARED);
    ghost var schedule, c :|
      Finishes([Columns.ColumnPhase(codes)], regs, history + stale, schedule, c) && c.mem == final;
    Columns.ConvLaunch(taps, x, act, history, stale, schedule, c);
    next, out := final[..taps.HistorySize()], final[taps.HistorySize()..];
  }

  /** `launch_short_conv`. */
  method LaunchShortConv(dev: Device, m: Model, taps: Taps, bcx: Vec, history: Vec) returns (out: Vec, next: Vec)
    requires taps.Ok() && |history| == taps.HistorySize()
    modifies dev`clock
    ensures out == m.ShortConvOut(taps, bcx, history) && next == taps.Next(history, Gated(bcx, taps.channels))
  {
    hide Taps.Output, Taps.Next, Gated, Mul;
    var gate := (ch: int, acc: real) => Mul(At(bcx, taps.channels + ch), acc);
    out, next := LaunchConv(dev, taps, Gated(bcx, taps.channels), gate, history);
  }

  /** `launch_causal_conv1d_silu`. */
  method LaunchConvSilu(dev: Device, m: Model, taps: Taps, history: Vec, x: Vec) returns (out: Vec, next: Vec)
    requires taps.Ok() && |x| == taps.channels && |history| == taps.HistorySize()
    modifies dev`clock
    ensures out == m.ConvSilu(taps, history, x) && next == taps.Next(history, x)
  {
    hide Taps.Output, Taps.Next, Silu;
    out, next := LaunchConv(dev, taps, x, (ch: int, acc: real) => Silu(m.cfg.math, acc), history);
  }

  /** One head's workgroup of `gdn_recurrence`. */
  method RecurHead(dev: Device, head: Head, tok: Token, s: Vec) returns (out: Vec, next: Vec)
    requires |s| == head.Size() && head.Fits(tok)
    modifies dev`clock
    ensures next == head.Step(s, tok) && out == head.Outputs(head.Step(s, tok), tok)
  {
    hide Head.Step, Head.Outputs, Columns.GdnThread;
    var codes, stale := Columns.GdnThreads(head, tok), dev.Stale(head.valueDim);
    Columns.GdnThreadsOk(head, tok);
    assert |s + stale| == (head.keyDim + 1) * head.valueDim;
    var final := RunColumns(dev, codes, head.keyDim + 1, s + stale);
    ghost var regs := seq(|codes|, _ => Columns.CLEARED);
    ghost var schedule, c :|
      Finishes([Columns.ColumnPhase(codes)], regs, s + stale, schedule, c) && c.mem == final;
    Columns.GdnLaunch(head, tok, s, stale, schedule, c);
    next, out := final[..head.Size()], final[head.Size()..];
  }

  /** `launch_gdn_recurrence`: every value head in its own block. */
  method LaunchRecur(dev: Device, m: Model, conv: Vec, beta: Vec, decay: Vec, s: Vec) returns (out: Vec, next: Vec)
    requires m.cfg.gdn.Ok()
    modifies dev`clock
    ensures out == m.RecurOutputs(conv, beta, decay, s) && next == m.RecurStates(conv, beta, decay, s)
  {
    hide Head.Step, Head.Outputs, Heads.HeadToken, FromBlocks, Part;
    var heads, head := m.cfg.gdn, m.cfg.gdn.head;
    var outs: seq<Vec>, nexts: seq<Vec> := [], [];
    for h := 0 to heads.valueHeads
      invariant |outs| == |nexts| == h
      invariant forall g :: 0 <= g < h ==> nexts[g] == m.HeadStepped(conv, beta, decay, s, g)
      invariant forall g :: 0 <= g < h ==>
        outs[g] == head.Outputs(m.HeadStepped(conv, beta, decay, s, g), heads.HeadToken(conv, beta, decay, g))
    {
      var o, next1 := RecurHead(dev, head, heads.HeadToken(conv, beta, decay, h), m.HeadState(s, h));
      outs, nexts := outs + [o], nexts + [next1];
    }
    out, next := Blocked(outs, head.valueDim), Blocked(nexts, head.Size());
    BlockedIs(outs, head.valueDim, h => if h < 0 then [] else
      head.Outputs(m.HeadStepped(conv, beta, decay, s, h), heads.HeadToken(conv, beta, decay, h)));
    BlockedIs(nexts, head.Size(), h => m.HeadStepped(conv, beta, decay, s, h));
  }
}
