/** The loops over elements that stand between the matrix products: norms, gates, activations, residual adds. Each is
    written out as the CPU runs it, over positions of its buffers, and proved to compute the layer's formula. */
module ElementRoutines {
  import opened Sums
  import opened Striding
  import opened Blocks
  import opened Elementary
  import opened Llama

  /** sum of v * v over x[from..from + n] */
  method SquaresOf(x: Vec, from: nat, n: nat) returns (sum: real)
    requires from + n <= |x|
    ensures sum == SumSquares(Part(x, from, n))
  {
    hide Sum, Part;
    ghost var p := Part(x, from, n);
    ghost var f := (i: int) => At(p, i) * At(p, i);
    SumNone(f);
    sum := 0.0;
    for i := 0 to n
      invariant sum == Sum(i, f)
    {
      SumStep(i, f);
      PartAt(x, from, n, i);
      sum := sum + x[from + i] * x[from + i];
    }
  }

  lemma PartAt(x: Vec, from: nat, n: nat, i: nat)
    requires from + n <= |x| && i < n
    ensures Part(x, from, n)[i] == x[from + i]
  {
    assert Part(x, from, n)[i] == At(x, from + i);
  }

  lemma WholePart(x: Vec)
    ensures Part(x, 0, |x|) == x
  {
    assert forall i :: 0 <= i < |x| ==> Part(x, 0, |x|)[i] == x[i];
  }

  // ---- Norms ----

  lemma NormedCell(math: Math, x: Vec, weight: Vec, eps: real, i: nat)
    requires i < |x|
    ensures RmsNorm(math, x, weight, eps)[i]
      == Div(Mul(At(weight, i), x[i]), math.sqrt(Div(SumSquares(x), |x| as real) + eps))
  {
    hide SumSquares, Div, Rms, ScaledBy, Mul;
    RmsNormAt(math, x, weight, eps, i);
    RmsIs(math, x, eps);
    ScaledIs(At(weight, i), x[i], Rms(math, x, eps));
  }

  lemma ScaledIs(w: real, v: real, rms: real)
    ensures ScaledBy(w, v, rms) == Div(Mul(w, v), rms)
  {}

  lemma RmsIs(math: Math, x: Vec, eps: real)
    ensures Rms(math, x, eps) == math.sqrt(Div(SumSquares(x), |x| as real) + eps)
  {}

  /** `rms_norm_into` */
  method RmsNormInto(math: Math, x: Vec, weight: Vec, eps: real) returns (out: Vec)
    ensures out == RmsNorm(math, x, weight, eps)
  {
    hide SumSquares, Div, RmsNorm, Mul;
    var sumSq := SquaresOf(x, 0, |x|);
    WholePart(x);
    var rms := math.sqrt(Div(sumSq, |x| as real) + eps);
    var o := new real[|x|];
    for i := 0 to |x|
      invariant forall k :: 0 <= k < i ==> o[k] == RmsNorm(math, x, weight, eps)[k]
    {
      NormedCell(math, x, weight, eps, i);
      o[i] := Div(Mul(At(weight, i), x[i]), rms);
    }
    out := o[..];
  }

  lemma HeadCell(m: Model, x: Vec, heads: nat, weight: Vec, h: nat, d: nat)
    requires |x| == heads * m.cfg.shape.headDim && h < heads && d < m.cfg.shape.headDim
    ensures var n := m.cfg.shape.headDim; 0 <= h * n + d < |x|
    ensures var n := m.cfg.shape.headDim;
      m.NormHeads(x, heads, weight)[h * n + d]
      == Div(Mul(At(weight, d), x[h * n + d]),
             m.cfg.math.sqrt(Div(SumSquares(Part(x, h * n, n)), n as real) + m.cfg.eps))
  {
    hide SumSquares, Div, FromBlocks, RmsNorm, Mul, Part;
    var n := m.cfg.shape.headDim;
    RowEnd(h, heads, n);
    FromBlocksCell(heads, n, g => RmsNorm(m.cfg.math, Part(x, g * n, n), weight, m.cfg.eps), h, d);
    NormedCell(m.cfg.math, Part(x, h * n, n), weight, m.cfg.eps, d);
    PartAt(x, h * n, n, d);
  }

  /** `qk_norm`: one head after the other. */
  method QkNorm(m: Model, x: Vec, heads: nat, weight: Vec) returns (out: Vec)
    requires |x| == heads * m.cfg.shape.headDim
    ensures out == m.NormHeads(x, heads, weight)
  {
    hide SumSquares, Div, Model.NormHeads, Mul, Part;
    var n, math, eps := m.cfg.shape.headDim, m.cfg.math, m.cfg.eps;
    var o := new real[|x|];
    for h := 0 to heads
      invariant forall i :: 0 <= i < h * n ==> o[i] == m.NormHeads(x, heads, weight)[i]
    {
      RowEnd(h, heads, n);
      var sumSq := SquaresOf(x, h * n, n);
      var rms := math.sqrt(Div(sumSq, n as real) + eps);
      for d := 0 to n
        invariant forall i :: 0 <= i < h * n + d ==> o[i] == m.NormHeads(x, heads, weight)[i]
      {
        HeadCell(m, x, heads, weight, h, d);
        o[h * n + d] := Div(Mul(At(weight, d), x[h * n + d]), rms);
      }
      NextRow(h, n);
    }
    out := o[..];
  }

  lemma NextRow(h: nat, n: nat)
    ensures (h + 1) * n == h * n + n
  {}

  // ---- Residual adds, activations, gates ----

  method AddInto(x: Vec, delta: Vec) returns (out: Vec)
    ensures out == Add(x, delta)
  {
    var o := new real[|x|];
    for i := 0 to |x|
      invariant forall k :: 0 <= k < i ==> o[k] == Add(x, delta)[k]
    {
      o[i] := x[i] + At(delta, i);
    }
    out := o[..];
  }

  lemma SiluCell(m: Model, gate: Vec, up: Vec, r: nat)
    requires r < |gate|
    ensures m.SiluTimes(gate, up)[r] == Mul(Div(gate[r], 1.0 + m.cfg.math.exp(-gate[r])), At(up, r))
  {
    hide Div, Mul;
  }

  /** silu of the gate times up, as `ffn_gate_up` applies it row by row. */
  method SiluMul(m: Model, gate: Vec, up: Vec) returns (act: Vec)
    ensures act == m.SiluTimes(gate, up)
  {
    hide Div, Mul, Model.SiluTimes;
    var o := new real[|gate|];
    for r := 0 to |gate|
      invariant forall k :: 0 <= k < r ==> o[k] == m.SiluTimes(gate, up)[k]
    {
      SiluCell(m, gate, up, r);
      var g := gate[r];
      var silu := Div(g, 1.0 + m.cfg.math.exp(-g));
      o[r] := Mul(silu, At(up, r));
    }
    act := o[..];
  }

  /** In every head's block of the fused projection the query stands first, then the gate. */
  lemma SplitCell(m: Model, raw: Vec, h: nat, d: nat)
    requires h < m.cfg.shape.heads && d < m.cfg.shape.headDim
    ensures var n := m.cfg.shape.headDim; 0 <= h * n + d < m.cfg.shape.heads * n
    ensures var n := m.cfg.shape.headDim; m.SplitQg(raw, false)[h * n + d] == At(raw, h * 2 * n + d)
    ensures var n := m.cfg.shape.headDim; m.SplitQg(raw, true)[h * n + d] == At(raw, h * 2 * n + n + d)
  {
    hide FromBlocks;
    var heads, n := m.cfg.shape.heads, m.cfg.shape.headDim;
    FromBlocksCell(heads, n, g => Part(raw, g * 2 * n + (if false then n else 0), n), h, d);
    FromBlocksCell(heads, n, g => Part(raw, g * 2 * n + (if true then n else 0), n), h, d);
  }

  /** The copies that part the fused projection. */
  method PartQg(m: Model, raw: Vec) returns (q: Vec, gate: Vec)
    ensures q == m.SplitQg(raw, false) && gate == m.SplitQg(raw, true)
  {
    q := CopyHalves(m, raw, false);
    gate := CopyHalves(m, raw, true);
  }

  /** Every head's query, or every head's gate, into a buffer of its own. */
  method CopyHalves(m: Model, raw: Vec, gates: bool) returns (part: Vec)
    ensures part == m.SplitQg(raw, gates)
  {
    hide Model.SplitQg;
    var heads, n := m.cfg.shape.heads, m.cfg.shape.headDim;
    Nonneg(heads, n);
    var o := new real[heads * n];
    var base := 0;
    for h := 0 to heads
      invariant base == h * n <= o.Length && PartCopied(o[..], m.SplitQg(raw, gates), base)
    {
      RowEnd(h, heads, n);
      NextRow(h, n);
      var src := if gates then h * 2 * n + n else h * 2 * n;
      for d := 0 to n
        invariant PartCopied(o[..], m.SplitQg(raw, gates), base + d)
      {
        SplitCell(m, raw, h, d);
        o[base + d] := At(raw, src + d);
      }
      base := base + n;
    }
    part := o[..];
  }

  /** The first n cells are as they should be. */
  ghost predicate PartCopied(o: Vec, want: Vec, n: nat) {
    |o| == |want| && n <= |o| && forall i :: 0 <= i < n ==> o[i] == want[i]
  }

  lemma GateCell(m: Model, out: Vec, gate: Vec, i: nat)
    requires i < |out|
    ensures m.GateOutput(out, gate)[i] == Mul(out[i], Div(1.0, 1.0 + m.cfg.math.exp(-At(gate, i))))
  {
    hide Div, Mul;
  }

  /** attn_out *= sigmoid(gate) */
  method GateInto(m: Model, out: Vec, gate: Vec) returns (gated: Vec)
    ensures gated == m.GateOutput(out, gate)
  {
    hide Div, Mul, Model.GateOutput;
    var o := new real[|out|];
    for i := 0 to |out|
      invariant forall k :: 0 <= k < i ==> o[k] == m.GateOutput(out, gate)[k]
    {
      GateCell(m, out, gate, i);
      o[i] := Mul(out[i], Div(1.0, 1.0 + m.cfg.math.exp(-At(gate, i))));
    }
    gated := o[..];
  }

  // ---- Gated DeltaNet ----

  lemma BetaCell(m: Model, raw: Vec, h: nat)
    requires h < m.cfg.gdn.valueHeads
    ensures m.Betas(raw)[h] == Div(1.0, 1.0 + m.cfg.math.exp(-At(raw, h)))
  {
    hide Div;
  }

  lemma DecayCell(m: Model, a: Vec, raw: Vec, bias: Vec, h: nat)
    requires h < m.cfg.gdn.valueHeads
    ensures var math, x := m.cfg.math, At(raw, h) + At(bias, h);
      m.DecaysOf(a, raw, bias)[h]
        == math.exp(Mul(At(a, h), if x > 20.0 then x else math.ln(1.0 + math.exp(x))))
  {
    hide Mul;
  }

  method HeadDecay(m: Model, a: Vec, raw: Vec, bias: Vec, h: nat) returns (decay: real)
    requires h < m.cfg.gdn.valueHeads
    ensures decay == m.DecaysOf(a, raw, bias)[h]
  {
    hide Mul, Model.DecaysOf;
    DecayCell(m, a, raw, bias, h);
    var x := At(raw, h) + At(bias, h);
    var softplus := if x > 20.0 then x else m.cfg.math.ln(1.0 + m.cfg.math.exp(x));
    decay := m.cfg.math.exp(Mul(At(a, h), softplus));
  }

  /** beta = sigmoid(beta_raw), decay = exp(a * softplus(alpha_raw + bias)) */
  method GateAndDecay(m: Model, a: Vec, bias: Vec, betaRaw: Vec, alphaRaw: Vec) returns (beta: Vec, decay: Vec)
    ensures beta == m.Betas(betaRaw) && decay == m.DecaysOf(a, alphaRaw, bias)
  {
    hide Div, Mul, Model.Betas, Model.DecaysOf;
    var heads, math := m.cfg.gdn.valueHeads, m.cfg.math;
    var betas, decays := new real[heads], new real[heads];
    for h := 0 to heads
      invariant forall k :: 0 <= k < h ==> betas[k] == m.Betas(betaRaw)[k]
      invariant forall k :: 0 <= k < h ==> decays[k] == m.DecaysOf(a, alphaRaw, bias)[k]
    {
      BetaCell(m, betaRaw, h);
      betas[h] := Div(1.0, 1.0 + math.exp(-At(betaRaw, h)));
      decays[h] := HeadDecay(m, a, alphaRaw, bias, h);
    }
    beta, decay := betas[..], decays[..];
  }

  lemma ValuesKept(m: Model, conv: Vec, i: nat)
    requires m.cfg.gdn.head.keyDim > 0 && 2 * (m.cfg.gdn.keyHeads * m.cfg.gdn.head.keyDim) <= i < |conv|
    ensures m.L2Normed(conv)[i] == conv[i]
  {}

  lemma SegmentCell(m: Model, conv: Vec, h: nat, d: nat)
    requires m.cfg.gdn.head.keyDim > 0 && h < 2 * m.cfg.gdn.keyHeads && d < m.cfg.gdn.head.keyDim
    requires 2 * (m.cfg.gdn.keyHeads * m.cfg.gdn.head.keyDim) <= |conv|
    ensures var n := m.cfg.gdn.head.keyDim; 0 <= h * n + d < |conv|
    ensures var n := m.cfg.gdn.head.keyDim;
      m.L2Normed(conv)[h * n + d]
      == Div(conv[h * n + d], m.cfg.math.sqrt(SumSquares(Part(conv, h * n, n)) + m.cfg.eps))
  {
    hide SumSquares, Div, Part, Model.L2Normed;
    var n, heads := m.cfg.gdn.head.keyDim, m.cfg.gdn.keyHeads;
    RowEnd(h, 2 * heads, n);
    TwiceWidth(heads, n);
    ModUnique(h * n + d, n, h, d);
    NormedAt(m, conv, h * n + d);
  }

  lemma TwiceWidth(heads: nat, n: nat)
    ensures (2 * heads) * n == 2 * (heads * n)
  {}

  lemma NormedAt(m: Model, conv: Vec, i: nat)
    requires m.cfg.gdn.head.keyDim > 0 && i < 2 * (m.cfg.gdn.keyHeads * m.cfg.gdn.head.keyDim) <= |conv|
    ensures var n := m.cfg.gdn.head.keyDim; var h := i / n;
      m.L2Normed(conv)[i] == Div(conv[i], m.cfg.math.sqrt(SumSquares(Part(conv, h * n, n)) + m.cfg.eps))
  {
    hide SumSquares, Div, Part;
  }

  /** One query or key head divided by its length. */
  method NormSegment(m: Model, conv: Vec, h: nat, o: array<real>, base: nat)
    requires m.cfg.gdn.head.keyDim > 0 && h < 2 * m.cfg.gdn.keyHeads
    requires 2 * (m.cfg.gdn.keyHeads * m.cfg.gdn.head.keyDim) <= |conv| == o.Length
    requires base == h * m.cfg.gdn.head.keyDim && base + m.cfg.gdn.head.keyDim <= o.Length
    requires forall i :: base <= i < base + m.cfg.gdn.head.keyDim ==> o[i] == conv[i]
    modifies o
    ensures forall i :: 0 <= i < o.Length ==>
      o[i] == if base <= i < base + m.cfg.gdn.head.keyDim then m.L2Normed(conv)[i] else old(o[i])
  {
    hide SumSquares, Div, Model.L2Normed;
    var n := m.cfg.gdn.head.keyDim;
    var sumSq := SquaresOf(conv, base, n);
    var norm := m.cfg.math.sqrt(sumSq + m.cfg.eps);
    for d := 0 to n
      invariant forall i :: 0 <= i < o.Length ==>
        o[i] == if base <= i < base + d then m.L2Normed(conv)[i] else old(o[i])
    {
      SegmentCell(m, conv, h, d);
      o[base + d] := Div(o[base + d], norm);
    }
  }

  /** Every query and key head divided by its length; the values are left alone. */
  method L2NormHeads(m: Model, conv: Vec) returns (out: Vec)
    requires m.cfg.gdn.head.keyDim > 0 && 2 * m.cfg.gdn.KeyWidth() <= |conv|
    ensures out == m.L2Normed(conv)
  {
    hide Model.L2Normed;
    var heads, n := m.cfg.gdn.keyHeads, m.cfg.gdn.head.keyDim;
    var width := heads * n;
    Nonneg(heads, n);
    var o := new real[|conv|](i requires 0 <= i < |conv| => conv[i]);
    var base := 0;
    for h := 0 to heads
      invariant base == h * n <= width && SegmentsNormed(m, conv, o[..], width, base)
    {
      RowEnd(h, heads, n);
      KeyHead(heads, h, n);
      NextRow(h, n);
      NormSegment(m, conv, h, o, base);
      NormSegment(m, conv, heads + h, o, width + base);
      base := base + n;
    }
    out := o[..];
    forall i | 2 * width <= i < |conv|
      ensures out[i] == m.L2Normed(conv)[i]
    {
      ValuesKept(m, conv, i);
    }
  }

  /** The first `base` entries of the queries and of the keys are normalised, the rest not yet. */
  ghost predicate SegmentsNormed(m: Model, conv: Vec, o: Vec, width: nat, base: nat)
    requires m.cfg.gdn.head.keyDim > 0 && |o| == |conv|
  {
    && (forall i :: 0 <= i < |conv| && (i < base || width <= i < width + base) ==> o[i] == m.L2Normed(conv)[i])
    && (forall i :: 0 <= i < |conv| && (base <= i < width || width + base <= i) ==> o[i] == conv[i])
  }

  lemma KeyHead(heads: nat, h: nat, n: nat)
    ensures (heads + h) * n == heads * n + h * n
  {}

  lemma GatedCell(m: Model, out: Vec, z: Vec, weight: Vec, h: nat, d: nat)
    requires |out| == m.cfg.gdn.valueHeads * m.cfg.gdn.head.valueDim
    requires h < m.cfg.gdn.valueHeads && d < m.cfg.gdn.head.valueDim
    ensures var n := m.cfg.gdn.head.valueDim; 0 <= h * n + d < |out|
    ensures var n := m.cfg.gdn.head.valueDim; var g := At(z, h * n + d);
      m.GatedNorm(out, z, weight)[h * n + d]
        == Mul(Div(Mul(At(weight, d), out[h * n + d]),
                   m.cfg.math.sqrt(Div(SumSquares(Part(out, h * n, n)), n as real) + m.cfg.eps)),
               Div(g, 1.0 + m.cfg.math.exp(-g)))
  {
    hide SumSquares, Div, Mul, FromBlocks, Part, Model.GatedNorm;
    var heads, n := m.cfg.gdn.valueHeads, m.cfg.gdn.head.valueDim;
    RowEnd(h, heads, n);
    GatedBlocks(m, out, z, weight);
    FromBlocksCell(heads, n, GatedHeads(m, out, z, weight), h, d);
    GatedHeadCell(m, out, z, weight, h, d);
  }

  /** The gated norm head by head. */
  ghost function GatedHeads(m: Model, out: Vec, z: Vec, weight: Vec): int -> Vec {
    (h: int) => GatedHeadOf(m, out, z, weight, h)
  }

  ghost function GatedHeadOf(m: Model, out: Vec, z: Vec, weight: Vec, h: int): (v: Vec)
    ensures |v| == m.cfg.gdn.head.valueDim
  {
    var n := m.cfg.gdn.head.valueDim;
    seq(n, d => Mul(ScaledBy(At(weight, d), At(out, h * n + d), Rms(m.cfg.math, Part(out, h * n, n), m.cfg.eps)),
                    Silu(m.cfg.math, At(z, h * n + d))))
  }

  lemma GatedBlocks(m: Model, out: Vec, z: Vec, weight: Vec)
    ensures m.GatedNorm(out, z, weight)
      == FromBlocks(m.cfg.gdn.valueHeads, m.cfg.gdn.head.valueDim, GatedHeads(m, out, z, weight))
  {
    hide FromBlocks, Silu, Rms, ScaledBy, Mul, Part;
    var n := m.cfg.gdn.head.valueDim;
    FromBlocksEq(m.cfg.gdn.valueHeads, n, GatedHeads(m, out, z, weight), h =>
      seq(n, d => Mul(ScaledBy(At(weight, d), At(out, h * n + d), Rms(m.cfg.math, Part(out, h * n, n), m.cfg.eps)),
                      Silu(m.cfg.math, At(z, h * n + d)))));
  }

  lemma GatedHeadCell(m: Model, out: Vec, z: Vec, weight: Vec, h: nat, d: nat)
    requires d < m.cfg.gdn.head.valueDim && 0 <= h * m.cfg.gdn.head.valueDim + d < |out|
    ensures var n := m.cfg.gdn.head.valueDim; var g := At(z, h * n + d);
      GatedHeadOf(m, out, z, weight, h)[d]
        == Mul(Div(Mul(At(weight, d), out[h * n + d]),
                   m.cfg.math.sqrt(Div(SumSquares(Part(out, h * n, n)), n as real) + m.cfg.eps)),
               Div(g, 1.0 + m.cfg.math.exp(-g)))
  {
    hide SumSquares, Div, Mul, Rms, Silu, Part, ScaledBy;
    var n := m.cfg.gdn.head.valueDim;
    RmsIs(m.cfg.math, Part(out, h * n, n), m.cfg.eps);
    SiluIs(m.cfg.math, At(z, h * n + d));
    ScaledIs(At(weight, d), out[h * n + d], Rms(m.cfg.math, Part(out, h * n, n), m.cfg.eps));
  }

  lemma SiluIs(math: Math, g: real)
    ensures Silu(math, g) == Div(g, 1.0 + math.exp(-g))
  {}

  /** norm(out) * silu(z), head by head. */
  method GatedNormHeads(m: Model, out: Vec, z: Vec, weight: Vec) returns (normed: Vec)
    requires |out| == m.cfg.gdn.valueHeads * m.cfg.gdn.head.valueDim
    ensures normed == m.GatedNorm(out, z, weight)
  {
    hide SumSquares, Div, Mul, Model.GatedNorm, Part;
    var heads, n, math, eps := m.cfg.gdn.valueHeads, m.cfg.gdn.head.valueDim, m.cfg.math, m.cfg.eps;
    var o := new real[|out|];
    for h := 0 to heads
      invariant forall i :: 0 <= i < h * n ==> o[i] == m.GatedNorm(out, z, weight)[i]
    {
      RowEnd(h, heads, n);
      var base := h * n;
      var sumSq := SquaresOf(out, base, n);
      var rms := math.sqrt(Div(sumSq, n as real) + eps);
      for d := 0 to n
        invariant forall i :: 0 <= i < base + d ==> o[i] == m.GatedNorm(out, z, weight)[i]
      {
        GatedCell(m, out, z, weight, h, d);
        var g := At(z, base + d);
        var silu := Div(g, 1.0 + math.exp(-g));
        o[base + d] := Mul(Div(Mul(At(weight, d), out[base + d]), rms), silu);
      }
      NextRow(h, n);
    }
    normed := o[..];
  }
}
