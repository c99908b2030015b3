/** The shared-memory tree reduction that every cooperative kernel ends with. */
module TreeReduction {
  import opened Sums
  import opened Workgroup

  /** A lane's private scalars: two reduction operands and the value broadcast from cell 0. */
  datatype Regs = Regs(a: real, b: real, top: real)

  const TAKE_A: (Regs, real) -> Regs := (r: Regs, v: real) => r.(a := v)
  const TAKE_B: (Regs, real) -> Regs := (r: Regs, v: real) => r.(b := v)
  const TAKE_TOP: (Regs, real) -> Regs := (r: Regs, v: real) => r.(top := v)

  /** Associative and commutative: what a reduction in tree order needs of its operator. */
  ghost predicate Reducible(op: (real, real) -> real) {
    && (forall a, b :: Commutes(op, a, b))
    && (forall a, b, c :: Associates(op, a, b, c))
  }

  ghost predicate Commutes(op: (real, real) -> real, a: real, b: real) {
    op(a, b) == op(b, a)
  }

  ghost predicate Associates(op: (real, real) -> real, a: real, b: real, c: real) {
    op(op(a, b), c) == op(a, op(b, c))
  }

  /** m[lo] op m[lo+1] op ... , count operands. */
  function Fold(op: (real, real) -> real, m: Memory, lo: nat, count: nat): real
    requires count > 0 && lo + count <= |m|
  {
    if count == 1 then m[lo] else op(Fold(op, m, lo, count - 1), m[lo + count - 1])
  }

  /** One halving: lane i < stride folds cell i + stride into cell i. */
  function HalveCode(lane: nat, stride: nat, op: (real, real) -> real): Code<Regs> {
    if lane < stride then
      [Load(lane, TAKE_A), Load(lane + stride, TAKE_B), Store(lane, (r: Regs) => op(r.a, r.b))]
    else []
  }

  function HalvePhase(lanes: nat, stride: nat, op: (real, real) -> real): (p: Phase<Regs>)
    ensures |p| == lanes
  {
    seq(lanes, lane requires 0 <= lane < lanes => HalveCode(lane, stride, op))
  }

  /** Strides stride, stride / 2, ... down to and including stop. */
  function TreeKernel(lanes: nat, stride: nat, stop: nat, op: (real, real) -> real): Kernel<Regs>
    requires stop > 0
    decreases stride
  {
    if stride < stop then []
    else [HalvePhase(lanes, stride, op)] + TreeKernel(lanes, stride / 2, stop, op)
  }

  /** stride is stop * 2^k: each halving down to stop is exact. */
  predicate HalvesTo(stride: nat, stop: nat)
    requires stop > 0
    decreases stride
  {
    stride == stop || (stride > stop && stride % 2 == 0 && HalvesTo(stride / 2, stop))
  }

  lemma HalveRaceFree(lanes: nat, stride: nat, op: (real, real) -> real)
    ensures PhaseRaceFree(HalvePhase(lanes, stride, op))
  {
    var phase := HalvePhase(lanes, stride, op);
    forall i, j, addr: nat | 0 <= i < |phase| && 0 <= j < |phase| && i != j && Writes(phase[i], addr)
      ensures !Touches(phase[j], addr)
    {
      assert phase[i] == HalveCode(i, stride, op) && phase[j] == HalveCode(j, stride, op);
    }
  }

  /** What one halving leaves in memory. */
  lemma HalveMeaning(lanes: nat, stride: nat, op: (real, real) -> real, regs: seq<Regs>, mem: Memory)
    requires |regs| == lanes && 0 < stride <= lanes && 2 * stride <= |mem|
    ensures forall i :: 0 <= i < lanes ==> CodeOk(HalvePhase(lanes, stride, op)[i], |mem|)
    ensures var m := PhaseMem(HalvePhase(lanes, stride, op), regs, mem);
      && (forall i :: 0 <= i < stride ==> m[i] == op(mem[i], mem[i + stride]))
      && (forall i :: stride <= i < |mem| ==> m[i] == mem[i])
  {
    var phase := HalvePhase(lanes, stride, op);
    forall i | 0 <= i < lanes
      ensures phase[i] == HalveCode(i, stride, op) && CodeOk(phase[i], |mem|)
    {}
    HalveRaceFree(lanes, stride, op);
    forall i | 0 <= i < stride
      ensures PhaseMem(phase, regs, mem)[i] == op(mem[i], mem[i + stride])
    {
      var code := phase[i];
      assert Writes(code, i) by { assert code[2].Store?; }
      WriterDecides(phase, regs, mem, i, i);
      assert Solo(code, 1, regs[i], mem) == (regs[i].(a := mem[i]), mem) by {
        assert Solo(code, 0, regs[i], mem) == (regs[i], mem);
      }
      assert Solo(code, 2, regs[i], mem) == (regs[i].(a := mem[i], b := mem[i + stride]), mem);
      assert Solo(code, 3, regs[i], mem).1 == mem[i := op(mem[i], mem[i + stride])];
    }
    forall i | stride <= i < |mem|
      ensures PhaseMem(phase, regs, mem)[i] == mem[i]
    {
      forall j | 0 <= j < lanes
        ensures !Writes(phase[j], i)
      {}
    }
  }

  lemma {:induction false} FoldJoin(op: (real, real) -> real, m: Memory, lo: nat, j: nat, k: nat)
    requires Reducible(op) && j > 0 && k > 0 && lo + j + k <= |m|
    ensures Fold(op, m, lo, j + k) == op(Fold(op, m, lo, j), Fold(op, m, lo + j, k))
  {
    if k > 1 {
      FoldJoin(op, m, lo, j, k - 1);
      assert Associates(op, Fold(op, m, lo, j), Fold(op, m, lo + j, k - 1), m[lo + j + k - 1]);
    }
  }

  /** Folding pairs (i, i + stride) and then the pairs' results folds everything. */
  lemma {:induction false} FoldZip(op: (real, real) -> real, m: Memory, m': Memory, stride: nat, k: nat)
    requires Reducible(op) && 0 < k <= stride && 2 * stride <= |m| == |m'|
    requires forall i :: 0 <= i < stride ==> m'[i] == op(m[i], m[i + stride])
    ensures Fold(op, m', 0, k) == op(Fold(op, m, 0, k), Fold(op, m, stride, k))
  {
    if k > 1 {
      FoldZip(op, m, m', stride, k - 1);
      var a, b := Fold(op, m, 0, k - 1), Fold(op, m, stride, k - 1);
      var c, d := m[k - 1], m[stride + k - 1];
      assert Associates(op, a, b, op(c, d)) && Associates(op, b, c, d) && Commutes(op, b, c);
      assert Associates(op, c, b, d) && Associates(op, a, c, op(b, d));
    }
  }

  lemma {:induction false} TreeOk(lanes: nat, stride: nat, stop: nat, op: (real, real) -> real, cells: nat)
    requires stop > 0 && stride <= lanes && 2 * stride <= cells
    ensures KernelOk(TreeKernel(lanes, stride, stop, op), lanes, cells)
    ensures RaceFree(TreeKernel(lanes, stride, stop, op))
    decreases stride
  {
    if stride >= stop {
      HalveRaceFree(lanes, stride, op);
      TreeOk(lanes, stride / 2, stop, op, cells);
      forall i | 0 <= i < lanes
        ensures CodeOk(HalvePhase(lanes, stride, op)[i], cells)
      {}
    }
  }

  /** The reduction leaves the fold of the first 2 * stride cells in the first stop cells, and
      touches no cell past them. */
  lemma {:induction false} TreeReduces(lanes: nat, stride: nat, stop: nat, op: (real, real) -> real,
                                       regs: seq<Regs>, mem: Memory)
    requires Reducible(op) && stop > 0 && HalvesTo(stride, stop)
    requires |regs| == lanes && stride <= lanes && 2 * stride <= |mem|
    ensures KernelOk(TreeKernel(lanes, stride, stop, op), lanes, |mem|)
    ensures var m := Meaning(TreeKernel(lanes, stride, stop, op), 0, regs, mem).1;
      && Fold(op, m, 0, stop) == Fold(op, mem, 0, 2 * stride)
      && forall i :: stride <= i < |mem| ==> m[i] == mem[i]
    decreases stride
  {
    hide HalvePhase, PhaseMem, PhaseRegs, CodeOk, Reducible, Fold;
    var phase := HalvePhase(lanes, stride, op);
    var rest := TreeKernel(lanes, stride / 2, stop, op);
    TreeOk(lanes, stride, stop, op, |mem|);
    TreeOk(lanes, stride / 2, stop, op, |mem|);
    assert forall i :: 0 <= i < lanes ==> CodeOk(phase[i], |mem|) by { HalveMeaning(lanes, stride, op, regs, mem); }
    MeaningCons(phase, rest, regs, mem);
    var regs1, mem1 := PhaseRegs(phase, regs, mem), PhaseMem(phase, regs, mem);
    assert Fold(op, mem1, 0, stride) == Fold(op, mem, 0, 2 * stride) by {
      HalveMeaning(lanes, stride, op, regs, mem);
      FoldHalves(op, mem, mem1, stride);
    }
    assert forall i :: stride <= i < |mem| ==> mem1[i] == mem[i] by { HalveMeaning(lanes, stride, op, regs, mem); }
    if stride > stop {
      TreeReduces(lanes, stride / 2, stop, op, regs1, mem1);
    }
  }

  lemma FoldHalves(op: (real, real) -> real, m: Memory, m': Memory, stride: nat)
    requires Reducible(op) && 0 < stride && 2 * stride <= |m| == |m'|
    requires forall i :: 0 <= i < stride ==> m'[i] == op(m[i], m[i + stride])
    ensures Fold(op, m', 0, stride) == Fold(op, m, 0, 2 * stride)
  {
    FoldZip(op, m, m', stride, stride);
    FoldJoin(op, m, 0, stride, stride);
  }

  lemma MeaningCons<L>(phase: Phase<L>, rest: Kernel<L>, regs: seq<L>, mem: Memory)
    requires |phase| == |regs| && (forall i :: 0 <= i < |phase| ==> CodeOk(phase[i], |mem|))
    requires KernelOk(rest, |regs|, |mem|)
    ensures KernelOk([phase] + rest, |regs|, |mem|)
    ensures Meaning([phase] + rest, 0, regs, mem)
      == Meaning(rest, 0, PhaseRegs(phase, regs, mem), PhaseMem(phase, regs, mem))
  {
    assert ([phase] + rest)[0] == phase;
    MeaningSuffix([phase], rest, 0, PhaseRegs(phase, regs, mem), PhaseMem(phase, regs, mem));
  }

  /** Running k2 after k1 is running k1 + k2 from where k1 ends. */
  lemma {:induction false} MeaningSuffix<L>(k1: Kernel<L>, k2: Kernel<L>, q: nat, regs: seq<L>, mem: Memory)
    requires q <= |k2| && KernelOk(k1 + k2, |regs|, |mem|) && KernelOk(k2, |regs|, |mem|)
    ensures Meaning(k1 + k2, |k1| + q, regs, mem) == Meaning(k2, q, regs, mem)
    decreases |k2| - q
  {
    if q < |k2| {
      assert (k1 + k2)[|k1| + q] == k2[q];
      MeaningSuffix(k1, k2, q + 1, PhaseRegs(k2[q], regs, mem), PhaseMem(k2[q], regs, mem));
    }
  }

  lemma {:induction false} MeaningJoin<L>(k1: Kernel<L>, k2: Kernel<L>, p: nat, regs: seq<L>, mem: Memory)
    requires p <= |k1| && KernelOk(k1, |regs|, |mem|) && KernelOk(k2, |regs|, |mem|)
    ensures KernelOk(k1 + k2, |regs|, |mem|)
    ensures Meaning(k1 + k2, p, regs, mem)
      == (var (r, m) := Meaning(k1, p, regs, mem); Meaning(k2, 0, r, m))
    decreases |k1| - p
  {
    if p < |k1| {
      assert (k1 + k2)[p] == k1[p];
      MeaningJoin(k1, k2, p + 1, PhaseRegs(k1[p], regs, mem), PhaseMem(k1[p], regs, mem));
    } else {
      MeaningSuffix(k1, k2, 0, regs, mem);
    }
  }

  lemma RaceFreeJoin<L>(k1: Kernel<L>, k2: Kernel<L>)
    requires RaceFree(k1) && RaceFree(k2)
    ensures RaceFree(k1 + k2)
  {}

  const PLUS: (real, real) -> real := (a: real, b: real) => a + b
  const MAX: (real, real) -> real := (a: real, b: real) => Max(a, b)

  lemma PlusIsReducible()
    ensures Reducible(PLUS)
  {}

  lemma MaxIsReducible()
    ensures Reducible(MAX)
  {}

  lemma {:induction false} FoldPlus(m: Memory, count: nat, f: int -> real)
    requires 0 < count <= |m| && forall i :: 0 <= i < count ==> m[i] == f(i)
    ensures Fold(PLUS, m, 0, count) == Sum(count, f)
  {
    if count > 1 { FoldPlus(m, count - 1, f); } else { assert Sum(1, f) == Sum(0, f) + f(0); }
  }

  lemma {:induction false} FoldMax(m: Memory, count: nat)
    requires 0 < count <= |m|
    ensures forall i :: 0 <= i < count ==> m[i] <= Fold(MAX, m, 0, count)
    ensures exists i :: 0 <= i < count && m[i] == Fold(MAX, m, 0, count)
  {
    if count > 1 {
      FoldMax(m, count - 1);
      var i :| 0 <= i < count - 1 && m[i] == Fold(MAX, m, 0, count - 1);
      assert m[if m[i] < m[count - 1] then count - 1 else i] == Fold(MAX, m, 0, count);
    } else {
      assert m[0] == Fold(MAX, m, 0, count);
    }
  }
}
