/** The cooperative kernels as lane programs: fused residual-add + RMSNorm, attention softmax,
    and the cross-lane sum of a matmul row. Shared memory comes first in the address space,
    the kernel's output arrays after it. */
module WorkgroupKernels {
  import opened Sums
  import opened Striding
  import opened Elementary
  import opened Workgroup
  import opened TreeReduction

  // ---- Strided loops of a lane ----

  /** for j in i, i + step, .. < n: mem[base + j] := give(j, regs) */
  function StoreLoop(base: nat, i: nat, step: nat, n: nat, give: (int, Regs) -> real): Code<Regs>
    requires step > 0
    decreases n - i
  {
    if i >= n then []
    else [Store(base + i, (r: Regs) => give(i, r))] + StoreLoop(base, i + step, step, n, give)
  }

  /** for j in i, i + step, .. < n: mem[dst + j] := give(j, regs with a == mem[src + j]) */
  function MapLoop(src: nat, dst: nat, i: nat, step: nat, n: nat, give: (int, Regs) -> real): Code<Regs>
    requires step > 0
    decreases n - i
  {
    if i >= n then []
    else [Load(src + i, TAKE_A), Store(dst + i, (r: Regs) => give(i, r))] + MapLoop(src, dst, i + step, step, n, give)
  }

  lemma {:induction false} SoloJoin<L>(c1: Code<L>, c2: Code<L>, k: nat, regs: L, mem: Memory)
    requires k <= |c2| && CodeOk(c1, |mem|) && CodeOk(c2, |mem|)
    ensures CodeOk(c1 + c2, |mem|)
    ensures Solo(c1 + c2, |c1| + k, regs, mem)
      == (var (r, m) := Solo(c1, |c1|, regs, mem); Solo(c2, k, r, m))
  {
    if k == 0 {
      SoloPrefix(c1, c2, |c1|, regs, mem);
    } else {
      SoloJoin(c1, c2, k - 1, regs, mem);
      assert (c1 + c2)[|c1| + k - 1] == c2[k - 1];
    }
  }

  lemma {:induction false} SoloPrefix<L>(c1: Code<L>, c2: Code<L>, k: nat, regs: L, mem: Memory)
    requires k <= |c1| && CodeOk(c1, |mem|) && CodeOk(c2, |mem|)
    ensures CodeOk(c1 + c2, |mem|)
    ensures Solo(c1 + c2, k, regs, mem) == Solo(c1, k, regs, mem)
  {
    if k > 0 { SoloPrefix(c1, c2, k - 1, regs, mem); }
  }

  lemma TouchesJoin<L>(c1: Code<L>, c2: Code<L>, addr: nat)
    ensures Touches(c1 + c2, addr) <==> Touches(c1, addr) || Touches(c2, addr)
    ensures Writes(c1 + c2, addr) <==> Writes(c1, addr) || Writes(c2, addr)
  {
    var c := c1 + c2;
    if k :| 0 <= k < |c1| && c1[k].addr == addr { assert c[k].addr == addr; }
    if k :| 0 <= k < |c2| && c2[k].addr == addr { assert c[|c1| + k].addr == addr; }
    if k :| 0 <= k < |c1| && c1[k].Store? && c1[k].addr == addr { assert c[k] == c1[k]; }
    if k :| 0 <= k < |c2| && c2[k].Store? && c2[k].addr == addr { assert c[|c1| + k] == c2[k]; }
  }

  lemma TouchesOne<L>(instr: Instr<L>, addr: nat)
    ensures Touches([instr], addr) <==> instr.addr == addr
    ensures Writes([instr], addr) <==> instr.Store? && instr.addr == addr
  {
    assert [instr][0] == instr;
  }

  lemma {:induction false} StoreLoopSolo(base: nat, i: nat, step: nat, n: nat, give: (int, Regs) -> real,
                                         regs: Regs, mem: Memory)
    requires step > 0 && base + n <= |mem|
    ensures var code := StoreLoop(base, i, step, n, give);
      && CodeOk(code, |mem|)
      && (var (r, m) := Solo(code, |code|, regs, mem);
          && r == regs
          && (forall j :: 0 <= j < n ==>
                m[base + j] == if InStride(j, i, step, n) then give(j, regs) else mem[base + j])
          && (forall a :: 0 <= a < |mem| && !(base <= a < base + n) ==> m[a] == mem[a]))
    decreases n - i
  {
    hide Solo;
    if i >= n {
      SoloNone<Regs>([], regs, mem);
    } else {
      hide InStride;
      var head: Code<Regs> := [Store(base + i, (r: Regs) => give(i, r))];
      var rest := StoreLoop(base, i + step, step, n, give);
      var mem1 := mem[base + i := give(i, regs)];
      SoloNone(head, regs, mem);
      SoloStep(head, 0, regs, mem);
      StoreLoopSolo(base, i + step, step, n, give, regs, mem1);
      SoloJoin(head, rest, |rest|, regs, mem);
      var m := Solo(rest, |rest|, regs, mem1).1;
      forall j | 0 <= j < n
        ensures m[base + j] == if InStride(j, i, step, n) then give(j, regs) else mem[base + j]
      {
        InStrideNext(j, i, step, n);
      }
    }
  }

  lemma {:induction false} StoreLoopCells(base: nat, i: nat, step: nat, n: nat, give: (int, Regs) -> real, addr: nat)
    requires step > 0
    ensures var code := StoreLoop(base, i, step, n, give);
      && (Touches(code, addr) <==> InStride(addr - base, i, step, n))
      && (Writes(code, addr) <==> InStride(addr - base, i, step, n))
    decreases n - i
  {
    if i < n {
      var head: Code<Regs> := [Store(base + i, (r: Regs) => give(i, r))];
      var rest := StoreLoop(base, i + step, step, n, give);
      StoreLoopCells(base, i + step, step, n, give, addr);
      TouchesJoin(head, rest, addr);
      if addr == base + i { assert head[0].Store? && head[0].addr == addr; }
    }
  }

  lemma {:induction false} MapLoopSolo(src: nat, dst: nat, i: nat, step: nat, n: nat, give: (int, Regs) -> real,
                                       regs: Regs, mem: Memory)
    requires step > 0 && src + n <= dst && dst + n <= |mem|
    ensures var code := MapLoop(src, dst, i, step, n, give);
      && CodeOk(code, |mem|)
      && (var (r, m) := Solo(code, |code|, regs, mem);
          && r.top == regs.top && r.b == regs.b
          && (forall j :: 0 <= j < n ==>
                m[dst + j] == if InStride(j, i, step, n) then give(j, regs.(a := mem[src + j])) else mem[dst + j])
          && (forall a :: 0 <= a < |mem| && !(dst <= a < dst + n) ==> m[a] == mem[a]))
    decreases n - i
  {
    hide Solo;
    if i >= n {
      SoloNone<Regs>([], regs, mem);
    } else {
      hide InStride;
      var head: Code<Regs> := [Load(src + i, TAKE_A), Store(dst + i, (r: Regs) => give(i, r))];
      var rest := MapLoop(src, dst, i + step, step, n, give);
      var regs1 := regs.(a := mem[src + i]);
      var mem1 := mem[dst + i := give(i, regs1)];
      SoloNone(head, regs, mem);
      SoloStep(head, 0, regs, mem);
      SoloStep(head, 1, regs, mem);
      MapLoopSolo(src, dst, i + step, step, n, give, regs1, mem1);
      SoloJoin(head, rest, |rest|, regs, mem);
      var m := Solo(rest, |rest|, regs1, mem1).1;
      forall j | 0 <= j < n
        ensures m[dst + j] == if InStride(j, i, step, n) then give(j, regs.(a := mem[src + j])) else mem[dst + j]
      {
        InStrideNext(j, i, step, n);
        assert mem1[src + j] == mem[src + j];
      }
    }
  }

  /** A load of cell 0 before the loop. */
  lemma TopThenMap(src: nat, dst: nat, i: nat, step: nat, n: nat, give: (int, Regs) -> real, regs: Regs, mem: Memory)
    requires step > 0 && src + n <= dst && dst + n <= |mem| && mem != []
    ensures var code := [Load(0, TAKE_TOP)] + MapLoop(src, dst, i, step, n, give);
      && CodeOk(code, |mem|)
      && forall j :: 0 <= j < n && InStride(j, i, step, n) ==>
           Solo(code, |code|, regs, mem).1[dst + j] == give(j, regs.(top := mem[0], a := mem[src + j]))
  {
    hide Solo, MapLoop, InStride;
    var head: Code<Regs> := [Load(0, TAKE_TOP)];
    var loop := MapLoop(src, dst, i, step, n, give);
    SoloNone(head, regs, mem);
    SoloStep(head, 0, regs, mem);
    MapLoopSolo(src, dst, i, step, n, give, regs.(top := mem[0]), mem);
    SoloJoin(head, loop, |loop|, regs, mem);
  }

  lemma {:induction false} MapLoopCells(src: nat, dst: nat, i: nat, step: nat, n: nat, give: (int, Regs) -> real,
                                        addr: nat)
    requires step > 0
    ensures var code := MapLoop(src, dst, i, step, n, give);
      && (Touches(code, addr) <==> InStride(addr - src, i, step, n) || InStride(addr - dst, i, step, n))
      && (Writes(code, addr) <==> InStride(addr - dst, i, step, n))
    decreases n - i
  {
    if i < n {
      var head: Code<Regs> := [Load(src + i, TAKE_A), Store(dst + i, (r: Regs) => give(i, r))];
      var rest := MapLoop(src, dst, i + step, step, n, give);
      MapLoopCells(src, dst, i + step, step, n, give, addr);
      TouchesJoin(head, rest, addr);
      if addr == src + i { assert head[0].addr == addr; }
      if addr == dst + i { assert head[1].Store? && head[1].addr == addr; }
    }
  }

  predicate PowerOfTwo(lanes: nat) {
    lanes == 1 || (lanes > 1 && lanes % 2 == 0 && HalvesTo(lanes / 2, 1))
  }

  lemma TreeLeaves(lanes: nat, regs: seq<Regs>, mem: Memory, op: (real, real) -> real)
    requires PowerOfTwo(lanes) && |regs| == lanes <= |mem| && Reducible(op)
    requires KernelOk(TreeKernel(lanes, lanes / 2, 1, op), lanes, |mem|)
    ensures var m := Meaning(TreeKernel(lanes, lanes / 2, 1, op), 0, regs, mem).1;
      m[0] == Fold(op, mem, 0, lanes) && m[lanes..] == mem[lanes..]
  {
    var m := Meaning(TreeKernel(lanes, lanes / 2, 1, op), 0, regs, mem).1;
    assert Fold(op, m, 0, 1) == Fold(op, mem, 0, lanes) && m[lanes..] == mem[lanes..] by {
      if lanes > 1 {
        assert 2 * (lanes / 2) == lanes;
        TreeReduces(lanes, lanes / 2, 1, op, regs, mem);
      }
    }
  }

  /** A tree over `lanes` cells that hold f leaves the sum of f in cell 0 and cells past them alone. */
  lemma TreeSums(lanes: nat, regs: seq<Regs>, mem: Memory, f: int -> real)
    requires PowerOfTwo(lanes) && |regs| == lanes <= |mem|
    requires forall i :: 0 <= i < lanes ==> mem[i] == f(i)
    ensures var tree := TreeKernel(lanes, lanes / 2, 1, PLUS);
      && KernelOk(tree, lanes, |mem|) && RaceFree(tree)
      && (var m := Meaning(tree, 0, regs, mem).1;
          m[0] == Sum(lanes, f) && m[lanes..] == mem[lanes..])
  {
    TreeOk(lanes, lanes / 2, 1, PLUS, |mem|);
    PlusIsReducible();
    TreeLeaves(lanes, regs, mem, PLUS);
    FoldPlus(mem, lanes, f);
  }

  /** The same tree with max: cell 0 ends with the greatest of the lanes' cells. */
  lemma TreeMaxes(lanes: nat, regs: seq<Regs>, mem: Memory)
    requires PowerOfTwo(lanes) && |regs| == lanes <= |mem|
    ensures var tree := TreeKernel(lanes, lanes / 2, 1, MAX);
      && KernelOk(tree, lanes, |mem|) && RaceFree(tree)
      && (var m := Meaning(tree, 0, regs, mem).1;
          && (forall i :: 0 <= i < lanes ==> mem[i] <= m[0])
          && (exists i :: 0 <= i < lanes && mem[i] == m[0])
          && m[lanes..] == mem[lanes..])
  {
    TreeOk(lanes, lanes / 2, 1, MAX, |mem|);
    MaxIsReducible();
    TreeLeaves(lanes, regs, mem, MAX);
    FoldMax(mem, lanes);
  }

  // ---- The phase that fills an array slice and leaves a partial result in shared memory ----

  /** The lane's slice of the array at cell `lanes`, then its partial result into its own shared cell. */
  function FillCode(lanes: nat, lane: nat, n: nat, give: (int, Regs) -> real, part: (int, Regs) -> real): Code<Regs>
    requires lanes > 0
  {
    StoreLoop(lanes, lane, lanes, n, give) + [Store(lane, (r: Regs) => part(lane, r))]
  }

  function FillPhase(lanes: nat, n: nat, give: (int, Regs) -> real, part: (int, Regs) -> real): Phase<Regs>
    requires lanes > 0
  {
    seq(lanes, lane requires 0 <= lane < lanes => FillCode(lanes, lane, n, give, part))
  }

  lemma FillCells(lanes: nat, lane: nat, n: nat, give: (int, Regs) -> real, part: (int, Regs) -> real, addr: nat)
    requires lane < lanes
    ensures var code := FillCode(lanes, lane, n, give, part);
      && (Touches(code, addr) <==> addr == lane || InStride(addr - lanes, lane, lanes, n))
      && (Writes(code, addr) <==> Touches(code, addr))
  {
    var last: Code<Regs> := [Store(lane, (r: Regs) => part(lane, r))];
    StoreLoopCells(lanes, lane, lanes, n, give, addr);
    TouchesJoin(StoreLoop(lanes, lane, lanes, n, give), last, addr);
    if addr == lane { assert last[0].Store? && last[0].addr == addr; }
  }

  lemma FillSolo(lanes: nat, lane: nat, n: nat, give: (int, Regs) -> real, part: (int, Regs) -> real,
                 regs: Regs, mem: Memory)
    requires lane < lanes && lanes + n <= |mem|
    ensures var code := FillCode(lanes, lane, n, give, part);
      && CodeOk(code, |mem|)
      && (var m := Solo(code, |code|, regs, mem).1;
          && m[lane] == part(lane, regs)
          && forall j :: 0 <= j < n && InStride(j, lane, lanes, n) ==> m[lanes + j] == give(j, regs))
  {
    var loop := StoreLoop(lanes, lane, lanes, n, give);
    var last: Code<Regs> := [Store(lane, (r: Regs) => part(lane, r))];
    StoreLoopSolo(lanes, lane, lanes, n, give, regs, mem);
    SoloJoin(loop, last, 1, regs, mem);
    var (r1, m1) := Solo(loop, |loop|, regs, mem);
    assert Solo(last, 0, r1, m1) == (r1, m1);
  }

  lemma FillRaceFree(lanes: nat, n: nat, give: (int, Regs) -> real, part: (int, Regs) -> real)
    requires lanes > 0
    ensures PhaseRaceFree(FillPhase(lanes, n, give, part))
  {
    var phase := FillPhase(lanes, n, give, part);
    forall i, j, addr: nat | 0 <= i < lanes && 0 <= j < lanes && i != j && Writes(phase[i], addr)
      ensures !Touches(phase[j], addr)
    {
      FillCells(lanes, i, n, give, part, addr);
      FillCells(lanes, j, n, give, part, addr);
      if addr != i && Touches(phase[j], addr) && addr != j { OwnerUnique(addr - lanes, i, j, lanes, n); }
    }
  }

  lemma FillOk(lanes: nat, n: nat, give: (int, Regs) -> real, part: (int, Regs) -> real, cells: nat)
    requires lanes > 0 && lanes + n <= cells
    ensures forall i :: 0 <= i < lanes ==> CodeOk(FillPhase(lanes, n, give, part)[i], cells)
  {
    forall i | 0 <= i < lanes
      ensures CodeOk(FillPhase(lanes, n, give, part)[i], cells)
    {
      FillSolo(lanes, i, n, give, part, Regs(0.0, 0.0, 0.0), seq(cells, _ => 0.0));
    }
  }

  lemma FillsPart(lanes: nat, n: nat, give: (int, Regs) -> real, part: (int, Regs) -> real,
                  regs: seq<Regs>, mem: Memory, lane: nat)
    requires lane < lanes == |regs| && lanes + n <= |mem|
    requires forall i :: 0 <= i < lanes ==> CodeOk(FillPhase(lanes, n, give, part)[i], |mem|)
    ensures PhaseMem(FillPhase(lanes, n, give, part), regs, mem)[lane] == part(lane, regs[lane])
  {
    var phase := FillPhase(lanes, n, give, part);
    FillRaceFree(lanes, n, give, part);
    FillSolo(lanes, lane, n, give, part, regs[lane], mem);
    FillCells(lanes, lane, n, give, part, lane);
    WriterDecides(phase, regs, mem, lane, lane);
  }

  /** Element j of the filled array is what its owning lane gives. */
  lemma FillsElement(lanes: nat, n: nat, give: (int, Regs) -> real, part: (int, Regs) -> real,
                     regs: seq<Regs>, mem: Memory, j: nat) returns (lane: nat)
    requires 0 < lanes == |regs| && lanes + n <= |mem| && j < n
    requires forall i :: 0 <= i < lanes ==> CodeOk(FillPhase(lanes, n, give, part)[i], |mem|)
    ensures lane < lanes
    ensures PhaseMem(FillPhase(lanes, n, give, part), regs, mem)[lanes + j] == give(j, regs[lane])
  {
    var phase := FillPhase(lanes, n, give, part);
    FillRaceFree(lanes, n, give, part);
    lane := OwnerOf(j, lanes, n);
    FillSolo(lanes, lane, n, give, part, regs[lane], mem);
    FillCells(lanes, lane, n, give, part, lanes + j);
    WriterDecides(phase, regs, mem, lane, lanes + j);
  }

  /** One phase, a reduction, one more phase. */
  lemma Compose<L>(first: Phase<L>, middle: Kernel<L>, last: Phase<L>, regs: seq<L>, mem: Memory)
    requires |first| == |last| == |regs| && KernelOk(middle, |regs|, |mem|)
    requires forall i :: 0 <= i < |regs| ==> CodeOk(first[i], |mem|) && CodeOk(last[i], |mem|)
    requires PhaseRaceFree(first) && RaceFree(middle) && PhaseRaceFree(last)
    ensures KernelOk([first] + middle + [last], |regs|, |mem|) && RaceFree([first] + middle + [last])
    ensures Meaning([first] + middle + [last], 0, regs, mem)
      == (var (r, m) := Meaning(middle, 0, PhaseRegs(first, regs, mem), PhaseMem(first, regs, mem));
          (PhaseRegs(last, r, m), PhaseMem(last, r, m)))
  {
    var regs1, mem1 := PhaseRegs(first, regs, mem), PhaseMem(first, regs, mem);
    var (regs2, mem2) := Meaning(middle, 0, regs1, mem1);
    MeaningCons(last, [], regs2, mem2);
    MeaningJoin(middle, [last], 0, regs1, mem1);
    MeaningCons(first, middle + [last], regs, mem);
    assert [first] + middle + [last] == [first] + (middle + [last]);
  }

  // ---- Fused residual add and RMSNorm ----

  /** One launch of `add_residual_rms_norm`. Cells: `lanes` of shared memory, then new_x, then normed. */
  datatype NormJob = NormJob(lanes: nat, x: Vec, delta: Vec, weight: Vec, eps: real, math: Math) {

    function N(): nat { |x| }
    function NewX(): nat { lanes }
    function Normed(): nat { lanes + |x| }
    function Cells(): nat { lanes + 2 * |x| }

    function Sum2(): int -> real { (j: int) => (At(x, j) + At(delta, j)) * (At(x, j) + At(delta, j)) }
    function Rms0(total: real): real { math.sqrt(Div(total, |x| as real) + eps) }

    function Gathered(): (int, Regs) -> real { (j: int, r: Regs) => At(x, j) + At(delta, j) }
    function Partial(): (int, Regs) -> real
      requires lanes > 0
    {
      (lane: int, r: Regs) => if lane >= 0 then StrideSum(lane, lanes, N(), Sum2()) else 0.0
    }

    /** Each lane's slice of new_x, then its partial sum of squares into shared memory. */
    function GatherPhase(): Phase<Regs>
      requires lanes > 0
    {
      FillPhase(lanes, N(), Gathered(), Partial())
    }

    /** The shared total, then the lane's slice of new_x scaled into normed. */
    function ScaleCode(lane: nat): Code<Regs>
      requires lanes > 0
    {
      [Load(0, TAKE_TOP)]
      + MapLoop(NewX(), Normed(), lane, lanes, N(), (j: int, r: Regs) => Div(r.a, Rms0(r.top)) * At(weight, j))
    }

    function ScalePhase(): (p: Phase<Regs>)
      requires lanes > 0
      ensures |p| == lanes
    {
      seq(lanes, lane requires 0 <= lane < lanes => ScaleCode(lane))
    }

    function Kernel(): Kernel<Regs>
      requires lanes > 0
    {
      [GatherPhase()] + TreeKernel(lanes, lanes / 2, 1, PLUS) + [ScalePhase()]
    }

    lemma ScaleCells(lane: nat, addr: nat)
      requires lane < lanes
      ensures Writes(ScaleCode(lane), addr) <==> InStride(addr - Normed(), lane, lanes, N())
      ensures Touches(ScaleCode(lane), addr) ==>
        addr == 0 || lanes <= addr < Normed() || Writes(ScaleCode(lane), addr)
    {
      var give := (j: int, r: Regs) => Div(r.a, Rms0(r.top)) * At(weight, j);
      var head: Code<Regs> := [Load(0, TAKE_TOP)];
      MapLoopCells(NewX(), Normed(), lane, lanes, N(), give, addr);
      TouchesJoin(head, MapLoop(NewX(), Normed(), lane, lanes, N(), give), addr);
    }

    lemma ScaleSolo(lane: nat, regs: Regs, mem: Memory)
      requires lane < lanes && |mem| == Cells()
      ensures CodeOk(ScaleCode(lane), |mem|)
      ensures var m := Solo(ScaleCode(lane), |ScaleCode(lane)|, regs, mem).1;
        forall j :: 0 <= j < N() && InStride(j, lane, lanes, N()) ==>
          m[Normed() + j] == Div(mem[NewX() + j], Rms0(mem[0])) * At(weight, j)
    {
      var give := (j: int, r: Regs) => Div(r.a, Rms0(r.top)) * At(weight, j);
      hide Solo, MapLoop, CodeOk, InStride;
      TopThenMap(NewX(), Normed(), lane, lanes, N(), give, regs, mem);
    }

    lemma ScaleRaceFree()
      requires lanes > 0
      ensures PhaseRaceFree(ScalePhase())
    {
      var phase := ScalePhase();
      forall i, j, addr: nat | 0 <= i < lanes && 0 <= j < lanes && i != j && Writes(phase[i], addr)
        ensures !Touches(phase[j], addr)
      {
        ScaleCells(i, addr);
        ScaleCells(j, addr);
        if Touches(phase[j], addr) { OwnerUnique(addr - Normed(), i, j, lanes, N()); }
      }
    }

    lemma ScaleOk(cells: nat)
      requires lanes > 0 && cells == Cells()
      ensures forall i :: 0 <= i < lanes ==> CodeOk(ScalePhase()[i], cells)
    {
      var mem := seq(cells, _ => 0.0);
      forall i | 0 <= i < lanes
        ensures CodeOk(ScalePhase()[i], cells)
      {
        ScaleSolo(i, Regs(0.0, 0.0, 0.0), mem);
      }
    }

    lemma ScaleMeaning(regs: seq<Regs>, mem: Memory, j: nat)
      requires lanes > 0 && |regs| == lanes && |mem| == Cells() && j < N()
      requires forall i :: 0 <= i < lanes ==> CodeOk(ScalePhase()[i], |mem|)
      ensures var m := PhaseMem(ScalePhase(), regs, mem);
        && m[Normed() + j] == Div(mem[NewX() + j], Rms0(mem[0])) * At(weight, j)
        && m[NewX() + j] == mem[NewX() + j]
    {
      hide NormJob.Rms0, Div, PhaseMem, NormJob.ScaleCode, CodeOk, Solo;
      ScaledCell(regs, mem, j);
      KeptCell(regs, mem, j);
    }

    lemma ScaledCell(regs: seq<Regs>, mem: Memory, j: nat)
      requires lanes > 0 && |regs| == lanes && |mem| == Cells() && j < N()
      requires forall i :: 0 <= i < lanes ==> CodeOk(ScalePhase()[i], |mem|)
      ensures PhaseMem(ScalePhase(), regs, mem)[Normed() + j] == Div(mem[NewX() + j], Rms0(mem[0])) * At(weight, j)
    {
      hide NormJob.Rms0, Div, PhaseMem, NormJob.ScaleCode, Solo;
      ScaleRaceFree();
      var lane := OwnerOf(j, lanes, N());
      ScaleSolo(lane, regs[lane], mem);
      ScaleCells(lane, Normed() + j);
      WriterDecides(ScalePhase(), regs, mem, lane, Normed() + j);
    }

    lemma KeptCell(regs: seq<Regs>, mem: Memory, j: nat)
      requires lanes > 0 && |regs| == lanes && |mem| == Cells() && j < N()
      requires forall i :: 0 <= i < lanes ==> CodeOk(ScalePhase()[i], |mem|)
      ensures PhaseMem(ScalePhase(), regs, mem)[NewX() + j] == mem[NewX() + j]
    {
      hide NormJob.ScaleCode, Solo;
      forall i | 0 <= i < lanes
        ensures !Writes(ScalePhase()[i], NewX() + j)
      {
        ScaleCells(i, NewX() + j);
      }
    }

    /** The whole kernel is race free, and its memory ends with new_x = x + delta and normed = RMSNorm(new_x). */
    lemma KernelMeaning(regs: seq<Regs>, mem: Memory)
      requires PowerOfTwo(lanes) && |regs| == lanes && |mem| == Cells()
      ensures KernelOk(Kernel(), lanes, |mem|) && RaceFree(Kernel())
      ensures Meaning(Kernel(), 0, regs, mem).1[NewX()..Normed()] == Add(x, delta)
      ensures Meaning(Kernel(), 0, regs, mem).1[Normed()..] == RmsNorm(math, Add(x, delta), weight, eps)
    {
      var gather, tree, scale := GatherPhase(), TreeKernel(lanes, lanes / 2, 1, PLUS), ScalePhase();
      var regs1, mem1 := GatheredState(regs, mem);
      var regs2, mem2 := Meaning(tree, 0, regs1, mem1).0, Meaning(tree, 0, regs1, mem1).1;
      assert forall i :: 0 <= i < lanes ==> CodeOk(scale[i], |mem|) by { ScaleOk(|mem|); }
      assert PhaseRaceFree(scale) by { ScaleRaceFree(); }
      Compose(gather, tree, scale, regs, mem);
      ScaledState(regs2, mem2);
    }

    lemma ScaledState(regs: seq<Regs>, mem: Memory)
      requires lanes > 0 && |regs| == lanes && |mem| == Cells()
      requires forall i :: 0 <= i < lanes ==> CodeOk(ScalePhase()[i], |mem|)
      requires mem[0] == SumSquares(Add(x, delta)) && mem[NewX()..Normed()] == Add(x, delta)
      ensures var m := PhaseMem(ScalePhase(), regs, mem);
        m[NewX()..Normed()] == Add(x, delta) && m[Normed()..] == RmsNorm(math, Add(x, delta), weight, eps)
    {
      hide PhaseMem, RmsNorm, NormJob.ScalePhase, CodeOk, NormJob.Rms0, SumSquares, Div;
      var m := PhaseMem(ScalePhase(), regs, mem);
      forall j | 0 <= j < N()
        ensures m[NewX()..Normed()][j] == Add(x, delta)[j]
        ensures m[Normed()..][j] == RmsNorm(math, Add(x, delta), weight, eps)[j]
      {
        ScaleMeaning(regs, mem, j);
        assert mem[NewX()..Normed()][j] == mem[NewX() + j];
        NormAgrees(j);
      }
    }

    /** (v / rms) * w and w * v / rms are the same number. */
    lemma NormAgrees(j: nat)
      requires j < N()
      ensures Div(Add(x, delta)[j], Rms0(SumSquares(Add(x, delta)))) * At(weight, j)
        == RmsNorm(math, Add(x, delta), weight, eps)[j]
    {
      var v, w, r := Add(x, delta)[j], At(weight, j), Rms0(SumSquares(Add(x, delta)));
      hide Add, SumSquares, Rms, NormJob.Rms0, Div;
      SameRms();
      RmsNormAt(math, Add(x, delta), weight, eps, j);
      DivMul(v, w, r);
    }

    lemma SameRms()
      ensures Rms(math, Add(x, delta), eps) == Rms0(SumSquares(Add(x, delta)))
    {
      hide Add, SumSquares, Div;
    }

    /** After the gather phase and the tree: cell 0 holds the sum of squares and new_x is in place. */
    lemma GatheredState(regs: seq<Regs>, mem: Memory) returns (regs1: seq<Regs>, mem1: Memory)
      requires PowerOfTwo(lanes) && |regs| == lanes && |mem| == Cells()
      ensures PhaseRaceFree(GatherPhase()) && RaceFree(TreeKernel(lanes, lanes / 2, 1, PLUS))
      ensures forall i :: 0 <= i < lanes ==> CodeOk(GatherPhase()[i], |mem|)
      ensures regs1 == PhaseRegs(GatherPhase(), regs, mem) && mem1 == PhaseMem(GatherPhase(), regs, mem)
      ensures KernelOk(TreeKernel(lanes, lanes / 2, 1, PLUS), lanes, |mem|)
      ensures var m := Meaning(TreeKernel(lanes, lanes / 2, 1, PLUS), 0, regs1, mem1).1;
        m[0] == SumSquares(Add(x, delta)) && m[NewX()..Normed()] == Add(x, delta)
    {
      hide Meaning, Solo, StrideSum, SumSquares, Sum, InStride, TreeKernel, PhaseMem, PhaseRegs;
      var give, part := Gathered(), Partial();
      FillRaceFree(lanes, N(), give, part);
      FillOk(lanes, N(), give, part, |mem|);
      regs1, mem1 := PhaseRegs(GatherPhase(), regs, mem), PhaseMem(GatherPhase(), regs, mem);
      var partials := (lane: int) => if lane >= 0 then StrideSum(lane, lanes, N(), Sum2()) else 0.0;
      forall lane | 0 <= lane < lanes
        ensures mem1[lane] == partials(lane)
      {
        FillsPart(lanes, N(), give, part, regs, mem, lane);
      }
      TreeSums(lanes, regs1, mem1, partials);
      PartialsTotal(partials);
      var m := Meaning(TreeKernel(lanes, lanes / 2, 1, PLUS), 0, regs1, mem1).1;
      forall j | 0 <= j < N()
        ensures m[NewX()..Normed()][j] == Add(x, delta)[j]
      {
        assert m[lanes..][j] == mem1[lanes..][j];
        var lane := FillsElement(lanes, N(), give, part, regs, mem, j);
      }
    }

    lemma PartialsTotal(partials: int -> real)
      requires lanes > 0
      requires forall lane :: 0 <= lane < lanes ==> partials(lane) == StrideSum(lane, lanes, N(), Sum2())
      ensures Sum(lanes, partials) == SumSquares(Add(x, delta))
    {
      StridesPartition(lanes, N(), Sum2());
      SumEq(lanes, partials, lane => if lane >= 0 then StrideSum(lane, lanes, N(), Sum2()) else 0.0);
      SumEq(N(), Sum2(), i => At(Add(x, delta), i) * At(Add(x, delta), i));
    }

    /** However the lanes are scheduled, a finished launch holds x + delta and its RMSNorm. */
    lemma EverySchedule(regs: seq<Regs>, mem: Memory, schedule: seq<Choice>, final: Config<Regs>)
      requires PowerOfTwo(lanes) && |regs| == lanes && |mem| == Cells()
      requires Run(Kernel(), Start(regs, mem), schedule, final) && final.phase == |Kernel()|
      ensures |final.mem| == Cells()
      ensures final.mem[NewX()..Normed()] == Add(x, delta)
      ensures final.mem[Normed()..] == RmsNorm(math, Add(x, delta), weight, eps)
    {
      KernelMeaning(regs, mem);
      ScheduleIndependence(Kernel(), regs, mem, schedule, final);
    }
  }

  // ---- Attention softmax over one head's scores ----

  /** One workgroup of `attention_softmax`. Cells: `lanes` of shared memory, the weights, then the sum. */
  datatype SoftmaxJob = SoftmaxJob(lanes: nat, scores: Vec, floor: real, math: Math) {

    function T(): nat { |scores| }
    function Cells(): nat { lanes + |scores| + 1 }

    function Score(): int -> real { (j: int) => At(scores, j) }
    function Weight(top: real): int -> real { (j: int) => math.exp(At(scores, j) - top) }

    function LocalMax(): (int, Regs) -> real
      requires lanes > 0
    {
      (lane: int, r: Regs) => if lane >= 0 then StrideMax(lane, lanes, T(), floor, Score()) else floor
    }

    function Exp(): (int, Regs) -> real { (j: int, r: Regs) => math.exp(At(scores, j) - r.top) }

    function LocalSum(): (int, Regs) -> real
      requires lanes > 0
    {
      (lane: int, r: Regs) => if lane >= 0 then StrideSum(lane, lanes, T(), Weight(r.top)) else 0.0
    }

    function MaxPhase(): Phase<Regs>
      requires lanes > 0
    {
      FillPhase(lanes, 0, Exp(), LocalMax())
    }

    function ReadPhase(): Phase<Regs> {
      seq(lanes, lane => [Load(0, TAKE_TOP)])
    }

    function ExpPhase(): Phase<Regs>
      requires lanes > 0
    {
      FillPhase(lanes, T(), Exp(), LocalSum())
    }

    function SumCode(): Code<Regs> { [Load(0, TAKE_A), Store(lanes + T(), (r: Regs) => r.a)] }

    function SumPhase(): Phase<Regs> {
      seq(lanes, lane => if lane == 0 then SumCode() else [])
    }

    function MaxHalf(): Kernel<Regs>
      requires lanes > 0
    {
      [MaxPhase()] + TreeKernel(lanes, lanes / 2, 1, MAX) + [ReadPhase()]
    }

    function SumHalf(): Kernel<Regs>
      requires lanes > 0
    {
      [ExpPhase()] + TreeKernel(lanes, lanes / 2, 1, PLUS) + [SumPhase()]
    }

    function Kernel(): Kernel<Regs>
      requires lanes > 0
    {
      MaxHalf() + SumHalf()
    }

    /** The running maximum every lane reads: above the floor and every score, and one of them. */
    ghost predicate IsTop(top: real) {
      && floor <= top
      && (forall j :: 0 <= j < T() ==> At(scores, j) <= top)
      && (top == floor || exists j :: 0 <= j < T() && At(scores, j) == top)
    }

    lemma ReadMeaning(regs: seq<Regs>, mem: Memory)
      requires |regs| == lanes > 0 && |mem| == Cells()
      ensures PhaseRaceFree(ReadPhase())
      ensures forall i :: 0 <= i < lanes ==> CodeOk(ReadPhase()[i], |mem|)
      ensures forall i :: 0 <= i < lanes ==> PhaseRegs(ReadPhase(), regs, mem)[i].top == mem[0]
    {
      var phase := ReadPhase();
      forall i | 0 <= i < lanes
        ensures CodeOk(phase[i], |mem|) && PhaseRegs(phase, regs, mem)[i].top == mem[0]
      {
        assert Solo(phase[i], 0, regs[i], mem) == (regs[i], mem);
        assert Solo(phase[i], 1, regs[i], mem).0 == regs[i].(top := mem[0]);
      }
    }

    lemma SumMeaning(regs: seq<Regs>, mem: Memory)
      requires |regs| == lanes > 0 && |mem| == Cells()
      ensures PhaseRaceFree(SumPhase())
      ensures forall i :: 0 <= i < lanes ==> CodeOk(SumPhase()[i], |mem|)
      ensures var m := PhaseMem(SumPhase(), regs, mem);
        && m[lanes + T()] == mem[0]
        && forall i :: 0 <= i < lanes + T() ==> m[i] == mem[i]
    {
      var phase := SumPhase();
      forall i | 0 <= i < lanes
        ensures CodeOk(phase[i], |mem|)
      {}
      var code := phase[0];
      assert code[1].Store? && Writes(code, lanes + T());
      WriterDecides(phase, regs, mem, 0, lanes + T());
      assert Solo(code, 0, regs[0], mem) == (regs[0], mem);
      assert Solo(code, 1, regs[0], mem) == (regs[0].(a := mem[0]), mem);
      assert Solo(code, 2, regs[0], mem).1 == mem[lanes + T() := mem[0]];
      forall i | 0 <= i < lanes + T()
        ensures PhaseMem(phase, regs, mem)[i] == mem[i]
      {
        forall j | 0 <= j < lanes
          ensures !Writes(phase[j], i)
        {}
      }
    }

    /** Phase 1 of the kernel: every lane ends up with the same running maximum. */
    lemma MaxHalfMeaning(regs: seq<Regs>, mem: Memory) returns (top: real)
      requires PowerOfTwo(lanes) && |regs| == lanes && |mem| == Cells()
      ensures KernelOk(MaxHalf(), lanes, |mem|) && RaceFree(MaxHalf())
      ensures IsTop(top)
      ensures forall i :: 0 <= i < lanes ==> Meaning(MaxHalf(), 0, regs, mem).0[i].top == top
    {
      var first, tree, last := MaxPhase(), TreeKernel(lanes, lanes / 2, 1, MAX), ReadPhase();
      FillRaceFree(lanes, 0, Exp(), LocalMax());
      FillOk(lanes, 0, Exp(), LocalMax(), |mem|);
      var regs1, mem1 := PhaseRegs(first, regs, mem), PhaseMem(first, regs, mem);
      TreeMaxes(lanes, regs1, mem1);
      var regs2, mem2 := Meaning(tree, 0, regs1, mem1).0, Meaning(tree, 0, regs1, mem1).1;
      ReadMeaning(regs2, mem2);
      Compose(first, tree, last, regs, mem);
      top := mem2[0];
      forall lane | 0 <= lane < lanes
        ensures mem1[lane] == StrideMax(lane, lanes, T(), floor, Score())
      {
        FillsPart(lanes, 0, Exp(), LocalMax(), regs, mem, lane);
      }
      TopOfMaxes(mem1, top);
    }

    lemma TopOfMaxes(maxes: Memory, top: real)
      requires 0 < lanes <= |maxes|
      requires forall lane :: 0 <= lane < lanes ==> maxes[lane] == StrideMax(lane, lanes, T(), floor, Score())
      requires forall lane :: 0 <= lane < lanes ==> maxes[lane] <= top
      requires exists lane :: 0 <= lane < lanes && maxes[lane] == top
      ensures IsTop(top)
    {
      forall j | 0 <= j < T()
        ensures At(scores, j) <= top
      {
        var lane := OwnerOf(j, lanes, T());
        StrideMaxBounds(lane, lanes, T(), floor, Score());
        assert Score()(j) <= maxes[lane];
      }
      var lane :| 0 <= lane < lanes && maxes[lane] == top;
      StrideMaxBounds(lane, lanes, T(), floor, Score());
      if top != floor {
        var j :| 0 <= j < T() && Score()(j) == top;
        assert At(scores, j) == top;
      }
    }

    /** Phase 2: with the maximum in every lane, the weights and their sum. */
    lemma SumHalfMeaning(regs: seq<Regs>, mem: Memory, top: real)
      requires PowerOfTwo(lanes) && |regs| == lanes && |mem| == Cells()
      requires forall i :: 0 <= i < lanes ==> regs[i].top == top
      ensures KernelOk(SumHalf(), lanes, |mem|) && RaceFree(SumHalf())
      ensures var m := Meaning(SumHalf(), 0, regs, mem).1;
        && (forall j :: 0 <= j < T() ==> m[lanes..][..T()][j] == Weight(top)(j))
        && m[lanes + T()] == Sum(T(), Weight(top))
    {
      hide TreeKernel;
      var first, tree, last := ExpPhase(), TreeKernel(lanes, lanes / 2, 1, PLUS), SumPhase();
      var regs1, mem1 := ExpState(regs, mem, top);
      var regs2, mem2 := Meaning(tree, 0, regs1, mem1).0, Meaning(tree, 0, regs1, mem1).1;
      SumMeaning(regs2, mem2);
      Compose(first, tree, last, regs, mem);
      assert PhaseMem(last, regs2, mem2)[lanes..][..T()] == mem2[lanes..][..T()];
    }

    lemma ExpState(regs: seq<Regs>, mem: Memory, top: real) returns (regs1: seq<Regs>, mem1: Memory)
      requires PowerOfTwo(lanes) && |regs| == lanes && |mem| == Cells()
      requires forall i :: 0 <= i < lanes ==> regs[i].top == top
      ensures PhaseRaceFree(ExpPhase()) && RaceFree(TreeKernel(lanes, lanes / 2, 1, PLUS))
      ensures forall i :: 0 <= i < lanes ==> CodeOk(ExpPhase()[i], |mem|)
      ensures regs1 == PhaseRegs(ExpPhase(), regs, mem) && mem1 == PhaseMem(ExpPhase(), regs, mem)
      ensures KernelOk(TreeKernel(lanes, lanes / 2, 1, PLUS), lanes, |mem|)
      ensures var m := Meaning(TreeKernel(lanes, lanes / 2, 1, PLUS), 0, regs1, mem1).1;
        && m[0] == Sum(T(), Weight(top))
        && forall j :: 0 <= j < T() ==> m[lanes..][..T()][j] == Weight(top)(j)
    {
      hide StrideSum, TreeKernel, Meaning, PhaseMem, PhaseRegs, Sum;
      FillRaceFree(lanes, T(), Exp(), LocalSum());
      FillOk(lanes, T(), Exp(), LocalSum(), |mem|);
      regs1, mem1 := PhaseRegs(ExpPhase(), regs, mem), PhaseMem(ExpPhase(), regs, mem);
      var partials := (lane: int) => if lane >= 0 then StrideSum(lane, lanes, T(), Weight(top)) else 0.0;
      forall lane | 0 <= lane < lanes
        ensures mem1[lane] == partials(lane)
      {
        FillsPart(lanes, T(), Exp(), LocalSum(), regs, mem, lane);
      }
      TreeSums(lanes, regs1, mem1, partials);
      StridesPartition(lanes, T(), Weight(top));
      SumEq(lanes, partials, lane => if lane >= 0 then StrideSum(lane, lanes, T(), Weight(top)) else 0.0);
      var m := Meaning(TreeKernel(lanes, lanes / 2, 1, PLUS), 0, regs1, mem1).1;
      forall j | 0 <= j < T()
        ensures m[lanes..][..T()][j] == Weight(top)(j)
      {
        assert m[lanes..][j] == mem1[lanes..][j];
        var lane := FillsElement(lanes, T(), Exp(), LocalSum(), regs, mem, j);
      }
    }

    lemma KernelMeaning(regs: seq<Regs>, mem: Memory) returns (top: real)
      requires PowerOfTwo(lanes) && |regs| == lanes && |mem| == Cells()
      ensures KernelOk(Kernel(), lanes, |mem|) && RaceFree(Kernel()) && IsTop(top)
      ensures var m := Meaning(Kernel(), 0, regs, mem).1;
        && (forall j :: 0 <= j < T() ==> m[lanes..][..T()][j] == Weight(top)(j))
        && m[lanes + T()] == Sum(T(), Weight(top))
    {
      top := MaxHalfMeaning(regs, mem);
      var regs1, mem1 := Meaning(MaxHalf(), 0, regs, mem).0, Meaning(MaxHalf(), 0, regs, mem).1;
      SumHalfMeaning(regs1, mem1, top);
      MeaningJoin(MaxHalf(), SumHalf(), 0, regs, mem);
      RaceFreeJoin(MaxHalf(), SumHalf());
    }

    /** However the lanes are scheduled, a finished launch holds the weights exp(score - top) for the
        running maximum top, and their sum. */
    lemma EverySchedule(regs: seq<Regs>, mem: Memory, schedule: seq<Choice>, final: Config<Regs>) returns (top: real)
      requires PowerOfTwo(lanes) && |regs| == lanes && |mem| == Cells()
      requires Run(Kernel(), Start(regs, mem), schedule, final) && final.phase == |Kernel()|
      ensures |final.mem| == Cells() && IsTop(top)
      ensures forall j :: 0 <= j < T() ==> final.mem[lanes..][..T()][j] == Weight(top)(j)
      ensures final.mem[lanes + T()] == Sum(T(), Weight(top))
    {
      top := KernelMeaning(regs, mem);
      ScheduleIndependence(Kernel(), regs, mem, schedule, final);
    }
  }

  // ---- The cross-lane sum of a matmul row, for one token or a batch ----

  /** One workgroup of the matmul kernels: for each token t, the lanes' partial dot products of this
      row are summed into output cell 64 + t. One token is `matmul_dequant_wgpu`. */
  datatype RowJob = RowJob(tokens: nat, partial: (int, int) -> real) {

    function Cells(): nat { 64 + tokens }

    function Part(t: nat): (int, Regs) -> real { (lane: int, r: Regs) => partial(t, lane) }

    /** The row's dot product with token t: all 64 lanes together. */
    function Total(t: nat): real { Sum(64, lane => partial(t, lane)) }

    function NoArray(): (int, Regs) -> real { (j: int, r: Regs) => 0.0 }

    function PartPhase(t: nat): Phase<Regs> { FillPhase(64, 0, NoArray(), Part(t)) }

    function OutCode(t: nat): Code<Regs> {
      [Load(0, TAKE_A), Load(1, TAKE_B), Store(64 + t, (r: Regs) => r.a + r.b)]
    }

    function OutPhase(t: nat): Phase<Regs> {
      seq(64, lane => if lane == 0 then OutCode(t) else [])
    }

    /** Partials, the halvings 32, 16, 8, 4, 2, and the last pair added by lane 0. */
    function TokenKernel(t: nat): Kernel<Regs> {
      [PartPhase(t)] + TreeKernel(64, 32, 2, PLUS) + [OutPhase(t)]
    }

    function KernelFrom(t: nat): Kernel<Regs>
      decreases tokens - t
    {
      if t >= tokens then [] else TokenKernel(t) + KernelFrom(t + 1)
    }

    lemma OutMeaning(t: nat, regs: seq<Regs>, mem: Memory)
      requires t < tokens && |regs| == 64 && |mem| == Cells()
      ensures PhaseRaceFree(OutPhase(t))
      ensures forall i :: 0 <= i < 64 ==> CodeOk(OutPhase(t)[i], |mem|)
      ensures var m := PhaseMem(OutPhase(t), regs, mem);
        && m[64 + t] == mem[0] + mem[1]
        && forall i :: 64 <= i < |mem| && i != 64 + t ==> m[i] == mem[i]
    {
      var phase := OutPhase(t);
      forall i | 0 <= i < 64
        ensures CodeOk(phase[i], |mem|)
      {}
      var code := phase[0];
      assert code[2].Store? && Writes(code, 64 + t);
      WriterDecides(phase, regs, mem, 0, 64 + t);
      assert Solo(code, 0, regs[0], mem) == (regs[0], mem);
      assert Solo(code, 1, regs[0], mem) == (regs[0].(a := mem[0]), mem);
      assert Solo(code, 2, regs[0], mem) == (regs[0].(a := mem[0], b := mem[1]), mem);
      assert Solo(code, 3, regs[0], mem).1 == mem[64 + t := mem[0] + mem[1]];
      forall i | 64 <= i < |mem| && i != 64 + t
        ensures PhaseMem(phase, regs, mem)[i] == mem[i]
      {
        forall j | 0 <= j < 64
          ensures !Writes(phase[j], i)
        {}
      }
    }

    lemma TokenMeaning(t: nat, regs: seq<Regs>, mem: Memory)
      requires t < tokens && |regs| == 64 && |mem| == Cells()
      ensures KernelOk(TokenKernel(t), 64, |mem|) && RaceFree(TokenKernel(t))
      ensures var m := Meaning(TokenKernel(t), 0, regs, mem).1;
        && m[64 + t] == Total(t)
        && forall i :: 64 <= i < |mem| && i != 64 + t ==> m[i] == mem[i]
    {
      hide TreeKernel;
      var first, tree, last := PartPhase(t), TreeKernel(64, 32, 2, PLUS), OutPhase(t);
      FillRaceFree(64, 0, NoArray(), Part(t));
      FillOk(64, 0, NoArray(), Part(t), |mem|);
      var regs1, mem1 := PhaseRegs(first, regs, mem), PhaseMem(first, regs, mem);
      PartMeaning(t, regs, mem);
      TreeOk(64, 32, 2, PLUS, |mem|);
      var regs2, mem2 := Meaning(tree, 0, regs1, mem1).0, Meaning(tree, 0, regs1, mem1).1;
      PairLeft(regs1, mem1);
      OutMeaning(t, regs2, mem2);
      Compose(first, tree, last, regs, mem);
      var f := (lane: int) => partial(t, lane);
      FoldPlus(mem1, 64, f);
      SumEq(64, f, lane => partial(t, lane));
    }

    lemma PartMeaning(t: nat, regs: seq<Regs>, mem: Memory)
      requires t < tokens && |regs| == 64 && |mem| == Cells()
      requires forall i :: 0 <= i < 64 ==> CodeOk(PartPhase(t)[i], |mem|)
      ensures var m := PhaseMem(PartPhase(t), regs, mem);
        && (forall lane :: 0 <= lane < 64 ==> m[lane] == partial(t, lane))
        && (forall i :: 64 <= i < |mem| ==> m[i] == mem[i])
    {
      forall lane | 0 <= lane < 64
        ensures PhaseMem(PartPhase(t), regs, mem)[lane] == partial(t, lane)
      {
        FillsPart(64, 0, NoArray(), Part(t), regs, mem, lane);
      }
      forall i | 64 <= i < |mem|
        ensures PhaseMem(PartPhase(t), regs, mem)[i] == mem[i]
      {
        forall j | 0 <= j < 64
          ensures !Writes(PartPhase(t)[j], i)
        {
          FillCells(64, j, 0, NoArray(), Part(t), i);
        }
      }
    }

    /** The unrolled halvings stop with two partial sums in cells 0 and 1. */
    lemma PairLeft(regs: seq<Regs>, mem: Memory)
      requires |regs| == 64 && |mem| == Cells()
      requires KernelOk(TreeKernel(64, 32, 2, PLUS), 64, |mem|)
      ensures RaceFree(TreeKernel(64, 32, 2, PLUS))
      ensures var m := Meaning(TreeKernel(64, 32, 2, PLUS), 0, regs, mem).1;
        && m[0] + m[1] == Fold(PLUS, mem, 0, 64)
        && forall i :: 64 <= i < |mem| ==> m[i] == mem[i]
    {
      TreeOk(64, 32, 2, PLUS, |mem|);
      PlusIsReducible();
      var m := Meaning(TreeKernel(64, 32, 2, PLUS), 0, regs, mem).1;
      assert Fold(PLUS, m, 0, 2) == Fold(PLUS, mem, 0, 64) && forall i :: 32 <= i < |mem| ==> m[i] == mem[i] by {
        assert HalvesTo(4, 2) && HalvesTo(8, 2) && HalvesTo(16, 2) && HalvesTo(32, 2);
        TreeReduces(64, 32, 2, PLUS, regs, mem);
      }
      assert Fold(PLUS, m, 0, 2) == PLUS(Fold(PLUS, m, 0, 1), m[1]);
    }

    lemma {:induction false} KernelMeaning(t: nat, regs: seq<Regs>, mem: Memory)
      requires t <= tokens && |regs| == 64 && |mem| == Cells()
      ensures KernelOk(KernelFrom(t), 64, |mem|) && RaceFree(KernelFrom(t))
      ensures var m := Meaning(KernelFrom(t), 0, regs, mem).1;
        && (forall u :: t <= u < tokens ==> m[64 + u] == Total(u))
        && (forall i :: 64 <= i < 64 + t ==> m[i] == mem[i])
      decreases tokens - t
    {
      hide RowJob.TokenKernel, RowJob.Total;
      if t < tokens {
        TokenMeaning(t, regs, mem);
        var regs1, mem1 := Meaning(TokenKernel(t), 0, regs, mem).0, Meaning(TokenKernel(t), 0, regs, mem).1;
        KernelMeaning(t + 1, regs1, mem1);
        MeaningJoin(TokenKernel(t), KernelFrom(t + 1), 0, regs, mem);
        RaceFreeJoin(TokenKernel(t), KernelFrom(t + 1));
      }
    }

    /** However the lanes are scheduled, every token's output is the sum of its 64 lane partials. */
    lemma EverySchedule(regs: seq<Regs>, mem: Memory, schedule: seq<Choice>, final: Config<Regs>)
      requires |regs| == 64 && |mem| == Cells()
      requires Run(KernelFrom(0), Start(regs, mem), schedule, final) && final.phase == |KernelFrom(0)|
      ensures |final.mem| == Cells()
      ensures forall t :: 0 <= t < tokens ==> final.mem[64 + t] == Total(t)
    {
      KernelMeaning(0, regs, mem);
      ScheduleIndependence(KernelFrom(0), regs, mem, schedule, final);
    }
  }
}
