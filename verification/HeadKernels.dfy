/** The cooperative kernels that work on one head in place: a norm whose total all lanes share, and the
    fused norm and rotation. Cells: `lanes` of shared memory, then the head. */
module HeadKernels {
  import opened Sums
  import opened Striding
  import opened Blocks
  import opened Elementary
  import opened Workgroup
  import opened TreeReduction
  import opened WorkgroupKernels
  import opened StridedGather
  import opened RotaryEmbedding = Rope
  import Llama

  // ---- Each lane rescales its own cells ----

  /** What a cell becomes: from its index, its value and the shared total. */
  type Rescale = (int, real, real) -> real

  function Give(rescale: Rescale, j: int): Regs -> real { (r: Regs) => rescale(j, r.a, r.top) }

  function InPlaceLoop(lanes: nat, n: nat, i: nat, rescale: Rescale): Code<Regs>
    requires lanes > 0
    decreases n - i
  {
    if i >= n then []
    else [Load(lanes + i, TAKE_A), Store(lanes + i, Give(rescale, i))] + InPlaceLoop(lanes, n, i + lanes, rescale)
  }

  lemma PairSolo(addr: nat, give: Regs -> real, regs: Regs, mem: Memory)
    requires addr < |mem|
    ensures var code: Code<Regs> := [Load(addr, TAKE_A), Store(addr, give)]; var regs1 := regs.(a := mem[addr]);
      CodeOk(code, |mem|) && Solo(code, |code|, regs, mem) == (regs1, mem[addr := give(regs1)])
  {
    var code: Code<Regs> := [Load(addr, TAKE_A), Store(addr, give)];
    assert Solo(code, 0, regs, mem) == (regs, mem);
    assert Solo(code, 1, regs, mem) == (regs.(a := mem[addr]), mem);
  }

  lemma {:induction false} InPlaceSolo(lanes: nat, n: nat, i: nat, rescale: Rescale, regs: Regs, mem: Memory)
    requires lanes > 0 && lanes + n <= |mem|
    ensures var code := InPlaceLoop(lanes, n, i, rescale);
      && CodeOk(code, |mem|)
      && (var m := Solo(code, |code|, regs, mem).1;
          forall j :: 0 <= j < n ==>
            m[lanes + j] == if InStride(j, i, lanes, n) then rescale(j, mem[lanes + j], regs.top) else mem[lanes + j])
    decreases n - i
  {
    hide Solo, CodeOk;
    if i < n {
      var head: Code<Regs> := [Load(lanes + i, TAKE_A), Store(lanes + i, Give(rescale, i))];
      var rest := InPlaceLoop(lanes, n, i + lanes, rescale);
      var regs1 := regs.(a := mem[lanes + i]);
      var mem1 := mem[lanes + i := rescale(i, mem[lanes + i], regs.top)];
      PairSolo(lanes + i, Give(rescale, i), regs, mem);
      InPlaceSolo(lanes, n, i + lanes, rescale, regs1, mem1);
      SoloJoin(head, rest, |rest|, regs, mem);
      var m := Solo(rest, |rest|, regs1, mem1).1;
      forall j | 0 <= j < n
        ensures m[lanes + j]
          == if InStride(j, i, lanes, n) then rescale(j, mem[lanes + j], regs.top) else mem[lanes + j]
      {
        InStrideNext(j, i, lanes, n);
      }
    } else {
      NothingSolo(regs, mem);
    }
  }

  lemma {:induction false} InPlaceCells(lanes: nat, n: nat, i: nat, rescale: Rescale, addr: nat)
    requires lanes > 0
    ensures var code := InPlaceLoop(lanes, n, i, rescale);
      && (Touches(code, addr) <==> InStride(addr - lanes, i, lanes, n))
      && (Writes(code, addr) <==> InStride(addr - lanes, i, lanes, n))
    decreases n - i
  {
    if i < n {
      var head: Code<Regs> := [Load(lanes + i, TAKE_A), Store(lanes + i, Give(rescale, i))];
      InPlaceCells(lanes, n, i + lanes, rescale, addr);
      TouchesJoin(head, InPlaceLoop(lanes, n, i + lanes, rescale), addr);
      if addr == lanes + i { assert head[1].Store? && head[1].addr == addr; }
    }
  }

  /** The shared total, then the lane's own cells. */
  function RescaleCode(lanes: nat, n: nat, lane: nat, rescale: Rescale): Code<Regs>
    requires lanes > 0
  {
    [Load(0, TAKE_TOP)] + InPlaceLoop(lanes, n, lane, rescale)
  }

  function RescalePhase(lanes: nat, n: nat, rescale: Rescale): (p: Phase<Regs>)
    requires lanes > 0
    ensures |p| == lanes
  {
    seq(lanes, lane requires 0 <= lane < lanes => RescaleCode(lanes, n, lane, rescale))
  }

  lemma RescaleSolo(lanes: nat, n: nat, lane: nat, rescale: Rescale, regs: Regs, mem: Memory)
    requires lane < lanes && lanes + n <= |mem|
    ensures var code := RescaleCode(lanes, n, lane, rescale);
      && CodeOk(code, |mem|)
      && (var m := Solo(code, |code|, regs, mem).1;
          forall j :: 0 <= j < n && InStride(j, lane, lanes, n) ==> m[lanes + j] == rescale(j, mem[lanes + j], mem[0]))
  {
    hide Solo, CodeOk, InPlaceLoop;
    LoadSolo(0, TAKE_TOP, regs, mem);
    var loop := InPlaceLoop(lanes, n, lane, rescale);
    InPlaceSolo(lanes, n, lane, rescale, regs.(top := mem[0]), mem);
    SoloJoin([Load(0, TAKE_TOP)], loop, |loop|, regs, mem);
  }

  lemma RescaleCells(lanes: nat, n: nat, lane: nat, rescale: Rescale, addr: nat)
    requires lane < lanes
    ensures Writes(RescaleCode(lanes, n, lane, rescale), addr) <==> InStride(addr - lanes, lane, lanes, n)
    ensures Touches(RescaleCode(lanes, n, lane, rescale), addr) ==> addr == 0 || InStride(addr - lanes, lane, lanes, n)
  {
    var first: Code<Regs> := [Load(0, TAKE_TOP)];
    InPlaceCells(lanes, n, lane, rescale, addr);
    TouchesJoin(first, InPlaceLoop(lanes, n, lane, rescale), addr);
  }

  ghost predicate CellRescaled(lanes: nat, rescale: Rescale, mem: Memory, m: Memory, j: nat)
    requires 0 < |mem| == |m| && lanes + j < |mem|
  {
    m[lanes + j] == rescale(j, mem[lanes + j], mem[0])
  }

  /** Every cell is rescaled once, by the lane that owns it. */
  lemma RescaleMeaning(lanes: nat, n: nat, rescale: Rescale, regs: seq<Regs>, mem: Memory)
    requires 0 < lanes == |regs| && lanes + n == |mem|
    ensures PhaseRaceFree(RescalePhase(lanes, n, rescale))
    ensures forall i :: 0 <= i < lanes ==> CodeOk(RescalePhase(lanes, n, rescale)[i], |mem|)
    ensures forall j :: 0 <= j < n ==>
      CellRescaled(lanes, rescale, mem, PhaseMem(RescalePhase(lanes, n, rescale), regs, mem), j)
  {
    hide RescaleCode, Writes, Touches, CodeOk, Solo;
    var phase := RescalePhase(lanes, n, rescale);
    forall i | 0 <= i < lanes
      ensures CodeOk(phase[i], |mem|)
    {
      RescaleSolo(lanes, n, i, rescale, regs[i], mem);
    }
    RescaleRaceFree(lanes, n, rescale);
    forall j | 0 <= j < n
      ensures CellRescaled(lanes, rescale, mem, PhaseMem(phase, regs, mem), j)
    {
      var lane := OwnerOf(j, lanes, n);
      RescaleCells(lanes, n, lane, rescale, lanes + j);
      RescaleSolo(lanes, n, lane, rescale, regs[lane], mem);
      WriterDecides(phase, regs, mem, lane, lanes + j);
    }
  }

  lemma RescaleRaceFree(lanes: nat, n: nat, rescale: Rescale)
    requires lanes > 0
    ensures PhaseRaceFree(RescalePhase(lanes, n, rescale))
  {
    hide RescaleCode, Writes, Touches;
    var phase := RescalePhase(lanes, n, rescale);
    forall i, j, addr: nat | 0 <= i < lanes && 0 <= j < lanes && i != j && Writes(phase[i], addr)
      ensures !Touches(phase[j], addr)
    {
      RescaleCells(lanes, n, i, rescale, addr);
      RescaleCells(lanes, n, j, rescale, addr);
      if Touches(phase[j], addr) { OwnerUnique(addr - lanes, i, j, lanes, n); }
    }
  }

  // ---- The norm: squares, tree, rescale ----

  const SQUARE: (int, real) -> real := (j: int, v: real) => v * v

  function NormKernel(lanes: nat, n: nat, rescale: Rescale): Kernel<Regs>
    requires lanes > 0
  {
    [GatherPhase(lanes, n, SQUARE)] + TreeKernel(lanes, lanes / 2, 1, PLUS) + [RescalePhase(lanes, n, rescale)]
  }

  /** The head, rescaled by its sum of squares. */
  function Rescaled(x: Vec, rescale: Rescale): (y: Vec)
    ensures |y| == |x|
  {
    seq(|x|, j => rescale(j, At(x, j), SumSquares(x)))
  }

  lemma RescaledAt(x: Vec, rescale: Rescale, j: nat)
    requires j < |x|
    ensures Rescaled(x, rescale)[j] == rescale(j, x[j], SumSquares(x))
  {
    hide SumSquares;
    assert Rescaled(x, rescale)[j] == rescale(j, At(x, j), SumSquares(x));
  }

  lemma SquaresTotal(lanes: nat, x: Vec, mem: Memory, partials: int -> real)
    requires lanes > 0 && lanes + |x| <= |mem| && mem[lanes..lanes + |x|] == x
    requires forall lane :: 0 <= lane < lanes ==>
      partials(lane) == StrideSum(lane, lanes, |x|, CellTerms(mem, lanes, SQUARE))
    ensures Sum(lanes, partials) == SumSquares(x)
  {
    hide StrideSum, Sum, CellTerms, SumSquares;
    var f := CellTerms(mem, lanes, SQUARE);
    StridesPartition(lanes, |x|, f);
    SumEq(lanes, partials, lane => if lane >= 0 then StrideSum(lane, lanes, |x|, f) else 0.0);
    SquareTerms(lanes, x, mem);
  }

  lemma SquareTerms(lanes: nat, x: Vec, mem: Memory)
    requires lanes + |x| <= |mem| && mem[lanes..lanes + |x|] == x
    ensures Sum(|x|, CellTerms(mem, lanes, SQUARE)) == SumSquares(x)
  {
    hide Sum;
    forall j | 0 <= j < |x|
      ensures CellTerms(mem, lanes, SQUARE)(j) == At(x, j) * At(x, j)
    {
      assert mem[lanes..lanes + |x|][j] == mem[lanes + j];
    }
    SumEq(|x|, CellTerms(mem, lanes, SQUARE), i => At(x, i) * At(x, i));
  }

  lemma NormMeaning(lanes: nat, x: Vec, rescale: Rescale, regs: seq<Regs>, mem: Memory)
    requires PowerOfTwo(lanes) && |regs| == lanes && |mem| == lanes + |x| && mem[lanes..] == x
    ensures KernelOk(NormKernel(lanes, |x|, rescale), lanes, |mem|) && RaceFree(NormKernel(lanes, |x|, rescale))
    ensures Meaning(NormKernel(lanes, |x|, rescale), 0, regs, mem).1[lanes..] == Rescaled(x, rescale)
  {
    hide *;
    var n := |x|;
    assert lanes > 0 by { LanesPositive(lanes); }
    var tree, last := TreeKernel(lanes, lanes / 2, 1, PLUS), RescalePhase(lanes, n, rescale);
    GatherMeaning(lanes, n, SQUARE, regs, mem);
    var regs1, mem1 :=
      PhaseRegs(GatherPhase(lanes, n, SQUARE), regs, mem), PhaseMem(GatherPhase(lanes, n, SQUARE), regs, mem);
    assert mem[lanes..lanes + n] == mem[lanes..];
    TotalMeaning(lanes, x, regs1, mem, mem1);
    var regs2, mem2 := Meaning(tree, 0, regs1, mem1).0, Meaning(tree, 0, regs1, mem1).1;
    RescaleMeaning(lanes, n, rescale, regs2, mem2);
    Compose(GatherPhase(lanes, n, SQUARE), tree, last, regs, mem);
    NormIs(lanes, n, rescale);
    AllRescaled(lanes, x, rescale, mem2, PhaseMem(last, regs2, mem2));
  }

  lemma LanesPositive(lanes: nat)
    requires PowerOfTwo(lanes)
    ensures lanes > 0
  {}

  lemma NormIs(lanes: nat, n: nat, rescale: Rescale)
    requires lanes > 0
    ensures NormKernel(lanes, n, rescale)
      == [GatherPhase(lanes, n, SQUARE)] + TreeKernel(lanes, lanes / 2, 1, PLUS) + [RescalePhase(lanes, n, rescale)]
  {}

  /** After the tree cell 0 holds the sum of squares, and the head is untouched. */
  lemma TotalMeaning(lanes: nat, x: Vec, regs1: seq<Regs>, mem: Memory, mem1: Memory)
    requires PowerOfTwo(lanes) && |regs1| == lanes && lanes + |x| <= |mem| == |mem1| && mem[lanes..lanes + |x|] == x
    requires lanes > 0 && forall lane :: 0 <= lane < lanes ==>
      mem1[lane] == StrideSum(lane, lanes, |x|, CellTerms(mem, lanes, SQUARE))
    requires forall i :: lanes <= i < |mem| ==> mem1[i] == mem[i]
    ensures var tree := TreeKernel(lanes, lanes / 2, 1, PLUS);
      && KernelOk(tree, lanes, |mem|) && RaceFree(tree)
      && (var m := Meaning(tree, 0, regs1, mem1).1; m[0] == SumSquares(x) && m[lanes..] == mem[lanes..])
  {
    hide TreeKernel, StrideSum, SumSquares, Meaning, RaceFree, KernelOk;
    var partials := (lane: int) => At(mem1, lane);
    TreeSums(lanes, regs1, mem1, partials);
    SquaresTotal(lanes, x, mem, partials);
    assert mem1[lanes..] == mem[lanes..];
  }

  lemma AllRescaled(lanes: nat, x: Vec, rescale: Rescale, mem: Memory, m: Memory)
    requires lanes > 0 && |mem| == |m| == lanes + |x| && mem[lanes..] == x && mem[0] == SumSquares(x)
    requires forall j :: 0 <= j < |x| ==> CellRescaled(lanes, rescale, mem, m, j)
    ensures m[lanes..] == Rescaled(x, rescale)
  {
    hide SumSquares;
    forall j | 0 <= j < |x|
      ensures m[lanes..][j] == Rescaled(x, rescale)[j]
    {
      assert CellRescaled(lanes, rescale, mem, m, j);
      assert m[lanes..][j] == m[lanes + j] && x[j] == mem[lanes..][j] == mem[lanes + j];
      assert Rescaled(x, rescale)[j] == rescale(j, At(x, j), SumSquares(x));
    }
  }

  // ---- The rotation after it ----

  function RotateLoop(rot: Rotation, pos: int, lanes: nat, i: nat): Code<Regs>
    requires lanes > 0
    decreases rot.Half() - i
  {
    if i >= rot.Half() then [] else PairCode(rot, pos, lanes, i) + RotateLoop(rot, pos, lanes, i + lanes)
  }

  /** Both cells of pair i, read and then written. */
  function PairCode(rot: Rotation, pos: int, lanes: nat, i: nat): Code<Regs> {
    var first, second := lanes + i, lanes + i + rot.Half();
    [Load(first, TAKE_A), Load(second, TAKE_B),
     Store(first, (r: Regs) => rot.First(r.a, r.b, rot.Angle(pos, i))),
     Store(second, (r: Regs) => rot.Second(r.a, r.b, rot.Angle(pos, i)))]
  }

  /** Is j in a pair that the loop from i on turns? */
  predicate Turns(rot: Rotation, lanes: nat, i: nat, j: int)
    requires lanes > 0
  {
    InStride(j, i, lanes, rot.Half()) || InStride(j - rot.Half(), i, lanes, rot.Half())
  }

  function TurnedPair(rot: Rotation, pos: int, lanes: nat, i: nat, mem: Memory): (m: Memory)
    requires i < rot.Half() && lanes + i + rot.Half() < |mem|
    ensures |m| == |mem|
  {
    var first, second := lanes + i, lanes + i + rot.Half();
    var x0, x1, angle := mem[first], mem[second], rot.Angle(pos, i);
    mem[first := rot.First(x0, x1, angle)][second := rot.Second(x0, x1, angle)]
  }

  lemma PairCodeSolo(rot: Rotation, pos: int, lanes: nat, i: nat, regs: Regs, mem: Memory)
    requires i < rot.Half() && lanes + i + rot.Half() < |mem|
    ensures var code := PairCode(rot, pos, lanes, i);
      && CodeOk(code, |mem|)
      && Solo(code, |code|, regs, mem)
           == (regs.(a := mem[lanes + i], b := mem[lanes + i + rot.Half()]), TurnedPair(rot, pos, lanes, i, mem))
  {
    hide Rotation.First, Rotation.Second, Rotation.Angle, Rotation.Half;
    var code := PairCode(rot, pos, lanes, i);
    var first, second := lanes + i, lanes + i + rot.Half();
    var regs1 := regs.(a := mem[first]);
    var regs2 := regs1.(b := mem[second]);
    var mem1 := mem[first := rot.First(mem[first], mem[second], rot.Angle(pos, i))];
    assert Solo(code, 0, regs, mem) == (regs, mem);
    assert Solo(code, 1, regs, mem) == (regs1, mem);
    assert Solo(code, 2, regs, mem) == (regs2, mem);
    assert Solo(code, 3, regs, mem) == (regs2, mem1);
  }

  /** A head of cells with the pairs of the loop from i on rotated, the others as they were. */
  ghost predicate LoopTurned(rot: Rotation, pos: int, lanes: nat, i: nat, mem: Memory, m: Memory)
    requires lanes > 0 && rot.Ok() && |mem| == |m| == lanes + rot.headDim
  {
    forall j :: 0 <= j < rot.headDim ==>
      m[lanes + j] == if Turns(rot, lanes, i, j) then rot.Cell(mem[lanes..], pos, j) else mem[lanes + j]
  }

  lemma {:induction false} RotateLoopSolo(rot: Rotation, pos: int, lanes: nat, i: nat, regs: Regs, mem: Memory)
    requires lanes > 0 && rot.Ok() && |mem| == lanes + rot.headDim
    ensures var code := RotateLoop(rot, pos, lanes, i);
      CodeOk(code, |mem|) && LoopTurned(rot, pos, lanes, i, mem, Solo(code, |code|, regs, mem).1)
    decreases rot.Half() - i
  {
    hide Solo, CodeOk, Rotation.Half, Rotation.Cell, PairCode;
    if i < rot.Half() {
      assert 2 * rot.Half() <= rot.headDim;
      var head, rest := PairCode(rot, pos, lanes, i), RotateLoop(rot, pos, lanes, i + lanes);
      PairCodeSolo(rot, pos, lanes, i, regs, mem);
      var regs1, mem1 := Solo(head, |head|, regs, mem).0, Solo(head, |head|, regs, mem).1;
      RotateLoopSolo(rot, pos, lanes, i + lanes, regs1, mem1);
      SoloJoin(head, rest, |rest|, regs, mem);
      PairThenLoop(rot, pos, lanes, i, mem, Solo(rest, |rest|, regs1, mem1).1);
    } else {
      NothingSolo(regs, mem);
    }
  }

  lemma PairThenLoop(rot: Rotation, pos: int, lanes: nat, i: nat, mem: Memory, m: Memory)
    requires lanes > 0 && rot.Ok() && |mem| == |m| == lanes + rot.headDim && i < rot.Half()
    requires LoopTurned(rot, pos, lanes, i + lanes, TurnedPair(rot, pos, lanes, i, mem), m)
    ensures LoopTurned(rot, pos, lanes, i, mem, m)
  {
    hide Rotation.First, Rotation.Second, Rotation.Angle, Rotation.Half;
    var half, mem1 := rot.Half(), TurnedPair(rot, pos, lanes, i, mem);
    forall j | 0 <= j < rot.headDim
      ensures m[lanes + j] == if Turns(rot, lanes, i, j) then rot.Cell(mem[lanes..], pos, j) else mem[lanes + j]
    {
      InStrideNext(j, i, lanes, half);
      InStrideNext(j - half, i, lanes, half);
      if Turns(rot, lanes, i + lanes, j) { SameCell(rot, pos, lanes, i, mem, j); }
    }
  }

  /** The pairs past i do not see pair i turned. */
  lemma SameCell(rot: Rotation, pos: int, lanes: nat, i: nat, mem: Memory, j: nat)
    requires lanes > 0 && rot.Ok() && |mem| == lanes + rot.headDim && i < rot.Half() && j < rot.headDim
    requires Turns(rot, lanes, i + lanes, j)
    ensures rot.Cell(TurnedPair(rot, pos, lanes, i, mem)[lanes..], pos, j) == rot.Cell(mem[lanes..], pos, j)
  {
    hide Rotation.First, Rotation.Second, Rotation.Angle, Rotation.Half;
  }

  lemma {:induction false} RotateLoopCells(rot: Rotation, pos: int, lanes: nat, i: nat, addr: nat)
    requires lanes > 0
    ensures var code := RotateLoop(rot, pos, lanes, i);
      (Touches(code, addr) <==> Turns(rot, lanes, i, addr - lanes)) && (Writes(code, addr) <==> Touches(code, addr))
    decreases rot.Half() - i
  {
    hide Rotation.First, Rotation.Second, Rotation.Angle, Rotation.Half;
    if i < rot.Half() {
      var head := PairCode(rot, pos, lanes, i);
      RotateLoopCells(rot, pos, lanes, i + lanes, addr);
      TouchesJoin(head, RotateLoop(rot, pos, lanes, i + lanes), addr);
      InStrideNext(addr - lanes, i, lanes, rot.Half());
      InStrideNext(addr - lanes - rot.Half(), i, lanes, rot.Half());
      if addr == lanes + i { assert head[2].Store? && head[2].addr == addr; }
      if addr == lanes + i + rot.Half() { assert head[3].Store? && head[3].addr == addr; }
    }
  }

  function RotatePhase(rot: Rotation, pos: int, lanes: nat): (p: Phase<Regs>)
    requires lanes > 0
    ensures |p| == lanes
  {
    seq(lanes, lane requires 0 <= lane < lanes => RotateLoop(rot, pos, lanes, lane))
  }

  lemma RotateRaceFree(rot: Rotation, pos: int, lanes: nat)
    requires lanes > 0
    ensures PhaseRaceFree(RotatePhase(rot, pos, lanes))
  {
    hide RotateLoop, Writes, Touches, Rotation.Half;
    var phase, half := RotatePhase(rot, pos, lanes), rot.Half();
    forall i, j, addr: nat | 0 <= i < lanes && 0 <= j < lanes && i != j && Writes(phase[i], addr)
      ensures !Touches(phase[j], addr)
    {
      RotateLoopCells(rot, pos, lanes, i, addr);
      RotateLoopCells(rot, pos, lanes, j, addr);
      if Touches(phase[j], addr) {
        OwnerUnique(if addr - lanes < half then addr - lanes else addr - lanes - half, i, j, lanes, half);
      }
    }
  }

  /** All pairs together: the head is rotated. */
  lemma RotateMeaning(rot: Rotation, pos: int, lanes: nat, regs: seq<Regs>, mem: Memory)
    requires 0 < lanes == |regs| && rot.Ok() && |mem| == lanes + rot.headDim
    ensures PhaseRaceFree(RotatePhase(rot, pos, lanes))
    ensures forall i :: 0 <= i < lanes ==> CodeOk(RotatePhase(rot, pos, lanes)[i], |mem|)
    ensures PhaseMem(RotatePhase(rot, pos, lanes), regs, mem)[lanes..] == rot.Rotate(mem[lanes..], pos)
  {
    hide RotateLoop, CodeOk, PhaseMem, Rotation.Cell, Rotation.Half, PhaseRaceFree;
    var phase := RotatePhase(rot, pos, lanes);
    forall i | 0 <= i < lanes
      ensures CodeOk(phase[i], |mem|)
    {
      RotateLoopSolo(rot, pos, lanes, i, regs[i], mem);
    }
    RotateRaceFree(rot, pos, lanes);
    forall j | 0 <= j < rot.headDim
      ensures PhaseMem(phase, regs, mem)[lanes..][j] == rot.Rotate(mem[lanes..], pos)[j]
    {
      RotatedCell(rot, pos, lanes, regs, mem, j);
    }
  }

  lemma RotatedCell(rot: Rotation, pos: int, lanes: nat, regs: seq<Regs>, mem: Memory, j: nat)
    requires 0 < lanes == |regs| && rot.Ok() && |mem| == lanes + rot.headDim && j < rot.headDim
    requires forall i :: 0 <= i < lanes ==> CodeOk(RotatePhase(rot, pos, lanes)[i], |mem|)
    requires PhaseRaceFree(RotatePhase(rot, pos, lanes))
    ensures PhaseMem(RotatePhase(rot, pos, lanes), regs, mem)[lanes + j] == rot.Cell(mem[lanes..], pos, j)
  {
    hide RotateLoop, CodeOk, Solo, Writes, Touches, PhaseRaceFree, Rotation.First, Rotation.Second, Rotation.Angle;
    hide Rotation.Half;
    var phase, half := RotatePhase(rot, pos, lanes), rot.Half();
    if j < 2 * half {
      var lane := OwnerOf(if j < half then j else j - half, lanes, half);
      RotateLoopCells(rot, pos, lanes, lane, lanes + j);
      RotateLoopSolo(rot, pos, lanes, lane, regs[lane], mem);
      WriterDecides(phase, regs, mem, lane, lanes + j);
    } else {
      forall i | 0 <= i < lanes
        ensures !Writes(phase[i], lanes + j)
      {
        RotateLoopCells(rot, pos, lanes, i, lanes + j);
      }
      assert mem[lanes..][j] == mem[lanes + j];
    }
  }

  // ---- The kernels ----

  function QkRescale(math: Math, weight: Vec, eps: real, n: nat): Rescale {
    (j: int, v: real, total: real) => ScaledBy(At(weight, j), v, math.sqrt(Div(total, n as real) + eps))
  }

  function L2Rescale(math: Math, eps: real): Rescale {
    (j: int, v: real, total: real) => Div(v, math.sqrt(total + eps))
  }

  function GatedRescale(math: Math, weight: Vec, gate: Vec, eps: real, n: nat): Rescale {
    (j: int, v: real, total: real) =>
      Mul(ScaledBy(At(weight, j), v, math.sqrt(Div(total, n as real) + eps)), Silu(math, At(gate, j)))
  }

  /** However its lanes are scheduled, a norm kernel rescales the head by its own sum of squares. */
  lemma NormEverySchedule(lanes: nat, x: Vec, rescale: Rescale, regs: seq<Regs>, mem: Memory,
                          schedule: seq<Choice>, final: Config<Regs>)
    requires PowerOfTwo(lanes) && |regs| == lanes && |mem| == lanes + |x| && mem[lanes..] == x
    requires var kernel := NormKernel(lanes, |x|, rescale);
      Run(kernel, Start(regs, mem), schedule, final) && final.phase == |kernel|
    ensures |final.mem| == |mem| && final.mem[lanes..] == Rescaled(x, rescale)
  {
    hide Run, NormKernel, Rescaled;
    NormMeaning(lanes, x, rescale, regs, mem);
    ScheduleIndependence(NormKernel(lanes, |x|, rescale), regs, mem, schedule, final);
  }

  /** `rms_norm`, out of place: the squares of x, the tree, and the scaling phase of the fused kernel. */
  function RmsNormKernel(lanes: nat, x: Vec, weight: Vec, eps: real, math: Math): Kernel<Regs>
    requires lanes > 0
  {
    [GatherPhase(lanes, |x|, SQUARE)] + TreeKernel(lanes, lanes / 2, 1, PLUS)
    + [NormJob(lanes, x, [], weight, eps, math).ScalePhase()]
  }

  lemma SliceKept(before: Memory, after: Memory, lo: nat, n: nat)
    requires |before| == |after| && lo + n <= |before| && after[lo..] == before[lo..]
    ensures after[lo..lo + n] == before[lo..lo + n]
  {
    assert after[lo..][..n] == before[lo..][..n];
  }

  /** Gather and tree: the sum of squares in cell 0, and x where it was. */
  lemma SquaresGathered(lanes: nat, x: Vec, regs: seq<Regs>, mem: Memory) returns (regs2: seq<Regs>, mem2: Memory)
    requires PowerOfTwo(lanes) && |regs| == lanes && lanes + |x| <= |mem| && mem[lanes..lanes + |x|] == x && lanes > 0
    ensures var gather, tree := GatherPhase(lanes, |x|, SQUARE), TreeKernel(lanes, lanes / 2, 1, PLUS);
      && PhaseRaceFree(gather) && (forall i :: 0 <= i < lanes ==> CodeOk(gather[i], |mem|))
      && KernelOk(tree, lanes, |mem|) && RaceFree(tree)
      && (regs2, mem2) == Meaning(tree, 0, PhaseRegs(gather, regs, mem), PhaseMem(gather, regs, mem))
    ensures |regs2| == lanes && |mem2| == |mem| && mem2[0] == SumSquares(x) && mem2[lanes..lanes + |x|] == x
  {
    hide *;
    var gather, tree := GatherPhase(lanes, |x|, SQUARE), TreeKernel(lanes, lanes / 2, 1, PLUS);
    GatherMeaning(lanes, |x|, SQUARE, regs, mem);
    var regs1, mem1 := PhaseRegs(gather, regs, mem), PhaseMem(gather, regs, mem);
    TotalMeaning(lanes, x, regs1, mem, mem1);
    regs2, mem2 := Meaning(tree, 0, regs1, mem1).0, Meaning(tree, 0, regs1, mem1).1;
    SliceKept(mem, mem2, lanes, |x|);
  }

  lemma RmsNormMeaning(lanes: nat, x: Vec, weight: Vec, eps: real, math: Math, regs: seq<Regs>, mem: Memory)
    requires PowerOfTwo(lanes) && |regs| == lanes && |mem| == lanes + 2 * |x| && mem[lanes..lanes + |x|] == x
    ensures var kernel := RmsNormKernel(lanes, x, weight, eps, math);
      && KernelOk(kernel, lanes, |mem|) && RaceFree(kernel)
      && var m := Meaning(kernel, 0, regs, mem).1;
         m[lanes..lanes + |x|] == x && m[lanes + |x|..] == RmsNorm(math, x, weight, eps)
  {
    hide *;
    LanesPositive(lanes);
    var job := NormJob(lanes, x, [], weight, eps, math);
    JobCells(job);
    var gather, tree := GatherPhase(lanes, |x|, SQUARE), TreeKernel(lanes, lanes / 2, 1, PLUS);
    var regs2, mem2 := SquaresGathered(lanes, x, regs, mem);
    job.ScaleOk(|mem|);
    job.ScaleRaceFree();
    Compose(gather, tree, job.ScalePhase(), regs, mem);
    job.ScaledState(regs2, mem2);
    RmsNormIs(lanes, x, weight, eps, math);
  }

  /** Cells: shared memory, x, the output. However the lanes are scheduled, the output is the norm of x. */
  lemma RmsNormEverySchedule(lanes: nat, x: Vec, weight: Vec, eps: real, math: Math, regs: seq<Regs>, mem: Memory,
                             schedule: seq<Choice>, final: Config<Regs>)
    requires PowerOfTwo(lanes) && |regs| == lanes && |mem| == lanes + 2 * |x| && mem[lanes..lanes + |x|] == x
    requires var kernel := RmsNormKernel(lanes, x, weight, eps, math);
      Run(kernel, Start(regs, mem), schedule, final) && final.phase == |kernel|
    ensures |final.mem| == |mem| && final.mem[lanes..lanes + |x|] == x
    ensures final.mem[lanes + |x|..] == RmsNorm(math, x, weight, eps)
  {
    hide *;
    LanesPositive(lanes);
    RmsNormMeaning(lanes, x, weight, eps, math, regs, mem);
    ScheduleIndependence(RmsNormKernel(lanes, x, weight, eps, math), regs, mem, schedule, final);
  }

  lemma JobCells(job: NormJob)
    requires job.delta == []
    ensures job.NewX() == job.lanes && job.Normed() == job.lanes + |job.x| && job.Cells() == job.lanes + 2 * |job.x|
    ensures Add(job.x, job.delta) == job.x
  {}

  lemma RmsNormIs(lanes: nat, x: Vec, weight: Vec, eps: real, math: Math)
    requires lanes > 0
    ensures RmsNormKernel(lanes, x, weight, eps, math)
      == [GatherPhase(lanes, |x|, SQUARE)] + TreeKernel(lanes, lanes / 2, 1, PLUS)
         + [NormJob(lanes, x, [], weight, eps, math).ScalePhase()]
  {}

  /** The norm of `qk_norm_rope`, a barrier, the rotation. */
  function QkNormRopeKernel(lanes: nat, rot: Rotation, pos: int, rescale: Rescale): Kernel<Regs>
    requires lanes > 0
  {
    NormKernel(lanes, rot.headDim, rescale) + [RotatePhase(rot, pos, lanes)]
  }

  lemma QkNormRopeMeaning(lanes: nat, x: Vec, rot: Rotation, pos: int, rescale: Rescale, regs: seq<Regs>, mem: Memory)
    requires PowerOfTwo(lanes) && rot.Ok() && |x| == rot.headDim
    requires |regs| == lanes && |mem| == lanes + |x| && mem[lanes..] == x
    ensures var kernel := QkNormRopeKernel(lanes, rot, pos, rescale);
      && KernelOk(kernel, lanes, |mem|) && RaceFree(kernel)
      && Meaning(kernel, 0, regs, mem).1[lanes..] == rot.Rotate(Rescaled(x, rescale), pos)
  {
    hide NormKernel, RotatePhase, Rescaled, Rotation.Rotate, PhaseRaceFree, CodeOk, PhaseMem, PhaseRegs;
    var kernel, last := NormKernel(lanes, |x|, rescale), RotatePhase(rot, pos, lanes);
    NormMeaning(lanes, x, rescale, regs, mem);
    var regs1, mem1 := Meaning(kernel, 0, regs, mem).0, Meaning(kernel, 0, regs, mem).1;
    RotateMeaning(rot, pos, lanes, regs1, mem1);
    MeaningCons(last, [], regs1, mem1);
    MeaningJoin(kernel, [last], 0, regs, mem);
    assert RaceFree([last]);
    RaceFreeJoin(kernel, [last]);
  }

  lemma QkNormRopeEverySchedule(lanes: nat, x: Vec, rot: Rotation, pos: int, rescale: Rescale,
                                regs: seq<Regs>, mem: Memory, schedule: seq<Choice>, final: Config<Regs>)
    requires PowerOfTwo(lanes) && rot.Ok() && |x| == rot.headDim
    requires |regs| == lanes && |mem| == lanes + |x| && mem[lanes..] == x
    requires var kernel := QkNormRopeKernel(lanes, rot, pos, rescale);
      Run(kernel, Start(regs, mem), schedule, final) && final.phase == |kernel|
    ensures |final.mem| == |mem| && final.mem[lanes..] == rot.Rotate(Rescaled(x, rescale), pos)
  {
    hide Run, QkNormRopeKernel, Rescaled, Rotation.Rotate;
    QkNormRopeMeaning(lanes, x, rot, pos, rescale, regs, mem);
    ScheduleIndependence(QkNormRopeKernel(lanes, rot, pos, rescale), regs, mem, schedule, final);
  }

  // ---- What the layers compute of a head ----

  /** Block h of blocks is what it was made from. */
  lemma PartOfBlocks(n: nat, c: nat, f: int -> Vec, h: nat)
    requires h < n && |f(h)| == c
    ensures Part(FromBlocks(n, c, f), h * c, c) == f(h)
  {
    hide FromBlocks, Part;
    RowEnd(h, n, c);
    var v, at := FromBlocks(n, c, f), h * c;
    forall d | 0 <= d < c
      ensures Part(v, at, c)[d] == f(h)[d]
    {
      ModUnique(at + d, c, h, d);
      FromBlocksAt(n, c, f, at + d);
      PartAt(v, at, c, d);
    }
  }

  lemma FromBlocksAt(n: nat, c: nat, f: int -> Vec, i: nat)
    requires 0 < c && i < n * c
    ensures FromBlocks(n, c, f)[i] == At(f(i / c), i % c)
  {}

  lemma PartAt(v: Vec, at: int, n: nat, d: nat)
    requires d < n
    ensures Part(v, at, n)[d] == At(v, at + d)
  {}

  /** The norm of head h, as the kernel computes it. */
  lemma NormedHead(m: Llama.Model, x: Vec, heads: nat, weight: Vec, h: nat)
    requires h < heads
    ensures var c := m.cfg.shape.headDim;
      Part(m.NormHeads(x, heads, weight), h * c, c)
        == Rescaled(Part(x, h * c, c), QkRescale(m.cfg.math, weight, m.cfg.eps, c))
  {
    hide FromBlocks, Part, SumSquares, ScaledBy;
    var c := m.cfg.shape.headDim;
    var f := (g: int) => RmsNorm(m.cfg.math, Part(x, g * c, c), weight, m.cfg.eps);
    PartOfBlocks(heads, c, f, h);
    assert f(h) == Rescaled(Part(x, h * c, c), QkRescale(m.cfg.math, weight, m.cfg.eps, c));
  }

  /** `qk_norm_rope` does to head h what the layer's per-head norm and rotation do. */
  lemma QkHead(m: Llama.Model, rot: Rotation, x: Vec, heads: nat, weight: Vec, pos: nat, h: nat)
    requires h < heads && rot.headDim == m.cfg.shape.headDim
    ensures var head := Part(x, h * rot.headDim, rot.headDim);
      Part(m.RotateHeads(rot, m.NormHeads(x, heads, weight), heads, pos), h * rot.headDim, rot.headDim)
        == rot.Rotate(Rescaled(head, QkRescale(m.cfg.math, weight, m.cfg.eps, rot.headDim)), pos)
  {
    hide FromBlocks, Part, Rotation.Rotate, Rescaled;
    var c, normed := rot.headDim, m.NormHeads(x, heads, weight);
    NormedHead(m, x, heads, weight, h);
    PartOfBlocks(heads, c, (k: int) => rot.Rotate(Part(normed, k * c, c), pos), h);
  }

  /** `l2_norm_heads` does to segment h what the layer's L2 norm of query and key heads does. */
  lemma L2Head(m: Llama.Model, conv: Vec, h: nat)
    requires m.cfg.gdn.head.keyDim > 0 && h < 2 * m.cfg.gdn.keyHeads && 2 * m.cfg.gdn.KeyWidth() <= |conv|
    ensures var n := m.cfg.gdn.head.keyDim;
      Part(m.L2Normed(conv), h * n, n) == Rescaled(Part(conv, h * n, n), L2Rescale(m.cfg.math, m.cfg.eps))
  {
    var n := m.cfg.gdn.head.keyDim;
    RowEnd(h, 2 * m.cfg.gdn.keyHeads, n);
    assert 2 * m.cfg.gdn.keyHeads * n == 2 * m.cfg.gdn.KeyWidth();
    ModUnique(h * n, n, h, 0);
    forall d | 0 <= d < n
      ensures Part(m.L2Normed(conv), h * n, n)[d] == Rescaled(Part(conv, h * n, n), L2Rescale(m.cfg.math, m.cfg.eps))[d]
    {
      L2Cell(m, conv, h * n, d);
    }
  }

  lemma L2Cell(m: Llama.Model, conv: Vec, at: nat, d: nat)
    requires d < m.cfg.gdn.head.keyDim && at % m.cfg.gdn.head.keyDim == 0
    requires at + d < 2 * m.cfg.gdn.KeyWidth() <= |conv|
    ensures var n := m.cfg.gdn.head.keyDim;
      Part(m.L2Normed(conv), at, n)[d] == Rescaled(Part(conv, at, n), L2Rescale(m.cfg.math, m.cfg.eps))[d]
  {
    hide SumSquares;
    var n, i, r := m.cfg.gdn.head.keyDim, at + d, L2Rescale(m.cfg.math, m.cfg.eps);
    var x := Part(conv, at, n);
    ModUnique(i, n, at / n, d);
    assert i / n * n == at;
    assert m.L2Normed(conv)[i] == Div(At(conv, i), m.cfg.math.sqrt(SumSquares(x) + m.cfg.eps));
    assert x[d] == At(conv, i) && Part(m.L2Normed(conv), at, n)[d] == At(m.L2Normed(conv), i);
    RescaledAt(x, r, d);
    assert r(d, x[d], SumSquares(x)) == Div(x[d], m.cfg.math.sqrt(SumSquares(x) + m.cfg.eps));
  }

  /** `gdn_gated_rms_norm` does to head h what the layer's gated norm does. */
  lemma GatedHead(m: Llama.Model, out: Vec, z: Vec, weight: Vec, h: nat)
    requires h < m.cfg.gdn.valueHeads
    ensures var n := m.cfg.gdn.head.valueDim;
      Part(m.GatedNorm(out, z, weight), h * n, n)
        == Rescaled(Part(out, h * n, n), GatedRescale(m.cfg.math, weight, Part(z, h * n, n), m.cfg.eps, n))
  {
    hide SumSquares, FromBlocks, ScaledBy, Silu, Mul;
    var n := m.cfg.gdn.head.valueDim;
    var f := (g: int) =>
      seq(n, d => Mul(ScaledBy(At(weight, d), At(out, g * n + d), Rms(m.cfg.math, Part(out, g * n, n), m.cfg.eps)),
                      Silu(m.cfg.math, At(z, g * n + d))));
    PartOfBlocks(m.cfg.gdn.valueHeads, n, f, h);
    GatedCells(m.cfg.math, out, z, weight, m.cfg.eps, n, h * n);
  }

  lemma GatedCells(math: Math, out: Vec, z: Vec, weight: Vec, eps: real, n: nat, at: int)
    ensures seq(n, d => Mul(ScaledBy(At(weight, d), At(out, at + d), Rms(math, Part(out, at, n), eps)),
                            Silu(math, At(z, at + d))))
      == Rescaled(Part(out, at, n), GatedRescale(math, weight, Part(z, at, n), eps, n))
  {
    hide SumSquares, ScaledBy, Silu, Mul;
    var x, g := Part(out, at, n), Part(z, at, n);
    forall d | 0 <= d < n
      ensures Mul(ScaledBy(At(weight, d), At(out, at + d), Rms(math, x, eps)), Silu(math, At(z, at + d)))
        == Rescaled(x, GatedRescale(math, weight, g, eps, n))[d]
    {
      var r := GatedRescale(math, weight, g, eps, n);
      assert x[d] == At(out, at + d) && g[d] == At(z, at + d);
      RescaledAt(x, r, d);
      assert r(d, x[d], SumSquares(x)) == Mul(ScaledBy(At(weight, d), x[d], Rms(math, x, eps)), Silu(math, g[d]));
    }
  }
}
