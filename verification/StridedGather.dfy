/** The phase in which every lane sums over its strided cells of an array and leaves the sum in shared
    memory: the first half of every cooperative norm and dot. Cells: `lanes` partial sums, then the array. */
module StridedGather {
  import opened Sums
  import opened Striding
  import opened Workgroup
  import opened TreeReduction
  import opened WorkgroupKernels

  /** acc = 0 + term, folded into the load of the first cell. */
  function TakeFirst(term: (int, real) -> real, j: int): (Regs, real) -> Regs {
    (r: Regs, v: real) => r.(a := term(j, v))
  }

  /** acc += term, folded into the load of a cell. */
  function TakeNext(term: (int, real) -> real, j: int): (Regs, real) -> Regs {
    (r: Regs, v: real) => r.(a := r.a + term(j, v))
  }

  function GatherLoop(lanes: nat, n: nat, i: nat, term: (int, real) -> real): Code<Regs>
    requires lanes > 0
    decreases n - i
  {
    if i >= n then [] else [Load(lanes + i, TakeNext(term, i))] + GatherLoop(lanes, n, i + lanes, term)
  }

  /** One lane: its sum, into its own cell. */
  function GatherCode(lanes: nat, n: nat, lane: nat, term: (int, real) -> real): Code<Regs>
    requires lanes > 0
  {
    if lane >= n then [Store(lane, (r: Regs) => 0.0)]
    else GatherLoads(lanes, n, lane, term) + [Store(lane, (r: Regs) => r.a)]
  }

  function GatherLoads(lanes: nat, n: nat, lane: nat, term: (int, real) -> real): Code<Regs>
    requires lanes > 0
  {
    [Load(lanes + lane, TakeFirst(term, lane))] + GatherLoop(lanes, n, lane + lanes, term)
  }

  function GatherPhase(lanes: nat, n: nat, term: (int, real) -> real): (p: Phase<Regs>)
    requires lanes > 0
    ensures |p| == lanes
  {
    seq(lanes, lane requires 0 <= lane < lanes => GatherCode(lanes, n, lane, term))
  }

  /** What is summed, index by index. */
  function CellTerms(mem: Memory, lanes: nat, term: (int, real) -> real): int -> real {
    (j: int) => term(j, At(mem, lanes + j))
  }

  // ---- One lane ----

  lemma LoadSolo(addr: nat, take: (Regs, real) -> Regs, regs: Regs, mem: Memory)
    requires addr < |mem|
    ensures var code: Code<Regs> := [Load(addr, take)];
      CodeOk(code, |mem|) && Solo(code, |code|, regs, mem) == (take(regs, mem[addr]), mem)
  {
    var code: Code<Regs> := [Load(addr, take)];
    assert Solo(code, 0, regs, mem) == (regs, mem);
  }

  lemma StoreSolo(addr: nat, give: Regs -> real, regs: Regs, mem: Memory)
    requires addr < |mem|
    ensures var code: Code<Regs> := [Store(addr, give)];
      CodeOk(code, |mem|) && Solo(code, |code|, regs, mem) == (regs, mem[addr := give(regs)])
  {
    var code: Code<Regs> := [Store(addr, give)];
    assert Solo(code, 0, regs, mem) == (regs, mem);
  }

  lemma NothingSolo(regs: Regs, mem: Memory)
    ensures CodeOk<Regs>([], |mem|) && Solo([], 0, regs, mem) == (regs, mem)
  {}

  lemma {:induction false} GatherLoopSolo(lanes: nat, n: nat, i: nat, term: (int, real) -> real, regs: Regs,
                                          mem: Memory)
    requires lanes > 0 && lanes + n <= |mem|
    ensures var code := GatherLoop(lanes, n, i, term);
      && CodeOk(code, |mem|)
      && Solo(code, |code|, regs, mem)
           == (regs.(a := regs.a + StrideSum(i, lanes, n, CellTerms(mem, lanes, term))), mem)
    decreases n - i
  {
    hide Solo, CodeOk, StrideSum;
    var f := CellTerms(mem, lanes, term);
    StrideSumStep(i, lanes, n, f);
    if i < n {
      var head: Code<Regs> := [Load(lanes + i, TakeNext(term, i))];
      var rest := GatherLoop(lanes, n, i + lanes, term);
      LoadSolo(lanes + i, TakeNext(term, i), regs, mem);
      GatherLoopSolo(lanes, n, i + lanes, term, regs.(a := regs.a + f(i)), mem);
      SoloJoin(head, rest, |rest|, regs, mem);
    } else {
      NothingSolo(regs, mem);
    }
  }

  lemma GatherSolo(lanes: nat, n: nat, lane: nat, term: (int, real) -> real, regs: Regs, mem: Memory)
    requires lane < lanes && lanes + n <= |mem|
    ensures var code := GatherCode(lanes, n, lane, term);
      && CodeOk(code, |mem|)
      && Solo(code, |code|, regs, mem).1[lane] == StrideSum(lane, lanes, n, CellTerms(mem, lanes, term))
  {
    hide Solo, CodeOk, StrideSum, GatherLoads;
    if lane < n {
      var give := (r: Regs) => r.a;
      var loads, last: Code<Regs> := GatherLoads(lanes, n, lane, term), [Store(lane, give)];
      LoadsSolo(lanes, n, lane, term, regs, mem);
      StoreSolo(lane, give, Solo(loads, |loads|, regs, mem).0, mem);
      SoloJoin(loads, last, 1, regs, mem);
    } else {
      StrideSumStep(lane, lanes, n, CellTerms(mem, lanes, term));
      StoreSolo(lane, (r: Regs) => 0.0, regs, mem);
    }
  }

  lemma LoadsSolo(lanes: nat, n: nat, lane: nat, term: (int, real) -> real, regs: Regs, mem: Memory)
    requires lane < lanes && lanes + n <= |mem| && lane < n
    ensures var loads := GatherLoads(lanes, n, lane, term);
      && CodeOk(loads, |mem|)
      && Solo(loads, |loads|, regs, mem)
           == (regs.(a := StrideSum(lane, lanes, n, CellTerms(mem, lanes, term))), mem)
  {
    hide Solo, CodeOk, StrideSum, GatherLoop;
    var f := CellTerms(mem, lanes, term);
    StrideSumStep(lane, lanes, n, f);
    var first: Code<Regs>, loop :=
      [Load(lanes + lane, TakeFirst(term, lane))], GatherLoop(lanes, n, lane + lanes, term);
    LoadSolo(lanes + lane, TakeFirst(term, lane), regs, mem);
    GatherLoopSolo(lanes, n, lane + lanes, term, regs.(a := f(lane)), mem);
    SoloJoin(first, loop, |loop|, regs, mem);
  }

  lemma {:induction false} GatherLoopCells(lanes: nat, n: nat, i: nat, term: (int, real) -> real, addr: nat)
    requires lanes > 0
    ensures Touches(GatherLoop(lanes, n, i, term), addr) ==> lanes <= addr
    ensures !Writes(GatherLoop(lanes, n, i, term), addr)
    decreases n - i
  {
    if i < n {
      GatherLoopCells(lanes, n, i + lanes, term, addr);
      TouchesJoin([Load(lanes + i, TakeNext(term, i))], GatherLoop(lanes, n, i + lanes, term), addr);
    }
  }

  lemma GatherCells(lanes: nat, n: nat, lane: nat, term: (int, real) -> real, addr: nat)
    requires lane < lanes
    ensures Touches(GatherCode(lanes, n, lane, term), addr) ==> addr == lane || lanes <= addr
    ensures Writes(GatherCode(lanes, n, lane, term), addr) <==> addr == lane
  {
    hide Touches, Writes, GatherLoop;
    if lane < n {
      var first: Code<Regs> := [Load(lanes + lane, TakeFirst(term, lane))];
      var loop := GatherLoop(lanes, n, lane + lanes, term);
      var last: Code<Regs> := [Store(lane, (r: Regs) => r.a)];
      GatherLoopCells(lanes, n, lane + lanes, term, addr);
      TouchesJoin(first, loop, addr);
      TouchesJoin(first + loop, last, addr);
      TouchesOne(first[0], addr);
      TouchesOne(last[0], addr);
    } else {
      TouchesOne(GatherCode(lanes, n, lane, term)[0], addr);
    }
  }

  // ---- All lanes ----

  lemma GatherMeaning(lanes: nat, n: nat, term: (int, real) -> real, regs: seq<Regs>, mem: Memory)
    requires 0 < lanes == |regs| && lanes + n <= |mem|
    ensures PhaseRaceFree(GatherPhase(lanes, n, term))
    ensures forall i :: 0 <= i < lanes ==> CodeOk(GatherPhase(lanes, n, term)[i], |mem|)
    ensures var m := PhaseMem(GatherPhase(lanes, n, term), regs, mem);
      && (forall lane :: 0 <= lane < lanes ==> m[lane] == StrideSum(lane, lanes, n, CellTerms(mem, lanes, term)))
      && (forall i :: lanes <= i < |mem| ==> m[i] == mem[i])
  {
    hide GatherCode, Writes, Touches, CodeOk, StrideSum;
    var phase := GatherPhase(lanes, n, term);
    forall i | 0 <= i < lanes
      ensures CodeOk(phase[i], |mem|)
    {
      GatherSolo(lanes, n, i, term, regs[i], mem);
    }
    forall i, j, addr: nat | 0 <= i < lanes && 0 <= j < lanes && i != j && Writes(phase[i], addr)
      ensures !Touches(phase[j], addr)
    {
      GatherCells(lanes, n, i, term, addr);
      GatherCells(lanes, n, j, term, addr);
    }
    forall lane | 0 <= lane < lanes
      ensures PhaseMem(phase, regs, mem)[lane] == StrideSum(lane, lanes, n, CellTerms(mem, lanes, term))
    {
      GatherCells(lanes, n, lane, term, lane);
      GatherSolo(lanes, n, lane, term, regs[lane], mem);
      WriterDecides(phase, regs, mem, lane, lane);
    }
    forall i | lanes <= i < |mem|
      ensures PhaseMem(phase, regs, mem)[i] == mem[i]
    {
      forall j | 0 <= j < lanes
        ensures !Writes(phase[j], i)
      {
        GatherCells(lanes, n, j, term, i);
      }
    }
  }
}
