/** A GPU workgroup: lanes that run the same kernel on shared memory, phase by phase,
    with a barrier (`sync_cube`) between phases. Between two barriers the lanes' loads
    and stores may interleave in any order. */
module Workgroup {

  /** One indivisible memory access of a lane, with the private arithmetic folded in. */
  datatype Instr<!L> =
    | Load(addr: nat, take: (L, real) -> L)
    | Store(addr: nat, give: L -> real)

  type Code<!L> = seq<Instr<L>>
  /** The code of every lane between two barriers. */
  type Phase<!L> = seq<Code<L>>
  type Kernel<!L> = seq<Phase<L>>

  type Memory = seq<real>

  datatype Config<!L> = Config(phase: nat, pcs: seq<nat>, regs: seq<L>, mem: Memory)

  /** What the scheduler picks next: a lane to advance, or the barrier. */
  datatype Choice = Advance(lane: nat) | Barrier

  ghost predicate CodeOk<L>(code: Code<L>, cells: nat) {
    forall k :: 0 <= k < |code| ==> code[k].addr < cells
  }

  ghost predicate KernelOk<L>(kernel: Kernel<L>, lanes: nat, cells: nat) {
    forall p :: 0 <= p < |kernel| ==>
      |kernel[p]| == lanes && forall i :: 0 <= i < lanes ==> CodeOk(kernel[p][i], cells)
  }

  ghost predicate Writes<L>(code: Code<L>, addr: nat) {
    exists k :: 0 <= k < |code| && code[k].Store? && code[k].addr == addr
  }

  ghost predicate Touches<L>(code: Code<L>, addr: nat) {
    exists k :: 0 <= k < |code| && code[k].addr == addr
  }

  /** Between two barriers no lane touches a cell that another lane writes. */
  ghost predicate PhaseRaceFree<L>(phase: Phase<L>) {
    forall i, j, addr: nat ::
      0 <= i < |phase| && 0 <= j < |phase| && i != j && Writes(phase[i], addr) ==> !Touches(phase[j], addr)
  }

  ghost predicate RaceFree<L>(kernel: Kernel<L>) {
    forall p :: 0 <= p < |kernel| ==> PhaseRaceFree(kernel[p])
  }

  // ---- Interleaved execution ----

  function Start<L>(regs: seq<L>, mem: Memory): Config<L> {
    Config(0, seq(|regs|, i => 0), regs, mem)
  }

  ghost predicate ConfigOk<L>(kernel: Kernel<L>, c: Config<L>) {
    && |c.pcs| == |c.regs|
    && KernelOk(kernel, |c.regs|, |c.mem|)
    && c.phase <= |kernel|
    && forall i :: 0 <= i < |c.pcs| && c.phase < |kernel| ==> c.pcs[i] <= |kernel[c.phase][i]|
  }

  ghost predicate Enabled<L>(kernel: Kernel<L>, c: Config<L>, choice: Choice)
    requires ConfigOk(kernel, c)
  {
    c.phase < |kernel| &&
    match choice
    case Advance(i) => i < |c.pcs| && c.pcs[i] < |kernel[c.phase][i]|
    case Barrier => forall i :: 0 <= i < |c.pcs| ==> c.pcs[i] == |kernel[c.phase][i]|
  }

  function Step<L>(kernel: Kernel<L>, c: Config<L>, choice: Choice): (c': Config<L>)
    requires ConfigOk(kernel, c) && Enabled(kernel, c, choice)
    ensures ConfigOk(kernel, c') && |c'.regs| == |c.regs| && |c'.mem| == |c.mem|
  {
    match choice
    case Advance(i) =>
      var instr := kernel[c.phase][i][c.pcs[i]];
      assert CodeOk(kernel[c.phase][i], |c.mem|);
      var c1 := c.(pcs := c.pcs[i := c.pcs[i] + 1]);
      if instr.Load? then c1.(regs := c.regs[i := instr.take(c.regs[i], c.mem[instr.addr])])
      else c1.(mem := c.mem[instr.addr := instr.give(c.regs[i])])
    case Barrier =>
      c.(phase := c.phase + 1, pcs := seq(|c.pcs|, i => 0))
  }

  /** `schedule` is a possible run from `c` and leads to `final`. */
  ghost predicate Run<L>(kernel: Kernel<L>, c: Config<L>, schedule: seq<Choice>, final: Config<L>)
    decreases |schedule|
  {
    ConfigOk(kernel, c) &&
    if schedule == [] then final == c
    else Enabled(kernel, c, schedule[0]) && Run(kernel, Step(kernel, c, schedule[0]), schedule[1..], final)
  }

  // ---- The meaning of a kernel, lane by lane ----

  /** The first k accesses of one lane, run with no other lane present. */
  ghost function Solo<L>(code: Code<L>, k: nat, regs: L, mem: Memory): (r: (L, Memory))
    requires k <= |code| && CodeOk(code, |mem|)
    ensures |r.1| == |mem|
  {
    if k == 0 then (regs, mem)
    else
      var (r, m) := Solo(code, k - 1, regs, mem);
      var instr := code[k - 1];
      if instr.Load? then (instr.take(r, m[instr.addr]), m)
      else (r, m[instr.addr := instr.give(r)])
  }

  ghost function PhaseRegs<L>(phase: Phase<L>, regs: seq<L>, mem: Memory): (r: seq<L>)
    requires |phase| == |regs| && forall i :: 0 <= i < |phase| ==> CodeOk(phase[i], |mem|)
    ensures |r| == |regs|
  {
    seq(|regs|, i requires 0 <= i < |regs| => Solo(phase[i], |phase[i]|, regs[i], mem).0)
  }

  /** A cell's value after a phase: what its writer alone would leave there, or the old value. */
  ghost function CellAfter<L>(phase: Phase<L>, regs: seq<L>, mem: Memory, addr: nat): real
    requires |phase| == |regs| && forall i :: 0 <= i < |phase| ==> CodeOk(phase[i], |mem|)
    requires addr < |mem|
  {
    if exists i :: 0 <= i < |phase| && Writes(phase[i], addr) then
      var i :| 0 <= i < |phase| && Writes(phase[i], addr);
      Solo(phase[i], |phase[i]|, regs[i], mem).1[addr]
    else mem[addr]
  }

  ghost function PhaseMem<L>(phase: Phase<L>, regs: seq<L>, mem: Memory): (m: Memory)
    requires |phase| == |regs| && forall i :: 0 <= i < |phase| ==> CodeOk(phase[i], |mem|)
    ensures |m| == |mem|
  {
    seq(|mem|, addr requires 0 <= addr < |mem| => CellAfter(phase, regs, mem, addr))
  }

  /** Registers and memory after phases p, p+1, ... */
  ghost function Meaning<L>(kernel: Kernel<L>, p: nat, regs: seq<L>, mem: Memory): (r: (seq<L>, Memory))
    requires p <= |kernel| && KernelOk(kernel, |regs|, |mem|)
    ensures |r.0| == |regs| && |r.1| == |mem|
    decreases |kernel| - p
  {
    if p == |kernel| then (regs, mem)
    else Meaning(kernel, p + 1, PhaseRegs(kernel[p], regs, mem), PhaseMem(kernel[p], regs, mem))
  }

  /** With no race, the writer of a cell is unique, so its lone run decides the cell. */
  lemma WriterDecides<L>(phase: Phase<L>, regs: seq<L>, mem: Memory, i: nat, addr: nat)
    requires |phase| == |regs| && forall j :: 0 <= j < |phase| ==> CodeOk(phase[j], |mem|)
    requires PhaseRaceFree(phase) && i < |phase| && addr < |mem| && Writes(phase[i], addr)
    ensures PhaseMem(phase, regs, mem)[addr] == Solo(phase[i], |phase[i]|, regs[i], mem).1[addr]
  {
    forall j | 0 <= j < |phase| && Writes(phase[j], addr)
      ensures j == i
    {
      assert Touches(phase[i], addr);
    }
  }

  lemma SoloStep<L>(code: Code<L>, k: nat, regs: L, mem: Memory)
    requires k < |code| && CodeOk(code, |mem|)
    ensures var (r, m) := Solo(code, k, regs, mem);
      && code[k].addr < |mem|
      && Solo(code, k + 1, regs, mem) ==
        if code[k].Load? then (code[k].take(r, m[code[k].addr]), m) else (r, m[code[k].addr := code[k].give(r)])
  {}

  lemma SoloNone<L>(code: Code<L>, regs: L, mem: Memory)
    requires CodeOk(code, |mem|)
    ensures Solo(code, 0, regs, mem) == (regs, mem)
  {}

  lemma {:induction false} SoloFrame<L>(code: Code<L>, k: nat, regs: L, mem: Memory, addr: nat)
    requires k <= |code| && CodeOk(code, |mem|) && addr < |mem| && !Writes(code, addr)
    ensures Solo(code, k, regs, mem).1[addr] == mem[addr]
  {
    if k > 0 { SoloFrame(code, k - 1, regs, mem, addr); }
  }

  // ---- Every schedule computes the meaning ----

  /** The phase began with registers regs0 and memory mem0, and each lane is exactly where
      it would be had it run alone from there. */
  ghost predicate Tracks<L>(kernel: Kernel<L>, c: Config<L>, regs0: seq<L>, mem0: Memory)
    requires ConfigOk(kernel, c) && c.phase < |kernel|
  {
    var phase := kernel[c.phase];
    && |regs0| == |c.regs| && |mem0| == |c.mem|
    && (forall i :: 0 <= i < |c.regs| ==>
          CodeOk(phase[i], |mem0|) && c.regs[i] == Solo(phase[i], c.pcs[i], regs0[i], mem0).0)
    && (forall i, addr :: 0 <= i < |c.regs| && 0 <= addr < |mem0| && Touches(phase[i], addr) ==>
          c.mem[addr] == Solo(phase[i], c.pcs[i], regs0[i], mem0).1[addr])
    && (forall addr :: 0 <= addr < |mem0| && (forall i :: 0 <= i < |c.regs| ==> !Writes(phase[i], addr)) ==>
          c.mem[addr] == mem0[addr])
  }

  lemma AdvanceTracks<L>(kernel: Kernel<L>, c: Config<L>, regs0: seq<L>, mem0: Memory, lane: nat)
    requires ConfigOk(kernel, c) && RaceFree(kernel)
    requires Enabled(kernel, c, Advance(lane)) && Tracks(kernel, c, regs0, mem0)
    ensures Tracks(kernel, Step(kernel, c, Advance(lane)), regs0, mem0)
  {
    hide Tracks;
    var instr: Instr<L> := kernel[c.phase][lane][c.pcs[lane]];
    if instr.Store? {
      StoreTracks(kernel, c, regs0, mem0, lane);
    } else {
      LoadTracks(kernel, c, regs0, mem0, lane);
    }
  }

  /** A load sees what the lane would see alone. */
  lemma LoadTracks<L>(kernel: Kernel<L>, c: Config<L>, regs0: seq<L>, mem0: Memory, lane: nat)
    requires ConfigOk(kernel, c)
    requires Enabled(kernel, c, Advance(lane)) && Tracks(kernel, c, regs0, mem0)
    requires kernel[c.phase][lane][c.pcs[lane]].Load?
    ensures Tracks(kernel, Step(kernel, c, Advance(lane)), regs0, mem0)
  {
    hide Solo;
    var code := kernel[c.phase][lane];
    SoloStep(code, c.pcs[lane], regs0[lane], mem0);
    assert Touches(code, code[c.pcs[lane]].addr);
  }

  /** A store changes a cell that no other lane touches. */
  lemma StoreTracks<L>(kernel: Kernel<L>, c: Config<L>, regs0: seq<L>, mem0: Memory, lane: nat)
    requires ConfigOk(kernel, c) && RaceFree(kernel)
    requires Enabled(kernel, c, Advance(lane)) && Tracks(kernel, c, regs0, mem0)
    requires kernel[c.phase][lane][c.pcs[lane]].Store?
    ensures Tracks(kernel, Step(kernel, c, Advance(lane)), regs0, mem0)
  {
    var phase := kernel[c.phase];
    var instr: Instr<L> := phase[lane][c.pcs[lane]];
    var c' := Step(kernel, c, Advance(lane));
    hide Solo;
    SoloStep(phase[lane], c.pcs[lane], regs0[lane], mem0);
    assert Touches(phase[lane], instr.addr) && Writes(phase[lane], instr.addr);
    assert PhaseRaceFree(phase);
    forall i, addr | 0 <= i < |c.regs| && 0 <= addr < |mem0| && Touches(phase[i], addr)
      ensures c'.mem[addr] == Solo(phase[i], c'.pcs[i], regs0[i], mem0).1[addr]
    {
      if i != lane { assert addr != instr.addr; }
    }
  }

  lemma BarrierCompletes<L>(kernel: Kernel<L>, c: Config<L>, regs0: seq<L>, mem0: Memory)
    requires ConfigOk(kernel, c) && RaceFree(kernel)
    requires Enabled(kernel, c, Barrier) && Tracks(kernel, c, regs0, mem0)
    ensures c.regs == PhaseRegs(kernel[c.phase], regs0, mem0)
    ensures c.mem == PhaseMem(kernel[c.phase], regs0, mem0)
  {
    var phase := kernel[c.phase];
    forall addr | 0 <= addr < |mem0|
      ensures c.mem[addr] == PhaseMem(phase, regs0, mem0)[addr]
    {
      if i :| 0 <= i < |phase| && Writes(phase[i], addr) {
        WriterDecides(phase, regs0, mem0, i, addr);
        assert Touches(phase[i], addr);
      }
    }
  }

  lemma FreshTracks<L>(kernel: Kernel<L>, c: Config<L>)
    requires ConfigOk(kernel, c) && c.phase < |kernel|
    requires forall i :: 0 <= i < |c.pcs| ==> c.pcs[i] == 0
    ensures Tracks(kernel, c, c.regs, c.mem)
  {
    forall i | 0 <= i < |c.regs|
      ensures CodeOk(kernel[c.phase][i], |c.mem|)
    {}
  }

  lemma {:induction false} RunComputes<L>(kernel: Kernel<L>, c: Config<L>, schedule: seq<Choice>, final: Config<L>,
                                          regs0: seq<L>, mem0: Memory)
    requires ConfigOk(kernel, c) && RaceFree(kernel)
    requires Run(kernel, c, schedule, final) && final.phase == |kernel|
    requires c.phase < |kernel| && Tracks(kernel, c, regs0, mem0)
    ensures (final.regs, final.mem) == Meaning(kernel, c.phase, regs0, mem0)
    decreases |schedule|
  {
    hide Tracks, PhaseRegs, PhaseMem, RaceFree;
    var c' := Step(kernel, c, schedule[0]);
    if schedule[0].Advance? {
      AdvanceTracks(kernel, c, regs0, mem0, schedule[0].lane);
      RunComputes(kernel, c', schedule[1..], final, regs0, mem0);
    } else {
      BarrierCompletes(kernel, c, regs0, mem0);
      if c'.phase == |kernel| {
        DoneIsFinal(kernel, c', schedule[1..], final);
      } else {
        FreshTracks(kernel, c');
        RunComputes(kernel, c', schedule[1..], final, c'.regs, c'.mem);
      }
    }
  }

  lemma DoneIsFinal<L>(kernel: Kernel<L>, c: Config<L>, schedule: seq<Choice>, final: Config<L>)
    requires ConfigOk(kernel, c) && c.phase == |kernel| && Run(kernel, c, schedule, final)
    ensures schedule == [] && final == c
  {}

  /** Schedule independence: every complete run of a race-free kernel, however its lanes
      interleave, ends with the registers and memory of the kernel's meaning. */
  lemma ScheduleIndependence<L>(kernel: Kernel<L>, regs: seq<L>, mem: Memory, schedule: seq<Choice>, final: Config<L>)
    requires KernelOk(kernel, |regs|, |mem|) && RaceFree(kernel)
    requires Run(kernel, Start(regs, mem), schedule, final) && final.phase == |kernel|
    ensures (final.regs, final.mem) == Meaning(kernel, 0, regs, mem)
  {
    var c := Start(regs, mem);
    if |kernel| == 0 {
      DoneIsFinal(kernel, c, schedule, final);
    } else {
      FreshTracks(kernel, c);
      RunComputes(kernel, c, schedule, final, regs, mem);
    }
  }

  // ---- No deadlock, and every run ends ----

  ghost function CodeLeft<L>(phase: Phase<L>, pcs: seq<nat>, i: nat): int
    requires i <= |phase| == |pcs|
  {
    if i == 0 then 0 else CodeLeft(phase, pcs, i - 1) + |phase[i - 1]| - pcs[i - 1]
  }

  ghost function PhasesLeft<L>(kernel: Kernel<L>, p: nat, lanes: nat): int
    requires p <= |kernel| && forall q :: 0 <= q < |kernel| ==> |kernel[q]| == lanes
    decreases |kernel| - p
  {
    if p == |kernel| then 0
    else CodeLeft(kernel[p], seq(lanes, i => 0), lanes) + 1 + PhasesLeft(kernel, p + 1, lanes)
  }

  /** Accesses and barriers still to come. */
  ghost function StepsLeft<L>(kernel: Kernel<L>, c: Config<L>): int
    requires ConfigOk(kernel, c)
  {
    if c.phase == |kernel| then 0
    else CodeLeft(kernel[c.phase], c.pcs, |c.pcs|) + 1 + PhasesLeft(kernel, c.phase + 1, |c.pcs|)
  }

  lemma {:induction false} CodeLeftAdvance<L>(phase: Phase<L>, pcs: seq<nat>, i: nat, lane: nat)
    requires i <= |phase| == |pcs| && lane < |pcs|
    ensures CodeLeft(phase, pcs[lane := pcs[lane] + 1], i) == CodeLeft(phase, pcs, i) - (if lane < i then 1 else 0)
  {
    if i > 0 { CodeLeftAdvance(phase, pcs, i - 1, lane); }
  }

  lemma {:induction false} CodeLeftDone<L>(phase: Phase<L>, pcs: seq<nat>, i: nat)
    requires i <= |phase| == |pcs| && forall j :: 0 <= j < i ==> pcs[j] == |phase[j]|
    ensures CodeLeft(phase, pcs, i) == 0
  {
    if i > 0 { CodeLeftDone(phase, pcs, i - 1); }
  }

  lemma StepDecreases<L>(kernel: Kernel<L>, c: Config<L>, choice: Choice)
    requires ConfigOk(kernel, c) && Enabled(kernel, c, choice)
    ensures StepsLeft(kernel, Step(kernel, c, choice)) == StepsLeft(kernel, c) - 1
  {
    if choice.Advance? {
      CodeLeftAdvance(kernel[c.phase], c.pcs, |c.pcs|, choice.lane);
    } else {
      CodeLeftDone(kernel[c.phase], c.pcs, |c.pcs|);
    }
  }

  /** A run can always be continued until the last barrier, and every run that gets there takes
      the same number of steps: no schedule deadlocks or goes on for ever. */
  lemma {:induction false} EveryRunEnds<L>(kernel: Kernel<L>, c: Config<L>, schedule: seq<Choice>, final: Config<L>)
    requires ConfigOk(kernel, c) && Run(kernel, c, schedule, final)
    ensures ConfigOk(kernel, final) && |schedule| == StepsLeft(kernel, c) - StepsLeft(kernel, final)
    ensures final.phase < |kernel| ==> exists choice :: Enabled(kernel, final, choice)
    ensures final.phase == |kernel| <==> |schedule| == StepsLeft(kernel, c)
    decreases |schedule|
  {
    if schedule != [] {
      StepDecreases(kernel, c, schedule[0]);
      EveryRunEnds(kernel, Step(kernel, c, schedule[0]), schedule[1..], final);
    } else {
      StepsLeftPositive(kernel, c);
      if final.phase < |kernel| {
        if i :| 0 <= i < |c.pcs| && c.pcs[i] < |kernel[c.phase][i]| {
          assert Enabled(kernel, final, Advance(i));
        } else {
          assert Enabled(kernel, final, Barrier);
        }
      }
    }
  }

  lemma StepsLeftPositive<L>(kernel: Kernel<L>, c: Config<L>)
    requires ConfigOk(kernel, c)
    ensures StepsLeft(kernel, c) >= 0
    ensures c.phase < |kernel| ==> StepsLeft(kernel, c) > 0
  {
    if c.phase < |kernel| {
      CodeLeftNonNeg(kernel[c.phase], c.pcs, |c.pcs|);
      PhasesLeftNonNeg(kernel, c.phase + 1, |c.pcs|);
    }
  }

  lemma {:induction false} CodeLeftNonNeg<L>(phase: Phase<L>, pcs: seq<nat>, i: nat)
    requires i <= |phase| == |pcs| && forall j :: 0 <= j < i ==> pcs[j] <= |phase[j]|
    ensures CodeLeft(phase, pcs, i) >= 0
  {
    if i > 0 { CodeLeftNonNeg(phase, pcs, i - 1); }
  }

  lemma {:induction false} PhasesLeftNonNeg<L>(kernel: Kernel<L>, p: nat, lanes: nat)
    requires p <= |kernel| && forall q :: 0 <= q < |kernel| ==> |kernel[q]| == lanes
    ensures PhasesLeft(kernel, p, lanes) >= 0
    decreases |kernel| - p
  {
    if p < |kernel| {
      CodeLeftNonNeg(kernel[p], seq(lanes, i => 0), lanes);
      PhasesLeftNonNeg(kernel, p + 1, lanes);
    }
  }

  // ---- A device that interleaves lanes in an order of its own ----

  /** Some lane has work left; from lane `from` on, going round, the first that has. */
  function Waiting<L>(phase: Phase<L>, pcs: seq<nat>, from: nat): (lane: int)
    requires |phase| == |pcs| && from <= |pcs|
    ensures lane < 0 ==> forall i :: from <= i < |pcs| ==> pcs[i] >= |phase[i]|
    ensures lane >= 0 ==> from <= lane < |pcs| && pcs[lane] < |phase[lane]|
    decreases |pcs| - from
  {
    if from == |pcs| then -1 else if pcs[from] < |phase[from]| then from else Waiting(phase, pcs, from + 1)
  }

  /** The lane the scheduler asks for, or the next one round that can go on; the barrier when none can. */
  function Choose<L>(kernel: Kernel<L>, c: Config<L>, ask: nat): (choice: Choice)
    requires ConfigOk(kernel, c) && c.phase < |kernel|
    ensures Enabled(kernel, c, choice)
  {
    var phase, from := kernel[c.phase], if |c.pcs| == 0 then 0 else ask % |c.pcs|;
    var lane := Waiting(phase, c.pcs, from);
    if lane >= 0 then Advance(lane)
    else
      var first := Waiting(phase, c.pcs, 0);
      if first >= 0 then Advance(first) else Barrier
  }

  /** `final` is the memory a complete run can leave. */
  ghost predicate Complete<L(!new)>(kernel: Kernel<L>, regs: seq<L>, mem: Memory, final: Memory) {
    exists schedule: seq<Choice>, c: Config<L> :: Finishes(kernel, regs, mem, schedule, c) && c.mem == final
  }

  ghost predicate Finishes<L>(kernel: Kernel<L>, regs: seq<L>, mem: Memory, schedule: seq<Choice>, c: Config<L>) {
    Run(kernel, Start(regs, mem), schedule, c) && c.phase == |kernel|
  }

  lemma {:induction false} RunAppend<L>(kernel: Kernel<L>, c: Config<L>, schedule: seq<Choice>, mid: Config<L>,
                                        choice: Choice)
    requires Run(kernel, c, schedule, mid) && ConfigOk(kernel, mid) && Enabled(kernel, mid, choice)
    ensures Run(kernel, c, schedule + [choice], Step(kernel, mid, choice))
    decreases |schedule|
  {
    if schedule != [] {
      RunAppend(kernel, Step(kernel, c, schedule[0]), schedule[1..], mid, choice);
      assert (schedule + [choice])[1..] == schedule[1..] + [choice];
    }
  }

  /** Runs a kernel to its last barrier, asking `pick` which lane goes next. */
  method Execute<L(!new)>(pick: nat -> nat, kernel: Kernel<L>, regs: seq<L>, mem: Memory) returns (final: Memory)
    requires KernelOk(kernel, |regs|, |mem|)
    ensures Complete(kernel, regs, mem, final)
  {
    var c, asked := Start(regs, mem), 0;
    ghost var schedule: seq<Choice> := [];
    while c.phase < |kernel|
      invariant ConfigOk(kernel, c) && Run(kernel, Start(regs, mem), schedule, c)
      decreases StepsLeft(kernel, c)
    {
      StepsLeftPositive(kernel, c);
      var choice := Choose(kernel, c, pick(asked));
      StepDecreases(kernel, c, choice);
      RunAppend(kernel, Start(regs, mem), schedule, c, choice);
      schedule := schedule + [choice];
      c, asked := Step(kernel, c, choice), asked + 1;
    }
    final := c.mem;
    assert Finishes(kernel, regs, mem, schedule, c);
  }
}
