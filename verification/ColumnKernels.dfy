/** The GPU kernels that give each thread its own column: the two causal convolutions (a thread per
    channel) and the delta-rule recurrence (a thread per value dimension). No thread touches another's
    column, so every interleaving of their accesses leaves what each thread alone would. */
module ColumnKernels {
  import opened Sums
  import opened Striding
  import opened Blocks
  import opened Workgroup
  import opened WorkgroupKernels
  import opened Conv
  import opened Gdn

  datatype Held = Held(acc: real, held: real, out: real)

  const CLEARED := Held(0.0, 0.0, 0.0)

  // ---- Threads on columns ----

  function PlacedInstr(instr: Instr<Held>, width: nat, ch: nat): Instr<Held> {
    match instr
    case Load(a, take) => RowNonNeg(a, width); Load(a * width + ch, take)
    case Store(a, give) => RowNonNeg(a, width); Store(a * width + ch, give)
  }

  lemma RowNonNeg(a: nat, width: nat)
    ensures a * width >= 0
  {}

  /** Code on a column of cells, placed on column ch of a matrix with `width` columns. */
  function Placed(code: Code<Held>, width: nat, ch: nat): (p: Code<Held>)
    ensures |p| == |code|
  {
    seq(|code|, k requires 0 <= k < |code| => PlacedInstr(code[k], width, ch))
  }

  function ColumnPhase(codes: seq<Code<Held>>): (p: Phase<Held>)
    ensures |p| == |codes|
  {
    seq(|codes|, ch requires 0 <= ch < |codes| => Placed(codes[ch], |codes|, ch))
  }

  ghost predicate CodesOk(codes: seq<Code<Held>>, rows: nat) {
    forall ch :: 0 <= ch < |codes| ==> CodeOk(codes[ch], rows)
  }

  lemma PlacedOk(code: Code<Held>, rows: nat, width: nat, ch: nat)
    requires CodeOk(code, rows) && ch < width
    ensures CodeOk(Placed(code, width, ch), rows * width)
  {
    forall k | 0 <= k < |code|
      ensures Placed(code, width, ch)[k].addr < rows * width
    {
      RowEnd(code[k].addr, rows, width);
    }
  }

  lemma PlacedTouches(code: Code<Held>, width: nat, ch: nat, addr: nat)
    requires ch < width
    ensures Touches(Placed(code, width, ch), addr) ==> addr % width == ch
  {
    if k :| 0 <= k < |code| && Placed(code, width, ch)[k].addr == addr {
      ModUnique(addr, width, code[k].addr, ch);
    }
  }

  lemma {:induction false} PlacedSolo(code: Code<Held>, k: nat, regs: Held, mem: Memory, rows: nat, width: nat, ch: nat)
    requires CodeOk(code, rows) && k <= |code| && ch < width && |mem| == rows * width
    ensures CodeOk(Placed(code, width, ch), |mem|)
    ensures var placed := Solo(Placed(code, width, ch), k, regs, mem);
      var own := Solo(code, k, regs, Column(mem, rows, width, ch));
      placed.0 == own.0 && Column(placed.1, rows, width, ch) == own.1
  {
    hide Solo;
    PlacedOk(code, rows, width, ch);
    SoloNone(Placed(code, width, ch), regs, mem);
    SoloNone(code, regs, Column(mem, rows, width, ch));
    if k > 0 {
      PlacedSolo(code, k - 1, regs, mem, rows, width, ch);
      SoloStep(Placed(code, width, ch), k - 1, regs, mem);
      SoloStep(code, k - 1, regs, Column(mem, rows, width, ch));
      var m := Solo(Placed(code, width, ch), k - 1, regs, mem).1;
      var a := code[k - 1].addr;
      RowEnd(a, rows, width);
      assert Placed(code, width, ch)[k - 1] == PlacedInstr(code[k - 1], width, ch);
      assert Column(m, rows, width, ch)[a] == m[a * width + ch];
      if code[k - 1].Store? {
        ColumnStore(m, rows, width, ch, a, code[k - 1].give(Solo(code, k - 1, regs, Column(mem, rows, width, ch)).0),
                    ch);
      }
    }
  }

  lemma ColumnsRaceFree(codes: seq<Code<Held>>)
    ensures RaceFree([ColumnPhase(codes)])
  {
    var phase := ColumnPhase(codes);
    forall i, j, addr: nat | 0 <= i < |phase| && 0 <= j < |phase| && i != j && Writes(phase[i], addr)
      ensures !Touches(phase[j], addr)
    {
      assert Touches(phase[i], addr);
      PlacedTouches(codes[i], |codes|, i, addr);
      PlacedTouches(codes[j], |codes|, j, addr);
    }
  }

  /** Whatever the schedule, each column ends as its own thread alone would leave it. */
  lemma EveryThreadOrder(codes: seq<Code<Held>>, rows: nat, regs: seq<Held>, mem: Memory,
                         schedule: seq<Choice>, final: Config<Held>, ch: nat)
    requires CodesOk(codes, rows) && |regs| == |codes| && |mem| == rows * |codes| && ch < |codes|
    requires Run([ColumnPhase(codes)], Start(regs, mem), schedule, final) && final.phase == 1
    ensures |final.mem| == |mem|
    ensures Column(final.mem, rows, |codes|, ch)
      == Solo(codes[ch], |codes[ch]|, regs[ch], Column(mem, rows, |codes|, ch)).1
  {
    hide Run, Solo, Column, PhaseMem, PhaseRegs, Meaning, RaceFree, KernelOk, CodeOk, Placed;
    var width, phase := |codes|, ColumnPhase(codes);
    PhaseOk(codes, rows);
    ColumnsRaceFree(codes);
    ScheduleIndependence([phase], regs, mem, schedule, final);
    OnePhase(phase, regs, mem);
    PlacedSolo(codes[ch], |codes[ch]|, regs[ch], mem, rows, width, ch);
    ColumnOfPhase(codes, rows, regs, mem, ch);
  }

  lemma ColumnOfPhase(codes: seq<Code<Held>>, rows: nat, regs: seq<Held>, mem: Memory, ch: nat)
    requires CodesOk(codes, rows) && |regs| == |codes| && |mem| == rows * |codes| && ch < |codes|
    requires forall i :: 0 <= i < |codes| ==> CodeOk(ColumnPhase(codes)[i], |mem|)
    requires RaceFree([ColumnPhase(codes)])
    ensures var phase := ColumnPhase(codes);
      Column(PhaseMem(phase, regs, mem), rows, |codes|, ch)
        == Column(Solo(phase[ch], |phase[ch]|, regs[ch], mem).1, rows, |codes|, ch)
  {
    hide Solo, PhaseMem, RaceFree, CodeOk, Placed;
    forall a | 0 <= a < rows
      ensures var phase := ColumnPhase(codes);
        Column(PhaseMem(phase, regs, mem), rows, |codes|, ch)[a]
          == Column(Solo(phase[ch], |phase[ch]|, regs[ch], mem).1, rows, |codes|, ch)[a]
    {
      CellOfColumn(codes, rows, regs, mem, ch, a);
    }
  }

  lemma PhaseOk(codes: seq<Code<Held>>, rows: nat)
    requires CodesOk(codes, rows)
    ensures KernelOk([ColumnPhase(codes)], |codes|, rows * |codes|)
    ensures forall i :: 0 <= i < |codes| ==> CodeOk(ColumnPhase(codes)[i], rows * |codes|)
  {
    forall i | 0 <= i < |codes|
      ensures CodeOk(ColumnPhase(codes)[i], rows * |codes|)
    {
      PlacedOk(codes[i], rows, |codes|, i);
    }
  }

  lemma OnePhase(phase: Phase<Held>, regs: seq<Held>, mem: Memory)
    requires KernelOk([phase], |regs|, |mem|)
    ensures Meaning([phase], 0, regs, mem) == (PhaseRegs(phase, regs, mem), PhaseMem(phase, regs, mem))
  {
    assert [phase][0] == phase;
  }

  lemma CellOfColumn(codes: seq<Code<Held>>, rows: nat, regs: seq<Held>, mem: Memory, ch: nat, a: nat)
    requires CodesOk(codes, rows) && |regs| == |codes| && |mem| == rows * |codes| && ch < |codes| && a < rows
    requires forall i :: 0 <= i < |codes| ==> CodeOk(ColumnPhase(codes)[i], |mem|)
    requires RaceFree([ColumnPhase(codes)])
    ensures var phase, addr := ColumnPhase(codes), a * |codes| + ch;
      At(PhaseMem(phase, regs, mem), addr) == At(Solo(phase[ch], |phase[ch]|, regs[ch], mem).1, addr)
  {
    var width, phase := |codes|, ColumnPhase(codes);
    RowEnd(a, rows, width);
    var addr := a * width + ch;
    assert PhaseRaceFree([phase][0]);
    if Writes(phase[ch], addr) {
      WriterDecides(phase, regs, mem, ch, addr);
    } else {
      forall i | 0 <= i < |phase|
        ensures !Writes(phase[i], addr)
      {
        ModUnique(addr, width, a, ch);
        PlacedTouches(codes[i], width, i, addr);
        assert Writes(phase[i], addr) ==> Touches(phase[i], addr);
      }
      SoloFrame(phase[ch], |phase[ch]|, regs[ch], mem, addr);
    }
  }

  // ---- Loops of a thread ----

  /** for a in 0..n: acc += weight(a) * column[a] */
  function SumCode(n: nat, weight: int -> real, step: (Held, real) -> Held): (c: Code<Held>)
    ensures |c| == n
  {
    seq(n, a requires 0 <= a < n => Load(a, Weighing(weight(a), step)))
  }

  function Weighing(w: real, step: (Held, real) -> Held): (Held, real) -> Held {
    (r: Held, v: real) => step(r, Mul(w, v))
  }

  function ToAcc(): (Held, real) -> Held { (r: Held, v: real) => r.(acc := r.acc + v) }

  function ToOut(): (Held, real) -> Held { (r: Held, v: real) => r.(out := r.out + v) }

  function WeightedTerms(weight: int -> real, column: Memory): int -> real {
    (a: int) => Mul(weight(a), At(column, a))
  }

  lemma {:induction false} SumToAcc(n: nat, k: nat, weight: int -> real, regs: Held, column: Memory)
    requires k <= n <= |column|
    ensures CodeOk(SumCode(n, weight, ToAcc()), |column|)
    ensures Solo(SumCode(n, weight, ToAcc()), k, regs, column)
      == (regs.(acc := regs.acc + Sum(k, WeightedTerms(weight, column))), column)
  {
    if k > 0 {
      SumToAcc(n, k - 1, weight, regs, column);
      var r := Solo(SumCode(n, weight, ToAcc()), k - 1, regs, column).0;
      assert SumCode(n, weight, ToAcc())[k - 1] == Load(k - 1, Weighing(weight(k - 1), ToAcc()));
      assert Weighing(weight(k - 1), ToAcc())(r, column[k - 1]) == r.(acc := r.acc + Mul(weight(k - 1), column[k - 1]));
    }
  }

  lemma {:induction false} SumToOut(n: nat, k: nat, weight: int -> real, regs: Held, column: Memory)
    requires k <= n <= |column|
    ensures CodeOk(SumCode(n, weight, ToOut()), |column|)
    ensures Solo(SumCode(n, weight, ToOut()), k, regs, column)
      == (regs.(out := regs.out + Sum(k, WeightedTerms(weight, column))), column)
  {
    if k > 0 {
      SumToOut(n, k - 1, weight, regs, column);
      var r := Solo(SumCode(n, weight, ToOut()), k - 1, regs, column).0;
      assert SumCode(n, weight, ToOut())[k - 1] == Load(k - 1, Weighing(weight(k - 1), ToOut()));
      assert Weighing(weight(k - 1), ToOut())(r, column[k - 1]) == r.(out := r.out + Mul(weight(k - 1), column[k - 1]));
    }
  }

  function Hold(): (Held, real) -> Held { (r: Held, v: real) => r.(held := v) }

  /** for a in 0..n: column[a] := give(a, registers, column[a + from]) */
  function MoveCode(n: nat, from: nat, give: (int, Held) -> real): (c: Code<Held>)
    ensures |c| == 2 * n
  {
    seq(2 * n, i requires 0 <= i < 2 * n =>
      if i % 2 == 0 then Load(i / 2 + from, Hold()) else Store(i / 2, GiveAt(give, i / 2)))
  }

  function GiveAt(give: (int, Held) -> real, a: int): Held -> real { (r: Held) => give(a, r) }

  /** The loop's result, when give looks only at the accumulator and the value just loaded. */
  function Moved(n: nat, from: nat, give: (int, Held) -> real, acc: real, column: Memory): Memory
    requires n + from <= |column|
  {
    seq(|column|, a requires 0 <= a < |column| =>
      if a < n then give(a, Held(acc, column[a + from], 0.0)) else column[a])
  }

  lemma MoveInstrs(n: nat, k: nat, from: nat, give: (int, Held) -> real)
    requires 0 < k <= n
    ensures var code := MoveCode(n, from, give);
      && |code| == 2 * n
      && code[2 * k - 2] == Load(k - 1 + from, Hold()) && code[2 * k - 1] == Store(k - 1, GiveAt(give, k - 1))
  {}

  lemma MoveOk(n: nat, from: nat, give: (int, Held) -> real, size: nat)
    requires n + from <= size
    ensures |MoveCode(n, from, give)| == 2 * n && CodeOk(MoveCode(n, from, give), size)
  {}

  lemma {:induction false} MoveSolo(n: nat, k: nat, from: nat, give: (int, Held) -> real, regs: Held, column: Memory)
    requires k <= n && n + from <= |column| && regs.out == 0.0
    ensures CodeOk(MoveCode(n, from, give), |column|)
    ensures var (r, m) := Solo(MoveCode(n, from, give), 2 * k, regs, column);
      r.acc == regs.acc && r.out == 0.0 && m == Moved(k, from, give, regs.acc, column)
  {
    hide Moved, Solo, MoveCode;
    var code := MoveCode(n, from, give);
    MoveOk(n, from, give, |column|);
    if k == 0 {
      SoloNone(code, regs, column);
      NothingMoved(from, give, regs.acc, column);
    } else {
      MoveSolo(n, k - 1, from, give, regs, column);
      var (r, m) := Solo(code, 2 * k - 2, regs, column);
      MoveInstrs(n, k, from, give);
      SoloStep(code, 2 * k - 2, regs, column);
      SoloStep(code, 2 * k - 1, regs, column);
      MovedStep(k, from, give, regs.acc, column);
    }
  }

  lemma NothingMoved(from: nat, give: (int, Held) -> real, acc: real, column: Memory)
    requires from <= |column|
    ensures Moved(0, from, give, acc, column) == column
  {}

  lemma MovedStep(k: nat, from: nat, give: (int, Held) -> real, acc: real, column: Memory)
    requires 0 < k && k + from <= |column|
    ensures var m := Moved(k - 1, from, give, acc, column);
      && m[k - 1 + from] == column[k - 1 + from]
      && Moved(k, from, give, acc, column) == m[k - 1 := give(k - 1, Held(acc, column[k - 1 + from], 0.0))]
  {}

  lemma StoreSolo(addr: nat, give: Held -> real, regs: Held, column: Memory)
    requires addr < |column|
    ensures CodeOk([Store(addr, give)], |column|)
    ensures Solo([Store(addr, give)], 1, regs, column) == (regs, column[addr := give(regs)])
  {
    assert Solo([Store(addr, give)], 0, regs, column) == (regs, column);
  }

  // ---- The convolutions ----

  /** One channel's thread: the history slots in cells 0..kernel-2, the output in the last cell. */
  function ConvThread(taps: Taps, x: Vec, act: (int, real) -> real, ch: nat): Code<Held>
    requires taps.Ok()
  {
    ConvSum(taps, x, act, ch) + ConvShift(taps, x, ch)
  }

  function TapWeights(taps: Taps, ch: nat): int -> real { (k: int) => taps.Weight(ch, k) }

  function ConvSum(taps: Taps, x: Vec, act: (int, real) -> real, ch: nat): Code<Held>
    requires taps.Ok()
  {
    SumCode(taps.kernel - 1, TapWeights(taps, ch), ToAcc())
    + [Store(taps.kernel - 1, ConvGive(taps, x, act, ch))]
  }

  function ConvGive(taps: Taps, x: Vec, act: (int, real) -> real, ch: nat): Held -> real {
    (r: Held) => act(ch, r.acc + Mul(taps.Weight(ch, taps.kernel - 1), At(x, ch)))
  }

  function KeepHeld(): (int, Held) -> real { (k: int, r: Held) => r.held }

  function GiveInput(x: Vec, ch: nat): Held -> real { (r: Held) => At(x, ch) }

  function ConvShift(taps: Taps, x: Vec, ch: nat): Code<Held>
    requires taps.Ok()
  {
    if taps.kernel < 2 then []
    else MoveCode(taps.kernel - 2, 1, KeepHeld()) + [Store(taps.kernel - 2, GiveInput(x, ch))]
  }

  /** What a channel's cells become: the history shifted with the input appended, then the output. */
  function ConvColumn(taps: Taps, x: Vec, act: (int, real) -> real, ch: nat, column: Memory): Memory
    requires taps.Ok() && |column| == taps.kernel
  {
    var sum := Sum(taps.kernel - 1, WeightedTerms(TapWeights(taps, ch), column))
      + Mul(taps.Weight(ch, taps.kernel - 1), At(x, ch));
    ShiftedIn(column, At(x, ch), act(ch, sum))
  }

  /** The slots before the last shifted by one with x appended, and the last cell set to y. */
  function ShiftedIn(column: Memory, x: real, y: real): (c: Memory)
    requires |column| >= 1
    ensures |c| == |column|
  {
    (column[..|column| - 1] + [x])[1..] + [y]
  }

  lemma ConvThreadSolo(taps: Taps, x: Vec, act: (int, real) -> real, ch: nat, column: Memory)
    requires taps.Ok() && |column| == taps.kernel
    ensures CodeOk(ConvThread(taps, x, act, ch), |column|)
    ensures var code := ConvThread(taps, x, act, ch);
      Solo(code, |code|, CLEARED, column).1 == ConvColumn(taps, x, act, ch, column)
  {
    hide Sum, Mul, Taps.Weight, Solo, ConvSum, ConvShift, CodeOk, WeightedTerms, TapWeights, ShiftedIn;
    var sums, shift := ConvSum(taps, x, act, ch), ConvShift(taps, x, ch);
    ConvSumSolo(taps, x, act, ch, column);
    var (r, m) := Solo(sums, |sums|, CLEARED, column);
    ConvShiftSolo(taps, x, ch, r, m);
    ShiftedAfterStore(column, At(x, ch), m[taps.kernel - 1]);
    SoloJoin(sums, shift, |shift|, CLEARED, column);
  }

  lemma ConvSumSolo(taps: Taps, x: Vec, act: (int, real) -> real, ch: nat, column: Memory)
    requires taps.Ok() && |column| == taps.kernel
    ensures var code := ConvSum(taps, x, act, ch);
      && CodeOk(code, |column|)
      && var (r, m) := Solo(code, |code|, CLEARED, column);
         r.out == 0.0 && m == column[taps.kernel - 1 :=
           act(ch, Sum(taps.kernel - 1, WeightedTerms(TapWeights(taps, ch), column))
                   + Mul(taps.Weight(ch, taps.kernel - 1), At(x, ch)))]
  {
    hide Sum, Mul, Taps.Weight, Solo, CodeOk, SumCode, WeightedTerms, TapWeights;
    var n := taps.kernel - 1;
    var loop, give := SumCode(n, TapWeights(taps, ch), ToAcc()), ConvGive(taps, x, act, ch);
    SumToAcc(n, n, TapWeights(taps, ch), CLEARED, column);
    StoreSolo(n, give, CLEARED.(acc := CLEARED.acc + Sum(n, WeightedTerms(TapWeights(taps, ch), column))), column);
    SoloJoin(loop, [Store(n, give)], 1, CLEARED, column);
  }

  lemma ConvShiftSolo(taps: Taps, x: Vec, ch: nat, regs: Held, column: Memory)
    requires taps.Ok() && |column| == taps.kernel && regs.out == 0.0
    ensures var code := ConvShift(taps, x, ch);
      && CodeOk(code, |column|)
      && Solo(code, |code|, regs, column).1 == ShiftedIn(column, At(x, ch), column[taps.kernel - 1])
  {
    hide Solo, CodeOk, MoveCode, Moved, ShiftedIn;
    if taps.kernel < 2 {
      OneCellOnly(column, At(x, ch));
      NoCodeSolo(regs, column);
    } else {
      var n := taps.kernel - 2;
      var loop := MoveCode(n, 1, KeepHeld());
      MoveSolo(n, n, 1, KeepHeld(), regs, column);
      StoreSolo(n, GiveInput(x, ch), Solo(loop, |loop|, regs, column).0, Moved(n, 1, KeepHeld(), regs.acc, column));
      SoloJoin(loop, [Store(n, GiveInput(x, ch))], 1, regs, column);
      MovedIsShift(n, regs.acc, column, At(x, ch));
    }
  }

  lemma MovedIsShift(n: nat, acc: real, column: Memory, x: real)
    requires |column| == n + 2
    ensures Moved(n, 1, KeepHeld(), acc, column)[n := x] == ShiftedIn(column, x, column[n + 1])
  {}

  lemma OneCellOnly(column: Memory, x: real)
    requires |column| == 1
    ensures ShiftedIn(column, x, column[0]) == column
  {}

  lemma ShiftedAfterStore(column: Memory, x: real, y: real)
    requires |column| >= 1
    ensures var n := |column| - 1;
      ShiftedIn(column[n := y], x, column[n := y][n]) == ShiftedIn(column, x, y)
  {
    assert column[|column| - 1 := y][..|column| - 1] == column[..|column| - 1];
  }

  lemma NoCodeSolo(regs: Held, column: Memory)
    ensures CodeOk<Held>([], |column|) && Solo<Held>([], 0, regs, column) == (regs, column)
  {}

  function ConvThreads(taps: Taps, x: Vec, act: (int, real) -> real): (codes: seq<Code<Held>>)
    requires taps.Ok()
    ensures |codes| == taps.channels
  {
    seq(taps.channels, ch requires 0 <= ch < taps.channels => ConvThread(taps, x, act, ch))
  }

  /** A launch of `causal_conv1d_silu` or `short_conv` (their gates are in x and act) on a history with
      the output array behind it: in every thread order the history advances and the outputs come out
      exactly as on the CPU. */
  lemma ConvLaunch(taps: Taps, x: Vec, act: (int, real) -> real, history: Vec, output: Vec,
                   schedule: seq<Choice>, final: Config<Held>)
    requires taps.Ok() && |x| == taps.channels && |history| == taps.HistorySize() && |output| == taps.channels
    requires Run([ColumnPhase(ConvThreads(taps, x, act))], Start(seq(taps.channels, _ => CLEARED), history + output),
                 schedule, final) && final.phase == 1
    ensures |final.mem| == taps.HistorySize() + taps.channels
    ensures final.mem[..taps.HistorySize()] == taps.Next(history, x)
    ensures forall ch :: 0 <= ch < taps.channels ==>
      final.mem[taps.HistorySize()..][ch] == act(ch, taps.Output(history, x, ch))
  {
    hide *;
    ConvColumns(taps, x, act, history, output, schedule, final);
    ColumnsAreNext(taps, x, act, history, output, final.mem);
  }

  lemma ConvColumns(taps: Taps, x: Vec, act: (int, real) -> real, history: Vec, output: Vec,
                    schedule: seq<Choice>, final: Config<Held>)
    requires taps.Ok() && |x| == taps.channels && |history| == taps.HistorySize() && |output| == taps.channels
    requires Run([ColumnPhase(ConvThreads(taps, x, act))], Start(seq(taps.channels, _ => CLEARED), history + output),
                 schedule, final) && final.phase == 1
    ensures |final.mem| == |history| + |output|
    ensures forall ch :: 0 <= ch < taps.channels ==> ConvColumnDone(taps, x, act, history + output, final.mem, ch)
  {
    hide Column, ConvColumn, ConvThread, Run, Solo;
    var codes, mem, width := ConvThreads(taps, x, act), history + output, taps.channels;
    assert |mem| == taps.kernel * width;
    ConvThreadsOk(taps, x, act);
    if width == 0 {
      EmptyLaunch(codes, taps.kernel, seq(width, _ => CLEARED), mem, schedule, final);
    } else {
      EveryThreadOrder(codes, taps.kernel, seq(width, _ => CLEARED), mem, schedule, final, 0);
      forall ch | 0 <= ch < width
        ensures ConvColumnDone(taps, x, act, mem, final.mem, ch)
      {
        ConvThreadSolo(taps, x, act, ch, Column(mem, taps.kernel, width, ch));
        EveryThreadOrder(codes, taps.kernel, seq(width, _ => CLEARED), mem, schedule, final, ch);
      }
    }
  }

  ghost predicate ConvColumnDone(taps: Taps, x: Vec, act: (int, real) -> real, before: Vec, after: Vec, ch: nat)
    requires taps.Ok()
  {
    Column(after, taps.kernel, taps.channels, ch)
      == ConvColumn(taps, x, act, ch, Column(before, taps.kernel, taps.channels, ch))
  }

  lemma ConvThreadsOk(taps: Taps, x: Vec, act: (int, real) -> real)
    requires taps.Ok()
    ensures CodesOk(ConvThreads(taps, x, act), taps.kernel)
  {
    hide CodeOk, ConvThread;
    forall ch | 0 <= ch < taps.channels
      ensures CodeOk(ConvThreads(taps, x, act)[ch], taps.kernel)
    {
      ConvThreadSolo(taps, x, act, ch, seq(taps.kernel, _ => 0.0));
    }
  }

  lemma ColumnsAreNext(taps: Taps, x: Vec, act: (int, real) -> real, history: Vec, output: Vec, after: Vec)
    requires taps.Ok() && |x| == taps.channels == |output| && |history| == taps.HistorySize()
    requires |after| == |history| + |output|
    requires forall ch :: 0 <= ch < taps.channels ==> ConvColumnDone(taps, x, act, history + output, after, ch)
    ensures |after| == taps.HistorySize() + taps.channels
    ensures after[..taps.HistorySize()] == taps.Next(history, x)
    ensures forall ch :: 0 <= ch < taps.channels ==>
      after[taps.HistorySize()..][ch] == act(ch, taps.Output(history, x, ch))
  {
    hide Taps.Output, ConvColumnDone, Taps.Next;
    forall i | 0 <= i < taps.HistorySize()
      ensures after[i] == taps.Next(history, x)[i]
    {
      var k, ch := SlotOf(i, taps.channels, taps.kernel);
      HistoryCell(taps, x, act, history, output, after, i, k, ch);
    }
    forall ch | 0 <= ch < taps.channels
      ensures after[taps.HistorySize()..][ch] == act(ch, taps.Output(history, x, ch))
    {
      OutputCell(taps, x, act, history, output, after, ch);
    }
  }

  lemma EmptyLaunch(codes: seq<Code<Held>>, rows: nat, regs: seq<Held>, mem: Memory,
                    schedule: seq<Choice>, final: Config<Held>)
    requires |codes| == |regs| == |mem| == 0
    requires Run([ColumnPhase(codes)], Start(regs, mem), schedule, final) && final.phase == 1
    ensures final.mem == mem
  {
    PhaseOk(codes, rows);
    ColumnsRaceFree(codes);
    ScheduleIndependence([ColumnPhase(codes)], regs, mem, schedule, final);
  }

  lemma HistoryCell(taps: Taps, x: Vec, act: (int, real) -> real, history: Vec, output: Vec, after: Vec,
                    i: nat, k: nat, ch: nat)
    requires taps.Ok() && |x| == taps.channels == |output| && |history| == taps.HistorySize() && i < |history|
    requires |after| == |history| + |output| && ch < taps.channels && k < taps.kernel - 1 && i == k * taps.channels + ch
    requires ConvColumnDone(taps, x, act, history + output, after, ch)
    ensures after[i] == taps.Next(history, x)[i]
  {
    hide Sum, WeightedTerms, TapWeights, Mul, Taps.Weight;
    var width, kernel, mem := taps.channels, taps.kernel, history + output;
    var before, column := Column(mem, kernel, width, ch), Column(after, kernel, width, ch);
    assert column[k] == after[i];
    assert (k + 1) * width + ch == i + width;
    if k + 1 < kernel - 1 {
      RowEnd(k + 1, kernel - 1, width);
      assert column[k] == before[k + 1] == At(mem, (k + 1) * width + ch);
    } else {
      assert column[k] == At(x, ch);
    }
  }

  lemma SlotOf(i: nat, width: nat, kernel: nat) returns (k: nat, ch: nat)
    requires kernel >= 1 && i < (kernel - 1) * width
    ensures k < kernel - 1 && ch < width && i == k * width + ch
  {
    assert width > 0;
    k, ch := i / width, i % width;
    assert k >= kernel - 1 ==> k * width >= (kernel - 1) * width;
  }

  lemma OutputCell(taps: Taps, x: Vec, act: (int, real) -> real, history: Vec, output: Vec, after: Vec, ch: nat)
    requires taps.Ok() && |x| == taps.channels == |output| && |history| == taps.HistorySize() && ch < taps.channels
    requires |after| == |history| + |output|
    requires ConvColumnDone(taps, x, act, history + output, after, ch)
    ensures after[|history| + ch] == act(ch, taps.Output(history, x, ch))
  {
    hide Sum, Mul, Taps.Weight;
    var n, before := taps.kernel - 1, Column(history + output, taps.kernel, taps.channels, ch);
    var terms := WeightedTerms(TapWeights(taps, ch), before);
    forall k | 0 <= k < n
      ensures terms(k) == taps.HistoryTerms(history, ch)(k)
    {
      taps.SlotInside(k, ch);
      var i := k * taps.channels + ch;
      assert At(before, k) == At(history + output, i) == At(history, i);
      assert terms(k) == Mul(taps.Weight(ch, k), At(before, k));
      assert taps.HistoryTerms(history, ch)(k) == Mul(taps.Weight(ch, k), At(history, i));
    }
    SumEq(n, terms, taps.HistoryTerms(history, ch));
    assert Column(after, taps.kernel, taps.channels, ch)[n] == At(after, n * taps.channels + ch);
  }

  // ---- The delta-rule recurrence ----

  function Entries(w: Vec): int -> real { (a: int) => At(w, a) }

  function ScaledEntries(scale: real, w: Vec): int -> real { (a: int) => Mul(scale, At(w, a)) }

  /** decay * s + k[a] * delta, with delta from the prediction in the accumulator. */
  function UpdateGive(tok: Token, b: nat): (int, Held) -> real {
    (a: int, r: Held) => Mul(tok.decay, r.held) + Mul(At(tok.k, a), Mul(tok.beta, At(tok.v, b) - r.acc))
  }

  function GiveOut(): Held -> real { (r: Held) => r.out }

  /** The thread of value dimension b: column b of the state in cells 0..keyDim-1, its output behind. */
  function GdnThread(head: Head, tok: Token, b: nat): Code<Held> {
    WriteCode(head, tok, b) + ReadCode(head, tok)
  }

  function WriteCode(head: Head, tok: Token, b: nat): Code<Held> {
    SumCode(head.keyDim, Entries(tok.k), ToAcc()) + MoveCode(head.keyDim, 0, UpdateGive(tok, b))
  }

  function ReadCode(head: Head, tok: Token): Code<Held> {
    SumCode(head.keyDim, ScaledEntries(head.scale, tok.q), ToOut()) + [Store(head.keyDim, GiveOut())]
  }

  /** The column's new state cells, and its output from them. */
  function GdnColumn(head: Head, tok: Token, b: nat, column: Memory): Memory
    requires |column| == head.keyDim + 1
  {
    ReadOut(head, tok, Written(head, tok, b, column))
  }

  function Written(head: Head, tok: Token, b: nat, column: Memory): (c: Memory)
    requires |column| == head.keyDim + 1
    ensures |c| == |column|
  {
    Moved(head.keyDim, 0, UpdateGive(tok, b), Sum(head.keyDim, WeightedTerms(Entries(tok.k), column)), column)
  }

  function ReadOut(head: Head, tok: Token, column: Memory): Memory
    requires |column| == head.keyDim + 1
  {
    column[head.keyDim := Sum(head.keyDim, WeightedTerms(ScaledEntries(head.scale, tok.q), column))]
  }

  lemma WriteSolo(head: Head, tok: Token, b: nat, column: Memory)
    requires |column| == head.keyDim + 1
    ensures CodeOk(WriteCode(head, tok, b), |column|)
    ensures var code := WriteCode(head, tok, b);
      var (r, m) := Solo(code, |code|, CLEARED, column);
      r.out == 0.0 && m == Written(head, tok, b, column)
  {
    hide Solo, CodeOk, SumCode, MoveCode, Moved, WeightedTerms, Sum;
    var n := head.keyDim;
    var predict, update := SumCode(n, Entries(tok.k), ToAcc()), MoveCode(n, 0, UpdateGive(tok, b));
    SumToAcc(n, n, Entries(tok.k), CLEARED, column);
    var r0 := CLEARED.(acc := CLEARED.acc + Sum(n, WeightedTerms(Entries(tok.k), column)));
    MoveSolo(n, n, 0, UpdateGive(tok, b), r0, column);
    SoloJoin(predict, update, |update|, CLEARED, column);
  }

  lemma ReadSolo(head: Head, tok: Token, regs: Held, column: Memory)
    requires |column| == head.keyDim + 1 && regs.out == 0.0
    ensures CodeOk(ReadCode(head, tok), |column|)
    ensures Solo(ReadCode(head, tok), |ReadCode(head, tok)|, regs, column).1 == ReadOut(head, tok, column)
  {
    hide Solo, CodeOk, SumCode, WeightedTerms, Sum;
    var n := head.keyDim;
    var read := SumCode(n, ScaledEntries(head.scale, tok.q), ToOut());
    SumToOut(n, n, ScaledEntries(head.scale, tok.q), regs, column);
    var sum := Sum(n, WeightedTerms(ScaledEntries(head.scale, tok.q), column));
    StoreSolo(n, GiveOut(), regs.(out := regs.out + sum), column);
    SoloJoin(read, [Store(n, GiveOut())], 1, regs, column);
  }

  lemma GdnParts(head: Head, tok: Token, b: nat, column: Memory)
    requires |column| == head.keyDim + 1
    ensures GdnThread(head, tok, b) == WriteCode(head, tok, b) + ReadCode(head, tok)
    ensures GdnColumn(head, tok, b, column) == ReadOut(head, tok, Written(head, tok, b, column))
  {}

  lemma GdnThreadSolo(head: Head, tok: Token, b: nat, column: Memory)
    requires |column| == head.keyDim + 1
    ensures CodeOk(GdnThread(head, tok, b), |column|)
    ensures var code := GdnThread(head, tok, b);
      Solo(code, |code|, CLEARED, column).1 == GdnColumn(head, tok, b, column)
  {
    hide *;
    GdnParts(head, tok, b, column);
    var write, read := WriteCode(head, tok, b), ReadCode(head, tok);
    WriteSolo(head, tok, b, column);
    var (r, m) := Solo(write, |write|, CLEARED, column);
    ReadSolo(head, tok, r, m);
    SoloJoin(write, read, |read|, CLEARED, column);
  }

  function GdnThreads(head: Head, tok: Token): (codes: seq<Code<Held>>)
    ensures |codes| == head.valueDim
  {
    seq(head.valueDim, b requires 0 <= b < head.valueDim => GdnThread(head, tok, b))
  }

  ghost predicate GdnColumnDone(head: Head, tok: Token, before: Vec, after: Vec, b: nat) {
    Column(after, head.keyDim + 1, head.valueDim, b)
      == GdnColumn(head, tok, b, Column(before, head.keyDim + 1, head.valueDim, b))
  }

  lemma GdnThreadsOk(head: Head, tok: Token)
    ensures CodesOk(GdnThreads(head, tok), head.keyDim + 1)
  {
    hide CodeOk, GdnThread;
    forall b | 0 <= b < head.valueDim
      ensures CodeOk(GdnThreads(head, tok)[b], head.keyDim + 1)
    {
      GdnThreadSolo(head, tok, b, seq(head.keyDim + 1, _ => 0.0));
    }
  }

  lemma GdnColumns(head: Head, tok: Token, s: Vec, output: Vec, schedule: seq<Choice>, final: Config<Held>)
    requires |s| == head.Size() && |output| == head.valueDim
    requires Run([ColumnPhase(GdnThreads(head, tok))], Start(seq(head.valueDim, _ => CLEARED), s + output),
                 schedule, final) && final.phase == 1
    ensures |final.mem| == |s| + |output|
    ensures forall b :: 0 <= b < head.valueDim ==> GdnColumnDone(head, tok, s + output, final.mem, b)
  {
    hide Column, GdnColumn, GdnThread, Run, Solo;
    var codes, mem, width, rows := GdnThreads(head, tok), s + output, head.valueDim, head.keyDim + 1;
    assert |mem| == rows * width;
    GdnThreadsOk(head, tok);
    if width == 0 {
      EmptyLaunch(codes, rows, seq(width, _ => CLEARED), mem, schedule, final);
    } else {
      EveryThreadOrder(codes, rows, seq(width, _ => CLEARED), mem, schedule, final, 0);
      forall b | 0 <= b < width
        ensures GdnColumnDone(head, tok, mem, final.mem, b)
      {
        GdnThreadSolo(head, tok, b, Column(mem, rows, width, b));
        EveryThreadOrder(codes, rows, seq(width, _ => CLEARED), mem, schedule, final, b);
      }
    }
  }

  /** One head's workgroup of `gdn_recurrence`, its state block with the output row behind it: in every
      thread order the state steps and the outputs come out exactly as on the CPU. */
  lemma GdnLaunch(head: Head, tok: Token, s: Vec, output: Vec, schedule: seq<Choice>, final: Config<Held>)
    requires |s| == head.Size() && |output| == head.valueDim
    requires Run([ColumnPhase(GdnThreads(head, tok))], Start(seq(head.valueDim, _ => CLEARED), s + output),
                 schedule, final) && final.phase == 1
    ensures |final.mem| == head.Size() + head.valueDim
    ensures final.mem[..head.Size()] == head.Step(s, tok)
    ensures final.mem[head.Size()..] == head.Outputs(head.Step(s, tok), tok)
  {
    hide Run, GdnColumnDone, Head.Step, Head.Output;
    GdnColumns(head, tok, s, output, schedule, final);
    forall i | 0 <= i < head.Size()
      ensures final.mem[i] == head.Step(s, tok)[i]
    {
      var a, b := SlotOf(i, head.valueDim, head.keyDim + 1);
      StateCell(head, tok, s, output, final.mem, a, b);
    }
    forall b | 0 <= b < head.valueDim
      ensures final.mem[head.Size()..][b] == head.Outputs(head.Step(s, tok), tok)[b]
    {
      OutputOfColumn(head, tok, s, output, final.mem, b);
    }
  }

  lemma ColumnCell(head: Head, s: Vec, output: Vec, a: nat, b: nat)
    requires |s| == head.Size() && |output| == head.valueDim && a < head.keyDim && b < head.valueDim
    ensures Column(s + output, head.keyDim + 1, head.valueDim, b)[a] == head.Cell(s, a, b)
    ensures 0 <= a * head.valueDim + b < head.Size()
  {
    head.CellInside(a, b);
    var i := a * head.valueDim + b;
    assert At(s + output, i) == At(s, i);
  }

  lemma PredictionTerms(head: Head, tok: Token, s: Vec, output: Vec, b: nat)
    requires |s| == head.Size() && |output| == head.valueDim && b < head.valueDim
    ensures Sum(head.keyDim, WeightedTerms(Entries(tok.k), Column(s + output, head.keyDim + 1, head.valueDim, b)))
      == head.Read(s, tok.k, b)
  {
    hide Sum, Column;
    var column := Column(s + output, head.keyDim + 1, head.valueDim, b);
    forall a | 0 <= a < head.keyDim
      ensures WeightedTerms(Entries(tok.k), column)(a) == head.ReadTerms(s, tok.k, b)(a)
    {
      ColumnCell(head, s, output, a, b);
      MulCommutes(At(tok.k, a), column[a]);
      assert At(column, a) == column[a];
      assert Entries(tok.k)(a) == At(tok.k, a);
      assert column[a] == head.Cell(s, a, b);
      assert head.ReadTerms(s, tok.k, b)(a) == Mul(head.Cell(s, a, b), At(tok.k, a));
    }
    SumEq(head.keyDim, WeightedTerms(Entries(tok.k), column), head.ReadTerms(s, tok.k, b));
  }

  lemma MulCommutes(x: real, y: real)
    ensures Mul(x, y) == Mul(y, x)
  {}

  lemma StateCell(head: Head, tok: Token, s: Vec, output: Vec, after: Vec, a: nat, b: nat)
    requires |s| == head.Size() && |output| == head.valueDim && |after| == |s| + |output|
    requires a < head.keyDim && b < head.valueDim && GdnColumnDone(head, tok, s + output, after, b)
    ensures At(after, a * head.valueDim + b) == head.Cell(head.Step(s, tok), a, b)
    ensures 0 <= a * head.valueDim + b < head.Size()
  {
    hide Sum, Mul, Head.Step, WeightedTerms, Column, Head.Cell, Head.Read;
    ColumnCell(head, s, output, a, b);
    head.StepCell(s, tok, a, b);
    PredictionTerms(head, tok, s, output, b);
    ColumnAt(after, head.keyDim + 1, head.valueDim, b, a);
    var before := Column(s + output, head.keyDim + 1, head.valueDim, b);
    assert Written(head, tok, b, before)[a] == UpdateGive(tok, b)(a, Held(head.Read(s, tok.k, b), before[a], 0.0));
  }

  lemma ColumnAt(mem: Memory, rows: nat, width: nat, ch: nat, a: nat)
    requires a < rows
    ensures Column(mem, rows, width, ch)[a] == At(mem, a * width + ch)
  {}

  lemma OutputOfColumn(head: Head, tok: Token, s: Vec, output: Vec, after: Vec, b: nat)
    requires |s| == head.Size() && |output| == head.valueDim && |after| == |s| + |output|
    requires b < head.valueDim && GdnColumnDone(head, tok, s + output, after, b)
    ensures after[|s| + b] == head.Output(head.Step(s, tok), tok, b)
  {
    hide Sum, Head.Step, Column, Written;
    var n, now, column := head.keyDim, head.Step(s, tok), Column(after, head.keyDim + 1, head.valueDim, b);
    var written := Written(head, tok, b, Column(s + output, head.keyDim + 1, head.valueDim, b));
    forall a | 0 <= a < n
      ensures WeightedTerms(ScaledEntries(head.scale, tok.q), written)(a) == head.OutputTerms(now, tok, b)(a)
    {
      StateCell(head, tok, s, output, after, a, b);
      ColumnAt(after, n + 1, head.valueDim, b, a);
      assert At(written, a) == column[a];
    }
    SumEq(n, WeightedTerms(ScaledEntries(head.scale, tok.q), written), head.OutputTerms(now, tok, b));
    ColumnAt(after, n + 1, head.valueDim, b, n);
  }
}
