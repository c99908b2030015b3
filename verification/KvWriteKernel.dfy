/** `kv_cache_write_q8_0`: 32 lanes find a block's largest magnitude together, quantise an element each,
    and pack the bytes four to a word; for the key, then for the value with the same shared memory.
    Cells: 32 magnitudes, 32 bytes, 9 words of the key's block, 9 of the value's. */
module KvWriteKernel {
  import opened Sums
  import opened Bytes
  import opened KvCaching
  import opened Workgroup
  import opened TreeReduction
  import opened WorkgroupKernels

  const CELLS: nat := 82
  const KEY_BLOCK: nat := 64
  const VALUE_BLOCK: nat := 73

  function ScaleFrom(amax: real): (s: real)
    ensures s > 0.0
  {
    if amax > 0.0 then amax / 127.0 else 1.0
  }

  /** The biased byte of a value under a scale. */
  function BiasedByte(v: real, scale: real, round: real -> int): Byte
    requires scale > 0.0
  {
    Clamp127(round(v / scale)) + 128
  }

  /** Four cells, each byte in its place of a word. */
  function FourBytes(mem: Memory, at: nat): real
    requires at + 3 < |mem|
  {
    mem[at] + mem[at + 1] * 256.0 + mem[at + 2] * 65536.0 + mem[at + 3] * 16777216.0
  }

  /** One half of the kernel: block `block` of x into the nine cells from `out` on. */
  datatype HalfJob = HalfJob(x: Vec, block: nat, out: nat, round: real -> int) {

    predicate Ok() { out == KEY_BLOCK || out == VALUE_BLOCK }

    function Elem(lane: int): real { At(x, 32 * block + lane) }

    function NoArray(): (int, Regs) -> real { (j: int, r: Regs) => 0.0 }

    function Magnitude(): (int, Regs) -> real { (lane: int, r: Regs) => Abs(Elem(lane)) }

    function AbsPhase(): Phase<Regs> { FillPhase(32, 0, NoArray(), Magnitude()) }

    function ReadPhase(): (p: Phase<Regs>)
      ensures |p| == 32
    {
      seq(32, lane => [Load(0, TAKE_TOP)])
    }

    function ByteCode(lane: nat): Code<Regs> {
      [Store(32 + lane, (r: Regs) => BiasedByte(Elem(lane), ScaleFrom(r.top), round) as real)]
    }

    function BytePhase(): (p: Phase<Regs>)
      ensures |p| == 32
    {
      seq(32, lane requires 0 <= lane < 32 => ByteCode(lane))
    }

    function ScaleCode(): Code<Regs> { [Store(out, (r: Regs) => ScaleFrom(r.top))] }

    /** Four bytes, shifted into their places and joined. */
    function WordCode(lane: nat): Code<Regs> {
      var at := 32 + 4 * lane;
      [Load(at, TAKE_A), Load(at + 1, TakeShifted(256.0)), Load(at + 2, TakeShifted(65536.0)),
       Load(at + 3, TakeShifted(16777216.0)), Store(out + 1 + lane, (r: Regs) => r.a)]
    }

    function TakeShifted(unit: real): (Regs, real) -> Regs { (r: Regs, v: real) => r.(a := r.a + v * unit) }

    function PackCode(lane: nat): Code<Regs> {
      if lane == 0 then ScaleCode() + WordCode(0) else if lane < 8 then WordCode(lane) else []
    }

    function PackPhase(): (p: Phase<Regs>)
      ensures |p| == 32
    {
      seq(32, lane requires 0 <= lane < 32 => PackCode(lane))
    }

    /** Every lane learns the block's largest magnitude. */
    function FindKernel(): Kernel<Regs> { [AbsPhase()] + TreeKernel(32, 16, 1, MAX) + [ReadPhase()] }

    function Kernel(): Kernel<Regs> { FindKernel() + ([BytePhase()] + [PackPhase()]) }

    // ---- The magnitude ----

    lemma AbsMeaning(regs: seq<Regs>, mem: Memory)
      requires |regs| == 32 && |mem| == CELLS
      ensures PhaseRaceFree(AbsPhase()) && |AbsPhase()| == 32
      ensures forall i :: 0 <= i < 32 ==> CodeOk(AbsPhase()[i], |mem|)
      ensures var m := PhaseMem(AbsPhase(), regs, mem);
        (forall lane :: 0 <= lane < 32 ==> m[lane] == Abs(Elem(lane))) && m[32..] == mem[32..]
    {
      var phase := AbsPhase();
      FillRaceFree(32, 0, NoArray(), Magnitude());
      FillOk(32, 0, NoArray(), Magnitude(), |mem|);
      forall lane | 0 <= lane < 32
        ensures PhaseMem(phase, regs, mem)[lane] == Abs(Elem(lane))
      {
        FillsPart(32, 0, NoArray(), Magnitude(), regs, mem, lane);
      }
      forall i | 32 <= i < |mem|
        ensures PhaseMem(phase, regs, mem)[i] == mem[i]
      {
        forall j | 0 <= j < 32
          ensures !Writes(phase[j], i)
        {
          FillCells(32, j, 0, NoArray(), Magnitude(), i);
        }
      }
    }

    /** The maximum of the lanes' magnitudes is the block's. */
    lemma TopIsAmax(top: real, magnitudes: Memory)
      requires |magnitudes| >= 32 && forall lane :: 0 <= lane < 32 ==> magnitudes[lane] == Abs(Elem(lane))
      requires forall lane :: 0 <= lane < 32 ==> magnitudes[lane] <= top
      requires exists lane :: 0 <= lane < 32 && magnitudes[lane] == top
      ensures top == BlockAmax(x, block)
    {
      hide Amax;
      forall i | 32 * block <= i < 32 * block + 32
        ensures Abs(At(x, i)) <= top
      {
        assert magnitudes[i - 32 * block] == Abs(Elem(i - 32 * block));
      }
      var lane :| 0 <= lane < 32 && magnitudes[lane] == top;
      assert Abs(At(x, 32 * block + lane)) == top;
      AmaxBounds(x, 32 * block, 32 * block + 32, 32 * block + lane);
      AmaxBelow(x, 32 * block, 32 * block + 32, top);
    }

    lemma ReadMeaning(regs: seq<Regs>, mem: Memory)
      requires |regs| == 32 && |mem| == CELLS
      ensures PhaseRaceFree(ReadPhase()) && forall i :: 0 <= i < 32 ==> CodeOk(ReadPhase()[i], |mem|)
      ensures forall i :: 0 <= i < 32 ==> PhaseRegs(ReadPhase(), regs, mem)[i].top == mem[0]
      ensures PhaseMem(ReadPhase(), regs, mem) == mem
    {
      var phase := ReadPhase();
      forall i | 0 <= i < 32
        ensures CodeOk(phase[i], |mem|) && PhaseRegs(phase, regs, mem)[i].top == mem[0]
      {
        assert Solo(phase[i], 0, regs[i], mem) == (regs[i], mem);
        assert Solo(phase[i], 1, regs[i], mem).0 == regs[i].(top := mem[0]);
      }
    }

    lemma FindMeaning(regs: seq<Regs>, mem: Memory)
      requires |regs| == 32 && |mem| == CELLS
      ensures KernelOk(FindKernel(), 32, CELLS) && RaceFree(FindKernel())
      ensures var (r, m) := Meaning(FindKernel(), 0, regs, mem);
        m[32..] == mem[32..] && forall i :: 0 <= i < 32 ==> r[i].top == BlockAmax(x, block)
    {
      hide HalfJob.AbsPhase, HalfJob.ReadPhase, PhaseMem, PhaseRegs, CodeOk, TreeKernel, PhaseRaceFree, BlockAmax;
      var tree := TreeKernel(32, 16, 1, MAX);
      AbsMeaning(regs, mem);
      var regs1, mem1 := PhaseRegs(AbsPhase(), regs, mem), PhaseMem(AbsPhase(), regs, mem);
      ThirtyTwo();
      TreeMaxes(32, regs1, mem1);
      var regs2, mem2 := Meaning(tree, 0, regs1, mem1).0, Meaning(tree, 0, regs1, mem1).1;
      ReadMeaning(regs2, mem2);
      Compose(AbsPhase(), tree, ReadPhase(), regs, mem);
      TopIsAmax(mem2[0], mem1);
    }

    // ---- The bytes and the words ----

    lemma ByteMeaning(regs: seq<Regs>, mem: Memory, amax: real)
      requires |regs| == 32 && |mem| == CELLS && forall i :: 0 <= i < 32 ==> regs[i].top == amax
      ensures PhaseRaceFree(BytePhase()) && forall i :: 0 <= i < 32 ==> CodeOk(BytePhase()[i], |mem|)
      ensures PhaseRegs(BytePhase(), regs, mem) == regs
      ensures var m := PhaseMem(BytePhase(), regs, mem);
        && (forall lane :: 0 <= lane < 32 ==> m[32 + lane] == BiasedByte(Elem(lane), ScaleFrom(amax), round) as real)
        && m[64..] == mem[64..]
    {
      hide BiasedByte, ScaleFrom, HalfJob.Elem;
      var phase := BytePhase();
      forall i | 0 <= i < 32
        ensures CodeOk(phase[i], |mem|) && PhaseRegs(phase, regs, mem)[i] == regs[i]
      {
        assert Solo(phase[i], 0, regs[i], mem) == (regs[i], mem);
        assert Solo(phase[i], 1, regs[i], mem).0 == regs[i];
      }
      forall lane | 0 <= lane < 32
        ensures PhaseMem(phase, regs, mem)[32 + lane] == BiasedByte(Elem(lane), ScaleFrom(amax), round) as real
      {
        var code := phase[lane];
        assert code[0].Store? && Writes(code, 32 + lane);
        WriterDecides(phase, regs, mem, lane, 32 + lane);
        assert Solo(code, 0, regs[lane], mem) == (regs[lane], mem);
        assert Solo(code, 1, regs[lane], mem).1
          == mem[32 + lane := BiasedByte(Elem(lane), ScaleFrom(amax), round) as real];
      }
      forall i | 64 <= i < |mem|
        ensures PhaseMem(phase, regs, mem)[i] == mem[i]
      {
        forall j | 0 <= j < 32
          ensures !Writes(phase[j], i)
        {}
      }
    }

    lemma WordSolo(lane: nat, regs: Regs, mem: Memory)
      requires Ok() && lane < 8 && |mem| == CELLS
      ensures CodeOk(WordCode(lane), |mem|)
      ensures var at := 32 + 4 * lane; var (r, m) := Solo(WordCode(lane), 5, regs, mem);
        m == mem[out + 1 + lane := FourBytes(mem, at)]
    {
      var code, at := WordCode(lane), 32 + 4 * lane;
      assert Solo(code, 0, regs, mem) == (regs, mem);
      var r1 := regs.(a := mem[at]);
      assert Solo(code, 1, regs, mem) == (r1, mem);
      var r2 := r1.(a := r1.a + mem[at + 1] * 256.0);
      assert Solo(code, 2, regs, mem) == (r2, mem);
      var r3 := r2.(a := r2.a + mem[at + 2] * 65536.0);
      assert Solo(code, 3, regs, mem) == (r3, mem);
      var r4 := r3.(a := r3.a + mem[at + 3] * 16777216.0);
      assert Solo(code, 4, regs, mem) == (r4, mem);
    }

    lemma WordCells(lane: nat, addr: nat)
      requires Ok() && lane < 8
      ensures Writes(WordCode(lane), addr) <==> addr == out + 1 + lane
      ensures Touches(WordCode(lane), addr) ==> addr == out + 1 + lane || 32 <= addr < 64
    {
      var code := WordCode(lane);
      if addr == out + 1 + lane { assert code[4].Store? && code[4].addr == addr; }
    }

    lemma PackCells(lane: nat, addr: nat)
      requires Ok() && lane < 32
      ensures Writes(PackCode(lane), addr) <==> (lane < 8 && addr == out + 1 + lane) || (lane == 0 && addr == out)
      ensures Touches(PackCode(lane), addr) ==> Writes(PackCode(lane), addr) || 32 <= addr < 64
    {
      if lane < 8 { WordCells(lane, addr); }
      if lane == 0 {
        TouchesJoin(ScaleCode(), WordCode(0), addr);
        if addr == out { assert ScaleCode()[0].Store? && ScaleCode()[0].addr == addr; }
      }
    }

    lemma PackSolo(lane: nat, regs: Regs, mem: Memory)
      requires Ok() && lane < 32 && |mem| == CELLS
      ensures var code := PackCode(lane); var at := 32 + 4 * lane;
        && CodeOk(code, |mem|)
        && (var m := Solo(code, |code|, regs, mem).1;
            && (lane < 8 ==> m[out + 1 + lane] == FourBytes(mem, at))
            && (lane == 0 ==> m[out] == ScaleFrom(regs.top)))
    {
      hide Solo, ScaleFrom, HalfJob.WordCode, CodeOk;
      WordIs(lane);
      if lane == 0 {
        ScaleSolo(regs, mem);
        var mem1 := mem[out := ScaleFrom(regs.top)];
        WordSolo(0, regs, mem1);
        SoloJoin(ScaleCode(), WordCode(0), 5, regs, mem);
      } else if lane < 8 {
        WordSolo(lane, regs, mem);
      } else {
        NoneSolo(regs, mem);
      }
    }

    lemma WordIs(lane: nat)
      ensures |WordCode(lane)| == 5
    {}

    lemma ScaleSolo(regs: Regs, mem: Memory)
      requires Ok() && |mem| == CELLS
      ensures CodeOk(ScaleCode(), |mem|) && Solo(ScaleCode(), 1, regs, mem) == (regs, mem[out := ScaleFrom(regs.top)])
    {
      assert Solo(ScaleCode(), 0, regs, mem) == (regs, mem);
    }

    lemma NoneSolo(regs: Regs, mem: Memory)
      ensures CodeOk<Regs>([], |mem|) && Solo([], 0, regs, mem) == (regs, mem)
    {}

    lemma PackRaceFree()
      requires Ok()
      ensures PhaseRaceFree(PackPhase())
    {
      hide HalfJob.PackCode, Writes, Touches;
      var phase := PackPhase();
      forall i, j, addr: nat | 0 <= i < 32 && 0 <= j < 32 && i != j && Writes(phase[i], addr)
        ensures !Touches(phase[j], addr)
      {
        PackCells(i, addr);
        PackCells(j, addr);
      }
    }

    /** Bytes in memory become the block: its scale, and its eight words. */
    lemma PackMeaning(regs: seq<Regs>, mem: Memory, amax: real)
      requires Ok() && |regs| == 32 && |mem| == CELLS && forall i :: 0 <= i < 32 ==> regs[i].top == amax
      ensures PhaseRaceFree(PackPhase()) && forall i :: 0 <= i < 32 ==> CodeOk(PackPhase()[i], |mem|)
      ensures var m := PhaseMem(PackPhase(), regs, mem);
        && m[out] == ScaleFrom(amax)
        && (forall j :: 0 <= j < 8 ==> m[out + 1 + j] == FourBytes(mem, 32 + 4 * j))
        && (forall i :: 64 <= i < CELLS && !(out <= i < out + 9) ==> m[i] == mem[i])
    {
      hide HalfJob.PackCode, Writes, Touches, CodeOk, ScaleFrom, Solo, PhaseRaceFree;
      var phase := PackPhase();
      PackRaceFree();
      forall i | 0 <= i < 32
        ensures CodeOk(phase[i], |mem|)
      {
        PackSolo(i, regs[i], mem);
      }
      PackCells(0, out);
      PackSolo(0, regs[0], mem);
      WriterDecides(phase, regs, mem, 0, out);
      forall j | 0 <= j < 8
        ensures PhaseMem(phase, regs, mem)[out + 1 + j] == FourBytes(mem, 32 + 4 * j)
      {
        PackCells(j, out + 1 + j);
        PackSolo(j, regs[j], mem);
        WriterDecides(phase, regs, mem, j, out + 1 + j);
      }
      forall i | 64 <= i < CELLS && !(out <= i < out + 9)
        ensures PhaseMem(phase, regs, mem)[i] == mem[i]
      {
        forall j | 0 <= j < 32
          ensures !Writes(phase[j], i)
        {
          PackCells(j, i);
        }
      }
    }

    // ---- The half as a whole ----

    /** The nine cells hold the block that WriteBlock describes. */
    ghost predicate Holds(mem: Memory)
      requires Ok() && |mem| == CELLS
    {
      var b := WriteBlock(x, block, round);
      mem[out] == b.scale && forall j :: 0 <= j < 8 ==> mem[out + 1 + j] == b.words[j] as real
    }

    lemma WordOfBytes(j: nat, mem: Memory)
      requires j < 8 && |mem| == CELLS
      requires forall lane :: 0 <= lane < 32 ==>
        mem[32 + lane] == BiasedByte(Elem(lane), Scale(x, block), round) as real
      ensures FourBytes(mem, 32 + 4 * j) == QuantWord(x, block, j, round) as real
    {
      hide Scale, BiasedByte, Biased;
      ByteIs(4 * j);
      ByteIs(4 * j + 1);
      ByteIs(4 * j + 2);
      ByteIs(4 * j + 3);
      assert mem[32 + 4 * j] == mem[32 + (4 * j)] && mem[32 + 4 * j + 1] == mem[32 + (4 * j + 1)];
      assert mem[32 + 4 * j + 2] == mem[32 + (4 * j + 2)] && mem[32 + 4 * j + 3] == mem[32 + (4 * j + 3)];
    }

    lemma ByteIs(lane: nat)
      requires lane < 32
      ensures BiasedByte(Elem(lane), Scale(x, block), round) == Biased(x, 32 * block + lane, round)
    {
      hide Scale, Clamp127;
      assert (32 * block + lane) / 32 == block;
    }

    lemma KernelMeaning(regs: seq<Regs>, mem: Memory)
      requires Ok() && |regs| == 32 && |mem| == CELLS
      ensures KernelOk(Kernel(), 32, CELLS) && RaceFree(Kernel())
      ensures var m := Meaning(Kernel(), 0, regs, mem).1;
        Holds(m) && forall i :: 64 <= i < CELLS && !(out <= i < out + 9) ==> m[i] == mem[i]
    {
      hide HalfJob.FindKernel, HalfJob.BytePhase, HalfJob.PackPhase, PhaseMem, PhaseRegs, CodeOk, PhaseRaceFree;
      hide BlockAmax, BiasedByte, QuantWord, Scale;
      FindMeaning(regs, mem);
      var regs1, mem1 := Meaning(FindKernel(), 0, regs, mem).0, Meaning(FindKernel(), 0, regs, mem).1;
      var amax := BlockAmax(x, block);
      ByteMeaning(regs1, mem1, amax);
      var mem2 := PhaseMem(BytePhase(), regs1, mem1);
      PackMeaning(regs1, mem2, amax);
      MeaningCons(PackPhase(), [], regs1, mem2);
      MeaningCons(BytePhase(), [PackPhase()], regs1, mem1);
      assert RaceFree([BytePhase()] + [PackPhase()]);
      MeaningJoin(FindKernel(), [BytePhase()] + [PackPhase()], 0, regs, mem);
      RaceFreeJoin(FindKernel(), [BytePhase()] + [PackPhase()]);
      ScaleIs();
      forall j | 0 <= j < 8
        ensures PhaseMem(PackPhase(), regs1, mem2)[out + 1 + j] == QuantWord(x, block, j, round) as real
      {
        WordOfBytes(j, mem2);
      }
    }

    lemma ScaleIs()
      ensures ScaleFrom(BlockAmax(x, block)) == Scale(x, block)
    {}
  }

  lemma {:induction false} AmaxBelow(x: Vec, lo: nat, hi: nat, top: real)
    requires lo <= hi && top >= 0.0 && forall i :: lo <= i < hi ==> Abs(At(x, i)) <= top
    ensures Amax(x, lo, hi) <= top
  {
    if lo < hi { AmaxBelow(x, lo, hi - 1, top); }
  }

  lemma ThirtyTwo()
    ensures PowerOfTwo(32) && 32 / 2 == 16
  {
    assert HalvesTo(1, 1) && HalvesTo(2, 1) && HalvesTo(4, 1) && HalvesTo(8, 1);
  }

  /** The key's half, then the value's. */
  function WriteKernel(k: Vec, v: Vec, block: nat, round: real -> int): Kernel<Regs> {
    HalfJob(k, block, KEY_BLOCK, round).Kernel() + HalfJob(v, block, VALUE_BLOCK, round).Kernel()
  }

  lemma WriteMeaning(k: Vec, v: Vec, block: nat, round: real -> int, regs: seq<Regs>, mem: Memory)
    requires |regs| == 32 && |mem| == CELLS
    ensures var kernel := WriteKernel(k, v, block, round);
      && KernelOk(kernel, 32, CELLS) && RaceFree(kernel)
      && var m := Meaning(kernel, 0, regs, mem).1;
         HalfJob(k, block, KEY_BLOCK, round).Holds(m) && HalfJob(v, block, VALUE_BLOCK, round).Holds(m)
  {
    hide HalfJob.Kernel, WriteBlock;
    var key, value := HalfJob(k, block, KEY_BLOCK, round), HalfJob(v, block, VALUE_BLOCK, round);
    key.KernelMeaning(regs, mem);
    var regs1, mem1 := Meaning(key.Kernel(), 0, regs, mem).0, Meaning(key.Kernel(), 0, regs, mem).1;
    value.KernelMeaning(regs1, mem1);
    MeaningJoin(key.Kernel(), value.Kernel(), 0, regs, mem);
    RaceFreeJoin(key.Kernel(), value.Kernel());
  }

  /** However the 32 lanes are scheduled, a launch leaves the key's block and the value's block. */
  lemma WriteEverySchedule(k: Vec, v: Vec, block: nat, round: real -> int, regs: seq<Regs>, mem: Memory,
                           schedule: seq<Choice>, final: Config<Regs>)
    requires |regs| == 32 && |mem| == CELLS
    requires var kernel := WriteKernel(k, v, block, round);
      Run(kernel, Start(regs, mem), schedule, final) && final.phase == |kernel|
    ensures |final.mem| == CELLS
    ensures HalfJob(k, block, KEY_BLOCK, round).Holds(final.mem)
    ensures HalfJob(v, block, VALUE_BLOCK, round).Holds(final.mem)
  {
    hide HalfJob.Holds, WriteKernel, Run;
    WriteMeaning(k, v, block, round, regs, mem);
    ScheduleIndependence(WriteKernel(k, v, block, round), regs, mem, schedule, final);
  }
}
