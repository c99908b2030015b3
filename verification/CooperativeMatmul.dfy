/** The cooperative batched matmul kernels: 64 lanes decode a weight row into shared memory once, then
    dot it with every token. Cells: 64 partial sums, the decoded row, the outputs. */
module CooperativeMatmul {
  import opened Sums
  import opened Striding
  import opened Bytes
  import opened QuantValues
  import opened QuantGpu
  import opened QuantLanes
  import opened Workgroup
  import opened TreeReduction
  import opened WorkgroupKernels
  import opened StridedGather

  /** Element l of 32-element unit u, as the kernels decode it: a block of Q8_0, a sub-block of Q4_K. */
  function UnitElement(format: Format, b: Reader, u: nat, l: nat): real {
    if format == Q8_0 then Mul(HalfAt(b, 34 * u), I8(b(34 * u + 2 + l)) as real)
    else
      var base, sub := 144 * (u / 8), u % 8;
      var (sc, m) := ScaleMin(b, base + 4, sub);
      var byte := b(base + 16 + 32 * (sub / 2) + l);
      Mul(Mul(HalfAt(b, base), sc as real), (if sub % 2 == 0 then Low4(byte) else High4(byte)) as real)
        - Mul(HalfAt(b, base + 2), m as real)
  }

  lemma UnitElementIsValue(format: Format, b: Reader, u: nat, l: nat)
    requires (format == Q8_0 || format == Q4_K) && l < 32
    ensures UnitElement(format, b, u, l) == Value(format, b, 32 * u + l)
  {
    hide HalfAt, I8, ScaleMin, Low4, High4;
    if format == Q8_0 {
      ModUnique(32 * u + l, 32, u, l);
    } else {
      SubBlockIndex(u / 8, u % 8, l);
    }
  }

  // ---- A lane's code ----

  /** What a lane stores at index j of the shared row. */
  function Element(format: Format, b: Reader): (int, Regs) -> real {
    (j: int, r: Regs) => if j < 0 then 0.0 else UnitElement(format, b, j / 32, j % 32)
  }

  function UnitEnd(n: nat, u: nat): nat { if 32 * u + 32 < n then 32 * u + 32 else n }

  /** Units u, u + 64, ...: each element inside the row into its cell. */
  function DecodeCode(n: nat, units: nat, u: nat, give: (int, Regs) -> real): Code<Regs>
    decreases units - u
  {
    if u >= units then [] else StoreLoop(64, 32 * u, 1, UnitEnd(n, u), give) + DecodeCode(n, units, u + 64, give)
  }

  /** The lane whose turn is unit u, u + 64, ... decodes element j. */
  predicate Owns(n: nat, units: nat, u: nat, j: int) { 0 <= j < n && InStride(j / 32, u, 64, units) }

  lemma {:induction false} UnitStep(j: int, u: nat, n: nat)
    ensures InStride(j, 32 * u, 1, UnitEnd(n, u)) <==> 0 <= j < n && j / 32 == u
  {
    InStrideMod(j, 32 * u, 1, UnitEnd(n, u));
    assert (j - 32 * u) % 1 == 0;
  }

  lemma {:induction false} DecodeCells(n: nat, units: nat, u: nat, give: (int, Regs) -> real, addr: nat)
    ensures var code := DecodeCode(n, units, u, give);
      && (Touches(code, addr) <==> Owns(n, units, u, addr - 64))
      && (Writes(code, addr) <==> Owns(n, units, u, addr - 64))
    decreases units - u
  {
    hide Touches, Writes;
    if u < units {
      DecodeCells(n, units, u + 64, give, addr);
      StoreLoopCells(64, 32 * u, 1, UnitEnd(n, u), give, addr);
      TouchesJoin(StoreLoop(64, 32 * u, 1, UnitEnd(n, u), give), DecodeCode(n, units, u + 64, give), addr);
      UnitStep(addr - 64, u, n);
      InStrideNext((addr - 64) / 32, u, 64, units);
    } else {
      NoCells(addr);
    }
  }

  lemma NoCells(addr: nat)
    ensures !Touches<Regs>([], addr) && !Writes<Regs>([], addr)
  {}

  lemma {:induction false} DecodeSolo(n: nat, units: nat, u: nat, give: (int, Regs) -> real, regs: Regs, mem: Memory)
    requires 64 + n <= |mem|
    ensures var code := DecodeCode(n, units, u, give);
      && CodeOk(code, |mem|)
      && (var (r, m) := Solo(code, |code|, regs, mem);
          && r == regs
          && forall j :: 0 <= j < n ==> m[64 + j] == if Owns(n, units, u, j) then give(j, regs) else mem[64 + j])
    decreases units - u
  {
    hide CodeOk, Solo;
    if u < units {
      var head, rest := StoreLoop(64, 32 * u, 1, UnitEnd(n, u), give), DecodeCode(n, units, u + 64, give);
      StoreLoopSolo(64, 32 * u, 1, UnitEnd(n, u), give, regs, mem);
      var mem1 := Solo(head, |head|, regs, mem).1;
      DecodeSolo(n, units, u + 64, give, regs, mem1);
      SoloJoin(head, rest, |rest|, regs, mem);
      var m := Solo(rest, |rest|, regs, mem1).1;
      forall j | 0 <= j < n
        ensures m[64 + j] == if Owns(n, units, u, j) then give(j, regs) else mem[64 + j]
      {
        UnitStep(j, u, n);
        assert mem1[64 + j] == if j / 32 == u then give(j, regs) else mem[64 + j];
        assert m[64 + j] == if Owns(n, units, u + 64, j) then give(j, regs) else mem1[64 + j];
        InStrideNext(j / 32, u, 64, units);
      }
    } else {
      NoCodeRuns(regs, mem);
    }
  }

  lemma NoCodeRuns(regs: Regs, mem: Memory)
    ensures CodeOk<Regs>([], |mem|) && Solo([], 0, regs, mem) == (regs, mem)
  {}

  /** row[j] * x[j]. */
  function Product(x: Vec): (int, real) -> real { (j: int, v: real) => Mul(v, At(x, j)) }

  // ---- The workgroup ----

  /** The workgroup of one row of n elements, read through b, against the tokens xs. */
  datatype CoopJob = CoopJob(format: Format, b: Reader, n: nat, xs: seq<Vec>) {

    predicate Ok() { (format == Q8_0 || format == Q4_K) && forall t :: 0 <= t < |xs| ==> |xs[t]| == n }

    /** The reduction and the last addition are those of the row kernels, with the decoded row in between. */
    function Rows(): RowJob { RowJob(n + |xs|, (t: int, lane: int) => 0.0) }

    function Cells(): nat { 64 + n + |xs| }

    function DecodePhase(): (p: Phase<Regs>)
      ensures |p| == 64
    {
      seq(64, lane requires 0 <= lane < 64 => DecodeCode(n, Units(format, n), lane, Element(format, b)))
    }

    /** Every lane's dot over its strided elements of the shared row. */
    function DotPhase(t: nat): (p: Phase<Regs>)
      requires t < |xs|
      ensures |p| == 64
    {
      GatherPhase(64, n, Product(xs[t]))
    }

    function TokenKernel(t: nat): Kernel<Regs>
      requires t < |xs|
    {
      [DotPhase(t)] + TreeKernel(64, 32, 2, PLUS) + [Rows().OutPhase(n + t)]
    }

    function TokensFrom(t: nat): Kernel<Regs>
      decreases |xs| - t
    {
      if t >= |xs| then [] else TokenKernel(t) + TokensFrom(t + 1)
    }

    function Kernel(): Kernel<Regs> { [DecodePhase()] + TokensFrom(0) }

    /** Shared memory holds the decoded row. */
    ghost predicate RowDecoded(mem: Memory)
      requires |mem| == Cells()
    {
      forall j :: 0 <= j < n ==> mem[64 + j] == Value(format, b, j)
    }

    /** No two lanes decode the same element, and together they decode them all. */
    lemma DecodeMeaning(regs: seq<Regs>, mem: Memory)
      requires Ok() && |regs| == 64 && |mem| == Cells()
      ensures PhaseRaceFree(DecodePhase()) && forall i :: 0 <= i < 64 ==> CodeOk(DecodePhase()[i], |mem|)
      ensures RowDecoded(PhaseMem(DecodePhase(), regs, mem))
    {
      hide PhaseMem, UnitElement, Value, DecodeCode, CodeOk, Writes, Touches;
      var phase, units, give := DecodePhase(), Units(format, n), Element(format, b);
      forall i | 0 <= i < 64
        ensures CodeOk(phase[i], |mem|)
      {
        DecodeSolo(n, units, i, give, regs[i], mem);
      }
      DecodeRaceFree();
      forall j | 0 <= j < n
        ensures PhaseMem(phase, regs, mem)[64 + j] == Value(format, b, j)
      {
        UnitInside(j);
        var lane := OwnerOf(j / 32, 64, units);
        DecodeCells(n, units, lane, give, 64 + j);
        DecodeSolo(n, units, lane, give, regs[lane], mem);
        WriterDecides(phase, regs, mem, lane, 64 + j);
        UnitElementIsValue(format, b, j / 32, j % 32);
      }
    }

    lemma UnitInside(j: nat)
      requires Ok() && j < n
      ensures j / 32 < Units(format, n)
    {}

    lemma DecodeRaceFree()
      ensures PhaseRaceFree(DecodePhase())
    {
      hide DecodeCode, Writes, Touches;
      var phase, units, give := DecodePhase(), Units(format, n), Element(format, b);
      forall i, j, addr: nat | 0 <= i < 64 && 0 <= j < 64 && i != j && Writes(phase[i], addr)
        ensures !Touches(phase[j], addr)
      {
        DecodeCells(n, units, i, give, addr);
        DecodeCells(n, units, j, give, addr);
        if Touches(phase[j], addr) { OwnerUnique((addr - 64) / 32, i, j, 64, units); }
      }
    }

    /** The lanes' partials over a decoded row add up to the row's dot. */
    lemma PartialsAreDot(t: nat, mem: Memory, partials: Memory)
      requires Ok() && t < |xs| && |mem| == Cells() && RowDecoded(mem) && |partials| >= 64
      requires forall lane :: 0 <= lane < 64 ==>
        partials[lane] == StrideSum(lane, 64, n, CellTerms(mem, 64, Product(xs[t])))
      ensures Fold(PLUS, partials, 0, 64) == DotRow(format, b, xs[t])
    {
      hide Value, Sum, StrideSum, Fold;
      var f := CellTerms(mem, 64, Product(xs[t]));
      var g := (lane: int) => if lane >= 0 then StrideSum(lane, 64, n, f) else 0.0;
      FoldPlus(partials, 64, g);
      StridesPartition(64, n, f);
      SumEq(64, g, lane => if lane >= 0 then StrideSum(lane, 64, n, f) else 0.0);
      SumEq(n, f, i => Term(format, b, xs[t], i));
    }

    lemma TokenMeaning(t: nat, regs: seq<Regs>, mem: Memory)
      requires Ok() && t < |xs| && |regs| == 64 && |mem| == Cells() && RowDecoded(mem)
      ensures KernelOk(TokenKernel(t), 64, |mem|) && RaceFree(TokenKernel(t))
      ensures var m := Meaning(TokenKernel(t), 0, regs, mem).1;
        && m[64 + n + t] == DotRow(format, b, xs[t])
        && forall i :: 64 <= i < |mem| && i != 64 + n + t ==> m[i] == mem[i]
    {
      hide GatherPhase, PhaseMem, PhaseRegs, DotRow, CodeOk, Fold, TreeKernel, StrideSum, Value;
      hide Meaning, PhaseRaceFree, CoopJob.RowDecoded, CoopJob.Ok;
      var first, tree, last := DotPhase(t), TreeKernel(64, 32, 2, PLUS), Rows().OutPhase(n + t);
      GatherMeaning(64, n, Product(xs[t]), regs, mem);
      var regs1, mem1 := PhaseRegs(first, regs, mem), PhaseMem(first, regs, mem);
      TreeOk(64, 32, 2, PLUS, |mem|);
      var regs2, mem2 := Meaning(tree, 0, regs1, mem1).0, Meaning(tree, 0, regs1, mem1).1;
      Rows().PairLeft(regs1, mem1);
      Rows().OutMeaning(n + t, regs2, mem2);
      Compose(first, tree, last, regs, mem);
      PartialsAreDot(t, mem, mem1);
    }

    lemma {:induction false} TokensMeaning(t: nat, regs: seq<Regs>, mem: Memory)
      requires Ok() && t <= |xs| && |regs| == 64 && |mem| == Cells() && RowDecoded(mem)
      ensures KernelOk(TokensFrom(t), 64, |mem|) && RaceFree(TokensFrom(t))
      ensures var m := Meaning(TokensFrom(t), 0, regs, mem).1;
        && (forall u :: t <= u < |xs| ==> m[64 + n + u] == DotRow(format, b, xs[u]))
        && (forall i :: 64 <= i < 64 + n + t ==> m[i] == mem[i])
      decreases |xs| - t
    {
      hide CoopJob.TokenKernel, DotRow, Value;
      if t < |xs| {
        TokenMeaning(t, regs, mem);
        var regs1, mem1 := Meaning(TokenKernel(t), 0, regs, mem).0, Meaning(TokenKernel(t), 0, regs, mem).1;
        TokensMeaning(t + 1, regs1, mem1);
        MeaningJoin(TokenKernel(t), TokensFrom(t + 1), 0, regs, mem);
        RaceFreeJoin(TokenKernel(t), TokensFrom(t + 1));
      }
    }

    /** However the lanes are scheduled, every token's output is the row's dot with that token. */
    lemma EverySchedule(regs: seq<Regs>, mem: Memory, schedule: seq<Choice>, final: Config<Regs>)
      requires Ok() && |regs| == 64 && |mem| == Cells()
      requires Run(Kernel(), Start(regs, mem), schedule, final) && final.phase == |Kernel()|
      ensures |final.mem| == Cells()
      ensures forall t :: 0 <= t < |xs| ==> final.mem[64 + n + t] == DotRow(format, b, xs[t])
    {
      hide CoopJob.DecodePhase, CoopJob.TokensFrom, Run, DotRow, Value, PhaseRaceFree, CodeOk;
      DecodeMeaning(regs, mem);
      var regs1, mem1 := PhaseRegs(DecodePhase(), regs, mem), PhaseMem(DecodePhase(), regs, mem);
      TokensMeaning(0, regs1, mem1);
      MeaningCons(DecodePhase(), TokensFrom(0), regs, mem);
      assert RaceFree([DecodePhase()]);
      RaceFreeJoin([DecodePhase()], TokensFrom(0));
      ScheduleIndependence(Kernel(), regs, mem, schedule, final);
    }
  }

  /** So the cooperative kernel computes, from the packed weights, the dots with the file's row. */
  lemma CooperativeRow(format: Format, packed: seq<Word>, w: seq<Byte>, n: nat, rows: nat, rowWords: nat, r: nat,
                       xs: seq<Vec>, regs: seq<Regs>, mem: Memory, schedule: seq<Choice>, final: Config<Regs>)
    requires IsPacked(packed, w, format.RowBytes(n), rows, rowWords) && r < rows
    requires var job := CoopJob(format, RowReader(packed, r, rowWords), n, xs);
      && job.Ok() && |regs| == 64 && |mem| == job.Cells()
      && Run(job.Kernel(), Start(regs, mem), schedule, final) && final.phase == |job.Kernel()|
    ensures |final.mem| == 64 + n + |xs| && 0 <= r * format.RowBytes(n) <= |w|
    ensures forall t :: 0 <= t < |xs| ==>
      final.mem[64 + n + t] == DotRow(format, ReaderOf(w[r * format.RowBytes(n)..]), xs[t])
  {
    hide DotRow, IsPacked, Run, CoopJob.Kernel;
    var job := CoopJob(format, RowReader(packed, r, rowWords), n, xs);
    job.EverySchedule(regs, mem, schedule, final);
    RowStart(packed, w, format.RowBytes(n), rows, rowWords, r);
    forall t | 0 <= t < |xs|
      ensures final.mem[64 + n + t] == DotRow(format, ReaderOf(w[r * format.RowBytes(n)..]), xs[t])
    {
      PackedDot(format, packed, w, rows, rowWords, r, xs[t]);
    }
  }
}
