/** The device: weights uploaded as packed words, workgroups run in an order of the device's own choosing, and every
    launch of the resident pass with what it computes. */
module DeviceLaunches {
  import opened Sums
  import opened Striding
  import opened Blocks
  import opened Elementary
  import opened Bytes
  import opened QuantValues
  import opened QuantGpu
  import opened QuantLanes
  import opened Workgroup
  import opened TreeReduction
  import opened WorkgroupKernels
  import opened HeadKernels
  import opened Matmul

  // ---- Uploaded weights ----

  /** `GpuWeightHandle`: a weight's rows as packed words. */
  datatype Handle = Handle(format: Format, inDim: nat, rows: nat, rowWords: nat, packed: seq<Word>)

  /** The bytes behind a handle: packed row by row, and decoding to the tensor's rows. */
  ghost predicate PackedFrom(h: Handle, t: Tensor, w: seq<Byte>) {
    && IsPacked(h.packed, w, h.format.RowBytes(h.inDim), h.rows, h.rowWords) && |t.rows| == h.rows
    && forall r :: 0 <= r < h.rows ==> RowDecodes(h, t, w, r)
  }

  ghost predicate RowDecodes(h: Handle, t: Tensor, w: seq<Byte>, r: nat)
    requires |t.rows| == h.rows
  {
    var at := r * h.format.RowBytes(h.inDim);
    r < h.rows && 0 <= at <= |w| && t.rows[r] == Decoded(h.format, ReaderOf(w[at..]), h.inDim)
  }

  /** A weight of at least one row, in the device's words: a grid of no rows cannot be laid out. */
  ghost predicate Uploaded(h: Handle, t: Tensor) { h.rows > 0 && exists w :: PackedFrom(h, t, w) }

  /** `upload_weight`: as many rows as the bytes hold. */
  method UploadWeight(format: Format, w: seq<Byte>, inDim: nat, ghost t: Tensor) returns (h: Handle)
    requires inDim > 0 && 0 < |t.rows| == |w| / format.RowBytes(inDim)
    requires forall r :: 0 <= r < |t.rows| ==> 0 <= r * format.RowBytes(inDim) <= |w|
    requires forall r :: 0 <= r < |t.rows| ==>
      t.rows[r] == Decoded(format, ReaderOf(w[r * format.RowBytes(inDim)..]), inDim)
    ensures Uploaded(h, t) && h.format == format && h.inDim == inDim
  {
    hide Decoded, IsPacked, Format.RowBytes;
    var rowBytes := format.RowBytes(inDim);
    RowHasBytes(format, inDim);
    var rows, rowWords := |w| / rowBytes, (rowBytes + 3) / 4;
    WholeRows(|w|, rowBytes);
    var packed := PackBytesToU32(w, rowBytes, rows, rowWords);
    h := Handle(format, inDim, rows, rowWords, packed);
    assert PackedFrom(h, t, w);
  }

  lemma RowHasBytes(format: Format, n: nat)
    requires n > 0
    ensures format.RowBytes(n) > 0
  {}

  lemma WholeRows(size: nat, rowBytes: nat)
    requires rowBytes > 0
    ensures rowBytes * (size / rowBytes) <= size
  {}

  /** Past the end of a weight's row activations do not count. */
  lemma {:induction false} DotOfPart(row: Vec, x: Vec)
    ensures Dot(row, Part(x, 0, |row|)) == Dot(row, x)
  {
    hide Sum, Mul;
    var n, y := |row|, Part(x, 0, |row|);
    var f, g := (i: int) => Mul(At(row, i), At(x, i)), (i: int) => Mul(At(row, i), At(y, i));
    var m := if |x| < n then n else |x|;
    forall i | 0 <= i < n
      ensures f(i) == g(i)
    {
      PartIsAt(x, n, i);
    }
    forall i | n <= i
      ensures f(i) == 0.0
    {
      ZeroTimes(At(x, i));
    }
    forall i | |x| <= i
      ensures f(i) == 0.0
    {
      TimesZero(At(row, i));
    }
    SumPad(|x|, m, f);
    SumPad(n, m, f);
    SumEq(n, f, g);
    SumEq(|x|, f, i => Mul(At(row, i), At(x, i)));
    SumEq(n, g, i => Mul(At(row, i), At(y, i)));
  }

  lemma ZeroTimes(a: real)
    ensures Mul(0.0, a) == 0.0
  {}

  lemma PartIsAt(x: Vec, n: nat, i: nat)
    requires i < n
    ensures At(Part(x, 0, n), i) == At(x, i)
  {}

  /** Blocks laid end to end. */
  function Blocked(blocks: seq<Vec>, c: nat): Vec {
    FromBlocks(|blocks|, c, h => if 0 <= h < |blocks| then blocks[h] else [])
  }

  lemma BlockedIs(blocks: seq<Vec>, c: nat, f: int -> Vec)
    requires forall h :: 0 <= h < |blocks| ==> blocks[h] == f(h)
    ensures Blocked(blocks, c) == FromBlocks(|blocks|, c, f)
  {
    var n := |blocks|;
    if c > 0 {
      forall i | 0 <= i < n * c
        ensures Blocked(blocks, c)[i] == FromBlocks(n, c, f)[i]
      {
        var q := BlockOf(i, n, c);
      }
    }
  }

  // ---- The device ----

  const IDLE: Regs := Regs(0.0, 0.0, 0.0)

  /** Lanes of the norms over a whole row, and of every other workgroup with shared memory. */
  const WIDE: nat := 256
  const LANES: nat := 64

  lemma LanesArePowers()
    ensures PowerOfTwo(WIDE) && PowerOfTwo(LANES)
  {
    assert HalvesTo(1, 1) && HalvesTo(2, 1) && HalvesTo(4, 1) && HalvesTo(8, 1) && HalvesTo(16, 1) && HalvesTo(32, 1);
    assert HalvesTo(64, 1) && HalvesTo(128, 1);
  }

  class Device {
    /** Which lane the device lets go next, launch by launch and step by step. */
    const pick: (nat, nat) -> nat
    /** What memory that nobody has written reads as. */
    const junk: int -> real
    /** How the device rounds to an integer. */
    const round: real -> int
    const handles: map<string, Handle>
    var clock: nat

    constructor (order: (nat, nat) -> nat, stale: int -> real, rounding: real -> int, weights: map<string, Handle>)
      ensures pick == order && junk == stale && round == rounding && handles == weights
    {
      pick, junk, round, handles, clock := order, stale, rounding, weights, 0;
    }

    function Stale(n: nat): (mem: Memory)
      ensures |mem| == n
    {
      seq(n, i => junk(i))
    }

    /** One workgroup, to its end. */
    method RunWorkgroup(kernel: Kernel<Regs>, lanes: nat, mem: Memory) returns (final: Memory)
      requires KernelOk(kernel, lanes, |mem|) && RaceFree(kernel)
      modifies `clock
      ensures final == Meaning(kernel, 0, seq(lanes, _ => IDLE), mem).1
    {
      var launch := clock;
      var regs := seq(lanes, _ => IDLE);
      final := Execute((step: nat) => pick(launch, step), kernel, regs, mem);
      clock := clock + 1;
      CompleteIsMeaning(kernel, regs, mem, final);
    }

    // ---- Matrix products ----

    /** The workgroup of one row: 64 lanes' partial products, summed. */
    method RowWorkgroup(h: Handle, x: Vec, r: nat, ghost t: Tensor, ghost w: seq<Byte>) returns (dot: real)
      requires PackedFrom(h, t, w) && r < h.rows && |x| == h.inDim
      modifies `clock
      ensures dot == Dot(t.rows[r], x)
    {
      hide LanePartial, RowReader, Dot, DotRow, Decoded, IsPacked, PartialsOf;
      assert RowFits(h.packed, r, h.rowWords, h.format.RowBytes(|x|)) by { RowFitsPacked(h, t, w, r); }
      var partials: Vec := [];
      for lane := 0 to 64
        invariant |partials| == lane
        invariant forall l :: 0 <= l < lane ==>
          partials[l] == LanePartial(h.format, RowReader(h.packed, r, h.rowWords), x, l)
      {
        var part := LaneLoop(h, x, r, lane);
        partials := partials + [part];
      }
      var partial := PartialsOf(partials);
      var job := RowJob(1, partial);
      var mem := Stale(65);
      job.KernelMeaning(0, seq(64, _ => IDLE), mem);
      var final := RunWorkgroup(job.KernelFrom(0), 64, mem);
      dot := final[64];
      RowOfLanes(h, x, r, t, w, partials);
    }

    /** One lane's loop over its share of the row. */
    method LaneLoop(h: Handle, x: Vec, r: nat, lane: nat) returns (part: real)
      requires lane < 64 && RowFits(h.packed, r, h.rowWords, h.format.RowBytes(|x|))
      ensures part == LanePartial(h.format, RowReader(h.packed, r, h.rowWords), x, lane)
    {
      match h.format
      case Q8_0 => part := PartialQ8_0(h.packed, x, r, lane, h.rowWords);
      case Q4_K => part := PartialQ4K(h.packed, x, r, lane, h.rowWords);
      case Q5_K => part := PartialQ5K(h.packed, x, r, lane, h.rowWords);
      case Q6_K => part := PartialQ6K(h.packed, x, r, lane, h.rowWords);
    }

    /** `launch_only`: the 2-D grid of row workgroups. */
    method LaunchMatmul(h: Handle, x: Vec, ghost t: Tensor) returns (out: Vec)
      requires Uploaded(h, t)
      modifies `clock
      ensures out == t.Exact(x)
    {
      hide Dot, RowDecodes, PackedFrom, Part;
      ghost var w :| PackedFrom(h, t, w);
      RowCount(h, t, w);
      var input, width := Part(x, 0, h.inDim), GridX(h.rows);
      out := [];
      for y := 0 to GridY(h.rows)
        invariant |out| == if y * width < h.rows then y * width else h.rows
        invariant forall r :: 0 <= r < |out| ==> out[r] == Dot(t.rows[r], x)
      {
        for column := 0 to width
          invariant |out| == if y * width + column < h.rows then y * width + column else h.rows
          invariant forall r :: 0 <= r < |out| ==> out[r] == Dot(t.rows[r], x)
        {
          var row := y * width + column;
          if row < h.rows {
            var dot := RowWorkgroup(h, input, row, t, w);
            RowLength(h, t, w, row);
            DotOfPart(t.rows[row], x);
            out := out + [dot];
          }
        }
        assert (y + 1) * width == y * width + width;
      }
      GridIsEnough(h.rows);
    }

    // ---- Norms over a whole row ----

    /** `launch_rms_norm`. */
    method LaunchRmsNorm(math: Math, x: Vec, weight: Vec, eps: real) returns (out: Vec)
      modifies `clock
      ensures out == RmsNorm(math, x, weight, eps)
    {
      hide RmsNorm, RmsNormKernel;
      LanesArePowers();
      var shared, rest := Stale(WIDE), Stale(|x|);
      var mem := shared + x + rest;
      assert mem[WIDE..WIDE + |x|] == x;
      RmsNormMeaning(WIDE, x, weight, eps, math, seq(WIDE, _ => IDLE), mem);
      var final := RunWorkgroup(RmsNormKernel(WIDE, x, weight, eps, math), WIDE, mem);
      out := final[WIDE + |x|..];
    }

    /** `launch_add_residual_rms_norm`: the new stream and its norm. */
    method LaunchAddResidualRmsNorm(math: Math, x: Vec, delta: Vec, weight: Vec, eps: real) returns (sum: Vec, out: Vec)
      modifies `clock
      ensures sum == Add(x, delta) && out == RmsNorm(math, Add(x, delta), weight, eps)
    {
      hide RmsNorm, NormJob.Kernel, Add;
      LanesArePowers();
      var job := NormJob(WIDE, x, delta, weight, eps, math);
      var mem := Stale(job.Cells());
      job.KernelMeaning(seq(WIDE, _ => IDLE), mem);
      var final := RunWorkgroup(job.Kernel(), WIDE, mem);
      sum, out := final[job.NewX()..job.Normed()], final[job.Normed()..];
    }
  }

  lemma CompleteIsMeaning<L(!new)>(kernel: Kernel<L>, regs: seq<L>, mem: Memory, final: Memory)
    requires KernelOk(kernel, |regs|, |mem|) && RaceFree(kernel) && Complete(kernel, regs, mem, final)
    ensures final == Meaning(kernel, 0, regs, mem).1
  {
    var schedule, c :| Finishes(kernel, regs, mem, schedule, c) && c.mem == final;
    ScheduleIndependence(kernel, regs, mem, schedule, c);
  }

  function PartialsOf(partials: Vec): (int, int) -> real { (t: int, lane: int) => At(partials, lane) }

  lemma RowFitsPacked(h: Handle, t: Tensor, w: seq<Byte>, r: nat)
    requires PackedFrom(h, t, w) && r < h.rows
    ensures RowFits(h.packed, r, h.rowWords, h.format.RowBytes(h.inDim))
  {
    RowEnd(r, h.rows, h.rowWords);
  }

  lemma RowCount(h: Handle, t: Tensor, w: seq<Byte>)
    requires PackedFrom(h, t, w)
    ensures |t.rows| == h.rows
  {}

  lemma RowLength(h: Handle, t: Tensor, w: seq<Byte>, r: nat)
    requires PackedFrom(h, t, w) && r < h.rows
    ensures |t.rows| == h.rows && |t.rows[r]| == h.inDim
  {
    assert RowDecodes(h, t, w, r);
  }

  /** The 64 partials of a row add up to its dot with x. */
  lemma RowOfLanes(h: Handle, x: Vec, r: nat, t: Tensor, w: seq<Byte>, partials: Vec)
    requires PackedFrom(h, t, w) && r < h.rows && |x| == h.inDim && |partials| == 64
    requires forall l :: 0 <= l < 64 ==> partials[l] == LanePartial(h.format, RowReader(h.packed, r, h.rowWords), x, l)
    ensures RowJob(1, PartialsOf(partials)).Total(0) == Dot(t.rows[r], x)
  {
    hide LanePartial, RowReader, Dot, DotRow, Decoded, IsPacked, Sum;
    var b, partial := RowReader(h.packed, r, h.rowWords), PartialsOf(partials);
    assert RowDecodes(h, t, w, r);
    LanesCoverRow(h.format, b, x);
    SumEq(64, lane => partial(0, lane), lane => if lane >= 0 then LanePartial(h.format, b, x, lane) else 0.0);
    PackedDot(h.format, h.packed, w, h.rows, h.rowWords, r, x);
    DotRowIsDotOfDecoded(h.format, ReaderOf(w[r * h.format.RowBytes(h.inDim)..]), x);
  }

  /** The grid has at least as many workgroups as there are rows. */
  lemma GridIsEnough(rows: nat)
    requires rows > 0
    ensures GridY(rows) * GridX(rows) >= rows
  {
    var x, y := GridCoversRows(rows, rows - 1);
    RowEnd(y, GridY(rows), GridX(rows));
  }
}
