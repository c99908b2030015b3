/** The GPU matmul kernels' per-lane partial dot products, and the row they add up to. */
module QuantLanes {
  import opened Sums
  import opened Striding
  import opened Bytes
  import opened QuantValues
  import opened QuantCpu
  import opened QuantDots
  import opened QuantGpu
  import opened Workgroup
  import opened TreeReduction
  import opened WorkgroupKernels

  /** The terms of the 32-element unit u. */
  function UnitTerms(format: Format, b: Reader, x: Vec, u: nat): int -> real {
    (l: int) => Term(format, b, x, 32 * u + l)
  }

  function UnitSum(format: Format, b: Reader, x: Vec): int -> real {
    (u: int) => if u < 0 then 0.0 else Sum(32, UnitTerms(format, b, x, u))
  }

  /** 32-element units in a row: blocks of Q8_0, sub-blocks of Q4_K and Q5_K. */
  function Units(format: Format, n: nat): nat {
    if format == Q8_0 then (n + 31) / 32 else (n + 255) / 256 * 8
  }

  /** The four elements of position lane % 32 in half lane / 32, for every block. */
  function SlotTerms(b: Reader, x: Vec, lane: nat): int -> real {
    (block: int) => QuadTerm(Terms(Q6_K, b, x), 256 * block + 128 * (lane / 32))(lane % 32)
  }

  /** What lane `lane` of the 64 contributes. */
  function LanePartial(format: Format, b: Reader, x: Vec, lane: nat): real {
    if format == Q6_K then Sum((|x| + 255) / 256, SlotTerms(b, x, lane))
    else StrideSum(lane, 64, Units(format, |x|), UnitSum(format, b, x))
  }

  /** The row's bytes lie inside the packed buffer. */
  predicate RowFits(w: seq<Word>, row: nat, rowWords: nat, bytes: nat) {
    bytes <= 4 * rowWords && row * rowWords + rowWords <= |w|
  }

  // ---- The kernels' lane loops ----

  method PartialQ8_0(w: seq<Word>, x: Vec, row: nat, lane: nat, rowWords: nat) returns (sum: real)
    requires RowFits(w, row, rowWords, Q8_0.RowBytes(|x|))
    ensures sum == LanePartial(Q8_0, RowReader(w, row, rowWords), x, lane)
  {
    sum := StrideQ8(RowReader(w, row, rowWords), x, lane, (|x| + 31) / 32);
  }

  method StrideQ8(b: Reader, x: Vec, lane: nat, blocks: nat) returns (sum: real)
    ensures sum == StrideSum(lane, 64, blocks, UnitSum(Q8_0, b, x))
  {
    hide *;
    ghost var f := UnitSum(Q8_0, b, x);
    sum := 0.0;
    var block := lane;
    while block < blocks
      invariant block >= lane && sum + StrideSum(block, 64, blocks, f) == StrideSum(lane, 64, blocks, f)
      decreases blocks - block
    {
      StrideSumStep(block, 64, blocks, f);
      var dot := Q8Unit(b, x, block);
      sum, block := sum + dot, block + 64;
    }
    StrideSumStep(block, 64, blocks, f);
  }

  method Q8Unit(b: Reader, x: Vec, block: nat) returns (r: real)
    ensures r == UnitSum(Q8_0, b, x)(block)
  {
    hide HalfAt, Half, I8, Value, Mul, Sum, Term;
    var scale := HalfAt(b, 34 * block);
    var q := (i: int) => Mul(I8(b(34 * block + 2 + i)) as real, At(x, 32 * block + i));
    var dot := 0.0;
    SumNone(q);
    for i := 0 to 32
      invariant dot == Sum(i, q)
    {
      SumStep(i, q);
      TimesZero(I8(b(34 * block + 2 + i)) as real);
      if 32 * block + i < |x| {
        dot := dot + Mul(I8(b(34 * block + 2 + i)) as real, x[32 * block + i]);
      }
    }
    SumScale(32, scale, q);
    forall i | 0 <= i < 32
      ensures scale * q(i) == UnitTerms(Q8_0, b, x, block)(i)
    {
      Q8TermFactors(b, x, block, i);
    }
    SumEq(32, i => scale * q(i), UnitTerms(Q8_0, b, x, block));
    r := scale * dot;
  }

  lemma TimesZero(a: real)
    ensures Mul(a, 0.0) == 0.0
  {}

  /** The 32 bytes of a nibble window, fetched a word at a time. */
  method WindowWords(w: seq<Word>, start: nat) returns (bytes: seq<Byte>)
    requires start % 4 == 0 && start / 4 + 8 <= |w|
    ensures |bytes| == 32 && forall l :: 0 <= l < 32 ==> bytes[l] == ReadByte(w, start + l)
  {
    hide WordByte, ReadByte;
    bytes := [];
    var l := 0;
    while l < 32
      invariant 0 <= l <= 32 && l % 4 == 0 && |bytes| == l
      invariant forall k :: 0 <= k < l ==> bytes[k] == ReadByte(w, start + k)
    {
      var word := w[(start + l) / 4];
      for bb := 0 to 4
        invariant |bytes| == l + bb
        invariant forall k :: 0 <= k < l + bb ==> bytes[k] == ReadByte(w, start + k)
      {
        WordwiseRead(w, start + l, bb);
        bytes := bytes + [WordByte(word, bb)];
      }
      l := l + 4;
    }
  }

  lemma WindowInside(w: seq<Word>, row: nat, rowWords: nat, bytes: nat, at: nat)
    requires RowFits(w, row, rowWords, bytes) && at % 4 == 0 && at + 32 <= bytes
    ensures (row * rowWords * 4 + at) % 4 == 0 && (row * rowWords * 4 + at) / 4 + 8 <= |w|
  {
    ModUnique(row * rowWords * 4 + at, 4, row * rowWords + at / 4, 0);
  }

  /** 32 bytes of the row, from a word boundary on. */
  method RowWindow(w: seq<Word>, row: nat, rowWords: nat, at: nat, ghost bytes: nat) returns (window: seq<Byte>)
    requires RowFits(w, row, rowWords, bytes) && at % 4 == 0 && at + 32 <= bytes
    ensures |window| == 32 && forall l :: 0 <= l < 32 ==> window[l] == RowReader(w, row, rowWords)(at + l)
  {
    hide ReadByte;
    WindowInside(w, row, rowWords, bytes, at);
    window := WindowWords(w, row * rowWords * 4 + at);
  }

  /** sum += (d * sc * quant - dmin * m) * x[idx] over one sub-block, skipping idx past the row. */
  method AffineUnit(x: Vec, lo: nat, d: real, m: real, q: seq<int>, ghost f: int -> real) returns (sum: real)
    requires |q| == 32
    requires forall l :: 0 <= l < 32 ==> f(l) == Mul(Mul(d, q[l] as real) - m, At(x, lo + l))
    ensures sum == Sum(32, f)
  {
    hide Sum, Mul;
    SumNone(f);
    sum := 0.0;
    for l := 0 to 32
      invariant sum == Sum(l, f)
    {
      SumStep(l, f);
      TimesZero(Mul(d, q[l] as real) - m);
      if lo + l < |x| { sum := sum + Mul(Mul(d, q[l] as real) - m, x[lo + l]); }
    }
  }

  /** The nibbles of a sub-block start at a word and end inside the row. */
  lemma Q4Window(u: nat, n: nat)
    requires u < Units(Q4_K, n)
    ensures var at := 144 * (u / 8) + 16 + 32 * (u % 8 / 2); at % 4 == 0 && at + 32 <= Q4_K.RowBytes(n)
  {
    var block, sub, blocks := u / 8, u % 8, (n + 255) / 256;
    assert block < blocks && Q4_K.RowBytes(n) == 144 * blocks;
    ModUnique(144 * block + 16 + 32 * (sub / 2), 4, 36 * block + 4 + 8 * (sub / 2), 0);
  }

  method Q4Unit(w: seq<Word>, x: Vec, row: nat, rowWords: nat, u: nat) returns (sum: real)
    requires u < Units(Q4_K, |x|) && RowFits(w, row, rowWords, Q4_K.RowBytes(|x|))
    ensures sum == UnitSum(Q4_K, RowReader(w, row, rowWords), x)(u)
  {
    hide HalfAt, ScaleMin, LowQuants, HighQuants, Mul, Value, RowReader, RowFits, Sum, UnitTerms;
    hide Format.RowBytes, Units;
    var b := RowReader(w, row, rowWords);
    var block, sub := u / 8, u % 8;
    var at := 144 * block + 16 + 32 * (sub / 2);
    var (sc, m) := ScaleMin(b, 144 * block + 4, sub);
    Q4Window(u, |x|);
    var bytes := RowWindow(w, row, rowWords, at, Q4_K.RowBytes(|x|));
    var q := if sub % 2 == 0 then LowQuants(bytes) else HighQuants(bytes);
    var d, min := Mul(HalfAt(b, 144 * block), sc as real), Mul(HalfAt(b, 144 * block + 2), m as real);
    Q4UnitTerms(b, x, u, bytes, q, d, min);
    sum := AffineUnit(x, 32 * u, d, min, q, UnitTerms(Q4_K, b, x, u));
  }

  lemma Q4UnitTerm(b: Reader, x: Vec, u: nat, l: nat)
    requires l < 32
    ensures Term(Q4_K, b, x, 32 * u + l) == Mul(Q4Value(b, u / 8, u % 8, l), At(x, 32 * u + l))
  {
    hide Q4Value;
    SubBlockIndex(u / 8, u % 8, l);
  }

  lemma Q5UnitTerm(b: Reader, x: Vec, u: nat, l: nat)
    requires l < 32
    ensures Term(Q5_K, b, x, 32 * u + l) == Mul(Q5Value(b, u / 8, u % 8, l), At(x, 32 * u + l))
  {
    hide Q5Value;
    SubBlockIndex(u / 8, u % 8, l);
  }

  lemma Q4UnitTerms(b: Reader, x: Vec, u: nat, bytes: seq<Byte>, q: seq<int>, d: real, min: real)
    requires var block, sub := u / 8, u % 8;
      && |bytes| == 32 && (forall l :: 0 <= l < 32 ==> bytes[l] == b(144 * block + 16 + 32 * (sub / 2) + l))
      && q == (if sub % 2 == 0 then LowQuants(bytes) else HighQuants(bytes))
      && d == Mul(HalfAt(b, 144 * block), ScaleMin(b, 144 * block + 4, sub).0 as real)
      && min == Mul(HalfAt(b, 144 * block + 2), ScaleMin(b, 144 * block + 4, sub).1 as real)
    ensures forall l :: 0 <= l < 32 ==>
      UnitTerms(Q4_K, b, x, u)(l) == Mul(Mul(d, q[l] as real) - min, At(x, 32 * u + l))
  {
    hide HalfAt, ScaleMin, Low4, High4, Mul, Term;
    forall l | 0 <= l < 32
      ensures UnitTerms(Q4_K, b, x, u)(l) == Mul(Mul(d, q[l] as real) - min, At(x, 32 * u + l))
    {
      Q4UnitTerm(b, x, u, l);
    }
  }

  lemma Q5UnitTerms(b: Reader, x: Vec, u: nat, bytes: seq<Byte>, highs: seq<Byte>, q: seq<int>, d: real, min: real)
    requires var block, sub := u / 8, u % 8;
      && |bytes| == 32 && (forall l :: 0 <= l < 32 ==> bytes[l] == b(176 * block + 48 + 32 * (sub / 2) + l))
      && |highs| == 32 && (forall l :: 0 <= l < 32 ==> highs[l] == b(176 * block + 16 + l))
      && q == FiveBitQuants(bytes, highs, sub)
      && d == Mul(HalfAt(b, 176 * block), ScaleMin(b, 176 * block + 4, sub).0 as real)
      && min == Mul(HalfAt(b, 176 * block + 2), ScaleMin(b, 176 * block + 4, sub).1 as real)
    ensures forall l :: 0 <= l < 32 ==>
      UnitTerms(Q5_K, b, x, u)(l) == Mul(Mul(d, q[l] as real) - min, At(x, 32 * u + l))
  {
    hide HalfAt, ScaleMin, Low4, High4, Mul, Term, Bit;
    forall l | 0 <= l < 32
      ensures UnitTerms(Q5_K, b, x, u)(l) == Mul(Mul(d, q[l] as real) - min, At(x, 32 * u + l))
    {
      Q5UnitTerm(b, x, u, l);
    }
  }

  lemma Q5Windows(n: nat, u: nat)
    requires u < Units(Q5_K, n)
    ensures var block, sub := u / 8, u % 8; var at, atHigh := 176 * block + 48 + 32 * (sub / 2), 176 * block + 16;
      at % 4 == 0 && at + 32 <= Q5_K.RowBytes(n) && atHigh % 4 == 0 && atHigh + 32 <= Q5_K.RowBytes(n)
  {
    var block, sub, blocks := u / 8, u % 8, (n + 255) / 256;
    assert block < blocks && Q5_K.RowBytes(n) == 176 * blocks;
    ModUnique(176 * block + 48 + 32 * (sub / 2), 4, 44 * block + 12 + 8 * (sub / 2), 0);
    ModUnique(176 * block + 16, 4, 44 * block + 4, 0);
  }

  /** The 32 quants of a sub-block of Q5_K: nibbles with the fifth bits put on. */
  function FiveBitQuants(bytes: seq<Byte>, highs: seq<Byte>, sub: nat): (q: seq<int>)
    requires |bytes| == 32 && |highs| == 32
    ensures |q| == 32
  {
    WithShiftedBits(if sub % 2 == 0 then LowQuants(bytes) else HighQuants(bytes), highs, sub)
  }

  method Q5Unit(w: seq<Word>, x: Vec, row: nat, rowWords: nat, u: nat) returns (sum: real)
    requires u < Units(Q5_K, |x|) && RowFits(w, row, rowWords, Q5_K.RowBytes(|x|))
    ensures sum == UnitSum(Q5_K, RowReader(w, row, rowWords), x)(u)
  {
    hide HalfAt, ScaleMin, Mul, Value, RowReader, RowFits, Sum, UnitTerms, FiveBitQuants, Format.RowBytes, Units;
    var b := RowReader(w, row, rowWords);
    var block, sub := u / 8, u % 8;
    var (sc, m) := ScaleMin(b, 176 * block + 4, sub);
    Q5Windows(|x|, u);
    var bytes := RowWindow(w, row, rowWords, 176 * block + 48 + 32 * (sub / 2), Q5_K.RowBytes(|x|));
    var highs := RowWindow(w, row, rowWords, 176 * block + 16, Q5_K.RowBytes(|x|));
    var q := FiveBitQuants(bytes, highs, sub);
    var d, min := Mul(HalfAt(b, 176 * block), sc as real), Mul(HalfAt(b, 176 * block + 2), m as real);
    Q5UnitTerms(b, x, u, bytes, highs, q, d, min);
    sum := AffineUnit(x, 32 * u, d, min, q, UnitTerms(Q5_K, b, x, u));
  }

  method PartialQ4K(w: seq<Word>, x: Vec, row: nat, lane: nat, rowWords: nat) returns (sum: real)
    requires RowFits(w, row, rowWords, Q4_K.RowBytes(|x|))
    ensures sum == LanePartial(Q4_K, RowReader(w, row, rowWords), x, lane)
  {
    sum := StrideQ4(w, x, row, lane, rowWords, Units(Q4_K, |x|));
  }

  method StrideQ4(w: seq<Word>, x: Vec, row: nat, lane: nat, rowWords: nat, units: nat) returns (sum: real)
    requires units == Units(Q4_K, |x|) && RowFits(w, row, rowWords, Q4_K.RowBytes(|x|))
    ensures sum == StrideSum(lane, 64, units, UnitSum(Q4_K, RowReader(w, row, rowWords), x))
  {
    hide *;
    ghost var f := UnitSum(Q4_K, RowReader(w, row, rowWords), x);
    sum := 0.0;
    var u := lane;
    while u < units
      invariant u >= lane && sum + StrideSum(u, 64, units, f) == StrideSum(lane, 64, units, f)
      decreases units - u
    {
      StrideSumStep(u, 64, units, f);
      var part := Q4Unit(w, x, row, rowWords, u);
      sum, u := sum + part, u + 64;
    }
    StrideSumStep(u, 64, units, f);
  }

  method PartialQ5K(w: seq<Word>, x: Vec, row: nat, lane: nat, rowWords: nat) returns (sum: real)
    requires RowFits(w, row, rowWords, Q5_K.RowBytes(|x|))
    ensures sum == LanePartial(Q5_K, RowReader(w, row, rowWords), x, lane)
  {
    sum := StrideQ5(w, x, row, lane, rowWords, Units(Q5_K, |x|));
  }

  method StrideQ5(w: seq<Word>, x: Vec, row: nat, lane: nat, rowWords: nat, units: nat) returns (sum: real)
    requires units == Units(Q5_K, |x|) && RowFits(w, row, rowWords, Q5_K.RowBytes(|x|))
    ensures sum == StrideSum(lane, 64, units, UnitSum(Q5_K, RowReader(w, row, rowWords), x))
  {
    hide *;
    ghost var f := UnitSum(Q5_K, RowReader(w, row, rowWords), x);
    sum := 0.0;
    var u := lane;
    while u < units
      invariant u >= lane && sum + StrideSum(u, 64, units, f) == StrideSum(lane, 64, units, f)
      decreases units - u
    {
      StrideSumStep(u, 64, units, f);
      var part := Q5Unit(w, x, row, rowWords, u);
      sum, u := sum + part, u + 64;
    }
    StrideSumStep(u, 64, units, f);
  }

  method PartialQ6K(w: seq<Word>, x: Vec, row: nat, lane: nat, rowWords: nat) returns (sum: real)
    requires lane < 64 && RowFits(w, row, rowWords, Q6_K.RowBytes(|x|))
    ensures sum == LanePartial(Q6_K, RowReader(w, row, rowWords), x, lane)
  {
    var b := RowReader(w, row, rowWords);
    ghost var f := SlotTerms(b, x, lane);
    var blocks := (|x| + 255) / 256;
    hide SlotTerms, RowReader, Sum;
    SumNone(f);
    sum := 0.0;
    for block := 0 to blocks
      invariant sum == Sum(block, f)
    {
      SumStep(block, f);
      var slot := Q6Slot(b, x, block, lane);
      sum := sum + slot;
    }
  }

  /** The lane's four elements of one block. */
  method Q6Slot(b: Reader, x: Vec, block: nat, lane: nat) returns (sum: real)
    requires lane < 64
    ensures sum == SlotTerms(b, x, lane)(block)
  {
    hide HalfAt, I8, Low4, High4, Contribution, Term, Q6Quant;
    var h, l := lane / 32, lane % 32;
    var base := 210 * block;
    var d := HalfAt(b, base + 208);
    var sc := base + 192 + 8 * h + l / 16;
    var ql0, ql1, qh := b(base + 64 * h + l), b(base + 64 * h + 32 + l), b(base + 128 + 32 * h + l);
    var q1 := Low4(ql0) + qh % 4 * 16 - 32;
    var q2 := Low4(ql1) + qh / 4 % 4 * 16 - 32;
    var q3 := High4(ql0) + qh / 16 % 4 * 16 - 32;
    var q4 := High4(ql1) + qh / 64 % 4 * 16 - 32;
    var y := 256 * block + 128 * h + l;
    Q6SlotQuants(b, block, h, l);
    Q6SlotTerm(b, x, block, h, 0, l);
    Q6SlotTerm(b, x, block, h, 1, l);
    Q6SlotTerm(b, x, block, h, 2, l);
    Q6SlotTerm(b, x, block, h, 3, l);
    sum := Contribution(d, I8(b(sc)), q1, x, y);
    sum := sum + Contribution(d, I8(b(sc + 2)), q2, x, y + 32);
    sum := sum + Contribution(d, I8(b(sc + 4)), q3, x, y + 64);
    sum := sum + Contribution(d, I8(b(sc + 6)), q4, x, y + 96);
  }

  lemma Q6SlotQuants(b: Reader, block: nat, h: nat, l: nat)
    ensures var base := 210 * block; var qh := b(base + 128 + 32 * h + l);
      && Q6Quant(b, block, h, 0, l) == Low4(b(base + 64 * h + l)) + qh % 4 * 16 - 32
      && Q6Quant(b, block, h, 1, l) == Low4(b(base + 64 * h + 32 + l)) + qh / 4 % 4 * 16 - 32
      && Q6Quant(b, block, h, 2, l) == High4(b(base + 64 * h + l)) + qh / 16 % 4 * 16 - 32
      && Q6Quant(b, block, h, 3, l) == High4(b(base + 64 * h + 32 + l)) + qh / 64 % 4 * 16 - 32
  {
    hide Low4, High4;
    assert TwoTo(0) == 1 && TwoTo(2) == 4 && TwoTo(4) == 16 && TwoTo(6) == 64;
  }

  lemma Q6SlotTerm(b: Reader, x: Vec, block: nat, h: nat, g: nat, l: nat)
    requires h < 2 && g < 4 && l < 32
    ensures var y := 256 * block + 128 * h + 32 * g + l; var base := 210 * block;
      Term(Q6_K, b, x, y) == Contribution(HalfAt(b, base + 208), I8(b(base + 192 + 8 * h + l / 16 + 2 * g)),
                                          Q6Quant(b, block, h, g, l), x, y)
  {
    hide HalfAt, I8, Q6Quant, Scaled;
    QuarterIndex(block, h, g, l);
    TimesZero(Value(Q6_K, b, 256 * block + 128 * h + 32 * g + l));
  }

  // ---- The lanes together ----

  /** The 64 lanes' partials add up to the row's dot product, for every format and length. */
  lemma LanesCoverRow(format: Format, b: Reader, x: Vec)
    ensures Sum(64, lane => if lane >= 0 then LanePartial(format, b, x, lane) else 0.0) == DotRow(format, b, x)
  {
    hide Term, Sum, StrideSum, SlotTerms, UnitSum, DotRow;
    if format == Q6_K {
      SlotsCoverRow(b, x);
      SumEq(64, lane => if lane >= 0 then LanePartial(format, b, x, lane) else 0.0, SlotSums(b, x));
    } else {
      var units, f := Units(format, |x|), UnitSum(format, b, x);
      StridesPartition(64, units, f);
      SumEq(64, lane => if lane >= 0 then LanePartial(format, b, x, lane) else 0.0,
            lane => if lane >= 0 then StrideSum(lane, 64, units, f) else 0.0);
      UnitsCoverRow(format, b, x);
    }
  }

  lemma UnitsCoverRow(format: Format, b: Reader, x: Vec)
    requires format != Q6_K
    ensures Sum(Units(format, |x|), UnitSum(format, b, x)) == DotRow(format, b, x)
  {
    hide Term, Sum, DotRow;
    var units, t := Units(format, |x|), Terms(format, b, x);
    SumBlocks(units, 32, t);
    forall u | 0 <= u < units
      ensures BlockSums(32, t)(u) == UnitSum(format, b, x)(u)
    {
      SumEq(32, Shifted(t, 32 * u), UnitTerms(format, b, x, u));
    }
    SumEq(units, BlockSums(32, t), UnitSum(format, b, x));
    DotRowPadded(format, b, x, 32 * units);
  }

  function SlotSums(b: Reader, x: Vec): int -> real {
    (lane: int) => if lane < 0 then 0.0 else Sum((|x| + 255) / 256, SlotTerms(b, x, lane))
  }

  function SlotCell(b: Reader, x: Vec): (int, int) -> real {
    (lane: int, block: int) => if lane < 0 then 0.0 else SlotTerms(b, x, lane)(block)
  }

  function SlotColumn(b: Reader, x: Vec): int -> real {
    (block: int) => if block < 0 then 0.0 else Sum(64, BlockCells(b, x, block))
  }

  function BlockCells(b: Reader, x: Vec, block: nat): int -> real {
    (lane: int) => if lane < 0 then 0.0 else SlotTerms(b, x, lane)(block)
  }

  lemma SlotsCoverRow(b: Reader, x: Vec)
    ensures Sum(64, SlotSums(b, x)) == DotRow(Q6_K, b, x)
  {
    hide Term, Sum, SlotTerms, DotRow;
    var blocks, t := (|x| + 255) / 256, Terms(Q6_K, b, x);
    SlotsTransposed(b, x, blocks);
    SumBlocks(blocks, 256, t);
    forall block | 0 <= block < blocks
      ensures SlotColumn(b, x)(block) == BlockSums(256, t)(block)
    {
      SlotsCoverBlock(b, x, block);
    }
    SumEq(blocks, SlotColumn(b, x), BlockSums(256, t));
    DotRowPadded(Q6_K, b, x, 256 * blocks);
  }

  /** Summing each lane over its blocks, or each block over its lanes. */
  lemma SlotsTransposed(b: Reader, x: Vec, blocks: nat)
    requires blocks == (|x| + 255) / 256
    ensures Sum(64, SlotSums(b, x)) == Sum(blocks, SlotColumn(b, x))
  {
    hide Term, Sum, SlotTerms;
    var cell := SlotCell(b, x);
    forall lane | 0 <= lane < 64
      ensures SlotSums(b, x)(lane) == RowSums(blocks, cell)(lane)
    {
      SumEq(blocks, SlotTerms(b, x, lane), Row(cell, lane));
    }
    SumEq(64, SlotSums(b, x), RowSums(blocks, cell));
    SumSwap(64, blocks, cell);
    forall block | 0 <= block < blocks
      ensures ColSums(64, cell)(block) == SlotColumn(b, x)(block)
    {
      SumEq(64, Col(cell, block), BlockCells(b, x, block));
    }
    SumEq(blocks, ColSums(64, cell), SlotColumn(b, x));
  }

  lemma SlotsCoverBlock(b: Reader, x: Vec, block: nat)
    ensures Sum(64, BlockCells(b, x, block)) == Sum(256, Shifted(Terms(Q6_K, b, x), 256 * block))
  {
    hide Term, Sum, QuadTerm, SlotTerms, Terms;
    var c, t, y := BlockCells(b, x, block), Terms(Q6_K, b, x), 256 * block;
    SumSplit(32, 32, c);
    forall l | 0 <= l < 32
      ensures c(l) == QuadTerm(t, y)(l)
    {
      SlotOfHalf(b, x, block, 0, l);
    }
    SumEq(32, c, QuadTerm(t, y));
    var d := (i: int) => c(32 + i);
    forall l | 0 <= l < 32
      ensures d(l) == QuadTerm(t, y + 128)(l)
    {
      SlotOfHalf(b, x, block, 1, l);
    }
    SumEq(32, d, QuadTerm(t, y + 128));
    SumEq(32, d, i => c(32 + i));
    QuadsCoverHalf(t, y);
    QuadsCoverHalf(t, y + 128);
    SumSplit(y, 256, t);
    SumEq(256, i => t(y + i), Shifted(t, y));
  }

  lemma SlotOfHalf(b: Reader, x: Vec, block: nat, h: nat, l: nat)
    requires h < 2 && l < 32
    ensures SlotTerms(b, x, 32 * h + l)(block) == QuadTerm(Terms(Q6_K, b, x), 256 * block + 128 * h)(l)
  {
    hide QuadTerm, Terms;
    ModUnique(32 * h + l, 32, h, l);
  }

  // ---- The launch ----

  function GridX(rows: nat): nat { if rows < 65535 then rows else 65535 }

  function GridY(rows: nat): nat
    requires rows > 0
  {
    (rows + GridX(rows) - 1) / GridX(rows)
  }

  /** The row that the workgroup at (x, y) of the grid works on. */
  function GridRow(rows: nat, x: int, y: int): int {
    y * GridX(rows) + x
  }

  /** The 2-D grid visits every row, and no row twice. */
  lemma GridCoversRows(rows: nat, row: nat) returns (x: nat, y: nat)
    requires row < rows
    ensures x < GridX(rows) && y < GridY(rows) && GridRow(rows, x, y) == row
    ensures forall x', y' :: 0 <= x' < GridX(rows) && GridRow(rows, x', y') == row ==> x' == x && y' == y
  {
    x, y := DivideRow(rows, row, GridX(rows));
    forall x', y' | 0 <= x' < GridX(rows) && GridRow(rows, x', y') == row
      ensures x' == x && y' == y
    {
      GridRowUnique(rows, row, x, y, x', y');
    }
  }

  lemma GridRowUnique(rows: nat, row: nat, x: nat, y: int, x': nat, y': int)
    requires row < rows && x < GridX(rows) && GridRow(rows, x, y) == row
    requires x' < GridX(rows) && GridRow(rows, x', y') == row
    ensures x' == x && y' == y
  {
    ModUnique(row, GridX(rows), y, x);
    ModUnique(row, GridX(rows), y', x');
  }

  lemma DivideRow(rows: nat, row: nat, width: nat) returns (x: nat, y: nat)
    requires row < rows && 0 < width
    ensures x < width && y < (rows + width - 1) / width && y * width + x == row
  {
    x, y := row % width, row / width;
    var q', r' := (rows + width - 1) / width, (rows + width - 1) % width;
    assert q' * width + r' >= y * width + x + width;
    assert q' <= y ==> q' * width <= y * width;
  }

  /** A launch of the workgroup of row r, for tokens xs[0], xs[1], ...: however its lanes are scheduled,
      output t is the dot of the file's row r with xs[t]. */
  lemma MatmulRow(format: Format, packed: seq<Word>, w: seq<Byte>, inDim: nat, rows: nat, rowWords: nat, r: nat,
                  xs: seq<Vec>, partial: (int, int) -> real,
                  regs: seq<Regs>, mem: Memory, schedule: seq<Choice>, final: Config<Regs>)
    requires IsPacked(packed, w, format.RowBytes(inDim), rows, rowWords) && r < rows
    requires forall t :: 0 <= t < |xs| ==> |xs[t]| == inDim
    requires forall t, lane :: 0 <= t < |xs| && 0 <= lane < 64 ==>
      partial(t, lane) == LanePartial(format, RowReader(packed, r, rowWords), xs[t], lane)
    requires var job := RowJob(|xs|, partial);
      && |regs| == 64 && |mem| == job.Cells()
      && Run(job.KernelFrom(0), Start(regs, mem), schedule, final) && final.phase == |job.KernelFrom(0)|
    ensures |final.mem| == 64 + |xs| && 0 <= r * format.RowBytes(inDim) <= |w|
    ensures forall t :: 0 <= t < |xs| ==>
      final.mem[64 + t] == DotRow(format, ReaderOf(w[r * format.RowBytes(inDim)..]), xs[t])
  {
    hide DotRow, LanePartial, IsPacked, Run, RowJob.KernelFrom;
    var job := RowJob(|xs|, partial);
    job.EverySchedule(regs, mem, schedule, final);
    RowStart(packed, w, format.RowBytes(inDim), rows, rowWords, r);
    forall t | 0 <= t < |xs|
      ensures final.mem[64 + t] == DotRow(format, ReaderOf(w[r * format.RowBytes(inDim)..]), xs[t])
    {
      var b := RowReader(packed, r, rowWords);
      LanesCoverRow(format, b, xs[t]);
      SumEq(64, lane => partial(t, lane), lane => if lane >= 0 then LanePartial(format, b, xs[t], lane) else 0.0);
      assert job.Total(t) == DotRow(format, b, xs[t]);
      PackedDot(format, packed, w, rows, rowWords, r, xs[t]);
    }
  }
}
