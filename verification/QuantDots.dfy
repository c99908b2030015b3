/** The fused CPU dot products: each equals decoding the row and dotting it with x. */
module QuantDots {
  import opened Sums
  import opened Bytes
  import opened Errors
  import opened QuantValues
  import opened QuantCpu

  /** `x[base..base + 8]` of a slice of which `available` values remain, padded with zeros. */
  method LoadPartial(slice: Vec, available: nat) returns (lanes: Vec)
    requires available <= |slice|
    ensures |lanes| == 8 && forall k :: 0 <= k < 8 ==> lanes[k] == At(slice[..available], k)
  {
    var len := if available < 8 then available else 8;
    lanes := seq(8, k requires 0 <= k < 8 => if k < len then slice[k] else 0.0);
  }

  function GroupTerm(v: int -> real, at: int, x: Vec): int -> real {
    (i: int) => Mul(v(at + i), At(x, i))
  }

  function LaneSum(lanes: Vec): real {
    Sum(8, k => At(lanes, k))
  }

  /** Adding a vector of eight products to the lanes adds eight terms to their sum. */
  lemma LanesAdvance(lanes: Vec, lanes': Vec, f: int -> real, base: nat)
    requires |lanes| == |lanes'| == 8
    requires forall k :: 0 <= k < 8 ==> lanes'[k] == lanes[k] + f(base + k)
    ensures LaneSum(lanes') - LaneSum(lanes) == Sum(base + 8, f) - Sum(base, f)
  {
    hide Sum;
    var g, h := (k: int) => At(lanes, k), (k: int) => f(base + k);
    SumSplit(base, 8, f);
    SumEq(8, h, i => f(base + i));
    SumAdd(8, g, h);
    SumEq(8, k => At(lanes', k), k => g(k) + h(k));
    SumEq(8, g, k => At(lanes, k));
  }

  lemma ZeroLanes(lanes: Vec)
    requires forall k :: 0 <= k < |lanes| ==> lanes[k] == 0.0
    ensures LaneSum(lanes) == 0.0
  {
    SumZero(8, k => At(lanes, k));
  }

  /** Eight products d * q - m times x[off + base..], added to the lanes. */
  method AddProducts(lanes: Vec, d: real, m: real, q: seq<int>, base: nat, x: Vec, off: nat, ghost f: int -> real)
      returns (r: Vec)
    requires |lanes| == 8 && |q| == 32 && base + 8 <= 32 && off + base <= |x|
    requires forall l :: 0 <= l < 32 ==> f(l) == Mul(Mul(d, q[l] as real) - m, At(x, off + l))
    ensures |r| == 8 && LaneSum(r) - LaneSum(lanes) == Sum(base + 8, f) - Sum(base, f)
  {
    hide Sum, Mul, LaneSum;
    var xs := LoadPartial(x[off + base..], |x| - off - base);
    r := seq(8, k requires 0 <= k < 8 => lanes[k] + Mul(Mul(d, q[base + k] as real) - m, xs[k]));
    forall k | 0 <= k < 8
      ensures r[k] == lanes[k] + f(base + k)
    {
      assert At(x[off + base..], k) == At(x, off + (base + k));
    }
    LanesAdvance(lanes, r, f, base);
  }

  /** One group of 64 weights, eight SIMD lanes at a time: lanes of low quants from x, of high quants from x + 32. */
  method DotGroup(d1: real, m1: real, d2: real, m2: real, q1: seq<int>, q2: seq<int>, x: Vec,
                  ghost v: int -> real, ghost at: int) returns (r: real)
    requires |q1| == |q2| == 32 && |x| >= 56
    requires forall l :: 0 <= l < 32 ==> v(at + l) == Mul(d1, q1[l] as real) - m1
    requires forall l :: 0 <= l < 32 ==> v(at + (32 + l)) == Mul(d2, q2[l] as real) - m2
    ensures r == Sum(64, GroupTerm(v, at, x))
  {
    hide Sum, Mul, LaneSum;
    ghost var f := GroupTerm(v, at, x);
    ghost var g := Shifted(f, 32);
    var lanes: Vec := seq(8, _ => 0.0);
    ZeroLanes(lanes);
    SumNone(f);
    SumNone(g);
    SumCut(32, 32, f);
    assert forall l :: 0 <= l < 32 ==> f(l) == Mul(Mul(d1, q1[l] as real) - m1, At(x, 0 + l));
    assert forall l :: 0 <= l < 32 ==> g(l) == Mul(Mul(d2, q2[l] as real) - m2, At(x, 32 + l));
    hide GroupTerm, Shifted;
    var base := 0;
    while base < 32
      invariant 0 <= base <= 32 && base % 8 == 0 && |lanes| == 8
      invariant LaneSum(lanes) == Sum(base, f) + Sum(base, g)
    {
      lanes := AddProducts(lanes, d1, m1, q1, base, x, 0, f);
      lanes := AddProducts(lanes, d2, m2, q2, base, x, 32, g);
      base := base + 8;
    }
    r := LaneSum(lanes);
  }

  /** A group's sum extends the running dot product. */
  lemma GroupExtends(format: Format, b: Reader, x: Vec, at: nat)
    requires at <= |x|
    ensures Sum(at + 64, Terms(format, b, x))
      == Sum(at, Terms(format, b, x)) + Sum(64, GroupTerm(Values(format, b), at, x[at..]))
  {
    hide Sum, Mul;
    hide Value;
    var f := Terms(format, b, x);
    SumSplit(at, 64, f);
    forall i | 0 <= i < 64
      ensures f(at + i) == GroupTerm(Values(format, b), at, x[at..])(i)
    {
      assert At(x[at..], i) == At(x, at + i);
    }
    SumEq(64, i => f(at + i), GroupTerm(Values(format, b), at, x[at..]));
  }

  /** The lengths on which the K-format dots do not slice past the end of x. */
  predicate WholeGroups(n: nat) {
    n % 256 == 0 || n % 256 >= 248
  }

  /** Where the K-format dots slice x: every group of 64, its two halves, eight values at a time. */
  function SliceStart(block: nat, group: nat, half: nat, step: nat): nat {
    256 * block + 64 * group + 32 * half + 8 * step
  }

  ghost predicate SlicesPastEnd(n: nat) {
    exists block: nat, group: nat, half: nat, step: nat ::
      block < (n + 255) / 256 && group < 4 && half < 2 && step < 4 && SliceStart(block, group, half, step) > n
  }

  /** Some slice starts past the end of x, which is out of bounds, exactly on the other lengths. */
  lemma SlicesStayInside(n: nat)
    ensures SlicesPastEnd(n) <==> !WholeGroups(n)
  {
    var last := (n + 255) / 256 - 1;
    if !WholeGroups(n) { assert SliceStart(last, 3, 1, 3) > n; }
  }

  method DotQ4K(data: seq<Byte>, x: Vec) returns (r: Result<real>)
    requires WholeGroups(|x|)
    ensures r.Success? <==> Q4_K.RowBytes(|x|) <= |data|
    ensures r.Success? ==> r.value == DotRow(Q4_K, ReaderOf(data), x)
  {
    var blocks := (|x| + 255) / 256;
    if |data| < blocks * 144 { return Failure(BackendError); }
    var acc := DotQ4Blocks(data, x, blocks);
    DotRowPadded(Q4_K, ReaderOf(data), x, 256 * blocks);
    return Success(acc);
  }

  method DotQ4Blocks(data: seq<Byte>, x: Vec, blocks: nat) returns (acc: real)
    requires 144 * blocks <= |data| && 256 * blocks <= |x| + 8
    ensures acc == Sum(256 * blocks, Terms(Q4_K, ReaderOf(data), x))
  {
    hide *;
    ghost var f := Terms(Q4_K, ReaderOf(data), x);
    SumNone(f);
    acc := 0.0;
    for block := 0 to blocks
      invariant acc == Sum(256 * block, f)
    {
      acc := DotQ4Block(data, x, block, acc);
    }
  }

  method DotQ4Block(data: seq<Byte>, x: Vec, block: nat, acc0: real) returns (acc: real)
    requires 144 * (block + 1) <= |data| && 256 * block + 248 <= |x|
    requires acc0 == Sum(256 * block, Terms(Q4_K, ReaderOf(data), x))
    ensures acc == Sum(256 * (block + 1), Terms(Q4_K, ReaderOf(data), x))
  {
    hide ScaleMin, HalfAt, Half, LowQuants, HighQuants, Mul, Values, Terms, GroupTerm, Sum;
    var b := ReaderOf(data);
    var base := 144 * block;
    var d, dmin := HalfAt(b, base), HalfAt(b, base + 2);
    ghost var v := Values(Q4_K, b);
    acc := acc0;
    var j, sub := 0, 0;
    while j < 256
      invariant 0 <= j <= 256 && j == 32 * sub && sub % 2 == 0
      invariant acc == Sum(256 * block + j, Terms(Q4_K, b, x))
    {
      var (sc0, m0) := ScaleMin(b, base + 4, sub);
      var (sc1, m1) := ScaleMin(b, base + 4, sub + 1);
      var d1, min1 := Mul(d, sc0 as real), Mul(dmin, m0 as real);
      var d2, min2 := Mul(d, sc1 as real), Mul(dmin, m1 as real);
      var qs := data[base + 16 + j / 2..base + 48 + j / 2];
      Q4Group(data, block, sub, qs, LowQuants(qs), v, d1, min1);
      Q4Group(data, block, sub + 1, qs, HighQuants(qs), v, d2, min2);
      var group :=
        DotGroup(d1, min1, d2, min2, LowQuants(qs), HighQuants(qs), x[256 * block + j..], v, 256 * block + j);
      GroupExtends(Q4_K, b, x, 256 * block + j);
      acc, j, sub := acc + group, j + 64, sub + 2;
    }
  }

  /** The branch-free form of the high bits: bit `shift` of each byte of qh, moved to weight 16. */
  function WithShiftedBits(nibbles: seq<int>, qh: seq<Byte>, shift: nat): (q: seq<int>)
    requires |nibbles| == |qh|
    ensures |q| == |nibbles|
  {
    seq(|nibbles|, l requires 0 <= l < |nibbles| => nibbles[l] + Bit(qh[l], shift) * 16)
  }

  lemma ShiftIsMask(nibbles: seq<int>, qh: seq<Byte>, k: nat)
    requires |nibbles| == |qh|
    ensures WithShiftedBits(nibbles, qh, TrailingZeros(TwoTo(k))) == WithHighBits(nibbles, qh, TwoTo(k))
  {
    MaskShift(k);
  }

  method DotQ5K(data: seq<Byte>, x: Vec) returns (r: Result<real>)
    requires WholeGroups(|x|)
    ensures r.Success? <==> Q5_K.RowBytes(|x|) <= |data|
    ensures r.Success? ==> r.value == DotRow(Q5_K, ReaderOf(data), x)
  {
    var blocks := (|x| + 255) / 256;
    if |data| < blocks * 176 { return Failure(BackendError); }
    var acc := DotQ5Blocks(data, x, blocks);
    DotRowPadded(Q5_K, ReaderOf(data), x, 256 * blocks);
    return Success(acc);
  }

  method DotQ5Blocks(data: seq<Byte>, x: Vec, blocks: nat) returns (acc: real)
    requires 176 * blocks <= |data| && 256 * blocks <= |x| + 8
    ensures acc == Sum(256 * blocks, Terms(Q5_K, ReaderOf(data), x))
  {
    hide *;
    ghost var f := Terms(Q5_K, ReaderOf(data), x);
    SumNone(f);
    acc := 0.0;
    for block := 0 to blocks
      invariant acc == Sum(256 * block, f)
    {
      acc := DotQ5Block(data, x, block, acc);
    }
  }

  method DotQ5Block(data: seq<Byte>, x: Vec, block: nat, acc0: real) returns (acc: real)
    requires 176 * (block + 1) <= |data| && 256 * block + 248 <= |x|
    requires acc0 == Sum(256 * block, Terms(Q5_K, ReaderOf(data), x))
    ensures acc == Sum(256 * (block + 1), Terms(Q5_K, ReaderOf(data), x))
  {
    hide *;
    ghost var f := Terms(Q5_K, ReaderOf(data), x);
    acc := acc0;
    var sub, u1, u2 := 0, 1, 2;
    HighMasks();
    while sub < 8
      invariant 0 <= sub <= 8 && (sub == 0 || sub == 2 || sub == 4 || sub == 6 || sub == 8)
      invariant u1 == TwoTo(sub) && u2 == TwoTo(sub + 1)
      invariant acc == Sum(256 * block + 32 * sub, f)
    {
      var group := DotQ5Group(data, x, block, sub, u1, u2);
      NextMasks(sub);
      acc, sub, u1, u2 := acc + group, sub + 2, u1 * 4, u2 * 4;
    }
  }

  lemma HighMasks()
    ensures TwoTo(0) == 1 && TwoTo(1) == 2
  {}

  lemma NextMasks(sub: nat)
    ensures TwoTo(sub + 2) == 4 * TwoTo(sub) && TwoTo(sub + 3) == 4 * TwoTo(sub + 1)
  {}

  /** Sub-blocks sub and sub + 1 of a block, whose high bits the masks u1 and u2 pick. */
  method DotQ5Group(data: seq<Byte>, x: Vec, block: nat, sub: nat, u1: nat, u2: nat) returns (group: real)
    requires 176 * (block + 1) <= |data| && 256 * block + 248 <= |x| && sub < 8 && sub % 2 == 0
    requires u1 == TwoTo(sub) && u2 == TwoTo(sub + 1)
    ensures var at, f := 256 * block + 32 * sub, Terms(Q5_K, ReaderOf(data), x);
      Sum(at + 64, f) == Sum(at, f) + group
  {
    hide ScaleMin, HalfAt, Half, LowQuants, HighQuants, WithHighBits, WithShiftedBits, Mul, Values, Terms, GroupTerm;
    hide Sum, TrailingZeros, TwoTo;
    var b := ReaderOf(data);
    var base, j := 176 * block, 32 * sub;
    var d, dmin := HalfAt(b, base), HalfAt(b, base + 2);
    var qh := data[base + 16..base + 48];
    ghost var v := Values(Q5_K, b);
    var (sc0, m0) := ScaleMin(b, base + 4, sub);
    var (sc1, m1) := ScaleMin(b, base + 4, sub + 1);
    var d1, min1 := Mul(d, sc0 as real), Mul(dmin, m0 as real);
    var d2, min2 := Mul(d, sc1 as real), Mul(dmin, m1 as real);
    var qs := data[base + 48 + j / 2..base + 80 + j / 2];
    var q1 := WithShiftedBits(LowQuants(qs), qh, TrailingZeros(u1));
    var q2 := WithShiftedBits(HighQuants(qs), qh, TrailingZeros(u2));
    ShiftIsMask(LowQuants(qs), qh, sub);
    ShiftIsMask(HighQuants(qs), qh, sub + 1);
    Q5Group(data, block, sub, qs, qh, u1, q1, v, d1, min1);
    Q5Group(data, block, sub + 1, qs, qh, u2, q2, v, d2, min2);
    group := DotGroup(d1, min1, d2, min2, q1, q2, x[256 * block + j..], v, 256 * block + j);
    GroupExtends(Q5_K, b, x, 256 * block + j);
  }

  // ---- Q6_K: any length ----

  /** The four terms the loop adds for position l of a half. */
  function QuadTerm(f: int -> real, y: int): int -> real {
    (l: int) => f(y + l) + f(y + l + 32) + f(y + l + 64) + f(y + l + 96)
  }

  /** 32 positions of four terms each are the 128 terms of the half. */
  lemma QuadsCoverHalf(f: int -> real, y: nat)
    ensures Sum(y + 128, f) == Sum(y, f) + Sum(32, QuadTerm(f, y))
  {
    hide Sum;
    var f0, f1 := (l: int) => f(y + l), (l: int) => f(y + l + 32);
    var f2, f3 := (l: int) => f(y + l + 64), (l: int) => f(y + l + 96);
    SumSplit(y, 32, f);
    SumSplit(y + 32, 32, f);
    SumSplit(y + 64, 32, f);
    SumSplit(y + 96, 32, f);
    SumEq(32, f0, i => f(y + i));
    SumEq(32, f1, i => f(y + 32 + i));
    SumEq(32, f2, i => f(y + 64 + i));
    SumEq(32, f3, i => f(y + 96 + i));
    SumAdd(32, f0, f1);
    var f01 := (l: int) => f0(l) + f1(l);
    SumEq(32, f01, i => f0(i) + f1(i));
    SumAdd(32, f01, f2);
    var f012 := (l: int) => f01(l) + f2(l);
    SumEq(32, f012, i => f01(i) + f2(i));
    SumAdd(32, f012, f3);
    SumEq(32, QuadTerm(f, y), i => f012(i) + f3(i));
  }

  /** d * scale * q * x[idx], or nothing past the end of x. */
  function Contribution(d: real, scale: int, q: int, x: Vec, idx: nat): real {
    if idx < |x| then Mul(Scaled(d, scale, q), x[idx]) else 0.0
  }

  lemma ContributionIsTerm(data: seq<Byte>, x: Vec, idx: nat, d: real, scale: int, q: int)
    requires Values(Q6_K, ReaderOf(data))(idx) == Scaled(d, scale, q)
    ensures Contribution(d, scale, q, x, idx) == Term(Q6_K, ReaderOf(data), x, idx)
  {
    hide Value, Scaled;
    assert Mul(Scaled(d, scale, q), 0.0) == 0.0;
  }

  method DotQ6K(data: seq<Byte>, x: Vec) returns (r: Result<real>)
    ensures r.Success? <==> Q6_K.RowBytes(|x|) <= |data|
    ensures r.Success? ==> r.value == DotRow(Q6_K, ReaderOf(data), x)
  {
    var blocks := (|x| + 255) / 256;
    if |data| < blocks * 210 { return Failure(BackendError); }
    var acc := DotQ6Blocks(data, x, blocks);
    DotRowPadded(Q6_K, ReaderOf(data), x, 256 * blocks);
    return Success(acc);
  }

  method DotQ6Blocks(data: seq<Byte>, x: Vec, blocks: nat) returns (acc: real)
    requires 210 * blocks <= |data|
    ensures acc == Sum(256 * blocks, Terms(Q6_K, ReaderOf(data), x))
  {
    hide *;
    ghost var f := Terms(Q6_K, ReaderOf(data), x);
    SumNone(f);
    acc := 0.0;
    for block := 0 to blocks
      invariant acc == Sum(256 * block, f)
    {
      for h := 0 to 2
        invariant acc == Sum(256 * block + 128 * h, f)
      {
        acc := DotQ6Half(data, x, block, h, acc);
      }
    }
  }

  method DotQ6Half(data: seq<Byte>, x: Vec, block: nat, h: nat, acc0: real) returns (acc: real)
    requires 210 * (block + 1) <= |data| && h < 2
    requires acc0 == Sum(256 * block + 128 * h, Terms(Q6_K, ReaderOf(data), x))
    ensures acc == Sum(256 * block + 128 * (h + 1), Terms(Q6_K, ReaderOf(data), x))
  {
    hide HalfAt, Half, I8, Quads, Scaled, Values, Term, Contribution, Sum;
    var b := ReaderOf(data);
    var base := 210 * block;
    var ql, qh := data[base + 64 * h..base + 64 * h + 64], data[base + 128 + 32 * h..base + 160 + 32 * h];
    var d := HalfAt(b, base + 208);
    var y := 256 * block + 128 * h;
    ghost var f := Terms(Q6_K, b, x);
    acc := acc0;
    SumNone(QuadTerm(f, y));
    for l := 0 to 32
      invariant acc == acc0 + Sum(l, QuadTerm(f, y))
    {
      SumStep(l, QuadTerm(f, y));
      var sub := base + 192 + 8 * h + l / 16;
      var (q1, q2, q3, q4) := Quads(ql, qh, l);
      Q6Elements(data, block, h, l, ql, qh, Values(Q6_K, b));
      ContributionIsTerm(data, x, y + l, d, I8(data[sub]), q1);
      ContributionIsTerm(data, x, y + l + 32, d, I8(data[sub + 2]), q2);
      ContributionIsTerm(data, x, y + l + 64, d, I8(data[sub + 4]), q3);
      ContributionIsTerm(data, x, y + l + 96, d, I8(data[sub + 6]), q4);
      acc := acc + Contribution(d, I8(data[sub]), q1, x, y + l);
      acc := acc + Contribution(d, I8(data[sub + 2]), q2, x, y + l + 32);
      acc := acc + Contribution(d, I8(data[sub + 4]), q3, x, y + l + 64);
      acc := acc + Contribution(d, I8(data[sub + 6]), q4, x, y + l + 96);
    }
    QuadsCoverHalf(f, y);
  }

  // ---- Q8_0: any length, the scale factored out of the block ----

  method DotQ8_0(data: seq<Byte>, x: Vec) returns (r: Result<real>)
    ensures r.Success? <==> Q8_0.RowBytes(|x|) <= |data|
    ensures r.Success? ==> r.value == DotRow(Q8_0, ReaderOf(data), x)
  {
    var blocks := (|x| + 31) / 32;
    if |data| < blocks * 34 { return Failure(BackendError); }
    var acc := DotQ8Blocks(data, x, blocks);
    DotRowPadded(Q8_0, ReaderOf(data), x, |x|);
    return Success(acc);
  }

  method DotQ8Blocks(data: seq<Byte>, x: Vec, blocks: nat) returns (acc: real)
    requires 34 * blocks <= |data| && |x| <= 32 * blocks < |x| + 32
    ensures acc == Sum(|x|, Terms(Q8_0, ReaderOf(data), x))
  {
    hide *;
    ghost var f := Terms(Q8_0, ReaderOf(data), x);
    SumNone(f);
    var done := 0;
    acc := 0.0;
    for block := 0 to blocks
      invariant done == if 32 * block < |x| then 32 * block else |x|
      invariant acc == Sum(done, f)
    {
      var elements := if |x| - 32 * block < 32 then |x| - 32 * block else 32;
      var blockDot := DotQ8Block(data, x, block, elements);
      Q8BlockExtends(data, x, block, elements);
      acc, done := acc + blockDot, done + elements;
    }
  }

  lemma Q8BlockExtends(data: seq<Byte>, x: Vec, block: nat, elements: nat)
    ensures Sum(32 * block + elements, Terms(Q8_0, ReaderOf(data), x))
      == Sum(32 * block, Terms(Q8_0, ReaderOf(data), x)) + Sum(elements, Q8BlockTerm(data, x, block))
  {
    hide Term, Sum;
    var f := Terms(Q8_0, ReaderOf(data), x);
    SumSplit(32 * block, elements, f);
    SumEq(elements, i => f(32 * block + i), Q8BlockTerm(data, x, block));
  }

  function Q8BlockTerm(data: seq<Byte>, x: Vec, block: nat): int -> real {
    (i: int) => Term(Q8_0, ReaderOf(data), x, 32 * block + i)
  }

  method DotQ8Block(data: seq<Byte>, x: Vec, block: nat, elements: nat) returns (r: real)
    requires 34 * (block + 1) <= |data| && elements <= 32 && 32 * block + elements <= |x|
    ensures r == Sum(elements, Q8BlockTerm(data, x, block))
  {
    hide HalfAt, Half, I8, Value, Mul, Sum;
    var b := ReaderOf(data);
    var scale := HalfAt(b, 34 * block);
    var q := (i: int) => Mul(I8(b(34 * block + 2 + i)) as real, At(x, 32 * block + i));
    var blockDot := 0.0;
    SumNone(q);
    for i := 0 to elements
      invariant blockDot == Sum(i, q)
    {
      SumStep(i, q);
      assert At(x, 32 * block + i) == x[32 * block + i] && b(34 * block + 2 + i) == data[34 * block + 2 + i];
      blockDot := blockDot + Mul(I8(data[34 * block + 2 + i]) as real, x[32 * block + i]);
    }
    SumScale(elements, scale, q);
    forall i | 0 <= i < elements
      ensures scale * q(i) == Q8BlockTerm(data, x, block)(i)
    {
      Q8TermFactors(b, x, block, i);
    }
    SumEq(elements, i => scale * q(i), Q8BlockTerm(data, x, block));
    r := scale * blockDot;
  }

  lemma Q8TermFactors(b: Reader, x: Vec, block: nat, i: nat)
    requires i < 32
    ensures Term(Q8_0, b, x, 32 * block + i)
      == HalfAt(b, 34 * block) * Mul(I8(b(34 * block + 2 + i)) as real, At(x, 32 * block + i))
  {
    hide HalfAt, Half, I8, Value;
    Q8Element(b, block, i);
    var s, q, v := HalfAt(b, 34 * block), I8(b(34 * block + 2 + i)) as real, At(x, 32 * block + i);
    assert s * q * v == s * (q * v);
  }
}
