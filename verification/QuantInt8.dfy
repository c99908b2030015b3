/** The int8 path of Q5_K matmuls: the activation is quantised to Q8_K blocks once, then dotted
    with each weight row in integers. */
module QuantInt8 {
  import opened Sums
  import opened Striding
  import opened Bytes
  import opened Errors
  import opened QuantValues

  // ---- Quantising the activation ----

  /** Per 256-element block: scale d, quants qs padded with zeros, and sums of 16 consecutive quants. */
  datatype Q8KRow = Q8KRow(d: Vec, qs: seq<int>, bsums: seq<int>, n: nat)

  function Round(a: real): int {
    if a >= 0.0 then (a + 0.5).Floor else -((-a + 0.5).Floor)
  }

  lemma RoundNear(a: real)
    ensures Abs(a - Round(a) as real) <= 0.5
  {}

  /** Rounding goes to the nearest integer, and at a tie to the one further from zero. */
  lemma RoundDecides(a: real, n: int)
    ensures Round(a) == n <==>
      Abs(a - n as real) < 0.5 || (Abs(a - n as real) == 0.5 && Abs(n as real) > Abs(a))
  {
    var m := Round(a);
    if a >= 0.0 {
      assert m as real <= a + 0.5 < m as real + 1.0;
    } else {
      assert -m as real <= -a + 0.5 < -m as real + 1.0;
    }
    if n > m { assert n as real >= m as real + 1.0; }
    if n < m { assert n as real <= m as real - 1.0; }
  }

  /** The first element of largest magnitude among x[lo..hi], or 0. */
  function Extreme(x: Vec, lo: nat, hi: nat): real
    requires lo <= hi <= |x|
    decreases hi - lo
  {
    if lo == hi then 0.0
    else
      var m := Extreme(x, lo, hi - 1);
      if Abs(x[hi - 1]) > Abs(m) then x[hi - 1] else m
  }

  function BlockEnd(n: nat, block: nat): nat
    requires 256 * block <= n
  {
    if 256 * block + 256 < n then 256 * block + 256 else n
  }

  function BlockExtreme(x: Vec, block: nat): real
    requires 256 * block <= |x|
  {
    Extreme(x, 256 * block, BlockEnd(|x|, block))
  }

  function BlockScale(extreme: real): real {
    if extreme == 0.0 then 0.0 else Div(1.0, Div(-127.0, extreme))
  }

  function QuantOf(extreme: real, v: real): int {
    if extreme == 0.0 then 0
    else
      var rounded := Round(Mul(Div(-127.0, extreme), v));
      if rounded < 127 then rounded else 127
  }

  function QuantAt(x: Vec, i: nat): int {
    if i < |x| then QuantOf(BlockExtreme(x, i / 256), x[i]) else 0
  }

  /** What `QuantizeRow` computes. */
  ghost predicate IsQuantized(q: Q8KRow, x: Vec) {
    var blocks := (|x| + 255) / 256;
    && q.n == |x| && |q.d| == blocks && |q.qs| == 256 * blocks && |q.bsums| == 16 * blocks
    && (forall block :: 0 <= block < blocks ==> q.d[block] == BlockScale(BlockExtreme(x, block)))
    && (forall i :: 0 <= i < 256 * blocks ==> q.qs[i] == QuantAt(x, i))
    && (forall g :: 0 <= g < 16 * blocks ==> q.bsums[g] == ISum(q.qs, 16 * g, 16))
  }

  /** q[lo] + ... + q[lo + count - 1]. */
  function ISum(q: seq<int>, lo: nat, count: nat): int
    requires lo + count <= |q|
  {
    if count == 0 then 0 else ISum(q, lo, count - 1) + q[lo + count - 1]
  }

  method ScanBlock(x: Vec, start: nat, end: nat) returns (amax: real, max: real)
    requires start <= end <= |x|
    ensures max == Extreme(x, start, end) && amax == Abs(max)
  {
    amax, max := 0.0, 0.0;
    for i := start to end
      invariant max == Extreme(x, start, i) && amax == Abs(max)
    {
      var av := Abs(x[i]);
      if av > amax { amax, max := av, x[i]; }
    }
  }

  method QuantizeBlock(x: Vec, block: nat) returns (d: real, qs: seq<int>)
    requires 256 * block < |x|
    ensures |qs| == 256 && d == BlockScale(BlockExtreme(x, block))
    ensures forall j :: 0 <= j < 256 ==> qs[j] == QuantAt(x, 256 * block + j)
  {
    hide Extreme, Div, Mul, Round;
    var start, end := 256 * block, BlockEnd(|x|, block);
    var amax, max := ScanBlock(x, start, end);
    d, qs := 0.0, seq(256, _ => 0);
    if amax > 0.0 {
      var iscale := Div(-127.0, max);
      for j := 0 to end - start
        invariant |qs| == 256
        invariant forall k :: 0 <= k < j ==> qs[k] == QuantOf(max, x[start + k])
        invariant forall k :: j <= k < 256 ==> qs[k] == 0
      {
        var rounded := Round(Mul(iscale, x[start + j]));
        qs := qs[j := if rounded < 127 then rounded else 127];
      }
      d := Div(1.0, iscale);
    }
    forall j | 0 <= j < 256
      ensures qs[j] == QuantAt(x, 256 * block + j)
    {
      ModUnique(256 * block + j, 256, block, j);
    }
  }

  method GroupSums(qs: seq<int>) returns (bsums: seq<int>)
    requires |qs| == 256
    ensures |bsums| == 16 && forall g :: 0 <= g < 16 ==> bsums[g] == ISum(qs, 16 * g, 16)
  {
    hide ISum;
    bsums := [];
    for g := 0 to 16
      invariant |bsums| == g && forall k :: 0 <= k < g ==> bsums[k] == ISum(qs, 16 * k, 16)
    {
      bsums := bsums + [ISum(qs, 16 * g, 16)];
    }
  }

  lemma SumsJoin(qs: seq<int>, more: seq<int>, sums: seq<int>, moreSums: seq<int>, block: nat)
    requires |qs| == 256 * block && |more| == 256 && |sums| == 16 * block && |moreSums| == 16
    requires forall g :: 0 <= g < 16 * block ==> sums[g] == ISum(qs, 16 * g, 16)
    requires forall g :: 0 <= g < 16 ==> moreSums[g] == ISum(more, 16 * g, 16)
    ensures forall g :: 0 <= g < 16 * block + 16 ==> (sums + moreSums)[g] == ISum(qs + more, 16 * g, 16)
  {
    hide ISum;
    forall g | 0 <= g < 16 * block + 16
      ensures (sums + moreSums)[g] == ISum(qs + more, 16 * g, 16)
    {
      if g < 16 * block {
        ISumLeft(qs, more, 16 * g, 16);
      } else {
        ISumRight(qs, more, 16 * (g - 16 * block), 16);
      }
    }
  }

  method QuantizeRow(x: Vec) returns (q: Q8KRow)
    ensures IsQuantized(q, x)
  {
    var blocks := (|x| + 255) / 256;
    var d: Vec, qs: seq<int>, bsums: seq<int> := [], [], [];
    for block := 0 to blocks
      invariant |d| == block && |qs| == 256 * block && |bsums| == 16 * block
      invariant forall k :: 0 <= k < block ==> d[k] == BlockScale(BlockExtreme(x, k))
      invariant forall i :: 0 <= i < 256 * block ==> qs[i] == QuantAt(x, i)
      invariant forall g :: 0 <= g < 16 * block ==> bsums[g] == ISum(qs, 16 * g, 16)
    {
      hide ISum, QuantAt, BlockScale, BlockExtreme;
      var blockD, blockQs := QuantizeBlock(x, block);
      var blockSums := GroupSums(blockQs);
      SumsJoin(qs, blockQs, bsums, blockSums, block);
      forall i | 0 <= i < 256 * block + 256
        ensures (qs + blockQs)[i] == QuantAt(x, i)
      {
        assert i >= 256 * block ==> (qs + blockQs)[i] == blockQs[i - 256 * block];
      }
      d, qs, bsums := d + [blockD], qs + blockQs, bsums + blockSums;
    }
    q := Q8KRow(d, qs, bsums, |x|);
  }

  lemma {:induction false} ISumLeft(a: seq<int>, b: seq<int>, lo: nat, count: nat)
    requires lo + count <= |a|
    ensures ISum(a + b, lo, count) == ISum(a, lo, count)
  {
    if count > 0 { ISumLeft(a, b, lo, count - 1); }
  }

  lemma {:induction false} ISumRight(a: seq<int>, b: seq<int>, lo: nat, count: nat)
    requires lo + count <= |b|
    ensures ISum(a + b, |a| + lo, count) == ISum(b, lo, count)
  {
    if count > 0 { ISumRight(a, b, lo, count - 1); }
  }

  // ---- How good the quantisation is ----

  lemma {:induction false} ExtremeBounds(x: Vec, lo: nat, hi: nat, i: nat)
    requires lo <= i < hi <= |x|
    ensures Abs(x[i]) <= Abs(Extreme(x, lo, hi))
  {
    if i < hi - 1 { ExtremeBounds(x, lo, hi - 1, i); }
  }

  /** An element no larger than the extreme scales to within ±127. */
  lemma ScaledInRange(extreme: real, v: real)
    requires extreme != 0.0 && Abs(v) <= Abs(extreme)
    ensures -127.0 <= Mul(Div(-127.0, extreme), v) <= 127.0
  {
    hide Mul, Div, Abs;
    var t := v / extreme;
    RatioTimes(v, extreme);
    AtMostOne(t, extreme, v);
    ScaleRatio(extreme, t, v);
  }

  lemma AtMostOne(t: real, e: real, v: real)
    requires t * e == v && e != 0.0 && Abs(v) <= Abs(e)
    ensures -1.0 <= t <= 1.0
  {
    AbsMul(t, e);
    UnitRatio(Abs(t), Abs(e), Abs(v));
  }

  lemma RatioTimes(v: real, e: real)
    requires e != 0.0
    ensures v / e * e == v
  {}

  lemma UnitRatio(t: real, e: real, v: real)
    requires e > 0.0 && v == t * e && v <= e
    ensures t <= 1.0
  {}

  lemma ScaleRatio(extreme: real, t: real, v: real)
    requires extreme != 0.0 && t * extreme == v
    ensures Mul(Div(-127.0, extreme), v) == -127.0 * t
  {
    var c := -127.0 / extreme;
    assert c * extreme == -127.0;
    assert c * (t * extreme) == (c * extreme) * t;
  }

  /** Every quant fits an i8, and dequantising it misses the element by at most half a step. */
  lemma QuantError(extreme: real, v: real)
    requires Abs(v) <= Abs(extreme)
    ensures -127 <= QuantOf(extreme, v) <= 127
    ensures Abs(v - Mul(BlockScale(extreme), QuantOf(extreme, v) as real)) <= Abs(BlockScale(extreme)) / 2.0
  {
    if extreme != 0.0 {
      var s := Mul(Div(-127.0, extreme), v);
      ScaledInRange(extreme, v);
      RoundNear(s);
      InverseScale(extreme);
      ScaledError(BlockScale(extreme), Div(-127.0, extreme), v, Round(s));
    }
  }

  lemma ScaledError(d: real, iscale: real, v: real, q: int)
    requires d * iscale == 1.0 && Abs(Mul(iscale, v) - q as real) <= 0.5
    ensures Abs(v - Mul(d, q as real)) <= Abs(d) / 2.0
  {
    var e := Mul(iscale, v) - q as real;
    assert d * (iscale * v) == (d * iscale) * v == v;
    assert v - d * (q as real) == d * e;
    AbsMul(d, e);
  }

  lemma InverseScale(extreme: real)
    requires extreme != 0.0
    ensures Div(-127.0, extreme) != 0.0 && BlockScale(extreme) * Div(-127.0, extreme) == 1.0
  {
    var iscale := -127.0 / extreme;
    assert iscale * extreme == -127.0;
    assert 1.0 / iscale * iscale == 1.0;
  }

  lemma AbsMul(a: real, b: real)
    ensures Abs(a * b) == Abs(a) * Abs(b)
    ensures Abs(b) <= 0.5 ==> Abs(a * b) <= Abs(a) / 2.0
  {
    assert Abs(b) <= 0.5 ==> Abs(a) * Abs(b) <= Abs(a) * 0.5;
  }

  /** The activation value a block's scale and quant stand for. */
  function Dequant8(q: Q8KRow, i: int): real {
    if 0 <= i < |q.qs| && i / 256 < |q.d| then Mul(q.d[i / 256], q.qs[i] as real) else 0.0
  }

  function ScaleOf(q: Q8KRow, i: int): real {
    if 0 <= i && i / 256 < |q.d| then q.d[i / 256] else 0.0
  }

  lemma QuantizedRowBounds(q: Q8KRow, x: Vec, i: nat)
    requires IsQuantized(q, x) && i < |q.qs|
    ensures -127 <= q.qs[i] <= 127
    ensures Abs(At(x, i) - Dequant8(q, i)) <= Abs(ScaleOf(q, i)) / 2.0
  {
    hide QuantOf, BlockScale, Extreme;
    var block := i / 256;
    if i < |x| {
      assert 256 * block <= i < BlockEnd(|x|, block);
      ExtremeBounds(x, 256 * block, BlockEnd(|x|, block), i);
      QuantError(BlockExtreme(x, block), x[i]);
    } else {
      assert Mul(q.d[block], 0.0) == 0.0;
    }
  }

  /** i16 group sums cannot overflow. */
  lemma {:induction false} GroupSumBounds(qs: seq<int>, lo: nat, count: nat)
    requires lo + count <= |qs| && forall i :: 0 <= i < |qs| ==> -127 <= qs[i] <= 127
    ensures -127 * count <= ISum(qs, lo, count) <= 127 * count
    ensures count == 16 ==> -32768 <= ISum(qs, lo, count) <= 32767
  {
    if count > 0 { GroupSumBounds(qs, lo, count - 1); }
  }

  // ---- The integer dot product ----

  function IAt(q: seq<int>, i: int): int {
    if 0 <= i < |q| then q[i] else 0
  }

  /** The first l products of weight quants and activation quants of a sub-block. */
  function PosSum(b: Reader, qs: seq<int>, block: nat, sub: nat, l: nat): int {
    if l == 0 then 0
    else PosSum(b, qs, block, sub, l - 1) + Q5Quant(b, block, sub, l - 1) * IAt(qs, 256 * block + 32 * sub + l - 1)
  }

  /** The i32 accumulator of scaled sub-block sums, after `sub` sub-blocks. */
  function AccPos(b: Reader, qs: seq<int>, block: nat, sub: nat): int
    requires sub <= 8
  {
    if sub == 0 then 0
    else AccPos(b, qs, block, sub - 1) + ScaleMin(b, 176 * block + 4, sub - 1).0 * PosSum(b, qs, block, sub - 1, 32)
  }

  /** The i32 accumulator of the minimum term, through the precomputed group sums. */
  function AccMin(b: Reader, bsums: seq<int>, block: nat, sub: nat): int
    requires sub <= 8 && 16 * block + 16 <= |bsums|
  {
    if sub == 0 then 0
    else
      var minSum := bsums[16 * block + 2 * sub - 2] + bsums[16 * block + 2 * sub - 1];
      AccMin(b, bsums, block, sub - 1) + ScaleMin(b, 176 * block + 4, sub - 1).1 * minSum
  }

  method DotQ5KQ8K(data: seq<Byte>, q: Q8KRow) returns (r: Result<real>)
    requires |q.d| == (q.n + 255) / 256 && |q.qs| == 256 * |q.d| && |q.bsums| == 16 * |q.d|
    requires forall g :: 0 <= g < |q.bsums| ==> q.bsums[g] == ISum(q.qs, 16 * g, 16)
    ensures r.Success? <==> Q5_K.RowBytes(q.n) <= |data|
    ensures r.Success? ==> r.value == Sum(256 * |q.d|, Int8Term(ReaderOf(data), q))
  {
    hide ISum, Sum, Int8Term;
    var blocks := (q.n + 255) / 256;
    if |data| < blocks * 176 { return Failure(BackendError); }
    var sumf := Int8Blocks(data, q, blocks);
    return Success(sumf);
  }

  /** One product of the decoded weight with the dequantised activation. */
  function Int8Term(b: Reader, q: Q8KRow): int -> real {
    (i: int) => if i < 0 then 0.0 else Mul(Value(Q5_K, b, i), Dequant8(q, i))
  }

  method Int8Blocks(data: seq<Byte>, q: Q8KRow, blocks: nat) returns (sumf: real)
    requires |q.d| == blocks && |q.qs| == 256 * blocks && |q.bsums| == 16 * blocks && 176 * blocks <= |data|
    requires forall g :: 0 <= g < |q.bsums| ==> q.bsums[g] == ISum(q.qs, 16 * g, 16)
    ensures sumf == Sum(256 * blocks, Int8Term(ReaderOf(data), q))
  {
    hide *;
    ghost var f := Int8Term(ReaderOf(data), q);
    SumNone(f);
    sumf := 0.0;
    for block := 0 to blocks
      invariant sumf == Sum(256 * block, f)
    {
      var blockDot := Int8Block(data, q, block);
      BlockTermsExtend(f, block);
      sumf := sumf + blockDot;
    }
  }

  function BlockTerm(f: int -> real, block: nat): int -> real {
    (i: int) => f(256 * block + i)
  }

  lemma BlockTermsExtend(f: int -> real, block: nat)
    ensures Sum(256 * block + 256, f) == Sum(256 * block, f) + Sum(256, BlockTerm(f, block))
  {
    hide Sum;
    SumSplit(256 * block, 256, f);
    SumEq(256, i => f(256 * block + i), BlockTerm(f, block));
  }

  method SubBlockProducts(data: seq<Byte>, q: Q8KRow, block: nat, sub: nat) returns (posSum: int)
    requires sub < 8 && 256 * block + 256 <= |q.qs| && 176 * (block + 1) <= |data|
    ensures posSum == PosSum(ReaderOf(data), q.qs, block, sub, 32)
  {
    hide Q5Quant;
    posSum := 0;
    for l := 0 to 32
      invariant posSum == PosSum(ReaderOf(data), q.qs, block, sub, l)
    {
      posSum := posSum + Q5Quant(ReaderOf(data), block, sub, l) * q.qs[256 * block + 32 * sub + l];
    }
  }

  method Int8Block(data: seq<Byte>, q: Q8KRow, block: nat) returns (r: real)
    requires block < |q.d| && |q.qs| == 256 * |q.d| && |q.bsums| == 16 * |q.d| && 176 * (block + 1) <= |data|
    requires forall g :: 0 <= g < |q.bsums| ==> q.bsums[g] == ISum(q.qs, 16 * g, 16)
    ensures r == Sum(256, BlockTerm(Int8Term(ReaderOf(data), q), block))
  {
    hide HalfAt, Half, ScaleMin, Mul, BlockTerm, PosSum, ISum, Sum, Int8Term;
    var b := ReaderOf(data);
    var base := 176 * block;
    var d, dmin, dx := HalfAt(b, base), HalfAt(b, base + 2), q.d[block];
    var accPos, accMin := 0, 0;
    for sub := 0 to 8
      invariant accPos == AccPos(b, q.qs, block, sub) && accMin == AccMin(b, q.bsums, block, sub)
    {
      var (sc, m) := ScaleMin(b, base + 4, sub);
      var posSum := SubBlockProducts(data, q, block, sub);
      var minSum := q.bsums[16 * block + 2 * sub] + q.bsums[16 * block + 2 * sub + 1];
      accPos, accMin := accPos + sc * posSum, accMin + m * minSum;
    }
    Int8BlockSum(b, q, block);
    r := Mul(dx, Mul(d, accPos as real) - Mul(dmin, accMin as real));
  }

  lemma {:induction false} IntMul(a: int, c: int)
    ensures (a * c) as real == Mul(a as real, c as real)
    decreases if a < 0 then -a else a
  {
    if a > 0 {
      IntMul(a - 1, c);
      assert a * c == (a - 1) * c + c;
      assert (a as real) * (c as real) == ((a - 1) as real + 1.0) * (c as real);
    } else if a < 0 {
      IntMul(a + 1, c);
      assert a * c == (a + 1) * c - c;
      assert (a as real) * (c as real) == ((a + 1) as real - 1.0) * (c as real);
    }
  }

  function WeightedTerm(b: Reader, qs: seq<int>, block: nat, sub: nat): int -> real {
    (l: int) => if l < 0 then 0.0
      else Mul(Q5Quant(b, block, sub, l) as real, IAt(qs, 256 * block + 32 * sub + l) as real)
  }

  function PlainTerm(qs: seq<int>, lo: nat): int -> real {
    (l: int) => RealAt(qs, lo + l)
  }

  function RealAt(qs: seq<int>, i: int): real { IAt(qs, i) as real }

  lemma {:induction false} PosSumAsReal(b: Reader, qs: seq<int>, block: nat, sub: nat, l: nat)
    ensures PosSum(b, qs, block, sub, l) as real == Sum(l, WeightedTerm(b, qs, block, sub))
  {
    hide Q5Quant, Mul, Sum;
    var f := WeightedTerm(b, qs, block, sub);
    SumNone(f);
    if l > 0 {
      PosSumAsReal(b, qs, block, sub, l - 1);
      SumStep(l - 1, f);
      IntMul(Q5Quant(b, block, sub, l - 1), IAt(qs, 256 * block + 32 * sub + l - 1));
    }
  }

  lemma {:induction false} ISumAsReal(qs: seq<int>, lo: nat, count: nat)
    requires lo + count <= |qs|
    ensures ISum(qs, lo, count) as real == Sum(count, PlainTerm(qs, lo))
  {
    if count > 0 {
      ISumAsReal(qs, lo, count - 1);
      assert PlainTerm(qs, lo)(count - 1) == RealAt(qs, lo + (count - 1));
    }
  }

  lemma {:induction false} ISumJoin(qs: seq<int>, lo: nat, m: nat, n: nat)
    requires lo + m + n <= |qs|
    ensures ISum(qs, lo, m + n) == ISum(qs, lo, m) + ISum(qs, lo + m, n)
  {
    if n > 0 { ISumJoin(qs, lo, m, n - 1); }
  }

  /** One product, split into its scale part and its minimum part. */
  lemma TermSplits(d: real, sc: int, w: int, dmin: real, m: int, dx: real, x: int)
    ensures Mul(Affine(d, sc, w, dmin, m), Mul(dx, x as real))
      == (dx * (d * (sc as real))) * Mul(w as real, x as real) + -(dx * (dmin * (m as real))) * (x as real)
  {
    var s, mm, wr, xr := sc as real, m as real, w as real, x as real;
    assert (d * s * wr) * (dx * xr) == (dx * (d * s)) * (wr * xr);
    assert (dmin * mm) * (dx * xr) == (dx * (dmin * mm)) * xr;
  }

  function SubTerm(f: int -> real, block: nat, sub: nat): int -> real {
    (l: int) => f(256 * block + 32 * sub + l)
  }

  /** A sub-block of real products is its two integer sums, scaled. */
  lemma SubBlockSum(b: Reader, q: Q8KRow, block: nat, sub: nat)
    requires sub < 8 && block < |q.d| && |q.qs| == 256 * |q.d| && |q.bsums| == 16 * |q.d|
    requires forall g :: 0 <= g < |q.bsums| ==> q.bsums[g] == ISum(q.qs, 16 * g, 16)
    ensures var (sc, m) := ScaleMin(b, 176 * block + 4, sub);
      Sum(32, SubTerm(Int8Term(b, q), block, sub))
        == Added(q.d[block], HalfAt(b, 176 * block), HalfAt(b, 176 * block + 2), sc, m,
                 PosSum(b, q.qs, block, sub, 32), q.bsums[16 * block + 2 * sub] + q.bsums[16 * block + 2 * sub + 1])
  {
    hide ISum, HalfAt, ScaleMin, Q5Quant, Mul, PosSum, Sum, Int8Term, SubTerm, WeightedTerm, PlainTerm;
    var (sc, m) := ScaleMin(b, 176 * block + 4, sub);
    var d, dmin, dx, lo := HalfAt(b, 176 * block), HalfAt(b, 176 * block + 2), q.d[block], 256 * block + 32 * sub;
    var u, t := dx * (d * (sc as real)), -(dx * (dmin * (m as real)));
    var f, wx, px := SubTerm(Int8Term(b, q), block, sub), WeightedTerm(b, q.qs, block, sub), PlainTerm(q.qs, lo);
    forall l | 0 <= l < 32
      ensures f(l) == u * wx(l) + t * px(l)
    {
      ElementSplits(b, q, block, sub, l);
    }
    SumOfTwo(32, f, u, wx, t, px);
    PosSumAsReal(b, q.qs, block, sub, 32);
    PairOfGroups(q, block, sub);
  }

  lemma ElementSplits(b: Reader, q: Q8KRow, block: nat, sub: nat, l: nat)
    requires sub < 8 && l < 32 && block < |q.d| && |q.qs| == 256 * |q.d|
    ensures var (sc, m) := ScaleMin(b, 176 * block + 4, sub);
      SubTerm(Int8Term(b, q), block, sub)(l)
        == (q.d[block] * (HalfAt(b, 176 * block) * (sc as real))) * WeightedTerm(b, q.qs, block, sub)(l)
         + -(q.d[block] * (HalfAt(b, 176 * block + 2) * (m as real))) * PlainTerm(q.qs, 256 * block + 32 * sub)(l)
  {
    hide HalfAt, ScaleMin, Q5Quant, Mul, Affine, Int8Term;
    var (sc, m) := ScaleMin(b, 176 * block + 4, sub);
    Int8Element(b, q, block, sub, l);
    TermSplits(HalfAt(b, 176 * block), sc, Q5Quant(b, block, sub, l), HalfAt(b, 176 * block + 2), m, q.d[block],
               q.qs[256 * block + 32 * sub + l]);
    assert PlainTerm(q.qs, 256 * block + 32 * sub)(l) == q.qs[256 * block + 32 * sub + l] as real;
  }

  /** A sum of u f + v g is u times the one sum plus v times the other. */
  lemma SumOfTwo(n: nat, e: int -> real, u: real, f: int -> real, v: real, g: int -> real)
    requires forall l :: 0 <= l < n ==> e(l) == u * f(l) + v * g(l)
    ensures Sum(n, e) == u * Sum(n, f) + v * Sum(n, g)
  {
    hide Sum;
    var uf, vg := (l: int) => u * f(l), (l: int) => v * g(l);
    SumEq(n, e, l => uf(l) + vg(l));
    SumAdd(n, uf, vg);
    SumScale(n, u, f);
    SumEq(n, uf, l => u * f(l));
    SumScale(n, v, g);
    SumEq(n, vg, l => v * g(l));
  }

  /** The two group sums of a sub-block add up to the sum of its 32 quants. */
  lemma PairOfGroups(q: Q8KRow, block: nat, sub: nat)
    requires sub < 8 && block < |q.d| && |q.qs| == 256 * |q.d| && |q.bsums| == 16 * |q.d|
    requires forall g :: 0 <= g < |q.bsums| ==> q.bsums[g] == ISum(q.qs, 16 * g, 16)
    ensures (q.bsums[16 * block + 2 * sub] + q.bsums[16 * block + 2 * sub + 1]) as real
      == Sum(32, PlainTerm(q.qs, 256 * block + 32 * sub))
  {
    hide ISum, Sum;
    var lo := 256 * block + 32 * sub;
    ISumJoin(q.qs, lo, 16, 16);
    ISumAsReal(q.qs, lo, 32);
    assert 16 * (16 * block + 2 * sub) == lo && 16 * (16 * block + 2 * sub + 1) == lo + 16;
  }

  lemma Int8Element(b: Reader, q: Q8KRow, block: nat, sub: nat, l: nat)
    requires sub < 8 && l < 32 && block < |q.d| && |q.qs| == 256 * |q.d|
    ensures var (sc, m) := ScaleMin(b, 176 * block + 4, sub); var i := 256 * block + 32 * sub + l;
      Int8Term(b, q)(i)
        == Mul(Affine(HalfAt(b, 176 * block), sc, Q5Quant(b, block, sub, l), HalfAt(b, 176 * block + 2), m),
               Mul(q.d[block], q.qs[i] as real))
  {
    hide HalfAt, ScaleMin, Q5Quant, Mul, Affine;
    SubBlockIndex(block, sub, l);
  }

  lemma SubBlockMore(f: int -> real, block: nat, sub: nat)
    ensures Sum(32 * (sub + 1), BlockTerm(f, block))
      == Sum(32 * sub, BlockTerm(f, block)) + Sum(32, SubTerm(f, block, sub))
  {
    hide Sum;
    var g := BlockTerm(f, block);
    SumSplit(32 * sub, 32, g);
    SumEq(32, l => g(32 * sub + l), SubTerm(f, block, sub));
  }

  /** A block's sum from its accumulators. */
  function Combined(dx: real, d: real, dmin: real, pos: int, min: int): real {
    dx * (d * (pos as real) - dmin * (min as real))
  }

  /** What one sub-block adds to it. */
  function Added(dx: real, d: real, dmin: real, sc: int, m: int, pos: int, sums: int): real {
    (dx * (d * (sc as real))) * (pos as real) + -(dx * (dmin * (m as real))) * (sums as real)
  }

  lemma NothingCombined(dx: real, d: real, dmin: real)
    ensures Combined(dx, d, dmin, 0, 0) == 0.0
  {}

  lemma {:induction false} AccumulatorsSum(b: Reader, q: Q8KRow, block: nat, sub: nat)
    requires sub <= 8 && block < |q.d| && |q.qs| == 256 * |q.d| && |q.bsums| == 16 * |q.d|
    requires forall g :: 0 <= g < |q.bsums| ==> q.bsums[g] == ISum(q.qs, 16 * g, 16)
    ensures Sum(32 * sub, BlockTerm(Int8Term(b, q), block))
      == Combined(q.d[block], HalfAt(b, 176 * block), HalfAt(b, 176 * block + 2), AccPos(b, q.qs, block, sub),
                  AccMin(b, q.bsums, block, sub))
  {
    hide ISum, HalfAt, ScaleMin, Q5Quant, PosSum, Sum, Int8Term, Combined, Added;
    if sub == 0 {
      SumNone(BlockTerm(Int8Term(b, q), block));
      NothingCombined(q.d[block], HalfAt(b, 176 * block), HalfAt(b, 176 * block + 2));
    } else {
      hide AccPos, AccMin;
      AccumulatorsSum(b, q, block, sub - 1);
      SubBlockSum(b, q, block, sub - 1);
      SubBlockMore(Int8Term(b, q), block, sub - 1);
      AccumulatorsStep(b, q, block, sub - 1);
    }
  }

  lemma AccumulatorsStep(b: Reader, q: Q8KRow, block: nat, sub: nat)
    requires sub < 8 && block < |q.d| && |q.qs| == 256 * |q.d| && |q.bsums| == 16 * |q.d|
    ensures var dx, d, dmin := q.d[block], HalfAt(b, 176 * block), HalfAt(b, 176 * block + 2);
      var (sc, m) := ScaleMin(b, 176 * block + 4, sub);
      var sums := q.bsums[16 * block + 2 * sub] + q.bsums[16 * block + 2 * sub + 1];
      Combined(dx, d, dmin, AccPos(b, q.qs, block, sub + 1), AccMin(b, q.bsums, block, sub + 1))
        == Combined(dx, d, dmin, AccPos(b, q.qs, block, sub), AccMin(b, q.bsums, block, sub))
           + Added(dx, d, dmin, sc, m, PosSum(b, q.qs, block, sub, 32), sums)
  {
    hide HalfAt, ScaleMin, PosSum, Combined, Added;
    var (sc, m) := ScaleMin(b, 176 * block + 4, sub);
    StepArithmetic(q.d[block], HalfAt(b, 176 * block), HalfAt(b, 176 * block + 2), sc, m,
                   PosSum(b, q.qs, block, sub, 32), q.bsums[16 * block + 2 * sub] + q.bsums[16 * block + 2 * sub + 1],
                   AccPos(b, q.qs, block, sub), AccMin(b, q.bsums, block, sub));
  }

  lemma StepArithmetic(dx: real, d: real, dmin: real, sc: int, m: int, p: int, s: int, accPos: int, accMin: int)
    ensures Combined(dx, d, dmin, accPos, accMin) + Added(dx, d, dmin, sc, m, p, s)
      == Combined(dx, d, dmin, accPos + sc * p, accMin + m * s)
  {
    IntMul(sc, p);
    IntMul(m, s);
    var x, y := sc as real * p as real, m as real * s as real;
    assert (dx * (d * (sc as real))) * (p as real) == dx * (d * x);
    assert (dx * (dmin * (m as real))) * (s as real) == dx * (dmin * y);
  }

  /** All 256 products of a block: the final line of the integer kernel. */
  lemma Int8BlockSum(b: Reader, q: Q8KRow, block: nat)
    requires block < |q.d| && |q.qs| == 256 * |q.d| && |q.bsums| == 16 * |q.d|
    requires forall g :: 0 <= g < |q.bsums| ==> q.bsums[g] == ISum(q.qs, 16 * g, 16)
    ensures Mul(q.d[block], Mul(HalfAt(b, 176 * block), AccPos(b, q.qs, block, 8) as real)
                            - Mul(HalfAt(b, 176 * block + 2), AccMin(b, q.bsums, block, 8) as real))
      == Sum(256, BlockTerm(Int8Term(b, q), block))
  {
    hide ISum, HalfAt, AccPos, AccMin, Sum, Int8Term;
    AccumulatorsSum(b, q, block, 8);
  }

  // ---- Overflow and accuracy ----

  predicate InI32(v: int) { -0x8000_0000 <= v <= 0x7fff_ffff }

  lemma {:induction false} PosSumBounds(b: Reader, qs: seq<int>, block: nat, sub: nat, l: nat)
    requires l <= 32 && forall i :: 0 <= i < |qs| ==> -127 <= qs[i] <= 127
    ensures -3937 * l <= PosSum(b, qs, block, sub, l) <= 3937 * l
  {
    hide Nibble, Bit;
    if l > 0 {
      PosSumBounds(b, qs, block, sub, l - 1);
      QuantRange(b, block, sub, l - 1);
      ProductBound(Q5Quant(b, block, sub, l - 1), IAt(qs, 256 * block + 32 * sub + l - 1), 31, 127);
    }
  }

  lemma QuantRange(b: Reader, block: nat, sub: nat, l: nat)
    ensures 0 <= Q5Quant(b, block, sub, l) <= 31
  {}

  lemma ProductBound(w: int, x: int, wMax: int, xMax: int)
    requires 0 <= w <= wMax && 0 <= xMax && -xMax <= x <= xMax
    ensures -(wMax * xMax) <= w * x <= wMax * xMax
  {
    assert w * x <= w * xMax <= wMax * xMax;
    assert w * x >= w * -xMax >= wMax * -xMax;
  }

  /** No i32 sum or accumulator of the kernel ever overflows. */
  lemma {:induction false} NoOverflow(b: Reader, q: Q8KRow, block: nat, sub: nat)
    requires sub <= 8 && block < |q.d| && |q.qs| == 256 * |q.d| && |q.bsums| == 16 * |q.d|
    requires forall i :: 0 <= i < |q.qs| ==> -127 <= q.qs[i] <= 127
    requires forall g :: 0 <= g < |q.bsums| ==> q.bsums[g] == ISum(q.qs, 16 * g, 16)
    ensures forall l :: 0 <= l <= 32 ==> InI32(PosSum(b, q.qs, block, sub, l))
    ensures InI32(AccPos(b, q.qs, block, sub)) && InI32(AccMin(b, q.bsums, block, sub))
    ensures -7936992 * sub <= AccPos(b, q.qs, block, sub) <= 7936992 * sub
    ensures -256032 * sub <= AccMin(b, q.bsums, block, sub) <= 256032 * sub
  {
    hide PosSum, ScaleMin, ISum;
    forall l | 0 <= l <= 32
      ensures InI32(PosSum(b, q.qs, block, sub, l))
    {
      PosSumBounds(b, q.qs, block, sub, l);
    }
    if sub > 0 {
      hide AccPos, AccMin;
      NoOverflow(b, q, block, sub - 1);
      StepBounds(b, q, block, sub);
    }
  }

  /** How far one sub-block moves the accumulators. */
  lemma StepBounds(b: Reader, q: Q8KRow, block: nat, sub: nat)
    requires 0 < sub <= 8 && block < |q.d| && |q.qs| == 256 * |q.d| && |q.bsums| == 16 * |q.d|
    requires forall i :: 0 <= i < |q.qs| ==> -127 <= q.qs[i] <= 127
    requires forall g :: 0 <= g < |q.bsums| ==> q.bsums[g] == ISum(q.qs, 16 * g, 16)
    ensures -7936992 <= AccPos(b, q.qs, block, sub) - AccPos(b, q.qs, block, sub - 1) <= 7936992
    ensures -256032 <= AccMin(b, q.bsums, block, sub) - AccMin(b, q.bsums, block, sub - 1) <= 256032
  {
    hide PosSum, ScaleMin, ISum;
    PosSumBounds(b, q.qs, block, sub - 1, 32);
    var (sc, m) := ScaleMin(b, 176 * block + 4, sub - 1);
    ProductBound(sc, PosSum(b, q.qs, block, sub - 1, 32), 63, 125984);
    var g := 16 * block + 2 * sub - 2;
    GroupSumBounds(q.qs, 16 * g, 16);
    GroupSumBounds(q.qs, 16 * (g + 1), 16);
    ProductBound(m, q.bsums[g] + q.bsums[g + 1], 63, 4064);
  }

  function ErrorTerm(b: Reader, q: Q8KRow): int -> real {
    (i: int) => if i < 0 then 0.0 else Mul(Abs(Value(Q5_K, b, i)), Abs(ScaleOf(q, i)) / 2.0)
  }

  /** Quantising the activation moves the dot product by at most the sum of |w_i| * |d_block| / 2. */
  lemma Int8Accuracy(b: Reader, q: Q8KRow, x: Vec)
    requires IsQuantized(q, x)
    ensures Abs(Sum(|q.qs|, Int8Term(b, q)) - DotRow(Q5_K, b, x)) <= Sum(|q.qs|, ErrorTerm(b, q))
  {
    hide Value, Sum, Mul, DotRow;
    DotRowPadded(Q5_K, b, x, |q.qs|);
    var f, t, e := Int8Term(b, q), Terms(Q5_K, b, x), ErrorTerm(b, q);
    forall i | 0 <= i < |q.qs|
      ensures Abs(f(i) - t(i)) <= e(i)
    {
      QuantizedRowBounds(q, x, i);
      ProductError(Value(Q5_K, b, i), Dequant8(q, i), At(x, i), Abs(ScaleOf(q, i)) / 2.0);
    }
    AbsSum(|q.qs|, f, t, e);
  }

  lemma ProductError(w: real, a: real, x: real, bound: real)
    requires Abs(x - a) <= bound
    ensures Abs(Mul(w, a) - Mul(w, x)) <= Mul(Abs(w), bound)
  {
    assert w * a - w * x == w * (a - x);
    AbsMul(w, a - x);
    assert Abs(w) * Abs(a - x) <= Abs(w) * bound;
  }

  lemma {:induction false} AbsSum(n: nat, f: int -> real, t: int -> real, e: int -> real)
    requires forall i :: 0 <= i < n ==> Abs(f(i) - t(i)) <= e(i)
    ensures Abs(Sum(n, f) - Sum(n, t)) <= Sum(n, e)
  {
    if n > 0 { AbsSum(n - 1, f, t, e); }
  }
}
