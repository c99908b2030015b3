/** The CPU build's matmul kernels over plain bytes: one thread per row, every format at every length. */
module QuantU8 {
  import opened Sums
  import opened Bytes
  import opened QuantValues
  import opened QuantCpu
  import opened QuantDots
  import opened QuantLanes

  /** Row `row` lies inside w. */
  predicate RowInside(w: seq<Byte>, row: nat, rowBytes: nat, bytes: nat) { row * rowBytes + bytes <= |w| }

  /** The bytes of a row, as the kernels index them. */
  function RowOf(w: seq<Byte>, row: nat, rowBytes: nat): seq<Byte>
    requires row * rowBytes <= |w|
  {
    SizeNonNeg(row, rowBytes);
    w[row * rowBytes..]
  }

  lemma SizeNonNeg(row: nat, rowBytes: nat)
    ensures row * rowBytes >= 0
  {}

  method MatmulRowQ8_0(w: seq<Byte>, x: Vec, row: nat, rowBytes: nat) returns (sum: real)
    requires RowInside(w, row, rowBytes, Q8_0.RowBytes(|x|))
    ensures sum == DotRow(Q8_0, ReaderOf(RowOf(w, row, rowBytes)), x)
  {
    hide *;
    assert row * rowBytes <= |w| by { InsideStarts(w, row, rowBytes, Q8_0.RowBytes(|x|)); }
    var b := ReaderOf(RowOf(w, row, rowBytes));
    ghost var f := UnitSum(Q8_0, b, x);
    SumNone(f);
    sum := 0.0;
    var blocks := (|x| + 31) / 32;
    for block := 0 to blocks
      invariant sum == Sum(block, f)
    {
      SumStep(block, f);
      var dot := Q8Unit(b, x, block);
      sum := sum + dot;
    }
    UnitCounts(|x|);
    UnitsCoverRow(Q8_0, b, x);
  }

  lemma InsideStarts(w: seq<Byte>, row: nat, rowBytes: nat, bytes: nat)
    requires RowInside(w, row, rowBytes, bytes)
    ensures row * rowBytes <= |w|
  {}

  lemma UnitCounts(n: nat)
    ensures Units(Q8_0, n) == (n + 31) / 32 && Units(Q4_K, n) == 8 * ((n + 255) / 256)
  {}

  method MatmulRowQ4K(w: seq<Byte>, x: Vec, row: nat, rowBytes: nat) returns (sum: real)
    requires RowInside(w, row, rowBytes, Q4_K.RowBytes(|x|))
    ensures sum == DotRow(Q4_K, ReaderOf(RowOf(w, row, rowBytes)), x)
  {
    hide *;
    assert row * rowBytes <= |w| by { InsideStarts(w, row, rowBytes, Q4_K.RowBytes(|x|)); }
    var data := RowOf(w, row, rowBytes);
    ghost var f := UnitSum(Q4_K, ReaderOf(data), x);
    SumNone(f);
    sum := 0.0;
    var blocks := (|x| + 255) / 256;
    BlocksInside(w, row, rowBytes, |x|);
    for block := 0 to blocks
      invariant sum == Sum(8 * block, f)
    {
      for group := 0 to 4
        invariant sum == Sum(8 * block + 2 * group, f)
      {
        SumStep(8 * block + 2 * group, f);
        SumStep(8 * block + 2 * group + 1, f);
        var low, high := GroupPair(data, x, block, group);
        sum := sum + low;
        sum := sum + high;
      }
    }
    UnitCounts(|x|);
    UnitsCoverRow(Q4_K, ReaderOf(data), x);
  }

  lemma BlocksInside(w: seq<Byte>, row: nat, rowBytes: nat, n: nat)
    requires RowInside(w, row, rowBytes, Q4_K.RowBytes(n))
    ensures row * rowBytes <= |w| && 144 * ((n + 255) / 256) <= |RowOf(w, row, rowBytes)|
  {}

  /** The two sub-blocks of a group of 64, through the byte-by-byte copy of the scale table. */
  /** 32 bytes of a row, as its reader sees them. */
  lemma WindowBytes(data: seq<Byte>, at: nat, qs: seq<Byte>)
    requires at + 32 <= |data| && qs == data[at..at + 32]
    ensures forall l :: 0 <= l < 32 ==> qs[l] == ReaderOf(data)(at + l)
  {}

  /** What one half of the nibbles of a group adds up from. */
  lemma GroupTerms(data: seq<Byte>, x: Vec, block: nat, group: nat, odd: nat, u: nat, qs: seq<Byte>, q: seq<int>,
                   d: real, min: real)
    requires group < 4 && odd < 2 && u == 8 * block + 2 * group + odd && 144 * (block + 1) <= |data|
    requires var at := 144 * block + 16 + 32 * group; qs == data[at..at + 32]
    requires q == if odd == 0 then LowQuants(qs) else HighQuants(qs)
    requires var b, base := ReaderOf(data), 144 * block;
      var (sc, m) := ScaleMinU8(2 * group + odd, data[base + 4..base + 16]);
      d == Mul(HalfAt(b, base), sc as real) && min == Mul(HalfAt(b, base + 2), m as real)
    ensures forall l :: 0 <= l < 32 ==>
      UnitTerms(Q4_K, ReaderOf(data), x, u)(l) == Mul(Mul(d, q[l] as real) - min, At(x, 32 * u + l))
  {
    hide HalfAt, ScaleMin, ScaleMinU8, Mul, UnitTerms, LowQuants, HighQuants, ReaderOf;
    WindowBytes(data, 144 * block + 16 + 32 * group, qs);
    TableOfRow(data, 144 * block, 2 * group + odd);
    UnitOfGroup(block, group);
    Q4UnitTerms(ReaderOf(data), x, u, qs, q, d, min);
  }

  method GroupPair(data: seq<Byte>, x: Vec, block: nat, group: nat) returns (low: real, high: real)
    requires group < 4 && 144 * (block + 1) <= |data|
    ensures low == UnitSum(Q4_K, ReaderOf(data), x)(8 * block + 2 * group)
    ensures high == UnitSum(Q4_K, ReaderOf(data), x)(8 * block + 2 * group + 1)
  {
    hide HalfAt, ScaleMin, ScaleMinU8, Mul, Value, Sum, UnitTerms, LowQuants, HighQuants, ReaderOf;
    var b, base, u := ReaderOf(data), 144 * block, 8 * block + 2 * group;
    var d, dmin := HalfAt(b, base), HalfAt(b, base + 2);
    var table, qs := data[base + 4..base + 16], data[base + 16 + 32 * group..base + 48 + 32 * group];
    var (sc0, m0) := ScaleMinU8(2 * group, table);
    var (sc1, m1) := ScaleMinU8(2 * group + 1, table);
    var d1, min1, d2, min2 := Mul(d, sc0 as real), Mul(dmin, m0 as real), Mul(d, sc1 as real), Mul(dmin, m1 as real);
    var q1, q2 := LowQuants(qs), HighQuants(qs);
    GroupTerms(data, x, block, group, 0, u, qs, q1, d1, min1);
    GroupTerms(data, x, block, group, 1, u + 1, qs, q2, d2, min2);
    low := AffineUnit(x, 32 * u, d1, min1, q1, UnitTerms(Q4_K, b, x, u));
    high := AffineUnit(x, 32 * (u + 1), d2, min2, q2, UnitTerms(Q4_K, b, x, u + 1));
  }

  lemma UnitOfGroup(block: nat, group: nat)
    requires group < 4
    ensures var u := 8 * block + 2 * group;
      && u / 8 == block && u % 8 == 2 * group && (u + 1) / 8 == block && (u + 1) % 8 == 2 * group + 1
      && u % 8 / 2 == group && (u + 1) % 8 / 2 == group && u % 8 % 2 == 0 && (u + 1) % 8 % 2 == 1
  {}

  /** The table lookup depends on the 12 bytes alone, wherever they stand. */
  lemma TableOfRow(data: seq<Byte>, base: nat, j: nat)
    requires j < 8 && base + 16 <= |data|
    ensures ScaleMinU8(j, data[base + 4..base + 16]) == ScaleMin(ReaderOf(data), base + 4, j)
  {
    hide ScaleMinU8, ScaleMin;
    var s := data[base + 4..base + 16];
    ScaleMinCopiesAgree(j, s);
    forall k | 0 <= k < 12
      ensures ReaderOf(s)(k) == ReaderOf(data)(base + 4 + k)
    {}
    TableMoved(ReaderOf(s), ReaderOf(data), base + 4, j);
  }

  lemma TableMoved(table: Reader, b: Reader, at: nat, j: nat)
    requires j < 8 && forall k :: 0 <= k < 12 ==> table(k) == b(at + k)
    ensures ScaleMin(table, 0, j) == ScaleMin(b, at, j)
  {}

  method MatmulRowQ6K(w: seq<Byte>, x: Vec, row: nat, rowBytes: nat) returns (sum: real)
    requires RowInside(w, row, rowBytes, Q6_K.RowBytes(|x|))
    ensures sum == DotRow(Q6_K, ReaderOf(RowOf(w, row, rowBytes)), x)
  {
    var data, blocks := RowOf(w, row, rowBytes), (|x| + 255) / 256;
    sum := DotQ6Blocks(data, x, blocks);
    DotRowPadded(Q6_K, ReaderOf(data), x, 256 * blocks);
  }
}
