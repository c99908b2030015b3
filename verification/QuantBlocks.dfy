/** Blocks written out field by field: what the reference decoder reads back from them. */
module QuantBlocks {
  import opened Striding
  import opened Bytes
  import opened QuantValues

  /** The first two bytes of a half-precision number, low byte first. */
  datatype HalfBytes = HalfBytes(lo: Byte, hi: Byte) {
    function Number(): real { Half(lo, hi) }
  }

  /** The bytes of a block stand at `at`. */
  predicate Holds(b: Reader, at: int, bytes: seq<Byte>) {
    forall k :: 0 <= k < |bytes| ==> b(at + k) == bytes[k]
  }

  predicate Below(q: seq<int>, top: int) { forall i :: 0 <= i < |q| ==> 0 <= q[i] < top }

  /** Two nibbles in one byte, the first one low. */
  function TwoNibbles(low: int, high: int): Byte
    requires 0 <= low < 16 && 0 <= high < 16
  {
    low + 16 * high
  }

  lemma NibblesBack(low: int, high: int)
    requires 0 <= low < 16 && 0 <= high < 16
    ensures Low4(TwoNibbles(low, high)) == low && High4(TwoNibbles(low, high)) == high
  {}

  /** Bits from the lowest up. */
  function FromBits(bits: seq<int>): (n: nat)
    requires Below(bits, 2)
    ensures n < TwoTo(|bits|)
  {
    if bits == [] then 0 else bits[0] + 2 * FromBits(bits[1..])
  }

  lemma {:induction false} BitsBack(bits: seq<int>, k: nat)
    requires Below(bits, 2) && k < |bits|
    ensures FromBits(bits) / TwoTo(k) % 2 == bits[k]
  {
    var rest := FromBits(bits[1..]);
    if k > 0 {
      BitsBack(bits[1..], k - 1);
      HalvedTwice(bits[0], rest, TwoTo(k - 1));
    }
  }

  lemma HalvedTwice(bit: int, rest: nat, p: nat)
    requires 0 <= bit < 2 && p > 0
    ensures (bit + 2 * rest) / (2 * p) == rest / p
  {
    var q, r := rest / p, rest % p;
    assert q * (2 * p) == 2 * (q * p);
    ModUnique(bit + 2 * rest, 2 * p, q, bit + 2 * r);
  }

  lemma EightBits()
    ensures TwoTo(8) == 256
  {
    assert TwoTo(4) == 16;
  }

  function ByteOfBits(bits: seq<int>): Byte
    requires Below(bits, 2) && |bits| == 8
  {
    EightBits();
    FromBits(bits)
  }

  // ---- Q8_0 ----

  function SignedByte(q: int): Byte
    requires -128 <= q < 128
  {
    (q + 256) % 256
  }

  function Q8Block(d: HalfBytes, quants: seq<int>): (b: seq<Byte>)
    requires |quants| == 32 && forall i :: 0 <= i < 32 ==> -128 <= quants[i] < 128
    ensures |b| == 34
  {
    [d.lo, d.hi] + seq(32, l requires 0 <= l < 32 => SignedByte(quants[l]))
  }

  lemma SignBack(q: int)
    requires -128 <= q < 128
    ensures I8(SignedByte(q)) == q
  {}

  /** A block decodes to scale times quant. */
  lemma Q8BlockBack(b: Reader, block: nat, d: HalfBytes, quants: seq<int>, l: nat)
    requires |quants| == 32 && (forall k :: 0 <= k < 32 ==> -128 <= quants[k] < 128) && l < 32
    requires Holds(b, 34 * block, Q8Block(d, quants))
    ensures Value(Q8_0, b, 32 * block + l) == d.Number() * (quants[l] as real)
  {
    hide Half, SignedByte, I8;
    var bytes := Q8Block(d, quants);
    assert b(34 * block + 0) == bytes[0] && b(34 * block + 1) == bytes[1];
    assert b(34 * block + (2 + l)) == bytes[2 + l];
    ModUnique(32 * block + l, 32, block, l);
    SignBack(quants[l]);
  }

  // ---- Q4_K and Q5_K ----

  /** An element from its block's two numbers and its sub-block's scale and minimum. */
  function Field(d: real, scale: int, quant: int, dmin: real, min: int): real {
    d * (scale as real) * (quant as real) - dmin * (min as real)
  }

  /** Byte 32 * g + l holds element l of sub-blocks 2 * g and 2 * g + 1. */
  function NibbleRows(quants: seq<int>): (b: seq<Byte>)
    requires |quants| == 256 && Below(quants, 16)
    ensures |b| == 128
  {
    seq(128, k requires 0 <= k < 128 => TwoNibbles(quants[k / 32 * 64 + k % 32], quants[k / 32 * 64 + 32 + k % 32]))
  }

  lemma NibbleRowsBack(quants: seq<int>, b: Reader, at: int, sub: nat, l: nat)
    requires |quants| == 256 && Below(quants, 16) && sub < 8 && l < 32
    requires Holds(b, at, NibbleRows(quants))
    ensures Nibble(b, at, sub, l) == quants[32 * sub + l]
  {
    hide Low4, High4, TwoNibbles;
    var g := sub / 2;
    ModUnique(32 * g + l, 32, g, l);
    var k := 32 * g + l;
    assert b(at + k) == NibbleRows(quants)[k] == TwoNibbles(quants[g * 64 + l], quants[g * 64 + 32 + l]);
    NibblesBack(quants[g * 64 + l], quants[g * 64 + 32 + l]);
  }

  function Q4Block(d: HalfBytes, dmin: HalfBytes, scales: seq<Six>, mins: seq<Six>, quants: seq<int>): (b: seq<Byte>)
    requires |scales| == |mins| == 8 && |quants| == 256 && Below(quants, 16)
    ensures |b| == 144
  {
    [d.lo, d.hi, dmin.lo, dmin.hi] + PackScaleMin(scales, mins) + NibbleRows(quants)
  }

  /** A block decodes to scale times quant less minimum, sub-block by sub-block. */
  lemma Q4BlockBack(b: Reader, block: nat, d: HalfBytes, dmin: HalfBytes, scales: seq<Six>, mins: seq<Six>,
                    quants: seq<int>, sub: nat, l: nat)
    requires |scales| == |mins| == 8 && |quants| == 256 && Below(quants, 16) && sub < 8 && l < 32
    requires Holds(b, 144 * block, Q4Block(d, dmin, scales, mins, quants))
    ensures Value(Q4_K, b, 256 * block + 32 * sub + l)
      == Field(d.Number(), scales[sub], quants[32 * sub + l], dmin.Number(), mins[sub])
  {
    hide Half, ScaleMin, Nibble, PackScaleMin, NibbleRows, Holds, Field, Value;
    var table, nibbles := PackScaleMin(scales, mins), NibbleRows(quants);
    var halves := [d.lo, d.hi, dmin.lo, dmin.hi];
    FieldsInside(b, 144 * block, halves + table, nibbles);
    FieldsInside(b, 144 * block, halves, table);
    FourBytes(b, 144 * block, halves);
    TableInside(b, 144 * block + 4, scales, mins, sub);
    NibbleRowsBack(quants, b, 144 * block + 16, sub, l);
    Q4AtIndex(b, block, sub, l);
  }

  lemma AffineIsField(d: real, scale: int, quant: int, dmin: real, min: int)
    ensures Affine(d, scale, quant, dmin, min) == Field(d, scale, quant, dmin, min)
  {}

  lemma Q4AtIndex(b: Reader, block: nat, sub: nat, l: nat)
    requires sub < 8 && l < 32
    ensures var (sc, m) := ScaleMin(b, 144 * block + 4, sub);
      Value(Q4_K, b, 256 * block + 32 * sub + l)
        == Field(Half(b(144 * block), b(144 * block + 1)), sc, Nibble(b, 144 * block + 16, sub, l),
                 Half(b(144 * block + 2), b(144 * block + 3)), m)
  {
    hide Half, ScaleMin, Nibble, Bit, Affine, Field;
    SubBlockIndex(block, sub, l);
    var (sc, m) := ScaleMin(b, 144 * block + 4, sub);
    AffineIsField(HalfAt(b, 144 * block), sc, Q4Quant(b, block, sub, l), HalfAt(b, 144 * block + 2), m);
  }

  lemma FieldsInside(b: Reader, at: int, first: seq<Byte>, rest: seq<Byte>)
    requires Holds(b, at, first + rest)
    ensures Holds(b, at, first) && Holds(b, at + |first|, rest)
  {
    forall k | 0 <= k < |first|
      ensures b(at + k) == first[k]
    {
      assert (first + rest)[k] == first[k];
    }
    forall k | 0 <= k < |rest|
      ensures b(at + |first| + k) == rest[k]
    {
      assert (first + rest)[|first| + k] == rest[k];
    }
  }

  lemma FourBytes(b: Reader, at: int, bytes: seq<Byte>)
    requires Holds(b, at, bytes) && |bytes| == 4
    ensures b(at) == bytes[0] && b(at + 1) == bytes[1] && b(at + 2) == bytes[2] && b(at + 3) == bytes[3]
  {
    assert b(at + 0) == bytes[0];
  }

  /** The packed table, wherever it stands. */
  lemma TableInside(b: Reader, at: int, scales: seq<Six>, mins: seq<Six>, sub: nat)
    requires |scales| == |mins| == 8 && sub < 8 && Holds(b, at, PackScaleMin(scales, mins))
    ensures ScaleMin(b, at, sub) == (scales[sub], mins[sub])
  {
    hide PackScaleMin;
    var table := PackScaleMin(scales, mins);
    UnpackPack(scales, mins, sub);
    forall k | 0 <= k < 12
      ensures b(at + k) == ReaderOf(table)(k)
    {
      assert b(at + k) == table[k];
    }
    SameTable(b, at, ReaderOf(table), sub);
  }

  lemma SameTable(b: Reader, at: int, table: Reader, sub: nat)
    requires sub < 8 && forall k :: 0 <= k < 12 ==> b(at + k) == table(k)
    ensures ScaleMin(b, at, sub) == ScaleMin(table, 0, sub)
  {}

  /** The fifth bits: byte l holds those of element l of every sub-block, sub-block 0 lowest. */
  function FifthBits(quants: seq<int>, l: nat): (bits: seq<int>)
    requires |quants| == 256 && Below(quants, 32) && l < 32
    ensures |bits| == 8 && Below(bits, 2)
  {
    seq(8, sub requires 0 <= sub < 8 => quants[32 * sub + l] / 16)
  }

  function LowNibbles(quants: seq<int>): (q: seq<int>)
    requires Below(quants, 32)
    ensures |q| == |quants| && Below(q, 16)
  {
    seq(|quants|, i requires 0 <= i < |quants| => quants[i] % 16)
  }

  function Q5Block(d: HalfBytes, dmin: HalfBytes, scales: seq<Six>, mins: seq<Six>, quants: seq<int>): (b: seq<Byte>)
    requires |scales| == |mins| == 8 && |quants| == 256 && Below(quants, 32)
    ensures |b| == 176
  {
    [d.lo, d.hi, dmin.lo, dmin.hi] + PackScaleMin(scales, mins) + HighRow(quants) + NibbleRows(LowNibbles(quants))
  }

  function HighRow(quants: seq<int>): (b: seq<Byte>)
    requires |quants| == 256 && Below(quants, 32)
    ensures |b| == 32
  {
    seq(32, l requires 0 <= l < 32 => ByteOfBits(FifthBits(quants, l)))
  }

  lemma Q5BlockBack(b: Reader, block: nat, d: HalfBytes, dmin: HalfBytes, scales: seq<Six>, mins: seq<Six>,
                    quants: seq<int>, sub: nat, l: nat)
    requires |scales| == |mins| == 8 && |quants| == 256 && Below(quants, 32) && sub < 8 && l < 32
    requires Holds(b, 176 * block, Q5Block(d, dmin, scales, mins, quants))
    ensures Value(Q5_K, b, 256 * block + 32 * sub + l)
      == Field(d.Number(), scales[sub], quants[32 * sub + l], dmin.Number(), mins[sub])
  {
    hide Half, ScaleMin, Nibble, PackScaleMin, NibbleRows, LowNibbles, HighRow, Holds, Bit, FifthBits, Field;
    hide Value;
    var at := 176 * block;
    FourFields(b, at, [d.lo, d.hi, dmin.lo, dmin.hi], PackScaleMin(scales, mins), HighRow(quants),
               NibbleRows(LowNibbles(quants)));
    FourBytes(b, at, [d.lo, d.hi, dmin.lo, dmin.hi]);
    TableInside(b, at + 4, scales, mins, sub);
    NibbleRowsBack(LowNibbles(quants), b, at + 48, sub, l);
    HighRowBack(quants, b, at + 16, sub, l);
    FifthBitBack(quants, sub, l);
    Q5AtIndex(b, block, sub, l);
  }

  lemma FourFields(b: Reader, at: int, w: seq<Byte>, x: seq<Byte>, y: seq<Byte>, z: seq<Byte>)
    requires Holds(b, at, w + x + y + z)
    ensures Holds(b, at, w) && Holds(b, at + |w|, x) && Holds(b, at + |w| + |x|, y)
    ensures Holds(b, at + |w| + |x| + |y|, z)
  {
    hide Holds;
    FieldsInside(b, at, w + x + y, z);
    FieldsInside(b, at, w + x, y);
    FieldsInside(b, at, w, x);
  }

  lemma Q5AtIndex(b: Reader, block: nat, sub: nat, l: nat)
    requires sub < 8 && l < 32
    ensures var (sc, m) := ScaleMin(b, 176 * block + 4, sub);
      var q := Nibble(b, 176 * block + 48, sub, l) + Bit(b(176 * block + 16 + l), sub) * 16;
      Value(Q5_K, b, 256 * block + 32 * sub + l)
        == Field(Half(b(176 * block), b(176 * block + 1)), sc, q, Half(b(176 * block + 2), b(176 * block + 3)), m)
  {
    hide Half, ScaleMin, Nibble, Bit, Affine, Field;
    SubBlockIndex(block, sub, l);
    var (sc, m) := ScaleMin(b, 176 * block + 4, sub);
    AffineIsField(HalfAt(b, 176 * block), sc, Q5Quant(b, block, sub, l), HalfAt(b, 176 * block + 2), m);
  }

  lemma HighRowBack(quants: seq<int>, b: Reader, at: int, sub: nat, l: nat)
    requires |quants| == 256 && Below(quants, 32) && sub < 8 && l < 32 && Holds(b, at, HighRow(quants))
    ensures Bit(b(at + l), sub) == FifthBits(quants, l)[sub]
  {
    hide FifthBits, FromBits, TwoTo;
    assert b(at + l) == HighRow(quants)[l];
    BitsBack(FifthBits(quants, l), sub);
  }

  lemma FifthBitBack(quants: seq<int>, sub: nat, l: nat)
    requires |quants| == 256 && Below(quants, 32) && sub < 8 && l < 32
    ensures LowNibbles(quants)[32 * sub + l] + FifthBits(quants, l)[sub] * 16 == quants[32 * sub + l]
  {}

  // ---- Q6_K ----

  /** Four two-bit fields in one byte, the first one lowest. */
  function FourPairs(a: int, b: int, c: int, d: int): Byte
    requires 0 <= a < 4 && 0 <= b < 4 && 0 <= c < 4 && 0 <= d < 4
  {
    a + 4 * b + 16 * c + 64 * d
  }

  /** Element l of quarter g of half h, counted from -32. */
  function SixBits(quants: seq<int>, h: nat, g: nat, l: nat): (q: int)
    requires |quants| == 256 && Below(quants, 64) && h < 2 && g < 4 && l < 32
    ensures 0 <= q < 64
  {
    quants[128 * h + 32 * g + l]
  }

  /** Low nibbles: in half h, byte 32 * e + l holds those of quarters e and e + 2. */
  function LowByte(quants: seq<int>, h: nat, e: nat, l: nat): Byte
    requires |quants| == 256 && Below(quants, 64) && h < 2 && e < 2 && l < 32
  {
    TwoNibbles(SixBits(quants, h, e, l) % 16, SixBits(quants, h, e + 2, l) % 16)
  }

  function HighByte(quants: seq<int>, h: nat, l: nat): Byte
    requires |quants| == 256 && Below(quants, 64) && h < 2 && l < 32
  {
    FourPairs(SixBits(quants, h, 0, l) / 16, SixBits(quants, h, 1, l) / 16, SixBits(quants, h, 2, l) / 16,
              SixBits(quants, h, 3, l) / 16)
  }

  function LowRow(quants: seq<int>): (b: seq<Byte>)
    requires |quants| == 256 && Below(quants, 64)
    ensures |b| == 128
  {
    seq(128, k requires 0 <= k < 128 => LowByte(quants, k / 64, k % 64 / 32, k % 32))
  }

  function PairRow(quants: seq<int>): (b: seq<Byte>)
    requires |quants| == 256 && Below(quants, 64)
    ensures |b| == 64
  {
    seq(64, k requires 0 <= k < 64 => HighByte(quants, k / 32, k % 32))
  }

  function SignedRow(scales: seq<int>): (b: seq<Byte>)
    requires forall i :: 0 <= i < |scales| ==> -128 <= scales[i] < 128
    ensures |b| == |scales|
  {
    seq(|scales|, k requires 0 <= k < |scales| => SignedByte(scales[k]))
  }

  function Q6Block(d: HalfBytes, scales: seq<int>, quants: seq<int>): (b: seq<Byte>)
    requires |scales| == 16 && (forall i :: 0 <= i < 16 ==> -128 <= scales[i] < 128)
    requires |quants| == 256 && Below(quants, 64)
    ensures |b| == 210
  {
    LowRow(quants) + PairRow(quants) + SignedRow(scales) + [d.lo, d.hi]
  }

  /** Sixteen elements share a scale, and quants count from -32. */
  lemma Q6BlockBack(b: Reader, block: nat, d: HalfBytes, scales: seq<int>, quants: seq<int>, h: nat, g: nat, l: nat)
    requires |scales| == 16 && (forall i :: 0 <= i < 16 ==> -128 <= scales[i] < 128)
    requires |quants| == 256 && Below(quants, 64) && h < 2 && g < 4 && l < 32
    requires Holds(b, 210 * block, Q6Block(d, scales, quants))
    ensures var i := 128 * h + 32 * g + l;
      Value(Q6_K, b, 256 * block + i) == d.Number() * (scales[i / 16] as real) * ((quants[i] - 32) as real)
  {
    hide Half, LowRow, PairRow, SignedRow, Q6Quant, I8, Holds;
    var at, i := 210 * block, 128 * h + 32 * g + l;
    FourFields(b, at, LowRow(quants), PairRow(quants), SignedRow(scales), [d.lo, d.hi]);
    TwoBytes(b, at + 208, [d.lo, d.hi]);
    QuarterIndex(block, h, g, l);
    Q6FieldsBack(b, block, quants, h, g, l);
    ScaleIndex(h, g, l);
    SignedRowBack(b, at + 192, scales, i / 16);
  }

  lemma TwoBytes(b: Reader, at: int, bytes: seq<Byte>)
    requires Holds(b, at, bytes) && |bytes| == 2
    ensures b(at) == bytes[0] && b(at + 1) == bytes[1]
  {
    assert b(at + 0) == bytes[0];
  }

  lemma ScaleIndex(h: nat, g: nat, l: nat)
    requires h < 2 && g < 4 && l < 32
    ensures (128 * h + 32 * g + l) / 16 == 8 * h + l / 16 + 2 * g < 16
  {
    ModUnique(128 * h + 32 * g + l, 16, 8 * h + 2 * g + l / 16, l % 16);
  }

  lemma SignedRowBack(b: Reader, at: int, scales: seq<int>, k: nat)
    requires (forall i :: 0 <= i < |scales| ==> -128 <= scales[i] < 128) && k < |scales|
    requires Holds(b, at, SignedRow(scales))
    ensures I8(b(at + k)) == scales[k]
  {
    hide SignedByte, I8;
    assert b(at + k) == SignedRow(scales)[k];
    SignBack(scales[k]);
  }

  lemma Q6FieldsBack(b: Reader, block: nat, quants: seq<int>, h: nat, g: nat, l: nat)
    requires |quants| == 256 && Below(quants, 64) && h < 2 && g < 4 && l < 32
    requires Holds(b, 210 * block, LowRow(quants)) && Holds(b, 210 * block + 128, PairRow(quants))
    ensures Q6Quant(b, block, h, g, l) == SixBits(quants, h, g, l) - 32
  {
    hide SixBits, TwoTo, Low4, High4, LowRow, PairRow, LowByte, HighByte, Holds;
    LowRowBack(b, 210 * block, quants, h, g % 2, l);
    PairRowBack(b, 210 * block + 128, quants, h, l);
    LowNibbleBack(quants, h, g, l);
    HighPairBack(quants, h, g, l);
  }

  lemma LowRowBack(b: Reader, at: int, quants: seq<int>, h: nat, e: nat, l: nat)
    requires |quants| == 256 && Below(quants, 64) && h < 2 && e < 2 && l < 32 && Holds(b, at, LowRow(quants))
    ensures b(at + 64 * h + 32 * e + l) == LowByte(quants, h, e, l)
  {
    hide LowByte;
    LowIndex(h, e, l);
    assert b(at + (64 * h + 32 * e + l)) == LowRow(quants)[64 * h + 32 * e + l];
  }

  lemma PairRowBack(b: Reader, at: int, quants: seq<int>, h: nat, l: nat)
    requires |quants| == 256 && Below(quants, 64) && h < 2 && l < 32 && Holds(b, at, PairRow(quants))
    ensures b(at + 32 * h + l) == HighByte(quants, h, l)
  {
    hide HighByte;
    ModUnique(32 * h + l, 32, h, l);
    assert b(at + (32 * h + l)) == PairRow(quants)[32 * h + l];
  }

  lemma LowIndex(h: nat, e: nat, l: nat)
    requires h < 2 && e < 2 && l < 32
    ensures var k := 64 * h + 32 * e + l; k / 64 == h && k % 64 / 32 == e && k % 32 == l
  {}

  lemma LowNibbleBack(quants: seq<int>, h: nat, g: nat, l: nat)
    requires |quants| == 256 && Below(quants, 64) && h < 2 && g < 4 && l < 32
    ensures var low := LowByte(quants, h, g % 2, l);
      (if g < 2 then Low4(low) else High4(low)) == SixBits(quants, h, g, l) % 16
  {
    hide SixBits, TwoNibbles, Low4, High4;
    NibblesBack(SixBits(quants, h, g % 2, l) % 16, SixBits(quants, h, g % 2 + 2, l) % 16);
  }

  lemma HighPairBack(quants: seq<int>, h: nat, g: nat, l: nat)
    requires |quants| == 256 && Below(quants, 64) && h < 2 && g < 4 && l < 32
    ensures HighByte(quants, h, l) / TwoTo(2 * g) % 4 == SixBits(quants, h, g, l) / 16
  {
    hide SixBits, TwoTo;
    PairShifts();
    PairsBack(SixBits(quants, h, 0, l) / 16, SixBits(quants, h, 1, l) / 16, SixBits(quants, h, 2, l) / 16,
              SixBits(quants, h, 3, l) / 16);
  }

  lemma PairsBack(a: int, b: int, c: int, d: int)
    requires 0 <= a < 4 && 0 <= b < 4 && 0 <= c < 4 && 0 <= d < 4
    ensures var n := FourPairs(a, b, c, d); n % 4 == a && n / 4 % 4 == b && n / 16 % 4 == c && n / 64 % 4 == d
  {
    ModUnique(a + 4 * b + 16 * c + 64 * d, 64, d, a + 4 * b + 16 * c);
    ModUnique(a + 4 * b + 16 * c + 64 * d, 16, c + 4 * d, a + 4 * b);
    ModUnique(a + 4 * b + 16 * c + 64 * d, 4, b + 4 * c + 16 * d, a);
  }

  lemma PairShifts()
    ensures TwoTo(0) == 1 && TwoTo(2) == 4 && TwoTo(4) == 16 && TwoTo(6) == 64
  {}
}
