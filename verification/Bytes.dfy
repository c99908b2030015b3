/** Bytes, the bit fields the block formats cut them into, and half-precision numbers.
    A byte is a number below 256; a mask of its low bits is a remainder, a right shift a
    quotient, and `|` of disjoint fields a sum. */
module Bytes {

  type Byte = b: int | 0 <= b < 256

  /** Something that can be read byte by byte: a slice of the file, or a packed GPU buffer. */
  type Reader = int -> Byte

  function ReaderOf(data: seq<Byte>): Reader {
    (i: int) => if 0 <= i < |data| then data[i] else 0
  }

  function Low4(b: Byte): (n: int)
    ensures 0 <= n < 16
  {
    b % 16
  }

  function High4(b: Byte): (n: int)
    ensures 0 <= n < 16
  {
    b / 16
  }

  /** The two nibbles make the byte. */
  lemma NibblesMake(b: Byte)
    ensures b == Low4(b) + 16 * High4(b)
  {}

  function TwoTo(k: nat): (p: nat)
    ensures p > 0
  {
    if k == 0 then 1 else 2 * TwoTo(k - 1)
  }

  /** Bit k of b, as 0 or 1. */
  function Bit(b: Byte, k: nat): (n: int)
    ensures 0 <= n < 2
  {
    (b / TwoTo(k)) % 2
  }

  /** The two's-complement value of a byte. */
  function I8(b: Byte): (n: int)
    ensures -128 <= n < 128
  {
    if b < 128 then b else b - 256
  }

  function Pow2(e: int): real
    decreases if e < 0 then -e else e
  {
    if e == 0 then 1.0 else if e > 0 then 2.0 * Pow2(e - 1) else Pow2(e + 1) / 2.0
  }

  /** A half-precision number from its two little-endian bytes: sign, 5 exponent bits, 10 mantissa bits.
      Exponent 31 (infinities and NaN) has no exact value; this gives the number the GPU's decoder computes. */
  function Half(lo: Byte, hi: Byte): real {
    var bits := hi * 256 + lo;
    var size := Magnitude(bits / 1024 % 32, bits % 1024);
    if bits >= 32768 then -size else size
  }

  function Magnitude(exponent: nat, mantissa: nat): real {
    if exponent == 0 then (mantissa as real / 1024.0) * Pow2(-14)
    else (1.0 + mantissa as real / 1024.0) * Pow2(exponent - 15)
  }

  lemma {:induction false} Pow2Adds(e: int, n: nat)
    ensures Pow2(e + n) == Pow2(e) * Pow2(n)
  {
    hide Pow2;
    if n == 0 {
      One();
    } else {
      Pow2Adds(e, n - 1);
      Pow2Doubles(e + n - 1);
      Pow2Doubles(n - 1);
      TwiceProduct(Pow2(e), Pow2(n - 1));
    }
  }

  lemma TwiceProduct(a: real, b: real)
    ensures a * (2.0 * b) == 2.0 * (a * b)
  {
  }

  lemma Pow2Doubles(e: int)
    ensures Pow2(e + 1) == 2.0 * Pow2(e)
  {}

  lemma {:induction false} Pow2IsWhole(e: nat) returns (p: nat)
    ensures Pow2(e) == p as real
  {
    if e == 0 { p := 1; } else {
      p := Pow2IsWhole(e - 1);
      p := 2 * p;
    }
  }

  lemma UnitsPerOne()
    ensures Pow2(24) == 16777216.0
  {
    Pow2Adds(12, 12);
    assert Pow2(12) == 4096.0;
  }

  /** Every half-precision number is a whole number of units of 2^-24, the least one above zero. */
  lemma HalfIsWhole(lo: Byte, hi: Byte) returns (units: int)
    ensures Half(lo, hi) * Pow2(24) == units as real
  {
    hide Pow2, Magnitude;
    var bits := hi * 256 + lo;
    units := MagnitudeIsWhole(bits / 1024 % 32, bits % 1024);
    if bits >= 32768 {
      Negated(Magnitude(bits / 1024 % 32, bits % 1024), Pow2(24));
      units := -units;
    }
  }

  lemma Negated(a: real, b: real)
    ensures (-a) * b == -(a * b)
  {}

  lemma MagnitudeIsWhole(exponent: nat, mantissa: nat) returns (units: int)
    ensures Magnitude(exponent, mantissa) * Pow2(24) == units as real
  {
    hide Pow2;
    if exponent == 0 {
      One();
      units := WholeUnits(mantissa, -14, 1);
    } else {
      var p := Pow2IsWhole(exponent - 1);
      assert 1.0 + mantissa as real / 1024.0 == (1024 + mantissa) as real / 1024.0;
      units := WholeUnits(1024 + mantissa, exponent - 15, p);
    }
  }

  lemma One()
    ensures Pow2(0) == 1.0
  {}

  lemma WholeUnits(mantissa: int, e: int, p: int) returns (units: int)
    requires e >= -14 && Pow2(e + 14) == p as real
    ensures (mantissa as real / 1024.0) * Pow2(e) * Pow2(24) == units as real
  {
    hide Pow2;
    units := mantissa * p;
    Pow2Adds(e, 14);
    Pow2Adds(14, 10);
    Kilo();
    Regroup(mantissa as real, Pow2(e), Pow2(14));
    assert (mantissa as real) * (p as real) == units as real;
  }

  lemma Kilo()
    ensures Pow2(10) == 1024.0
  {}

  lemma Regroup(m: real, a: real, b: real)
    ensures (m / 1024.0) * a * (b * 1024.0) == m * (a * b)
  {
    var q := m / 1024.0;
    assert q * 1024.0 == m;
    assert q * a * (b * 1024.0) == (q * 1024.0) * (a * b);
  }

  // ---- The half-precision numbers, in order ----

  lemma HalfOfBits(lo: Byte, hi: Byte)
    requires hi < 128
    ensures var n := 256 * hi + lo; n / 1024 < 32 && Half(lo, hi) == Magnitude(n / 1024, n % 1024)
  {
    hide Magnitude;
  }

  lemma {:induction false} Pow2Positive(e: int)
    ensures Pow2(e) > 0.0
    decreases if e < 0 then -e else e
  {
    if e > 0 { Pow2Positive(e - 1); } else if e < 0 { Pow2Positive(e + 1); }
  }

  /** The sign bit negates. */
  lemma HalfSigns(lo: Byte, hi: Byte)
    requires hi < 128
    ensures Half(lo, hi + 128) == -Half(lo, hi)
  {
    hide Magnitude;
    SignBit(256 * hi + lo);
  }

  lemma SignBit(n: nat)
    requires n < 32768
    ensures (n + 32768) / 1024 % 32 == n / 1024 % 32 && (n + 32768) % 1024 == n % 1024
  {
    assert (n + 32768) / 1024 == n / 1024 + 32;
  }

  lemma HalfZero()
    ensures Half(0, 0) == 0.0
  {
    hide Half, Pow2;
    HalfOfBits(0, 0);
    NoMantissa(Pow2(-14));
  }

  lemma NoMantissa(p: real)
    ensures (0.0 / 1024.0) * p == 0.0 && (1.0 + 0.0 / 1024.0) * p == p
  {}

  /** Counting up by one from the little-endian bits goes to the next number, 2^(max(e, 1) - 25) away at exponent e. */
  lemma HalfStep(lo: Byte, hi: Byte, lo2: Byte, hi2: Byte)
    requires hi2 < 0x7C && 256 * hi2 + lo2 == 256 * hi + lo + 1
    ensures var e := (256 * hi + lo) / 1024; Half(lo2, hi2) - Half(lo, hi) == Pow2((if e < 1 then 1 else e) - 25)
  {
    hide Half, Magnitude;
    HalfOfBits(lo, hi);
    HalfOfBits(lo2, hi2);
    var n := 256 * hi + lo;
    MagnitudeStep(n / 1024, n % 1024);
    NextFields(n);
  }

  lemma NextFields(n: nat)
    ensures n % 1024 < 1023 ==> (n + 1) / 1024 == n / 1024 && (n + 1) % 1024 == n % 1024 + 1
    ensures n % 1024 == 1023 ==> (n + 1) / 1024 == n / 1024 + 1 && (n + 1) % 1024 == 0
  {}

  lemma MagnitudeStep(e: nat, m: nat)
    requires m < 1024
    ensures (if m < 1023 then Magnitude(e, m + 1) else Magnitude(e + 1, 0)) - Magnitude(e, m)
      == Pow2((if e < 1 then 1 else e) - 25)
  {
    hide Pow2;
    var unit := if e < 1 then -14 else e - 15;
    Pow2Adds(unit - 10, 10);
    Kilo();
    Pow2Doubles(e - 15);
    StepArithmetic(m as real, Pow2(unit), Pow2(unit - 10));
  }

  lemma StepArithmetic(m: real, p: real, tiny: real)
    requires p == tiny * 1024.0
    ensures ((m + 1.0) / 1024.0) * p - (m / 1024.0) * p == tiny
    ensures (1.0 + (m + 1.0) / 1024.0) * p - (1.0 + m / 1024.0) * p == tiny
    ensures m == 1023.0 ==> p - (m / 1024.0) * p == tiny && 2.0 * p - (1.0 + m / 1024.0) * p == tiny
  {
    var a, b := (m + 1.0) / 1024.0, m / 1024.0;
    assert a - b == 1.0 / 1024.0;
    assert (a - b) * p == a * p - b * p;
    assert m == 1023.0 ==> (1.0 - b) * p == p - b * p;
  }

  /** So the non-negative finite numbers are in the order of their bits. */
  lemma {:induction false} HalfIncreases(lo: Byte, hi: Byte, lo2: Byte, hi2: Byte)
    requires hi2 < 0x7C && 256 * hi + lo < 256 * hi2 + lo2
    ensures Half(lo, hi) < Half(lo2, hi2)
    decreases 256 * hi2 + lo2
  {
    hide Half, Pow2;
    var n := 256 * hi2 + lo2 - 1;
    var before, beforeHi := n % 256, n / 256;
    HalfStep(before, beforeHi, lo2, hi2);
    var e := n / 1024;
    Pow2Positive((if e < 1 then 1 else e) - 25);
    if 256 * hi + lo < n { HalfIncreases(lo, hi, before, beforeHi); }
  }

  lemma HalfOne()
    ensures Half(0, 0x3C) == 1.0
  {
    hide Half, Pow2;
    HalfOfBits(0, 0x3C);
    One();
    NoMantissa(Pow2(0));
  }

  function HalfAt(b: Reader, at: int): real {
    Half(b(at), b(at + 1))
  }

  // ---- The six-bit scale and minimum table of the K formats ----

  type Six = v: int | 0 <= v < 64

  /** Scale and minimum of sub-block j, from the 12 bytes at `at`. */
  function ScaleMin(b: Reader, at: int, j: nat): (r: (Six, Six))
    requires j < 8
  {
    if j < 4 then
      (b(at + j) % 64, b(at + j + 4) % 64)
    else
      (b(at + j + 4) % 16 + b(at + j - 4) / 64 * 16, b(at + j + 4) / 16 + b(at + j) / 64 * 16)
  }

  /** Byte i of the 12 that hold eight scales and eight minimums. */
  function TableByte(scales: seq<Six>, mins: seq<Six>, i: nat): Byte
    requires |scales| == |mins| == 8 && i < 12
  {
    if i < 4 then Joined(scales[i], scales[i + 4] / 16, 64)
    else if i < 8 then Joined(mins[i - 4], mins[i] / 16, 64)
    else Joined(scales[i - 4] % 16, mins[i - 4] % 16, 16)
  }

  /** The bits of `high` above the bits of `low`. */
  function Joined(low: int, high: int, unit: int): Byte
    requires (unit == 64 && 0 <= low < 64 && 0 <= high < 4) || (unit == 16 && 0 <= low < 16 && 0 <= high < 16)
  {
    low + high * unit
  }

  function PackScaleMin(scales: seq<Six>, mins: seq<Six>): (bytes: seq<Byte>)
    requires |scales| == |mins| == 8
    ensures |bytes| == 12
  {
    seq(12, i requires 0 <= i < 12 => TableByte(scales, mins, i))
  }

  /** A field joined above another is cut off again. */
  lemma JoinedParts(low: int, high: int, unit: int)
    requires unit == 16 || unit == 64
    requires 0 <= low < unit && 0 <= high
    ensures (low + high * unit) % unit == low && (low + high * unit) / unit == high
  {}

  /** Reading sub-block j of a packed table gives back its scale and minimum. */
  lemma UnpackPack(scales: seq<Six>, mins: seq<Six>, j: nat)
    requires |scales| == |mins| == 8 && j < 8
    ensures ScaleMin(ReaderOf(PackScaleMin(scales, mins)), 0, j) == (scales[j], mins[j])
  {
    hide TableByte;
    var b := ReaderOf(PackScaleMin(scales, mins));
    if j < 4 {
      assert b(j) == TableByte(scales, mins, j) && b(j + 4) == TableByte(scales, mins, j + 4);
      UnpackDirect(scales, mins, j);
    } else {
      assert b(j + 4) == TableByte(scales, mins, j + 4) && b(j - 4) == TableByte(scales, mins, j - 4);
      assert b(j) == TableByte(scales, mins, j);
      UnpackSplit(scales, mins, j);
    }
  }

  lemma UnpackDirect(scales: seq<Six>, mins: seq<Six>, j: nat)
    requires |scales| == |mins| == 8 && j < 4
    ensures TableByte(scales, mins, j) % 64 == scales[j] && TableByte(scales, mins, j + 4) % 64 == mins[j]
  {
    JoinedParts(scales[j], scales[j + 4] / 16, 64);
    JoinedParts(mins[j], mins[j + 4] / 16, 64);
  }

  lemma UnpackSplit(scales: seq<Six>, mins: seq<Six>, j: nat)
    requires |scales| == |mins| == 8 && 4 <= j < 8
    ensures TableByte(scales, mins, j + 4) % 16 + TableByte(scales, mins, j - 4) / 64 * 16 == scales[j]
    ensures TableByte(scales, mins, j + 4) / 16 + TableByte(scales, mins, j) / 64 * 16 == mins[j]
  {
    JoinedParts(scales[j] % 16, mins[j] % 16, 16);
    JoinedParts(scales[j - 4], scales[j] / 16, 64);
    JoinedParts(mins[j - 4], mins[j] / 16, 64);
  }

  function Scales(bytes: seq<Byte>): seq<Six> {
    seq(8, j requires 0 <= j < 8 => ScaleMin(ReaderOf(bytes), 0, j).0)
  }

  function Mins(bytes: seq<Byte>): seq<Six> {
    seq(8, j requires 0 <= j < 8 => ScaleMin(ReaderOf(bytes), 0, j).1)
  }

  /** Every 12 bytes are the packing of the table read from them: the layout is a bijection. */
  lemma PackUnpack(bytes: seq<Byte>)
    requires |bytes| == 12
    ensures PackScaleMin(Scales(bytes), Mins(bytes)) == bytes
  {
    forall i | 0 <= i < 12
      ensures TableByte(Scales(bytes), Mins(bytes), i) == bytes[i]
    {
      TableByteUnpack(bytes, i);
    }
  }

  lemma TableByteUnpack(bytes: seq<Byte>, i: nat)
    requires |bytes| == 12 && i < 12
    ensures TableByte(Scales(bytes), Mins(bytes), i) == bytes[i]
  {
    hide Scales, Mins;
    if i < 4 {
      LowSix(bytes, i);
      HighSix(bytes, i + 4);
      JoinedParts(bytes[i + 8] % 16, bytes[i] / 64, 16);
    } else if i < 8 {
      LowSix(bytes, i - 4);
      HighSix(bytes, i);
      JoinedParts(bytes[i + 4] / 16, bytes[i] / 64, 16);
    } else {
      HighSix(bytes, i - 4);
      JoinedParts(bytes[i] % 16, bytes[i - 8] / 64, 16);
      JoinedParts(bytes[i] / 16, bytes[i - 4] / 64, 16);
    }
  }

  lemma LowSix(bytes: seq<Byte>, j: nat)
    requires |bytes| == 12 && j < 4
    ensures Scales(bytes)[j] == bytes[j] % 64 && Mins(bytes)[j] == bytes[j + 4] % 64
  {}

  lemma HighSix(bytes: seq<Byte>, j: nat)
    requires |bytes| == 12 && 4 <= j < 8
    ensures Scales(bytes)[j] == bytes[j + 4] % 16 + bytes[j - 4] / 64 * 16
    ensures Mins(bytes)[j] == bytes[j + 4] / 16 + bytes[j] / 64 * 16
  {}

  /** The copy of the table lookup in the u8 kernels, which takes the 12 bytes one by one. */
  function ScaleMinU8(j: nat, s: seq<Byte>): (r: (int, int))
    requires j < 8 && |s| == 12
  {
    if j == 0 then (s[0] % 64, s[4] % 64)
    else if j == 1 then (s[1] % 64, s[5] % 64)
    else if j == 2 then (s[2] % 64, s[6] % 64)
    else if j == 3 then (s[3] % 64, s[7] % 64)
    else if j == 4 then (s[8] % 16 + s[0] / 64 % 4 * 16, s[8] / 16 + s[4] / 64 % 4 * 16)
    else if j == 5 then (s[9] % 16 + s[1] / 64 % 4 * 16, s[9] / 16 + s[5] / 64 % 4 * 16)
    else if j == 6 then (s[10] % 16 + s[2] / 64 % 4 * 16, s[10] / 16 + s[6] / 64 % 4 * 16)
    else (s[11] % 16 + s[3] / 64 % 4 * 16, s[11] / 16 + s[7] / 64 % 4 * 16)
  }

  lemma ScaleMinCopiesAgree(j: nat, s: seq<Byte>)
    requires j < 8 && |s| == 12
    ensures ScaleMinU8(j, s) == ScaleMin(ReaderOf(s), 0, j)
  {
    assert forall b: Byte :: b / 64 % 4 == b / 64;
  }
}
