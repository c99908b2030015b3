/** What a quantised row means: the real number each format stores at each index. */
module QuantValues {
  import opened Sums
  import opened Striding
  import opened Bytes

  datatype Format = Q8_0 | Q4_K | Q5_K | Q6_K {
    /** Bytes of a row of n elements: whole blocks of 32 or 256. */
    function RowBytes(n: nat): nat {
      match this
      case Q8_0 => (n + 31) / 32 * 34
      case Q4_K => (n + 255) / 256 * 144
      case Q5_K => (n + 255) / 256 * 176
      case Q6_K => (n + 255) / 256 * 210
    }
  }

  function Scaled(d: real, scale: int, q: int): real {
    Mul(Mul(d, scale as real), q as real)
  }

  function Affine(d: real, scale: int, q: int, dmin: real, min: int): real {
    Mul(Mul(d, scale as real), q as real) - Mul(dmin, min as real)
  }

  /** The nibble of sub-block `sub` (32 elements) at position l; two sub-blocks share 32 bytes. */
  function Nibble(b: Reader, at: int, sub: nat, l: nat): int {
    var byte := b(at + 32 * (sub / 2) + l);
    if sub % 2 == 0 then Low4(byte) else High4(byte)
  }

  function Q4Quant(b: Reader, block: nat, sub: nat, l: nat): int {
    Nibble(b, 144 * block + 16, sub, l)
  }

  function Q5Quant(b: Reader, block: nat, sub: nat, l: nat): int {
    Nibble(b, 176 * block + 48, sub, l) + Bit(b(176 * block + 16 + l), sub) * 16
  }

  function Q4Value(b: Reader, block: nat, sub: nat, l: nat): real
    requires sub < 8
  {
    var base := 144 * block;
    var (scale, min) := ScaleMin(b, base + 4, sub);
    Affine(HalfAt(b, base), scale, Q4Quant(b, block, sub, l), HalfAt(b, base + 2), min)
  }

  function Q5Value(b: Reader, block: nat, sub: nat, l: nat): real
    requires sub < 8
  {
    var base := 176 * block;
    var (scale, min) := ScaleMin(b, base + 4, sub);
    Affine(HalfAt(b, base), scale, Q5Quant(b, block, sub, l), HalfAt(b, base + 2), min)
  }

  /** The 6-bit quant of quarter g (32 elements) of half h, less its offset 32. */
  function Q6Quant(b: Reader, block: nat, h: nat, g: nat, l: nat): int {
    var base := 210 * block;
    var low := b(base + 64 * h + 32 * (g % 2) + l);
    var high := b(base + 128 + 32 * h + l);
    (if g < 2 then Low4(low) else High4(low)) + high / TwoTo(2 * g) % 4 * 16 - 32
  }

  function Q6Value(b: Reader, block: nat, h: nat, g: nat, l: nat): real {
    var base := 210 * block;
    Scaled(HalfAt(b, base + 208), I8(b(base + 192 + 8 * h + l / 16 + 2 * g)), Q6Quant(b, block, h, g, l))
  }

  function Q8Value(b: Reader, block: nat, l: nat): real {
    Scaled(HalfAt(b, 34 * block), 1, I8(b(34 * block + 2 + l)))
  }

  /** Element i of a row. */
  function Value(format: Format, b: Reader, i: nat): real {
    match format
    case Q8_0 => Q8Value(b, i / 32, i % 32)
    case Q4_K => Q4Value(b, i / 256, i % 256 / 32, i % 32)
    case Q5_K => Q5Value(b, i / 256, i % 256 / 32, i % 32)
    case Q6_K => Q6Value(b, i / 256, i % 256 / 128, i % 128 / 32, i % 32)
  }

  /** One product of the dot of a row with x; zero past the end of x. */
  function Term(format: Format, b: Reader, x: Vec, i: int): real {
    if i < 0 then 0.0 else Mul(Value(format, b, i), At(x, i))
  }

  /** Decode, then dot: the reference every fused kernel must meet. */
  function DotRow(format: Format, b: Reader, x: Vec): real {
    Sum(|x|, i => Term(format, b, x, i))
  }

  function Terms(format: Format, b: Reader, x: Vec): int -> real {
    (i: int) => Term(format, b, x, i)
  }

  function Decoded(format: Format, b: Reader, n: nat): (row: Vec)
    ensures |row| == n
  {
    seq(n, i requires 0 <= i < n => Value(format, b, i))
  }

  lemma SubBlockIndex(block: nat, sub: nat, l: nat)
    requires sub < 8 && l < 32
    ensures var i := 256 * block + 32 * sub + l;
      i / 256 == block && i % 256 / 32 == sub && i % 32 == l
  {
    var i := 256 * block + 32 * sub + l;
    ModUnique(i, 256, block, 32 * sub + l);
    ModUnique(32 * sub + l, 32, sub, l);
    ModUnique(i, 32, 8 * block + sub, l);
  }

  lemma QuarterIndex(block: nat, h: nat, g: nat, l: nat)
    requires h < 2 && g < 4 && l < 32
    ensures var i := 256 * block + 128 * h + 32 * g + l;
      i / 256 == block && i % 256 / 128 == h && i % 128 / 32 == g && i % 32 == l
  {
    var i := 256 * block + 128 * h + 32 * g + l;
    ModUnique(i, 256, block, 128 * h + 32 * g + l);
    ModUnique(128 * h + 32 * g + l, 128, h, 32 * g + l);
    ModUnique(i, 128, 2 * block + h, 32 * g + l);
    ModUnique(32 * g + l, 32, g, l);
    ModUnique(i, 32, 8 * block + 4 * h + g, l);
  }

  /** The dot with a row equals the dot with its decoded vector. */
  lemma DotRowIsDotOfDecoded(format: Format, b: Reader, x: Vec)
    ensures DotRow(format, b, x) == Dot(Decoded(format, b, |x|), x)
  {
    var w := Decoded(format, b, |x|);
    forall i | 0 <= i < |x|
      ensures Term(format, b, x, i) == Mul(At(w, i), At(x, i))
    {
      assert At(w, i) == w[i] == Value(format, b, i);
    }
    SumEq(|x|, i => Term(format, b, x, i), i => Mul(At(w, i), At(x, i)));
  }

  /** Whole blocks past the end of x add nothing. */
  lemma DotRowPadded(format: Format, b: Reader, x: Vec, n: nat)
    requires |x| <= n
    ensures Sum(n, Terms(format, b, x)) == DotRow(format, b, x)
  {
    var f := Terms(format, b, x);
    forall i | |x| <= i < n
      ensures f(i) == 0.0
    {
      assert At(x, i) == 0.0;
    }
    SumPad(|x|, n, f);
    SumEq(|x|, f, i => Term(format, b, x, i));
  }
}
