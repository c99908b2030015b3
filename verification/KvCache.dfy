/** The key/value cache: rows packed as f16 or as Q8_0 blocks, read back dequantised. */
module KvCaching {
  import opened Sums
  import opened Striding
  import opened Blocks
  import opened Bytes
  import opened QuantInt8
  import opened QuantGpu

  datatype KvDtype = F16 | Q8_0

  /** A storage type, and the half-precision encoder it stores numbers with. */
  datatype KvFormat = KvFormat(dtype: KvDtype, encode: real -> (Byte, Byte)) {

    function BytesPerToken(n: nat): nat {
      match dtype
      case F16 => n * 2
      case Q8_0 => (n + 31) / 32 * 34
    }

    /** The number a half-precision encoding gives back. */
    function Stored(a: real): real { Half(encode(a).0, encode(a).1) }

    /** Element i as `unpack` reads it. */
    function Unpacked(b: Reader, i: nat): real {
      match dtype
      case F16 => HalfAt(b, 2 * i)
      case Q8_0 => Mul(I8(b(34 * (i / 32) + 2 + i % 32)) as real, HalfAt(b, 34 * (i / 32)))
    }

    function UnpackedRow(b: Reader, n: nat): (row: Vec)
      ensures |row| == n
    {
      seq(n, i requires 0 <= i < n => Unpacked(b, i))
    }

    /** What element i of x reads back as after being packed. */
    function RoundTripAt(x: Vec, i: nat): real {
      match dtype
      case F16 => Stored(At(x, i))
      case Q8_0 => Mul(KvQuant(x, i) as real, Stored(Scale(x, i / 32)))
    }

    function RoundTrip(x: Vec): (row: Vec)
      ensures |row| == |x|
    {
      seq(|x|, i requires 0 <= i < |x| => RoundTripAt(x, i))
    }
  }

  // ---- One block of 32 ----

  function Amax(x: Vec, lo: nat, hi: nat): (m: real)
    requires lo <= hi
    ensures m >= 0.0
    decreases hi - lo
  {
    if lo == hi then 0.0 else Max(Amax(x, lo, hi - 1), Abs(At(x, hi - 1)))
  }

  function BlockAmax(x: Vec, block: nat): real { Amax(x, 32 * block, 32 * block + 32) }

  function Scale(x: Vec, block: nat): (s: real)
    ensures s > 0.0
  {
    var amax := BlockAmax(x, block);
    if amax > 0.0 then amax / 127.0 else 1.0
  }

  function Clamp127(n: int): (c: int)
    ensures -127 <= c <= 127
  {
    if n < -127 then -127 else if n > 127 then 127 else n
  }

  function KvQuant(x: Vec, i: nat): (q: int)
    ensures -127 <= q <= 127
  {
    Clamp127(Round(At(x, i) / Scale(x, i / 32)))
  }

  /** A signed byte as it is stored. */
  function ByteOf(q: int): (b: Byte)
    requires -128 <= q < 128
    ensures I8(b) == q
  {
    if q < 0 then q + 256 else q
  }

  lemma {:induction false} AmaxBounds(x: Vec, lo: nat, hi: nat, i: nat)
    requires lo <= i < hi
    ensures Abs(At(x, i)) <= Amax(x, lo, hi)
  {
    if i < hi - 1 { AmaxBounds(x, lo, hi - 1, i); }
  }

  /** Cells past the end of x are zero and do not change the maximum. */
  lemma {:induction false} AmaxPadded(x: Vec, lo: nat, hi: nat, end: nat)
    requires lo <= hi <= end && |x| <= hi
    ensures Amax(x, lo, end) == Amax(x, lo, hi)
    decreases end
  {
    if hi < end { AmaxPadded(x, lo, hi, end - 1); }
  }

  /** The clamp never acts: every element of a block scales to within 127. */
  lemma QuantIsRounded(x: Vec, i: nat)
    ensures var t := At(x, i) / Scale(x, i / 32);
      -127.0 <= t <= 127.0 && KvQuant(x, i) == Round(t)
  {
    var amax, scale, v := BlockAmax(x, i / 32), Scale(x, i / 32), At(x, i);
    AmaxBounds(x, 32 * (i / 32), 32 * (i / 32) + 32, i);
    InRange(amax, scale, v);
  }

  lemma InRange(amax: real, scale: real, v: real)
    requires scale > 0.0 && Abs(v) <= amax && (amax > 0.0 ==> scale == amax / 127.0)
    ensures -127.0 <= v / scale <= 127.0
  {
    var t := v / scale;
    assert t * scale == v;
    if amax > 0.0 {
      assert 127.0 * scale == amax;
      assert t > 127.0 ==> t * scale > 127.0 * scale;
      assert t < -127.0 ==> t * scale < -127.0 * scale;
    }
  }

  /** What a block's largest magnitude allows an element to be off by. */
  function Tolerance(amax: real, eps: real): real { amax * (1.0 / 254.0 + eps) }

  /** With a stored scale within a relative eps of the exact one, every element of a Q8_0 row reads back
      within amax * (1/254 + eps) of what was written. */
  lemma Q8Error(f: KvFormat, x: Vec, i: nat, eps: real)
    requires f.dtype == Q8_0 && eps >= 0.0
    requires Abs(f.Stored(Scale(x, i / 32)) - Scale(x, i / 32)) <= Mul(eps, Scale(x, i / 32))
    ensures Abs(f.RoundTripAt(x, i) - At(x, i)) <= Tolerance(BlockAmax(x, i / 32), eps)
  {
    hide *;
    var amax, scale, stored, v, q :=
      BlockAmax(x, i / 32), Scale(x, i / 32), f.Stored(Scale(x, i / 32)), At(x, i), KvQuant(x, i);
    RoundTripQ8(f, x, i);
    if amax <= 0.0 {
      ZeroBlock(x, i, stored, eps);
      return;
    }
    QuantIsRounded(x, i);
    RoundNear(v / scale);
    ScaleOfAmax(x, i / 32);
    QuantStep(scale, v, v / scale, q as real);
    StoredStep(scale, stored, q as real, eps);
    TotalError(Mul(q as real, stored), Mul(q as real, scale), v, scale, amax, eps);
  }

  lemma ZeroBlock(x: Vec, i: nat, stored: real, eps: real)
    requires BlockAmax(x, i / 32) <= 0.0
    ensures Abs(Mul(KvQuant(x, i) as real, stored) - At(x, i)) <= Tolerance(BlockAmax(x, i / 32), eps)
  {
    AmaxBounds(x, 32 * (i / 32), 32 * (i / 32) + 32, i);
    assert BlockAmax(x, i / 32) == 0.0 && At(x, i) == 0.0;
    assert KvQuant(x, i) == 0;
  }

  lemma RoundTripQ8(f: KvFormat, x: Vec, i: nat)
    requires f.dtype == Q8_0
    ensures f.RoundTripAt(x, i) == Mul(KvQuant(x, i) as real, f.Stored(Scale(x, i / 32)))
  {
    hide KvQuant, Scale, Mul, KvFormat.Stored;
  }

  lemma ScaleOfAmax(x: Vec, block: nat)
    requires BlockAmax(x, block) > 0.0
    ensures Scale(x, block) == BlockAmax(x, block) / 127.0
  {}

  lemma TotalError(a: real, b: real, v: real, scale: real, amax: real, eps: real)
    requires Abs(a - b) <= 127.0 * Mul(eps, scale) && Abs(b - v) <= scale / 2.0 && scale == amax / 127.0
    ensures Abs(a - v) <= Tolerance(amax, eps)
  {
    assert 127.0 * (eps * scale) == eps * amax;
    assert amax * (1.0 / 254.0 + eps) == amax / 254.0 + eps * amax;
  }

  lemma QuantStep(scale: real, v: real, t: real, r: real)
    requires scale > 0.0 && t == v / scale && Abs(t - r) <= 0.5
    ensures Abs(Mul(r, scale) - v) <= scale / 2.0
  {
    var d, e := r - t, r * scale - v;
    assert e == d * scale by { assert t * scale == v; }
    if e >= 0.0 { MulLe(d, 0.5, scale); } else { MulLe(-d, 0.5, scale); }
  }

  lemma StoredStep(scale: real, stored: real, r: real, eps: real)
    requires -127.0 <= r <= 127.0 && Abs(stored - scale) <= Mul(eps, scale)
    ensures Abs(Mul(r, stored) - Mul(r, scale)) <= 127.0 * Mul(eps, scale)
  {
    hide Mul, Abs;
    SubMul(r, stored, scale);
    BoundedProduct(r, stored - scale, Mul(eps, scale));
  }

  lemma SubMul(r: real, a: real, b: real)
    ensures Mul(r, a) - Mul(r, b) == Mul(r, a - b)
  {}

  lemma BoundedProduct(r: real, d: real, e: real)
    requires -127.0 <= r <= 127.0 && Abs(d) <= e
    ensures Abs(Mul(r, d)) <= 127.0 * e
  {
    var p, q, m := Abs(r), Abs(d), Mul(r, d);
    assert Abs(m) == p * q by { AbsMul(r, d); }
    assert p * q <= 127.0 * q by { MulLe(p, 127.0, q); }
  }

  lemma MulLe(a: real, b: real, c: real)
    requires a <= b && c >= 0.0
    ensures a * c <= b * c
  {}

  // ---- Packing ----

  ghost predicate PackedByte(out: seq<Byte>, x: Vec, i: nat) {
    var at := 34 * (i / 32) + 2 + i % 32;
    at < |out| && out[at] == ByteOf(KvQuant(x, i))
  }

  ghost predicate PackedScale(f: KvFormat, out: seq<Byte>, x: Vec, block: nat) {
    34 * block + 34 <= |out| && (out[34 * block], out[34 * block + 1]) == f.encode(Scale(x, block))
  }

  method ScanScale(x: Vec, block: nat) returns (scale: real)
    requires 32 * block < |x|
    ensures scale == Scale(x, block)
  {
    var end := if 32 * block + 32 < |x| then 32 * block + 32 else |x|;
    var amax := 0.0;
    for i := 32 * block to end
      invariant amax == Amax(x, 32 * block, i)
    {
      amax := Max(amax, Abs(x[i]));
    }
    if end < 32 * block + 32 { AmaxPadded(x, 32 * block, end, 32 * block + 32); }
    scale := if amax > 0.0 then amax / 127.0 else 1.0;
  }

  /** One block: the scale, then a signed byte per element; bytes past the row's end stay as they are. */
  method PackBlock(f: KvFormat, x: Vec, block: nat, out: seq<Byte>) returns (packed: seq<Byte>)
    requires 32 * block < |x| && 34 * block + 34 <= |out|
    ensures |packed| == |out| && PackedScale(f, packed, x, block)
    ensures forall i :: 32 * block <= i < 32 * block + 32 && i < |x| ==> PackedByte(packed, x, i)
    ensures forall at :: 0 <= at < |out| && !(34 * block <= at < 34 * block + 34) ==> packed[at] == out[at]
  {
    hide Scale, KvQuant, Round;
    var scale := ScanScale(x, block);
    packed := out[34 * block := f.encode(scale).0][34 * block + 1 := f.encode(scale).1];
    var end := if 32 * block + 32 < |x| then 32 * block + 32 else |x|;
    for i := 32 * block to end
      invariant |packed| == |out| && PackedScale(f, packed, x, block)
      invariant forall j :: 32 * block <= j < i ==> PackedByte(packed, x, j)
      invariant forall at :: 0 <= at < |out| && !(34 * block <= at < 34 * block + 34) ==> packed[at] == out[at]
    {
      ModUnique(i, 32, block, i - 32 * block);
      QuantDef(x, i);
      var before := packed;
      packed := packed[34 * block + 2 + i - 32 * block := ByteOf(Clamp127(Round(x[i] / scale)))];
      forall j | 32 * block <= j < i + 1
        ensures PackedByte(packed, x, j)
      {
        ModUnique(j, 32, block, j - 32 * block);
        assert j < i ==> PackedByte(before, x, j);
      }
    }
  }

  lemma QuantDef(x: Vec, i: nat)
    requires i < |x|
    ensures KvQuant(x, i) == Clamp127(Round(x[i] / Scale(x, i / 32)))
  {}

  ghost predicate BlocksPacked(f: KvFormat, out: seq<Byte>, x: Vec, blocks: nat) {
    && (forall b :: 0 <= b < blocks ==> PackedScale(f, out, x, b))
    && (forall i :: 0 <= i < 32 * blocks && i < |x| ==> PackedByte(out, x, i))
  }

  method PackQ8(f: KvFormat, x: Vec, out: seq<Byte>) returns (packed: seq<Byte>)
    requires f.dtype == Q8_0 && |out| == f.BytesPerToken(|x|)
    ensures |packed| == |out| && BlocksPacked(f, packed, x, (|x| + 31) / 32)
  {
    hide Scale, KvQuant;
    packed := out;
    for block := 0 to (|x| + 31) / 32
      invariant |packed| == |out| && BlocksPacked(f, packed, x, block)
    {
      var before := packed;
      packed := PackBlock(f, x, block, packed);
      forall i | 0 <= i < 32 * block
        ensures PackedByte(packed, x, i)
      {
        assert PackedByte(before, x, i);
      }
      forall b | 0 <= b < block
        ensures PackedScale(f, packed, x, b)
      {
        assert PackedScale(f, before, x, b);
      }
    }
  }

  method PackF16(f: KvFormat, x: Vec, out: seq<Byte>) returns (packed: seq<Byte>)
    requires f.dtype == F16 && |out| == f.BytesPerToken(|x|)
    ensures |packed| == |out|
    ensures forall i :: 0 <= i < |x| ==> HalfPacked(f, packed, x, i)
  {
    packed := out;
    for i := 0 to |x|
      invariant |packed| == |out| && forall j :: 0 <= j < i ==> HalfPacked(f, packed, x, j)
    {
      var before := packed;
      packed := packed[2 * i := f.encode(x[i]).0][2 * i + 1 := f.encode(x[i]).1];
      forall j | 0 <= j < i + 1
        ensures HalfPacked(f, packed, x, j)
      {
        assert j < i ==> HalfPacked(f, before, x, j);
      }
    }
  }

  ghost predicate HalfPacked(f: KvFormat, out: seq<Byte>, x: Vec, i: nat)
    requires i < |x|
  {
    2 * i + 1 < |out| && (out[2 * i], out[2 * i + 1]) == f.encode(x[i])
  }

  /** `pack`: whatever the slice held, unpacking it gives the round trip of x. */
  method Pack(f: KvFormat, x: Vec, out: seq<Byte>) returns (packed: seq<Byte>)
    requires |out| == f.BytesPerToken(|x|)
    ensures |packed| == |out| && f.UnpackedRow(ReaderOf(packed), |x|) == f.RoundTrip(x)
  {
    hide Scale, KvQuant, Half;
    if f.dtype == F16 {
      packed := PackF16(f, x, out);
      forall i | 0 <= i < |x|
        ensures f.Unpacked(ReaderOf(packed), i) == f.RoundTripAt(x, i)
      {
        assert HalfPacked(f, packed, x, i);
      }
    } else {
      packed := PackQ8(f, x, out);
      forall i | 0 <= i < |x|
        ensures f.Unpacked(ReaderOf(packed), i) == f.RoundTripAt(x, i)
      {
        UnpackQ8(f, packed, x, i);
      }
    }
    assert f.UnpackedRow(ReaderOf(packed), |x|) == f.RoundTrip(x);
  }

  lemma UnpackQ8(f: KvFormat, packed: seq<Byte>, x: Vec, i: nat)
    requires f.dtype == Q8_0 && i < |x| && BlocksPacked(f, packed, x, (|x| + 31) / 32)
    ensures f.Unpacked(ReaderOf(packed), i) == f.RoundTripAt(x, i)
  {
    hide Scale, KvQuant, Half;
    assert PackedByte(packed, x, i);
    assert PackedScale(f, packed, x, i / 32);
  }

  // ---- The cache ----

  /** The key and the value of one position, as they read back. */
  datatype Cell = Cell(key: Vec, value: Vec)

  /** For every layer, its positions. */
  type Table = seq<seq<Cell>>

  /** The table after one write. */
  function Written(f: KvFormat, t: Table, layer: nat, pos: nat, k: Vec, v: Vec): (t': Table)
    requires layer < |t| && pos < |t[layer]|
    ensures |t'| == |t|
  {
    t[layer := t[layer][pos := Cell(f.RoundTrip(k), f.RoundTrip(v))]]
  }

  /** The keys of positions 0..n-1, one after the other. */
  function FlatKeys(cells: seq<Cell>): Vec {
    if cells == [] then [] else FlatKeys(cells[..|cells| - 1]) + cells[|cells| - 1].key
  }

  function FlatValues(cells: seq<Cell>): Vec {
    if cells == [] then [] else FlatValues(cells[..|cells| - 1]) + cells[|cells| - 1].value
  }

  lemma {:induction false} FlatLengths(cells: seq<Cell>, width: nat)
    requires forall p :: 0 <= p < |cells| ==> |cells[p].key| == |cells[p].value| == width
    ensures |FlatKeys(cells)| == |FlatValues(cells)| == |cells| * width
  {
    if cells != [] {
      var n := |cells| - 1;
      FlatLengths(cells[..n], width);
      assert (n + 1) * width == n * width + width;
    }
  }

  class KvCache {
    const format: KvFormat
    const layers: nat
    const kvDim: nat
    const maxSeq: nat
    var k: seq<seq<Byte>>
    var v: seq<seq<Byte>>

    function RowBytes(): nat { format.BytesPerToken(kvDim) }

    ghost predicate Valid()
      reads this
    {
      && |k| == |v| == layers
      && (forall l :: 0 <= l < layers ==> |k[l]| == maxSeq * RowBytes() && |v[l]| == maxSeq * RowBytes())
    }

    constructor (f: KvFormat, nLayers: nat, nKvHeads: nat, headDim: nat, maxSeqLen: nat)
      ensures Valid() && format == f && layers == nLayers && kvDim == nKvHeads * headDim && maxSeq == maxSeqLen
    {
      format, layers, kvDim, maxSeq := f, nLayers, nKvHeads * headDim, maxSeqLen;
      var size := maxSeqLen * f.BytesPerToken(nKvHeads * headDim);
      k, v := seq(nLayers, _ => seq(size, _ => 0)), seq(nLayers, _ => seq(size, _ => 0));
    }

    /** What reading position p of a layer's bytes gives. */
    function ReadRow(bytes: seq<Byte>, p: nat): (row: Vec)
      requires p < maxSeq && |bytes| == maxSeq * RowBytes()
      ensures |row| == kvDim
    {
      RowEnd(p, maxSeq, RowBytes());
      format.UnpackedRow(ReaderOf(bytes[p * RowBytes()..p * RowBytes() + RowBytes()]), kvDim)
    }

    function LayerCells(keys: seq<Byte>, values: seq<Byte>): (cells: seq<Cell>)
      requires |keys| == |values| == maxSeq * RowBytes()
      ensures |cells| == maxSeq
    {
      seq(maxSeq, p requires 0 <= p < maxSeq => Cell(ReadRow(keys, p), ReadRow(values, p)))
    }

    /** The cache as a plain table. */
    ghost function Contents(): (t: Table)
      requires Valid()
      reads this
      ensures |t| == layers && forall l :: 0 <= l < layers ==> |t[l]| == maxSeq
    {
      var keys, values := k, v;
      seq(layers, l requires 0 <= l < layers => LayerCells(keys[l], values[l]))
    }

    method PackRow(bytes: seq<Byte>, pos: nat, x: Vec) returns (bytes': seq<Byte>)
      requires pos < maxSeq && |bytes| == maxSeq * RowBytes() && |x| == kvDim
      ensures |bytes'| == |bytes|
      ensures forall p :: 0 <= p < maxSeq ==>
        ReadRow(bytes', p) == if p == pos then format.RoundTrip(x) else ReadRow(bytes, p)
    {
      hide KvFormat.BytesPerToken, KvFormat.UnpackedRow, KvFormat.RoundTrip;
      var w := RowBytes();
      RowEnd(pos, maxSeq, w);
      var row := Pack(format, x, bytes[pos * w..pos * w + w]);
      bytes' := bytes[..pos * w] + row + bytes[pos * w + w..];
      forall p | 0 <= p < maxSeq
        ensures ReadRow(bytes', p) == if p == pos then format.RoundTrip(x) else ReadRow(bytes, p)
      {
        RowEnd(p, maxSeq, w);
        if p != pos { Apart(p, pos, w); }
        SliceAfterWrite(bytes, pos * w, row, p * w);
      }
    }

    lemma SliceAfterWrite(bytes: seq<Byte>, at: nat, row: seq<Byte>, lo: nat)
      requires at + |row| <= |bytes| && lo + |row| <= |bytes|
      ensures var bytes' := bytes[..at] + row + bytes[at + |row|..];
        && (lo == at ==> bytes'[lo..lo + |row|] == row)
        && (lo + |row| <= at || at + |row| <= lo ==> bytes'[lo..lo + |row|] == bytes[lo..lo + |row|])
    {}

    method Write(layer: nat, pos: nat, key: Vec, value: Vec)
      requires Valid() && layer < layers && pos < maxSeq && |key| == |value| == kvDim
      modifies this
      ensures Valid() && Contents() == Written(format, old(Contents()), layer, pos, key, value)
    {
      hide KvCache.RowBytes, KvCache.ReadRow, KvFormat.RoundTrip;
      ghost var before := Contents();
      var keys := PackRow(k[layer], pos, key);
      var values := PackRow(v[layer], pos, value);
      ghost var cells := LayerCells(k[layer], v[layer])[pos := Cell(format.RoundTrip(key), format.RoundTrip(value))];
      assert LayerCells(keys, values) == cells;
      k, v := k[layer := keys], v[layer := values];
      assert Contents() == before[layer := cells];
    }

    /** `write_range` is `write`, once per position. */
    method WriteRange(layer: nat, posStart: nat, keys: Vec, values: Vec)
      requires Valid() && layer < layers && kvDim > 0 && |keys| == |values| && |keys| % kvDim == 0
      requires posStart + |keys| / kvDim <= maxSeq
      modifies this
      ensures Valid() && Contents() == WrittenRange(old(Contents()), layer, posStart, keys, values, |keys| / kvDim)
    {
      hide KvCache.Contents, KvFormat.RoundTrip, Written, Block;
      for p := 0 to |keys| / kvDim
        invariant Valid() && Contents() == WrittenRange(old(Contents()), layer, posStart, keys, values, p)
      {
        RowEnd(p, |keys| / kvDim, kvDim);
        Write(layer, posStart + p, Block(keys, kvDim, p), Block(values, kvDim, p));
      }
    }

    ghost function WrittenRange(t: Table, layer: nat, posStart: nat, keys: Vec, values: Vec, n: nat): (t': Table)
      requires layer < |t| && posStart + n <= |t[layer]| && kvDim > 0 && |keys| == |values| && n * kvDim <= |keys|
      ensures |t'| == |t| && |t'[layer]| == |t[layer]|
    {
      if n == 0 then t
      else
        RowEnd(n - 1, n, kvDim);
        Written(format, WrittenRange(t, layer, posStart, keys, values, n - 1), layer, posStart + n - 1,
                Block(keys, kvDim, n - 1), Block(values, kvDim, n - 1))
    }

    /** Everything up to and including pos, dequantised and flattened position by position. */
    method ReadUpTo(layer: nat, pos: nat) returns (keys: Vec, values: Vec)
      requires Valid() && layer < layers && pos < maxSeq
      ensures keys == FlatKeys(Contents()[layer][..pos + 1])
      ensures values == FlatValues(Contents()[layer][..pos + 1])
      ensures |keys| == |values| == (pos + 1) * kvDim
    {
      hide KvCache.RowBytes, KvFormat.UnpackedRow;
      ghost var cells := Contents()[layer];
      keys, values := [], [];
      for p := 0 to pos + 1
        invariant keys == FlatKeys(cells[..p]) && values == FlatValues(cells[..p])
      {
        assert cells[..p + 1][..p] == cells[..p];
        keys, values := keys + ReadRow(k[layer], p), values + ReadRow(v[layer], p);
      }
      FlatLengths(cells[..pos + 1], kvDim);
    }
  }

  // ---- Every sequence of writes ----

  datatype WriteOp = WriteOp(layer: nat, pos: nat, key: Vec, value: Vec)

  predicate OpsFit(ops: seq<WriteOp>, layers: nat, maxSeq: nat) {
    forall i :: 0 <= i < |ops| ==> ops[i].layer < layers && ops[i].pos < maxSeq
  }

  ghost function Replay(f: KvFormat, t: Table, ops: seq<WriteOp>, layers: nat, maxSeq: nat): (t': Table)
    requires OpsFit(ops, layers, maxSeq) && |t| == layers && forall l :: 0 <= l < layers ==> |t[l]| == maxSeq
    ensures |t'| == layers && forall l :: 0 <= l < layers ==> |t'[l]| == maxSeq
  {
    if ops == [] then t
    else
      var op := ops[|ops| - 1];
      Written(f, Replay(f, t, ops[..|ops| - 1], layers, maxSeq), op.layer, op.pos, op.key, op.value)
  }

  /** The last operation on (layer, pos), or -1. */
  function LastWrite(ops: seq<WriteOp>, layer: nat, pos: nat): (i: int)
    ensures -1 <= i < |ops|
    ensures i >= 0 ==> ops[i].layer == layer && ops[i].pos == pos
    ensures forall j :: i < j < |ops| ==> ops[j].layer != layer || ops[j].pos != pos
  {
    if ops == [] then -1
    else if ops[|ops| - 1].layer == layer && ops[|ops| - 1].pos == pos then |ops| - 1
    else LastWrite(ops[..|ops| - 1], layer, pos)
  }

  /** After any sequence of writes a position holds the round trip of the last vectors written there,
      and whatever it held before if there were none. */
  lemma {:induction false} LastWriteWins(f: KvFormat, t: Table, ops: seq<WriteOp>, layers: nat, maxSeq: nat,
                                         layer: nat, pos: nat)
    requires OpsFit(ops, layers, maxSeq) && |t| == layers && forall l :: 0 <= l < layers ==> |t[l]| == maxSeq
    requires layer < layers && pos < maxSeq
    ensures var i := LastWrite(ops, layer, pos);
      Replay(f, t, ops, layers, maxSeq)[layer][pos]
        == if i < 0 then t[layer][pos] else Cell(f.RoundTrip(ops[i].key), f.RoundTrip(ops[i].value))
  {
    hide KvFormat.RoundTrip;
    if ops != [] {
      LastWriteWins(f, t, ops[..|ops| - 1], layers, maxSeq, layer, pos);
    }
  }

  // ---- The GPU's blocks ----

  /** The quantised byte of an element, biased by 128, under the device's rounding. */
  function Biased(x: Vec, i: nat, round: real -> int): Byte {
    Clamp127(round(At(x, i) / Scale(x, i / 32))) + 128
  }

  function WordBytes(x: Vec, block: nat, j: nat, round: real -> int): (chunk: seq<Byte>)
    ensures |chunk| == 4
  {
    var at := 32 * block + 4 * j;
    [Biased(x, at, round), Biased(x, at + 1, round), Biased(x, at + 2, round), Biased(x, at + 3, round)]
  }

  /** Word j of the eight quant words of block `block`: four consecutive elements' bytes. */
  function QuantWord(x: Vec, block: nat, j: nat, round: real -> int): Word {
    ChunkWord(WordBytes(x, block, j, round))
  }

  /** A 9-word block: the exact scale, and the quant words. */
  datatype GpuBlock = GpuBlock(scale: real, words: seq<Word>)

  function WriteBlock(x: Vec, block: nat, round: real -> int): GpuBlock {
    GpuBlock(Scale(x, block), seq(8, j requires 0 <= j < 8 => QuantWord(x, block, j, round)))
  }

  /** `dequant_kv_q8_0` for the element at position `lane` of the block. */
  function Dequant(b: GpuBlock, lane: nat): real
    requires lane < 32 && |b.words| == 8
  {
    ((WordByte(b.words[lane / 4], lane % 4) as int - 128) as real) * b.scale
  }

  /** The device rounds to a nearest integer; which one at a tie is its own affair. */
  ghost predicate Nearest(round: real -> int) {
    forall a :: Abs(a - round(a) as real) <= 0.5
  }

  predicate IsTie(a: real) { Abs(a - Round(a) as real) == 0.5 }

  /** The device's blocks decode to the very integers the CPU quantises to, on every element that is not
      an exact tie, times the exact scale. */
  lemma GpuDecodes(x: Vec, block: nat, lane: nat, round: real -> int)
    requires lane < 32 && Nearest(round)
    ensures var i := 32 * block + lane; var q := Clamp127(round(At(x, i) / Scale(x, block)));
      && Dequant(WriteBlock(x, block, round), lane) == (q as real) * Scale(x, block)
      && (!IsTie(At(x, i) / Scale(x, block)) ==> q == KvQuant(x, i))
  {
    hide Scale, Round, Biased, Dequant, WriteBlock, Clamp127, Nearest;
    var i := 32 * block + lane;
    ModUnique(i, 32, block, lane);
    BiasedDecodes(x, block, lane, round);
    BiasedIs(x, i, round);
    NearestUnique(At(x, i) / Scale(x, block), round);
    KvQuantDef(x, i);
  }

  lemma BiasedIs(x: Vec, i: nat, round: real -> int)
    ensures Biased(x, i, round) as int - 128 == Clamp127(round(At(x, i) / Scale(x, i / 32)))
  {}

  lemma KvQuantDef(x: Vec, i: nat)
    ensures KvQuant(x, i) == Clamp127(Round(At(x, i) / Scale(x, i / 32)))
  {}

  lemma BiasedDecodes(x: Vec, block: nat, lane: nat, round: real -> int)
    requires lane < 32
    ensures Dequant(WriteBlock(x, block, round), lane)
      == ((Biased(x, 32 * block + lane, round) as int - 128) as real) * Scale(x, block)
  {
    hide Scale, WordByte, ChunkWord, Biased;
    var j, c := lane / 4, lane % 4;
    var chunk := WordBytes(x, block, j, round);
    ChunkRoundTrip(chunk, c);
    assert chunk[c] == Biased(x, 32 * block + lane, round);
  }

  lemma NearestUnique(a: real, round: real -> int)
    requires Nearest(round)
    ensures !IsTie(a) ==> round(a) == Round(a)
  {
    hide Round;
    RoundNear(a);
    var n, m := round(a), Round(a);
    assert Abs(a - n as real) <= 0.5 && Abs(a - m as real) <= 0.5;
    assert n > m ==> (n as real) >= (m as real) + 1.0;
    assert n < m ==> (n as real) <= (m as real) - 1.0;
  }

  /** What a row of the device's cache reads back as: half-precision numbers, or blocks with an exact scale. */
  function DeviceRow(f: KvFormat, round: real -> int, x: Vec): (row: Vec)
    ensures |row| == |x|
  {
    match f.dtype
    case F16 => seq(|x|, i requires 0 <= i < |x| => f.Stored(x[i]))
    case Q8_0 => seq(|x|, i requires 0 <= i < |x| => Dequant(WriteBlock(x, i / 32, round), i % 32))
  }

  /** Every scale of the row is a half-precision number. */
  predicate ScalesExact(f: KvFormat, x: Vec) {
    forall b :: 0 <= b < (|x| + 31) / 32 ==> BlockAmax(x, b) > 0.0 ==> f.Stored(Scale(x, b)) == Scale(x, b)
  }

  /** The device rounds every element of the row to the integer the CPU does. */
  predicate RoundsAlike(x: Vec, round: real -> int) {
    forall i :: 0 <= i < |x| ==> DeviceQuant(x, i, round) == KvQuant(x, i)
  }

  function DeviceQuant(x: Vec, i: nat, round: real -> int): int { Clamp127(round(At(x, i) / Scale(x, i / 32))) }

  /** The device's half-precision cache reads back what the CPU's does. */
  lemma HalfRowsAgree(f: KvFormat, round: real -> int, x: Vec)
    requires f.dtype == F16
    ensures DeviceRow(f, round, x) == f.RoundTrip(x)
  {}

  /** The device's Q8_0 cache, which keeps its scales exactly, reads back what the CPU's does exactly when every scale
      is a half-precision number and every element is rounded alike (as it is off ties). */
  lemma BlockRowsAgree(f: KvFormat, round: real -> int, x: Vec)
    requires f.dtype == Q8_0 && Nearest(round)
    ensures DeviceRow(f, round, x) == f.RoundTrip(x) <==> ScalesExact(f, x) && RoundsAlike(x, round)
  {
    hide Scale, KvQuant, DeviceQuant, KvFormat.Stored, Dequant, WriteBlock, BlockAmax, KvFormat.RoundTripAt, Nearest;
    if ScalesExact(f, x) && RoundsAlike(x, round) {
      forall i | 0 <= i < |x|
        ensures DeviceRow(f, round, x)[i] == f.RoundTrip(x)[i]
      {
        CellOfRow(f, round, x, i);
        assert DeviceQuant(x, i, round) == KvQuant(x, i);
        SameCell(f, x, i);
      }
    }
    if DeviceRow(f, round, x) == f.RoundTrip(x) {
      forall b | 0 <= b < (|x| + 31) / 32
        ensures BlockAmax(x, b) > 0.0 ==> f.Stored(Scale(x, b)) == Scale(x, b)
      {
        if BlockAmax(x, b) > 0.0 {
          var i := ExtremeOfBlock(x, b);
          CellOfRow(f, round, x, i);
          assert DeviceRow(f, round, x)[i] == f.RoundTrip(x)[i];
          ExtremeTells(f, round, x, b, i);
        }
      }
      forall i | 0 <= i < |x|
        ensures DeviceQuant(x, i, round) == KvQuant(x, i)
      {
        CellOfRow(f, round, x, i);
        assert DeviceRow(f, round, x)[i] == f.RoundTrip(x)[i];
        QuantTells(f, round, x, i);
      }
    }
  }

  lemma CellOfRow(f: KvFormat, round: real -> int, x: Vec, i: nat)
    requires f.dtype == Q8_0 && Nearest(round) && i < |x|
    ensures DeviceRow(f, round, x)[i] == Mul(DeviceQuant(x, i, round) as real, Scale(x, i / 32))
    ensures f.RoundTrip(x)[i] == Mul(KvQuant(x, i) as real, f.Stored(Scale(x, i / 32)))
  {
    hide Scale, KvQuant, KvFormat.Stored, Dequant, WriteBlock, Nearest, Clamp127;
    GpuDecodes(x, i / 32, i % 32, round);
    RoundTripQ8(f, x, i);
    assert 32 * (i / 32) + i % 32 == i;
  }

  /** In a block of zeros nothing depends on the scale. */
  lemma SameCell(f: KvFormat, x: Vec, i: nat)
    requires i < |x| && ScalesExact(f, x)
    ensures Mul(KvQuant(x, i) as real, Scale(x, i / 32)) == Mul(KvQuant(x, i) as real, f.Stored(Scale(x, i / 32)))
  {
    hide KvQuant, KvFormat.Stored;
    if BlockAmax(x, i / 32) > 0.0 {
      assert f.Stored(Scale(x, i / 32)) == Scale(x, i / 32);
    } else {
      ZeroQuant(x, i);
    }
  }

  lemma ZeroQuant(x: Vec, i: nat)
    requires BlockAmax(x, i / 32) <= 0.0
    ensures At(x, i) == 0.0 && KvQuant(x, i) == 0
  {
    AmaxBounds(x, 32 * (i / 32), 32 * (i / 32) + 32, i);
  }

  lemma {:induction false} AmaxReached(x: Vec, lo: nat, hi: nat) returns (i: nat)
    requires lo <= hi && Amax(x, lo, hi) > 0.0
    ensures lo <= i < hi && i < |x| && Abs(At(x, i)) == Amax(x, lo, hi)
  {
    if Amax(x, lo, hi) == Abs(At(x, hi - 1)) { i := hi - 1; } else { i := AmaxReached(x, lo, hi - 1); }
  }

  /** An element of a block's largest magnitude. */
  lemma ExtremeOfBlock(x: Vec, b: nat) returns (i: nat)
    requires BlockAmax(x, b) > 0.0
    ensures i < |x| && i / 32 == b && Abs(At(x, i)) == BlockAmax(x, b)
  {
    i := AmaxReached(x, 32 * b, 32 * b + 32);
  }

  /** It quantises to 127 or -127 on either side, so it tells the scales apart. */
  lemma ExtremeTells(f: KvFormat, round: real -> int, x: Vec, b: nat, i: nat)
    requires Nearest(round) && i < |x| && i / 32 == b && BlockAmax(x, b) > 0.0 && Abs(At(x, i)) == BlockAmax(x, b)
    requires Mul(DeviceQuant(x, i, round) as real, Scale(x, b)) == Mul(KvQuant(x, i) as real, f.Stored(Scale(x, b)))
    ensures f.Stored(Scale(x, b)) == Scale(x, b)
  {
    hide KvFormat.Stored, BlockAmax;
    var amax, t := BlockAmax(x, b), At(x, i) / Scale(x, b);
    assert t == 127.0 || t == -127.0 by { ExtremeRatio(At(x, i), amax); }
    RoundsWhole(round, if t == 127.0 then 127 else -127);
    SameFactor(KvQuant(x, i), Scale(x, b), f.Stored(Scale(x, b)));
  }

  lemma ExtremeRatio(v: real, amax: real)
    requires amax > 0.0 && Abs(v) == amax
    ensures v / (amax / 127.0) == 127.0 || v / (amax / 127.0) == -127.0
  {
    var s := amax / 127.0;
    assert 127.0 * s == amax;
    assert v == 127.0 * s || v == -127.0 * s;
  }

  /** Nearest rounding leaves whole numbers alone. */
  lemma RoundsWhole(round: real -> int, n: int)
    requires Nearest(round)
    ensures round(n as real) == n && Round(n as real) == n
  {
    var m := round(n as real);
    assert Abs(n as real - m as real) <= 0.5;
  }

  lemma SameFactor(q: int, a: real, b: real)
    requires q != 0 && Mul(q as real, a) == Mul(q as real, b)
    ensures a == b
  {
    var r := q as real;
    Distribute(r, a, b);
    NoDivisors(r, a - b);
  }

  lemma Distribute(r: real, a: real, b: real)
    ensures Mul(r, a) - Mul(r, b) == r * (a - b)
  {}

  lemma NoDivisors(a: real, b: real)
    requires a * b == 0.0
    ensures a == 0.0 || b == 0.0
  {}

  lemma QuantTells(f: KvFormat, round: real -> int, x: Vec, i: nat)
    requires Nearest(round) && i < |x|
    requires BlockAmax(x, i / 32) > 0.0 ==> f.Stored(Scale(x, i / 32)) == Scale(x, i / 32)
    requires Mul(DeviceQuant(x, i, round) as real, Scale(x, i / 32))
      == Mul(KvQuant(x, i) as real, f.Stored(Scale(x, i / 32)))
    ensures DeviceQuant(x, i, round) == KvQuant(x, i)
  {
    hide KvFormat.Stored, BlockAmax, Mul;
    if BlockAmax(x, i / 32) > 0.0 {
      hide DeviceQuant, KvQuant, Scale;
      SameQuant(DeviceQuant(x, i, round), KvQuant(x, i), Scale(x, i / 32));
    } else {
      ZeroQuant(x, i);
      RoundsWhole(round, 0);
      assert At(x, i) / Scale(x, i / 32) == 0.0;
    }
  }

  lemma SameQuant(q: int, p: int, s: real)
    requires s > 0.0 && Mul(q as real, s) == Mul(p as real, s)
    ensures q == p
  {
    var a, b := q as real, p as real;
    assert Mul(a, s) - Mul(b, s) == (a - b) * s;
    NoDivisors(a - b, s);
  }

  // ---- A row that the two caches keep differently ----

  /** A scale that is stored exactly is a whole number of the least half-precision units. */
  lemma StoredIsWhole(f: KvFormat, a: real) returns (units: int)
    ensures f.Stored(a) * Pow2(24) == units as real
  {
    hide Half, Pow2;
    units := HalfIsWhole(f.encode(a).0, f.encode(a).1);
  }

  /** Its scale is a third, which no half-precision number is. */
  const THIRDS: Vec := [127.0 / 3.0]

  lemma ScaleOfThirds()
    ensures BlockAmax(THIRDS, 0) == 127.0 / 3.0 && Scale(THIRDS, 0) == 1.0 / 3.0
  {
    AmaxPadded(THIRDS, 0, 1, 32);
  }

  /** Whatever encoder stores the scale and however the device rounds, this row reads back differently from the
      device's Q8_0 cache and from the CPU's. */
  lemma ThirdsDiffer(f: KvFormat, round: real -> int)
    requires f.dtype == Q8_0 && Nearest(round)
    ensures DeviceRow(f, round, THIRDS) != f.RoundTrip(THIRDS)
  {
    hide KvFormat.Stored, DeviceRow, KvFormat.RoundTrip, Nearest, RoundsAlike, BlockAmax, Scale;
    BlockRowsAgree(f, round, THIRDS);
    ScaleOfThirds();
    var units := StoredIsWhole(f, Scale(THIRDS, 0));
    UnitsPerOne();
    assert f.Stored(Scale(THIRDS, 0)) == Scale(THIRDS, 0) ==> 3.0 * (units as real) == 16777216.0;
    assert 3 * units != 16777216;
  }
}
