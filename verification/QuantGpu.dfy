/** Weights on the GPU: rows of bytes packed into 32-bit words, read back by the matmul kernels,
    whose 64 lanes share a row's blocks by striding. */
module QuantGpu {
  import opened Sums
  import opened Striding
  import opened Bytes
  import opened QuantValues

  type Word = w: int | 0 <= w < 0x1_0000_0000

  // ---- Packing ----

  function ByteUnit(j: nat): (u: nat)
    requires j < 4
    ensures u > 0
  {
    if j == 0 then 1 else if j == 1 then 256 else if j == 2 then 65536 else 16777216
  }

  function ByteOr0(chunk: seq<Byte>, j: nat): (n: int)
    ensures 0 <= n < 256
  {
    if j < |chunk| then chunk[j] else 0
  }

  /** A chunk of up to four bytes, each shifted into its place. */
  function ChunkWord(chunk: seq<Byte>): Word
    requires |chunk| <= 4
  {
    ByteOr0(chunk, 0) + ByteOr0(chunk, 1) * 256 + ByteOr0(chunk, 2) * 65536 + ByteOr0(chunk, 3) * 16777216
  }

  function WordByte(w: Word, j: nat): Byte
    requires j < 4
  {
    w / ByteUnit(j) % 256
  }

  lemma ChunkRoundTrip(chunk: seq<Byte>, j: nat)
    requires |chunk| <= 4 && j < |chunk|
    ensures WordByte(ChunkWord(chunk), j) == chunk[j]
  {
    var a, b, c, d := ByteOr0(chunk, 0), ByteOr0(chunk, 1), ByteOr0(chunk, 2), ByteOr0(chunk, 3);
    var w := ChunkWord(chunk);
    ModUnique(w, 256, b + 256 * (c + 256 * d), a);
    ModUnique(b + 256 * (c + 256 * d), 256, c + 256 * d, b);
    ModUnique(c + 256 * d, 256, d, c);
    ModUnique(w, 65536, c + 256 * d, a + 256 * b);
    ModUnique(w, 16777216, d, a + 256 * b + 65536 * c);
    ModUnique(d, 256, 0, d);
  }

  /** Chunk i of a row: four bytes, fewer at the end. */
  function Chunk(row: seq<Byte>, i: nat): (chunk: seq<Byte>)
    requires 4 * i < |row|
    ensures |chunk| <= 4
  {
    if 4 * i + 4 <= |row| then row[4 * i..4 * i + 4] else row[4 * i..]
  }

  function RowWord(row: seq<Byte>, i: nat): Word
    requires 4 * i < |row|
  {
    ChunkWord(Chunk(row, i))
  }

  ghost predicate IsPacked(packed: seq<Word>, w: seq<Byte>, rowBytes: nat, rows: nat, rowWords: nat) {
    && |packed| == rows * rowWords && rowBytes * rows <= |w| && rowWords == (rowBytes + 3) / 4
    && forall r, i :: 0 <= r < rows && 0 <= i < rowWords ==> PackedAt(packed, w, rowBytes, rowWords, r, i)
  }

  ghost predicate PackedAt(packed: seq<Word>, w: seq<Byte>, rowBytes: nat, rowWords: nat, r: nat, i: nat) {
    && 0 <= r * rowWords + i < |packed| && 4 * i < rowBytes && 0 <= r * rowBytes && r * rowBytes + rowBytes <= |w|
    && packed[r * rowWords + i] == RowWord(w[r * rowBytes..r * rowBytes + rowBytes], i)
  }

  method PackBytesToU32(w: seq<Byte>, rowBytes: nat, rows: nat, rowWords: nat) returns (packed: seq<Word>)
    requires rowBytes * rows <= |w| && rowWords == (rowBytes + 3) / 4
    ensures IsPacked(packed, w, rowBytes, rows, rowWords)
  {
    hide RowWord, ByteUnit;
    packed := [];
    for r := 0 to rows
      invariant |packed| == r * rowWords
      invariant forall q, i :: 0 <= q < r && 0 <= i < rowWords ==> PackedAt(packed, w, rowBytes, rowWords, q, i)
    {
      RowInside(rowBytes, rows, r, |w|);
      var row := w[r * rowBytes..r * rowBytes + rowBytes];
      var words := PackRow(row, rowWords);
      var packed0 := packed;
      packed := packed + words;
      forall q, i | 0 <= q < r + 1 && 0 <= i < rowWords
        ensures PackedAt(packed, w, rowBytes, rowWords, q, i)
      {
        if q < r {
          assert PackedAt(packed0, w, rowBytes, rowWords, q, i);
        } else {
          assert packed[r * rowWords + i] == words[i];
        }
      }
      assert (r + 1) * rowWords == r * rowWords + rowWords;
    }
  }

  lemma RowInside(rowBytes: nat, rows: nat, r: nat, size: nat)
    requires r < rows && rowBytes * rows <= size
    ensures 0 <= r * rowBytes && r * rowBytes + rowBytes <= size
  {
    assert (r + 1) * rowBytes <= rows * rowBytes;
  }

  method PackRow(row: seq<Byte>, rowWords: nat) returns (words: seq<Word>)
    requires rowWords == (|row| + 3) / 4
    ensures |words| == rowWords && forall i :: 0 <= i < rowWords ==> words[i] == RowWord(row, i)
  {
    words := [];
    for i := 0 to rowWords
      invariant |words| == i && forall k :: 0 <= k < i ==> words[k] == RowWord(row, k)
    {
      var chunk := Chunk(row, i);
      var word := 0;
      for j := 0 to |chunk|
        invariant word == ChunkWord(chunk[..j])
      {
        word := word + chunk[j] * ByteUnit(j);
      }
      assert chunk[..|chunk|] == chunk;
      words := words + [word];
    }
  }

  /** `read_byte_u32`. */
  function ReadByte(w: seq<Word>, at: int): Byte {
    if 0 <= at / 4 < |w| then WordByte(w[at / 4], at % 4) else 0
  }

  /** The bytes of row r as the kernels see them. */
  function RowReader(w: seq<Word>, r: nat, rowWords: nat): Reader {
    (i: int) => ReadByte(w, r * rowWords * 4 + i)
  }

  /** Packing and reading undo each other on every byte of every row. */
  lemma PackedReads(packed: seq<Word>, w: seq<Byte>, rowBytes: nat, rows: nat, rowWords: nat, r: nat, i: nat)
    requires IsPacked(packed, w, rowBytes, rows, rowWords) && r < rows && i < rowBytes
    ensures 0 <= r * rowBytes && r * rowBytes + rowBytes <= |w|
    ensures RowReader(packed, r, rowWords)(i) == w[r * rowBytes + i]
  {
    hide RowWord, ReadByte;
    RowInside(rowBytes, rows, r, |w|);
    assert PackedAt(packed, w, rowBytes, rowWords, r, i / 4);
    var row, start := w[r * rowBytes..r * rowBytes + rowBytes], r * rowWords;
    PackedByte(packed, row, start, i);
    assert row[i] == w[r * rowBytes + i];
  }

  lemma PackedByte(packed: seq<Word>, row: seq<Byte>, start: nat, i: nat)
    requires i < |row| && start + i / 4 < |packed| && packed[start + i / 4] == RowWord(row, i / 4)
    ensures ReadByte(packed, start * 4 + i) == row[i]
  {
    hide ChunkWord, WordByte;
    WordOfByte(packed, start, i);
    ChunkRoundTrip(Chunk(row, i / 4), i % 4);
    assert Chunk(row, i / 4)[i % 4] == row[4 * (i / 4) + i % 4];
  }

  lemma WordOfByte(packed: seq<Word>, start: nat, i: nat)
    requires start + i / 4 < |packed|
    ensures ReadByte(packed, start * 4 + i) == WordByte(packed[start + i / 4], i % 4)
  {
    hide WordByte;
    ModUnique(start * 4 + i, 4, start + i / 4, i % 4);
  }

  /** Reading a whole word and cutting a byte out of it is reading the byte. */
  lemma WordwiseRead(w: seq<Word>, at: nat, j: nat)
    requires at % 4 == 0 && j < 4 && at / 4 < |w|
    ensures ReadByte(w, at + j) == WordByte(w[at / 4], j)
  {
    ModUnique(at + j, 4, at / 4, j);
  }

  // ---- Rows read through the packing ----

  lemma Q8OfBytes(b1: Reader, b2: Reader, block: nat, l: nat)
    requires l < 32 && forall k :: 34 * block <= k < 34 * block + 34 ==> b1(k) == b2(k)
    ensures Q8Value(b1, block, l) == Q8Value(b2, block, l)
  {
    hide Half, I8, Scaled;
  }

  lemma ScaleMinOfBytes(b1: Reader, b2: Reader, at: int, j: nat)
    requires j < 8 && forall k :: at <= k < at + 12 ==> b1(k) == b2(k)
    ensures ScaleMin(b1, at, j) == ScaleMin(b2, at, j)
  {}

  lemma Q4OfBytes(b1: Reader, b2: Reader, block: nat, sub: nat, l: nat)
    requires sub < 8 && l < 32 && forall k :: 144 * block <= k < 144 * block + 144 ==> b1(k) == b2(k)
    ensures Q4Value(b1, block, sub, l) == Q4Value(b2, block, sub, l)
  {
    hide Half, ScaleMin, Low4, High4, Affine;
    ScaleMinOfBytes(b1, b2, 144 * block + 4, sub);
  }

  lemma Q5OfBytes(b1: Reader, b2: Reader, block: nat, sub: nat, l: nat)
    requires sub < 8 && l < 32 && forall k :: 176 * block <= k < 176 * block + 176 ==> b1(k) == b2(k)
    ensures Q5Value(b1, block, sub, l) == Q5Value(b2, block, sub, l)
  {
    hide Half, ScaleMin, Low4, High4, Affine, Bit;
    ScaleMinOfBytes(b1, b2, 176 * block + 4, sub);
  }

  lemma Q6OfBytes(b1: Reader, b2: Reader, block: nat, h: nat, g: nat, l: nat)
    requires h < 2 && g < 4 && l < 32 && forall k :: 210 * block <= k < 210 * block + 210 ==> b1(k) == b2(k)
    ensures Q6Value(b1, block, h, g, l) == Q6Value(b2, block, h, g, l)
  {
    hide Half, Low4, High4, Scaled, I8, TwoTo;
    assert l / 16 + 2 * g < 8;
  }

  /** A row's values depend only on its own bytes. */
  lemma ValueOfBytes(format: Format, b1: Reader, b2: Reader, n: nat, i: nat)
    requires i < n && forall k :: 0 <= k < format.RowBytes(n) ==> b1(k) == b2(k)
    ensures Value(format, b1, i) == Value(format, b2, i)
  {
    hide Q8Value, Q4Value, Q5Value, Q6Value;
    BlocksFit(n, i);
    match format
    case Q8_0 => Q8OfBytes(b1, b2, i / 32, i % 32);
    case Q4_K => Q4OfBytes(b1, b2, i / 256, i % 256 / 32, i % 32);
    case Q5_K => Q5OfBytes(b1, b2, i / 256, i % 256 / 32, i % 32);
    case Q6_K => Q6OfBytes(b1, b2, i / 256, i % 256 / 128, i % 128 / 32, i % 32);
  }

  lemma BlocksFit(n: nat, i: nat)
    requires i < n
    ensures i / 32 + 1 <= (n + 31) / 32 && i / 256 + 1 <= (n + 255) / 256
  {}

  /** So the dot through the packed words is the dot with the file's row. */
  lemma PackedDot(format: Format, packed: seq<Word>, w: seq<Byte>, rows: nat, rowWords: nat, r: nat, x: Vec)
    requires IsPacked(packed, w, format.RowBytes(|x|), rows, rowWords) && r < rows
    ensures 0 <= r * format.RowBytes(|x|) <= |w|
    ensures DotRow(format, RowReader(packed, r, rowWords), x)
      == DotRow(format, ReaderOf(w[r * format.RowBytes(|x|)..]), x)
  {
    hide Value, RowReader, IsPacked, Sum;
    var rowBytes := format.RowBytes(|x|);
    RowStart(packed, w, rowBytes, rows, rowWords, r);
    var b1, b2 := RowReader(packed, r, rowWords), ReaderOf(w[r * rowBytes..]);
    forall k | 0 <= k < rowBytes
      ensures b1(k) == b2(k)
    {
      PackedReads(packed, w, rowBytes, rows, rowWords, r, k);
    }
    forall i | 0 <= i < |x|
      ensures Term(format, b1, x, i) == Term(format, b2, x, i)
    {
      ValueOfBytes(format, b1, b2, |x|, i);
    }
    SumEq(|x|, i => Term(format, b1, x, i), i => Term(format, b2, x, i));
  }

  lemma RowStart(packed: seq<Word>, w: seq<Byte>, rowBytes: nat, rows: nat, rowWords: nat, r: nat)
    requires IsPacked(packed, w, rowBytes, rows, rowWords) && r < rows
    ensures 0 <= r * rowBytes && r * rowBytes + rowBytes <= |w|
  {
    RowInside(rowBytes, rows, r, |w|);
  }
}
