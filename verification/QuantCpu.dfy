/** The CPU row decoders and the fused dot products that never materialise a row. */
module QuantCpu {
  import opened Sums
  import opened Bytes
  import opened Errors
  import opened QuantValues

  function Values(format: Format, b: Reader): int -> real {
    (i: int) => if i < 0 then 0.0 else Value(format, b, i)
  }

  /** The first k elements of `out` are decoded. */
  ghost predicate DecodedTo(out: array<real>, v: int -> real, k: int)
    reads out
  {
    DecodedOn(out, v, 0, k)
  }

  ghost predicate DecodedOn(out: array<real>, v: int -> real, lo: nat, hi: int)
    reads out
  {
    hi <= out.Length && forall i :: lo <= i < hi ==> out[i] == v(i)
  }

  lemma WholeRow(format: Format, b: Reader, out: seq<real>, n: nat)
    requires n <= |out| && forall i :: 0 <= i < n ==> out[i] == Values(format, b)(i)
    ensures out[..n] == Decoded(format, b, n)
  {}

  // ---- Decoders ----

  /** The loop over one group of 32 quants that share a scale and a minimum. */
  method PutGroup(out: array<real>, at: nat, d: real, m: real, q: seq<int>, ghost v: int -> real)
    requires |q| == 32 && at + 32 <= out.Length && DecodedTo(out, v, at)
    requires forall l :: 0 <= l < 32 ==> v(at + l) == Mul(d, q[l] as real) - m
    modifies out
    ensures DecodedTo(out, v, at + 32)
  {
    for l := 0 to 32
      invariant DecodedTo(out, v, at + l)
    {
      out[at + l] := Mul(d, q[l] as real) - m;
    }
  }

  function LowQuants(bytes: seq<Byte>): (q: seq<int>)
    ensures |q| == |bytes|
  {
    seq(|bytes|, l requires 0 <= l < |bytes| => Low4(bytes[l]))
  }

  function HighQuants(bytes: seq<Byte>): (q: seq<int>)
    ensures |q| == |bytes|
  {
    seq(|bytes|, l requires 0 <= l < |bytes| => High4(bytes[l]))
  }

  method DequantQ4K(data: seq<Byte>, n: nat) returns (r: Result<Vec>)
    ensures r.Success? <==> Q4_K.RowBytes(n) <= |data|
    ensures r.Success? ==> r.value == Decoded(Q4_K, ReaderOf(data), n)
  {
    var blocks := (n + 255) / 256;
    if |data| < blocks * 144 { return Failure(BackendError); }
    var b := ReaderOf(data);
    var out := new real[blocks * 256];
    ghost var v := Values(Q4_K, b);
    for block := 0 to blocks
      invariant DecodedTo(out, v, 256 * block)
    {
      Q4Block(data, block, out, v);
    }
    WholeRow(Q4_K, b, out[..], n);
    return Success(out[..n]);
  }

  /** Sub-blocks sub and sub + 1 are the low and high nibbles of one 32-byte window. */
  lemma WindowNibbles(data: seq<Byte>, at: nat, sub: nat, qs: seq<Byte>, l: nat)
    requires at + sub / 2 * 32 + 32 <= |data| && l < 32
    requires qs == data[at + sub / 2 * 32..at + sub / 2 * 32 + 32]
    ensures Nibble(ReaderOf(data), at, sub, l) == (if sub % 2 == 0 then LowQuants(qs) else HighQuants(qs))[l]
  {
    assert qs[l] == data[at + sub / 2 * 32 + l];
  }

  lemma Q4Element(data: seq<Byte>, block: nat, sub: nat, l: nat)
    requires sub < 8 && l < 32
    ensures Values(Q4_K, ReaderOf(data))(256 * block + 32 * sub + l) == Q4Value(ReaderOf(data), block, sub, l)
  {
    hide Q4Value;
    SubBlockIndex(block, sub, l);
  }

  lemma Q4Group(data: seq<Byte>, block: nat, sub: nat, qs: seq<Byte>, q: seq<int>, v: int -> real, d: real, m: real)
    requires v == Values(Q4_K, ReaderOf(data)) && sub < 8 && 144 * (block + 1) <= |data|
    requires var at := 144 * block + 16 + sub / 2 * 32; qs == data[at..at + 32]
    requires q == if sub % 2 == 0 then LowQuants(qs) else HighQuants(qs)
    requires var (scale, min) := ScaleMin(ReaderOf(data), 144 * block + 4, sub);
      && d == Mul(HalfAt(ReaderOf(data), 144 * block), scale as real)
      && m == Mul(HalfAt(ReaderOf(data), 144 * block + 2), min as real)
    ensures forall l :: 0 <= l < 32 ==> v(256 * block + 32 * sub + l) == Mul(d, q[l] as real) - m
  {
    hide ScaleMin, Half, Low4, High4, Mul, Value;
    forall l | 0 <= l < 32
      ensures v(256 * block + 32 * sub + l) == Mul(d, q[l] as real) - m
    {
      Q4Element(data, block, sub, l);
      WindowNibbles(data, 144 * block + 16, sub, qs, l);
    }
  }

  /** One 256-element block: four groups of 64, low nibbles then high nibbles of the same 32 bytes. */
  method Q4Block(data: seq<Byte>, block: nat, out: array<real>, ghost v: int -> real)
    requires 144 * (block + 1) <= |data| && 256 * (block + 1) <= out.Length
    requires v == Values(Q4_K, ReaderOf(data)) && DecodedTo(out, v, 256 * block)
    modifies out
    ensures DecodedTo(out, v, 256 * (block + 1))
  {
    hide ScaleMin, HalfAt, Half, LowQuants, HighQuants, Mul, Values;
    var b := ReaderOf(data);
    var base := 144 * block;
    var d, dmin := HalfAt(b, base), HalfAt(b, base + 2);
    var j, sub := 0, 0;
    while j < 256
      invariant 0 <= j <= 256 && j == 32 * sub && sub % 2 == 0
      invariant DecodedTo(out, v, 256 * block + j)
    {
      var (sc0, m0) := ScaleMin(b, base + 4, sub);
      var (sc1, m1) := ScaleMin(b, base + 4, sub + 1);
      var d1, min1 := Mul(d, sc0 as real), Mul(dmin, m0 as real);
      var d2, min2 := Mul(d, sc1 as real), Mul(dmin, m1 as real);
      var qs := data[base + 16 + j / 2..base + 48 + j / 2];
      Q4Group(data, block, sub, qs, LowQuants(qs), v, d1, min1);
      Q4Group(data, block, sub + 1, qs, HighQuants(qs), v, d2, min2);
      PutGroup(out, 256 * block + j, d1, min1, LowQuants(qs), v);
      PutGroup(out, 256 * block + j + 32, d2, min2, HighQuants(qs), v);
      j, sub := j + 64, sub + 2;
    }
  }

  // ---- Q5_K ----

  function TrailingZeros(u: nat): (k: nat)
    requires u > 0
  {
    if u % 2 == 1 then 0 else 1 + TrailingZeros(u / 2)
  }

  lemma {:induction false} MaskShift(k: nat)
    ensures TrailingZeros(TwoTo(k)) == k
  {
    if k > 0 { MaskShift(k - 1); }
  }

  /** The 5-bit quants of a group: nibbles, plus 16 where the mask's bit of `qh` is set. */
  function WithHighBits(nibbles: seq<int>, qh: seq<Byte>, mask: nat): (q: seq<int>)
    requires |nibbles| == |qh| && mask > 0
    ensures |q| == |nibbles|
  {
    seq(|nibbles|, l requires 0 <= l < |nibbles| => nibbles[l] + (if qh[l] / mask % 2 != 0 then 16 else 0))
  }

  lemma Q5Element(data: seq<Byte>, block: nat, sub: nat, l: nat)
    requires sub < 8 && l < 32
    ensures Values(Q5_K, ReaderOf(data))(256 * block + 32 * sub + l) == Q5Value(ReaderOf(data), block, sub, l)
  {
    hide Q5Value;
    SubBlockIndex(block, sub, l);
  }

  lemma Q5Group(data: seq<Byte>, block: nat, sub: nat, qs: seq<Byte>, qh: seq<Byte>, mask: nat, q: seq<int>,
                v: int -> real, d: real, m: real)
    requires v == Values(Q5_K, ReaderOf(data)) && sub < 8 && 176 * (block + 1) <= |data|
    requires var at := 176 * block + 48 + sub / 2 * 32; qs == data[at..at + 32]
    requires qh == data[176 * block + 16..176 * block + 48] && mask == TwoTo(sub)
    requires q == WithHighBits(if sub % 2 == 0 then LowQuants(qs) else HighQuants(qs), qh, mask)
    requires var (scale, min) := ScaleMin(ReaderOf(data), 176 * block + 4, sub);
      && d == Mul(HalfAt(ReaderOf(data), 176 * block), scale as real)
      && m == Mul(HalfAt(ReaderOf(data), 176 * block + 2), min as real)
    ensures forall l :: 0 <= l < 32 ==> v(256 * block + 32 * sub + l) == Mul(d, q[l] as real) - m
  {
    hide ScaleMin, HalfAt, Half, Low4, High4, Mul, Value, TwoTo, WithHighBits, LowQuants, HighQuants;
    forall l | 0 <= l < 32
      ensures v(256 * block + 32 * sub + l) == Mul(d, q[l] as real) - m
    {
      Q5Element(data, block, sub, l);
      Q5Quants(data, block, sub, qs, qh, q, l);
    }
  }

  lemma Q5Quants(data: seq<Byte>, block: nat, sub: nat, qs: seq<Byte>, qh: seq<Byte>, q: seq<int>, l: nat)
    requires sub < 8 && 176 * (block + 1) <= |data| && l < 32
    requires var at := 176 * block + 48 + sub / 2 * 32; qs == data[at..at + 32]
    requires qh == data[176 * block + 16..176 * block + 48]
    requires q == WithHighBits(if sub % 2 == 0 then LowQuants(qs) else HighQuants(qs), qh, TwoTo(sub))
    ensures q[l] == Q5Quant(ReaderOf(data), block, sub, l)
  {
    hide Low4, High4, TwoTo;
    WindowNibbles(data, 176 * block + 48, sub, qs, l);
    assert qh[l] == data[176 * block + 16 + l];
  }

  method DequantQ5K(data: seq<Byte>, n: nat) returns (r: Result<Vec>)
    ensures r.Success? <==> Q5_K.RowBytes(n) <= |data|
    ensures r.Success? ==> r.value == Decoded(Q5_K, ReaderOf(data), n)
  {
    var blocks := (n + 255) / 256;
    if |data| < blocks * 176 { return Failure(BackendError); }
    var b := ReaderOf(data);
    var out := new real[blocks * 256];
    ghost var v := Values(Q5_K, b);
    for block := 0 to blocks
      invariant DecodedTo(out, v, 256 * block)
    {
      Q5Block(data, block, out, v);
    }
    WholeRow(Q5_K, b, out[..], n);
    return Success(out[..n]);
  }

  /** As `Q4Block`, with the masks u1 and u2 moving two bits up `qh` per group of 64. */
  lemma FirstMasks()
    ensures TwoTo(0) == 1 && TwoTo(1) == 2
  {}

  lemma FourTimes(k: nat)
    ensures TwoTo(k + 2) == 4 * TwoTo(k)
  {}

  method Q5Block(data: seq<Byte>, block: nat, out: array<real>, ghost v: int -> real)
    requires 176 * (block + 1) <= |data| && 256 * (block + 1) <= out.Length
    requires v == Values(Q5_K, ReaderOf(data)) && DecodedTo(out, v, 256 * block)
    modifies out
    ensures DecodedTo(out, v, 256 * (block + 1))
  {
    hide ScaleMin, HalfAt, Half, LowQuants, HighQuants, WithHighBits, Mul, Values, TwoTo;
    FirstMasks();
    var b := ReaderOf(data);
    var base := 176 * block;
    var d, dmin := HalfAt(b, base), HalfAt(b, base + 2);
    var qh := data[base + 16..base + 48];
    var j, sub := 0, 0;
    var u1, u2 := 1, 2;
    while j < 256
      invariant 0 <= j <= 256 && j == 32 * sub && sub % 2 == 0
      invariant u1 == TwoTo(sub) && u2 == TwoTo(sub + 1)
      invariant DecodedTo(out, v, 256 * block + j)
    {
      var (sc0, m0) := ScaleMin(b, base + 4, sub);
      var (sc1, m1) := ScaleMin(b, base + 4, sub + 1);
      var d1, min1 := Mul(d, sc0 as real), Mul(dmin, m0 as real);
      var d2, min2 := Mul(d, sc1 as real), Mul(dmin, m1 as real);
      var qs := data[base + 48 + j / 2..base + 80 + j / 2];
      var q1, q2 := WithHighBits(LowQuants(qs), qh, u1), WithHighBits(HighQuants(qs), qh, u2);
      Q5Group(data, block, sub, qs, qh, u1, q1, v, d1, min1);
      Q5Group(data, block, sub + 1, qs, qh, u2, q2, v, d2, min2);
      PutGroup(out, 256 * block + j, d1, min1, q1, v);
      PutGroup(out, 256 * block + j + 32, d2, min2, q2, v);
      FourTimes(sub);
      FourTimes(sub + 1);
      j, sub, u1, u2 := j + 64, sub + 2, u1 * 4, u2 * 4;
    }
  }

  // ---- Q6_K ----

  /** The four quants at position l of a 128-value half. */
  function Quads(ql: seq<Byte>, qh: seq<Byte>, l: nat): (int, int, int, int)
    requires |ql| >= 64 && |qh| >= 32 && l < 32
  {
    (Low4(ql[l]) + qh[l] % 4 * 16 - 32,
     Low4(ql[l + 32]) + qh[l] / 4 % 4 * 16 - 32,
     High4(ql[l]) + qh[l] / 16 % 4 * 16 - 32,
     High4(ql[l + 32]) + qh[l] / 64 % 4 * 16 - 32)
  }

  lemma QuadsAreQuants(b: Reader, block: nat, h: nat, l: nat, ql: seq<Byte>, qh: seq<Byte>)
    requires |ql| == 64 && |qh| == 32 && l < 32
    requires ql[l] == b(210 * block + 64 * h + l) && ql[l + 32] == b(210 * block + 64 * h + 32 + l)
    requires qh[l] == b(210 * block + 128 + 32 * h + l)
    ensures Quads(ql, qh, l)
      == (Q6Quant(b, block, h, 0, l), Q6Quant(b, block, h, 1, l),
          Q6Quant(b, block, h, 2, l), Q6Quant(b, block, h, 3, l))
  {
    hide Low4, High4, TwoTo;
    QuadShifts();
  }

  lemma QuadShifts()
    ensures TwoTo(0) == 1 && TwoTo(2) == 4 && TwoTo(4) == 16 && TwoTo(6) == 64
  {}

  lemma Q6Element(data: seq<Byte>, block: nat, h: nat, g: nat, l: nat)
    requires h < 2 && g < 4 && l < 32
    ensures Values(Q6_K, ReaderOf(data))(256 * block + 128 * h + 32 * g + l) == Q6Value(ReaderOf(data), block, h, g, l)
  {
    hide Q6Value;
    QuarterIndex(block, h, g, l);
  }

  /** The four elements that position l of a half decodes to. */
  lemma Q6Elements(data: seq<Byte>, block: nat, h: nat, l: nat, ql: seq<Byte>, qh: seq<Byte>, v: int -> real)
    requires 210 * (block + 1) <= |data| && h < 2 && l < 32 && v == Values(Q6_K, ReaderOf(data))
    requires ql == data[210 * block + 64 * h..210 * block + 64 * h + 64]
    requires qh == data[210 * block + 128 + 32 * h..210 * block + 160 + 32 * h]
    ensures var sub, y := 210 * block + 192 + 8 * h + l / 16, 256 * block + 128 * h + l;
      var (q1, q2, q3, q4) := Quads(ql, qh, l); var d := HalfAt(ReaderOf(data), 210 * block + 208);
      && v(y) == Scaled(d, I8(data[sub]), q1) && v(y + 32) == Scaled(d, I8(data[sub + 2]), q2)
      && v(y + 64) == Scaled(d, I8(data[sub + 4]), q3) && v(y + 96) == Scaled(d, I8(data[sub + 6]), q4)
  {
    hide HalfAt, Half, Mul, Value, I8, Quads, Q6Quant, Scaled;
    QuadsAreQuants(ReaderOf(data), block, h, l, ql, qh);
    Q6Element(data, block, h, 0, l);
    Q6Element(data, block, h, 1, l);
    Q6Element(data, block, h, 2, l);
    Q6Element(data, block, h, 3, l);
  }

  method DequantQ6K(data: seq<Byte>, n: nat) returns (r: Result<Vec>)
    ensures r.Success? <==> Q6_K.RowBytes(n) <= |data|
    ensures r.Success? ==> r.value == Decoded(Q6_K, ReaderOf(data), n)
  {
    var blocks := (n + 255) / 256;
    if |data| < blocks * 210 { return Failure(BackendError); }
    var b := ReaderOf(data);
    var out := new real[blocks * 256];
    ghost var v := Values(Q6_K, b);
    for block := 0 to blocks
      invariant DecodedTo(out, v, 256 * block)
    {
      for h := 0 to 2
        invariant DecodedTo(out, v, 256 * block + 128 * h)
      {
        Q6Half(data, block, h, out, v);
      }
    }
    WholeRow(Q6_K, b, out[..], n);
    return Success(out[..n]);
  }

  /** All before y, and the first l elements of each quarter of the half at y. */
  ghost predicate QuartersTo(out: array<real>, v: int -> real, y: nat, l: nat)
    reads out
  {
    && DecodedTo(out, v, y + l) && DecodedOn(out, v, y + 32, y + 32 + l)
    && DecodedOn(out, v, y + 64, y + 64 + l) && DecodedOn(out, v, y + 96, y + 96 + l)
  }

  /** The next element of a range; the others are left alone. */
  method PutNext(out: array<real>, lo: nat, hi: nat, a: real, ghost v: int -> real)
    requires hi < out.Length && DecodedOn(out, v, lo, hi) && v(hi) == a
    modifies out
    ensures DecodedOn(out, v, lo, hi + 1)
    ensures forall i :: 0 <= i < out.Length && i != hi ==> out[i] == old(out[i])
  {
    out[hi] := a;
  }

  method PutQuad(out: array<real>, y: nat, l: nat, a: real, b: real, c: real, d: real, ghost v: int -> real)
    requires l < 32 && y + 128 <= out.Length && QuartersTo(out, v, y, l)
    requires v(y + l) == a && v(y + l + 32) == b && v(y + l + 64) == c && v(y + l + 96) == d
    modifies out
    ensures QuartersTo(out, v, y, l + 1)
  {
    PutNext(out, 0, y + l, a, v);
    PutNext(out, y + 32, y + l + 32, b, v);
    PutNext(out, y + 64, y + l + 64, c, v);
    PutNext(out, y + 96, y + l + 96, d, v);
  }

  /** One 128-value half, written four scattered elements at a time. */
  method Q6Half(data: seq<Byte>, block: nat, h: nat, out: array<real>, ghost v: int -> real)
    requires 210 * (block + 1) <= |data| && h < 2 && 256 * (block + 1) <= out.Length
    requires v == Values(Q6_K, ReaderOf(data)) && DecodedTo(out, v, 256 * block + 128 * h)
    modifies out
    ensures DecodedTo(out, v, 256 * block + 128 * (h + 1))
  {
    hide HalfAt, Half, I8, Quads, Scaled, Values;
    var b := ReaderOf(data);
    var base := 210 * block;
    var ql, qh := data[base + 64 * h..base + 64 * h + 64], data[base + 128 + 32 * h..base + 160 + 32 * h];
    var d := HalfAt(b, base + 208);
    var y := 256 * block + 128 * h;
    for l := 0 to 32
      invariant QuartersTo(out, v, y, l)
    {
      var sub := base + 192 + 8 * h + l / 16;
      var (q1, q2, q3, q4) := Quads(ql, qh, l);
      Q6Elements(data, block, h, l, ql, qh, v);
      PutQuad(out, y, l, Scaled(d, I8(data[sub]), q1), Scaled(d, I8(data[sub + 2]), q2),
              Scaled(d, I8(data[sub + 4]), q3), Scaled(d, I8(data[sub + 6]), q4), v);
    }
  }

  // ---- Q8_0 ----

  lemma Q8Element(b: Reader, block: nat, l: nat)
    requires l < 32
    ensures Values(Q8_0, b)(32 * block + l) == Mul(HalfAt(b, 34 * block), I8(b(34 * block + 2 + l)) as real)
  {
    var i := 32 * block + l;
    assert i / 32 == block && i % 32 == l;
    assert Mul(HalfAt(b, 34 * block), 1.0) == HalfAt(b, 34 * block);
  }

  method DequantQ8_0(data: seq<Byte>, n: nat) returns (r: Result<Vec>)
    ensures r.Success? <==> Q8_0.RowBytes(n) <= |data|
    ensures r.Success? ==> r.value == Decoded(Q8_0, ReaderOf(data), n)
  {
    var blocks := (n + 31) / 32;
    if |data| < blocks * 34 { return Failure(BackendError); }
    var b := ReaderOf(data);
    var v := Values(Q8_0, b);
    var out: Vec := [];
    for block := 0 to blocks
      invariant |out| == if block == blocks then n else 32 * block
      invariant forall i :: 0 <= i < |out| ==> out[i] == v(i)
    {
      // The last block may be partial.
      var elements := if block == blocks - 1 then n - block * 32 else 32;
      out := PushBlock(data, block, elements, out, v);
    }
    WholeRow(Q8_0, b, out, n);
    assert out[..n] == out;
    return Success(out);
  }

  method PushBlock(data: seq<Byte>, block: nat, elements: nat, out0: Vec, ghost v: int -> real) returns (out: Vec)
    requires 34 * (block + 1) <= |data| && elements <= 32 == |out0| - 32 * block + 32
    requires v == Values(Q8_0, ReaderOf(data)) && forall i :: 0 <= i < |out0| ==> out0[i] == v(i)
    ensures |out| == 32 * block + elements && forall i :: 0 <= i < |out| ==> out[i] == v(i)
  {
    hide HalfAt, Half, Mul, I8, Values;
    var b := ReaderOf(data);
    var base := block * 34;
    var scale := HalfAt(b, base);
    out := out0;
    for i := 0 to elements
      invariant |out| == 32 * block + i
      invariant forall k :: 0 <= k < |out| ==> out[k] == v(k)
    {
      Q8Element(b, block, i);
      out := out + [Mul(scale, I8(data[base + 2 + i]) as real)];
    }
  }
}
