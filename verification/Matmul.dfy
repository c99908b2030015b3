/** The two CPU matrix products: `matmul_into`, which takes an int8 kernel for Q5_K weights, and
    `matmul_batch_into`, which decodes every row once for a whole batch. */
module Matmul {
  import opened Sums
  import opened Striding
  import opened Blocks
  import opened Bytes
  import opened QuantValues
  import opened QuantInt8

  /** x as the int8 kernel sees it: quantised to Q8_K blocks and back. */
  function Requantized(x: Vec): (r: Vec)
    ensures |r| == |x|
  {
    seq(|x|, i requires 0 <= i < |x| => Mul(BlockScale(BlockExtreme(x, i / 256)), QuantAt(x, i) as real))
  }

  /** What the int8 kernel computes for a row is the exact dot of the decoded row with requantised x. */
  lemma Int8IsRequantized(b: Reader, q: Q8KRow, x: Vec)
    requires IsQuantized(q, x)
    ensures Sum(|q.qs|, Int8Term(b, q)) == Dot(Decoded(Q5_K, b, |x|), Requantized(x))
  {
    hide Value, Sum, QuantOf, BlockScale, BlockExtreme;
    var f, w, r := Int8Term(b, q), Decoded(Q5_K, b, |x|), Requantized(x);
    forall i | 0 <= i < |q.qs|
      ensures f(i) == if i < |x| then Mul(At(w, i), At(r, i)) else 0.0
    {
      assert i / 256 < |q.d|;
    }
    SumPad(|x|, |q.qs|, f);
    SumEq(|x|, f, i => Mul(At(w, i), At(r, i)));
  }

  /** A weight matrix, by its decoded rows. */
  datatype Tensor = Tensor(rows: seq<Vec>, q5k: bool) {

    /** Decode, then dot. */
    function Exact(x: Vec): (y: Vec)
      ensures |y| == |rows|
    {
      seq(|rows|, r requires 0 <= r < |rows| => Dot(rows[r], x))
    }

    /** `matmul_into`. */
    function Product(x: Vec): (y: Vec)
      ensures |y| == |rows|
    {
      if q5k then Exact(Requantized(x)) else Exact(x)
    }
  }

  // ---- Where the two products part ----

  /** 1 at k, 1/3 at j, 0 elsewhere. */
  function Probe(n: nat, k: nat, j: nat): (x: Vec)
    ensures |x| == n
  {
    seq(n, i => if i == k then 1.0 else if i == j then 1.0 / 3.0 else 0.0)
  }

  predicate AllZero(w: Vec) { forall i :: 0 <= i < |w| ==> w[i] == 0.0 }

  predicate WholeBlocks(t: Tensor, n: nat) {
    n % 256 == 0 && forall r :: 0 <= r < |t.rows| ==> |t.rows[r]| == n
  }

  ghost predicate PathsAgree(t: Tensor, n: nat) {
    forall x: Vec :: |x| == n ==> t.Product(x) == t.Exact(x)
  }

  /** A weight whose products no path can tell apart: not Q5_K, or nothing but zeros. */
  predicate Harmless(t: Tensor) { !t.q5k || forall r :: 0 <= r < |t.rows| ==> AllZero(t.rows[r]) }

  /** `matmul_into` and `matmul_batch_into` compute the same for every activation exactly when the weight
      is not Q5_K, or is all zeros. (Rows of Q5_K are whole blocks of 256.) */
  lemma WhenPathsAgree(t: Tensor, n: nat)
    requires WholeBlocks(t, n)
    ensures PathsAgree(t, n) <==> Harmless(t)
  {
    hide Dot, Requantized;
    if Harmless(t) {
      forall x: Vec | |x| == n
        ensures t.Product(x) == t.Exact(x)
      {
        HarmlessProduct(t, x);
      }
    } else {
      var r, x := Telling(t, n);
    }
  }

  lemma HarmlessProduct(t: Tensor, x: Vec)
    requires Harmless(t)
    ensures t.Product(x) == t.Exact(x)
  {
    hide Dot, Requantized;
    if t.q5k {
      forall r | 0 <= r < |t.rows|
        ensures Dot(t.rows[r], Requantized(x)) == Dot(t.rows[r], x)
      {
        ZeroDot(t.rows[r], x);
        ZeroDot(t.rows[r], Requantized(x));
      }
    }
  }

  /** An activation, and a row at which it tells the two products of a weight apart. */
  lemma Telling(t: Tensor, n: nat) returns (r: nat, x: Vec)
    requires WholeBlocks(t, n) && !Harmless(t)
    ensures |x| == n && r < |t.rows| && t.Product(x)[r] != t.Exact(x)[r]
  {
    hide Dot, Requantized;
    var j;
    r, j :| 0 <= r < |t.rows| && 0 <= j < |t.rows[r]| && t.rows[r][j] != 0.0;
    var k := Neighbour(n, j);
    ProbeTells(t.rows[r], k, j);
    x := Probe(n, k, j);
  }

  lemma ZeroDot(w: Vec, x: Vec)
    requires AllZero(w)
    ensures Dot(w, x) == 0.0
  {
    SumZero(|x|, i => Mul(At(w, i), At(x, i)));
  }

  /** Another index in the same block. */
  lemma Neighbour(n: nat, j: nat) returns (k: nat)
    requires n % 256 == 0 && j < n
    ensures k < n && k != j && k / 256 == j / 256
  {
    var b, r := j / 256, j % 256;
    k := 256 * b + (if r == 0 then 1 else 0);
    ModUnique(k, 256, b, if r == 0 then 1 else 0);
    assert 256 * b + 256 <= n;
  }

  lemma {:induction false} ProbeExtreme(n: nat, k: nat, j: nat, lo: nat, hi: nat)
    requires k != j && lo <= hi <= n
    ensures Extreme(Probe(n, k, j), lo, hi)
      == if lo <= k < hi then 1.0 else if lo <= j < hi then 1.0 / 3.0 else 0.0
    decreases hi - lo
  {
    if lo < hi { ProbeExtreme(n, k, j, lo, hi - 1); }
  }

  /** The probe reads back as it was, but for 42/127 in place of 1/3. */
  lemma ProbeRequantized(n: nat, k: nat, j: nat, i: nat)
    requires n % 256 == 0 && k < n && j < n && k != j && k / 256 == j / 256 && i < n
    ensures Requantized(Probe(n, k, j))[i] == if i == j then 42.0 / 127.0 else Probe(n, k, j)[i]
  {
    var x, block := Probe(n, k, j), i / 256;
    ProbeExtreme(n, k, j, 256 * block, BlockEnd(n, block));
    if block == k / 256 {
      ProbeQuants();
    }
  }

  lemma ProbeQuants()
    ensures BlockScale(1.0) == -1.0 / 127.0
    ensures QuantOf(1.0, 1.0) == -127 && QuantOf(1.0, 1.0 / 3.0) == -42 && QuantOf(1.0, 0.0) == 0
  {}

  lemma ProbeTells(w: Vec, k: nat, j: nat)
    requires |w| % 256 == 0 && k < |w| && j < |w| && k != j && k / 256 == j / 256 && w[j] != 0.0
    ensures Dot(w, Requantized(Probe(|w|, k, j))) != Dot(w, Probe(|w|, k, j))
  {
    hide Sum, Requantized;
    var n, x := |w|, Probe(|w|, k, j);
    var r := Requantized(x);
    var d := 42.0 / 127.0 - 1.0 / 3.0;
    var f, g, one := (i: int) => Mul(At(w, i), At(r, i)), (i: int) => Mul(At(w, i), At(x, i)),
      (i: int) => if i == j then Mul(At(w, i), d) else 0.0;
    forall i | 0 <= i < n
      ensures f(i) == g(i) + one(i)
    {
      ProbeRequantized(n, k, j, i);
    }
    SumEq(n, f, i => g(i) + one(i));
    SumAdd(n, g, one);
    var h := (i: int) => Mul(At(w, i), d);
    SumOne(n, j, h);
    SumEq(n, one, i => if i == j then h(i) else 0.0);
    SumEq(n, f, i => Mul(At(w, i), At(r, i)));
    SumEq(n, g, i => Mul(At(w, i), At(x, i)));
    NonZeroProduct(w[j], d);
  }

  lemma NonZeroProduct(a: real, b: real)
    requires a != 0.0 && b != 0.0
    ensures Mul(a, b) != 0.0
  {}

  // ---- The batched product, in place ----

  /** One decoded row's dots with every token of the batch. */
  function RowDots(w: Vec, x: Vec, inDim: nat, batch: nat): (d: Vec)
    ensures |d| == batch
  {
    seq(batch, t => Dot(w, Part(x, t * inDim, inDim)))
  }

  /** Row r's dots into its chunk of the row-major buffer. */
  method RowChunk(w: Vec, x: Vec, inDim: nat, batch: nat, rowmajor: array<real>, at: nat)
    requires at + batch <= rowmajor.Length
    modifies rowmajor
    ensures rowmajor[..] == Patched(old(rowmajor[..]), at, RowDots(w, x, inDim, batch))
  {
    hide Dot, Part;
    for t := 0 to batch
      invariant forall i :: 0 <= i < rowmajor.Length ==>
        rowmajor[i] == if at <= i < at + t then RowDots(w, x, inDim, batch)[i - at] else old(rowmajor[i])
    {
      rowmajor[at + t] := Dot(w, Part(x, t * inDim, inDim));
    }
  }

  /** A chunk into column r of the token-major output. */
  method TransposeRow(chunk: Vec, out: array<real>, width: nat, r: nat)
    requires out.Length == |chunk| * width && r < width
    modifies out
    ensures Column(out[..], |chunk|, width, r) == chunk
    ensures forall c :: 0 <= c < width && c != r ==> SameColumn(old(out[..]), out[..], |chunk|, width, c)
  {
    hide Column;
    ghost var was := Column(out[..], |chunk|, width, r);
    for t := 0 to |chunk|
      invariant Column(out[..], |chunk|, width, r) == chunk[..t] + was[t..]
      invariant forall c :: 0 <= c < width && c != r ==> SameColumn(old(out[..]), out[..], |chunk|, width, c)
    {
      RowEnd(t, |chunk|, width);
      ghost var before, at := out[..], t * width + r;
      out[t * width + r] := chunk[t];
      assert out[..] == before[at := chunk[t]];
      ColumnStore(before, |chunk|, width, r, t, chunk[t], r);
      forall c | 0 <= c < width && c != r
        ensures SameColumn(old(out[..]), out[..], |chunk|, width, c)
      {
        ColumnStore(before, |chunk|, width, r, t, chunk[t], c);
        assert SameColumn(old(out[..]), before, |chunk|, width, c);
      }
    }
  }

  ghost predicate SameColumn(was: Vec, now: Vec, rows: nat, width: nat, c: nat) {
    Column(now, rows, width, c) == Column(was, rows, width, c)
  }

  /** `matmul_batch_into`: rows first, tokens inside, then transposed; token t's block is W * x[t]. */
  method MatmulBatchInto(t: Tensor, x: Vec, batch: nat, out: array<real>)
    requires batch > 0 && |x| % batch == 0 && out.Length == batch * |t.rows|
    modifies out
    ensures forall b :: 0 <= b < batch ==> TokenDone(t, x, batch, out[..], b)
  {
    hide Patched, Block, RowDots, Column;
    var inDim, width := |x| / batch, |t.rows|;
    var rowmajor := new real[width * batch];
    for r := 0 to width
      invariant forall q :: 0 <= q < r ==> BlockIs(rowmajor[..], width, batch, q, RowDots(t.rows[q], x, inDim, batch))
    {
      RowEnd(r, width, batch);
      ghost var before := rowmajor[..];
      RowChunk(t.rows[r], x, inDim, batch, rowmajor, r * batch);
      forall q | 0 <= q <= r
        ensures BlockIs(rowmajor[..], width, batch, q, RowDots(t.rows[q], x, inDim, batch))
      {
        RowEnd(q, width, batch);
        PatchedBlocks(before, batch, r, RowDots(t.rows[r], x, inDim, batch), q);
        assert q < r ==> BlockIs(before, width, batch, q, RowDots(t.rows[q], x, inDim, batch));
      }
    }
    ghost var dots := rowmajor[..];
    for r := 0 to width
      invariant rowmajor[..] == dots
      invariant forall q :: 0 <= q < r ==> ColumnIs(t, x, inDim, batch, out[..], q)
    {
      RowEnd(r, width, batch);
      assert BlockIs(rowmajor[..], width, batch, r, RowDots(t.rows[r], x, inDim, batch));
      ghost var before := out[..];
      var chunk := Block(rowmajor[..], batch, r);
      TransposeRow(chunk, out, width, r);
      forall q | 0 <= q < r
        ensures ColumnIs(t, x, inDim, batch, out[..], q)
      {
        assert SameColumn(before, out[..], batch, width, q);
        assert ColumnIs(t, x, inDim, batch, before, q);
      }
    }
    forall b | 0 <= b < batch
      ensures TokenDone(t, x, batch, out[..], b)
    {
      ColumnsMakeToken(t, x, batch, out[..], b);
    }
  }

  ghost predicate ColumnIs(t: Tensor, x: Vec, inDim: nat, batch: nat, out: Vec, q: nat)
    requires q < |t.rows|
  {
    Column(out, batch, |t.rows|, q) == RowDots(t.rows[q], x, inDim, batch)
  }

  ghost predicate TokenDone(t: Tensor, x: Vec, batch: nat, out: Vec, b: nat)
    requires b < batch && |out| == batch * |t.rows|
  {
    BlockIs(out, batch, |t.rows|, b, t.Exact(Part(x, b * (|x| / batch), |x| / batch)))
  }

  lemma ColumnsMakeToken(t: Tensor, x: Vec, batch: nat, out: Vec, b: nat)
    requires b < batch && |out| == batch * |t.rows|
    requires forall q :: 0 <= q < |t.rows| ==> ColumnIs(t, x, |x| / batch, batch, out, q)
    ensures TokenDone(t, x, batch, out, b)
  {
    hide Dot, Part;
    var width := |t.rows|;
    RowEnd(b, batch, width);
    forall q | 0 <= q < width
      ensures Block(out, width, b)[q] == t.Exact(Part(x, b * (|x| / batch), |x| / batch))[q]
    {
      assert ColumnIs(t, x, |x| / batch, batch, out, q);
      assert Column(out, batch, width, q)[b] == out[b * width + q];
    }
  }
}
