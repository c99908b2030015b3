/** Finite sums over index ranges, and vectors of exact reals. */
module Sums {

  type Vec = seq<real>

  /** x[i], and 0 outside the vector: the zero padding of a short tail. */
  function At(x: Vec, i: int): real {
    if 0 <= i < |x| then x[i] else 0.0
  }

  /** f(0) + f(1) + ... + f(n-1). */
  function Sum(n: nat, f: int -> real): real {
    if n == 0 then 0.0 else Sum(n - 1, f) + f(n - 1)
  }

  function Mul(a: real, b: real): real {
    a * b
  }

  function Dot(w: Vec, x: Vec): real {
    Sum(|x|, i => Mul(At(w, i), At(x, i)))
  }

  function Abs(a: real): real {
    if a < 0.0 then -a else a
  }

  function Max(a: real, b: real): real {
    if a < b then b else a
  }

  /** Division with a fixed value at a zero divisor, where floats give an infinity or NaN. */
  function Div(a: real, b: real): real {
    if b == 0.0 then 0.0 else a / b
  }

  lemma SumNone(f: int -> real)
    ensures Sum(0, f) == 0.0
  {}

  lemma SumStep(n: nat, f: int -> real)
    ensures Sum(n + 1, f) == Sum(n, f) + f(n)
  {}

  lemma DivMul(v: real, w: real, r: real)
    ensures Div(v, r) * w == Div(w * v, r)
  {
    if r != 0.0 {
      assert v / r * w * r == w * v;
    }
  }

  lemma {:induction false} SumEq(n: nat, f: int -> real, g: int -> real)
    requires forall i :: 0 <= i < n ==> f(i) == g(i)
    ensures Sum(n, f) == Sum(n, g)
  {
    if n > 0 { SumEq(n - 1, f, g); }
  }

  lemma {:induction false} SumZero(n: nat, f: int -> real)
    requires forall i :: 0 <= i < n ==> f(i) == 0.0
    ensures Sum(n, f) == 0.0
  {
    if n > 0 { SumZero(n - 1, f); }
  }

  /** A sum over m + n terms is the sum of the first m and of the n that follow. */
  lemma {:induction false} SumSplit(m: nat, n: nat, f: int -> real)
    ensures Sum(m + n, f) == Sum(m, f) + Sum(n, i => f(m + i))
    decreases n
  {
    var g := (i: int) => f(m + i);
    if n > 0 {
      SumSplit(m, n - 1, f);
      assert Sum(n, g) == Sum(n - 1, g) + g(n - 1);
    }
  }

  lemma {:induction false} SumScale(n: nat, c: real, f: int -> real)
    ensures Sum(n, i => c * f(i)) == c * Sum(n, f)
  {
    var g := (i: int) => c * f(i);
    if n > 0 {
      SumScale(n - 1, c, f);
      assert Sum(n, g) == Sum(n - 1, g) + g(n - 1);
      assert c * (Sum(n - 1, f) + f(n - 1)) == c * Sum(n - 1, f) + c * f(n - 1);
    }
  }

  function Times(c: real, f: int -> real): int -> real {
    (i: int) => c * f(i)
  }

  lemma SumTimes(n: nat, c: real, f: int -> real)
    ensures Sum(n, Times(c, f)) == c * Sum(n, f)
  {
    SumScale(n, c, f);
    SumEq(n, Times(c, f), i => c * f(i));
  }

  lemma {:induction false} SumAdd(n: nat, f: int -> real, g: int -> real)
    ensures Sum(n, i => f(i) + g(i)) == Sum(n, f) + Sum(n, g)
  {
    var h := (i: int) => f(i) + g(i);
    if n > 0 {
      SumAdd(n - 1, f, g);
      assert Sum(n, h) == Sum(n - 1, h) + h(n - 1);
    }
  }

  lemma SumOfBoth(n: nat, f: int -> real, g: int -> real, h: int -> real)
    requires forall i {:trigger h(i)} :: 0 <= i < n ==> h(i) == f(i) + g(i)
    ensures Sum(n, h) == Sum(n, f) + Sum(n, g)
  {
    SumAdd(n, f, g);
    SumEq(n, h, i => f(i) + g(i));
  }

  /** Terms past m that are all zero may be dropped. */
  lemma SumPad(m: nat, n: nat, f: int -> real)
    requires m <= n
    requires forall i :: m <= i < n ==> f(i) == 0.0
    ensures Sum(n, f) == Sum(m, f)
  {
    SumSplit(m, n - m, f);
    SumZero(n - m, i => f(m + i));
  }

  function Row(f: (int, int) -> real, i: int): int -> real {
    (j: int) => f(i, j)
  }

  function Col(f: (int, int) -> real, j: int): int -> real {
    (i: int) => f(i, j)
  }

  function RowSums(n: nat, f: (int, int) -> real): int -> real {
    (i: int) => Sum(n, Row(f, i))
  }

  function ColSums(m: nat, f: (int, int) -> real): int -> real {
    (j: int) => Sum(m, Col(f, j))
  }

  /** Exchanging the order of a double sum. */
  lemma {:induction false} SumSwap(m: nat, n: nat, f: (int, int) -> real)
    ensures Sum(m, RowSums(n, f)) == Sum(n, ColSums(m, f))
  {
    if m == 0 {
      SumZero(n, ColSums(m, f));
    } else {
      SumSwap(m - 1, n, f);
      SumAdd(n, ColSums(m - 1, f), Row(f, m - 1));
      SumEq(n, ColSums(m, f), j => ColSums(m - 1, f)(j) + Row(f, m - 1)(j));
    }
  }

  /** A sum of non-negative terms is non-negative; of terms bounded by g, bounded by the sum of g. */
  lemma {:induction false} SumLe(n: nat, f: int -> real, g: int -> real)
    requires forall i :: 0 <= i < n ==> f(i) <= g(i)
    ensures Sum(n, f) <= Sum(n, g)
  {
    if n > 0 { SumLe(n - 1, f, g); }
  }

  function Shifted(f: int -> real, k: int): int -> real {
    (i: int) => f(k + i)
  }

  lemma SumCut(m: nat, n: nat, f: int -> real)
    ensures Sum(m + n, f) == Sum(m, f) + Sum(n, Shifted(f, m))
  {
    SumSplit(m, n, f);
    SumEq(n, i => f(m + i), Shifted(f, m));
  }

  /** The sums of consecutive blocks of c terms. */
  function BlockSums(c: nat, f: int -> real): int -> real {
    (b: int) => Sum(c, Shifted(f, c * b))
  }

  /** m blocks of c terms each make one sum of c * m terms. */
  lemma {:induction false} SumBlocks(m: nat, c: nat, f: int -> real)
    ensures Sum(c * m, f) == Sum(m, BlockSums(c, f))
  {
    if m > 0 {
      SumBlocks(m - 1, c, f);
      assert c * m == c * (m - 1) + c;
      SumSplit(c * (m - 1), c, f);
      SumEq(c, i => f(c * (m - 1) + i), Shifted(f, c * (m - 1)));
    }
  }
}
