/** The strided split of an index range among lanes: lane l takes l, l + step, l + 2 * step, ... */
module Striding {
  import opened Sums

  /** Is j one of i, i + step, i + 2 * step, ... below n? */
  predicate InStride(j: int, i: int, step: int, n: int)
    requires step > 0
    decreases n - i
  {
    i <= j < n && (j == i || InStride(j, i + step, step, n))
  }

  /** The partial sum a lane accumulates in its strided loop. */
  function StrideSum(i: nat, step: nat, n: nat, f: int -> real): real
    requires step > 0
    decreases n - i
  {
    if i >= n then 0.0 else f(i) + StrideSum(i + step, step, n, f)
  }

  function StrideMax(i: nat, step: nat, n: nat, floor: real, f: int -> real): real
    requires step > 0
    decreases n - i
  {
    if i >= n then floor else Max(f(i), StrideMax(i + step, step, n, floor, f))
  }

  lemma ModStep(x: int, step: int)
    requires step > 0
    ensures (x - step) % step == x % step
  {
    var q := x / step;
    assert x - step == (q - 1) * step + x % step;
    ModUnique(x - step, step, q - 1, x % step);
  }

  /** Row a of n rows of width c lies inside. */
  lemma {:induction false} RowEnd(a: nat, n: nat, c: nat)
    requires a < n
    ensures 0 <= a * c && a * c + c <= n * c
  {
    assert n * c == (n - 1) * c + c;
    if a < n - 1 { RowEnd(a, n - 1, c); }
  }

  lemma ModUnique(x: int, step: int, q: int, r: int)
    requires step > 0 && x == q * step + r && 0 <= r < step
    ensures x % step == r && x / step == q
  {
    var d := x / step - q;
    assert d * step == r - x % step;
    assert d > 0 ==> d * step >= step;
    assert d < 0 ==> d * step <= -step;
  }

  lemma {:induction false} InStrideMod(j: int, i: int, step: int, n: int)
    requires step > 0
    ensures InStride(j, i, step, n) <==> i <= j < n && (j - i) % step == 0
    decreases n - i
  {
    if i <= j < n && j != i {
      InStrideMod(j, i + step, step, n);
      ModStep(j - i, step);
      if j < i + step { ModUnique(j - i, step, 0, j - i); }
    }
  }

  /** Advancing a strided loop by one step drops exactly its first index. */
  lemma InStrideNext(j: int, i: int, step: int, n: int)
    requires step > 0
    ensures InStride(j, i, step, n) <==> j == i < n || InStride(j, i + step, step, n)
    ensures InStride(j, i + step, step, n) ==> i + step <= j
  {}

  /** Every index has a lane that visits it, and only one. */
  lemma OwnerOf(j: int, step: int, n: int) returns (lane: nat)
    requires 0 <= j < n && 0 < step
    ensures lane < step && InStride(j, lane, step, n)
    ensures lane == j % step
  {
    lane := j % step;
    InStrideMod(j, lane, step, n);
    var q := j / step;
    assert q * step >= 0;
    ModUnique(j - lane, step, q, 0);
  }

  lemma OwnerUnique(j: int, lane1: nat, lane2: nat, step: int, n: int)
    requires 0 < step && lane1 < step && lane2 < step
    requires InStride(j, lane1, step, n) && InStride(j, lane2, step, n)
    ensures lane1 == lane2
  {
    InStrideMod(j, lane1, step, n);
    InStrideMod(j, lane2, step, n);
    ModUnique(j, step, (j - lane1) / step, lane1);
    ModUnique(j, step, (j - lane2) / step, lane2);
  }

  lemma StrideSumStep(i: nat, step: nat, n: nat, f: int -> real)
    requires step > 0
    ensures i < n ==> StrideSum(i, step, n, f) == f(i) + StrideSum(i + step, step, n, f)
    ensures i >= n ==> StrideSum(i, step, n, f) == 0.0
  {}

  lemma {:induction false} StrideSumAsSum(i: nat, step: nat, n: nat, f: int -> real)
    requires step > 0
    ensures StrideSum(i, step, n, f) == Sum(n, j => if InStride(j, i, step, n) then f(j) else 0.0)
    decreases n - i
  {
    var g := (j: int) => if InStride(j, i, step, n) then f(j) else 0.0;
    if i >= n {
      forall j | 0 <= j < n
        ensures g(j) == 0.0
      {
        assert !InStride(j, i, step, n);
      }
      SumZero(n, g);
    } else {
      StrideSumAsSum(i + step, step, n, f);
      var rest := (j: int) => if InStride(j, i + step, step, n) then f(j) else 0.0;
      var one := (j: int) => if j == i then f(j) else 0.0;
      SumAdd(n, one, rest);
      forall j | 0 <= j < n
        ensures g(j) == one(j) + rest(j)
      {
        InStrideNext(j, i, step, n);
      }
      SumEq(n, g, j => one(j) + rest(j));
      SumOne(n, i, f);
      SumEq(n, one, j => if j == i then f(j) else 0.0);
    }
  }

  lemma SumOne(n: nat, i: nat, f: int -> real)
    requires i < n
    ensures Sum(n, j => if j == i then f(j) else 0.0) == f(i)
  {
    var one := (j: int) => if j == i then f(j) else 0.0;
    SumPad(i + 1, n, one);
    SumZero(i, one);
  }

  /** The lanes' strided partial sums add up to the whole sum: the lanes partition the range. */
  lemma StridesPartition(step: nat, n: nat, f: int -> real)
    requires step > 0
    ensures Sum(step, lane => if lane >= 0 then StrideSum(lane, step, n, f) else 0.0) == Sum(n, f)
  {
    var parts := (lane: int) => if lane >= 0 then StrideSum(lane, step, n, f) else 0.0;
    var cell := (lane: int, j: int) => if InStride(j, lane, step, n) then f(j) else 0.0;
    forall lane | 0 <= lane < step
      ensures parts(lane) == RowSums(n, cell)(lane)
    {
      StrideSumAsSum(lane, step, n, f);
      SumEq(n, Row(cell, lane), j => if InStride(j, lane, step, n) then f(j) else 0.0);
    }
    SumEq(step, parts, RowSums(n, cell));
    SumSwap(step, n, cell);
    forall j | 0 <= j < n
      ensures ColSums(step, cell)(j) == f(j)
    {
      var owned := OwnerOf(j, step, n);
      var owner := (lane: int) => if lane == owned then f(j) else 0.0;
      forall lane | 0 <= lane < step
        ensures Col(cell, j)(lane) == owner(lane)
      {
        if InStride(j, lane, step, n) { OwnerUnique(j, lane, owned, step, n); }
      }
      SumEq(step, Col(cell, j), owner);
      SumOne(step, owned, _ => f(j));
      SumEq(step, owner, lane => if lane == owned then (_ => f(j))(lane) else 0.0);
    }
    SumEq(n, ColSums(step, cell), f);
  }

  /** A lane's running maximum bounds its strided values and is the floor or one of them. */
  lemma {:induction false} StrideMaxBounds(i: nat, step: nat, n: nat, floor: real, f: int -> real)
    requires step > 0
    ensures floor <= StrideMax(i, step, n, floor, f)
    ensures forall j :: InStride(j, i, step, n) ==> f(j) <= StrideMax(i, step, n, floor, f)
    ensures StrideMax(i, step, n, floor, f) == floor
      || exists j :: 0 <= j < n && f(j) == StrideMax(i, step, n, floor, f)
    decreases n - i
  {
    if i < n {
      StrideMaxBounds(i + step, step, n, floor, f);
    }
  }
}
