/** Vectors made of equal blocks, one per head, and writing one block of them. */
module Blocks {
  import opened Sums
  import opened Striding

  /** v with w written at position `at`. */
  function Patched(v: Vec, at: nat, w: Vec): (p: Vec)
    requires at + |w| <= |v|
    ensures |p| == |v|
  {
    v[..at] + w + v[at + |w|..]
  }

  /** Block h of a vector of blocks of width c. */
  function Block(v: Vec, c: nat, h: nat): (b: Vec)
    requires h * c + c <= |v|
    ensures |b| == c
  {
    Nonneg(h, c);
    v[h * c..h * c + c]
  }

  lemma Nonneg(h: nat, c: nat)
    ensures h * c >= 0
  {}

  /** Writing block h changes block h only. */
  lemma PatchedBlocks(v: Vec, c: nat, h: nat, w: Vec, g: nat)
    requires h * c + c <= |v| && g * c + c <= |v| && |w| == c && h * c >= 0
    ensures Block(Patched(v, h * c, w), c, g) == if g == h then w else Block(v, c, g)
  {
    Nonneg(g, c);
    if g != h { Apart(g, h, c); }
    SliceOfPatched(v, h * c, w, g * c, c);
  }

  lemma Apart(g: nat, h: nat, c: nat)
    requires g != h
    ensures g * c + c <= h * c || h * c + c <= g * c
  {
    if g < h { RowEnd(g, h, c); } else { RowEnd(h, g, c); }
  }

  lemma SliceOfPatched(v: Vec, at: nat, w: Vec, lo: nat, c: nat)
    requires at + |w| <= |v| && lo + c <= |v|
    ensures lo == at && c == |w| ==> Patched(v, at, w)[lo..lo + c] == w
    ensures lo + c <= at || at + |w| <= lo ==> Patched(v, at, w)[lo..lo + c] == v[lo..lo + c]
  {}

  /** Writing a cell of the patch is writing the cell of the whole. */
  lemma PatchedUpdate(v: Vec, at: nat, w: Vec, i: nat, a: real)
    requires at + |w| <= |v| && i < |w|
    ensures Patched(v, at, w)[at + i] == w[i]
    ensures Patched(v, at, w[i := a]) == Patched(v, at, w)[at + i := a]
  {}

  /** n cells of v from `at` on, zeros past its end. */
  function Part(v: Vec, at: int, n: nat): (p: Vec)
    ensures |p| == n
  {
    seq(n, d => At(v, at + d))
  }

  /** The vector whose block h is f(h), for n blocks of width c. */
  function FromBlocks(n: nat, c: nat, f: int -> Vec): (v: Vec)
    ensures |v| == n * c
  {
    if c == 0 then [] else seq(n * c, i => At(f(i / c), i % c))
  }

  lemma FromBlocksEq(n: nat, c: nat, f: int -> Vec, g: int -> Vec)
    requires forall h :: 0 <= h < n ==> f(h) == g(h)
    ensures FromBlocks(n, c, f) == FromBlocks(n, c, g)
  {
    if c > 0 {
      forall i | 0 <= i < n * c
        ensures FromBlocks(n, c, f)[i] == FromBlocks(n, c, g)[i]
      {
        var q := BlockOf(i, n, c);
      }
    }
  }

  /** Cell d of block h. */
  lemma FromBlocksCell(n: nat, c: nat, f: int -> Vec, h: nat, d: nat)
    requires h < n && d < c
    ensures 0 <= h * c + d < n * c && FromBlocks(n, c, f)[h * c + d] == At(f(h), d)
  {
    RowEnd(h, n, c);
    ModUnique(h * c + d, c, h, d);
  }

  /** A vector with the right blocks is that vector. */
  lemma BlocksDecide(v: Vec, n: nat, c: nat, f: int -> Vec)
    requires |v| == n * c
    requires forall h :: 0 <= h < n ==> BlockIs(v, n, c, h, f(h))
    ensures v == FromBlocks(n, c, f)
  {
    if c > 0 {
      forall i | 0 <= i < n * c
        ensures v[i] == At(f(i / c), i % c)
      {
        var q := BlockOf(i, n, c);
        assert BlockIs(v, n, c, q, f(q));
        CellOfBlock(v, n, c, q, f(q), i);
      }
    }
  }

  lemma CellOfBlock(v: Vec, n: nat, c: nat, h: nat, w: Vec, i: nat)
    requires |v| == n * c && h < n && 0 < c && BlockIs(v, n, c, h, w) && i < |v| && h == i / c && i == h * c + i % c
    ensures v[i] == At(w, i % c)
  {
    RowEnd(h, n, c);
    assert Block(v, c, h)[i % c] == v[h * c + i % c];
  }

  ghost predicate BlockIs(v: Vec, n: nat, c: nat, h: nat, w: Vec)
    requires |v| == n * c && h < n
  {
    RowEnd(h, n, c);
    Block(v, c, h) == w
  }

  lemma BlockOf(i: nat, n: nat, c: nat) returns (q: nat)
    requires 0 < c && i < n * c
    ensures q == i / c < n && i == q * c + i % c
  {
    q := i / c;
    assert q >= n ==> q * c >= n * c;
  }

  // ---- Columns of a matrix kept row by row ----

  function Column(m: Vec, rows: nat, width: nat, ch: nat): (c: Vec)
    ensures |c| == rows
  {
    seq(rows, a => At(m, a * width + ch))
  }

  /** Storing into a cell of column ch changes that column there, and no other column. */
  lemma ColumnStore(m: Vec, rows: nat, width: nat, ch: nat, a: nat, v: real, other: nat)
    requires |m| == rows * width && a < rows && ch < width && other < width && 0 <= a * width + ch < |m|
    ensures Column(m[a * width + ch := v], rows, width, other)
      == if other == ch then Column(m, rows, width, ch)[a := v] else Column(m, rows, width, other)
  {
    var m' := m[a * width + ch := v];
    var want := if other == ch then Column(m, rows, width, ch)[a := v] else Column(m, rows, width, other);
    forall r | 0 <= r < rows
      ensures Column(m', rows, width, other)[r] == want[r]
    {
      RowEnd(r, rows, width);
      if r < a { RowEnd(r, a, width); }
      if a < r { RowEnd(a, r, width); }
    }
  }
}
