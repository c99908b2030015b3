/** Dropping the consumed prefix of the mapped file while weights are uploaded: which address ranges
    are given back, over the whole loop. */
module PageRelease {
  import opened Striding

  /** A tensor's bytes, as an offset into the data section. */
  datatype Span = Span(offset: nat, size: nat) {
    function End(): nat { offset + size }
  }

  /** Addresses from (inclusive) to (exclusive). */
  datatype Range = Range(from: nat, to: nat)

  function RoundUp(a: nat, page: nat): nat
    requires page > 0
  {
    (a + page - 1) / page * page
  }

  function RoundDown(a: nat, page: nat): nat
    requires page > 0
  {
    a / page * page
  }

  /** `release_mmap_prefix`: the new high-water mark, and the range advised away, if any. */
  function Release(base: nat, page: nat, releasedUpTo: nat, newEnd: nat): (r: (nat, seq<Range>))
    requires page > 0
  {
    var from, to := RoundUp(base + releasedUpTo, page), RoundDown(base + newEnd, page);
    if newEnd <= releasedUpTo then (releasedUpTo, [])
    else if to > from then UpBounds(base + releasedUpTo, page); (to - base, [Range(from, to)])
    else (releasedUpTo, [])
  }

  lemma UpBounds(a: nat, page: nat)
    requires page > 0
    ensures a <= RoundUp(a, page) < a + page && RoundUp(a, page) % page == 0
  {
    var q := (a + page - 1) / page;
    ModUnique(q * page, page, q, 0);
  }

  lemma DownBounds(a: nat, page: nat)
    requires page > 0
    ensures RoundDown(a, page) <= a < RoundDown(a, page) + page && RoundDown(a, page) % page == 0
  {
    ModUnique(a / page * page, page, a / page, 0);
  }

  /** A multiple of the page at or above a is at or above its rounding up; below, below its rounding down. */
  lemma MultipleAbove(a: nat, m: nat, page: nat)
    requires page > 0 && m % page == 0
    ensures a <= m ==> RoundUp(a, page) <= m
    ensures m <= a ==> m <= RoundDown(a, page)
  {
    UpBounds(a, page);
    DownBounds(a, page);
    NoMultipleBetween(m, RoundUp(a, page), page);
    NoMultipleBetween(RoundDown(a, page), m, page);
  }

  /** Distinct multiples of the page are a page apart. */
  lemma NoMultipleBetween(m: nat, n: nat, page: nat)
    requires page > 0 && m % page == 0 && n % page == 0
    ensures m < n ==> m + page <= n
  {
    var p, q := m / page, n / page;
    assert m == p * page && n == q * page;
    if p < q { RowEnd(p, q, page); } else if q < p { RowEnd(q, p, page); }
  }

  // ---- The loop over the tensors ----

  function ReleasedUpTo(base: nat, page: nat, ts: seq<Span>): nat
    requires page > 0
  {
    if ts == [] then 0
    else Release(base, page, ReleasedUpTo(base, page, ts[..|ts| - 1]), ts[|ts| - 1].End()).0
  }

  /** All ranges advised away after the tensors ts. */
  function Ranges(base: nat, page: nat, ts: seq<Span>): seq<Range>
    requires page > 0
  {
    if ts == [] then []
    else
      var before := ts[..|ts| - 1];
      Ranges(base, page, before) + Release(base, page, ReleasedUpTo(base, page, before), ts[|ts| - 1].End()).1
  }

  /** In file order; a tied tensor may be listed twice. */
  predicate InFileOrder(ts: seq<Span>) {
    forall i, j :: 0 <= i < j < |ts| ==> ts[i].offset <= ts[j].offset && ts[i].End() <= ts[j].End()
  }

  /** In file order, no two sharing a byte. */
  predicate Ascending(ts: seq<Span>) { forall i, j :: 0 <= i < j < |ts| ==> ts[i].End() <= ts[j].offset }

  function ConsumedEnd(ts: seq<Span>): nat { if ts == [] then 0 else ts[|ts| - 1].End() }

  /** The ranges lie end to end from `from` to `to`, each of them whole pages. */
  predicate Tiles(ranges: seq<Range>, from: nat, to: nat, page: nat)
    requires page > 0
  {
    if ranges == [] then from == to
    else
      var last := ranges[|ranges| - 1];
      last.from < last.to == to && last.from % page == 0 && last.to % page == 0
      && Tiles(ranges[..|ranges| - 1], from, last.from, page)
  }

  /** Where the released prefix ends: nowhere before the first whole page of the mapping. */
  function Frontier(base: nat, page: nat, end: nat): nat
    requires page > 0
  {
    var first, down := RoundUp(base, page), RoundDown(base + end, page);
    if down < first then first else down
  }

  /** One call moves the frontier to the last whole page of the new prefix, releasing what lies between. */
  lemma ReleaseStep(base: nat, page: nat, released: nat, end: nat, newEnd: nat)
    requires page > 0 && end <= newEnd && RoundUp(base + released, page) == Frontier(base, page, end)
    ensures var (released', ranges) := Release(base, page, released, newEnd);
      var f, f' := Frontier(base, page, end), Frontier(base, page, newEnd);
      && RoundUp(base + released', page) == f' && f <= f' && f % page == 0 && f' % page == 0
      && ranges == (if f < f' then [Range(f, f')] else [])
  {
    hide RoundUp, RoundDown;
    UpBounds(base, page);
    DownBounds(base + end, page);
    DownBounds(base + newEnd, page);
    MultipleAbove(base + newEnd, RoundDown(base + end, page), page);
    MultipleAbove(base + released, RoundDown(base + newEnd, page), page);
    UpBounds(base + released, page);
    MultipleAbove(RoundDown(base + newEnd, page), RoundDown(base + newEnd, page), page);
    UpBounds(RoundDown(base + newEnd, page), page);
  }

  /** After any tensors in file order, the released ranges tile exactly the whole pages of the prefix. */
  lemma {:induction false} RangesTile(base: nat, page: nat, ts: seq<Span>)
    requires page > 0 && InFileOrder(ts)
    ensures RoundUp(base + ReleasedUpTo(base, page, ts), page) == Frontier(base, page, ConsumedEnd(ts))
    ensures Tiles(Ranges(base, page, ts), RoundUp(base, page), Frontier(base, page, ConsumedEnd(ts)), page)
  {
    hide Release, Frontier;
    if ts == [] {
      FrontierAtStart(base, page);
    } else {
      var before, t := ts[..|ts| - 1], ts[|ts| - 1];
      RangesTile(base, page, before);
      ReleaseStep(base, page, ReleasedUpTo(base, page, before), ConsumedEnd(before), t.End());
      var ranges := Ranges(base, page, before);
      assert ranges + [] == ranges;
      var f, f' := Frontier(base, page, ConsumedEnd(before)), Frontier(base, page, t.End());
      assert (ranges + [Range(f, f')])[..|ranges|] == ranges;
    }
  }

  lemma FrontierAtStart(base: nat, page: nat)
    requires page > 0
    ensures Frontier(base, page, 0) == RoundUp(base, page)
  {
    UpBounds(base, page);
    DownBounds(base, page);
  }

  ghost predicate GivenBack(ranges: seq<Range>, a: nat) {
    exists i :: 0 <= i < |ranges| && ranges[i].from <= a < ranges[i].to
  }

  /** Tiles cover every address once: an address from the start to the end lies in one range, and no
      other address in any. */
  lemma {:induction false} TilesCover(ranges: seq<Range>, from: nat, to: nat, page: nat, a: nat)
    requires page > 0 && Tiles(ranges, from, to, page)
    ensures from <= to
    ensures from <= a < to <==> GivenBack(ranges, a)
    ensures forall i, j :: 0 <= i < j < |ranges| ==> ranges[i].to <= ranges[j].from
  {
    if ranges != [] {
      var n := |ranges| - 1;
      TilesCover(ranges[..n], from, ranges[n].from, page, a);
      assert forall i :: 0 <= i < n ==> ranges[..n][i] == ranges[i];
      if from <= a < ranges[n].from {
        var i :| 0 <= i < |ranges[..n]| && ranges[..n][i].from <= a < ranges[..n][i].to;
        assert ranges[i].from <= a < ranges[i].to;
      }
      forall i | 0 <= i < n
        ensures ranges[i].to <= ranges[n].from
      {
        TilesEnd(ranges[..n], from, ranges[n].from, page, i);
      }
    }
  }

  lemma {:induction false} TilesEnd(ranges: seq<Range>, from: nat, to: nat, page: nat, i: nat)
    requires page > 0 && Tiles(ranges, from, to, page) && i < |ranges|
    ensures from <= ranges[i].from < ranges[i].to <= to
    decreases |ranges|
  {
    var n := |ranges| - 1;
    if i < n {
      TilesEnd(ranges[..n], from, ranges[n].from, page, i);
    } else {
      TilesOrdered(ranges[..n], from, ranges[n].from, page);
    }
  }

  lemma {:induction false} TilesOrdered(ranges: seq<Range>, from: nat, to: nat, page: nat)
    requires page > 0 && Tiles(ranges, from, to, page)
    ensures from <= to
  {
    if ranges != [] { TilesOrdered(ranges[..|ranges| - 1], from, ranges[|ranges| - 1].from, page); }
  }

  /** An address has been released exactly when its page lies wholly inside the consumed prefix. */
  lemma ReleasedExactly(base: nat, page: nat, ts: seq<Span>, a: nat)
    requires page > 0 && InFileOrder(ts)
    ensures GivenBack(Ranges(base, page, ts), a)
      <==> base <= RoundDown(a, page) && RoundDown(a, page) + page <= base + ConsumedEnd(ts)
  {
    hide RoundUp, RoundDown, Ranges, ConsumedEnd, InFileOrder, Tiles;
    RangesTile(base, page, ts);
    TilesCover(Ranges(base, page, ts), RoundUp(base, page), Frontier(base, page, ConsumedEnd(ts)), page, a);
    var p, end := RoundDown(a, page), base + ConsumedEnd(ts);
    DownBounds(a, page);
    UpBounds(base, page);
    DownBounds(end, page);
    MultipleAbove(base, p, page);
    MultipleAbove(a, RoundUp(base, page), page);
    NoMultipleBetween(p, RoundDown(end, page), page);
    NextMultiple(p, page);
    MultipleAbove(end, p + page, page);
  }

  lemma NextMultiple(p: nat, page: nat)
    requires page > 0 && p % page == 0
    ensures (p + page) % page == 0
  {
    assert p == p / page * page;
    ModUnique(p + page, page, p / page + 1, 0);
  }

  /** No byte of the tensor has been given back. */
  ghost predicate Intact(ranges: seq<Range>, base: nat, t: Span) {
    forall a: nat :: base + t.offset <= a < base + t.End() ==> !GivenBack(ranges, a)
  }

  /** After the first n tensors in file order, a tensor still to come is intact exactly when the released prefix
      stops before it, or it ends before the first whole page of the mapping, or nothing has been released yet. */
  lemma LaterTensorsIntact(base: nat, page: nat, ts: seq<Span>, n: nat, j: nat)
    requires page > 0 && InFileOrder(ts) && n <= j < |ts| && ts[j].size > 0
    ensures var frontier, first := Frontier(base, page, ConsumedEnd(ts[..n])), RoundUp(base, page);
      var intact := Intact(Ranges(base, page, ts[..n]), base, ts[j]);
      intact <==> frontier <= base + ts[j].offset || base + ts[j].End() <= first || frontier == first
  {
    hide Ranges, Tiles, Frontier, GivenBack, RoundUp;
    var before, t := ts[..n], ts[j];
    var ranges, frontier, first :=
      Ranges(base, page, before), Frontier(base, page, ConsumedEnd(before)), RoundUp(base, page);
    RangesTile(base, page, before);
    forall a: nat
      ensures GivenBack(ranges, a) <==> first <= a < frontier
    {
      TilesCover(ranges, first, frontier, page, a);
    }
    TilesOrdered(ranges, first, frontier, page);
    if frontier > base + t.offset && base + t.End() > first && frontier != first {
      assert GivenBack(ranges, if first < base + t.offset then base + t.offset else first);
    }
  }

  /** So tensors that share no byte with those before them are always intact. */
  lemma DistinctTensorsIntact(base: nat, page: nat, ts: seq<Span>, n: nat, j: nat)
    requires page > 0 && Ascending(ts) && n <= j < |ts| && ts[j].size > 0
    ensures Intact(Ranges(base, page, ts[..n]), base, ts[j])
  {
    hide Frontier;
    LaterTensorsIntact(base, page, ts, n, j);
    FrontierInside(base, page, ConsumedEnd(ts[..n]));
    FrontierFrom(base, page, ConsumedEnd(ts[..n]));
  }

  lemma FrontierFrom(base: nat, page: nat, end: nat)
    requires page > 0
    ensures RoundUp(base, page) <= Frontier(base, page, end)
  {}

  /** A tensor listed twice can lose bytes to its first upload: pages of 4096 bytes, a data section that starts
      352 bytes into one, and a tied tensor of 8192 bytes at its head. */
  lemma TiedIsReleased()
    ensures var base, t := 0x7f12_3456_7160, Span(0, 8192);
      InFileOrder([t, t]) && !Intact(Ranges(base, 4096, [t, t][..1]), base, t)
  {
    var base, t := 0x7f12_3456_7160, Span(0, 8192);
    assert [t, t][..1] == [t] && [t][..0] == [];
    LaterTensorsIntact(base, 4096, [t, t], 1, 1);
    assert RoundUp(base, 4096) == 0x7f12_3456_8000 && RoundDown(base + 8192, 4096) == 0x7f12_3456_9000;
  }

  /** The frontier never passes the consumed prefix, unless nothing has been released. */
  lemma FrontierInside(base: nat, page: nat, end: nat)
    requires page > 0
    ensures Frontier(base, page, end) > RoundUp(base, page) ==> Frontier(base, page, end) <= base + end
  {
    DownBounds(base + end, page);
  }

  // ---- In place ----

  /** The mapping: which address ranges have been advised away so far. */
  class Mapping {
    const base: nat
    const page: nat
    var advised: seq<Range>

    constructor (start: nat, pageSize: nat)
      ensures base == start && page == pageSize && advised == []
    {
      base, page, advised := start, pageSize, [];
    }

    method ReleasePrefix(releasedUpTo: nat, newEnd: nat) returns (mark: nat)
      requires page > 0
      modifies this
      ensures mark == Release(base, page, releasedUpTo, newEnd).0
      ensures advised == old(advised) + Release(base, page, releasedUpTo, newEnd).1
    {
      if newEnd <= releasedUpTo { return releasedUpTo; }
      var from := (base + releasedUpTo + page - 1) / page * page;
      var to := (base + newEnd) / page * page;
      if to > from {
        UpBounds(base + releasedUpTo, page);
        advised := advised + [Range(from, to)];
        return to - base;
      }
      return releasedUpTo;
    }

    /** The upload loop of `pre_upload_gpu`. */
    method UploadAll(ts: seq<Span>)
      requires page > 0 && advised == []
      modifies this
      ensures advised == Ranges(base, page, ts)
    {
      hide Release;
      var released := 0;
      for i := 0 to |ts|
        invariant released == ReleasedUpTo(base, page, ts[..i]) && advised == Ranges(base, page, ts[..i])
      {
        assert ts[..i + 1][..i] == ts[..i];
        released := ReleasePrefix(released, ts[i].End());
      }
      assert ts[..|ts|] == ts;
    }
  }
}
