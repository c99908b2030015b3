/** Byte-pair merging: always the leftmost pair of lowest rank, until no adjacent pair is in the table. */
module Bpe {
  import opened Errors

  /** Stands between the two halves of a key; no byte-level symbol contains it. */
  const SEPARATOR: char := 1 as char

  /** The rank that no merge beats: u32::MAX. */
  const NO_RANK: nat := 0xFFFF_FFFF

  type Ranks = map<string, nat>
  type Symbols = seq<string>

  function Key(left: string, right: string): string { left + [SEPARATOR] + right }

  predicate Clean(s: string) { SEPARATOR !in s }

  predicate AllClean(s: Symbols) { forall i :: 0 <= i < |s| ==> Clean(s[i]) && s[i] != [] }

  lemma KeyShape(l: string, r: string)
    requires Clean(l)
    ensures |Key(l, r)| == |l| + 1 + |r| && Key(l, r)[|l|] == SEPARATOR
    ensures forall i :: 0 <= i < |l| ==> Key(l, r)[i] != SEPARATOR
    ensures Key(l, r)[..|l|] == l && Key(l, r)[|l| + 1..] == r
  {}

  /** Keys of different pairs differ. */
  lemma KeyInjective(l1: string, r1: string, l2: string, r2: string)
    requires Clean(l1) && Clean(l2) && Key(l1, r1) == Key(l2, r2)
    ensures l1 == l2 && r1 == r2
  {
    hide Key, Clean;
    KeyShape(l1, r1);
    KeyShape(l2, r2);
  }

  // ---- The table ----

  function SplitOnce(m: string): Option<(string, string)> {
    if m == [] then None
    else if m[0] == ' ' then Some(([], m[1..]))
    else match SplitOnce(m[1..])
      case None => None
      case Some(halves) => Some(([m[0]] + halves.0, halves.1))
  }

  /** It cuts at the first blank, if there is one. */
  lemma {:induction false} SplitsAtBlank(left: string, right: string)
    requires ' ' !in left
    ensures SplitOnce(left + [' '] + right) == Some((left, right)) && SplitOnce(left) == None
  {
    var m := left + [' '] + right;
    if left == [] {
      assert m[0] == ' ' && m[1..] == right;
    } else {
      SplitsAtBlank(left[1..], right);
      assert m[0] == left[0] && m[1..] == left[1..] + [' '] + right;
      assert [left[0]] + left[1..] == left;
    }
  }

  /** A merge "left right" gives the pair its index as rank, unless it is listed again further down. */
  lemma {:induction false} MergeHasRank(merges: seq<string>, k: nat, left: string, right: string)
    requires k < |merges| && merges[k] == left + [' '] + right && ' ' !in left && Clean(left)
    requires forall j :: k < j < |merges| ==> SplitOnce(merges[j]).None? || Clean(SplitOnce(merges[j]).value.0)
    requires forall j :: k < j < |merges| ==> merges[j] != merges[k]
    ensures Key(left, right) in RanksOf(merges) && RanksOf(merges)[Key(left, right)] == k
  {
    hide Key, Clean;
    var n := |merges| - 1;
    if k == n {
      SplitsAtBlank(left, right);
    } else {
      MergeHasRank(merges[..n], k, left, right);
      if SplitOnce(merges[n]).Some? {
        var halves := SplitOnce(merges[n]).value;
        SplitBack(merges[n]);
        if Key(halves.0, halves.1) == Key(left, right) { KeyInjective(halves.0, halves.1, left, right); }
      }
    }
  }

  lemma {:induction false} SplitBack(m: string)
    requires SplitOnce(m).Some?
    ensures m == SplitOnce(m).value.0 + [' '] + SplitOnce(m).value.1
  {
    if m[0] != ' ' {
      SplitBack(m[1..]);
      assert m == [m[0]] + m[1..];
    }
  }

  /** The table of a merge list: each merge at its index; a later duplicate wins. */
  function RanksOf(merges: seq<string>): Ranks {
    if merges == [] then map[]
    else
      var n := |merges| - 1;
      match SplitOnce(merges[n])
      case None => RanksOf(merges[..n])
      case Some(halves) => RanksOf(merges[..n])[Key(halves.0, halves.1) := n]
  }

  predicate Injective(ranks: Ranks) {
    forall k, l :: k in ranks && l in ranks && ranks[k] == ranks[l] ==> k == l
  }

  lemma {:induction false} RanksOfInjective(merges: seq<string>)
    ensures Injective(RanksOf(merges)) && forall k :: k in RanksOf(merges) ==> RanksOf(merges)[k] < |merges|
  {
    if merges != [] { RanksOfInjective(merges[..|merges| - 1]); }
  }

  method BuildRanks(merges: seq<string>) returns (ranks: Ranks)
    ensures ranks == RanksOf(merges) && Injective(ranks)
  {
    ranks := map[];
    for rank := 0 to |merges|
      invariant ranks == RanksOf(merges[..rank])
    {
      assert merges[..rank + 1][..rank] == merges[..rank];
      match SplitOnce(merges[rank])
      case None =>
      case Some(halves) => ranks := ranks[Key(halves.0, halves.1) := rank];
    }
    assert merges[..|merges|] == merges;
    RanksOfInjective(merges);
  }

  // ---- Merging ----

  function Rank(ranks: Ranks, left: string, right: string): (r: nat)
    ensures r <= NO_RANK
  {
    var key := Key(left, right);
    if key in ranks && ranks[key] < NO_RANK then ranks[key] else NO_RANK
  }

  function PairRank(ranks: Ranks, s: Symbols, i: nat): nat
    requires i + 1 < |s|
  {
    Rank(ranks, s[i], s[i + 1])
  }

  /** The leftmost pair of lowest rank among the first n pairs, or -1. */
  function BestOf(ranks: Ranks, s: Symbols, n: nat): (best: int)
    requires n == 0 || n < |s|
    ensures -1 <= best < n
    ensures best >= 0 ==> PairRank(ranks, s, best) < NO_RANK
    ensures forall j :: 0 <= j < n ==> PairRank(ranks, s, j) >= if best < 0 then NO_RANK else PairRank(ranks, s, best)
    ensures forall j :: 0 <= j < best ==> PairRank(ranks, s, j) > PairRank(ranks, s, best)
  {
    if n == 0 then -1
    else
      var b := BestOf(ranks, s, n - 1);
      var rank := if b < 0 then NO_RANK else PairRank(ranks, s, b);
      if PairRank(ranks, s, n - 1) < rank then n - 1 else b
  }

  function Best(ranks: Ranks, s: Symbols): int { BestOf(ranks, s, if |s| == 0 then 0 else |s| - 1) }

  function Merge(s: Symbols, i: nat): (t: Symbols)
    requires i + 1 < |s|
    ensures |t| == |s| - 1
  {
    s[..i] + [s[i] + s[i + 1]] + s[i + 2..]
  }

  function MergeAll(ranks: Ranks, s: Symbols): Symbols
    decreases |s|
  {
    var i := Best(ranks, s);
    if i < 0 then s else MergeAll(ranks, Merge(s, i))
  }

  function Concat(s: Symbols): string {
    if s == [] then [] else s[0] + Concat(s[1..])
  }

  /** The scan for the best pair. */
  method FindBest(ranks: Ranks, symbols: Symbols) returns (bestIdx: int)
    ensures bestIdx == Best(ranks, symbols)
  {
    hide Key;
    var bestRank := NO_RANK;
    bestIdx := -1;
    for i := 0 to if |symbols| == 0 then 0 else |symbols| - 1
      invariant bestIdx == BestOf(ranks, symbols, i)
      invariant bestRank == if bestIdx < 0 then NO_RANK else PairRank(ranks, symbols, bestIdx)
    {
      var key := Key(symbols[i], symbols[i + 1]);
      if key in ranks && ranks[key] < bestRank {
        bestRank, bestIdx := ranks[key], i;
      }
    }
  }

  method MergeSymbols(ranks: Ranks, symbols: Symbols) returns (merged: Symbols)
    ensures merged == MergeAll(ranks, symbols)
  {
    hide Best;
    merged := symbols;
    while true
      invariant MergeAll(ranks, merged) == MergeAll(ranks, symbols)
      decreases |merged|
    {
      var i := FindBest(ranks, merged);
      BestInRange(ranks, merged);
      if i < 0 { break; }
      merged := merged[..i] + [merged[i] + merged[i + 1]] + merged[i + 2..];
    }
  }

  lemma BestInRange(ranks: Ranks, s: Symbols)
    ensures Best(ranks, s) >= 0 ==> Best(ranks, s) + 1 < |s|
  {}

  lemma {:induction false} ConcatJoin(a: Symbols, b: Symbols)
    ensures Concat(a + b) == Concat(a) + Concat(b)
  {
    if a == [] {
      assert a + b == b;
    } else {
      hide Concat;
      ConcatJoin(a[1..], b);
      TailOfJoin(a, b);
      ConcatStep(a);
      ConcatStep(a + b);
      Regroup(a[0], Concat(a[1..]), Concat(b));
    }
  }

  lemma TailOfJoin(a: Symbols, b: Symbols)
    requires a != []
    ensures (a + b)[0] == a[0] && (a + b)[1..] == a[1..] + b
  {}

  lemma ConcatStep(s: Symbols)
    requires s != []
    ensures Concat(s) == s[0] + Concat(s[1..])
  {}

  lemma Regroup(a: string, b: string, c: string)
    ensures (a + b) + c == a + (b + c)
  {}

  lemma MergeKeepsText(s: Symbols, i: nat)
    requires i + 1 < |s|
    ensures Concat(Merge(s, i)) == Concat(s)
  {
    hide Concat, Merge;
    var p, a, b, q := s[..i], s[i], s[i + 1], s[i + 2..];
    AroundPair(s, i);
    ConcatJoin(p, [a, b] + q);
    ConcatJoin(p, [a + b] + q);
    ConcatPair(a, b, q);
  }

  lemma AroundPair(s: Symbols, i: nat)
    requires i + 1 < |s|
    ensures s == s[..i] + ([s[i], s[i + 1]] + s[i + 2..])
    ensures Merge(s, i) == s[..i] + ([s[i] + s[i + 1]] + s[i + 2..])
  {}

  lemma ConcatPair(a: string, b: string, q: Symbols)
    ensures Concat([a, b] + q) == Concat([a + b] + q)
  {
    assert ([a, b] + q)[1..] == [b] + q && ([b] + q)[1..] == q && ([a + b] + q)[1..] == q;
    assert a + (b + Concat(q)) == a + b + Concat(q);
  }

  predicate NoPairLeft(ranks: Ranks, s: Symbols) {
    forall i :: 0 <= i < |s| - 1 ==> PairRank(ranks, s, i) == NO_RANK
  }

  /** Every run ends with no adjacent pair in the table and with the text it began with. */
  lemma {:induction false} MergingEnds(ranks: Ranks, s: Symbols)
    ensures NoPairLeft(ranks, MergeAll(ranks, s)) && Concat(MergeAll(ranks, s)) == Concat(s)
    ensures AllClean(s) ==> AllClean(MergeAll(ranks, s))
    decreases |s|
  {
    hide Merge, Rank, Concat;
    var i := Best(ranks, s);
    if i >= 0 {
      MergeKeepsText(s, i);
      if AllClean(s) { MergeClean(s, i); }
      MergingEnds(ranks, Merge(s, i));
    }
  }

  // ---- Ranks never go down ----

  /** Every merge that produces a component of a table entry ranks below the entry. */
  ghost predicate WellFounded(ranks: Ranks) {
    forall a: string, b: string, c: string, d: string :: Outranks(ranks, a, b, c, d)
  }

  predicate Outranks(ranks: Ranks, a: string, b: string, c: string, d: string) {
    Rank(ranks, a, b) < NO_RANK && Rank(ranks, c, d) < NO_RANK && (a + b == c || a + b == d) ==>
      Rank(ranks, a, b) < Rank(ranks, c, d)
  }

  /** A symbol as they come up in lists. */
  predicate IsSymbol(s: string) { Clean(s) && s != [] }

  /** No entry (ab, d) ranks below (a, b), unless (b, d) does too and so is merged before "ab" can stand beside d;
      and likewise for (c, ab) on the other side, where the leftmost of two equals goes first. */
  ghost predicate NothingUndercuts(ranks: Ranks) {
    forall a: string, b: string, d: string :: IsSymbol(a) && IsSymbol(b) && IsSymbol(d) ==>
      RightKept(ranks, a, b, d) && LeftKept(ranks, d, a, b)
  }

  predicate RightKept(ranks: Ranks, a: string, b: string, d: string) {
    Rank(ranks, a + b, d) < Rank(ranks, a, b) < NO_RANK ==> Rank(ranks, b, d) < Rank(ranks, a, b)
  }

  predicate LeftKept(ranks: Ranks, c: string, a: string, b: string) {
    Rank(ranks, c, a + b) < Rank(ranks, a, b) < NO_RANK ==> Rank(ranks, c, a) <= Rank(ranks, a, b)
  }

  lemma WellFoundedKeeps(ranks: Ranks)
    requires WellFounded(ranks)
    ensures NothingUndercuts(ranks)
  {
    hide Rank;
    forall a: string, b: string, d: string
      ensures RightKept(ranks, a, b, d) && LeftKept(ranks, d, a, b)
    {
      assert Outranks(ranks, a, b, a + b, d) && Outranks(ranks, a, b, d, a + b);
    }
  }

  /** After a merge of lowest rank no pair ranks lower. */
  lemma MergedRanks(ranks: Ranks, s: Symbols, j: nat)
    requires NothingUndercuts(ranks) && AllClean(s) && Best(ranks, s) >= 0 && j + 1 < |s| - 1
    ensures PairRank(ranks, Merge(s, Best(ranks, s)), j) >= PairRank(ranks, s, Best(ranks, s))
  {
    hide Rank, Merge, NothingUndercuts;
    var i := Best(ranks, s);
    var t := Merge(s, i);
    MergeAt(s, i, j);
    MergeAt(s, i, j + 1);
    if j + 1 == i {
      UndercutAt(ranks, s[i], s[i + 1], s[j]);
      assert PairRank(ranks, s, j) > PairRank(ranks, s, i);
    } else if j == i {
      UndercutAt(ranks, s[i], s[i + 1], s[i + 2]);
      assert PairRank(ranks, s, i + 1) >= PairRank(ranks, s, i);
    } else {
      assert PairRank(ranks, t, j) == PairRank(ranks, s, if j < i then j else j + 1);
    }
  }

  lemma UndercutAt(ranks: Ranks, a: string, b: string, d: string)
    requires NothingUndercuts(ranks) && IsSymbol(a) && IsSymbol(b) && IsSymbol(d)
    ensures RightKept(ranks, a, b, d) && LeftKept(ranks, d, a, b)
  {}

  lemma MergeAt(s: Symbols, i: nat, j: nat)
    requires i + 1 < |s| && j < |s| - 1
    ensures Merge(s, i)[j] == if j < i then s[j] else if j == i then s[i] + s[i + 1] else s[j + 1]
  {}

  /** The ranks of the merges of a run, in order. */
  function RanksApplied(ranks: Ranks, s: Symbols): seq<nat>
    decreases |s|
  {
    var i := Best(ranks, s);
    if i < 0 then [] else [PairRank(ranks, s, i)] + RanksApplied(ranks, Merge(s, i))
  }

  predicate NonDecreasing(r: seq<nat>) { forall i :: 0 <= i < |r| - 1 ==> r[i] <= r[i + 1] }

  lemma {:induction false} RanksNeverDrop(ranks: Ranks, s: Symbols)
    requires NothingUndercuts(ranks) && AllClean(s)
    ensures NonDecreasing(RanksApplied(ranks, s))
    decreases |s|
  {
    var i := Best(ranks, s);
    if i >= 0 {
      var t := Merge(s, i);
      MergeClean(s, i);
      RanksNeverDrop(ranks, t);
      if Best(ranks, t) >= 0 { MergedRanks(ranks, s, Best(ranks, t)); }
    }
  }

  /** The ranks applied never go down, on any list of symbols, exactly when nothing in the table undercuts. */
  lemma NeverDropIff(ranks: Ranks)
    ensures (forall s :: AllClean(s) ==> NonDecreasing(RanksApplied(ranks, s))) <==> NothingUndercuts(ranks)
  {
    hide Rank, RanksApplied, NonDecreasing;
    if NothingUndercuts(ranks) {
      forall s | AllClean(s)
        ensures NonDecreasing(RanksApplied(ranks, s))
      {
        RanksNeverDrop(ranks, s);
      }
    } else {
      var a: string, b: string, d: string :| IsSymbol(a) && IsSymbol(b) && IsSymbol(d)
        && !(RightKept(ranks, a, b, d) && LeftKept(ranks, d, a, b));
      if !RightKept(ranks, a, b, d) {
        DropsRight(ranks, a, b, d);
        assert AllClean([a, b, d]);
      } else {
        DropsLeft(ranks, d, a, b);
        assert AllClean([d, a, b]);
      }
    }
  }

  lemma DropsRight(ranks: Ranks, a: string, b: string, d: string)
    requires !RightKept(ranks, a, b, d)
    ensures !NonDecreasing(RanksApplied(ranks, [a, b, d]))
  {
    hide Rank;
    var s := [a, b, d];
    assert PairRank(ranks, s, 0) == Rank(ranks, a, b) && PairRank(ranks, s, 1) == Rank(ranks, b, d);
    assert BestOf(ranks, s, 1) == 0 && Best(ranks, s) == 0;
    assert Merge(s, 0) == [a + b, d];
    PairDrops(ranks, s, a + b, d);
  }

  lemma DropsLeft(ranks: Ranks, c: string, a: string, b: string)
    requires !LeftKept(ranks, c, a, b)
    ensures !NonDecreasing(RanksApplied(ranks, [c, a, b]))
  {
    hide Rank;
    var s := [c, a, b];
    assert PairRank(ranks, s, 0) == Rank(ranks, c, a) && PairRank(ranks, s, 1) == Rank(ranks, a, b);
    assert Best(ranks, s) == 1;
    assert Merge(s, 1) == [c, a + b];
    PairDrops(ranks, s, c, a + b);
  }

  /** A first merge that leaves one pair, of lower rank. */
  lemma PairDrops(ranks: Ranks, s: Symbols, c: string, d: string)
    requires Best(ranks, s) >= 0 && Merge(s, Best(ranks, s)) == [c, d]
    requires Rank(ranks, c, d) < PairRank(ranks, s, Best(ranks, s))
    ensures !NonDecreasing(RanksApplied(ranks, s))
  {
    hide Rank, Merge;
    var t := [c, d];
    assert PairRank(ranks, t, 0) == Rank(ranks, c, d);
    assert BestOf(ranks, t, 0) == -1 && Best(ranks, t) == 0;
    var rest := RanksApplied(ranks, Merge(t, 0));
    assert RanksApplied(ranks, t) == [Rank(ranks, c, d)] + rest;
    var r := RanksApplied(ranks, s);
    assert r == [PairRank(ranks, s, Best(ranks, s))] + ([Rank(ranks, c, d)] + rest);
    assert r[0] > r[1];
  }

  // ---- All occurrences at once ----

  /** One pass from the left, merging every occurrence of (a, b). */
  function Pass(s: Symbols, a: string, b: string): (t: Symbols)
    ensures |t| <= |s|
  {
    if |s| < 2 then s
    else if s[0] == a && s[1] == b then [a + b] + Pass(s[2..], a, b)
    else [s[0]] + Pass(s[1..], a, b)
  }

  predicate Occurs(s: Symbols, a: string, b: string, i: nat) { i + 1 < |s| && s[i] == a && s[i + 1] == b }

  lemma {:induction false} PassShrinks(s: Symbols, a: string, b: string, i: nat)
    requires Occurs(s, a, b, i)
    ensures |Pass(s, a, b)| < |s|
  {
    if !(s[0] == a && s[1] == b) { PassShrinks(s[1..], a, b, i - 1); }
  }

  /** Rank by rank: find the lowest rank present, merge all its occurrences, repeat. */
  function ByRank(ranks: Ranks, s: Symbols): Symbols
    decreases |s|
  {
    var i := Best(ranks, s);
    if i < 0 then s
    else
      PassShrinks(s, s[i], s[i + 1], i);
      ByRank(ranks, Pass(s, s[i], s[i + 1]))
  }

  /** A prefix without occurrences passes unchanged. */
  lemma {:induction false} PassSkips(p: Symbols, rest: Symbols, a: string, b: string)
    requires forall i :: 0 <= i < |p| ==> !Occurs(p + rest, a, b, i)
    ensures Pass(p + rest, a, b) == p + Pass(rest, a, b)
  {
    hide Pass;
    if p == [] {
      assert p + rest == rest;
    } else {
      var s := p + rest;
      TailOfJoin(p, rest);
      assert !Occurs(s, a, b, 0);
      PassFirst(s, a, b);
      forall i | 0 <= i < |p[1..]|
        ensures !Occurs(p[1..] + rest, a, b, i)
      {
        assert !Occurs(s, a, b, i + 1);
      }
      PassSkips(p[1..], rest, a, b);
      HeadJoined(p, Pass(rest, a, b));
    }
  }

  lemma PassFirst(s: Symbols, a: string, b: string)
    requires s != [] && !Occurs(s, a, b, 0)
    ensures Pass(s, a, b) == [s[0]] + Pass(s[1..], a, b)
  {}

  lemma HeadJoined(p: Symbols, t: Symbols)
    requires p != []
    ensures [p[0]] + (p[1..] + t) == p + t
  {}

  /** Merging the leftmost occurrence first does not change what a pass gives. */
  lemma PassAfterMerge(s: Symbols, i: nat, a: string, b: string)
    requires Occurs(s, a, b, i) && a != [] && b != []
    requires forall j :: 0 <= j < i ==> !Occurs(s, a, b, j)
    ensures Pass(Merge(s, i), a, b) == Pass(s, a, b)
  {
    hide Pass, Merge, Occurs;
    AroundOccurrence(s, i, a, b);
    var p, q := s[..i], s[i + 2..];
    var m, t := a + b, Merge(s, i);
    PassSkips(p, [a, b] + q, a, b);
    PassHead(a, b, q);
    forall j | 0 <= j < i + 1
      ensures !Occurs(t, a, b, j)
    {
      NotAcross(s, i, a, b, j);
    }
    PassSkips(p + [m], q, a, b);
    assert p + ([m] + Pass(q, a, b)) == (p + [m]) + Pass(q, a, b);
  }

  lemma AroundOccurrence(s: Symbols, i: nat, a: string, b: string)
    requires Occurs(s, a, b, i)
    ensures i + 2 <= |s| && s == s[..i] + ([a, b] + s[i + 2..]) && Merge(s, i) == (s[..i] + [a + b]) + s[i + 2..]
  {}

  lemma PassHead(a: string, b: string, q: Symbols)
    ensures Pass([a, b] + q, a, b) == [a + b] + Pass(q, a, b)
  {
    assert ([a, b] + q)[2..] == q;
  }

  lemma NotAcross(s: Symbols, i: nat, a: string, b: string, j: nat)
    requires Occurs(s, a, b, i) && a != [] && b != [] && j <= i
    requires forall k :: 0 <= k < i ==> !Occurs(s, a, b, k)
    ensures !Occurs(Merge(s, i), a, b, j)
  {
    hide Merge;
    assert |a + b| > |a| && |a + b| > |b|;
    if j + 1 < |s| - 1 {
      MergeAt(s, i, j);
      MergeAt(s, i, j + 1);
      assert j < i ==> !Occurs(s, a, b, j);
    }
  }

  /** With injective ranks a rank belongs to one pair. */
  lemma SamePair(ranks: Ranks, a: string, b: string, c: string, d: string)
    requires Injective(ranks) && Clean(a) && Clean(c)
    requires Rank(ranks, a, b) == Rank(ranks, c, d) < NO_RANK
    ensures a == c && b == d
  {
    KeyInjective(a, b, c, d);
  }

  /** While its ranks do not drop, merging step by step, as the code does, runs through all occurrences of the
      best pair before anything else: it gives the same as one pass over them, and goes on without a drop. */
  lemma {:induction false} StepsArePass(ranks: Ranks, s: Symbols)
    requires Injective(ranks) && AllClean(s) && Best(ranks, s) >= 0 && NonDecreasing(RanksApplied(ranks, s))
    ensures var i := Best(ranks, s); var t := Pass(s, s[i], s[i + 1]);
      MergeAll(ranks, s) == MergeAll(ranks, t) && NonDecreasing(RanksApplied(ranks, t))
    decreases |s|
  {
    var i := Best(ranks, s);
    hide Rank, Merge, Pass, MergeAll, RanksApplied;
    var a, b, t := s[i], s[i + 1], Merge(s, i);
    forall j | 0 <= j < i
      ensures !Occurs(s, a, b, j)
    {
      assert PairRank(ranks, s, j) > PairRank(ranks, s, i);
    }
    PassAfterMerge(s, i, a, b);
    MergeAllStep(ranks, s);
    MergeClean(s, i);
    NextRank(ranks, s);
    if j :| 0 <= j < |t| && Occurs(t, a, b, j) {
      var k := Best(ranks, t);
      assert PairRank(ranks, t, j) == PairRank(ranks, s, i);
      SamePair(ranks, t[k], t[k + 1], a, b);
      StepsArePass(ranks, t);
    } else {
      NothingToPass(t, a, b);
    }
  }

  /** A run that never drops goes on with one that does not, at no lower a rank. */
  lemma NextRank(ranks: Ranks, s: Symbols)
    requires Best(ranks, s) >= 0 && NonDecreasing(RanksApplied(ranks, s))
    ensures var t := Merge(s, Best(ranks, s));
      && NonDecreasing(RanksApplied(ranks, t))
      && (Best(ranks, t) >= 0 ==> PairRank(ranks, t, Best(ranks, t)) >= PairRank(ranks, s, Best(ranks, s)))
  {
    hide Rank, Merge;
    var t := Merge(s, Best(ranks, s));
    var r, rest := RanksApplied(ranks, s), RanksApplied(ranks, t);
    assert r == [PairRank(ranks, s, Best(ranks, s))] + rest;
    forall i | 0 <= i < |rest| - 1
      ensures rest[i] <= rest[i + 1]
    {
      assert r[i + 1] == rest[i] && r[i + 2] == rest[i + 1];
    }
    if Best(ranks, t) >= 0 { assert r[0] <= r[1]; }
  }

  lemma MergeAllStep(ranks: Ranks, s: Symbols)
    requires Best(ranks, s) >= 0
    ensures MergeAll(ranks, s) == MergeAll(ranks, Merge(s, Best(ranks, s)))
  {}

  lemma MergeClean(s: Symbols, i: nat)
    requires i + 1 < |s| && AllClean(s)
    ensures AllClean(Merge(s, i))
  {}

  lemma NothingToPass(t: Symbols, a: string, b: string)
    requires forall j :: 0 <= j < |t| ==> !Occurs(t, a, b, j)
    ensures Pass(t, a, b) == t
  {
    assert t + [] == t;
    PassSkips(t, [], a, b);
  }

  lemma {:induction false} PassClean(s: Symbols, a: string, b: string)
    requires AllClean(s)
    ensures AllClean(Pass(s, a, b))
  {
    if |s| >= 2 {
      if s[0] == a && s[1] == b { PassClean(s[2..], a, b); } else { PassClean(s[1..], a, b); }
    }
  }

  /** A run whose ranks never drop equals merging rank by rank, all occurrences at once. */
  lemma {:induction false} RunIsByRank(ranks: Ranks, s: Symbols)
    requires Injective(ranks) && AllClean(s) && NonDecreasing(RanksApplied(ranks, s))
    ensures MergeAll(ranks, s) == ByRank(ranks, s)
    decreases |s|
  {
    hide NonDecreasing;
    var i := Best(ranks, s);
    if i >= 0 {
      StepsArePass(ranks, s);
      PassShrinks(s, s[i], s[i + 1], i);
      PassClean(s, s[i], s[i + 1]);
      RunIsByRank(ranks, Pass(s, s[i], s[i + 1]));
    }
  }

  /** So on a table where nothing undercuts the two are the same on every list; a well-founded one is such a table. */
  lemma StepwiseIsByRank(ranks: Ranks, s: Symbols)
    requires (WellFounded(ranks) || NothingUndercuts(ranks)) && Injective(ranks) && AllClean(s)
    ensures MergeAll(ranks, s) == ByRank(ranks, s)
  {
    hide NonDecreasing, NothingUndercuts;
    if WellFounded(ranks) { WellFoundedKeeps(ranks); }
    RanksNeverDrop(ranks, s);
    RunIsByRank(ranks, s);
  }

  // ---- Tables whose entries never overlap ----

  /** No symbol is the right half of one entry and the left half of another, so no two entries compete for a symbol. */
  ghost predicate Disjoint(ranks: Ranks) {
    forall x: string, y: string, z: string :: Apart(ranks, x, y, z)
  }

  predicate Apart(ranks: Ranks, x: string, y: string, z: string) {
    !(IsSymbol(x) && IsSymbol(y) && IsSymbol(z) && Rank(ranks, x, y) < NO_RANK && Rank(ranks, y, z) < NO_RANK)
  }

  /** Two merges apart from each other, in either order. */
  lemma MergesCommute(s: Symbols, i: nat, k: nat)
    requires i + 2 <= k && k + 1 < |s|
    ensures Merge(Merge(s, k), i) == Merge(Merge(s, i), k - 1)
    ensures Merge(s, k)[i] == s[i] && Merge(s, k)[i + 1] == s[i + 1]
    ensures Merge(s, i)[k - 1] == s[k] && Merge(s, i)[k] == s[k + 1]
  {
    hide Merge;
    var t, u := Merge(s, k), Merge(s, i);
    MergeAt(s, k, i);
    MergeAt(s, k, i + 1);
    MergeAt(s, i, k - 1);
    MergeAt(s, i, k);
    forall j | 0 <= j < |s| - 2
      ensures Merge(t, i)[j] == Merge(u, k - 1)[j]
    {
      MergeAt(t, i, j);
      MergeAt(u, k - 1, j);
      MergeAt(s, k, j);
      MergeAt(s, k, j + 1);
      MergeAt(s, i, j);
      MergeAt(s, i, j + 1);
    }
  }

  /** There, merging any pair of the table first leaves the outcome as it is. */
  lemma {:induction false} AnyMergeFirst(ranks: Ranks, s: Symbols, i: nat)
    requires Disjoint(ranks) && AllClean(s) && i + 1 < |s| && PairRank(ranks, s, i) < NO_RANK
    ensures MergeAll(ranks, Merge(s, i)) == MergeAll(ranks, s)
    decreases |s|
  {
    hide Rank, Merge, MergeAll, Disjoint;
    var k := Best(ranks, s);
    MergeAllStep(ranks, s);
    MergeClean(s, i);
    MergeClean(s, k);
    if i < k {
      NotNext(ranks, s, i, k);
      MergesCommute(s, i, k);
      AnyMergeFirst(ranks, Merge(s, k), i);
      AnyMergeFirst(ranks, Merge(s, i), k - 1);
    } else if k < i {
      NotNext(ranks, s, k, i);
      MergesCommute(s, k, i);
      AnyMergeFirst(ranks, Merge(s, k), i - 1);
      AnyMergeFirst(ranks, Merge(s, i), k);
    }
  }

  lemma NotNext(ranks: Ranks, s: Symbols, i: nat, k: nat)
    requires Disjoint(ranks) && AllClean(s) && i < k && k + 1 < |s|
    requires PairRank(ranks, s, i) < NO_RANK && PairRank(ranks, s, k) < NO_RANK
    ensures i + 2 <= k
  {
    assert Apart(ranks, s[i], s[i + 1], s[k + 1]);
  }

  lemma {:induction false} PassKeepsOutcome(ranks: Ranks, s: Symbols, a: string, b: string)
    requires Disjoint(ranks) && AllClean(s) && IsSymbol(a) && IsSymbol(b) && Rank(ranks, a, b) < NO_RANK
    ensures MergeAll(ranks, Pass(s, a, b)) == MergeAll(ranks, s)
    decreases |s|
  {
    hide Rank, Merge, MergeAll, Disjoint, Pass;
    if j :| 0 <= j < |s| && Occurs(s, a, b, j) {
      var i := FirstOccurrence(s, a, b, j);
      PassAfterMerge(s, i, a, b);
      MergeClean(s, i);
      AnyMergeFirst(ranks, s, i);
      PassKeepsOutcome(ranks, Merge(s, i), a, b);
    } else {
      NothingToPass(s, a, b);
    }
  }

  lemma {:induction false} FirstOccurrence(s: Symbols, a: string, b: string, j: nat) returns (i: nat)
    requires Occurs(s, a, b, j)
    ensures Occurs(s, a, b, i) && forall k :: 0 <= k < i ==> !Occurs(s, a, b, k)
  {
    i := j;
    if k :| 0 <= k < j && Occurs(s, a, b, k) { i := FirstOccurrence(s, a, b, k); }
  }

  /** On a table whose entries never overlap the two formulations are the same on every list, whatever the ranks. */
  lemma {:induction false} DisjointIsByRank(ranks: Ranks, s: Symbols)
    requires Disjoint(ranks) && AllClean(s)
    ensures MergeAll(ranks, s) == ByRank(ranks, s)
    decreases |s|
  {
    hide Disjoint;
    var i := Best(ranks, s);
    if i >= 0 {
      PassShrinks(s, s[i], s[i + 1], i);
      PassClean(s, s[i], s[i + 1]);
      PassKeepsOutcome(ranks, s, s[i], s[i + 1]);
      DisjointIsByRank(ranks, Pass(s, s[i], s[i + 1]));
    }
  }

  // ---- Tables on which ranks drop ----

  /** "ab a" ranks below "a b", the merge that makes its left half. */
  const UPSIDE_DOWN: Ranks := map[Key("ab", "a") := 0, Key("a", "b") := 1]

  lemma UpsideDownRank(l: string, r: string)
    requires Clean(l)
    ensures Rank(UPSIDE_DOWN, l, r)
      == if l == "ab" && r == "a" then 0 else if l == "a" && r == "b" then 1 else NO_RANK
  {
    if Key(l, r) == Key("ab", "a") { KeyInjective(l, r, "ab", "a"); }
    if Key(l, r) == Key("a", "b") { KeyInjective(l, r, "a", "b"); }
  }

  /** Which pair goes next, in the four lists of symbols that come up. */
  lemma UpsideDownBest()
    ensures Best(UPSIDE_DOWN, ["a", "b", "a", "b"]) == 0 && Best(UPSIDE_DOWN, ["ab", "a", "b"]) == 0
    ensures Best(UPSIDE_DOWN, ["aba", "b"]) == -1 && Best(UPSIDE_DOWN, ["ab", "ab"]) == -1
    ensures Rank(UPSIDE_DOWN, "a", "b") == 1 && Rank(UPSIDE_DOWN, "ab", "a") == 0
  {
    hide Rank;
    UpsideDownRank("a", "b");
    UpsideDownRank("b", "a");
    UpsideDownRank("ab", "a");
    UpsideDownRank("aba", "b");
    UpsideDownRank("ab", "ab");
    var s := ["a", "b", "a", "b"];
    assert BestOf(UPSIDE_DOWN, s, 1) == 0 && BestOf(UPSIDE_DOWN, s, 2) == 0;
  }

  lemma UpsideDownMerges()
    ensures Merge(["a", "b", "a", "b"], 0) == ["ab", "a", "b"] && Merge(["ab", "a", "b"], 0) == ["aba", "b"]
    ensures Pass(["a", "b", "a", "b"], "a", "b") == ["ab", "ab"]
  {
    assert "a" + "b" == "ab" && "ab" + "a" == "aba";
  }

  lemma UpsideDownTable()
    ensures Injective(UPSIDE_DOWN) && !WellFounded(UPSIDE_DOWN)
  {
    UpsideDownBest();
    assert !Outranks(UPSIDE_DOWN, "a", "b", "ab", "a");
  }

  /** On such a table merging step by step is not merging rank by rank, and the ranks applied do drop. */
  lemma OrderMatters()
    ensures Injective(UPSIDE_DOWN) && !WellFounded(UPSIDE_DOWN)
    ensures !NothingUndercuts(UPSIDE_DOWN) && !Disjoint(UPSIDE_DOWN)
    ensures var s := ["a", "b", "a", "b"];
      && AllClean(s) && MergeAll(UPSIDE_DOWN, s) == ["aba", "b"] && ByRank(UPSIDE_DOWN, s) == ["ab", "ab"]
      && RanksApplied(UPSIDE_DOWN, s) == [1, 0]
  {
    hide Rank, Best, Merge, Pass, Injective, WellFounded, NothingUndercuts, Disjoint;
    UpsideDownTable();
    UpsideDownBest();
    UpsideDownMerges();
    var s := ["a", "b", "a", "b"];
    assert AllClean(s);
    if NothingUndercuts(UPSIDE_DOWN) { StepwiseIsByRank(UPSIDE_DOWN, s); }
    if Disjoint(UPSIDE_DOWN) { DisjointIsByRank(UPSIDE_DOWN, s); }
  }

  /** The same overlap, with two entries that rejoin what it parts. */
  const REJOINED: Ranks := map[Key("ab", "a") := 0, Key("a", "b") := 1, Key("aba", "b") := 2, Key("ab", "ab") := 3]

  lemma RejoinedRank(l: string, r: string)
    requires Clean(l)
    ensures Rank(REJOINED, l, r)
      == if l == "ab" && r == "a" then 0 else if l == "a" && r == "b" then 1
         else if l == "aba" && r == "b" then 2 else if l == "ab" && r == "ab" then 3 else NO_RANK
  {
    if Key(l, r) == Key("ab", "a") { KeyInjective(l, r, "ab", "a"); }
    if Key(l, r) == Key("a", "b") { KeyInjective(l, r, "a", "b"); }
    if Key(l, r) == Key("aba", "b") { KeyInjective(l, r, "aba", "b"); }
    if Key(l, r) == Key("ab", "ab") { KeyInjective(l, r, "ab", "ab"); }
  }

  lemma RejoinedRanks()
    ensures Rank(REJOINED, "a", "b") == 1 && Rank(REJOINED, "b", "a") == NO_RANK && Rank(REJOINED, "ab", "a") == 0
    ensures Rank(REJOINED, "aba", "b") == 2 && Rank(REJOINED, "ab", "ab") == 3 && Rank(REJOINED, "abab", "a") == NO_RANK
    ensures Rank(REJOINED, "ab", "aba") == NO_RANK
  {
    hide Rank;
    RejoinedRank("a", "b");
    RejoinedRank("b", "a");
    RejoinedRank("ab", "a");
    RejoinedRank("aba", "b");
    RejoinedRank("ab", "ab");
    RejoinedRank("abab", "a");
    RejoinedRank("ab", "aba");
  }

  /** Which pair goes next on the lists of the shorter run. */
  lemma RejoinedShort()
    ensures Best(REJOINED, ["a", "b", "a", "b"]) == 0 && Best(REJOINED, ["ab", "a", "b"]) == 0
    ensures Best(REJOINED, ["aba", "b"]) == 0 && Best(REJOINED, ["ab", "ab"]) == 0 && Best(REJOINED, ["abab"]) == -1
  {
    hide Rank;
    RejoinedRanks();
    var s := ["a", "b", "a", "b"];
    assert BestOf(REJOINED, s, 1) == 0 && BestOf(REJOINED, s, 2) == 0;
  }

  /** And on those of the longer. */
  lemma RejoinedLong()
    ensures Best(REJOINED, ["a", "b", "a", "b", "a"]) == 0 && Best(REJOINED, ["ab", "a", "b", "a"]) == 0
    ensures Best(REJOINED, ["aba", "b", "a"]) == 0 && Best(REJOINED, ["abab", "a"]) == -1
    ensures Best(REJOINED, ["ab", "ab", "a"]) == 1 && Best(REJOINED, ["ab", "aba"]) == -1
  {
    hide Rank;
    RejoinedRanks();
    var s, t := ["a", "b", "a", "b", "a"], ["ab", "a", "b", "a"];
    assert BestOf(REJOINED, s, 1) == 0 && BestOf(REJOINED, s, 2) == 0 && BestOf(REJOINED, s, 3) == 0;
    assert BestOf(REJOINED, t, 1) == 0 && BestOf(REJOINED, t, 2) == 0;
  }

  lemma RejoinedMerges()
    ensures Merge(["a", "b", "a", "b"], 0) == ["ab", "a", "b"] && Merge(["ab", "a", "b"], 0) == ["aba", "b"]
    ensures Merge(["aba", "b"], 0) == ["abab"]
    ensures Pass(["a", "b", "a", "b"], "a", "b") == ["ab", "ab"] && Pass(["ab", "ab"], "ab", "ab") == ["abab"]
    ensures Merge(["a", "b", "a", "b", "a"], 0) == ["ab", "a", "b", "a"]
    ensures Merge(["ab", "a", "b", "a"], 0) == ["aba", "b", "a"] && Merge(["aba", "b", "a"], 0) == ["abab", "a"]
    ensures Pass(["a", "b", "a", "b", "a"], "a", "b") == ["ab", "ab", "a"]
    ensures Pass(["ab", "ab", "a"], "ab", "a") == ["ab", "aba"]
  {
    assert "a" + "b" == "ab" && "ab" + "a" == "aba" && "aba" + "b" == "abab" && "ab" + "ab" == "abab";
  }

  /** What an overlap does alone does not decide: on this table the list that parts the two formulations above comes out
      the same, and a longer one does not. */
  lemma ContextMatters()
    ensures MergeAll(REJOINED, ["a", "b", "a", "b"]) == ["abab"] == ByRank(REJOINED, ["a", "b", "a", "b"])
    ensures MergeAll(REJOINED, ["a", "b", "a", "b", "a"]) == ["abab", "a"]
    ensures ByRank(REJOINED, ["a", "b", "a", "b", "a"]) == ["ab", "aba"]
  {
    hide Rank, Best, Merge, Pass;
    RejoinedShort();
    RejoinedLong();
    RejoinedMerges();
  }

  /** "ab c" ranks below "a b", but the two never compete for a symbol. */
  const LOOSE: Ranks := map[Key("ab", "c") := 0, Key("a", "b") := 1]

  lemma LooseRank(l: string, r: string)
    requires Clean(l)
    ensures Rank(LOOSE, l, r) == if l == "ab" && r == "c" then 0 else if l == "a" && r == "b" then 1 else NO_RANK
  {
    if Key(l, r) == Key("ab", "c") { KeyInjective(l, r, "ab", "c"); }
    if Key(l, r) == Key("a", "b") { KeyInjective(l, r, "a", "b"); }
  }

  /** Here ranks drop on some list and yet every list comes out the same. */
  lemma DropsButAgrees(s: Symbols)
    requires AllClean(s)
    ensures !NothingUndercuts(LOOSE) && MergeAll(LOOSE, s) == ByRank(LOOSE, s)
  {
    hide Rank;
    assert !RightKept(LOOSE, "a", "b", "c") by {
      LooseRank("a", "b");
      LooseRank("b", "c");
      LooseRank("a" + "b", "c");
      assert "a" + "b" == "ab";
    }
    assert IsSymbol("a") && IsSymbol("b") && IsSymbol("c");
    forall x: string, y: string, z: string
      ensures Apart(LOOSE, x, y, z)
    {
      if IsSymbol(x) && IsSymbol(y) {
        LooseRank(x, y);
        LooseRank(y, z);
      }
    }
    DisjointIsByRank(LOOSE, s);
  }
}
