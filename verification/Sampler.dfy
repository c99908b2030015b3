/** Sampling a token: sort, keep the top k, softmax, keep the nucleus, and draw. */
module Sampling {
  import opened Sums
  import opened Elementary
  import opened Attention

  datatype Candidate = Candidate(id: nat, logit: real)

  datatype SamplingConfig = SamplingConfig(temperature: real, topK: nat, topP: real)

  function Candidates(logits: Vec): (cs: seq<Candidate>)
    ensures |cs| == |logits|
  {
    seq(|logits|, i requires 0 <= i < |logits| => Candidate(i, logits[i]))
  }

  predicate Descending(cs: seq<Candidate>) {
    forall i, j :: 0 <= i < j < |cs| ==> cs[i].logit >= cs[j].logit
  }

  /** Inserts c below everything at least as large. */
  method Insert(cs: seq<Candidate>, c: Candidate) returns (r: seq<Candidate>)
    requires Descending(cs)
    ensures Descending(r) && multiset(r) == multiset(cs) + multiset{c} && |r| == |cs| + 1
  {
    var i := |cs|;
    while i > 0 && cs[i - 1].logit < c.logit
      invariant 0 <= i <= |cs| && (i < |cs| ==> cs[i].logit < c.logit)
    {
      i := i - 1;
    }
    r := cs[..i] + [c] + cs[i..];
    InsertedInOrder(cs, c, i);
  }

  lemma InsertedInOrder(cs: seq<Candidate>, c: Candidate, i: nat)
    requires Descending(cs) && i <= |cs|
    requires (i > 0 ==> cs[i - 1].logit >= c.logit) && (i < |cs| ==> cs[i].logit < c.logit)
    ensures var r := cs[..i] + [c] + cs[i..]; Descending(r) && multiset(r) == multiset(cs) + multiset{c}
  {
    var r := cs[..i] + [c] + cs[i..];
    forall j, k | 0 <= j < k < |r|
      ensures r[j].logit >= r[k].logit
    {
      InsertedAt(cs, c, i, j);
      InsertedAt(cs, c, i, k);
      Bounds(cs, c, i, j, k);
    }
    InsertedMultiset(cs, c, i);
  }

  lemma InsertedAt(cs: seq<Candidate>, c: Candidate, i: nat, j: nat)
    requires i <= |cs| && j <= |cs|
    ensures (cs[..i] + [c] + cs[i..])[j] == if j < i then cs[j] else if j == i then c else cs[j - 1]
  {}

  lemma Bounds(cs: seq<Candidate>, c: Candidate, i: nat, j: nat, k: nat)
    requires Descending(cs) && i <= |cs|
    requires (i > 0 ==> cs[i - 1].logit >= c.logit) && (i < |cs| ==> cs[i].logit < c.logit)
    requires j < k <= |cs|
    ensures (if j < i then cs[j] else if j == i then c else cs[j - 1]).logit
      >= (if k < i then cs[k] else if k == i then c else cs[k - 1]).logit
  {}

  lemma InsertedMultiset(cs: seq<Candidate>, c: Candidate, i: nat)
    requires i <= |cs|
    ensures multiset(cs[..i] + [c] + cs[i..]) == multiset(cs) + multiset{c}
  {
    assert cs == cs[..i] + cs[i..];
    assert multiset(cs) == multiset(cs[..i]) + multiset(cs[i..]);
  }

  /** A descending permutation; which of equal logits comes first is left open by the callers. */
  method SortCandidates(logits: Vec) returns (cs: seq<Candidate>)
    ensures Descending(cs) && |cs| == |logits| && multiset(cs) == multiset(Candidates(logits))
  {
    cs := [];
    ghost var all := Candidates(logits);
    for i := 0 to |logits|
      invariant Descending(cs) && |cs| == i && multiset(cs) == multiset(all[..i])
    {
      assert all[..i + 1] == all[..i] + [all[i]];
      cs := Insert(cs, Candidate(i, logits[i]));
    }
    assert all[..|logits|] == all;
  }

  method Argmax(xs: Vec) returns (best: nat)
    ensures xs == [] ==> best == 0
    ensures xs != [] ==> best < |xs| && forall i :: 0 <= i < |xs| ==> xs[i] <= xs[best]
    ensures forall i :: 0 <= i < best ==> xs[i] < xs[best]
  {
    best := 0;
    for i := 0 to |xs|
      invariant best < |xs| || xs == []
      invariant i > 0 ==> best < i && forall j :: 0 <= j < i ==> xs[j] <= xs[best]
      invariant best <= i && forall j :: 0 <= j < best ==> xs[j] < xs[best]
    {
      if i == 0 || xs[i] > xs[best] { best := i; }
    }
  }

  // ---- The distribution over the candidates kept ----

  function Scaled(cs: seq<Candidate>, temperature: real): (s: Vec)
    requires temperature > 0.0
    ensures |s| == |cs|
  {
    seq(|cs|, i requires 0 <= i < |cs| => Mul(cs[i].logit, 1.0 / temperature))
  }

  /** p[0] + ... + p[n-1]. */
  function Mass(p: Vec, n: nat): real { Sum(n, i => At(p, i)) }

  lemma MassStep(p: Vec, n: nat)
    requires n < |p|
    ensures Mass(p, n + 1) == Mass(p, n) + p[n] && Mass(p, 0) == 0.0
  {
    SumStep(n, i => At(p, i));
  }

  predicate Positive(p: Vec) { forall i :: 0 <= i < |p| ==> p[i] > 0.0 }

  lemma {:induction false} MassGrows(p: Vec, m: nat, n: nat)
    requires Positive(p) && m <= n <= |p|
    ensures Mass(p, m) <= Mass(p, n) && (m < n ==> Mass(p, m) < Mass(p, n))
  {
    if m < n {
      MassGrows(p, m, n - 1);
      MassStep(p, n - 1);
    }
  }

  /** The nucleus: the shortest prefix whose mass reaches topP; everything if topP is 1 or more. */
  ghost predicate IsNucleus(p: Vec, topP: real, cutoff: nat) {
    && cutoff <= |p|
    && (topP >= 1.0 ==> cutoff == |p|)
    && (topP < 1.0 ==> (forall n :: 0 < n < cutoff ==> Mass(p, n) < topP) && (Mass(p, cutoff) >= topP && cutoff > 0))
  }

  /** There is only one. */
  lemma NucleusOnce(p: Vec, topP: real, a: nat, b: nat)
    requires Positive(p) && IsNucleus(p, topP, a) && IsNucleus(p, topP, b)
    ensures a == b
  {
    hide Mass;
  }

  method Nucleus(p: Vec, topP: real) returns (cutoff: nat)
    requires p != [] && Mass(p, |p|) == 1.0
    ensures IsNucleus(p, topP, cutoff) && cutoff > 0
  {
    hide Mass;
    cutoff := |p|;
    if topP < 1.0 {
      var cum, i, found := 0.0, 0, false;
      MassStep(p, 0);
      while i < |p| && !found
        invariant i <= |p| && (found ==> IsNucleus(p, topP, cutoff))
        invariant !found ==> cum == Mass(p, i) && forall n :: 0 < n <= i ==> Mass(p, n) < topP
      {
        MassStep(p, i);
        cum := cum + p[i];
        i := i + 1;
        if cum >= topP { cutoff, found := i, true; }
      }
    }
  }

  /** i is the draw's inverse-CDF choice among the first `cutoff`: r falls in its slice of the mass. */
  predicate Chosen(p: Vec, cutoff: nat, r: real, i: nat) {
    i < cutoff && r <= Mass(p, i + 1) && (i > 0 ==> Mass(p, i) < r)
  }

  /** No other candidate is the choice. */
  lemma ChosenOnce(p: Vec, cutoff: nat, r: real, i: nat, j: nat)
    requires Positive(p) && cutoff <= |p| && Chosen(p, cutoff, r, i) && j < cutoff && i != j
    ensures !Chosen(p, cutoff, r, j)
  {
    hide Mass;
    if i < j { MassGrows(p, i + 1, j); } else { MassGrows(p, j + 1, i); }
  }

  /** Where the draw u falls in the mass of the first `cutoff`. */
  function DrawPoint(p: Vec, cutoff: nat, u: real): real { Mul(u, Mass(p, cutoff)) }

  lemma DrawBelow(p: Vec, cutoff: nat, u: real)
    requires 0.0 <= u < 1.0 && Mass(p, cutoff) >= 0.0
    ensures DrawPoint(p, cutoff, u) <= Mass(p, cutoff)
  {
    PartOf(u, Mass(p, cutoff));
  }

  lemma PartOf(u: real, m: real)
    requires u < 1.0 && m >= 0.0
    ensures Mul(u, m) <= m
  {
    OrderKept(u, 1.0, m);
  }

  lemma OrderKept(a: real, b: real, c: real)
    requires a <= b && c >= 0.0
    ensures a * c <= b * c
  {}

  lemma PointIs(p: Vec, cutoff: nat, u: real)
    ensures DrawPoint(p, cutoff, u) == Mul(u, Mass(p, cutoff))
  {}

  /** u falls in candidate i's own slice of the first `cutoff`, as a part of their mass: the slices lie end to end, each
      closed above, the first one closed below too. */
  predicate InSlice(p: Vec, cutoff: nat, u: real, i: nat) {
    i < cutoff && u <= Div(Mass(p, i + 1), Mass(p, cutoff)) && (i > 0 ==> Div(Mass(p, i), Mass(p, cutoff)) < u)
  }

  /** The choice at the draw's point is the slice that the draw falls in. */
  lemma ChosenIsSlice(p: Vec, cutoff: nat, u: real, i: nat)
    requires Mass(p, cutoff) > 0.0
    ensures Chosen(p, cutoff, DrawPoint(p, cutoff, u), i) <==> InSlice(p, cutoff, u, i)
  {
    hide Mass, Div, Mul;
    ScaledCompare(u, Mass(p, i + 1), Mass(p, cutoff));
    ScaledCompare(u, Mass(p, i), Mass(p, cutoff));
  }

  lemma ScaledCompare(u: real, part: real, whole: real)
    requires whole > 0.0
    ensures Mul(u, whole) <= part <==> u <= Div(part, whole)
  {
    var q := part / whole;
    assert q * whole == part;
    if u <= q { OrderKept(u, q, whole); } else { StrictlyKept(q, u, whole); }
  }

  lemma StrictlyKept(a: real, b: real, c: real)
    requires a < b && c > 0.0
    ensures a * c < b * c
  {}

  /** The draw: for u in [0, 1) some slice is always hit, so the fallback is never reached. */
  method Draw(p: Vec, cutoff: nat, u: real) returns (choice: nat)
    requires Positive(p) && 0 < cutoff <= |p| && 0.0 <= u < 1.0
    ensures choice < cutoff && forall i :: 0 <= i < cutoff ==> (InSlice(p, cutoff, u, i) <==> i == choice)
  {
    hide Mass, DrawPoint, InSlice;
    var r := Mul(u, Mass(p, cutoff));
    assert r == DrawPoint(p, cutoff, u) by { PointIs(p, cutoff, u); }
    MassStep(p, 0);
    MassGrows(p, 0, cutoff);
    DrawBelow(p, cutoff, u);
    var acc := 0.0;
    for i := 0 to cutoff
      invariant acc == Mass(p, i) && (i > 0 ==> acc < r)
    {
      MassStep(p, i);
      acc := acc + p[i];
      if r <= acc {
        forall j | 0 <= j < cutoff
          ensures InSlice(p, cutoff, u, j) <==> j == i
        {
          ChosenIsSlice(p, cutoff, u, j);
          if j != i { ChosenOnce(p, cutoff, r, i, j); }
        }
        return i;
      }
    }
    assert false;
  }

  lemma SoftmaxPositive(math: Math, s: Vec)
    requires ExpLaws(math) && s != []
    ensures Positive(Softmax(math, s)) && Mass(Softmax(math, s), |s|) == 1.0
  {
    hide ExpLaws;
    WeightsAreADistribution(math, s);
    forall t | 0 <= t < |s|
      ensures Softmax(math, s)[t] > 0.0
    {
      WeightPositive(math, s, t);
    }
  }

  lemma WeightPositive(math: Math, s: Vec, t: nat)
    requires ExpLaws(math) && t < |s|
    ensures Softmax(math, s)[t] > 0.0
  {
    hide Sum;
    var top := MaxOf(s);
    TotalPositive(math, s, top);
    QuotientPositive(math.exp(At(s, t) - top), Sum(|s|, ExpTerms(math, s, top)));
  }

  lemma QuotientPositive(x: real, y: real)
    requires x > 0.0 && y > 0.0
    ensures Div(x, y) > 0.0
  {}

  /** The candidates left after sorting and top-k truncation. */
  ghost predicate IsKept(logits: Vec, cfg: SamplingConfig, kept: seq<Candidate>) {
    exists sorted: seq<Candidate> ::
      && Descending(sorted) && multiset(sorted) == multiset(Candidates(logits)) && |sorted| == |logits|
      && kept == if 0 < cfg.topK < |sorted| then sorted[..cfg.topK] else sorted
  }

  /** Every candidate carries its own token's logit, and no token is there twice. */
  predicate OwnLogits(logits: Vec, cs: seq<Candidate>) {
    && (forall i :: 0 <= i < |cs| ==> cs[i].id < |logits| && cs[i].logit == logits[cs[i].id])
    && forall i, j :: 0 <= i < j < |cs| ==> cs[i].id != cs[j].id
  }

  lemma SortedOwnLogits(logits: Vec, cs: seq<Candidate>)
    requires |cs| == |logits| && multiset(cs) == multiset(Candidates(logits))
    ensures OwnLogits(logits, cs)
  {
    var all := Candidates(logits);
    forall i | 0 <= i < |cs|
      ensures cs[i].id < |logits| && cs[i].logit == logits[cs[i].id]
    {
      assert cs[i] in multiset(cs);
      assert cs[i] in all;
    }
    forall i, j | 0 <= i < j < |cs|
      ensures cs[i].id != cs[j].id
    {
      if cs[i].id == cs[j].id {
        assert cs[i] == cs[j];
        TwiceThere(cs, i, j);
        OnceThere(logits, cs[i].id);
      }
    }
  }

  lemma TwiceThere(cs: seq<Candidate>, i: nat, j: nat)
    requires i < j < |cs| && cs[i] == cs[j]
    ensures multiset(cs)[cs[i]] >= 2
  {
    assert cs == cs[..j] + cs[j..];
    assert cs[..j][i] == cs[i] && cs[j..][0] == cs[i];
    assert cs[i] in multiset(cs[..j]) && cs[i] in multiset(cs[j..]);
  }

  lemma {:induction false} OnceThere(logits: Vec, id: nat)
    requires id < |logits|
    ensures multiset(Candidates(logits))[Candidate(id, logits[id])] == 1
  {
    var n := |logits| - 1;
    var all, front := Candidates(logits), Candidates(logits[..n]);
    assert all == front + [all[n]];
    if id < n {
      OnceThere(logits[..n], id);
    } else {
      assert Candidate(id, logits[id]) !in front;
    }
  }

  /** `sample`, for a draw u in [0, 1). */
  method Sample(math: Math, cfg: SamplingConfig, logits: Vec, u: real)
      returns (token: nat, ghost kept: seq<Candidate>, ghost cutoff: nat)
    requires ExpLaws(math) && logits != [] && 0.0 <= u < 1.0
    ensures token < |logits|
    ensures cfg.temperature <= 0.0 ==>
      forall i :: 0 <= i < |logits| ==> logits[i] <= logits[token] && (i < token ==> logits[i] < logits[token])
    ensures cfg.temperature > 0.0 ==>
      && IsKept(logits, cfg, kept) && kept != [] && OwnLogits(logits, kept)
      && var p := Softmax(math, Scaled(kept, cfg.temperature));
         && IsNucleus(p, cfg.topP, cutoff)
         && exists i :: 0 <= i < |kept| && kept[i].id == token && InSlice(p, cutoff, u, i)
                        && forall j :: 0 <= j < cutoff && InSlice(p, cutoff, u, j) ==> j == i
  {
    kept, cutoff := [], 0;
    if cfg.temperature <= 0.0 {
      token := Argmax(logits);
      return;
    }
    hide Mass, Softmax, ExpLaws, InSlice, Positive, Candidates, IsNucleus, Scaled;
    var candidates := SortCandidates(logits);
    ghost var sorted := candidates;
    if 0 < cfg.topK < |candidates| { candidates := candidates[..cfg.topK]; }
    kept := candidates;
    SortedOwnLogits(logits, sorted);
    assert OwnLogits(logits, kept);
    assert Descending(candidates) && IsKept(logits, cfg, kept);
    var p := Probabilities(math, candidates, cfg.temperature);
    SoftmaxPositive(math, Scaled(candidates, cfg.temperature));
    var cut := Nucleus(p, cfg.topP);
    cutoff := cut;
    NucleusFits(p, cfg.topP, cut);
    var i := Draw(p, cut, u);
    token := candidates[i].id;
    KeptIsToken(logits, sorted, i);
  }

  lemma NucleusFits(p: Vec, topP: real, cutoff: nat)
    requires IsNucleus(p, topP, cutoff)
    ensures cutoff <= |p|
  {}

  lemma KeptIsToken(logits: Vec, sorted: seq<Candidate>, i: nat)
    requires multiset(sorted) == multiset(Candidates(logits)) && i < |sorted|
    ensures sorted[i].id < |logits|
  {
    assert sorted[i] in multiset(sorted);
    assert sorted[i] in Candidates(logits);
  }

  /** exp((l - max) / T) over their sum, with the maximum taken from the first of the descending logits. */
  method Probabilities(math: Math, cs: seq<Candidate>, temperature: real) returns (p: Vec)
    requires Descending(cs) && cs != [] && temperature > 0.0
    ensures p == Softmax(math, Scaled(cs, temperature))
  {
    hide Sum, MaxOf, Div;
    var max, invTemp := cs[0].logit, 1.0 / temperature;
    var e: Vec := seq(|cs|, i requires 0 <= i < |cs| => math.exp(Mul(cs[i].logit - max, invTemp)));
    var sum := Sum(|e|, i => At(e, i));
    p := seq(|cs|, i requires 0 <= i < |cs| => Div(e[i], sum));
    FirstIsMax(cs, temperature);
    var s := Scaled(cs, temperature);
    forall i | 0 <= i < |cs|
      ensures e[i] == ExpTerms(math, s, MaxOf(s))(i)
    {
      ScaledDifference(cs[i].logit, max, invTemp);
      assert At(s, i) == Mul(cs[i].logit, invTemp);
    }
    SumEq(|e|, i => At(e, i), ExpTerms(math, s, MaxOf(s)));
  }

  lemma ScaledDifference(a: real, b: real, c: real)
    ensures Mul(a - b, c) == Mul(a, c) - Mul(b, c)
  {}

  lemma {:induction false} FirstIsMax(cs: seq<Candidate>, temperature: real)
    requires Descending(cs) && cs != [] && temperature > 0.0
    ensures MaxOf(Scaled(cs, temperature)) == Mul(cs[0].logit, 1.0 / temperature)
  {
    hide Mul;
    var n := |cs| - 1;
    var c := 1.0 / temperature;
    if n > 0 {
      FirstIsMax(cs[..n], temperature);
      assert Scaled(cs, temperature)[..n] == Scaled(cs[..n], temperature);
      ScaledOrder(cs[0].logit, cs[n].logit, c);
    }
  }

  lemma ScaledOrder(a: real, b: real, c: real)
    requires a >= b && c > 0.0
    ensures Mul(a, c) >= Mul(b, c)
  {}
}
