/** Causal attention with grouped query heads: the CPU routine with its normalised weights, and the
    GPU's three kernels, which keep unnormalised weights and divide at the end. */
module Attention {
  import opened Sums
  import opened Striding
  import opened Blocks
  import opened Elementary
  import opened Workgroup
  import opened TreeReduction
  import opened WorkgroupKernels

  function ExpTerms(math: Math, s: Vec, top: real): int -> real {
    (t: int) => math.exp(At(s, t) - top)
  }

  function MaxOf(s: Vec): real
    requires s != []
  {
    if |s| == 1 then s[0] else Max(MaxOf(s[..|s| - 1]), s[|s| - 1])
  }

  /** exp(s_t - max) / sum of the same. */
  function Softmax(math: Math, s: Vec): (w: Vec)
    ensures |w| == |s|
  {
    if s == [] then [] else
      var top := MaxOf(s);
      seq(|s|, t => Div(ExpTerms(math, s, top)(t), Sum(|s|, ExpTerms(math, s, top))))
  }

  /** Query heads share the key/value heads in groups of equal size. */
  datatype Shape = Shape(headDim: nat, heads: nat, kvHeads: nat) {

    predicate Ok() { headDim > 0 && kvHeads > 0 && heads % kvHeads == 0 }

    function KvDim(): nat { kvHeads * headDim }

    function KvHead(h: nat): nat
      requires Ok() && h < heads
    {
      GroupSize();
      h / (heads / kvHeads)
    }

    lemma GroupSize()
      requires Ok()
      ensures heads > 0 ==> heads / kvHeads > 0
      ensures heads == heads / kvHeads * kvHeads
    {}

    /** The head that h reads exists. */
    lemma KvHeadExists(h: nat)
      requires Ok() && h < heads
      ensures KvHead(h) < kvHeads
    {
      GroupSize();
      var group := heads / kvHeads;
      var q := h / group;
      assert q >= kvHeads ==> q * group >= kvHeads * group;
    }

    /** Where position t keeps the key (or value) that head h reads. */
    function KvBase(h: nat, t: int): int
      requires Ok() && h < heads
    {
      t * KvDim() + KvHead(h) * headDim
    }

    function ScoreTerms(q: Vec, k: Vec, h: nat, t: int): int -> real
      requires Ok() && h < heads
    {
      (d: int) => Mul(At(q, h * headDim + d), At(k, KvBase(h, t) + d))
    }

    function Scores(math: Math, q: Vec, k: Vec, n: nat, h: nat): (s: Vec)
      requires Ok() && h < heads
      ensures |s| == n
    {
      seq(n, t => Div(Sum(headDim, ScoreTerms(q, k, h, t)), math.sqrt(headDim as real)))
    }

    function MixTerms(w: Vec, v: Vec, h: nat, d: int): int -> real
      requires Ok() && h < heads
    {
      (t: int) => Mul(At(w, t), At(v, KvBase(h, t) + d))
    }

    function Mix(w: Vec, v: Vec, h: nat): (out: Vec)
      requires Ok() && h < heads
      ensures |out| == headDim
    {
      seq(headDim, d => Sum(|w|, MixTerms(w, v, h, d)))
    }

    /** What head h outputs, given the keys and values of positions 0..n-1. */
    function Attend(math: Math, q: Vec, k: Vec, v: Vec, n: nat, h: nat): (out: Vec)
      requires Ok() && h < heads
      ensures |out| == headDim
    {
      Mix(Softmax(math, Scores(math, q, k, n, h)), v, h)
    }

    lemma KvInside(h: nat, t: nat, n: nat, d: nat)
      requires Ok() && h < heads && t < n && d < headDim
      ensures 0 <= KvBase(h, t) + d < n * KvDim()
      ensures 0 <= h * headDim + d < heads * headDim
    {
      KvHeadExists(h);
      RowEnd(KvHead(h), kvHeads, headDim);
      RowEnd(t, n, KvDim());
      RowEnd(h, heads, headDim);
    }

    /** Causality: only the keys and values of positions below n are read. */
    lemma ReadsOnlyThePast(math: Math, q: Vec, k1: Vec, k2: Vec, v1: Vec, v2: Vec, n: nat, h: nat)
      requires Ok() && h < heads
      requires n * KvDim() <= |k1| && n * KvDim() <= |k2| && n * KvDim() <= |v1| && n * KvDim() <= |v2|
      requires k1[..n * KvDim()] == k2[..n * KvDim()] && v1[..n * KvDim()] == v2[..n * KvDim()]
      ensures Attend(math, q, k1, v1, n, h) == Attend(math, q, k2, v2, n, h)
    {
      hide Sum, Mul, Softmax;
      forall t | 0 <= t < n
        ensures Scores(math, q, k1, n, h)[t] == Scores(math, q, k2, n, h)[t]
      {
        forall d | 0 <= d < headDim
          ensures ScoreTerms(q, k1, h, t)(d) == ScoreTerms(q, k2, h, t)(d)
        {
          KvInside(h, t, n, d);
          SamePrefix(k1, k2, n * KvDim(), KvBase(h, t) + d);
        }
        SumEq(headDim, ScoreTerms(q, k1, h, t), ScoreTerms(q, k2, h, t));
      }
      assert Scores(math, q, k1, n, h) == Scores(math, q, k2, n, h);
      var w := Softmax(math, Scores(math, q, k1, n, h));
      forall d | 0 <= d < headDim
        ensures Mix(w, v1, h)[d] == Mix(w, v2, h)[d]
      {
        forall t | 0 <= t < n
          ensures MixTerms(w, v1, h, d)(t) == MixTerms(w, v2, h, d)(t)
        {
          KvInside(h, t, n, d);
          SamePrefix(v1, v2, n * KvDim(), KvBase(h, t) + d);
        }
        SumEq(n, MixTerms(w, v1, h, d), MixTerms(w, v2, h, d));
      }
    }

    /** Each output lies among the attended values. */
    lemma OutputIsAMixture(math: Math, q: Vec, k: Vec, v: Vec, n: nat, h: nat, d: nat, lo: real, hi: real)
      requires Ok() && h < heads && ExpLaws(math) && n > 0 && d < headDim
      requires forall t :: 0 <= t < n ==> lo <= At(v, KvBase(h, t) + d) <= hi
      ensures lo <= Attend(math, q, k, v, n, h)[d] <= hi
    {
      hide Sum, Softmax, Scores, ExpLaws;
      var s := Scores(math, q, k, n, h);
      var w := Softmax(math, s);
      WeightsAreADistribution(math, s);
      var f := (t: int) => At(w, t);
      SumTimes(n, lo, f);
      SumTimes(n, hi, f);
      forall t | 0 <= t < n
        ensures Times(lo, f)(t) <= MixTerms(w, v, h, d)(t) <= Times(hi, f)(t)
      {
        MulBetween(w[t], At(v, KvBase(h, t) + d), lo, hi);
      }
      SumLe(n, Times(lo, f), MixTerms(w, v, h, d));
      SumLe(n, MixTerms(w, v, h, d), Times(hi, f));
      SumEq(n, f, i => At(w, i));
    }

    // ---- Grouped queries ----

    /** Dimension d of key/value head j at position t. */
    function KvCell(m: Vec, t: int, j: int, d: int): real { At(m, (t * kvHeads + j) * headDim + d) }

    /** The same key/value head j at all of the first n positions. */
    predicate SameHead(a: Vec, b: Vec, n: nat, j: nat) {
      forall t, d :: 0 <= t < n && 0 <= d < headDim ==> KvCell(a, t, j, d) == KvCell(b, t, j, d)
    }

    /** Query heads j * g, .., j * g + g - 1 are the group of key/value head j, where g = heads / kvHeads. */
    lemma HeadOfGroup(j: nat, i: nat)
      requires Ok() && j < kvHeads && i < heads / kvHeads
      ensures 0 <= j * (heads / kvHeads) + i < heads && KvHead(j * (heads / kvHeads) + i) == j
    {
      GroupSize();
      var g := heads / kvHeads;
      RowEnd(j, kvHeads, g);
      assert heads == kvHeads * g;
      ModUnique(j * g + i, g, j, i);
    }

    lemma BaseOfGroup(j: nat, i: nat, t: int, m: Vec, d: int)
      requires Ok() && j < kvHeads && i < heads / kvHeads
      ensures 0 <= j * (heads / kvHeads) + i < heads
      ensures At(m, KvBase(j * (heads / kvHeads) + i, t) + d) == KvCell(m, t, j, d)
    {
      HeadOfGroup(j, i);
      BaseIs(t, j);
    }

    lemma BaseIs(t: int, j: int)
      ensures t * KvDim() + j * headDim == (t * kvHeads + j) * headDim
    {
      assert t * (kvHeads * headDim) == (t * kvHeads) * headDim;
    }

    /** A query head reads its own block of the query and its group's head of the keys and values, whatever stands in
        the others. */
    lemma GroupReadsItsHead(math: Math, q1: Vec, q2: Vec, k1: Vec, k2: Vec, v1: Vec, v2: Vec, n: nat, j: nat, i: nat)
      requires Ok() && j < kvHeads && i < heads / kvHeads
      requires var h := j * (heads / kvHeads) + i; Part(q1, h * headDim, headDim) == Part(q2, h * headDim, headDim)
      requires SameHead(k1, k2, n, j) && SameHead(v1, v2, n, j)
      ensures 0 <= j * (heads / kvHeads) + i < heads
      ensures var h := j * (heads / kvHeads) + i; Attend(math, q1, k1, v1, n, h) == Attend(math, q2, k2, v2, n, h)
    {
      hide Sum, Mul, Softmax, Shape.KvBase, Shape.KvCell;
      HeadOfGroup(j, i);
      var h: nat := j * (heads / kvHeads) + i;
      forall t | 0 <= t < n
        ensures Scores(math, q1, k1, n, h)[t] == Scores(math, q2, k2, n, h)[t]
      {
        forall d | 0 <= d < headDim
          ensures ScoreTerms(q1, k1, h, t)(d) == ScoreTerms(q2, k2, h, t)(d)
        {
          BaseOfGroup(j, i, t, k1, d);
          BaseOfGroup(j, i, t, k2, d);
          assert KvCell(k1, t, j, d) == KvCell(k2, t, j, d);
          assert Part(q1, h * headDim, headDim)[d] == Part(q2, h * headDim, headDim)[d];
        }
        SumEq(headDim, ScoreTerms(q1, k1, h, t), ScoreTerms(q2, k2, h, t));
      }
      assert Scores(math, q1, k1, n, h) == Scores(math, q2, k2, n, h);
      var w := Softmax(math, Scores(math, q1, k1, n, h));
      forall d | 0 <= d < headDim
        ensures Mix(w, v1, h)[d] == Mix(w, v2, h)[d]
      {
        forall t | 0 <= t < n
          ensures MixTerms(w, v1, h, d)(t) == MixTerms(w, v2, h, d)(t)
        {
          BaseOfGroup(j, i, t, v1, d);
          BaseOfGroup(j, i, t, v2, d);
          assert KvCell(v1, t, j, d) == KvCell(v2, t, j, d);
        }
        SumEq(n, MixTerms(w, v1, h, d), MixTerms(w, v2, h, d));
      }
    }

    /** With one position in the cache, every head of a group outputs its group's value. */
    lemma OnePosition(math: Math, q: Vec, k: Vec, v: Vec, j: nat, i: nat, d: nat)
      requires Ok() && ExpLaws(math) && j < kvHeads && i < heads / kvHeads && d < headDim
      ensures 0 <= j * (heads / kvHeads) + i < heads
      ensures Attend(math, q, k, v, 1, j * (heads / kvHeads) + i)[d] == KvCell(v, 0, j, d)
    {
      hide Softmax, ExpLaws, Shape.KvBase, Shape.KvCell;
      HeadOfGroup(j, i);
      var h: nat := j * (heads / kvHeads) + i;
      var s := Scores(math, q, k, 1, h);
      var w := Softmax(math, s);
      WeightsAreADistribution(math, s);
      var f, g := (t: int) => At(w, t), MixTerms(w, v, h, d);
      assert Sum(1, f) == Sum(0, f) + f(0) && Sum(1, g) == Sum(0, g) + g(0);
      BaseOfGroup(j, i, 0, v, d);
    }

    // ---- The GPU's kernels ----

    /** dot += q[h * headDim + d] * k[t * kvDim + kvHead * headDim + d] */
    method KeyDot(q: Vec, k: Vec, h: nat, t: nat, n: nat) returns (dot: real)
      requires Ok() && h < heads && t < n && |q| == heads * headDim && n * KvDim() <= |k|
      ensures dot == Sum(headDim, ScoreTerms(q, k, h, t))
    {
      hide Sum, Mul;
      ghost var f := ScoreTerms(q, k, h, t);
      SumNone(f);
      dot := 0.0;
      KvInside(h, t, n, 0);
      var kvHead := h / (heads / kvHeads);
      var start := t * KvDim() + kvHead * headDim;
      for d := 0 to headDim
        invariant dot == Sum(d, f)
      {
        SumStep(d, f);
        KvInside(h, t, n, d);
        dot := dot + Mul(q[h * headDim + d], k[start + d]);
      }
    }

    /** `attention_scores` for head h and position t. */
    method ScoreThread(math: Math, q: Vec, k: Vec, h: nat, t: nat, n: nat) returns (score: real)
      requires Ok() && h < heads && t < n && |q| == heads * headDim && n * KvDim() <= |k|
      ensures score == Scores(math, q, k, n, h)[t]
    {
      hide Sum, Shape.ScoreTerms, Div;
      var scale := Div(1.0, math.sqrt(headDim as real));
      var dot := KeyDot(q, k, h, t, n);
      score := dot * scale;
      DivMul(1.0, dot, math.sqrt(headDim as real));
    }

    /** One dimension of a head's output, from unnormalised weights and their sum. */
    function OutputOf(v: Vec, weights: Vec, sum: real, h: nat, d: nat): real
      requires Ok() && h < heads
    {
      Div(Sum(|weights|, MixTerms(weights, v, h, d)), sum)
    }

    /** `attention_output` for head h and dimension d. */
    method OutputThread(v: Vec, weights: Vec, sum: real, h: nat, d: nat, n: nat) returns (out: real)
      requires Ok() && h < heads && d < headDim && n * KvDim() <= |v| && n == |weights|
      ensures out == OutputOf(v, weights, sum, h, d)
    {
      hide Sum, Mul;
      ghost var f := MixTerms(weights, v, h, d);
      SumNone(f);
      var acc := 0.0;
      GroupSize();
      var kvHead := h / (heads / kvHeads);
      for t := 0 to n
        invariant acc == Sum(t, f)
      {
        SumStep(t, f);
        KvInside(h, t, n, d);
        acc := acc + Mul(weights[t], v[t * KvDim() + kvHead * headDim + d]);
      }
      out := Div(acc, sum);
    }

    /** The three kernels together, for any lane count and schedule and any floor the maximum starts from: what the
        output threads return, from the weights and the sum that the softmax leaves of what the score threads return,
        is the CPU's attention. */
    lemma ThreeKernels(math: Math, q: Vec, k: Vec, v: Vec, n: nat, h: nat, lanes: nat, floor: real,
                       regs: seq<Regs>, mem: Memory, schedule: seq<Choice>, final: Config<Regs>)
      requires Ok() && h < heads && ExpLaws(math) && n > 0
      requires var job := SoftmaxJob(lanes, Scores(math, q, k, n, h), floor, math);
        && PowerOfTwo(lanes) && |regs| == lanes && |mem| == job.Cells()
        && Run(job.Kernel(), Start(regs, mem), schedule, final) && final.phase == |job.Kernel()|
      ensures |final.mem| == lanes + n + 1
      ensures forall d :: 0 <= d < headDim ==>
        OutputOf(v, final.mem[lanes..][..n], final.mem[lanes + n], h, d) == Attend(math, q, k, v, n, h)[d]
    {
      hide Sum, Softmax, Scores, Run, SoftmaxJob.Kernel, ExpLaws, SoftmaxJob.IsTop;
      var s := Scores(math, q, k, n, h);
      var job := SoftmaxJob(lanes, s, floor, math);
      var top := job.EverySchedule(regs, mem, schedule, final);
      var w := final.mem[lanes..][..n];
      SumEq(n, job.Weight(top), ExpTerms(math, s, top));
      forall d | 0 <= d < headDim
        ensures OutputOf(v, w, final.mem[lanes + n], h, d) == Mix(Softmax(math, s), v, h)[d]
      {
        DivideLater(math, s, top, w, v, h, d);
      }
    }

    /** Weights shifted by any amount and divided at the end are weights normalised first. */
    lemma DivideLater(math: Math, s: Vec, top: real, w: Vec, v: Vec, h: nat, d: nat)
      requires Ok() && h < heads && ExpLaws(math) && s != [] && |w| == |s| && d < headDim
      requires forall t :: 0 <= t < |s| ==> w[t] == math.exp(At(s, t) - top)
      ensures OutputOf(v, w, Sum(|s|, ExpTerms(math, s, top)), h, d) == Mix(Softmax(math, s), v, h)[d]
    {
      hide Sum, Softmax, ExpLaws, Div, Mul, Shape.KvHead;
      var total, normal := Sum(|s|, ExpTerms(math, s, top)), Softmax(math, s);
      TotalPositive(math, s, top);
      forall t | 0 <= t < |s|
        ensures MixTerms(normal, v, h, d)(t) == Times(Div(1.0, total), MixTerms(w, v, h, d))(t)
      {
        AnyShift(math, s, top, t);
        DivByTotal(w[t], total, At(v, KvBase(h, t) + d));
      }
      SumEq(|s|, MixTerms(normal, v, h, d), Times(Div(1.0, total), MixTerms(w, v, h, d)));
      SumTimes(|s|, Div(1.0, total), MixTerms(w, v, h, d));
      DivMul(1.0, Sum(|s|, MixTerms(w, v, h, d)), total);
    }
  }

  lemma SamePrefix(a: Vec, b: Vec, n: nat, i: nat)
    requires n <= |a| && n <= |b| && a[..n] == b[..n] && i < n
    ensures At(a, i) == At(b, i)
  {
    assert a[i] == a[..n][i] == b[..n][i] == b[i];
  }

  lemma MulBetween(w: real, x: real, lo: real, hi: real)
    requires w >= 0.0 && lo <= x <= hi
    ensures lo * w <= Mul(w, x) <= hi * w
  {}

  lemma DivByTotal(w: real, total: real, x: real)
    requires total > 0.0
    ensures Mul(Div(w, total), x) == Div(1.0, total) * Mul(w, x)
  {
    assert w / total == (1.0 / total) * w;
  }

  lemma {:induction false} PositiveSum(n: nat, f: int -> real)
    requires forall i :: 0 <= i < n ==> f(i) > 0.0
    ensures Sum(n, f) >= 0.0 && (n > 0 ==> Sum(n, f) > 0.0)
  {
    if n > 0 { PositiveSum(n - 1, f); }
  }

  lemma TotalPositive(math: Math, s: Vec, top: real)
    requires ExpLaws(math) && s != []
    ensures Sum(|s|, ExpTerms(math, s, top)) > 0.0
  {
    PositiveSum(|s|, ExpTerms(math, s, top));
  }

  /** Shifting all scores by the same amount leaves the normalised weights as they are, so neither the
      exact maximum nor a floor under it matters. */
  lemma AnyShift(math: Math, s: Vec, top: real, t: nat)
    requires ExpLaws(math) && t < |s|
    ensures Softmax(math, s)[t] == Div(math.exp(s[t] - top), Sum(|s|, ExpTerms(math, s, top)))
  {
    hide Sum, MaxOf, Div;
    var max := MaxOf(s);
    var c, f, g := math.exp(top - max), ExpTerms(math, s, top), ExpTerms(math, s, max);
    Shifted(math, s, top, max);
    SumEq(|s|, g, Times(c, f));
    SumTimes(|s|, c, f);
    TotalPositive(math, s, top);
    assert Softmax(math, s)[t] == Div(g(t), Sum(|s|, g));
    assert Sum(|s|, g) == c * Sum(|s|, f);
    assert g(t) == Times(c, f)(t) == c * f(t);
    CancelFactor(c, f(t), Sum(|s|, f), g(t), Sum(|s|, g));
  }

  lemma CancelFactor(c: real, x: real, y: real, cx: real, cy: real)
    requires c > 0.0 && y > 0.0 && cx == c * x && cy == c * y
    ensures Div(cx, cy) == Div(x, y)
  {
    assert c * y > 0.0;
    assert x / y * (c * y) == c * x;
  }

  lemma Shifted(math: Math, s: Vec, top: real, max: real)
    requires ExpLaws(math)
    ensures forall i :: 0 <= i < |s| ==>
      ExpTerms(math, s, max)(i) == Times(math.exp(top - max), ExpTerms(math, s, top))(i)
  {
    forall i | 0 <= i < |s|
      ensures ExpTerms(math, s, max)(i) == Times(math.exp(top - max), ExpTerms(math, s, top))(i)
    {
      assert ExpAdds(math, top - max, At(s, i) - top);
      assert (top - max) + (At(s, i) - top) == At(s, i) - max;
    }
  }

  /** The weights are positive and sum to one. */
  lemma WeightsAreADistribution(math: Math, s: Vec)
    requires ExpLaws(math) && s != []
    ensures forall t :: 0 <= t < |s| ==> Softmax(math, s)[t] > 0.0
    ensures Sum(|s|, i => At(Softmax(math, s), i)) == 1.0
  {
    hide Sum, MaxOf;
    var top, w := MaxOf(s), Softmax(math, s);
    var f := ExpTerms(math, s, top);
    var total := Sum(|s|, f);
    TotalPositive(math, s, top);
    forall t | 0 <= t < |s|
      ensures w[t] > 0.0 && At(w, t) == Times(1.0 / total, f)(t)
    {
      assert w[t] == f(t) / total;
      QuotientPositive(f(t), total);
    }
    SumEq(|s|, i => At(w, i), Times(1.0 / total, f));
    SumTimes(|s|, 1.0 / total, f);
    assert (1.0 / total) * total == 1.0;
  }

  lemma QuotientPositive(x: real, y: real)
    requires x > 0.0 && y > 0.0
    ensures x / y > 0.0 && x / y == (1.0 / y) * x
  {}

  // ---- The in-place code on the CPU ----

  method ScoreRow(shape: Shape, math: Math, q: Vec, k: Vec, n: nat, h: nat, scores: array<real>)
    requires shape.Ok() && h < shape.heads && |q| == shape.heads * shape.headDim && |k| == n * shape.KvDim()
    requires n <= scores.Length
    modifies scores
    ensures scores[..n] == shape.Scores(math, q, k, n, h)
  {
    hide Sum, Div, Shape.ScoreTerms;
    for t := 0 to n
      invariant scores[..t] == shape.Scores(math, q, k, n, h)[..t]
    {
      var dot := shape.KeyDot(q, k, h, t, n);
      scores[t] := Div(dot, math.sqrt(shape.headDim as real));
    }
  }

  method MaxScore(scores: array<real>, n: nat) returns (max: real)
    requires 0 < n <= scores.Length
    ensures max == MaxOf(scores[..n])
  {
    max := scores[0];
    for t := 1 to n
      invariant max == MaxOf(scores[..t])
    {
      assert scores[..t + 1][..t] == scores[..t];
      max := Max(max, scores[t]);
    }
  }

  method ExpInPlace(math: Math, scores: array<real>, n: nat, max: real)
    requires n <= scores.Length
    modifies scores
    ensures forall t :: 0 <= t < n ==> scores[t] == ExpTerms(math, old(scores[..n]), max)(t)
  {
    for t := 0 to n
      invariant forall i :: 0 <= i < n ==>
        scores[i] == if i < t then ExpTerms(math, old(scores[..n]), max)(i) else old(scores[i])
    {
      scores[t] := math.exp(scores[t] - max);
    }
  }

  method SumScores(scores: array<real>, n: nat, ghost f: int -> real) returns (sum: real)
    requires n <= scores.Length && forall t :: 0 <= t < n ==> scores[t] == f(t)
    ensures sum == Sum(n, f)
  {
    sum := 0.0;
    for t := 0 to n
      invariant sum == Sum(t, f)
    {
      sum := sum + scores[t];
    }
  }

  method DivideInPlace(scores: array<real>, n: nat, sum: real)
    requires n <= scores.Length
    modifies scores
    ensures forall t :: 0 <= t < n ==> scores[t] == Div(old(scores[t]), sum)
  {
    for t := 0 to n
      invariant forall i :: 0 <= i < n ==> scores[i] == if i < t then Div(old(scores[i]), sum) else old(scores[i])
    {
      scores[t] := Div(scores[t], sum);
    }
  }

  /** scores := softmax(scores), over the first n cells. */
  method SoftmaxInPlace(math: Math, scores: array<real>, n: nat)
    requires n <= scores.Length
    modifies scores
    ensures scores[..n] == Softmax(math, old(scores[..n]))
  {
    hide Sum, MaxOf, Div;
    if n > 0 {
      ghost var s := scores[..n];
      var max := MaxScore(scores, n);
      ExpInPlace(math, scores, n, max);
      var sum := SumScores(scores, n, ExpTerms(math, s, max));
      DivideInPlace(scores, n, sum);
    }
  }

  /** out[h * headDim + d] += scores[t] * v[...], position by position. */
  method MixInto(shape: Shape, w: Vec, v: Vec, h: nat, out: array<real>)
    requires shape.Ok() && h < shape.heads && |v| == |w| * shape.KvDim()
    requires out.Length == shape.heads * shape.headDim
    requires 0 <= h * shape.headDim && h * shape.headDim + shape.headDim <= out.Length
    requires var base := h * shape.headDim; forall i :: base <= i < base + shape.headDim ==> out[i] == 0.0
    modifies out
    ensures out[..] == Patched(old(out[..]), h * shape.headDim, shape.Mix(w, v, h))
  {
    hide Sum, Mul, Shape.KvHead;
    var base, width := h * shape.headDim, shape.headDim;
    forall i | base <= i < base + width
      ensures Sum(0, shape.MixTerms(w, v, h, i - base)) == out[i]
    {
      SumNone(shape.MixTerms(w, v, h, i - base));
    }
    for t := 0 to |w|
      invariant forall i :: 0 <= i < out.Length ==>
        out[i] == if base <= i < base + width then Sum(t, shape.MixTerms(w, v, h, i - base)) else old(out[i])
    {
      AddRow(shape, w, v, h, t, out);
    }
    assert out[..] == Patched(old(out[..]), base, shape.Mix(w, v, h));
  }

  method AddRow(shape: Shape, w: Vec, v: Vec, h: nat, t: nat, out: array<real>)
    requires shape.Ok() && h < shape.heads && |v| == |w| * shape.KvDim() && t < |w|
    requires out.Length == shape.heads * shape.headDim
    requires 0 <= h * shape.headDim && h * shape.headDim + shape.headDim <= out.Length
    requires var base := h * shape.headDim; forall i :: base <= i < base + shape.headDim ==>
      out[i] == Sum(t, shape.MixTerms(w, v, h, i - base))
    modifies out
    ensures var base := h * shape.headDim; forall i :: 0 <= i < out.Length ==>
      out[i] == if base <= i < base + shape.headDim then Sum(t + 1, shape.MixTerms(w, v, h, i - base)) else old(out[i])
  {
    hide Sum, Mul;
    shape.GroupSize();
    var base, kvHead := h * shape.headDim, h / (shape.heads / shape.kvHeads);
    for d := 0 to shape.headDim
      invariant forall i :: 0 <= i < out.Length ==>
        out[i] == if base <= i < base + d then Sum(t + 1, shape.MixTerms(w, v, h, i - base)) else old(out[i])
    {
      shape.KvInside(h, t, |w|, d);
      SumStep(t, shape.MixTerms(w, v, h, d));
      out[base + d] := out[base + d] + Mul(w[t], v[t * shape.KvDim() + kvHead * shape.headDim + d]);
    }
  }

  /** `attention_into`: every head's output in its own block, whatever the buffers held before. */
  method AttentionInto(shape: Shape, math: Math, q: Vec, k: Vec, v: Vec, n: nat, out: array<real>, scores: array<real>)
    requires shape.Ok() && |q| == shape.heads * shape.headDim && |k| == |v| == n * shape.KvDim()
    requires out.Length == |q| && n <= scores.Length && out != scores
    modifies out, scores
    ensures forall h :: 0 <= h < shape.heads ==> HeadWritten(shape, math, q, k, v, n, h, out[..])
  {
    for i := 0 to out.Length
      invariant forall j :: 0 <= j < i ==> out[j] == 0.0
    {
      out[i] := 0.0;
    }
    hide Shape.Ok, Shape.KvDim, Shape.Attend, Softmax, Shape.Mix, Shape.Scores;
    for h := 0 to shape.heads
      invariant forall g :: 0 <= g < h ==> HeadWritten(shape, math, q, k, v, n, g, out[..])
      invariant forall i :: h * shape.headDim <= i < out.Length ==> out[i] == 0.0
    {
      RowEnd(h, shape.heads, shape.headDim);
      ScoreRow(shape, math, q, k, n, h, scores);
      SoftmaxInPlace(math, scores, n);
      ghost var before := out[..];
      MixInto(shape, scores[..n], v, h, out);
      HeadsWritten(shape, math, q, k, v, n, h, before, out[..]);
      assert (h + 1) * shape.headDim == h * shape.headDim + shape.headDim;
    }
  }

  ghost predicate HeadWritten(shape: Shape, math: Math, q: Vec, k: Vec, v: Vec, n: nat, h: nat, out: Vec)
    requires shape.Ok() && h < shape.heads && |out| == shape.heads * shape.headDim
  {
    RowEnd(h, shape.heads, shape.headDim);
    Block(out, shape.headDim, h) == shape.Attend(math, q, k, v, n, h)
  }

  lemma HeadsWritten(shape: Shape, math: Math, q: Vec, k: Vec, v: Vec, n: nat, h: nat, before: Vec, after: Vec)
    requires shape.Ok() && h < shape.heads && |before| == shape.heads * shape.headDim
    requires 0 <= h * shape.headDim && h * shape.headDim + shape.headDim <= |before|
    requires after == Patched(before, h * shape.headDim, shape.Attend(math, q, k, v, n, h))
    requires forall g :: 0 <= g < h ==> HeadWritten(shape, math, q, k, v, n, g, before)
    ensures |after| == |before|
    ensures forall g :: 0 <= g <= h ==> HeadWritten(shape, math, q, k, v, n, g, after)
  {
    hide Shape.Attend, Patched, Block;
    forall g | 0 <= g <= h
      ensures HeadWritten(shape, math, q, k, v, n, g, after)
    {
      RowEnd(g, shape.heads, shape.headDim);
      PatchedBlocks(before, shape.headDim, h, shape.Attend(math, q, k, v, n, h), g);
      assert g < h ==> HeadWritten(shape, math, q, k, v, n, g, before);
    }
  }
}
