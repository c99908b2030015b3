/** Models of one attention layer with a single head as wide as the stream: what their pieces give. */
module OneHeadLayers {
  import opened Sums
  import opened Striding
  import opened Blocks
  import opened Elementary
  import opened Attention
  import opened RotaryEmbedding = Rope
  import opened KvCaching
  import opened Matmul
  import opened Llama
  import opened ForwardPass

  function Nothing(n: nat): (v: Vec)
    ensures |v| == n
  {
    seq(n, _ => 0.0)
  }

  /** 1 at e, 0 elsewhere. */
  function Picks(n: nat, e: nat): (v: Vec)
    ensures |v| == n
  {
    seq(n, i => if i == e then 1.0 else 0.0)
  }

  /** Rows of one column: 1 at `at`, 0 elsewhere. */
  function Selector(n: nat, at: nat): Tensor { Tensor(seq(n, i => [if i == at then 1.0 else 0.0]), false) }

  // ---- Keys and values ----

  lemma {:induction false} FlatAt(cells: seq<Cell>, n: nat, t: nat, j: nat)
    requires t < |cells| && j < n && forall p :: 0 <= p < |cells| ==> |cells[p].key| == |cells[p].value| == n
    ensures 0 <= t * n && |FlatKeys(cells)| == |FlatValues(cells)| == |cells| * n
    ensures At(FlatKeys(cells), t * n + j) == cells[t].key[j] && At(FlatValues(cells), t * n + j) == cells[t].value[j]
    decreases |cells|
  {
    var m := |cells| - 1;
    FlatLengths(cells, n);
    FlatLengths(cells[..m], n);
    assert |cells[..m]| * n == m * n;
    RowEnd(t, |cells|, n);
    if t < m {
      FlatAt(cells[..m], n, t, j);
      RowEnd(t, m, n);
    }
  }

  lemma HeadBase(n: nat, t: nat)
    requires n > 0
    ensures Shape(n, 1, 1).Ok() && Shape(n, 1, 1).KvBase(0, t) == t * n
  {}

  lemma TimesOneOrZero(a: real, b: real)
    ensures b == 1.0 ==> Mul(a, b) == a
    ensures b == 0.0 ==> Mul(a, b) == 0.0
  {}

  lemma ZeroDivided(a: real)
    ensures Div(0.0, a) == 0.0
  {}

  // ---- The layer ----

  /** A row of one column sees only the first activation. */
  lemma FirstOnly(a: real, x: Vec)
    requires x != []
    ensures Dot([a], x) == a * x[0]
  {
    hide Sum;
    var h := (i: int) => Mul(At([a], i), At(x, i));
    forall i | 0 <= i < |x|
      ensures h(i) == if i == 0 then h(i) else 0.0
    {
      TimesZeroLeft(At(x, i));
    }
    SumOne(|x|, 0, h);
    SumEq(|x|, h, i => if i == 0 then h(i) else 0.0);
  }

  lemma TimesZeroLeft(a: real)
    ensures Mul(0.0, a) == 0.0
  {}

  lemma {:induction false} Picked(n: nat, e: nat, x: Vec)
    requires e < n == |x|
    ensures Dot(Picks(n, e), x) == x[e]
  {
    hide Sum;
    var f, g := (i: int) => Mul(At(Picks(n, e), i), At(x, i)), (i: int) => At(x, i);
    forall i | 0 <= i < n
      ensures f(i) == if i == e then g(i) else 0.0
    {
      TimesOneOrZero(At(x, i), Picks(n, e)[i]);
    }
    SumOne(n, e, g);
    SumEq(n, f, i => if i == e then g(i) else 0.0);
  }

  lemma Selected(n: nat, at: nat, x: Vec)
    requires |x| == n > 0 && at < n
    ensures Selector(n, at).Exact(x) == seq(n, i => if i == at then x[0] else 0.0)
  {
    hide Dot;
    var t := Selector(n, at);
    forall i | 0 <= i < n
      ensures t.Exact(x)[i] == if i == at then x[0] else 0.0
    {
      FirstOnly(if i == at then 1.0 else 0.0, x);
    }
  }

  lemma Whole(x: Vec, n: nat)
    requires |x| == n
    ensures Part(x, 0, n) == x
  {
    assert forall i :: 0 <= i < n ==> Part(x, 0, n)[i] == x[i];
  }

  /** One head is the whole vector. */
  lemma OneHead(n: nat, f: int -> Vec)
    requires n > 0 && |f(0)| == n
    ensures FromBlocks(1, n, f) == f(0)
  {
    forall i | 0 <= i < n
      ensures FromBlocks(1, n, f)[i] == f(0)[i]
    {
      ModUnique(i, n, 0, i);
    }
  }

  lemma OneHeadRotated(m: Model, rot: Rotation, x: Vec, pos: nat)
    requires rot.headDim == |x| > 0
    ensures m.RotateHeads(rot, x, 1, pos) == rot.Rotate(x, pos)
  {
    hide Rotation.Rotate, FromBlocks, Part;
    Whole(x, |x|);
    var f := (h: int) => rot.Rotate(Part(x, h * rot.headDim, rot.headDim), pos);
    assert f(0) == rot.Rotate(x, pos) by { assert 0 * rot.headDim == 0; }
    OneHead(rot.headDim, f);
  }

  lemma NothingTurns(rot: Rotation, pos: int)
    ensures rot.Rotate(Nothing(rot.headDim), pos) == Nothing(rot.headDim)
  {
    hide Rotation.Angle, Rotation.Half;
    var x := Nothing(rot.headDim);
    forall i | 0 <= i < |x|
      ensures rot.Rotate(x, pos)[i] == 0.0
    {}
  }

  lemma OneHeadAttends(m: Model, q: Vec, cells: seq<Cell>)
    requires m.cfg.shape == Shape(|q|, 1, 1) && |q| > 0
    ensures m.AttendHeads(q, cells) == m.cfg.shape.Attend(m.cfg.math, q, FlatKeys(cells), FlatValues(cells), |cells|, 0)
  {
    hide Shape.Attend, FromBlocks;
    var shape, math, keys, values := m.cfg.shape, m.cfg.math, FlatKeys(cells), FlatValues(cells);
    var f := (h: int) => if 0 <= h < 1 then shape.Attend(math, q, keys, values, |cells|, h) else [];
    OneHead(|q|, f);
    FromBlocksEq(1, |q|, f, h => if 0 <= h < shape.heads then shape.Attend(math, q, keys, values, |cells|, h) else []);
  }

  /** The stream stays Front through the norm before the mixer. */
  lemma FrontNormed(math: Math, eps: real, n: nat)
    requires n > 0 && Rms(math, Front(n), eps) != 0.0
    ensures RmsNorm(math, Front(n), seq(n, _ => Rms(math, Front(n), eps)), eps) == Front(n)
  {
    hide Rms;
    var weight := seq(n, _ => Rms(math, Front(n), eps));
    forall i | 0 <= i < n
      ensures RmsNorm(math, Front(n), weight, eps)[i] == Front(n)[i]
    {
      RmsNormAt(math, Front(n), weight, eps, i);
      Unscaled(Rms(math, Front(n), eps), Front(n)[i]);
    }
  }

  lemma Unscaled(r: real, v: real)
    requires r != 0.0
    ensures ScaledBy(r, v, r) == v
  {}

  lemma OneLayerPass(m: Model, env: Env, st: LayerState, maxSeq: nat, pos: nat, x: Vec)
    requires |m.layers| == 1 && m.MixerOk(m.layers[0].mixer) && m.StateOk(m.layers[0].mixer, st, maxSeq) && pos < maxSeq
    ensures m.LayersOk(m.layers) && m.StatesOk(m.layers, [st], maxSeq)
    ensures TokenPass(m, env, m.layers, [st], maxSeq, pos, x).0 == m.LayerStep(env, m.layers[0], st, pos, x).0
  {
    hide Model.LayerStep, Model.MixerOk;
    assert m.layers[1..] == [] && [st][1..] == [];
  }
}
