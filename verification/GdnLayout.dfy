/** The Gated DeltaNet recurrence of a layer, cell by cell: which positions of the convolution's output are read as
    query, key and value, and where the matrices and outputs of each head stand. */
module GdnLayout {
  import opened Sums
  import opened Blocks
  import opened Gdn
  import opened Llama

  /** Cell (a, b) of head h's matrix. */
  function StateCell(m: Model, s: Vec, h: int, a: int, b: int): real {
    var head := m.cfg.gdn.head;
    At(s, h * (head.keyDim * head.valueDim) + (a * head.valueDim + b))
  }

  /** Entry a of the query that head h reads: query heads come first and are repeated cyclically. */
  function QueryAt(m: Model, conv: Vec, h: int, a: int): real
    requires m.cfg.gdn.Ok()
  {
    At(conv, h % m.cfg.gdn.keyHeads * m.cfg.gdn.head.keyDim + a)
  }

  /** The key heads follow the query heads. */
  function KeyAt(m: Model, conv: Vec, h: int, a: int): real
    requires m.cfg.gdn.Ok()
  {
    At(conv, (m.cfg.gdn.keyHeads + h % m.cfg.gdn.keyHeads) * m.cfg.gdn.head.keyDim + a)
  }

  /** The value heads, one each, come last. */
  function ValueAt(m: Model, conv: Vec, h: int, b: int): real {
    At(conv, 2 * (m.cfg.gdn.keyHeads * m.cfg.gdn.head.keyDim) + (h * m.cfg.gdn.head.valueDim + b))
  }

  /** What column b of head h's matrix already holds for its key. */
  function PredictTerms(m: Model, conv: Vec, s: Vec, h: int, b: int): int -> real
    requires m.cfg.gdn.Ok()
  {
    (a: int) => Mul(StateCell(m, s, h, a, b), KeyAt(m, conv, h, a))
  }

  function ReadTerms(m: Model, conv: Vec, s: Vec, h: int, b: int): int -> real
    requires m.cfg.gdn.Ok()
  {
    (a: int) => Mul(StateCell(m, s, h, a, b), QueryAt(m, conv, h, a))
  }

  // ---- Where the fields of a head's token come from ----

  lemma TokenFields(m: Model, conv: Vec, beta: Vec, decay: Vec, h: nat)
    requires m.cfg.gdn.Ok()
    ensures var head, tok := m.cfg.gdn.head, m.cfg.gdn.HeadToken(conv, beta, decay, h);
      && (forall a :: 0 <= a < head.keyDim ==> tok.q[a] == QueryAt(m, conv, h, a) && tok.k[a] == KeyAt(m, conv, h, a))
      && (forall b :: 0 <= b < head.valueDim ==> tok.v[b] == ValueAt(m, conv, h, b))
      && tok.beta == At(beta, h) && tok.decay == At(decay, h)
  {
    var kh, n, heads := h % m.cfg.gdn.keyHeads, m.cfg.gdn.head.keyDim, m.cfg.gdn.keyHeads;
    var tok := m.cfg.gdn.HeadToken(conv, beta, decay, h);
    KeyRow(heads, kh, n);
    forall a | 0 <= a < n
      ensures tok.q[a] == QueryAt(m, conv, h, a) && tok.k[a] == KeyAt(m, conv, h, a)
    {
      assert tok.q[a] == At(conv, kh * n + a) && tok.k[a] == At(conv, m.cfg.gdn.KeyWidth() + kh * n + a);
    }
    forall b | 0 <= b < m.cfg.gdn.head.valueDim
      ensures tok.v[b] == ValueAt(m, conv, h, b)
    {
      assert tok.v[b] == At(conv, 2 * m.cfg.gdn.KeyWidth() + h * m.cfg.gdn.head.valueDim + b);
    }
  }

  lemma KeyRow(heads: nat, kh: nat, n: nat)
    ensures (heads + kh) * n == heads * n + kh * n
  {}

  lemma BlockCell(m: Model, s: Vec, h: nat, a: nat, b: nat)
    requires a < m.cfg.gdn.head.keyDim && b < m.cfg.gdn.head.valueDim
    ensures m.cfg.gdn.head.Cell(m.HeadState(s, h), a, b) == StateCell(m, s, h, a, b)
  {
    m.cfg.gdn.head.CellInside(a, b);
  }

  /** A cell of the new matrices is a cell of its head's own step. */
  lemma SteppedCell(m: Model, conv: Vec, beta: Vec, decay: Vec, s: Vec, h: nat, a: nat, b: nat)
    requires m.cfg.gdn.Ok() && h < m.cfg.gdn.valueHeads
    requires a < m.cfg.gdn.head.keyDim && b < m.cfg.gdn.head.valueDim
    ensures StateCell(m, m.RecurStates(conv, beta, decay, s), h, a, b)
      == m.cfg.gdn.head.Cell(m.HeadStepped(conv, beta, decay, s, h), a, b)
  {
    hide Model.HeadStepped, FromBlocks;
    var head := m.cfg.gdn.head;
    head.CellInside(a, b);
    FromBlocksCell(m.cfg.gdn.valueHeads, head.Size(), g => m.HeadStepped(conv, beta, decay, s, g), h,
                 a * head.valueDim + b);
  }

  lemma PredictedIs(m: Model, conv: Vec, beta: Vec, decay: Vec, s: Vec, h: nat, b: nat)
    requires m.cfg.gdn.Ok() && b < m.cfg.gdn.head.valueDim
    ensures var head, tok := m.cfg.gdn.head, m.cfg.gdn.HeadToken(conv, beta, decay, h);
      head.Read(m.HeadState(s, h), tok.k, b) == Sum(head.keyDim, PredictTerms(m, conv, s, h, b))
  {
    hide Sum, Mul, Heads.HeadToken, Model.HeadState, Head.Cell, StateCell, KeyAt;
    var head, tok := m.cfg.gdn.head, m.cfg.gdn.HeadToken(conv, beta, decay, h);
    TokenFields(m, conv, beta, decay, h);
    forall a | 0 <= a < head.keyDim
      ensures head.ReadTerms(m.HeadState(s, h), tok.k, b)(a) == PredictTerms(m, conv, s, h, b)(a)
    {
      BlockCell(m, s, h, a, b);
    }
    SumEq(head.keyDim, head.ReadTerms(m.HeadState(s, h), tok.k, b), PredictTerms(m, conv, s, h, b));
  }

  // ---- The recurrence, by positions ----

  /** Every cell of every matrix decays, and gains its key times the gated error of what the matrix predicts. */
  lemma RecurCell(m: Model, conv: Vec, beta: Vec, decay: Vec, s: Vec, h: nat, a: nat, b: nat)
    requires m.cfg.gdn.Ok() && h < m.cfg.gdn.valueHeads
    requires a < m.cfg.gdn.head.keyDim && b < m.cfg.gdn.head.valueDim
    ensures var predicted := Sum(m.cfg.gdn.head.keyDim, PredictTerms(m, conv, s, h, b));
      StateCell(m, m.RecurStates(conv, beta, decay, s), h, a, b)
        == Mul(At(decay, h), StateCell(m, s, h, a, b))
           + Mul(KeyAt(m, conv, h, a), Mul(At(beta, h), ValueAt(m, conv, h, b) - predicted))
  {
    hide Sum, Mul, Heads.HeadToken, Model.HeadState, Head.Cell, StateCell, KeyAt, ValueAt, Head.Step, Head.Read;
    hide Model.RecurStates;
    var head, tok := m.cfg.gdn.head, m.cfg.gdn.HeadToken(conv, beta, decay, h);
    SteppedCell(m, conv, beta, decay, s, h, a, b);
    head.StepCell(m.HeadState(s, h), tok, a, b);
    TokenFields(m, conv, beta, decay, h);
    BlockCell(m, s, h, a, b);
    PredictedIs(m, conv, beta, decay, s, h, b);
  }

  /** Every output reads its column of the new matrix with the query, scaled. */
  lemma RecurOutput(m: Model, conv: Vec, beta: Vec, decay: Vec, s: Vec, h: nat, b: nat)
    requires m.cfg.gdn.Ok() && h < m.cfg.gdn.valueHeads && b < m.cfg.gdn.head.valueDim
    ensures var head := m.cfg.gdn.head; var now := m.RecurStates(conv, beta, decay, s);
      At(m.RecurOutputs(conv, beta, decay, s), h * head.valueDim + b)
        == head.scale * Sum(head.keyDim, ReadTerms(m, conv, now, h, b))
  {
    hide Sum, Mul, Heads.HeadToken, Head.Cell, StateCell, QueryAt, Head.Step, FromBlocks, Head.Output;
    hide Model.HeadStepped, Model.RecurStates;
    var head, tok := m.cfg.gdn.head, m.cfg.gdn.HeadToken(conv, beta, decay, h);
    var now, stepped := m.RecurStates(conv, beta, decay, s), m.HeadStepped(conv, beta, decay, s, h);
    FromBlocksCell(m.cfg.gdn.valueHeads, head.valueDim, g => if g < 0 then [] else
      head.Outputs(m.HeadStepped(conv, beta, decay, s, g), m.cfg.gdn.HeadToken(conv, beta, decay, g)), h, b);
    head.OutputIsScaledRead(stepped, tok, b);
    TokenFields(m, conv, beta, decay, h);
    forall a | 0 <= a < head.keyDim
      ensures head.ReadTerms(stepped, tok.q, b)(a) == ReadTerms(m, conv, now, h, b)(a)
    {
      SteppedCell(m, conv, beta, decay, s, h, a, b);
    }
    SumEq(head.keyDim, head.ReadTerms(stepped, tok.q, b), ReadTerms(m, conv, now, h, b));
  }

  /** Nothing is written with queries: outputs of the convolution that agree from the keys on leave the same
      matrices. */
  lemma QueriesDoNotWrite(m: Model, conv1: Vec, conv2: Vec, beta: Vec, decay: Vec, s: Vec)
    requires m.cfg.gdn.Ok()
    requires forall i :: m.cfg.gdn.keyHeads * m.cfg.gdn.head.keyDim <= i ==> At(conv1, i) == At(conv2, i)
    ensures m.RecurStates(conv1, beta, decay, s) == m.RecurStates(conv2, beta, decay, s)
  {
    hide Sum, Mul, StateCell, KeyAt, ValueAt, Model.RecurStates;
    var head, heads := m.cfg.gdn.head, m.cfg.gdn.valueHeads;
    var now1, now2 := m.RecurStates(conv1, beta, decay, s), m.RecurStates(conv2, beta, decay, s);
    forall i | 0 <= i < |now1|
      ensures now1[i] == now2[i]
    {
      var h := BlockOf(i, heads, head.Size());
      var a := BlockOf(i % head.Size(), head.keyDim, head.valueDim);
      var b := i % head.Size() % head.valueDim;
      SameCell(m, conv1, conv2, beta, decay, s, h, a, b);
      CellIs(m, now1, i, h, a, b);
      CellIs(m, now2, i, h, a, b);
    }
  }

  lemma CellIs(m: Model, s: Vec, i: nat, h: nat, a: nat, b: nat)
    requires i < |s| && i == h * m.cfg.gdn.head.Size() + (a * m.cfg.gdn.head.valueDim + b)
    ensures s[i] == StateCell(m, s, h, a, b)
  {}

  lemma SameCell(m: Model, conv1: Vec, conv2: Vec, beta: Vec, decay: Vec, s: Vec, h: nat, a: nat, b: nat)
    requires m.cfg.gdn.Ok() && h < m.cfg.gdn.valueHeads
    requires a < m.cfg.gdn.head.keyDim && b < m.cfg.gdn.head.valueDim
    requires forall i :: m.cfg.gdn.keyHeads * m.cfg.gdn.head.keyDim <= i ==> At(conv1, i) == At(conv2, i)
    ensures StateCell(m, m.RecurStates(conv1, beta, decay, s), h, a, b)
      == StateCell(m, m.RecurStates(conv2, beta, decay, s), h, a, b)
  {
    hide Sum, Mul, StateCell, KeyAt, ValueAt, Model.RecurStates;
    RecurCell(m, conv1, beta, decay, s, h, a, b);
    RecurCell(m, conv2, beta, decay, s, h, a, b);
    SameKeysAndValues(m, conv1, conv2, h, a, b);
    forall c | 0 <= c < m.cfg.gdn.head.keyDim
      ensures PredictTerms(m, conv1, s, h, b)(c) == PredictTerms(m, conv2, s, h, b)(c)
    {
      SameKeysAndValues(m, conv1, conv2, h, c, b);
    }
    SumEq(m.cfg.gdn.head.keyDim, PredictTerms(m, conv1, s, h, b), PredictTerms(m, conv2, s, h, b));
  }

  lemma SameKeysAndValues(m: Model, conv1: Vec, conv2: Vec, h: nat, a: nat, b: nat)
    requires m.cfg.gdn.Ok()
    requires forall i :: m.cfg.gdn.keyHeads * m.cfg.gdn.head.keyDim <= i ==> At(conv1, i) == At(conv2, i)
    ensures KeyAt(m, conv1, h, a) == KeyAt(m, conv2, h, a) && ValueAt(m, conv1, h, b) == ValueAt(m, conv2, h, b)
  {
    var n, heads, kh := m.cfg.gdn.head.keyDim, m.cfg.gdn.keyHeads, h % m.cfg.gdn.keyHeads;
    KeyRow(heads, kh, n);
    Nonneg(kh, n);
    Nonneg(heads, n);
    Nonneg(h, m.cfg.gdn.head.valueDim);
  }

  /** The first token, from zeros: each matrix is the outer product of its key and its gated value. */
  lemma FirstToken(m: Model, conv: Vec, beta: Vec, decay: Vec, h: nat, a: nat, b: nat)
    requires m.cfg.gdn.Ok() && h < m.cfg.gdn.valueHeads
    requires a < m.cfg.gdn.head.keyDim && b < m.cfg.gdn.head.valueDim
    ensures var zeros := seq(m.cfg.gdn.StateSize(), _ => 0.0);
      StateCell(m, m.RecurStates(conv, beta, decay, zeros), h, a, b)
        == At(beta, h) * KeyAt(m, conv, h, a) * ValueAt(m, conv, h, b)
  {
    hide Sum, KeyAt, ValueAt, Model.RecurStates;
    var zeros := seq(m.cfg.gdn.StateSize(), _ => 0.0);
    RecurCell(m, conv, beta, decay, zeros, h, a, b);
    SumZero(m.cfg.gdn.head.keyDim, PredictTerms(m, conv, zeros, h, b));
    OuterProduct(At(beta, h), KeyAt(m, conv, h, a), ValueAt(m, conv, h, b));
  }

  lemma OuterProduct(beta: real, k: real, v: real)
    ensures Mul(k, Mul(beta, v - 0.0)) == beta * k * v
  {}
}
