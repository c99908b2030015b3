/** The delta-rule recurrence of the Gated DeltaNet mixer, one head at a time, and the linear
    attention it unrolls to. */
module Gdn {
  import opened Sums
  import opened Striding
  import opened Blocks

  /** What one token brings to one value head. */
  datatype Token = Token(q: Vec, k: Vec, v: Vec, beta: real, decay: real)

  /** The head's state is a keyDim x valueDim matrix, row by row. */
  datatype Head = Head(keyDim: nat, valueDim: nat, scale: real) {

    function Size(): nat { keyDim * valueDim }

    predicate Fits(tok: Token) { |tok.q| == keyDim && |tok.k| == keyDim && |tok.v| == valueDim }

    function Cell(s: Vec, a: int, b: int): real { At(s, a * valueDim + b) }

    function ReadTerms(s: Vec, w: Vec, b: int): int -> real {
      (a: int) => Mul(Cell(s, a, b), At(w, a))
    }

    /** Column b of the state read with the vector w. */
    function Read(s: Vec, w: Vec, b: int): real {
      Sum(keyDim, ReadTerms(s, w, b))
    }

    /** The write: beta times what the state mispredicts. */
    function Delta(s: Vec, tok: Token, b: int): real {
      Mul(tok.beta, At(tok.v, b) - Read(s, tok.k, b))
    }

    function NewCell(s: Vec, tok: Token, i: int): real
      requires valueDim > 0
    {
      Mul(tok.decay, At(s, i)) + Mul(At(tok.k, i / valueDim), Delta(s, tok, i % valueDim))
    }

    /** One token: decay the state, then add k (outer) delta. */
    function Step(s: Vec, tok: Token): (s': Vec)
      ensures |s'| == Size()
    {
      if valueDim == 0 then seq(Size(), _ => 0.0) else seq(Size(), i => NewCell(s, tok, i))
    }

    /** The head's output at column b, read from the updated state. */
    function Output(s': Vec, tok: Token, b: int): real {
      Sum(keyDim, OutputTerms(s', tok, b))
    }

    function Outputs(s': Vec, tok: Token): (out: Vec)
      ensures |out| == valueDim
    {
      seq(valueDim, b => Output(s', tok, b))
    }

    function OutputTerms(s': Vec, tok: Token, b: int): int -> real {
      (a: int) => Mul(Mul(scale, At(tok.q, a)), Cell(s', a, b))
    }

    lemma StepCell(s: Vec, tok: Token, a: nat, b: nat)
      requires a < keyDim && b < valueDim
      ensures Cell(Step(s, tok), a, b) == Mul(tok.decay, Cell(s, a, b)) + Mul(At(tok.k, a), Delta(s, tok, b))
    {
      hide Mul, Delta;
      CellInside(a, b);
      var i := a * valueDim + b;
      assert Step(s, tok)[i] == NewCell(s, tok, i);
    }

    lemma CellInside(a: nat, b: nat)
      requires a < keyDim && b < valueDim
      ensures 0 <= a * valueDim + b < Size()
      ensures (a * valueDim + b) / valueDim == a && (a * valueDim + b) % valueDim == b
    {
      RowEnd(a, keyDim, valueDim);
      ModUnique(a * valueDim + b, valueDim, a, b);
    }

    lemma OutputIsScaledRead(s': Vec, tok: Token, b: int)
      ensures Output(s', tok, b) == scale * Read(s', tok.q, b)
    {
      hide Sum;
      var read := ReadTerms(s', tok.q, b);
      SumTimes(keyDim, scale, read);
      forall a | 0 <= a < keyDim
        ensures OutputTerms(s', tok, b)(a) == Times(scale, read)(a)
      {
        Regrouped(scale, At(tok.q, a), Cell(s', a, b));
      }
      SumEq(keyDim, OutputTerms(s', tok, b), Times(scale, read));
    }

    lemma Regrouped(c: real, u: real, w: real)
      ensures Mul(Mul(c, u), w) == c * Mul(w, u)
    {}

    // ---- Reading back what was written ----

    function KeyTerms(u: Vec, w: Vec): int -> real { (a: int) => Mul(At(u, a), At(w, a)) }

    function KeyDot(u: Vec, w: Vec): real { Sum(keyDim, KeyTerms(u, w)) }

    /** Reading with the written key returns the decayed prediction plus the delta, |k| squared times. */
    lemma ReadBack(s: Vec, tok: Token, b: nat)
      requires b < valueDim
      ensures Read(Step(s, tok), tok.k, b)
        == Mul(tok.decay, Read(s, tok.k, b)) + Mul(KeyDot(tok.k, tok.k), Delta(s, tok, b))
    {
      hide Step, Delta, Cell, Sum;
      var delta, kk, read := Delta(s, tok, b), KeyTerms(tok.k, tok.k), ReadTerms(s, tok.k, b);
      var f, g := Times(tok.decay, read), Times(delta, kk);
      forall a | 0 <= a < keyDim
        ensures ReadTerms(Step(s, tok), tok.k, b)(a) == f(a) + g(a)
      {
        StepCell(s, tok, a, b);
        Distribute(tok.decay, Cell(s, a, b), At(tok.k, a), delta);
      }
      SumEq(keyDim, ReadTerms(Step(s, tok), tok.k, b), a => f(a) + g(a));
      SumAdd(keyDim, f, g);
      SumTimes(keyDim, tok.decay, read);
      SumTimes(keyDim, delta, kk);
    }

    lemma Distribute(decay: real, c: real, k: real, delta: real)
      ensures Mul(Mul(decay, c) + Mul(k, delta), k) == decay * Mul(c, k) + delta * Mul(k, k)
    {
      assert (decay * c + k * delta) * k == decay * (c * k) + delta * (k * k);
    }

    /** An undecayed full write under a unit key is retrieved exactly. */
    lemma Retrieval(s: Vec, tok: Token, b: nat)
      requires b < valueDim && tok.decay == 1.0 && tok.beta == 1.0 && KeyDot(tok.k, tok.k) == 1.0
      ensures Read(Step(s, tok), tok.k, b) == At(tok.v, b)
    {
      hide Read, Step, KeyDot;
      ReadBack(s, tok, b);
    }

    // ---- The closed form ----

    /** The state after the first t tokens, starting from zeros. */
    function State(ts: seq<Token>, t: nat): (s: Vec)
      requires t <= |ts|
      ensures |s| == Size()
    {
      if t == 0 then seq(Size(), _ => 0.0) else Step(State(ts, t - 1), ts[t - 1])
    }

    /** decay_i * ... * decay_(t-1): what is left at time t of a write made just before token i. */
    function Decays(ts: seq<Token>, i: nat, t: nat): real
      requires t <= |ts|
    {
      if t <= i then 1.0 else Mul(Decays(ts, i, t - 1), ts[t - 1].decay)
    }

    function Attend(ts: seq<Token>, t: nat, i: int, w: Vec): real
      requires t <= |ts|
    {
      if 0 <= i < t then Mul(Decays(ts, i + 1, t), KeyDot(ts[i].k, w)) else 0.0
    }

    /** Delta of token i without any state matrix: what the earlier deltas, weighted by decay and
        key similarity, fail to predict. */
    function LinearDelta(ts: seq<Token>, i: nat, b: int): real
      requires i < |ts|
      decreases i, 1
    {
      Mul(ts[i].beta, At(ts[i].v, b) - Sum(i, AttendTerms(ts, i, ts[i].k, b)))
    }

    function AttendTerms(ts: seq<Token>, t: nat, w: Vec, b: int): int -> real
      requires t <= |ts|
      decreases t, 0
    {
      (i: int) => if 0 <= i < t then Mul(Attend(ts, t, i, w), LinearDelta(ts, i, b)) else 0.0
    }

    function WriteTerms(ts: seq<Token>, t: nat, a: int, b: int): int -> real
      requires t <= |ts|
    {
      (i: int) => if 0 <= i < t then Mul(Mul(Decays(ts, i + 1, t), At(ts[i].k, a)), LinearDelta(ts, i, b)) else 0.0
    }

    /** Sum over the writes i < t of (decays since i) * k_i[a] * delta_i[b]. */
    function Closed(ts: seq<Token>, t: nat, a: int, b: int): real
      requires t <= |ts|
    {
      Sum(t, WriteTerms(ts, t, a, b))
    }

    /** Read with any vector, a state in closed form is a linear attention over the deltas. */
    lemma ReadClosed(ts: seq<Token>, t: nat, s: Vec, w: Vec, b: nat)
      requires t <= |ts| && b < valueDim
      requires forall a :: 0 <= a < keyDim ==> Cell(s, a, b) == Closed(ts, t, a, b)
      ensures Read(s, w, b) == Sum(t, AttendTerms(ts, t, w, b))
    {
      hide Sum, Decays, LinearDelta, Cell;
      var cell := Grid(ts, t, w, b);
      forall a | 0 <= a < keyDim
        ensures ReadTerms(s, w, b)(a) == RowSums(t, cell)(a)
      {
        SumTimes(t, At(w, a), WriteTerms(ts, t, a, b));
        SumEq(t, Row(cell, a), Times(At(w, a), WriteTerms(ts, t, a, b)));
      }
      SumEq(keyDim, ReadTerms(s, w, b), RowSums(t, cell));
      SumSwap(keyDim, t, cell);
      forall i | 0 <= i < t
        ensures ColSums(keyDim, cell)(i) == AttendTerms(ts, t, w, b)(i)
      {
        GridColumn(ts, t, w, b, i);
      }
      SumEq(t, ColSums(keyDim, cell), AttendTerms(ts, t, w, b));
    }

    /** Row a, column i: what write i contributes to reading row a. */
    function Grid(ts: seq<Token>, t: nat, w: Vec, b: int): (int, int) -> real
      requires t <= |ts|
    {
      (a: int, i: int) => if 0 <= i < t then At(w, a) * WriteTerms(ts, t, a, b)(i) else 0.0
    }

    lemma GridColumn(ts: seq<Token>, t: nat, w: Vec, b: int, i: nat)
      requires i < t <= |ts|
      ensures ColSums(keyDim, Grid(ts, t, w, b))(i) == AttendTerms(ts, t, w, b)(i)
    {
      hide Sum, Decays, LinearDelta;
      var d, delta, kw := Decays(ts, i + 1, t), LinearDelta(ts, i, b), KeyTerms(ts[i].k, w);
      var c := Mul(d, delta);
      forall a | 0 <= a < keyDim
        ensures Col(Grid(ts, t, w, b), i)(a) == Times(c, kw)(a)
      {
        assert Col(Grid(ts, t, w, b), i)(a) == At(w, a) * WriteTerms(ts, t, a, b)(i);
        assert WriteTerms(ts, t, a, b)(i) == Mul(Mul(d, At(ts[i].k, a)), delta);
        Reorder(d, At(ts[i].k, a), delta, At(w, a));
        assert Times(c, kw)(a) == c * Mul(At(ts[i].k, a), At(w, a));
      }
      SumEq(keyDim, Col(Grid(ts, t, w, b), i), Times(c, kw));
      SumTimes(keyDim, c, kw);
      Reassociate(d, delta, KeyDot(ts[i].k, w));
    }

    lemma Reorder(d: real, k: real, delta: real, w: real)
      ensures w * Mul(Mul(d, k), delta) == Mul(d, delta) * Mul(k, w)
    {}

    lemma Reassociate(d: real, delta: real, kw: real)
      ensures Mul(d, delta) * kw == Mul(Mul(d, kw), delta)
    {}

    /** The recurrence equals the closed form, after any number of any tokens. */
    lemma {:induction false} StateIsClosed(ts: seq<Token>, t: nat, a: nat, b: nat)
      requires t <= |ts| && a < keyDim && b < valueDim
      ensures Cell(State(ts, t), a, b) == Closed(ts, t, a, b)
      decreases t, 0
    {
      hide Closed, Delta, LinearDelta, Step, Cell;
      if t > 0 {
        var s, tok := State(ts, t - 1), ts[t - 1];
        StepCell(s, tok, a, b);
        StateIsClosed(ts, t - 1, a, b);
        DeltaIsLinear(ts, t - 1, b);
        ClosedStep(ts, t, a, b);
      } else {
        StartIsClosed(ts, a, b);
      }
    }

    lemma StartIsClosed(ts: seq<Token>, a: nat, b: nat)
      ensures Cell(State(ts, 0), a, b) == Closed(ts, 0, a, b)
    {}

    lemma {:induction false} DeltaIsLinear(ts: seq<Token>, t: nat, b: nat)
      requires t < |ts| && b < valueDim
      ensures Delta(State(ts, t), ts[t], b) == LinearDelta(ts, t, b)
      decreases t, 1
    {
      hide Closed, State, AttendTerms, Cell;
      forall a | 0 <= a < keyDim
        ensures Cell(State(ts, t), a, b) == Closed(ts, t, a, b)
      {
        StateIsClosed(ts, t, a, b);
      }
      ReadClosed(ts, t, State(ts, t), ts[t].k, b);
    }

    lemma ClosedStep(ts: seq<Token>, t: nat, a: int, b: int)
      requires 0 < t <= |ts|
      ensures Closed(ts, t, a, b)
        == Mul(ts[t - 1].decay, Closed(ts, t - 1, a, b)) + Mul(At(ts[t - 1].k, a), LinearDelta(ts, t - 1, b))
    {
      hide LinearDelta, Decays, Mul, Sum;
      var decay, before, now := ts[t - 1].decay, WriteTerms(ts, t - 1, a, b), WriteTerms(ts, t, a, b);
      SumTimes(t - 1, decay, before);
      forall i | 0 <= i < t - 1
        ensures now(i) == Times(decay, before)(i)
      {
        DecaysStep(ts, i + 1, t);
        Regroup(Decays(ts, i + 1, t - 1), decay, At(ts[i].k, a), LinearDelta(ts, i, b));
      }
      SumEq(t - 1, now, Times(decay, before));
      SumStep(t - 1, now);
      LastWrite(ts, t, a, b);
      assert decay * Sum(t - 1, before) == Mul(decay, Closed(ts, t - 1, a, b)) by { MulIs(decay, Sum(t - 1, before)); }
    }

    lemma MulIs(x: real, y: real)
      ensures Mul(x, y) == x * y
    {}

    lemma LastWrite(ts: seq<Token>, t: nat, a: int, b: int)
      requires 0 < t <= |ts|
      ensures WriteTerms(ts, t, a, b)(t - 1) == Mul(At(ts[t - 1].k, a), LinearDelta(ts, t - 1, b))
    {
      hide LinearDelta;
      assert Decays(ts, t, t) == 1.0;
    }

    lemma Regroup(d: real, decay: real, k: real, delta: real)
      ensures Mul(Mul(Mul(d, decay), k), delta) == decay * Mul(Mul(d, k), delta)
    {}

    lemma DecaysStep(ts: seq<Token>, i: nat, t: nat)
      requires 0 < t <= |ts|
      ensures i < t ==> Decays(ts, i, t) == Mul(Decays(ts, i, t - 1), ts[t - 1].decay)
      ensures i >= t ==> Decays(ts, i, t) == 1.0
    {}

    /** The output at time t is scale * sum over i <= t of (decays since i) (q_t . k_i) delta_i. */
    lemma OutputIsLinearAttention(ts: seq<Token>, t: nat, b: nat)
      requires t < |ts| && b < valueDim
      ensures Output(State(ts, t + 1), ts[t], b) == scale * Sum(t + 1, AttendTerms(ts, t + 1, ts[t].q, b))
    {
      hide Closed, State, AttendTerms, Cell, Output, Read;
      var n := t + 1;
      forall a | 0 <= a < keyDim
        ensures Cell(State(ts, n), a, b) == Closed(ts, n, a, b)
      {
        StateIsClosed(ts, n, a, b);
      }
      ReadClosed(ts, n, State(ts, n), ts[t].q, b);
      OutputIsScaledRead(State(ts, n), ts[t], b);
    }
  }

  // ---- The in-place code on the CPU ----

  /** acc += s[a * valueDim + b] * w[a] */
  method ColumnRead(head: Head, s: Vec, w: Vec, b: nat) returns (acc: real)
    requires |s| == head.Size() && |w| == head.keyDim && b < head.valueDim
    ensures acc == head.Read(s, w, b)
  {
    hide Sum, Mul;
    ghost var f := head.ReadTerms(s, w, b);
    SumNone(f);
    acc := 0.0;
    for a := 0 to head.keyDim
      invariant acc == Sum(a, f)
    {
      SumStep(a, f);
      head.CellInside(a, b);
      acc := acc + Mul(s[a * head.valueDim + b], w[a]);
    }
  }

  method ColumnOutput(head: Head, s: Vec, tok: Token, b: nat) returns (acc: real)
    requires |s| == head.Size() && head.Fits(tok) && b < head.valueDim
    ensures acc == head.Output(s, tok, b)
  {
    hide Sum, Mul;
    ghost var f := head.OutputTerms(s, tok, b);
    SumNone(f);
    acc := 0.0;
    for a := 0 to head.keyDim
      invariant acc == Sum(a, f)
    {
      SumStep(a, f);
      head.CellInside(a, b);
      acc := acc + Mul(Mul(head.scale, tok.q[a]), s[a * head.valueDim + b]);
    }
  }

  /** The predictions and the deltas, into their scratch buffers. */
  method FillDeltas(head: Head, s: Vec, tok: Token, vpred: array<real>, delta: array<real>)
    requires |s| == head.Size() && head.Fits(tok) && vpred != delta
    requires vpred.Length >= head.valueDim && delta.Length >= head.valueDim
    modifies vpred, delta
    ensures forall b :: 0 <= b < head.valueDim ==> delta[b] == head.Delta(s, tok, b)
  {
    hide Head.Read, Mul;
    for b := 0 to head.valueDim
      invariant forall c :: 0 <= c < b ==> vpred[c] == head.Read(s, tok.k, c)
    {
      vpred[b] := ColumnRead(head, s, tok.k, b);
    }
    for b := 0 to head.valueDim
      invariant forall c :: 0 <= c < head.valueDim ==> vpred[c] == head.Read(s, tok.k, c)
      invariant forall c :: 0 <= c < b ==> delta[c] == head.Delta(s, tok, c)
    {
      delta[b] := Mul(tok.beta, tok.v[b] - vpred[b]);
    }
  }

  method UpdateRow(s: array<real>, at: nat, width: nat, decay: real, key: real, delta: array<real>)
    requires at + width <= s.Length && width <= delta.Length && s != delta
    modifies s
    ensures forall i :: 0 <= i < s.Length ==>
      s[i] == if at <= i < at + width then Mul(decay, old(s[i])) + Mul(key, delta[i - at]) else old(s[i])
  {
    hide Mul;
    for b := 0 to width
      invariant forall i :: 0 <= i < s.Length ==>
        s[i] == if at <= i < at + b then Mul(decay, old(s[i])) + Mul(key, delta[i - at]) else old(s[i])
    {
      s[at + b] := Mul(decay, s[at + b]) + Mul(key, delta[b]);
    }
  }

  /** s[a, b] := decay * s[a, b] + k[a] * delta[b], row after row. */
  method UpdateState(head: Head, s: array<real>, base: nat, tok: Token, delta: array<real>)
    requires base + head.Size() <= s.Length && head.Fits(tok) && delta.Length >= head.valueDim && s != delta
    requires forall b :: 0 <= b < head.valueDim ==> delta[b] == head.Delta(s[base..base + head.Size()], tok, b)
    modifies s
    ensures s[base..base + head.Size()] == head.Step(old(s[base..base + head.Size()]), tok)
    ensures forall i :: 0 <= i < s.Length && !(base <= i < base + head.Size()) ==> s[i] == old(s[i])
  {
    hide Mul, Head.Delta, Head.NewCell;
    ghost var was := s[base..base + head.Size()];
    var width := head.valueDim;
    var at := base;
    for a := 0 to head.keyDim
      invariant at == base + a * width <= base + head.Size()
      invariant forall i :: base <= i < at ==> s[i] == head.NewCell(was, tok, i - base)
      invariant forall i :: 0 <= i < s.Length && !(base <= i < at) ==> s[i] == old(s[i])
    {
      RowEnd(a, head.keyDim, width);
      UpdateRow(s, at, width, tok.decay, tok.k[a], delta);
      forall i | at <= i < at + width
        ensures s[i] == head.NewCell(was, tok, i - base)
      {
        RowOfCell(head, was, tok, a, i - at);
        assert was[i - base] == old(s[i]);
      }
      at := at + width;
      assert (a + 1) * width == a * width + width;
    }
  }

  lemma RowOfCell(head: Head, s: Vec, tok: Token, a: nat, b: nat)
    requires a < head.keyDim && b < head.valueDim && |s| == head.Size() && |tok.k| == head.keyDim
    ensures 0 <= a * head.valueDim + b < |s|
    ensures head.NewCell(s, tok, a * head.valueDim + b)
      == Mul(tok.decay, s[a * head.valueDim + b]) + Mul(tok.k[a], head.Delta(s, tok, b))
  {
    hide Mul, Head.Delta;
    head.CellInside(a, b);
  }

  /** One head, one token: state and output in place; what the scratch buffers held does not matter. */
  method HeadStep(head: Head, s: array<real>, base: nat, tok: Token, out: array<real>, outBase: nat,
                  vpred: array<real>, delta: array<real>)
    requires base + head.Size() <= s.Length && outBase + head.valueDim <= out.Length && head.Fits(tok)
    requires vpred.Length >= head.valueDim && delta.Length >= head.valueDim
    requires s != out && s != vpred && s != delta && out != vpred && out != delta && vpred != delta
    modifies s, out, vpred, delta
    ensures var now := head.Step(old(s[base..base + head.Size()]), tok);
      && s[..] == Patched(old(s[..]), base, now)
      && out[..] == Patched(old(out[..]), outBase, head.Outputs(now, tok))
  {
    hide Head.Step, Head.Output, Head.Delta, Head.Size;
    ghost var was := s[..];
    FillDeltas(head, s[base..base + head.Size()], tok, vpred, delta);
    UpdateState(head, s, base, tok, delta);
    var now := s[base..base + head.Size()];
    assert s[..] == Patched(was, base, now);
    for b := 0 to head.valueDim
      invariant s[..] == Patched(was, base, now)
      invariant forall i :: 0 <= i < out.Length ==>
        out[i] == if outBase <= i < outBase + b then head.Output(now, tok, i - outBase) else old(out[i])
    {
      out[outBase + b] := ColumnOutput(head, now, tok, b);
    }
    assert out[..] == Patched(old(out[..]), outBase, head.Outputs(now, tok));
  }

  /** The heads of the mixer. Query and key heads are repeated cyclically up to the value heads. */
  datatype Heads = Heads(valueHeads: nat, keyHeads: nat, head: Head) {

    predicate Ok() { keyHeads > 0 }

    function KeyWidth(): nat { keyHeads * head.keyDim }

    function StateSize(): nat { valueHeads * head.Size() }

    /** conv holds the query heads, the key heads, then the value heads. */
    function HeadToken(conv: Vec, beta: Vec, decay: Vec, h: nat): (tok: Token)
      requires Ok()
      ensures head.Fits(tok)
    {
      var kh := h % keyHeads;
      Token(seq(head.keyDim, a => At(conv, kh * head.keyDim + a)),
            seq(head.keyDim, a => At(conv, KeyWidth() + kh * head.keyDim + a)),
            seq(head.valueDim, b => At(conv, 2 * KeyWidth() + h * head.valueDim + b)),
            At(beta, h), At(decay, h))
    }

    /** Head h went one step, from its own block of the old state and its own token alone. */
    ghost predicate HeadDone(was: Vec, now: Vec, out: Vec, tok: Token, h: nat)
      requires h < valueHeads && |was| == |now| == StateSize() && |out| == valueHeads * head.valueDim
    {
      RowEnd(h, valueHeads, head.Size());
      RowEnd(h, valueHeads, head.valueDim);
      && Block(now, head.Size(), h) == head.Step(Block(was, head.Size(), h), tok)
      && Block(out, head.valueDim, h) == head.Outputs(Block(now, head.Size(), h), tok)
    }

    /** All heads, one token: no head's block depends on another's. */
    method Recur(conv: Vec, beta: Vec, decay: Vec, s: array<real>, out: array<real>, vpred: array<real>,
                 delta: array<real>)
      requires Ok() && s.Length == StateSize() && out.Length == valueHeads * head.valueDim
      requires vpred.Length >= head.valueDim && delta.Length >= head.valueDim
      requires s != out && s != vpred && s != delta && out != vpred && out != delta && vpred != delta
      modifies s, out, vpred, delta
      ensures forall h :: 0 <= h < valueHeads ==>
        HeadDone(old(s[..]), s[..], out[..], HeadToken(conv, beta, decay, h), h)
    {
      hide Head.Step, Head.Outputs, Heads.HeadToken, Block, Patched;
      for h := 0 to valueHeads
        invariant forall g :: 0 <= g < h ==> HeadDone(old(s[..]), s[..], out[..], HeadToken(conv, beta, decay, g), g)
        invariant forall g :: h <= g < valueHeads ==> SameBlock(old(s[..]), s[..], g)
      {
        RowEnd(h, valueHeads, head.Size());
        RowEnd(h, valueHeads, head.valueDim);
        var kh := h % keyHeads;
        var query := Part(conv, kh * head.keyDim, head.keyDim);
        var key := Part(conv, KeyWidth() + kh * head.keyDim, head.keyDim);
        var value := Part(conv, 2 * KeyWidth() + h * head.valueDim, head.valueDim);
        var tok := Token(query, key, value, At(beta, h), At(decay, h));
        TokenOfParts(conv, beta, decay, h, tok);
        ghost var s0, out0 := s[..], out[..];
        HeadStep(head, s, h * head.Size(), tok, out, h * head.valueDim, vpred, delta);
        forall g | 0 <= g < valueHeads
          ensures g <= h ==> HeadDone(old(s[..]), s[..], out[..], HeadToken(conv, beta, decay, g), g)
          ensures g > h ==> SameBlock(old(s[..]), s[..], g)
        {
          HeadStepKeeps(old(s[..]), s0, s[..], out0, out[..], tok, h, HeadToken(conv, beta, decay, g), g);
        }
      }
    }

    lemma TokenOfParts(conv: Vec, beta: Vec, decay: Vec, h: nat, tok: Token)
      requires Ok()
      requires var kh := h % keyHeads;
        && tok.q == Part(conv, kh * head.keyDim, head.keyDim)
        && tok.k == Part(conv, KeyWidth() + kh * head.keyDim, head.keyDim)
        && tok.v == Part(conv, 2 * KeyWidth() + h * head.valueDim, head.valueDim)
        && tok.beta == At(beta, h) && tok.decay == At(decay, h)
      ensures tok == HeadToken(conv, beta, decay, h)
    {}

    ghost predicate SameBlock(was: Vec, now: Vec, h: nat)
      requires h < valueHeads && |was| == |now| == StateSize()
    {
      RowEnd(h, valueHeads, head.Size());
      Block(now, head.Size(), h) == Block(was, head.Size(), h)
    }

    lemma HeadStepKeeps(was: Vec, s0: Vec, s1: Vec, out0: Vec, out1: Vec, tok: Token, h: nat, tokG: Token, g: nat)
      requires g < valueHeads && h < valueHeads && (g == h ==> tokG == tok)
      requires |was| == |s0| == |s1| == StateSize() && |out0| == |out1| == valueHeads * head.valueDim
      requires 0 <= h * head.Size() && h * head.Size() + head.Size() <= |s0|
      requires 0 <= h * head.valueDim && h * head.valueDim + head.valueDim <= |out0|
      requires var now := head.Step(s0[h * head.Size()..h * head.Size() + head.Size()], tok);
        s1 == Patched(s0, h * head.Size(), now) && out1 == Patched(out0, h * head.valueDim, head.Outputs(now, tok))
      requires if g < h then HeadDone(was, s0, out0, tokG, g) else SameBlock(was, s0, g)
      ensures if g <= h then HeadDone(was, s1, out1, tokG, g) else SameBlock(was, s1, g)
    {
      hide Head.Step, Head.Outputs, Patched;
      RowEnd(g, valueHeads, head.Size());
      RowEnd(g, valueHeads, head.valueDim);
      var now := head.Step(s0[h * head.Size()..h * head.Size() + head.Size()], tok);
      PatchedBlocks(s0, head.Size(), h, now, g);
      PatchedBlocks(out0, head.valueDim, h, head.Outputs(now, tok), g);
    }
  }
}
