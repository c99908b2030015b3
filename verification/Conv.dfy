/** The causal depthwise convolutions of the ShortConv and Gated DeltaNet mixers: a sliding history,
    advanced in place, against the convolution of the whole input stream. */
module Conv {
  import opened Sums

  /** A depthwise convolution: `weight` is laid out [channel][tap]. */
  datatype Taps = Taps(channels: nat, kernel: nat, weight: Vec) {

    /** The loops index taps 0..kernel-1, so a zero-width kernel is out of the question. */
    predicate Ok() { kernel >= 1 && |weight| == channels * kernel }

    function Weight(ch: int, k: int): real { At(weight, ch * kernel + k) }

    /** Cells of the history: kernel - 1 slots of one value per channel, oldest first. */
    function HistorySize(): int { (kernel - 1) * channels }

    function HistoryTerms(history: Vec, ch: int): int -> real {
      (k: int) => Mul(Weight(ch, k), At(history, k * channels + ch))
    }

    /** One channel's output: the history under the first taps, the new input under the last. */
    function Output(history: Vec, x: Vec, ch: int): real
      requires Ok()
    {
      Sum(kernel - 1, HistoryTerms(history, ch)) + Mul(Weight(ch, kernel - 1), At(x, ch))
    }

    /** Drop the oldest slot, append the new input. */
    function Next(history: Vec, x: Vec): (h: Vec)
      requires |x| == channels
      ensures |h| == |history|
    {
      (history + x)[channels..]
    }

    // ---- The stream ----

    function InputAt(xs: seq<Vec>, t: int, ch: int): real {
      if 0 <= t < |xs| then At(xs[t], ch) else 0.0
    }

    predicate Stream(xs: seq<Vec>) { forall t :: 0 <= t < |xs| ==> |xs[t]| == channels }

    /** The history after the tokens xs, starting from zeros. */
    function History(xs: seq<Vec>): (h: Vec)
      requires Ok() && Stream(xs)
      ensures |h| == HistorySize()
    {
      if xs == [] then SizeNonNeg(); seq(HistorySize(), _ => 0.0)
      else Next(History(xs[..|xs| - 1]), xs[|xs| - 1])
    }

    lemma SizeNonNeg()
      requires Ok()
      ensures HistorySize() >= 0
    {}

    function DirectTerms(xs: seq<Vec>, t: int, ch: int): int -> real {
      (k: int) => Mul(Weight(ch, k), InputAt(xs, t - (kernel - 1) + k, ch))
    }

    /** The causal convolution of the whole stream at time t: every tap on its own input. */
    function Direct(xs: seq<Vec>, t: int, ch: int): real {
      Sum(kernel, DirectTerms(xs, t, ch))
    }

    /** Slot k always holds the input of time t - (kernel - 1) + k, and zeros before the start. */
    lemma {:induction false} HistorySlot(xs: seq<Vec>, k: nat, ch: nat)
      requires Ok() && Stream(xs) && k < kernel - 1 && ch < channels
      ensures 0 <= k * channels + ch < HistorySize()
      ensures History(xs)[k * channels + ch] == InputAt(xs, |xs| - (kernel - 1) + k, ch)
    {
      hide Taps.HistorySize;
      SlotInside(k, ch);
      if xs != [] {
        var n := |xs| - 1;
        var before, at := History(xs[..n]), k * channels + ch;
        assert History(xs)[at] == (before + xs[n])[at + channels];
        NextSlot(k, ch);
        if k == kernel - 2 {
          assert (before + xs[n])[at + channels] == xs[n][ch];
        } else {
          HistorySlot(xs[..n], k + 1, ch);
        }
      }
    }

    lemma NextSlot(k: nat, ch: nat)
      requires Ok()
      ensures (k + 1) * channels + ch == k * channels + ch + channels
      ensures k == kernel - 2 ==> k * channels + channels == HistorySize()
    {}

    lemma SlotInside(k: nat, ch: nat)
      requires Ok() && k < kernel - 1 && ch < channels
      ensures 0 <= k * channels + ch < HistorySize()
      ensures k < kernel - 2 ==> k * channels + ch < HistorySize() - channels
    {
      assert (k + 1) * channels <= (kernel - 1) * channels;
      assert k < kernel - 2 ==> (k + 2) * channels <= (kernel - 1) * channels;
    }

    /** Streaming is direct convolution: at every time of every stream, the output computed from the
        sliding history is the full tap sum. */
    lemma StreamingIsDirect(xs: seq<Vec>, t: nat, ch: nat)
      requires Ok() && Stream(xs) && t < |xs| && ch < channels
      ensures Output(History(xs[..t]), xs[t], ch) == Direct(xs, t, ch)
    {
      var history, direct := HistoryTerms(History(xs[..t]), ch), DirectTerms(xs, t, ch);
      forall k | 0 <= k < kernel - 1
        ensures history(k) == direct(k)
      {
        HistorySlot(xs[..t], k, ch);
      }
      SumEq(kernel - 1, history, direct);
    }
  }

  // ---- The in-place code on the CPU ----

  lemma TapInside(ch: nat, k: nat, channels: nat, kernel: nat)
    requires ch < channels && k < kernel
    ensures 0 <= ch * kernel + k < channels * kernel
  {
    assert (ch + 1) * kernel <= channels * kernel;
  }

  /** One channel: `acc += tap[k] * history[k * channels + ch]`, then the newest tap. */
  method ChannelSum(taps: Taps, history: array<real>, input: Vec, ch: nat) returns (acc: real)
    requires taps.Ok() && ch < taps.channels <= |input| && history.Length == taps.HistorySize()
    ensures acc == taps.Output(history[..], input[..taps.channels], ch)
  {
    hide Sum, Mul;
    var channels, kernel := taps.channels, taps.kernel;
    ghost var f := taps.HistoryTerms(history[..], ch);
    SumNone(f);
    acc := 0.0;
    for k := 0 to kernel - 1
      invariant acc == Sum(k, f)
    {
      SumStep(k, f);
      TapInside(ch, k, channels, kernel);
      taps.SlotInside(k, ch);
      acc := acc + Mul(taps.weight[ch * kernel + k], history[k * channels + ch]);
    }
    TapInside(ch, kernel - 1, channels, kernel);
    acc := acc + Mul(taps.weight[ch * kernel + kernel - 1], input[ch]);
  }

  /** history[at + ch] := history[at + channels + ch], for every channel. */
  method ShiftSlot(history: array<real>, at: nat, channels: nat)
    requires at + 2 * channels <= history.Length
    modifies history
    ensures forall i :: 0 <= i < history.Length ==>
      history[i] == if at <= i < at + channels then old(history[i + channels]) else old(history[i])
  {
    for ch := 0 to channels
      invariant forall i :: 0 <= i < history.Length ==>
        history[i] == if at <= i < at + ch then old(history[i + channels]) else old(history[i])
    {
      history[at + ch] := history[at + channels + ch];
    }
  }

  method CopyInto(history: array<real>, at: nat, input: Vec, channels: nat)
    requires at + channels <= history.Length && channels <= |input|
    modifies history
    ensures history[..] == old(history[..at]) + input[..channels] + old(history[at + channels..])
  {
    for ch := 0 to channels
      invariant forall i :: 0 <= i < history.Length ==>
        history[i] == if at <= i < at + ch then input[i - at] else old(history[i])
    {
      history[at + ch] := input[ch];
    }
  }

  /** Slot k := slot k + 1, for every slot but the last. */
  method ShiftHistory(history: array<real>, channels: nat, kernel: nat)
    requires kernel >= 2 && history.Length == (kernel - 1) * channels
    modifies history
    ensures (kernel - 2) * channels + channels == history.Length
    ensures forall i :: 0 <= i < history.Length - channels ==> history[i] == old(history[i + channels])
  {
    ghost var at := 0;
    for k := 0 to kernel - 2
      invariant at == k * channels && at + channels <= history.Length
      invariant forall i :: 0 <= i < at ==> history[i] == old(history[i + channels])
      invariant forall i :: at <= i < history.Length ==> history[i] == old(history[i])
    {
      SlotsFit(k, kernel, channels);
      ShiftSlot(history, k * channels, channels);
      at := at + channels;
    }
    SlotsFit(kernel - 2, kernel, channels);
  }

  lemma SlotsFit(k: nat, kernel: nat, channels: nat)
    requires k < kernel - 1
    ensures (k + 1) * channels == k * channels + channels <= (kernel - 1) * channels
    ensures k < kernel - 2 ==> k * channels + 2 * channels <= (kernel - 1) * channels
  {
    assert k < kernel - 2 ==> (k + 2) * channels <= (kernel - 1) * channels;
    assert (k + 1) * channels <= (kernel - 1) * channels;
  }

  /** Advance the history: shift slot by slot, then copy the input into the last slot. */
  method AdvanceHistory(taps: Taps, history: array<real>, input: Vec)
    requires taps.Ok() && taps.channels <= |input| && history.Length == taps.HistorySize()
    modifies history
    ensures history[..] == taps.Next(old(history[..]), input[..taps.channels])
  {
    if taps.kernel >= 2 {
      ShiftHistory(history, taps.channels, taps.kernel);
      assert history[..history.Length - taps.channels] == old(history[..])[taps.channels..];
      CopyInto(history, (taps.kernel - 2) * taps.channels, input, taps.channels);
    }
  }

  method CausalDepthwiseConv(taps: Taps, history: array<real>, input: Vec, output: array<real>,
                             activation: real -> real)
    requires taps.Ok() && |input| >= taps.channels && output.Length >= taps.channels
    requires history.Length == taps.HistorySize() && history != output
    modifies history, output
    ensures history[..] == taps.Next(old(history[..]), input[..taps.channels])
    ensures forall ch :: 0 <= ch < taps.channels ==>
      output[ch] == activation(taps.Output(old(history[..]), input[..taps.channels], ch))
    ensures forall i :: taps.channels <= i < output.Length ==> output[i] == old(output[i])
  {
    hide Taps.Output;
    for ch := 0 to taps.channels
      invariant history[..] == old(history[..])
      invariant forall c :: 0 <= c < ch ==>
        output[c] == activation(taps.Output(old(history[..]), input[..taps.channels], c))
      invariant forall i :: ch <= i < output.Length ==> output[i] == old(output[i])
    {
      var acc := ChannelSum(taps, history, input, ch);
      output[ch] := activation(acc);
    }
    AdvanceHistory(taps, history, input);
  }

  /** B * x, the gated input of the LFM2 convolution: bcx holds B, C and x one after the other. */
  function Gated(bcx: Vec, d: nat): (bx: Vec)
    ensures |bx| == d
  {
    seq(d, j => Mul(At(bcx, j), At(bcx, 2 * d + j)))
  }

  lemma GatedAt(bcx: Vec, d: nat, j: nat)
    requires |bcx| == 3 * d && j < d
    ensures Gated(bcx, d)[j] == Mul(bcx[j], bcx[2 * d + j])
  {}

  method GateInput(bcx: Vec, bx: array<real>)
    requires |bcx| == 3 * bx.Length
    modifies bx
    ensures bx[..] == Gated(bcx, bx.Length)
  {
    hide Mul, Gated;
    var d := bx.Length;
    for j := 0 to d
      invariant bx[..j] == Gated(bcx, d)[..j]
    {
      GatedAt(bcx, d, j);
      bx[j] := Mul(bcx[j], bcx[2 * d + j]);
    }
  }

  method ShortConvGateAndConv(taps: Taps, bcx: Vec, history: array<real>, bx: array<real>, convOut: array<real>)
    requires taps.Ok() && |bcx| == 3 * taps.channels && bx.Length == convOut.Length == taps.channels
    requires history.Length == taps.HistorySize() && history != bx && bx != convOut && history != convOut
    modifies history, bx, convOut
    ensures bx[..] == Gated(bcx, taps.channels)
    ensures history[..] == taps.Next(old(history[..]), Gated(bcx, taps.channels))
    ensures forall ch :: 0 <= ch < taps.channels ==>
      convOut[ch] == Mul(bcx[taps.channels + ch], taps.Output(old(history[..]), Gated(bcx, taps.channels), ch))
  {
    hide Taps.Output, Mul, Gated;
    var d := taps.channels;
    GateInput(bcx, bx);
    var gated := bx[..];
    assert gated[..d] == gated;
    for ch := 0 to d
      invariant history[..] == old(history[..]) && bx[..] == gated
      invariant forall c :: 0 <= c < ch ==> convOut[c] == Mul(bcx[d + c], taps.Output(old(history[..]), gated, c))
    {
      var acc := ChannelSum(taps, history, gated, ch);
      convOut[ch] := Mul(bcx[d + ch], acc);
    }
    AdvanceHistory(taps, history, gated);
  }
}
