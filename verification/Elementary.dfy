/** The transcendental functions the engine calls, left uninterpreted, and the formulas built on them. */
module Elementary {
  import opened Sums

  datatype Math = Math(
    exp: real -> real,
    ln: real -> real,
    sqrt: real -> real,
    sin: real -> real,
    cos: real -> real,
    pow: (real, real) -> real)

  /** The laws of exp that a softmax rests on. */
  ghost predicate ExpLaws(math: Math) {
    && (forall a :: math.exp(a) > 0.0)
    && (forall a, b :: ExpAdds(math, a, b))
  }

  ghost predicate ExpAdds(math: Math, a: real, b: real) {
    math.exp(a + b) == math.exp(a) * math.exp(b)
  }

  lemma ExpOfZero(math: Math)
    requires ExpLaws(math)
    ensures math.exp(0.0) == 1.0
  {
    ExpSquared(math, 0.0);
    OnlyOne(math.exp(0.0));
  }

  lemma ExpSquared(math: Math, z: real)
    requires ExpLaws(math) && z == 0.0
    ensures math.exp(z) * math.exp(z) == math.exp(z)
  {
    var w := z + z;
    assert ExpAdds(math, z, z);
    assert math.exp(w) == math.exp(z) * math.exp(z);
    assert w == z;
  }

  lemma OnlyOne(e: real)
    requires e * e == e && e > 0.0
    ensures e == 1.0
  {
    assert (e - 1.0) * e == 0.0;
  }

  lemma ExpOfNegative(math: Math, g: real)
    requires ExpLaws(math)
    ensures math.exp(-g) * math.exp(g) == 1.0 && math.exp(g) > 0.0 && math.exp(-g) > 0.0
  {
    ExpOfZero(math);
    assert ExpAdds(math, -g, g);
    assert -g + g == 0.0;
  }

  function Silu(math: Math, g: real): real {
    Div(g, 1.0 + math.exp(-g))
  }

  function Sigmoid(math: Math, g: real): real {
    Div(1.0, 1.0 + math.exp(-g))
  }

  /** The sigmoid is exp(g) / (exp(g) + 1), lies between 0 and 1, and its values at g and -g add up to 1. */
  lemma SigmoidLaw(math: Math, g: real)
    requires ExpLaws(math)
    ensures Sigmoid(math, g) * (math.exp(g) + 1.0) == math.exp(g)
    ensures 0.0 < Sigmoid(math, g) < 1.0 && Sigmoid(math, -g) == 1.0 - Sigmoid(math, g)
  {
    ExpOfNegative(math, g);
    assert -(-g) == g;
    Logistic(math.exp(-g), math.exp(g));
  }

  lemma Logistic(down: real, up: real)
    requires down * up == 1.0 && up > 0.0 && down > 0.0
    ensures Div(1.0, 1.0 + down) * (up + 1.0) == up
    ensures 0.0 < Div(1.0, 1.0 + down) < 1.0 && Div(1.0, 1.0 + up) == 1.0 - Div(1.0, 1.0 + down)
  {
    var s, t := 1.0 / (1.0 + down), 1.0 / (1.0 + up);
    assert s * (1.0 + down) == 1.0 && t * (1.0 + up) == 1.0;
    assert s * (up + 1.0) == s * (up + down * up) == (s * (1.0 + down)) * up;
    assert s * (1.0 + up) == up;
    assert (1.0 - s) * (1.0 + up) == 1.0;
    assert (1.0 - s - t) * (1.0 + up) == 0.0;
  }

  /** silu(g) is g times the sigmoid of g: silu(g) * (exp(g) + 1) = g * exp(g). */
  lemma SiluLaw(math: Math, g: real)
    requires ExpLaws(math)
    ensures Silu(math, g) == g * Sigmoid(math, g) && Silu(math, g) * (math.exp(g) + 1.0) == g * math.exp(g)
  {
    ExpOfNegative(math, g);
    SigmoidLaw(math, g);
    Quotient(g, 1.0 + math.exp(-g));
    var s, e := Sigmoid(math, g), math.exp(g);
    assert (g * s) * (e + 1.0) == g * (s * (e + 1.0));
  }

  lemma Quotient(g: real, d: real)
    requires d > 0.0
    ensures Div(g, d) == g * Div(1.0, d)
  {
    assert g / d * d == g && g * (1.0 / d) * d == g;
    assert (g / d - g * (1.0 / d)) * d == 0.0;
  }

  function SumSquares(x: Vec): real {
    Sum(|x|, i => At(x, i) * At(x, i))
  }

  function Rms(math: Math, x: Vec, eps: real): real {
    math.sqrt(Div(SumSquares(x), |x| as real) + eps)
  }

  function ScaledBy(w: real, v: real, rms: real): real {
    Div(w * v, rms)
  }

  /** RMS normalisation: weight[i] * x[i] / rms. */
  function RmsNorm(math: Math, x: Vec, weight: Vec, eps: real): (out: Vec)
    ensures |out| == |x|
  {
    seq(|x|, i => ScaledBy(At(weight, i), At(x, i), Rms(math, x, eps)))
  }

  lemma RmsNormAt(math: Math, x: Vec, weight: Vec, eps: real, j: nat)
    requires j < |x|
    ensures RmsNorm(math, x, weight, eps)[j] == ScaledBy(At(weight, j), At(x, j), Rms(math, x, eps))
  {}

  function Add(x: Vec, y: Vec): (out: Vec)
    ensures |out| == |x|
  {
    seq(|x|, i => At(x, i) + At(y, i))
  }
}
