/** Rotary position embedding: pairs of dimensions rotated by an angle linear in the position. */
module Rope {
  import opened Sums
  import opened Striding
  import opened Blocks
  import opened Elementary

  ghost predicate TrigLaws(math: Math) {
    && (forall a :: math.sin(a) * math.sin(a) + math.cos(a) * math.cos(a) == 1.0)
    && (forall a, b :: AngleDifference(math, a, b))
  }

  ghost predicate AngleDifference(math: Math, a: real, b: real) {
    && math.cos(a - b) == math.cos(a) * math.cos(b) + math.sin(a) * math.sin(b)
    && math.sin(a - b) == math.sin(a) * math.cos(b) - math.cos(a) * math.sin(b)
  }

  /** The rotation of a head's first `rotated` dimensions; theta and scale come from the configuration. */
  datatype Rotation = Rotation(math: Math, headDim: nat, rotated: nat, theta: real, scale: real) {

    function Half(): nat { rotated / 2 }

    /** The second half of every pair lies inside the head. */
    predicate Ok() { 2 * Half() <= headDim }

    function Angle(pos: int, d: int): real {
      Div((pos as real) * scale, math.pow(theta, Div(2.0 * (d as real), rotated as real)))
    }

    function First(x0: real, x1: real, angle: real): real { x0 * math.cos(angle) - x1 * math.sin(angle) }

    function Second(x0: real, x1: real, angle: real): real { x0 * math.sin(angle) + x1 * math.cos(angle) }

    function Cell(x: Vec, pos: int, i: int): real {
      if 0 <= i < Half() then First(At(x, i), At(x, i + Half()), Angle(pos, i))
      else if Half() <= i < 2 * Half() then Second(At(x, i - Half()), At(x, i), Angle(pos, i - Half()))
      else At(x, i)
    }

    function Rotate(x: Vec, pos: int): (r: Vec)
      ensures |r| == |x|
      ensures forall i :: 2 * Half() <= i < |x| ==> r[i] == x[i]
    {
      seq(|x|, i => Cell(x, pos, i))
    }

    // ---- Frequencies ----

    /** The powers of theta multiply where exponents add; to the power 0 it is 1, and to the power 1 itself. */
    ghost predicate PowLaws() {
      && (forall a, b :: PowAdds(a, b))
      && math.pow(theta, 0.0) == 1.0 && math.pow(theta, 1.0) == theta && (forall a :: math.pow(theta, a) > 0.0)
    }

    ghost predicate PowAdds(a: real, b: real) {
      math.pow(theta, a + b) == math.pow(theta, a) * math.pow(theta, b)
    }

    /** Angles grow with the scaled position and fall geometrically over the pairs: by the same factor from each pair to
        the next, from the position itself at pair 0 towards the position over theta at pair rotated / 2. */
    lemma FrequenciesFall(pos: int, d: nat, e: nat)
      requires PowLaws()
      ensures Angle(pos, 0) == Mul(pos as real, scale)
      ensures Mul(Angle(pos, d + e), Mul(pos as real, scale)) == Mul(Angle(pos, d), Angle(pos, e))
      ensures rotated > 0 && rotated % 2 == 0 ==> Mul(Angle(pos, rotated / 2), theta) == Mul(pos as real, scale)
    {
      var p, n := Mul(pos as real, scale), rotated as real;
      var a, b, c := Exponent(d), Exponent(e), Exponent(d + e);
      ExponentsAdd(d, e);
      assert PowAdds(a, b);
      hide Rotation.Exponent, Mul, Div;
      AngleIs(pos, 0);
      AngleIs(pos, d);
      AngleIs(pos, e);
      AngleIs(pos, d + e);
      Exponents();
      SameProduct(p, math.pow(theta, a), math.pow(theta, b));
      if rotated > 0 && rotated % 2 == 0 {
        AngleIs(pos, rotated / 2);
        Undone(p, theta);
      }
      Undone(p, 1.0);
    }

    function Exponent(d: int): real { Div(2.0 * (d as real), rotated as real) }

    lemma ExponentsAdd(d: nat, e: nat)
      ensures Exponent(d + e) == Exponent(d) + Exponent(e)
    {
      var n, x, y := rotated as real, 2.0 * (d as real), 2.0 * (e as real);
      assert 2.0 * ((d + e) as real) == x + y;
      if rotated != 0 { assert (x + y) / n == x / n + y / n; }
    }

    lemma Exponents()
      ensures Exponent(0) == 0.0 && (rotated > 0 && rotated % 2 == 0 ==> Exponent(rotated / 2) == 1.0)
    {
      assert rotated > 0 && rotated % 2 == 0 ==> 2.0 * ((rotated / 2) as real) == rotated as real;
    }

    lemma AngleIs(pos: int, d: int)
      ensures Angle(pos, d) == Div(Mul(pos as real, scale), math.pow(theta, Exponent(d)))
    {}

    lemma SameProduct(p: real, x: real, y: real)
      requires x > 0.0 && y > 0.0
      ensures Mul(Div(p, x * y), p) == Mul(Div(p, x), Div(p, y))
    {
      var q, r, s := p / (x * y), p / x, p / y;
      assert x * y > 0.0;
      assert q * (x * y) == p && r * x == p && s * y == p;
      assert (q * p - r * s) * (x * y) == p * p - (r * x) * (s * y) == 0.0;
    }

    lemma Undone(p: real, x: real)
      requires x > 0.0
      ensures Mul(Div(p, x), x) == p && Div(p, 1.0) == p
    {}

    // ---- What rotation keeps ----

    function DotTerms(x: Vec, y: Vec): int -> real { (i: int) => Mul(At(x, i), At(y, i)) }

    function HeadDot(x: Vec, y: Vec): real { Sum(headDim, DotTerms(x, y)) }

    function PairTerms(x: Vec, y: Vec): int -> real {
      (d: int) => Mul(At(x, d), At(y, d)) + Mul(At(x, d + Half()), At(y, d + Half()))
    }

    function TailDot(x: Vec, y: Vec): real
      requires Ok()
    {
      Sum(headDim - 2 * Half(), Shifted(DotTerms(x, y), 2 * Half()))
    }

    /** A pair's contribution to the score of q and k, as a function of the angle between them. */
    function RelativePair(q0: real, q1: real, k0: real, k1: real, angle: real): real {
      (q0 * k0 + q1 * k1) * math.cos(angle) + (q0 * k1 - q1 * k0) * math.sin(angle)
    }

    function RelativeTerms(q: Vec, k: Vec, offset: int): int -> real {
      (d: int) => RelativePair(At(q, d), At(q, d + Half()), At(k, d), At(k, d + Half()), Angle(offset, d))
    }

    lemma DotByPairs(x: Vec, y: Vec)
      requires Ok()
      ensures HeadDot(x, y) == Sum(Half(), PairTerms(x, y)) + TailDot(x, y)
    {
      hide Sum, Mul, Rotation.Half, Rotation.PairTerms, Shifted;
      var f, half := DotTerms(x, y), Half();
      SumCut(2 * half, headDim - 2 * half, f);
      SumCut(half, half, f);
      PairsAreSums(x, y);
      SumOfBoth(half, f, Shifted(f, half), PairTerms(x, y));
    }

    lemma PairsAreSums(x: Vec, y: Vec)
      ensures var f := DotTerms(x, y);
        forall d {:trigger PairTerms(x, y)(d)} :: PairTerms(x, y)(d) == f(d) + Shifted(f, Half())(d)
    {
      hide Mul, Rotation.Half;
    }

    lemma AngleIsLinear(m: int, n: int, d: int)
      ensures Angle(m, d) - Angle(n, d) == Angle(m - n, d)
    {
      var p := math.pow(theta, Div(2.0 * (d as real), rotated as real));
      var a, b := (m as real) * scale, (n as real) * scale;
      assert ((m - n) as real) * scale == a - b;
      if p != 0.0 { assert a / p - b / p == (a - b) / p; }
    }

    lemma PairScore(q0: real, q1: real, k0: real, k1: real, a: real, b: real)
      requires AngleDifference(math, a, b)
      ensures Mul(First(q0, q1, a), First(k0, k1, b)) + Mul(Second(q0, q1, a), Second(k0, k1, b))
        == RelativePair(q0, q1, k0, k1, a - b)
    {
      RotationAlgebra(q0, q1, k0, k1, math.sin(a), math.cos(a), math.sin(b), math.cos(b));
    }

    lemma LawAt(a: real, b: real)
      requires TrigLaws(math)
      ensures AngleDifference(math, a, b)
    {}

    lemma PairRotated(q: Vec, k: Vec, m: int, n: int, d: nat)
      requires Ok() && TrigLaws(math) && d < Half() && |q| == |k| == headDim
      ensures PairTerms(Rotate(q, m), Rotate(k, n))(d) == RelativeTerms(q, k, m - n)(d)
    {
      hide Mul, Rotation.First, Rotation.Second, Rotation.Angle, Rotation.RelativePair, Rotation.Rotate, Rotation.Half;
      hide TrigLaws, AngleDifference;
      var a, b := Angle(m, d), Angle(n, d);
      AngleIsLinear(m, n, d);
      LawAt(a, b);
      PairScore(At(q, d), At(q, d + Half()), At(k, d), At(k, d + Half()), a, b);
      PairCells(q, m, d);
      PairCells(k, n, d);
    }

    lemma PairCells(x: Vec, pos: int, d: nat)
      requires Ok() && d < Half() && |x| == headDim
      ensures At(Rotate(x, pos), d) == First(At(x, d), At(x, d + Half()), Angle(pos, d))
      ensures At(Rotate(x, pos), d + Half()) == Second(At(x, d), At(x, d + Half()), Angle(pos, d))
    {
      hide Rotation.First, Rotation.Second, Rotation.Angle;
    }

    /** The score of a query rotated at m with a key rotated at n depends on the positions only
        through m - n. */
    lemma ScoreIsRelative(q: Vec, k: Vec, m: int, n: int)
      requires Ok() && TrigLaws(math) && |q| == |k| == headDim
      ensures HeadDot(Rotate(q, m), Rotate(k, n)) == Sum(Half(), RelativeTerms(q, k, m - n)) + TailDot(q, k)
    {
      hide Sum, TrigLaws, Rotation.Cell, Mul, Rotation.RelativePair, Rotation.Angle, Rotation.Rotate, Rotation.Half;
      hide Rotation.HeadDot, Rotation.TailDot;
      var q', k' := Rotate(q, m), Rotate(k, n);
      DotByPairs(q', k');
      PairsRotated(q, k, m, n);
      TailKept(q, k, m, n);
    }

    lemma PairsRotated(q: Vec, k: Vec, m: int, n: int)
      requires Ok() && TrigLaws(math) && |q| == |k| == headDim
      ensures Sum(Half(), PairTerms(Rotate(q, m), Rotate(k, n))) == Sum(Half(), RelativeTerms(q, k, m - n))
    {
      hide Sum, TrigLaws, Rotation.Rotate, Rotation.Half, Rotation.PairTerms, Rotation.RelativeTerms;
      forall d | 0 <= d < Half()
        ensures PairTerms(Rotate(q, m), Rotate(k, n))(d) == RelativeTerms(q, k, m - n)(d)
      {
        PairRotated(q, k, m, n, d);
      }
      SumEq(Half(), PairTerms(Rotate(q, m), Rotate(k, n)), RelativeTerms(q, k, m - n));
    }

    lemma TailKept(q: Vec, k: Vec, m: int, n: int)
      requires Ok() && |q| == |k| == headDim
      ensures TailDot(Rotate(q, m), Rotate(k, n)) == TailDot(q, k)
    {
      hide Sum, Rotation.Cell, Mul, Rotation.Half;
      SumEq(headDim - 2 * Half(), Shifted(DotTerms(Rotate(q, m), Rotate(k, n)), 2 * Half()),
            Shifted(DotTerms(q, k), 2 * Half()));
    }

    /** Moving query and key by the same number of positions leaves their score as it is. */
    lemma ScoreIsShiftInvariant(q: Vec, k: Vec, m: int, n: int, shift: int)
      requires Ok() && TrigLaws(math) && |q| == |k| == headDim
      ensures HeadDot(Rotate(q, m + shift), Rotate(k, n + shift)) == HeadDot(Rotate(q, m), Rotate(k, n))
    {
      hide *;
      ScoreIsRelative(q, k, m, n);
      ScoreIsRelative(q, k, m + shift, n + shift);
    }

    /** Rotation preserves each head's norm. */
    lemma NormPreserved(x: Vec, pos: int)
      requires Ok() && TrigLaws(math) && |x| == headDim
      ensures HeadDot(Rotate(x, pos), Rotate(x, pos)) == HeadDot(x, x)
    {
      hide Sum, Rotation.Rotate, TrigLaws, Mul, Rotation.RelativePair;
      ScoreIsRelative(x, x, pos, pos);
      DotByPairs(x, x);
      forall d | 0 <= d < Half()
        ensures RelativeTerms(x, x, 0)(d) == PairTerms(x, x)(d)
      {
        PairUnturned(x, d);
      }
      SumEq(Half(), RelativeTerms(x, x, 0), PairTerms(x, x));
    }

    lemma PairUnturned(x: Vec, d: nat)
      requires TrigLaws(math)
      ensures RelativeTerms(x, x, 0)(d) == PairTerms(x, x)(d)
    {
      hide TrigLaws, Rotation.Angle, Rotation.Half, Mul, Rotation.RelativePair;
      AngleIsLinear(0, 0, d);
      Unturned(At(x, d), At(x, d + Half()));
    }

    lemma Unturned(x0: real, x1: real)
      requires TrigLaws(math)
      ensures RelativePair(x0, x1, x0, x1, 0.0) == Mul(x0, x0) + Mul(x1, x1)
    {
      NoTurn();
      hide TrigLaws;
    }

    lemma NoTurn()
      requires TrigLaws(math)
      ensures math.cos(0.0) == 1.0 && math.sin(0.0) == 0.0
    {
      assert AngleDifference(math, 0.0, 0.0);
    }

    // ---- When a different angle scale makes no difference ----

    predicate SameAngles(other: Rotation, pos: int) {
      forall d :: 0 <= d < Half() ==>
        && math.cos(Angle(pos, d)) == math.cos(other.Angle(pos, d))
        && math.sin(Angle(pos, d)) == math.sin(other.Angle(pos, d))
    }

    ghost predicate SameTurn(other: Rotation, pos: int) {
      forall x: Vec :: |x| == headDim ==> Rotate(x, pos) == other.Rotate(x, pos)
    }

    /** 1 at d, 0 elsewhere. */
    function Unit(d: nat): (x: Vec)
      ensures |x| == headDim
    {
      seq(headDim, i => if i == d then 1.0 else 0.0)
    }

    /** The CPU rotates by scaled angles and the GPU by unscaled ones. At a position the two agree on every
        head exactly when every pair's angle has the same sine and cosine either way. */
    lemma ScaleMatters(other: Rotation, pos: int)
      requires Ok() && other == this.(scale := other.scale)
      ensures SameTurn(other, pos) <==> SameAngles(other, pos)
    {
      hide Rotation.Angle, Rotation.Half, Rotation.Rotate;
      if SameAngles(other, pos) {
        forall x: Vec | |x| == headDim
          ensures Rotate(x, pos) == other.Rotate(x, pos)
        {
          HeadSame(other, x, pos);
        }
      }
      if SameTurn(other, pos) {
        forall d | 0 <= d < Half()
          ensures math.cos(Angle(pos, d)) == math.cos(other.Angle(pos, d))
          ensures math.sin(Angle(pos, d)) == math.sin(other.Angle(pos, d))
        {
          SameHalf(other);
          UnitTurned(pos, d);
          other.UnitTurned(pos, d);
          assert Unit(d) == other.Unit(d);
        }
      }
    }

    lemma HeadSame(other: Rotation, x: Vec, pos: int)
      requires other == this.(scale := other.scale) && SameAngles(other, pos) && |x| == headDim
      ensures Rotate(x, pos) == other.Rotate(x, pos)
    {
      hide Rotation.Cell, Rotation.SameAngles;
      forall i | 0 <= i < headDim
        ensures Rotate(x, pos)[i] == other.Rotate(x, pos)[i]
      {
        CellSame(other, x, pos, i);
      }
    }

    lemma CellSame(other: Rotation, x: Vec, pos: int, i: nat)
      requires other == this.(scale := other.scale) && SameAngles(other, pos) && i < headDim
      ensures Cell(x, pos, i) == other.Cell(x, pos, i)
    {
      hide Rotation.Angle, Rotation.Half;
      assert other.Half() == Half() by { SameHalf(other); }
    }

    lemma SameHalf(other: Rotation)
      requires other == this.(scale := other.scale)
      ensures other.Half() == Half()
    {}

    lemma UnitTurned(pos: int, d: nat)
      requires Ok() && d < Half()
      ensures d + Half() < headDim
      ensures Rotate(Unit(d), pos)[d] == math.cos(Angle(pos, d))
      ensures Rotate(Unit(d), pos)[d + Half()] == math.sin(Angle(pos, d))
    {
      hide Rotation.Angle;
      RoomForPair(d);
    }

    // ---- The in-place code ----

    /** (sin, cos) of every pair's angle. */
    function Table(pos: nat): (t: seq<(real, real)>)
      ensures |t| == Half()
    {
      seq(Half(), d => (math.sin(Angle(pos, d)), math.cos(Angle(pos, d))))
    }

    /** Rotates the head that starts at `start`, pair by pair. */
    method RotateHead(x: array<real>, start: nat, pos: nat, table: seq<(real, real)>)
      requires Ok() && table == Table(pos) && start + headDim <= x.Length
      modifies x
      ensures x[..] == Patched(old(x[..]), start, Rotate(old(x[start..start + headDim]), pos))
    {
      hide *;
      ghost var was, head := x[..], x[start..start + headDim];
      NoPairs(was, start, pos);
      for d := 0 to Half()
        invariant x[..] == Patched(was, start, Turned(head, pos, d))
      {
        RoomForPair(d);
        var half := Half();
        var (sin, cos) := table[d];
        ghost var before := x[..];
        var x0, x1 := x[start + d], x[start + d + half];
        x[start + d] := x0 * cos - x1 * sin;
        x[start + d + half] := x0 * sin + x1 * cos;
        assert x[..] == before[start + d := x0 * cos - x1 * sin][start + d + half := x0 * sin + x1 * cos];
        OnePairMore(was, head, start, pos, d, before, x0, x1, sin, cos);
      }
      AllPairs(head, pos);
    }

    /** The head with its first d pairs rotated. */
    function Turned(head: Vec, pos: int, d: nat): (t: Vec)
      ensures |t| == |head|
    {
      seq(|head|, i requires 0 <= i < |head| =>
        if i < d || Half() <= i < Half() + d then Cell(head, pos, i) else head[i])
    }

    lemma NoPairs(was: Vec, start: nat, pos: int)
      requires start + headDim <= |was|
      ensures was == Patched(was, start, Turned(was[start..start + headDim], pos, 0))
    {
      assert Turned(was[start..start + headDim], pos, 0) == was[start..start + headDim];
    }

    lemma AllPairs(head: Vec, pos: int)
      requires Ok() && |head| == headDim
      ensures Turned(head, pos, Half()) == Rotate(head, pos)
    {
      hide Rotation.Half, Rotation.First, Rotation.Second, Rotation.Angle;
    }

    lemma RoomForPair(d: nat)
      requires Ok() && d < Half()
      ensures d + Half() < headDim
    {}

    lemma OnePairMore(was: Vec, head: Vec, start: nat, pos: nat, d: nat, before: Vec,
                      x0: real, x1: real, sin: real, cos: real)
      requires Ok() && d < Half() && |head| == headDim && start + headDim <= |was| && start + d + Half() < |was|
      requires before == Patched(was, start, Turned(head, pos, d)) && (sin, cos) == Table(pos)[d]
      requires x0 == before[start + d] && x1 == before[start + d + Half()]
      ensures Patched(was, start, Turned(head, pos, d + 1))
        == before[start + d := x0 * cos - x1 * sin][start + d + Half() := x0 * sin + x1 * cos]
    {
      hide Rotation.Half, Rotation.Angle, Patched;
      var a, b, t := x0 * cos - x1 * sin, x0 * sin + x1 * cos, Turned(head, pos, d);
      PatchedUpdate(was, start, t, d, a);
      PatchedUpdate(was, start, t, d + Half(), b);
      PatchedUpdate(was, start, t[d := a], d + Half(), b);
      assert x0 == head[d] && x1 == head[d + Half()];
      assert Cell(head, pos, d) == a && Cell(head, pos, d + Half()) == b;
      assert Turned(head, pos, d + 1) == t[d := a][d + Half() := b];
    }

    /** Every head of x rotated in its own block. */
    method RotateHeads(x: array<real>, heads: nat, pos: nat, table: seq<(real, real)>)
      requires Ok() && table == Table(pos) && x.Length == heads * headDim
      modifies x
      ensures AllRotated(old(x[..]), x[..], heads, pos)
    {
      hide Rotation.Rotate, Block, Patched, Rotation.Ok, Rotation.Table;
      for h := 0 to heads
        invariant forall g :: 0 <= g < h ==> HeadRotated(old(x[..]), x[..], heads, pos, g)
        invariant forall g :: h <= g < heads ==> HeadKept(old(x[..]), x[..], heads, g)
      {
        RowEnd(h, heads, headDim);
        ghost var before := x[..];
        RotateHead(x, h * headDim, pos, table);
        OneHeadMore(old(x[..]), before, x[..], heads, pos, h);
      }
    }

    ghost predicate HeadRotated(was: Vec, now: Vec, heads: nat, pos: int, h: nat)
      requires h < heads && |was| == |now| == heads * headDim
    {
      RowEnd(h, heads, headDim);
      Block(now, headDim, h) == Rotate(Block(was, headDim, h), pos)
    }

    ghost predicate AllRotated(was: Vec, now: Vec, heads: nat, pos: int)
      requires |was| == |now| == heads * headDim
    {
      forall h :: 0 <= h < heads ==> HeadRotated(was, now, heads, pos, h)
    }

    ghost predicate HeadKept(was: Vec, now: Vec, heads: nat, h: nat)
      requires h < heads && |was| == |now| == heads * headDim
    {
      RowEnd(h, heads, headDim);
      Block(now, headDim, h) == Block(was, headDim, h)
    }

    lemma OneHeadMore(was: Vec, before: Vec, after: Vec, heads: nat, pos: int, h: nat)
      requires h < heads && |was| == |before| == |after| == heads * headDim
      requires 0 <= h * headDim && h * headDim + headDim <= |before|
      requires after == Patched(before, h * headDim, Rotate(before[h * headDim..h * headDim + headDim], pos))
      requires forall g :: 0 <= g < h ==> HeadRotated(was, before, heads, pos, g)
      requires forall g :: h <= g < heads ==> HeadKept(was, before, heads, g)
      ensures forall g :: 0 <= g <= h ==> HeadRotated(was, after, heads, pos, g)
      ensures forall g :: h < g < heads ==> HeadKept(was, after, heads, g)
    {
      hide Rotation.Rotate, Patched;
      forall g | 0 <= g < heads
        ensures g <= h ==> HeadRotated(was, after, heads, pos, g)
        ensures h < g ==> HeadKept(was, after, heads, g)
      {
        RowEnd(g, heads, headDim);
        assert g < h ==> HeadRotated(was, before, heads, pos, g);
        assert g >= h ==> HeadKept(was, before, heads, g);
        PatchedBlocks(before, headDim, h, Rotate(before[h * headDim..h * headDim + headDim], pos), g);
      }
    }
  }

  lemma RotationAlgebra(q0: real, q1: real, k0: real, k1: real, s1: real, c1: real, s2: real, c2: real)
    ensures (q0 * c1 - q1 * s1) * (k0 * c2 - k1 * s2) + (q0 * s1 + q1 * c1) * (k0 * s2 + k1 * c2)
      == (q0 * k0 + q1 * k1) * (c1 * c2 + s1 * s2) + (q0 * k1 - q1 * k0) * (s1 * c2 - c1 * s2)
  {}

  /** sin and cos of every pair's angle, computed once and shared by all heads. */
  method SineTable(math: Math, rotated: nat, theta: real, scale: real, pos: nat, ghost rot: Rotation)
      returns (table: seq<(real, real)>)
    requires rot.math == math && rot.rotated == rotated && rot.theta == theta && rot.scale == scale
    ensures table == rot.Table(pos)
  {
    hide Div, Mul, Rotation.Angle;
    table := [];
    for d := 0 to rotated / 2
      invariant table == rot.Table(pos)[..d]
    {
      rot.AngleIs(pos, d);
      var freq := Div(Mul(pos as real, scale), math.pow(theta, Div(2.0 * (d as real), rotated as real)));
      table := table + [(math.sin(freq), math.cos(freq))];
    }
  }

  /** `rope`: all dimensions of every query and key head. */
  method Rope(math: Math, headDim: nat, theta: real, scale: real, q: array<real>, k: array<real>,
              heads: nat, kvHeads: nat, pos: nat)
    requires q != k && q.Length == heads * headDim && k.Length == kvHeads * headDim
    modifies q, k
    ensures var full := Rotation(math, headDim, headDim, theta, scale);
      full.AllRotated(old(q[..]), q[..], heads, pos) && full.AllRotated(old(k[..]), k[..], kvHeads, pos)
  {
    var full := Rotation(math, headDim, headDim, theta, scale);
    assert full.Ok();
    hide *;
    var table := SineTable(math, headDim, theta, scale, pos, full);
    full.RotateHeads(q, heads, pos, table);
    full.RotateHeads(k, kvHeads, pos, table);
  }

  /** `rope_partial`: the first nRot dimensions of every head. */
  method RopePartial(math: Math, headDim: nat, nRot: nat, theta: real, scale: real, q: array<real>, k: array<real>,
                     heads: nat, kvHeads: nat, pos: nat)
    requires nRot <= headDim && q != k && q.Length == heads * headDim && k.Length == kvHeads * headDim
    modifies q, k
    ensures var partial := Rotation(math, headDim, nRot, theta, scale);
      partial.AllRotated(old(q[..]), q[..], heads, pos) && partial.AllRotated(old(k[..]), k[..], kvHeads, pos)
  {
    var partial := Rotation(math, headDim, nRot, theta, scale);
    assert partial.Ok();
    hide *;
    var table := SineTable(math, nRot, theta, scale, pos, partial);
    partial.RotateHeads(q, heads, pos, table);
    partial.RotateHeads(k, kvHeads, pos, table);
  }
}
