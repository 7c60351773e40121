/** Cosine similarity over the reals: the accumulation loop, its bounds, symmetry and scale invariance. */
module Cosine {
  import opened Reals

  type Vec = seq<real>

  /** math.Sqrt, which is not modelled: any function that squares back to its non-negative argument. */
  ghost predicate IsSqrt(sqrt: real -> real) {
    forall x :: x >= 0.0 ==> sqrt(x) >= 0.0 && sqrt(x) * sqrt(x) == x
  }

  function Dot(a: Vec, b: Vec): real
    requires |a| == |b|
  {
    if a == [] then 0.0
    else
      var n := |a| - 1;
      Dot(a[..n], b[..n]) + a[n] * b[n]
  }

  function Cos(a: Vec, b: Vec, sqrt: real -> real): real {
    if |a| != |b| || |a| == 0 then 0.0
    else Quotient(Dot(a, b), Dot(a, a), Dot(b, b), sqrt(Dot(a, a)), sqrt(Dot(b, b)))
  }

  /** The last step, given the three sums and the two square roots. */
  function Quotient(dot: real, na: real, nb: real, ra: real, rb: real): real {
    if na == 0.0 || nb == 0.0 then 0.0
    else
      var denom := ra * rb;
      if denom == 0.0 then 0.0 else dot / denom
  }

  /** One pass accumulates all three sums. */
  method CosineLoop(a: Vec, b: Vec, sqrt: real -> real) returns (r: real)
    ensures r == Cos(a, b, sqrt)
  {
    if |a| != |b| || |a| == 0 {
      return 0.0;
    }
    var dot, na, nb := 0.0, 0.0, 0.0;
    for i := 0 to |a|
      invariant dot == Dot(a[..i], b[..i]) && na == Dot(a[..i], a[..i]) && nb == Dot(b[..i], b[..i])
    {
      assert a[..i + 1][..i] == a[..i] && b[..i + 1][..i] == b[..i];
      dot := dot + a[i] * b[i];
      na := na + a[i] * a[i];
      nb := nb + b[i] * b[i];
    }
    assert a[..|a|] == a && b[..|b|] == b;
    if na == 0.0 || nb == 0.0 {
      return 0.0;
    }
    var denom := sqrt(na) * sqrt(nb);
    if denom == 0.0 {
      return 0.0;
    }
    r := dot / denom;
  }

  // ----- Cauchy-Schwarz -----

  lemma {:induction false} NormNonNegative(a: Vec)
    ensures Dot(a, a) >= 0.0
  {
    if a != [] {
      NormNonNegative(a[..|a| - 1]);
      SquareNonNegative(a[|a| - 1]);
    }
  }

  /** Twice the geometric mean is at most the sum. */
  lemma MeanBound(r: real, p: real, q: real)
    requires p >= 0.0 && q >= 0.0 && r * r <= p * q
    ensures 2.0 * r <= p + q
  {
    SquareNonNegative(p - q);
    assert (p - q) * (p - q) == p * p - 2.0 * (p * q) + q * q;
    assert (p + q) * (p + q) == p * p + 2.0 * (p * q) + q * q;
    assert (2.0 * r) * (2.0 * r) == 4.0 * (r * r);
    SquaresOrder(2.0 * r, p + q);
  }

  /** One more coordinate keeps the inequality. */
  lemma CauchyStep(d: real, a: real, b: real, x: real, y: real)
    requires a >= 0.0 && b >= 0.0 && d * d <= a * b
    ensures (d + x * y) * (d + x * y) <= (a + x * x) * (b + y * y)
  {
    var xx, yy, xy := x * x, y * y, x * y;
    SquareNonNegative(x);
    SquareNonNegative(y);
    SquareNonNegative(xy);
    var p, q, r := a * yy, b * xx, d * xy;
    assert xy * xy == xx * yy;
    ProductOrder(d * d, a * b, xy * xy);
    assert r * r == (d * d) * (xy * xy);
    assert p * q == (a * b) * (xx * yy);
    MeanBound(r, p, q);
    assert (d + xy) * (d + xy) == d * d + 2.0 * r + xy * xy;
    assert (a + xx) * (b + yy) == a * b + p + q + xx * yy;
  }

  lemma DotLast(a: Vec, b: Vec)
    requires |a| == |b| > 0
    ensures Dot(a, b) == Dot(a[..|a| - 1], b[..|a| - 1]) + a[|a| - 1] * b[|a| - 1]
  {
  }

  lemma {:induction false} CauchySchwarz(a: Vec, b: Vec)
    requires |a| == |b|
    ensures Dot(a, b) * Dot(a, b) <= Dot(a, a) * Dot(b, b)
  {
    if a != [] {
      var n := |a| - 1;
      DotLast(a, b);
      DotLast(a, a);
      DotLast(b, b);
      hide Dot;
      CauchySchwarz(a[..n], b[..n]);
      NormNonNegative(a[..n]);
      NormNonNegative(b[..n]);
      CauchyStep(Dot(a[..n], b[..n]), Dot(a[..n], a[..n]), Dot(b[..n], b[..n]), a[n], b[n]);
    }
  }

  // ----- What the score means -----

  lemma RootProduct(s: real, t: real)
    ensures (s * t) * (s * t) == (s * s) * (t * t)
  {
  }

  lemma DivideWithin(x: real, d: real)
    requires d > 0.0 && -d <= x <= d
    ensures -1.0 <= x / d <= 1.0
  {
  }

  /** The score lies in [-1, 1] for every pair of vectors. */
  lemma CosBounded(a: Vec, b: Vec, sqrt: real -> real)
    requires IsSqrt(sqrt)
    ensures -1.0 <= Cos(a, b, sqrt) <= 1.0
  {
    if |a| == |b| {
      NormNonNegative(a);
      NormNonNegative(b);
      CauchySchwarz(a, b);
      var dot, denom := Dot(a, b), sqrt(Dot(a, a)) * sqrt(Dot(b, b));
      RootProduct(sqrt(Dot(a, a)), sqrt(Dot(b, b)));
      assert dot * dot <= denom * denom;
      if denom != 0.0 {
        assert denom > 0.0;
        SquaresOrder(dot, denom);
        assert (-dot) * (-dot) == dot * dot;
        SquaresOrder(-dot, denom);
        DivideWithin(dot, denom);
      }
    }
  }

  lemma {:induction false} DotSymmetric(a: Vec, b: Vec)
    requires |a| == |b|
    ensures Dot(a, b) == Dot(b, a)
  {
    if a != [] {
      DotSymmetric(a[..|a| - 1], b[..|b| - 1]);
    }
  }

  lemma CosSymmetric(a: Vec, b: Vec, sqrt: real -> real)
    ensures Cos(a, b, sqrt) == Cos(b, a, sqrt)
  {
    if |a| == |b| {
      DotSymmetric(a, b);
    }
  }

  function Scale(a: Vec, k: real): Vec {
    seq(|a|, i requires 0 <= i < |a| => k * a[i])
  }

  lemma ScaleLength(a: Vec, k: real)
    ensures |Scale(a, k)| == |a|
  {
  }

  lemma ScalePrefix(a: Vec, k: real, n: nat)
    requires n <= |a|
    ensures Scale(a, k)[..n] == Scale(a[..n], k)
  {
    var whole, part := Scale(a, k), Scale(a[..n], k);
    assert |part| == n && |whole| == |a|;
    assert forall i :: 0 <= i < n ==> whole[i] == k * a[i] && part[i] == k * a[i];
    assert whole[..n] == part;
  }

  lemma {:induction false} DotScales(a: Vec, b: Vec, k: real)
    requires |a| == |b|
    ensures Dot(Scale(a, k), b) == k * Dot(a, b)
  {
    if a != [] {
      var n := |a| - 1;
      DotScales(a[..n], b[..n], k);
      ScalePrefix(a, k, n);
      FactorOut(k, Dot(a[..n], b[..n]), a[n], b[n]);
    }
  }

  lemma NormScales(a: Vec, k: real)
    ensures Dot(Scale(a, k), Scale(a, k)) == k * (k * Dot(a, a))
  {
    DotScales(a, Scale(a, k), k);
    DotSymmetric(a, Scale(a, k));
    DotScales(a, a, k);
  }

  lemma FactorOut(k: real, d: real, x: real, y: real)
    ensures k * d + (k * x) * y == k * (d + x * y)
  {
    assert (k * x) * y == k * (x * y);
  }

  lemma RootScales(sqrt: real -> real, n: real, k: real)
    requires IsSqrt(sqrt) && n >= 0.0 && k > 0.0
    ensures sqrt(k * (k * n)) == k * sqrt(n)
  {
    ProductOrder(0.0, n, k);
    ProductOrder(0.0, k * n, k);
    ProductOrder(0.0, sqrt(n), k);
    var r, s := sqrt(n), sqrt(k * (k * n));
    var t := k * r;
    RootProduct(k, r);
    assert t * t == k * (k * n) == s * s;
    SquaresOrder(s, t);
    SquaresOrder(t, s);
  }

  lemma CancelFactor(k: real, x: real, d: real)
    requires k > 0.0
    ensures k * d == 0.0 <==> d == 0.0
    ensures d != 0.0 ==> (k * x) / (k * d) == x / d
  {
    if d > 0.0 {
      StrictProduct(0.0, k, d);
    } else if d < 0.0 {
      StrictProduct(0.0, k, -d);
    }
    if d != 0.0 {
      var q := x / d;
      Associate(k, q, d);
      Associate(q, k, d);
      assert k * x == q * (k * d);
    }
  }

  lemma QuotientScales(dot: real, na: real, nb: real, ra: real, rb: real, k: real,
                       dot': real, na': real, ra': real)
    requires k > 0.0 && dot' == k * dot && na' == k * (k * na) && ra' == k * ra
    ensures Quotient(dot', na', nb, ra', rb) == Quotient(dot, na, nb, ra, rb)
  {
    CancelFactor(k, 0.0, na);
    CancelFactor(k, 0.0, k * na);
    var denom := ra * rb;
    Associate(k, ra, rb);
    assert (k * ra) * rb == k * denom;
    CancelFactor(k, dot, denom);
  }

  lemma CosFromSums(a: Vec, b: Vec, sqrt: real -> real, dot: real, na: real, nb: real)
    requires |a| == |b| > 0 && dot == Dot(a, b) && na == Dot(a, a) && nb == Dot(b, b)
    ensures Cos(a, b, sqrt) == Quotient(dot, na, nb, sqrt(na), sqrt(nb))
  {
    hide Dot, Quotient;
  }

  /** Stretching the query or the entry by any positive factor leaves the score alone. */
  lemma CosScaleInvariant(a: Vec, b: Vec, k: real, sqrt: real -> real)
    requires IsSqrt(sqrt) && k > 0.0
    ensures Cos(Scale(a, k), b, sqrt) == Cos(a, b, sqrt)
  {
    hide IsSqrt, Dot, Quotient, Scale;
    ScaleLength(a, k);
    if |a| == |b| && |a| > 0 {
      var dot, na, nb := Dot(a, b), Dot(a, a), Dot(b, b);
      NormNonNegative(a);
      RootScales(sqrt, na, k);
      DotScales(a, b, k);
      NormScales(a, k);
      hide Cos;
      CosFromSums(a, b, sqrt, dot, na, nb);
      var dot', na', root := k * dot, k * (k * na), sqrt(k * (k * na));
      CosFromSums(Scale(a, k), b, sqrt, dot', na', nb);
      QuotientScales(dot, na, nb, sqrt(na), sqrt(nb), k, dot', na', root);
    }
  }

  // ----- Which way the score points -----

  /** The sum of products, coordinate by coordinate. */
  lemma DotMeans(a: Vec, b: Vec, x: real, y: real)
    requires |a| == |b|
    ensures Dot([], []) == 0.0 && Dot(a + [x], b + [y]) == Dot(a, b) + x * y
  {
    assert (a + [x])[..|a|] == a && (b + [y])[..|b|] == b;
  }

  /** The score times the two norms is the sum of products. */
  lemma CosMeans(a: Vec, b: Vec, sqrt: real -> real)
    requires IsSqrt(sqrt)
    ensures |a| != |b| ==> Cos(a, b, sqrt) == 0.0
    ensures |a| == |b| ==> Cos(a, b, sqrt) * (sqrt(Dot(a, a)) * sqrt(Dot(b, b))) == Dot(a, b)
  {
    CosNothing(a, b, sqrt);
    if |a| == |b| > 0 {
      hide Dot, Cos, Quotient, IsSqrt;
      CosFromSums(a, b, sqrt, Dot(a, b), Dot(a, a), Dot(b, b));
      QuotientOfSums(a, b, sqrt);
    }
  }

  lemma QuotientOfSums(a: Vec, b: Vec, sqrt: real -> real)
    requires IsSqrt(sqrt) && |a| == |b|
    ensures
      var ra, rb := sqrt(Dot(a, a)), sqrt(Dot(b, b));
      Quotient(Dot(a, b), Dot(a, a), Dot(b, b), ra, rb) * (ra * rb) == Dot(a, b)
  {
    hide Dot, Quotient, IsSqrt;
    NormNonNegative(a);
    NormNonNegative(b);
    CauchySchwarz(a, b);
    RootOf(sqrt, Dot(a, a));
    RootOf(sqrt, Dot(b, b));
    QuotientMeans(Dot(a, b), Dot(a, a), Dot(b, b), sqrt(Dot(a, a)), sqrt(Dot(b, b)));
  }

  lemma CosNothing(a: Vec, b: Vec, sqrt: real -> real)
    ensures |a| != |b| || |a| == 0 ==> Cos(a, b, sqrt) == 0.0
    ensures |a| == |b| == 0 ==> Dot(a, b) == 0.0
  {
  }

  lemma RootOf(sqrt: real -> real, n: real)
    requires IsSqrt(sqrt) && n >= 0.0
    ensures sqrt(n) >= 0.0 && sqrt(n) * sqrt(n) == n
  {
  }

  lemma QuotientMeans(dot: real, na: real, nb: real, ra: real, rb: real)
    requires ra * ra == na && rb * rb == nb && dot * dot <= na * nb
    ensures Quotient(dot, na, nb, ra, rb) * (ra * rb) == dot
  {
    RootProduct(ra, rb);
    var denom := ra * rb;
    assert dot * dot <= denom * denom;
    if denom == 0.0 {
      var minus := -dot;
      assert minus * minus == dot * dot;
      SquaresOrder(dot, denom);
      SquaresOrder(minus, denom);
    } else {
      assert ra != 0.0 && rb != 0.0;
      SquarePositive(ra, na);
      SquarePositive(rb, nb);
      assert (dot / denom) * denom == dot;
    }
  }

  /** Vectors correlate exactly when their sum of products is positive. */
  lemma CosPositiveIff(a: Vec, b: Vec, sqrt: real -> real)
    requires IsSqrt(sqrt) && |a| == |b|
    ensures Cos(a, b, sqrt) > 0.0 <==> Dot(a, b) > 0.0
    ensures Cos(a, b, sqrt) < 0.0 <==> Dot(a, b) < 0.0
  {
    CosMeans(a, b, sqrt);
    NormNonNegative(a);
    NormNonNegative(b);
    CauchySchwarz(a, b);
    var cos, denom, dot := Cos(a, b, sqrt), sqrt(Dot(a, a)) * sqrt(Dot(b, b)), Dot(a, b);
    ProductOrder(0.0, sqrt(Dot(a, a)), sqrt(Dot(b, b)));
    hide Dot, IsSqrt;
    if denom == 0.0 {
      RootProduct(sqrt(Dot(a, a)), sqrt(Dot(b, b)));
      assert Cos(a, b, sqrt) == 0.0;
    } else if cos > 0.0 {
      StrictProduct(0.0, cos, denom);
    } else if cos < 0.0 {
      StrictProduct(cos, 0.0, denom);
    }
  }

  ghost predicate NonZero(v: Vec) {
    exists i :: 0 <= i < |v| && v[i] != 0.0
  }

  lemma {:induction false} NormPositive(v: Vec)
    requires NonZero(v)
    ensures Dot(v, v) > 0.0
  {
    var n := |v| - 1;
    var x, rest, sq := v[n], Dot(v[..n], v[..n]), v[n] * v[n];
    DotLast(v, v);
    assert Dot(v, v) == rest + sq;
    hide Dot;
    NormNonNegative(v[..n]);
    if x != 0.0 {
      SquarePositive(x, sq);
    } else {
      var i :| 0 <= i < |v| && v[i] != 0.0;
      assert v[..n][i] != 0.0;
      NormPositive(v[..n]);
    }
  }

  lemma OneFactor(x: real, m: real, n: real)
    requires x * m == n && m == n && n > 0.0
    ensures x == 1.0
  {
    if x < 1.0 {
      StrictProduct(x, 1.0, n);
    } else if x > 1.0 {
      StrictProduct(1.0, x, n);
    }
  }

  /** Every vector but zero scores 1 against itself, and against every positive multiple of itself. */
  lemma CosOfMultiple(v: Vec, k: real, sqrt: real -> real)
    requires IsSqrt(sqrt) && NonZero(v) && k > 0.0
    ensures Cos(v, v, sqrt) == 1.0 && Cos(v, Scale(v, k), sqrt) == 1.0
  {
    hide Cos, Dot, IsSqrt, Scale, NonZero;
    NormPositive(v);
    CosMeans(v, v, sqrt);
    RootOf(sqrt, Dot(v, v));
    OneFactor(Cos(v, v, sqrt), sqrt(Dot(v, v)) * sqrt(Dot(v, v)), Dot(v, v));
    CosScaleInvariant(v, v, k, sqrt);
    CosSymmetric(v, Scale(v, k), sqrt);
  }
}
