/** Dot products of real vectors, and cosine comparisons stated on squares. */
module Vectors {
  function Dot(u: seq<real>, v: seq<real>): real
    requires |u| == |v|
  {
    if u == [] then 0.0
    else Dot(u[..|u| - 1], v[..|u| - 1]) + u[|u| - 1] * v[|u| - 1]
  }

  function NormSq(u: seq<real>): real {
    Dot(u, u)
  }

  function Total(u: seq<real>): real {
    if u == [] then 0.0 else Total(u[..|u| - 1]) + u[|u| - 1]
  }

  function Difference(u: seq<real>, v: seq<real>): seq<real>
    requires |u| == |v|
  {
    seq(|u|, i requires 0 <= i < |u| => u[i] - v[i])
  }

  function Times(c: real, x: real): real {
    c * x
  }

  function Scale(c: real, u: seq<real>): seq<real> {
    seq(|u|, i requires 0 <= i < |u| => Times(c, u[i]))
  }

  /** `dot / sqrt(a * b) > t` for non-negative `t`, without the square root. */
  predicate RatioAbove(dot: real, a: real, b: real, t: real) {
    dot > 0.0 && dot * dot > t * t * (a * b)
  }

  /** cos(u, v) > threshold, for a non-negative threshold. */
  predicate CloserThan(u: seq<real>, v: seq<real>, threshold: real)
    requires |u| == |v|
  {
    RatioAbove(Dot(u, v), NormSq(u), NormSq(v), threshold)
  }

  lemma {:induction false} NormSqOfUpdate(u: seq<real>, i: nat, x: real)
    requires i < |u|
    ensures NormSq(u[i := x]) == NormSq(u) - u[i] * u[i] + x * x
    ensures Total(u[i := x]) == Total(u) - u[i] + x
  {
    var n := |u| - 1;
    if i < n {
      assert u[i := x][..n] == u[..n][i := x];
      NormSqOfUpdate(u[..n], i, x);
    } else {
      assert u[i := x][..n] == u[..n];
    }
  }

  lemma {:induction false} DotFromNorms(u: seq<real>, v: seq<real>)
    requires |u| == |v|
    ensures 2.0 * Dot(u, v) == NormSq(u) + NormSq(v) - NormSq(Difference(u, v))
  {
    if u != [] {
      var n := |u| - 1;
      assert Difference(u, v)[..n] == Difference(u[..n], v[..n]);
      DotFromNorms(u[..n], v[..n]);
    }
  }

  lemma {:induction false} DotOfScaled(c: real, u: seq<real>, v: seq<real>)
    requires |u| == |v|
    ensures Dot(Scale(c, u), v) == c * Dot(u, v)
    ensures Dot(v, Scale(c, u)) == c * Dot(v, u)
  {
    if u != [] {
      var n := |u| - 1;
      assert Scale(c, u)[..n] == Scale(c, u[..n]);
      DotOfScaled(c, u[..n], v[..n]);
      Distribute(c, Dot(u[..n], v[..n]), u[n], v[n]);
      Distribute(c, Dot(v[..n], u[..n]), u[n], v[n]);
    }
  }

  lemma Distribute(c: real, d: real, x: real, y: real)
    ensures c * d + (c * x) * y == c * (d + x * y)
    ensures c * d + y * (c * x) == c * (d + y * x)
  {}

  /** The comparison ignores positive rescaling: dividing a vector by its norm changes nothing. */
  lemma RescalingKeepsCloseness(c: real, u: seq<real>, v: seq<real>, threshold: real)
    requires |u| == |v| && c > 0.0
    ensures CloserThan(Scale(c, u), v, threshold) <==> CloserThan(u, v, threshold)
  {
    DotOfScaled(c, u, v);
    DotOfScaled(c, u, Scale(c, u));
    DotOfScaled(c, u, u);
    var w := Scale(c, u);
    var k := ProductOf(c, c);
    Regroup(c, k, NormSq(u));
    SquareOfProduct(c, k, Dot(u, v));
    SignOfProduct(c, Dot(u, v));
    ScaledComparison(k, Dot(u, v), NormSq(u), NormSq(v), threshold, Dot(w, v), NormSq(w));
  }

  lemma {:induction false} DotCommutes(u: seq<real>, v: seq<real>)
    requires |u| == |v|
    ensures Dot(u, v) == Dot(v, u)
  {
    if u != [] { DotCommutes(u[..|u| - 1], v[..|v| - 1]); }
  }

  lemma SwapNorms(d: real, a: real, b: real, t: real)
    ensures RatioAbove(d, a, b, t) <==> RatioAbove(d, b, a, t)
  {
    assert a * b == b * a;
  }

  lemma ClosenessIsSymmetric(u: seq<real>, v: seq<real>, threshold: real)
    requires |u| == |v|
    ensures CloserThan(u, v, threshold) <==> CloserThan(v, u, threshold)
  {
    DotCommutes(u, v);
    SwapNorms(Dot(u, v), NormSq(u), NormSq(v), threshold);
  }

  /** Both sides may be divided by their own norms. */
  lemma RescalingBothKeepsCloseness(c: real, u: seq<real>, d: real, v: seq<real>, threshold: real)
    requires |u| == |v| && c > 0.0 && d > 0.0
    ensures CloserThan(Scale(c, u), Scale(d, v), threshold) <==> CloserThan(u, v, threshold)
  {
    hide CloserThan;
    RescalingKeepsCloseness(c, u, Scale(d, v), threshold);
    ClosenessIsSymmetric(u, Scale(d, v), threshold);
    RescalingKeepsCloseness(d, v, u, threshold);
    ClosenessIsSymmetric(v, u, threshold);
  }

  /** Scaling by the inverse of the norm gives a unit vector. */
  lemma UnitNorm(u: seq<real>, norm: real)
    requires norm > 0.0 && norm * norm == NormSq(u)
    ensures NormSq(Scale(1.0 / norm, u)) == 1.0
  {
    var c := 1.0 / norm;
    DotOfScaled(c, u, Scale(c, u));
    DotOfScaled(c, u, u);
    InverseSquare(c, norm, NormSq(u));
  }

  lemma InverseSquare(c: real, norm: real, square: real)
    requires norm > 0.0 && c == 1.0 / norm && square == norm * norm
    ensures c * (c * square) == 1.0
  {
    assert c * norm == 1.0;
    assert c * (c * square) == (c * norm) * (c * norm);
  }

  lemma ProductOf(c: real, d: real) returns (k: real)
    requires c > 0.0 && d > 0.0
    ensures k == c * d && k > 0.0
  {
    k := c * d;
  }

  lemma Regroup(c: real, k: real, a: real)
    requires k == c * c
    ensures c * (c * a) == k * a
  {}

  lemma SquareOfProduct(c: real, k: real, d: real)
    requires k == c * c
    ensures (c * d) * (c * d) == k * (d * d)
  {
    assert (c * d) * (c * d) == (c * c) * (d * d);
  }

  lemma ScaledComparison(k: real, d: real, a: real, b: real, t: real, scaledDot: real, scaledNorm: real)
    requires k > 0.0 && (scaledDot > 0.0 <==> d > 0.0)
    requires scaledDot * scaledDot == k * (d * d) && scaledNorm == k * a
    ensures RatioAbove(scaledDot, scaledNorm, b, t) <==> RatioAbove(d, a, b, t)
  {
    var x := d * d - t * t * (a * b);
    assert scaledNorm * b == k * (a * b);
    PullOut(t * t, k, a * b);
    assert scaledDot * scaledDot - t * t * (scaledNorm * b) == k * x;
    SignOfProduct(k, x);
  }

  lemma PullOut(x: real, k: real, y: real)
    ensures x * (k * y) == k * (x * y)
  {}

  lemma SignOfProduct(k: real, x: real)
    requires k > 0.0
    ensures k * x > 0.0 <==> x > 0.0
  {
    if x <= 0.0 { Monotone(k, x, 0.0); }
  }

  /** Two vectors whose squared norms are at least n and whose distance squared is at most 2m < 2n
      have cosine at least 1 - m/n; the statement is on squares. */
  lemma CosineFromDistance(a: real, b: real, p: real, dist: real, n: real, m: real)
    requires a >= n && b >= n && n > m >= 0.0
    requires 0.0 <= dist <= 2.0 * m && 2.0 * p == a + b - dist
    ensures p > 0.0
    ensures (n * p) * (n * p) >= ((n - m) * (n - m)) * (a * b)
  {
    var s, w := (a + b) / 2.0, n - m;
    assert p >= s - m;
    MeanTimesWeight(s, n, m, p);
    Monotone(w, 0.0, s);
    Squared(s * w, n * p);
    ProductBelowMeanSquare(a, b);
    Monotone(w * w, a * b, s * s);
    assert (s * w) * (s * w) == (w * w) * (s * s);
  }

  lemma MeanTimesWeight(s: real, n: real, m: real, p: real)
    requires s >= n > m >= 0.0 && p >= s - m
    ensures s * (n - m) <= n * p
  {
    Monotone(n, s - m, p);
    Monotone(m, n, s);
    assert n * (s - m) == n * s - m * n;
    assert s * (n - m) == n * s - m * s;
  }

  lemma ProductBelowMeanSquare(a: real, b: real)
    ensures a * b <= ((a + b) / 2.0) * ((a + b) / 2.0)
  {
    var h := (a - b) / 2.0;
    assert ((a + b) / 2.0) * ((a + b) / 2.0) - a * b == h * h;
    SquareNonNegative(h);
  }

  lemma SquareNonNegative(x: real)
    ensures x * x >= 0.0
  {
    if x >= 0.0 { Monotone(x, 0.0, x); } else { Monotone(-x, 0.0, -x); }
  }

  lemma Monotone(k: real, x: real, y: real)
    requires k >= 0.0 && x <= y
    ensures k * x <= k * y
  {}

  lemma Squared(x: real, y: real)
    requires 0.0 <= x <= y
    ensures x * x <= y * y
  {
    Monotone(x, x, y);
    Monotone(y, x, y);
  }
}
