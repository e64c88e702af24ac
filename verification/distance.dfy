/** The normalized Euclidean distance between two landmark positions, in
    normalized [0,1] units so that thresholds do not depend on resolution.
    The square root itself is not computed: a distance is any d >= 0 whose
    square is the squared distance, and comparisons are made on squares. */
module Distance {

  /** c squared. */
  function Square(c: real): real
  {
    c * c
  }

  /** A square is never negative and is zero only at zero. */
  lemma SquareSign(c: real)
    ensures Square(c) >= 0.0
    ensures Square(c) == 0.0 <==> c == 0.0
  {
    // The solver's nonlinear arithmetic does not settle the sign of c * c
    // when c stands for a compound term; it does for a product of two
    // different terms, so c is multiplied by Same(c).
    var s := Same(c);
    assert Square(c) == c * s;
    if c > 0.0 {
      ProductPositive(c, s);
    } else if c < 0.0 {
      ProductPositive(-c, -s);
      assert (-c) * (-s) == c * s;
    }
  }

  /** c itself, as a term the solver does not identify with c. */
  function Same(c: real): real
  {
    c
  }

  /** dx*dx + dy*dy, the radicand of computeNormalizedDistance: never
      negative, and zero exactly for a point and itself. */
  function SquaredDistance(x1: real, y1: real, x2: real, y2: real): (r: real)
    ensures r >= 0.0
    ensures r == 0.0 <==> x1 == x2 && y1 == y2
  {
    SquareSign(x1 - x2);
    SquareSign(y1 - y2);
    Square(x1 - x2) + Square(y1 - y2)
  }

  lemma ProductPositive(a: real, b: real)
    requires a > 0.0 && b > 0.0
    ensures a * b > 0.0
  {
  }

  /** d is what computeNormalizedDistance(x1, y1, x2, y2) returns, in exact
      arithmetic: the non-negative square root of the squared distance. */
  ghost predicate IsDistance(d: real, x1: real, y1: real, x2: real, y2: real)
  {
    d >= 0.0 && d * d == SquaredDistance(x1, y1, x2, y2)
  }

  /** For non-negative reals, comparing values and comparing their squares agree. */
  lemma CompareThroughSquares(d: real, t: real)
    requires d >= 0.0 && t >= 0.0
    ensures d <= t <==> d * d <= t * t
    ensures d == t <==> d * d == t * t
  {
    if d < t {
      assert t * t - d * d == (t - d) * (t + d);
      ProductPositive(t - d, t + d);
    } else if d > t {
      assert d * d - t * t == (d - t) * (d + t);
      ProductPositive(d - t, d + t);
    }
  }

  /** A distance below, at or above a threshold is exactly a squared distance
      below, at or above the threshold's square. */
  lemma ThresholdBySquares(d: real, x1: real, y1: real, x2: real, y2: real, threshold: real)
    requires IsDistance(d, x1, y1, x2, y2) && threshold >= 0.0
    ensures d <= threshold <==> SquaredDistance(x1, y1, x2, y2) <= threshold * threshold
  {
    CompareThroughSquares(d, threshold);
  }

  /** The distance is determined by the two points. */
  lemma DistanceUnique(d: real, e: real, x1: real, y1: real, x2: real, y2: real)
    requires IsDistance(d, x1, y1, x2, y2) && IsDistance(e, x1, y1, x2, y2)
    ensures d == e
  {
    CompareThroughSquares(d, e);
  }

  /** The distance is zero for a point and itself and strictly positive between
      distinct points. */
  lemma DistanceZeroIffSame(d: real, x1: real, y1: real, x2: real, y2: real)
    requires IsDistance(d, x1, y1, x2, y2)
    ensures d == 0.0 <==> x1 == x2 && y1 == y2
    ensures d > 0.0 <==> x1 != x2 || y1 != y2
  {
    CompareThroughSquares(d, 0.0);
  }

  /** The distance is symmetric. */
  lemma DistanceSymmetric(d: real, x1: real, y1: real, x2: real, y2: real)
    requires IsDistance(d, x1, y1, x2, y2)
    ensures IsDistance(d, x2, y2, x1, y1)
  {
    var dx, dy := x1 - x2, y1 - y2;
    assert (x2 - x1) * (x2 - x1) == dx * dx;
    assert (y2 - y1) * (y2 - y1) == dy * dy;
  }

  /** Cauchy-Schwarz in the plane: the dot product of two vectors is at most the
      product of their lengths. */
  lemma DotAtMostLengths(u1: real, u2: real, v1: real, v2: real, lu: real, lv: real)
    requires lu >= 0.0 && lu * lu == u1 * u1 + u2 * u2
    requires lv >= 0.0 && lv * lv == v1 * v1 + v2 * v2
    ensures u1 * v1 + u2 * v2 <= lu * lv
  {
    var dot := u1 * v1 + u2 * v2;
    var cross := u1 * v2 - u2 * v1;
    assert (u1 * u1 + u2 * u2) * (v1 * v1 + v2 * v2) == dot * dot + cross * cross;
    assert dot * dot <= (lu * lv) * (lu * lv) by {
      assert (lu * lv) * (lu * lv) == (lu * lu) * (lv * lv);
    }
    if dot > 0.0 {
      CompareThroughSquares(dot, lu * lv);
    }
  }

  /** The triangle inequality: going through a third point is never shorter. */
  lemma TriangleInequality(dab: real, dbc: real, dac: real,
                           px: real, py: real, qx: real, qy: real, rx: real, ry: real)
    requires IsDistance(dab, px, py, qx, qy)
    requires IsDistance(dbc, qx, qy, rx, ry)
    requires IsDistance(dac, px, py, rx, ry)
    ensures dac <= dab + dbc
  {
    var u1, u2 := px - qx, py - qy;
    var v1, v2 := qx - rx, qy - ry;
    DotAtMostLengths(u1, u2, v1, v2, dab, dbc);
    assert dac * dac == (u1 * u1 + u2 * u2) + 2.0 * (u1 * v1 + u2 * v2) + (v1 * v1 + v2 * v2) by {
      assert px - rx == u1 + v1 && py - ry == u2 + v2;
      assert (u1 + v1) * (u1 + v1) == u1 * u1 + 2.0 * (u1 * v1) + v1 * v1;
      assert (u2 + v2) * (u2 + v2) == u2 * u2 + 2.0 * (u2 * v2) + v2 * v2;
    }
    assert (dab + dbc) * (dab + dbc) == dab * dab + 2.0 * (dab * dbc) + dbc * dbc;
    CompareThroughSquares(dac, dab + dbc);
  }

  /** Mirroring the x of either point about the middle 0.5 gives the same
      distance: |x1 - (1 - x2)| == |(1 - x1) - x2|. */
  lemma MirrorEitherPoint(x1: real, y1: real, x2: real, y2: real)
    ensures SquaredDistance(x1, y1, 1.0 - x2, y2) == SquaredDistance(1.0 - x1, y1, x2, y2)
  {
    assert (x1 - (1.0 - x2)) * (x1 - (1.0 - x2)) == ((1.0 - x1) - x2) * ((1.0 - x1) - x2);
  }
}
