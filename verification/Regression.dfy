/**
 The numeric reductions over a window of prices, oldest first: the sums the loops
 accumulate, and what the values built from them mean.
 */
module Regression {
  import opened Prelude

  function SumY(y: seq<real>, k: nat): real
    requires k <= |y|
  {
    if k == 0 then 0.0 else SumY(y, k - 1) + y[k - 1]
  }

  function SumXY(y: seq<real>, k: nat): real
    requires k <= |y|
  {
    if k == 0 then 0.0 else SumXY(y, k - 1) + (k - 1) as real * y[k - 1]
  }

  function SumX(k: nat): real {
    if k == 0 then 0.0 else SumX(k - 1) + (k - 1) as real
  }

  function SumXX(k: nat): real {
    if k == 0 then 0.0 else SumXX(k - 1) + (k - 1) as real * (k - 1) as real
  }

  function SumYY(y: seq<real>, k: nat): real
    requires k <= |y|
  {
    if k == 0 then 0.0 else SumYY(y, k - 1) + y[k - 1] * y[k - 1]
  }

  function Square(x: real): real {
    x * x
  }

  function SumSquares(y: seq<real>, mean: real, k: nat): real
    requires k <= |y|
  {
    if k == 0 then 0.0 else SumSquares(y, mean, k - 1) + Square(y[k - 1] - mean)
  }

  lemma {:induction false} SumSquaresNotNegative(y: seq<real>, mean: real, k: nat)
    requires k <= |y|
    ensures SumSquares(y, mean, k) >= 0.0
  {
    if k > 0 {
      SumSquaresNotNegative(y, mean, k - 1);
      SquareNotNegative(y[k - 1] - mean);
    }
  }

  lemma SquareNotNegative(x: real)
    ensures Square(x) >= 0.0
  {
  }

  /** What a loop that starts from the newest price has summed after i steps. */
  function SumOfNewest(y: seq<real>, i: nat): real
    requires i <= |y|
  {
    SumY(y, |y|) - SumY(y, |y| - i)
  }

  /** The squared deviations from the mean, price by price. */
  ghost predicate SquaresOf(y: seq<real>, mean: real, squares: seq<real>) {
    |squares| == |y| && forall j | 0 <= j < |y| :: squares[j] == Square(y[j] - mean)
  }

  lemma SquaresExist(y: seq<real>, mean: real)
    ensures exists squares :: SquaresOf(y, mean, squares)
  {
    var squares := seq(|y|, j requires 0 <= j < |y| => Square(y[j] - mean));
    assert SquaresOf(y, mean, squares);
  }

  lemma SquareAt(y: seq<real>, mean: real, squares: seq<real>, j: nat, d: real)
    requires SquaresOf(y, mean, squares) && j < |y| && d == y[j] - mean
    ensures squares[j] == Square(d)
  {
  }

  lemma {:induction false} SumOfSquares(y: seq<real>, mean: real, squares: seq<real>, k: nat)
    requires SquaresOf(y, mean, squares) && k <= |y|
    ensures SumY(squares, k) == SumSquares(y, mean, k)
  {
    if k > 0 {
      SumOfSquares(y, mean, squares, k - 1);
    }
  }

  lemma SumFromStart(y: seq<real>)
    ensures SumOfNewest(y, |y|) == SumY(y, |y|)
  {
  }

  lemma SumFromEnd(y: seq<real>, i: nat, v: real, sum: real)
    requires i < |y| && v == y[|y| - 1 - i] && sum == SumOfNewest(y, i)
    ensures sum + v == SumOfNewest(y, i + 1)
  {
  }

  function Mean(y: seq<real>): real
    requires |y| > 0
  {
    Average(SumY(y, |y|), |y|)
  }

  function Average(total: real, n: nat): real
    requires n > 0
  {
    total / n as real
  }

  lemma SumsStep(y: seq<real>, i: nat, x: real, v: real)
    requires i < |y| && x == i as real && v == y[i]
    ensures SumX(i + 1) == SumX(i) + x && SumXX(i + 1) == SumXX(i) + x * x
    ensures SumY(y, i + 1) == SumY(y, i) + v && SumXY(y, i + 1) == SumXY(y, i) + x * v
  {
  }

  function Numerator(y: seq<real>, n: nat): real
    requires n <= |y|
  {
    Cross(n as real, SumXY(y, n), SumX(n), SumY(y, n))
  }

  /** The difference n * xy - x * s the slope's numerator and denominator are both made of. */
  function Cross(n: real, xy: real, x: real, s: real): real {
    n * xy - x * s
  }

  function Denominator(n: nat): real {
    Cross(n as real, SumXX(n), SumX(n), SumX(n))
  }

  function SlopeOf(y: seq<real>): real
    requires Denominator(|y|) != 0.0
  {
    Numerator(y, |y|) / Denominator(|y|)
  }

  /** The index gap times the price gap of two entries. */
  function PairTerm(y: seq<real>, i: nat, m: nat): real
    requires i <= m < |y|
  {
    (m - i) as real * (y[m] - y[i])
  }

  /** Sum over the pairs (i, m) with i < k of the index gap times the price gap. */
  function Column(y: seq<real>, m: nat, k: nat): real
    requires k <= m < |y|
  {
    if k == 0 then 0.0 else Column(y, m, k - 1) + PairTerm(y, k - 1, m)
  }

  /** The sum over all pairs i < j < n of (j - i)(y[j] - y[i]). */
  function PairSum(y: seq<real>, n: nat): real
    requires n <= |y|
  {
    if n == 0 then 0.0 else PairSum(y, n - 1) + Column(y, n - 1, n - 1)
  }

  function Ramp(n: nat): seq<real> {
    seq(n, i => i as real)
  }

  lemma {:induction false} SumXClosed(k: nat)
    ensures SumX(k) == k as real * (k as real - 1.0) / 2.0
  {
    if k > 0 {
      SumXClosed(k - 1);
    }
  }

  lemma {:induction false} SumXXClosed(k: nat)
    ensures SumXX(k) == k as real * (k as real - 1.0) * (2.0 * k as real - 1.0) / 6.0
  {
    if k > 0 {
      SumXXClosed(k - 1);
      var x := k as real;
      assert (k - 1) as real == x - 1.0;
      assert (x - 1.0) * (x - 2.0) * (2.0 * x - 3.0) + 6.0 * (x - 1.0) * (x - 1.0) == x * (x - 1.0) * (2.0 * x - 1.0);
    }
  }

  /** The divisor of the slope: never zero once the window holds two prices. */
  lemma DenominatorClosed(n: nat)
    ensures Denominator(n) == n as real * n as real * (n as real * n as real - 1.0) / 12.0
    ensures n >= 2 <==> Denominator(n) > 0.0
    ensures n < 2 <==> Denominator(n) == 0.0
  {
    SumXClosed(n);
    SumXXClosed(n);
    var x := n as real;
    var half := x * (x - 1.0) / 2.0;
    assert x * (x * (x - 1.0) * (2.0 * x - 1.0) / 6.0) == x * x * (x - 1.0) * (2.0 * x - 1.0) / 6.0;
    assert half * half == x * x * (x - 1.0) * (x - 1.0) / 4.0;
    if n >= 2 {
      assert x * x >= 4.0;
      assert (x * x) * (x * x - 1.0) > 0.0;
    }
  }

  function ColumnForm(top: real, m: real, k: real, x: real, s: real, xy: real): real {
    top * (m * k - x) - m * s + xy
  }

  /** A column's closed form over the first k entries. */
  function ColumnAt(y: seq<real>, m: nat, k: nat): real
    requires k <= m < |y|
  {
    ColumnForm(y[m], m as real, k as real, SumX(k), SumY(y, k), SumXY(y, k))
  }

  lemma {:induction false} ColumnClosed(y: seq<real>, m: nat, k: nat)
    requires k <= m < |y|
    ensures Column(y, m, k) == ColumnAt(y, m, k)
  {
    if k > 0 {
      ColumnClosed(y, m, k - 1);
      ColumnNext(y, m, k - 1);
    }
  }

  lemma ColumnNext(y: seq<real>, m: nat, i: nat)
    requires i < m < |y|
    ensures ColumnAt(y, m, i + 1) == ColumnAt(y, m, i) + PairTerm(y, i, m)
  {
    var v, x := y[i], i as real;
    SumsStep(y, i, x, v);
    ColumnClosedStep(m as real, x, y[m], v, SumX(i), SumY(y, i), SumXY(y, i),
      (i + 1) as real, SumX(i + 1), SumY(y, i + 1), SumXY(y, i + 1), PairTerm(y, i, m));
  }

  lemma ColumnClosedStep(m: real, i: real, top: real, v: real, x: real, s: real, xy: real,
                         k: real, x': real, s': real, xy': real, term: real)
    requires k == i + 1.0 && x' == x + i && s' == s + v && xy' == xy + i * v && term == (m - i) * (top - v)
    ensures ColumnForm(top, m, k, x', s', xy') == ColumnForm(top, m, i, x, s, xy) + term
  {
    assert (m - i) * (top - v) == m * top - i * top - m * v + i * v;
    assert top * (m * k - x') == top * (m * i - x) + m * top - i * top;
  }

  /** The slope's numerator weighs every pair of prices by how far apart they are. */
  lemma {:induction false} NumeratorIsPairSum(y: seq<real>, n: nat)
    requires n <= |y|
    ensures Numerator(y, n) == PairSum(y, n)
  {
    if n > 0 {
      NumeratorIsPairSum(y, n - 1);
      ColumnClosed(y, n - 1, n - 1);
      NumeratorNext(y, n - 1);
    }
  }

  lemma NumeratorNext(y: seq<real>, m: nat)
    requires m < |y|
    ensures Numerator(y, m + 1) == Numerator(y, m) + ColumnAt(y, m, m)
  {
    var v, x := y[m], m as real;
    SumsStep(y, m, x, v);
    NumeratorStep(x, SumXY(y, m), SumY(y, m), SumX(m), v,
                  (m + 1) as real, SumXY(y, m + 1), SumY(y, m + 1), SumX(m + 1));
  }

  lemma NumeratorStep(m: real, xy: real, s: real, x: real, v: real, n: real, xy': real, s': real, x': real)
    requires n == m + 1.0 && xy' == xy + m * v && s' == s + v && x' == x + m
    ensures Cross(n, xy', x', s') == Cross(m, xy, x, s) + ColumnForm(v, m, m, x, s, xy)
  {
    assert n * xy' == m * xy + xy + m * (m * v) + m * v;
    assert x' * s' == x * s + m * s + x * v + m * v;
    assert v * (m * m - x) == m * (m * v) - x * v;
  }

  lemma {:induction false} RampSums(n: nat, k: nat)
    requires k <= n
    ensures SumY(Ramp(n), k) == SumX(k) && SumXY(Ramp(n), k) == SumXX(k)
  {
    if k > 0 {
      RampSums(n, k - 1);
    }
  }

  lemma DenominatorIsPairSum(n: nat)
    ensures Denominator(n) == PairSum(Ramp(n), n)
  {
    RampSums(n, n);
    NumeratorIsPairSum(Ramp(n), n);
  }

  /** Every step from one price to the next lies in [lo, hi]. */
  ghost predicate TicksWithin(y: seq<real>, lo: real, hi: real) {
    forall j | 1 <= j < |y| :: lo <= y[j] - y[j - 1] <= hi
  }

  lemma AddWithin(lo: real, hi: real, a: real, ra: real, b: real, rb: real, sum: real, rsum: real)
    requires Within(lo, hi, a, ra) && Within(lo, hi, b, rb) && sum == a + b && rsum == ra + rb
    ensures Within(lo, hi, sum, rsum)
  {
  }

  lemma ScaleWithin(lo: real, hi: real, gap: real, d: real, p: real, q: real)
    requires Within(lo, hi, d, gap) && gap >= 0.0 && p == gap * d && q == gap * gap
    ensures Within(lo, hi, p, q)
  {
    assert gap * (lo * gap) <= p <= gap * (hi * gap);
  }

  lemma {:induction false} GapWithin(y: seq<real>, lo: real, hi: real, i: nat, m: nat)
    requires i <= m < |y| && TicksWithin(y, lo, hi)
    ensures Within(lo, hi, y[m] - y[i], (m - i) as real)
    decreases m - i
  {
    if i < m {
      GapWithin(y, lo, hi, i, m - 1);
      AddWithin(lo, hi, y[m - 1] - y[i], (m - 1 - i) as real, y[m] - y[m - 1], 1.0, y[m] - y[i], (m - i) as real);
    }
  }

  lemma TermWithin(y: seq<real>, lo: real, hi: real, i: nat, m: nat)
    requires i <= m < |y| && TicksWithin(y, lo, hi)
    ensures Within(lo, hi, PairTerm(y, i, m), PairTerm(Ramp(|y|), i, m))
  {
    GapWithin(y, lo, hi, i, m);
    assert Ramp(|y|)[m] - Ramp(|y|)[i] == (m - i) as real;
    ScaleWithin(lo, hi, (m - i) as real, y[m] - y[i], PairTerm(y, i, m), PairTerm(Ramp(|y|), i, m));
  }

  lemma {:induction false} ColumnWithin(y: seq<real>, lo: real, hi: real, m: nat, k: nat)
    requires k <= m < |y| && TicksWithin(y, lo, hi)
    ensures Within(lo, hi, Column(y, m, k), Column(Ramp(|y|), m, k))
  {
    if k > 0 {
      ColumnWithin(y, lo, hi, m, k - 1);
      TermWithin(y, lo, hi, k - 1, m);
      AddWithin(lo, hi, Column(y, m, k - 1), Column(Ramp(|y|), m, k - 1), PairTerm(y, k - 1, m),
        PairTerm(Ramp(|y|), k - 1, m), Column(y, m, k), Column(Ramp(|y|), m, k));
    }
  }

  lemma {:induction false} PairSumWithin(y: seq<real>, lo: real, hi: real, n: nat)
    requires n <= |y| && TicksWithin(y, lo, hi)
    ensures Within(lo, hi, PairSum(y, n), PairSum(Ramp(|y|), n))
  {
    if n > 0 {
      PairSumWithin(y, lo, hi, n - 1);
      ColumnWithin(y, lo, hi, n - 1, n - 1);
      AddWithin(lo, hi, PairSum(y, n - 1), PairSum(Ramp(|y|), n - 1), Column(y, n - 1, n - 1),
        Column(Ramp(|y|), n - 1, n - 1), PairSum(y, n), PairSum(Ramp(|y|), n));
    }
  }

  /** The slope is an average of the window's price changes: it never leaves their range. */
  lemma SlopeWithinTicks(y: seq<real>, lo: real, hi: real)
    requires |y| >= 2 && TicksWithin(y, lo, hi)
    ensures Denominator(|y|) > 0.0
    ensures lo <= SlopeOf(y) <= hi
  {
    var n := |y|;
    DenominatorClosed(n);
    NumeratorIsPairSum(y, n);
    DenominatorIsPairSum(n);
    PairSumWithin(y, lo, hi, n);
    QuotientBetween(Numerator(y, n), Denominator(n), lo, hi);
  }

  // ---- least squares ----

  /** The sum of squared distances of the first k prices from the line a + b * index. */
  function Residuals(y: seq<real>, a: real, b: real, k: nat): real
    requires k <= |y|
  {
    if k == 0 then 0.0 else Residuals(y, a, b, k - 1) + SquaredResidual(y[k - 1], a, b, (k - 1) as real)
  }

  function SquaredResidual(v: real, a: real, b: real, x: real): real {
    (v - a - b * x) * (v - a - b * x)
  }

  /** The residuals as a quadratic form in the line's parameters. */
  function Quadratic(n: real, yy: real, s: real, xy: real, x: real, xx: real, a: real, b: real): real {
    yy - 2.0 * (a * s) - 2.0 * (b * xy) + (a * a) * n + 2.0 * ((a * b) * x) + (b * b) * xx
  }

  lemma {:induction false} ResidualsExpanded(y: seq<real>, a: real, b: real, k: nat)
    requires k <= |y|
    ensures Residuals(y, a, b, k)
         == Quadratic(k as real, SumYY(y, k), SumY(y, k), SumXY(y, k), SumX(k), SumXX(k), a, b)
  {
    if k > 0 {
      ResidualsExpanded(y, a, b, k - 1);
      ResidualsStep(y, a, b, k);
    }
  }

  lemma ResidualsStep(y: seq<real>, a: real, b: real, k: nat)
    requires 0 < k <= |y|
    ensures Quadratic(k as real, SumYY(y, k), SumY(y, k), SumXY(y, k), SumX(k), SumXX(k), a, b)
         == Quadratic((k - 1) as real, SumYY(y, k - 1), SumY(y, k - 1), SumXY(y, k - 1),
                      SumX(k - 1), SumXX(k - 1), a, b)
          + SquaredResidual(y[k - 1], a, b, (k - 1) as real)
  {
    var v, x := y[k - 1], (k - 1) as real;
    QuadraticAdds(x, SumYY(y, k - 1), SumY(y, k - 1), SumXY(y, k - 1), SumX(k - 1), SumXX(k - 1),
      1.0, v * v, v, x * v, x, x * x, k as real, SumYY(y, k), SumY(y, k), SumXY(y, k), SumX(k), SumXX(k), a, b);
    QuadraticOfPoint(v, x, a, b);
  }

  /** The quadratic form is additive in the sums. */
  lemma QuadraticAdds(n: real, yy: real, s: real, xy: real, x: real, xx: real,
                      n1: real, yy1: real, s1: real, xy1: real, x1: real, xx1: real,
                      n2: real, yy2: real, s2: real, xy2: real, x2: real, xx2: real, a: real, b: real)
    requires n2 == n + n1 && yy2 == yy + yy1 && s2 == s + s1 && xy2 == xy + xy1 && x2 == x + x1 && xx2 == xx + xx1
    ensures Quadratic(n2, yy2, s2, xy2, x2, xx2, a, b)
         == Quadratic(n, yy, s, xy, x, xx, a, b) + Quadratic(n1, yy1, s1, xy1, x1, xx1, a, b)
  {
    Distribute(a, s, s1, s2);
    Distribute(b, xy, xy1, xy2);
    Distribute(a * a, n, n1, n2);
    Distribute(a * b, x, x1, x2);
    Distribute(b * b, xx, xx1, xx2);
  }

  lemma Distribute(c: real, p: real, q: real, sum: real)
    requires sum == p + q
    ensures c * sum == c * p + c * q
  {
  }

  lemma QuadraticOfPoint(v: real, x: real, a: real, b: real)
    ensures Quadratic(1.0, v * v, v, x * v, x, x * x, a, b) == SquaredResidual(v, a, b, x)
  {
    var e := b * x;
    assert (v - a - e) * (v - a - e) == v * v + a * a + e * e - 2.0 * (a * v) - 2.0 * (e * v) + 2.0 * (a * e);
    assert e * e == (b * b) * (x * x) && e * v == b * (x * v) && a * e == (a * b) * x;
  }

  /** At the solution of the normal equations, the excess of any other line is a positive definite form. */
  lemma Excess(n: real, yy: real, s: real, xy: real, x: real, xx: real, a: real, b: real, a': real, b': real)
    requires n * a + x * b == s && x * a + xx * b == xy
    ensures Quadratic(n, yy, s, xy, x, xx, a', b') - Quadratic(n, yy, s, xy, x, xx, a, b)
         == Form(n, x, xx, a' - a, b' - b)
  {
    var da, db := a' - a, b' - b;
    assert a' == a + da && b' == b + db;
    assert a' * a' == a * a + 2.0 * (a * da) + da * da;
    assert b' * b' == b * b + 2.0 * (b * db) + db * db;
    assert a' * b' == a * b + a * db + b * da + da * db;
    assert a * s + b * xy == a * (n * a + x * b) + b * (x * a + xx * b);
    assert da * s == n * (a * da) + x * (b * da);
    assert db * xy == x * (a * db) + xx * (b * db);
  }

  lemma PositiveDefinite(n: real, x: real, xx: real, u: real, v: real)
    requires n > 0.0 && n * xx - x * x > 0.0
    ensures Form(n, x, xx, u, v) >= 0.0
    ensures u != 0.0 || v != 0.0 ==> Form(n, x, xx, u, v) > 0.0
  {
    var q := Form(n, x, xx, u, v);
    var t, d := n * u + x * v, n * xx - x * x;
    CompleteSquare(n, x, xx, u, v, t, d);
    if v == 0.0 && u != 0.0 {
      NonZeroProduct(n, u);
    }
    SumOfTwoSquares(t, d, v);
    DivideOut(n, q, Square(t) + d * Square(v));
  }

  lemma SquareSign(x: real, y: real, square: real)
    requires x == y && square == x * y
    ensures square >= 0.0
    ensures x != 0.0 ==> square > 0.0
  {
    ProductSign(x, y);
    ProductSign(-x, -y);
    assert (-x) * (-y) == x * y;
  }

  lemma SumOfTwoSquares(t: real, d: real, v: real)
    requires d > 0.0
    ensures Square(t) + d * Square(v) >= 0.0
    ensures t != 0.0 || v != 0.0 ==> Square(t) + d * Square(v) > 0.0
  {
    SquareSign(t, t, Square(t));
    SquareSign(v, v, Square(v));
    ProductSign(d, Square(v));
  }

  function Form(n: real, x: real, xx: real, u: real, v: real): real {
    n * (u * u) + 2.0 * x * (u * v) + xx * (v * v)
  }

  lemma CompleteSquare(n: real, x: real, xx: real, u: real, v: real, t: real, d: real)
    requires t == n * u + x * v && d == n * xx - x * x
    ensures n * Form(n, x, xx, u, v) == Square(t) + d * Square(v)
  {
    assert t * t == n * (n * (u * u)) + 2.0 * (n * x) * (u * v) + (x * x) * (v * v);
    assert (n * xx - x * x) * (v * v) == n * (xx * (v * v)) - (x * x) * (v * v);
    assert n * (2.0 * x * (u * v)) == 2.0 * (n * x) * (u * v);
  }

  lemma NonZeroProduct(n: real, u: real)
    requires n > 0.0 && u != 0.0
    ensures n * u != 0.0
  {
    ProductSign(n, u);
  }

  lemma DivideOut(n: real, q: real, w: real)
    requires n > 0.0 && n * q == w
    ensures w >= 0.0 ==> q >= 0.0
    ensures w > 0.0 ==> q > 0.0
  {
    ProductSign(n, q);
  }

  /** The intercept that puts the line with the computed slope through the mean point. */
  function Intercept(y: seq<real>): real
    requires |y| > 0 && Denominator(|y|) != 0.0
  {
    Mean(y) - SlopeOf(y) * Average(SumX(|y|), |y|)
  }

  /** The line with the computed slope through the mean is the one and only best fit. */
  lemma SlopeIsLeastSquares(y: seq<real>, a: real, b: real)
    requires |y| >= 2
    ensures Denominator(|y|) > 0.0
    ensures Residuals(y, Intercept(y), SlopeOf(y), |y|) <= Residuals(y, a, b, |y|)
    ensures a != Intercept(y) || b != SlopeOf(y) ==>
      Residuals(y, Intercept(y), SlopeOf(y), |y|) < Residuals(y, a, b, |y|)
  {
    var n := |y|;
    DenominatorClosed(n);
    ResidualsExpanded(y, Intercept(y), SlopeOf(y), n);
    ResidualsExpanded(y, a, b, n);
    SlopeSolves(y);
    BestLine(n as real, SumYY(y, n), SumY(y, n), SumXY(y, n), SumX(n), SumXX(n), Intercept(y), SlopeOf(y), a, b,
      Residuals(y, Intercept(y), SlopeOf(y), n), Residuals(y, a, b, n));
  }

  /** The conditions for a line to have the smallest residuals. */
  predicate NormalEquations(n: real, s: real, xy: real, x: real, xx: real, a: real, b: real) {
    n * a + x * b == s && x * a + xx * b == xy
  }

  lemma BestLine(n: real, yy: real, s: real, xy: real, x: real, xx: real, a: real, b: real, a': real, b': real,
                 r: real, r': real)
    requires n > 0.0 && Cross(n, xx, x, x) > 0.0 && NormalEquations(n, s, xy, x, xx, a, b)
    requires r == Quadratic(n, yy, s, xy, x, xx, a, b) && r' == Quadratic(n, yy, s, xy, x, xx, a', b')
    ensures r <= r'
    ensures a' != a || b' != b ==> r < r'
  {
    Excess(n, yy, s, xy, x, xx, a, b, a', b');
    PositiveDefinite(n, x, xx, a' - a, b' - b);
  }

  lemma SlopeSolves(y: seq<real>)
    requires |y| >= 2
    ensures Denominator(|y|) > 0.0
    ensures NormalEquations(|y| as real, SumY(y, |y|), SumXY(y, |y|), SumX(|y|), SumXX(|y|), Intercept(y), SlopeOf(y))
  {
    var n := |y|;
    DenominatorClosed(n);
    AverageTimes(SumY(y, n), n);
    AverageTimes(SumX(n), n);
    SlopeTimes(y);
    SolveNormal(n as real, SumY(y, n), SumXY(y, n), SumX(n), SumXX(n),
                Mean(y), Average(SumX(n), n), Intercept(y), SlopeOf(y),
      Denominator(n), Numerator(y, n));
  }

  lemma AverageTimes(total: real, n: nat)
    requires n > 0
    ensures Average(total, n) * n as real == total
  {
  }

  lemma SlopeTimes(y: seq<real>)
    requires Denominator(|y|) > 0.0
    ensures SlopeOf(y) * Denominator(|y|) == Numerator(y, |y|)
  {
  }

  lemma SolveNormal(n: real, s: real, xy: real, x: real, xx: real, mean: real, mid: real, a: real, b: real, d: real,
                    c: real)
    requires n > 0.0 && mean * n == s && mid * n == x && a == mean - b * mid
    requires d == Cross(n, xx, x, x) && c == Cross(n, xy, x, s) && b * d == c
    ensures NormalEquations(n, s, xy, x, xx, a, b)
  {
    assert b * mid * n == b * x;
    assert a * n == s - b * x;
    assert n * (x * a + xx * b) == x * (a * n) + b * (n * xx);
    assert x * (s - b * x) == x * s - b * (x * x);
    assert b * d == b * (n * xx) - b * (x * x);
    assert n * (x * a + xx * b) == n * xy;
    Cancel(n, x * a + xx * b, xy);
  }

  // ---- spread ----

  function SpreadForm(yy: real, mean: real, s: real, n: real): real {
    yy - 2.0 * mean * s + n * (mean * mean)
  }

  lemma {:induction false} SquaresExpanded(y: seq<real>, mean: real, k: nat)
    requires k <= |y|
    ensures SumSquares(y, mean, k) == SpreadForm(SumYY(y, k), mean, SumY(y, k), k as real)
  {
    if k > 0 {
      SquaresExpanded(y, mean, k - 1);
      SpreadStep(SumYY(y, k - 1), mean, SumY(y, k - 1), (k - 1) as real, y[k - 1], SumYY(y, k), SumY(y, k), k as real);
    }
  }

  lemma SpreadStep(yy: real, mean: real, s: real, n: real, v: real, yy': real, s': real, n': real)
    requires yy' == yy + v * v && s' == s + v && n' == n + 1.0
    ensures SpreadForm(yy', mean, s', n') == SpreadForm(yy, mean, s, n) + Square(v - mean)
  {
    assert (v - mean) * (v - mean) == v * v - 2.0 * mean * v + mean * mean;
    assert 2.0 * mean * s' == 2.0 * mean * s + 2.0 * mean * v;
    assert n' * (mean * mean) == n * (mean * mean) + mean * mean;
  }

  /** The two-pass spread about the mean is the sum of squares minus n times the squared mean. */
  lemma SpreadAboutMean(y: seq<real>)
    requires |y| > 0
    ensures SumSquares(y, Mean(y), |y|) == SumYY(y, |y|) - |y| as real * (Mean(y) * Mean(y))
  {
    var m := Mean(y);
    SquaresExpanded(y, m, |y|);
    assert m * |y| as real == SumY(y, |y|);
    assert 2.0 * m * SumY(y, |y|) == 2.0 * (|y| as real * (m * m));
  }

  // ---- reflection ----

  /** Every price mirrored about the level c / 2. */
  ghost predicate Reflected(y: seq<real>, y': seq<real>, c: real) {
    |y| == |y'| && forall i | 0 <= i < |y| :: y'[i] == c - y[i]
  }

  lemma {:induction false} ReflectedSums(y: seq<real>, y': seq<real>, c: real, k: nat)
    requires Reflected(y, y', c) && k <= |y|
    ensures SumY(y', k) == k as real * c - SumY(y, k)
    ensures SumXY(y', k) == c * SumX(k) - SumXY(y, k)
  {
    if k > 0 {
      ReflectedSums(y, y', c, k - 1);
      AddOne(k - 1, c);
      var x := (k - 1) as real;
      assert x * (c - y[k - 1]) == c * x - x * y[k - 1];
    }
  }

  lemma ReflectedNumerator(y: seq<real>, y': seq<real>, c: real, n: nat)
    requires Reflected(y, y', c) && n <= |y|
    ensures Numerator(y', n) == -Numerator(y, n)
  {
    ReflectedSums(y, y', c, n);
    NumeratorMirror(n as real, SumXY(y, n), SumY(y, n), SumX(n), c, SumXY(y', n), SumY(y', n));
  }

  lemma NumeratorMirror(n: real, xy: real, s: real, x: real, c: real, xy': real, s': real)
    requires xy' == c * x - xy && s' == n * c - s
    ensures Cross(n, xy', x, s') == -Cross(n, xy, x, s)
  {
    assert n * xy' == n * (c * x) - n * xy;
    assert x * s' == n * (c * x) - x * s;
  }

  lemma ReflectedSlope(y: seq<real>, y': seq<real>, c: real)
    requires Reflected(y, y', c) && |y| >= 2
    ensures Denominator(|y|) > 0.0 && SlopeOf(y') == -SlopeOf(y)
  {
    DenominatorClosed(|y|);
    ReflectedNumerator(y, y', c, |y|);
    NegatedQuotient(Numerator(y, |y|), Numerator(y', |y|), Denominator(|y|));
  }

  lemma QuotientIs(a: real, d: real, q: real)
    requires d > 0.0 && q * d == a
    ensures a / d == q
  {
  }

  lemma NegatedQuotient(a: real, a': real, d: real)
    requires d > 0.0 && a' == -a
    ensures a' / d == -(a / d)
  {
    assert (-(a / d)) * d == a';
  }

  lemma {:induction false} ReflectedSquares(y: seq<real>, y': seq<real>, c: real, mean: real, k: nat)
    requires Reflected(y, y', c) && k <= |y|
    ensures SumSquares(y', c - mean, k) == SumSquares(y, mean, k)
  {
    if k > 0 {
      ReflectedSquares(y, y', c, mean, k - 1);
      var d := y[k - 1] - mean;
      assert (y'[k - 1] - (c - mean)) == -d;
      assert (-d) * (-d) == d * d;
    }
  }

  lemma ReflectedSpread(y: seq<real>, y': seq<real>, c: real)
    requires Reflected(y, y', c) && |y| > 0
    ensures SumSquares(y', Mean(y'), |y'|) == SumSquares(y, Mean(y), |y|)
  {
    var n := |y| as real;
    ReflectedSums(y, y', c, |y|);
    assert Mean(y) * n == SumY(y, |y|);
    QuotientIs(SumY(y', |y|), n, c - Mean(y));
    ReflectedSquares(y, y', c, Mean(y), |y|);
  }
}
