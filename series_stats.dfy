/**
 * Per-series statistics computed by both generators: the mean, the closed-form
 * least-squares slope over x = 0..n-1, the seasonal factors of the last (up to)
 * four observations and the population variance behind the volatility.
 */
module SeriesStats {
  import opened Records

  function Mean(s: seq<real>): real
    requires |s| > 0
  {
    Div(Sum(s), |s| as real)
  }

  /** `reduce((sum, y, i) => sum + i * y, 0)`: the sum of x * y with x the position. */
  function WeightedSum(s: seq<real>): real
  {
    if s == [] then 0.0 else WeightedSum(s[..|s| - 1]) + (|s| - 1) as real * s[|s| - 1]
  }

  /** The closed form n(n-1)/2 of the sum of the positions 0..n-1. */
  function XSum(n: nat): real
  {
    n as real * (n as real - 1.0) / 2.0
  }

  /** The closed form n(n-1)(2n-1)/6 of the sum of the squared positions. */
  function X2Sum(n: nat): real
  {
    n as real * (n as real - 1.0) * (2.0 * n as real - 1.0) / 6.0
  }

  /** `n * x2Sum - xSum * xSum`. */
  function SlopeDenominatorOf(n: real, xSum: real, x2Sum: real): real
  {
    n * x2Sum - xSum * xSum
  }

  /** `n * xySum - xSum * ySum`. */
  function SlopeNumeratorOf(n: real, xSum: real, ySum: real, xySum: real): real
  {
    n * xySum - xSum * ySum
  }

  /** `(n * xySum - xSum * ySum) / (n * x2Sum - xSum * xSum)`, the slope formula over the four sums. */
  function LeastSquaresSlope(n: real, xSum: real, ySum: real, xySum: real, x2Sum: real): real
    requires SlopeDenominatorOf(n, xSum, x2Sum) != 0.0
  {
    Div(SlopeNumeratorOf(n, xSum, ySum, xySum), SlopeDenominatorOf(n, xSum, x2Sum))
  }

  /** The slope's denominator for n observations. */
  function SlopeDenominator(n: nat): real
  {
    SlopeDenominatorOf(n as real, XSum(n), X2Sum(n))
  }

  /** The denominator is n^2 (n^2 - 1) / 12, so it is positive for every n >= 2 and 0 for n = 1. */
  lemma {:induction false} SlopeDenominatorClosedForm(n: nat)
    ensures SlopeDenominator(n) == (n * n * (n * n - 1)) as real / 12.0
    ensures n >= 2 ==> SlopeDenominator(n) > 0.0
    ensures n == 1 ==> SlopeDenominator(n) == 0.0
  {
    var m := n as real;
    assert (n * n * (n * n - 1)) as real == m * m * (m * m - 1.0);
    if n >= 2 {
      assert m * m >= 4.0 by {
        assert m >= 2.0;
      }
      assert m * m * (m * m - 1.0) > 0.0;
    }
  }

  lemma {:induction false} SlopeDenominatorPositive(n: nat)
    requires n >= 2
    ensures SlopeDenominator(n) > 0.0
  {
    SlopeDenominatorClosedForm(n);
  }

  /** The trend: the least-squares slope for n >= 2 and 0 for a single observation. */
  function Slope(s: seq<real>): real
  {
    if |s| > 1 then
      SlopeDenominatorPositive(|s|);
      LeastSquaresSlope(|s| as real, XSum(|s|), Sum(s), WeightedSum(s), X2Sum(|s|))
    else 0.0
  }

  /** The sum of the positions 0..n-1. */
  function SumPositions(n: nat): real
  {
    if n == 0 then 0.0 else SumPositions(n - 1) + (n - 1) as real
  }

  /** The sum of the squared positions 0..n-1. */
  function SumSquaredPositions(n: nat): real
  {
    if n == 0 then 0.0 else SumSquaredPositions(n - 1) + (n - 1) as real * (n - 1) as real
  }

  /** xSum is the closed form of the sum of the positions. */
  lemma {:induction false} XSumClosedForm(n: nat)
    ensures XSum(n) == SumPositions(n)
  {
    if n > 0 {
      XSumClosedForm(n - 1);
      var m := n as real;
      assert XSum(n - 1) == (m - 1.0) * (m - 2.0) / 2.0;
    }
  }

  /** x2Sum is the closed form of the sum of the squared positions. */
  lemma {:induction false} X2SumClosedForm(n: nat)
    ensures X2Sum(n) == SumSquaredPositions(n)
  {
    if n > 0 {
      X2SumClosedForm(n - 1);
      var m := n as real;
      assert X2Sum(n - 1) == (m - 1.0) * (m - 2.0) * (2.0 * m - 3.0) / 6.0;
    }
  }

  /** A series lying exactly on the line a + b*x. */
  predicate OnLine(s: seq<real>, a: real, b: real)
  {
    forall i :: 0 <= i < |s| ==> s[i] == a + b * i as real
  }

  /** The prefix of a series on a line lies on the same line. */
  lemma {:induction false} OnLinePrefix(s: seq<real>, a: real, b: real)
    requires |s| > 0 && OnLine(s, a, b)
    ensures OnLine(s[..|s| - 1], a, b)
  {
    var init := s[..|s| - 1];
    forall i | 0 <= i < |init| ensures init[i] == a + b * i as real {
      assert init[i] == s[i];
    }
  }

  lemma {:induction false} LineSum(s: seq<real>, a: real, b: real)
    requires OnLine(s, a, b)
    ensures Sum(s) == |s| as real * a + b * SumPositions(|s|) as real
  {
    if s != [] {
      var n := |s|;
      OnLinePrefix(s, a, b);
      LineSum(s[..n - 1], a, b);
      LineSumStep((n - 1) as real, a, b, SumPositions(n - 1), Sum(s[..n - 1]));
    }
  }

  lemma {:induction false} LineSumStep(x: real, a: real, b: real, sp: real, prev: real)
    requires prev == x * a + b * sp
    ensures prev + (a + b * x) == (x + 1.0) * a + b * (sp + x)
  {
  }

  lemma {:induction false} LineWeightedSum(s: seq<real>, a: real, b: real)
    requires OnLine(s, a, b)
    ensures WeightedSum(s) == a * SumPositions(|s|) + b * SumSquaredPositions(|s|)
  {
    if s != [] {
      var n := |s|;
      OnLinePrefix(s, a, b);
      LineWeightedSum(s[..n - 1], a, b);
      var x := (n - 1) as real;
      LineWeightedSumStep(x, a, b, SumPositions(n - 1), SumSquaredPositions(n - 1),
                          WeightedSum(s[..n - 1]));
    }
  }

  lemma {:induction false} LineWeightedSumStep(x: real, a: real, b: real, sp: real, ssp: real, prev: real)
    requires prev == a * sp + b * ssp
    ensures prev + x * (a + b * x) == a * (sp + x) + b * (ssp + x * x)
  {
  }

  /** The sum of a series on the line a + b*x, in terms of xSum. */
  lemma {:induction false} LineSumClosedForm(s: seq<real>, a: real, b: real)
    requires OnLine(s, a, b)
    ensures Sum(s) == |s| as real * a + b * XSum(|s|)
  {
    LineSum(s, a, b);
    XSumClosedForm(|s|);
    RewriteTerm(|s| as real * a, b, SumPositions(|s|), XSum(|s|), Sum(s));
  }

  /** The position-weighted sum of a series on the line a + b*x, in terms of xSum and x2Sum. */
  lemma {:induction false} LineWeightedSumClosedForm(s: seq<real>, a: real, b: real)
    requires OnLine(s, a, b)
    ensures WeightedSum(s) == a * XSum(|s|) + b * X2Sum(|s|)
  {
    LineWeightedSum(s, a, b);
    XSumClosedForm(|s|);
    X2SumClosedForm(|s|);
    RewriteTerm(a * SumPositions(|s|), b, SumSquaredPositions(|s|), X2Sum(|s|), WeightedSum(s));
    RewriteTerm(b * X2Sum(|s|), a, SumPositions(|s|), XSum(|s|), WeightedSum(s));
  }

  lemma {:induction false} RewriteTerm(c: real, b: real, p: real, q: real, sum: real)
    requires sum == c + b * p && p == q
    ensures sum == c + b * q
  {
  }

  /**
   * The slope is the least-squares slope: a series that lies exactly on the line
   * a + b*x (n >= 2) has slope b.
   */
  lemma {:induction false} SlopeOfLine(s: seq<real>, a: real, b: real)
    requires |s| >= 2 && OnLine(s, a, b)
    ensures Slope(s) == b
  {
    var n := |s|;
    SlopeDenominatorPositive(n);
    LineSumClosedForm(s, a, b);
    LineWeightedSumClosedForm(s, a, b);
    SlopeOfSums(n as real, a, b, XSum(n), X2Sum(n), Sum(s), WeightedSum(s));
  }

  /** The slope formula returns b on sums of the shape a line produces, as plain algebra over the sums. */
  lemma {:induction false} SlopeOfSums(m: real, a: real, b: real, xs: real, x2: real, sum: real, ws: real)
    requires SlopeDenominatorOf(m, xs, x2) != 0.0
    requires sum == m * a + b * xs && ws == a * xs + b * x2
    ensures LeastSquaresSlope(m, xs, sum, ws, x2) == b
  {
    var den := SlopeDenominatorOf(m, xs, x2);
    assert SlopeNumeratorOf(m, xs, sum, ws) == b * den;
    DivCancel(b, den);
  }

  lemma {:induction false} DivCancel(b: real, d: real)
    requires d != 0.0
    ensures Div(b * d, d) == b
  {
  }

  /** A constant series has slope 0. */
  lemma {:induction false} SlopeOfConstant(s: seq<real>, c: real)
    requires forall i :: 0 <= i < |s| ==> s[i] == c
    ensures Slope(s) == 0.0
  {
    if |s| >= 2 {
      assert OnLine(s, c, 0.0);
      SlopeOfLine(s, c, 0.0);
    }
  }

  /** `slice(-4)`: the last min(4, n) observations. */
  function RecentWeeks(s: seq<real>): (r: seq<real>)
    ensures |r| == if |s| < 4 then |s| else 4
    ensures s == s[..|s| - |r|] + r
  {
    if |s| <= 4 then s else s[|s| - 4..]
  }

  /** `q / recentAvg` when the recent mean is positive, else 1, for each recent observation. */
  function SeasonalFactors(s: seq<real>): (f: seq<real>)
    requires |s| > 0
    ensures |f| == |RecentWeeks(s)|
  {
    var recent := RecentWeeks(s);
    Factors(recent, Div(Sum(recent), |recent| as real))
  }

  /** `recent.map(q => recentAvg > 0 ? q / recentAvg : 1)`. */
  function Factors(recent: seq<real>, recentAvg: real): (f: seq<real>)
    ensures |f| == |recent|
  {
    if recent == [] then []
    else
      Factors(recent[..|recent| - 1], recentAvg)
      + [if recentAvg > 0.0 then Div(recent[|recent| - 1], recentAvg) else 1.0]
  }

  lemma {:induction false} FactorsSum(recent: seq<real>, avg: real)
    requires avg > 0.0
    ensures Sum(Factors(recent, avg)) == Div(Sum(recent), avg)
  {
    if recent != [] {
      var init := recent[..|recent| - 1];
      FactorsSum(init, avg);
      DivAdd(Sum(init), recent[|recent| - 1], avg);
    }
  }

  lemma {:induction false} FactorsNeutral(recent: seq<real>, avg: real)
    requires avg <= 0.0
    ensures forall i :: 0 <= i < |recent| ==> Factors(recent, avg)[i] == 1.0
  {
    if recent != [] {
      var init := recent[..|recent| - 1];
      FactorsNeutral(init, avg);
      forall i | 0 <= i < |init| ensures Factors(recent, avg)[i] == 1.0 {
        assert Factors(recent, avg)[i] == Factors(init, avg)[i];
      }
    }
  }

  /**
   * When the recent mean is positive the factors add up to their count (they average 1);
   * otherwise every factor is 1.
   */
  lemma {:induction false} SeasonalFactorsSpec(s: seq<real>)
    requires |s| > 0
    ensures var recent := RecentWeeks(s);
            var avg := Div(Sum(recent), |recent| as real);
            var f := SeasonalFactors(s);
            (avg > 0.0 ==> Sum(f) == |f| as real)
            && (avg <= 0.0 ==> forall i :: 0 <= i < |f| ==> f[i] == 1.0)
  {
    var recent := RecentWeeks(s);
    var k := |recent| as real;
    var avg := Div(Sum(recent), k);
    if avg > 0.0 {
      FactorsSum(recent, avg);
      MeanRatio(Sum(recent), k);
    } else {
      FactorsNeutral(recent, avg);
    }
  }

  lemma {:induction false} DivAdd(x: real, y: real, d: real)
    requires d != 0.0
    ensures Div(x, d) + Div(y, d) == Div(x + y, d)
  {
  }

  lemma {:induction false} DivMul(x: real, d: real)
    requires d != 0.0
    ensures Div(x, d) * d == x
  {
  }

  /** A total over its own mean gives back the count. */
  lemma {:induction false} MeanRatio(total: real, k: real)
    requires k > 0.0 && Div(total, k) > 0.0
    ensures Div(total, Div(total, k)) == k
  {
    var avg := Div(total, k);
    DivMul(total, k);
    assert total == avg * k;
  }

  lemma {:induction false} MulPos(x: real, y: real)
    requires x > 0.0 && y > 0.0
    ensures x * y > 0.0
  {
  }

  /** A real product, kept as a function so that the solver treats a square as one term. */
  function Mul(a: real, b: real): real
  {
    a * b
  }

  lemma {:induction false} MulPositive(a: real, b: real)
    requires (a > 0.0 && b > 0.0) || (a < 0.0 && b < 0.0)
    ensures Mul(a, b) > 0.0
  {
    if a < 0.0 {
      MulPos(-a, -b);
      assert (-a) * (-b) == a * b;
    } else {
      MulPos(a, b);
    }
  }

  /** `Math.pow(x, 2)`: never negative, and zero only at zero. */
  function Square(x: real): (r: real)
    ensures r >= 0.0
    ensures x != 0.0 ==> r > 0.0
  {
    if x != 0.0 then MulPositive(x, x); Mul(x, x) else Mul(x, x)
  }

  /** The sum of squared deviations from `m`. */
  function SquaredDeviations(s: seq<real>, m: real): (d: real)
    ensures d >= 0.0
  {
    if s == [] then 0.0
    else SquaredDeviations(s[..|s| - 1], m) + Square(s[|s| - 1] - m)
  }

  /** The population variance: the mean squared deviation from the mean. */
  function PopVariance(s: seq<real>): (v: real)
    requires |s| > 0
    ensures v >= 0.0
  {
    Div(SquaredDeviations(s, Mean(s)), |s| as real)
  }

  /** The squared deviations vanish exactly when every observation equals `m`. */
  lemma {:induction false} SquaredDeviationsZero(s: seq<real>, m: real)
    ensures SquaredDeviations(s, m) == 0.0 <==> forall i :: 0 <= i < |s| ==> s[i] == m
  {
    if s != [] {
      var init := s[..|s| - 1];
      SquaredDeviationsZero(init, m);
      if forall i :: 0 <= i < |s| ==> s[i] == m {
        assert forall i :: 0 <= i < |init| ==> init[i] == s[i];
        assert s[|s| - 1] - m == 0.0;
      }
      if SquaredDeviations(s, m) == 0.0 {
        assert s[|s| - 1] - m == 0.0;
        forall i | 0 <= i < |s| ensures s[i] == m {
          if i < |init| {
            assert s[i] == init[i];
          }
        }
      }
    }
  }

  /** A constant series has mean c and variance 0; a series with variance 0 is constant. */
  lemma {:induction false} ConstantSeries(s: seq<real>, c: real)
    requires |s| > 0 && forall i :: 0 <= i < |s| ==> s[i] == c
    ensures Mean(s) == c && PopVariance(s) == 0.0
  {
    SumConstant(s, c);
    SquaredDeviationsZero(s, c);
  }

  lemma {:induction false} ZeroVarianceIsConstant(s: seq<real>)
    requires |s| > 0 && PopVariance(s) == 0.0
    ensures forall i :: 0 <= i < |s| ==> s[i] == Mean(s)
  {
    SquaredDeviationsZero(s, Mean(s));
  }
}
