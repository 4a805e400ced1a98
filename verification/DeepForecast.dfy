/** Choosing between plain and damped Holt by their backtests, and projecting the winner. */
module DeepForecast {
  import opened Backtest
  import opened Findings
  import opened Forecast
  import opened HoltGrid
  import opened Reals

  datatype DeepForecastPoint = DeepForecastPoint(h: nat, forecast: real, lower: real, upper: real)

  datatype DeepForecastResult = DeepForecastResult(
    model: string,
    params: HoltParams,
    pointsRetained: nat,
    pointsUsedForFit: nat,
    backtestFolds: nat,
    backtestMAEHolt: real,
    backtestMAEDamped: real,
    forecast: seq<DeepForecastPoint>)

  ghost predicate IsSquareRoot(sqrt: real -> real) {
    forall x: real | x >= 0.0 :: sqrt(x) >= 0.0 && sqrt(x) * sqrt(x) == x
  }

  // ----- Residual spread -----

  function Residual(ys: seq<real>, p: HoltParams, t: nat): real
    requires t < |ys|
  {
    ys[t] - Predicted(ys, p, t)
  }

  function ResidualSum(ys: seq<real>, p: HoltParams, n: nat): real
    requires n <= |ys|
  {
    if n <= 1 then 0.0 else ResidualSum(ys, p, n - 1) + Residual(ys, p, n - 1)
  }

  function SquaresAround(ys: seq<real>, p: HoltParams, mean: real, n: nat): (r: real)
    requires n <= |ys|
    ensures r >= 0.0
  {
    if n <= 1 then 0.0 else SquaresAround(ys, p, mean, n - 1) + Square(Residual(ys, p, n - 1) - mean)
  }

  /** The sample variance of the one-step errors. */
  function Variance(ys: seq<real>, p: HoltParams): (r: real)
    requires |ys| >= 3
    ensures r >= 0.0
  {
    var count := (|ys| - 1) as real;
    SquaresAround(ys, p, ResidualSum(ys, p, |ys|) / count, |ys|) / (count - 1.0)
  }

  method ResidualVariance(fitYs: seq<real>, params: HoltParams) returns (variance: real)
    requires |fitYs| >= 3
    ensures variance == Variance(fitYs, params)
  {
    hide Predicted, SquaresAround;
    var fitted, _, _, _ := HoltFit(fitYs, params);
    var sumErr, count := 0.0, 0;
    for i := 1 to |fitYs|
      invariant sumErr == ResidualSum(fitYs, params, i) && count == i - 1
    {
      sumErr := sumErr + (fitYs[i] - fitted[i]);
      count := count + 1;
    }
    var sumSqErr := SumSquares(fitYs, params, fitted, sumErr / count as real);
    variance := sumSqErr / (count - 1) as real;
  }

  method SumSquares(fitYs: seq<real>, params: HoltParams, fitted: seq<real>, meanErr: real) returns (sumSqErr: real)
    requires |fitted| == |fitYs| > 0 && forall t | 0 <= t < |fitYs| :: fitted[t] == Predicted(fitYs, params, t)
    ensures sumSqErr == SquaresAround(fitYs, params, meanErr, |fitYs|)
  {
    hide Predicted, Square;
    sumSqErr := 0.0;
    for i := 1 to |fitYs|
      invariant sumSqErr == SquaresAround(fitYs, params, meanErr, i)
    {
      var e := fitYs[i] - fitted[i];
      SquareOf(e - meanErr);
      sumSqErr := sumSqErr + (e - meanErr) * (e - meanErr);
    }
  }

  // ----- The forecast -----

  function Max(x: real, y: real): (r: real)
    ensures r >= x && r >= y && (r == x || r == y)
  {
    if x < y then y else x
  }

  function MinInt(a: nat, b: nat): (r: nat)
    ensures r <= a && r <= b && (r == a || r == b)
  {
    if a < b then a else b
  }

  function ForecastPoint(s: State, p: HoltParams, sd: real, sqrt: real -> real, h: nat): DeepForecastPoint {
    var point, width := Max(HoltForecastAhead(s.level, s.trend, p, h), 0.0), 1.2816 * sd * sqrt(h as real);
    DeepForecastPoint(h, point, Max(point - width, 0.0), point + width)
  }

  ghost predicate UseDamped(ys: seq<real>, horizon: nat) {
    && FoldCount(|ys| - MinInt(horizon, 5)) > 0
    && BacktestError(ys, MinInt(horizon, 5), true) < BacktestError(ys, MinInt(horizon, 5), false)
  }

  ghost predicate IsForecast(ys: seq<real>, horizon: nat, sqrt: real -> real, r: DeepForecastResult)
    requires |ys| >= 3
  {
    var fitYs := RecentWindow(ys, |ys|);
    var s := Final(fitYs, r.params);
    && r.model == (if UseDamped(ys, horizon) then "damped_holt" else "holt")
    && r.params == BestFit(fitYs, UseDamped(ys, horizon))
    && r.pointsRetained == |ys| && r.pointsUsedForFit == |fitYs|
    && r.backtestFolds == FoldCount(|ys| - MinInt(horizon, 5))
    && r.backtestMAEHolt == BacktestError(ys, MinInt(horizon, 5), false)
    && r.backtestMAEDamped == BacktestError(ys, MinInt(horizon, 5), true)
    && |r.forecast| == horizon
    && forall i | 0 <= i < horizon ::
         r.forecast[i] == ForecastPoint(s, r.params, sqrt(Variance(fitYs, r.params)), sqrt, i + 1)
  }

  method Project(s: State, params: HoltParams, residualStdDev: real, sqrt: real -> real, horizon: nat)
    returns (forecast: seq<DeepForecastPoint>)
    ensures |forecast| == horizon
    ensures forall i | 0 <= i < horizon :: forecast[i] == ForecastPoint(s, params, residualStdDev, sqrt, i + 1)
  {
    hide HoltForecastAhead;
    forecast := [];
    for h := 1 to horizon + 1
      invariant |forecast| == h - 1
      invariant forall i | 0 <= i < h - 1 :: forecast[i] == ForecastPoint(s, params, residualStdDev, sqrt, i + 1)
    {
      var point := Max(HoltForecastAhead(s.level, s.trend, params, h), 0.0);
      var width := 1.2816 * residualStdDev * sqrt(h as real);
      forecast := forecast + [DeepForecastPoint(h, point, Max(point - width, 0.0), point + width)];
    }
  }

  method ComputeDeepForecast(ys: seq<real>, horizon: nat, sqrt: real -> real) returns (r: Option<DeepForecastResult>)
    requires IsSquareRoot(sqrt)
    ensures r.None? <==> |ys| < 3
    ensures r.Some? ==> IsForecast(ys, horizon, sqrt, r.value)
  {
    hide FoldCount, StateAt, ForecastPoint, IsSquareRoot, BacktestError, BestFit, Variance;
    if |ys| < 3 {
      return None;
    }
    var holtMAE, folds := BacktestMAE(ys, MinInt(horizon, 5), false);
    var dampedMAE, _ := BacktestMAE(ys, MinInt(horizon, 5), true);
    var useDamped := folds > 0 && dampedMAE < holtMAE;
    var fitYs := RecentWindow(ys, |ys|);
    var params := FitBestHolt(fitYs, useDamped);
    var _, _, level, trend := HoltFit(fitYs, params);
    var variance := ResidualVariance(fitYs, params);
    var residualStdDev := sqrt(variance);
    var forecast := Project(State(level, trend), params, residualStdDev, sqrt, horizon);
    var model := if useDamped then "damped_holt" else "holt";
    r := Some(DeepForecastResult(model, params, |ys|, |fitYs|, folds, holtMAE, dampedMAE,
                                 forecast));
  }

  /** Every point is a non-negative projection inside its interval. */
  lemma IntervalsEnclose(ys: seq<real>, horizon: nat, sqrt: real -> real, r: DeepForecastResult, i: nat)
    requires |ys| >= 3 && IsSquareRoot(sqrt) && IsForecast(ys, horizon, sqrt, r) && i < horizon
    ensures 0.0 <= r.forecast[i].lower <= r.forecast[i].forecast <= r.forecast[i].upper && r.forecast[i].h == i + 1
  {
    hide BestFit, Variance, UseDamped, ForecastPoint, StateAt, RecentWindow;
    var fitYs := RecentWindow(ys, |ys|);
    RootsAreNonNegative(sqrt, Variance(fitYs, r.params));
    RootsAreNonNegative(sqrt, (i + 1) as real);
    PointIsEnclosed(Final(fitYs, r.params), r.params, sqrt(Variance(fitYs, r.params)), sqrt, i + 1);
  }

  // ----- How wide the intervals are -----

  function Total(e: seq<real>): real {
    if e == [] then 0.0 else Total(e[..|e| - 1]) + e[|e| - 1]
  }

  function TotalSquares(e: seq<real>): real {
    if e == [] then 0.0 else TotalSquares(e[..|e| - 1]) + e[|e| - 1] * e[|e| - 1]
  }

  lemma {:induction false} SquaresExpand(ys: seq<real>, p: HoltParams, mean: real, e: seq<real>)
    requires |e| < |ys| && forall t | 0 <= t < |e| :: e[t] == ys[t + 1] - Predicted(ys, p, t + 1)
    ensures ResidualSum(ys, p, |e| + 1) == Total(e)
    ensures SquaresAround(ys, p, mean, |e| + 1) == TotalSquares(e) - 2.0 * mean * Total(e) + |e| as real * (mean * mean)
  {
    hide Predicted, Square;
    var n := |e|;
    if n > 0 {
      SquaresExpand(ys, p, mean, e[..n - 1]);
      assert Residual(ys, p, n) == e[n - 1];
      OneMoreSquare(TotalSquares(e[..n - 1]), Total(e[..n - 1]), (n - 1) as real, e[n - 1], mean);
    }
  }

  lemma OneMoreSquare(squares: real, sum: real, n: real, x: real, mean: real)
    ensures squares - 2.0 * mean * sum + n * (mean * mean) + Square(x - mean)
         == squares + x * x - 2.0 * mean * (sum + x) + (n + 1.0) * (mean * mean)
  {
    assert Square(x - mean) == x * x - 2.0 * mean * x + mean * mean;
    Distribute(n, 1.0, mean * mean);
    assert 2.0 * mean * (sum + x) == 2.0 * mean * sum + 2.0 * mean * x;
  }

  /** `v` is the sample variance of `n` numbers with this sum and sum of squares. */
  predicate IsVariance(v: real, n: real, sum: real, squares: real) {
    v * (n - 1.0) * n == n * squares - sum * sum
  }

  /** The interval is centred on the forecast before both are cut off at zero, and its squared half width is 1.2816
      squared times the horizon times the sample variance of `n` errors with this sum and sum of squares. */
  predicate IsCentred(f: DeepForecastPoint, n: real, sum: real, squares: real) {
    var width := f.upper - f.forecast;
    && f.lower == (if f.forecast - width > 0.0 then f.forecast - width else 0.0)
    && width * width * (n - 1.0) * n == 1.2816 * 1.2816 * f.h as real * (n * squares - sum * sum)
  }

  /** The variance of the errors, from their sum and the sum of their squares. */
  lemma VarianceExpands(ys: seq<real>, p: HoltParams, e: seq<real>)
    requires |ys| >= 3 && |e| == |ys| - 1 && forall t | 0 <= t < |e| :: e[t] == ys[t + 1] - Predicted(ys, p, t + 1)
    ensures IsVariance(Variance(ys, p), |e| as real, Total(e), TotalSquares(e))
  {
    hide Predicted, SquaresAround, ResidualSum;
    var n, sum := |e| as real, Total(e);
    SquaresExpand(ys, p, sum / n, e);
    AroundTheMean(n, sum, TotalSquares(e));
    assert (|e| - 1) as real == n - 1.0;
  }

  lemma AroundTheMean(n: real, sum: real, squares: real)
    requires n > 1.0
    ensures var mean := sum / n;
      (squares - 2.0 * mean * sum + n * (mean * mean)) / (n - 1.0) * (n - 1.0) * n == n * squares - sum * sum
  {
    var mean := sum / n;
    var around := squares - 2.0 * mean * sum + n * (mean * mean);
    assert n * mean == sum;
    assert n * (mean * mean) == sum * mean;
    assert around == squares - mean * sum;
    assert mean * sum * n == sum * sum;
    assert around / (n - 1.0) * (n - 1.0) == around;
    assert around * n == squares * n - mean * sum * n;
  }

  /** Every interval is that of 80 percent of a normal distribution around the forecast, spread like the errors `e` the
      chosen model made on the points it was fitted on, and growing with the square root of the horizon. */
  lemma IntervalsAreWide(ys: seq<real>, horizon: nat, sqrt: real -> real, r: DeepForecastResult, e: seq<real>, i: nat)
    requires |ys| >= 3 && IsSquareRoot(sqrt) && IsForecast(ys, horizon, sqrt, r) && i < horizon
    requires var fitYs := if |ys| < 400 then ys else ys[|ys| - 400..];
      |e| == |fitYs| - 1 && forall t | 0 <= t < |e| :: e[t] == fitYs[t + 1] - Predicted(fitYs, r.params, t + 1)
    ensures IsCentred(r.forecast[i], |e| as real, Total(e), TotalSquares(e)) && r.forecast[i].h == i + 1
  {
    hide BestFit, Variance, UseDamped, StateAt, Predicted, ForecastPoint, RecentWindow, Total, TotalSquares, IsVariance,
      IsCentred;
    var fitYs := RecentWindow(ys, |ys|);
    assert fitYs == if |ys| < 400 then ys else ys[|ys| - 400..];
    VarianceExpands(fitYs, r.params, e);
    PointIsCentred(Final(fitYs, r.params), r.params, Variance(fitYs, r.params), sqrt, i + 1, |e| as real, Total(e),
                   TotalSquares(e));
  }

  lemma PointIsCentred(s: State, p: HoltParams, v: real, sqrt: real -> real, h: nat, n: real, sum: real, squares: real)
    requires IsSquareRoot(sqrt) && v >= 0.0 && IsVariance(v, n, sum, squares)
    ensures var f := ForecastPoint(s, p, sqrt(v), sqrt, h);
      IsCentred(f, n, sum, squares) && f.h == h
  {
    Widths(v, h as real, sqrt, n, n * squares - sum * sum);
    hide HoltForecastAhead, IsSquareRoot;
    var f := ForecastPoint(s, p, sqrt(v), sqrt, h);
    assert f.upper - f.forecast == 1.2816 * sqrt(v) * sqrt(h as real);
  }

  lemma Widths(v: real, h: real, sqrt: real -> real, n: real, spread: real)
    requires IsSquareRoot(sqrt) && v >= 0.0 && h >= 0.0 && v * (n - 1.0) * n == spread
    ensures var width := 1.2816 * sqrt(v) * sqrt(h);
      width * width * (n - 1.0) * n == 1.2816 * 1.2816 * h * spread
  {
    var a, b := sqrt(v), sqrt(h);
    assert a * a == v && b * b == h;
    WidthSquared(a, b);
    var c := 1.2816 * 1.2816 * h;
    assert c * (v * (n - 1.0) * n) == c * v * (n - 1.0) * n;
  }

  lemma WidthSquared(a: real, b: real)
    ensures 1.2816 * a * b * (1.2816 * a * b) == 1.2816 * 1.2816 * (b * b) * (a * a)
  {
  }

  lemma RootsAreNonNegative(sqrt: real -> real, x: real)
    requires IsSquareRoot(sqrt) && x >= 0.0
    ensures sqrt(x) >= 0.0
  {
  }

  lemma PointIsEnclosed(s: State, p: HoltParams, sd: real, sqrt: real -> real, h: nat)
    requires sd >= 0.0 && sqrt(h as real) >= 0.0
    ensures var point := ForecastPoint(s, p, sd, sqrt, h);
      point.h == h && 0.0 <= point.lower <= point.forecast <= point.upper
  {
    hide HoltForecastAhead;
    var root := sqrt(h as real);
    assert sd * root >= 0.0;
    assert 1.2816 * sd * root == 1.2816 * (sd * root);
  }

  // ----- Straight lines -----

  function LineValue(a: real, d: real, t: int): real {
    a + t as real * d
  }

  ghost predicate Line(ys: seq<real>, a: real, d: real) {
    forall t | 0 <= t < |ys| :: ys[t] == LineValue(a, d, t)
  }

  lemma LineShift(a: real, d: real, s: int, t: int)
    ensures LineValue(LineValue(a, d, s), d, t) == LineValue(a, d, s + t)
    ensures LineValue(a, d, s + 1) == LineValue(a, d, s) + d && LineValue(a, d, 0) == a
  {
    Distribute(s as real, t as real, d);
    assert (s + t) as real == s as real + t as real;
    Distribute(s as real, 1.0, d);
    assert (s + 1) as real == s as real + 1.0;
  }

  lemma NextOnLine(y: real, d: real, p: HoltParams)
    requires p.phi == 1.0
    ensures OneAhead(State(y, d), p) == y + d
    ensures Next(State(y, d), y + d, p) == State(y + d, d)
  {
    var z := y + d;
    assert p.alpha * z + (1.0 - p.alpha) * z == z;
    assert (1.0 - p.beta) * 1.0 * d == (1.0 - p.beta) * d;
    assert p.beta * d + (1.0 - p.beta) * d == d;
  }

  /** Plain Holt tracks a line exactly, whatever its smoothing parameters. */
  lemma {:induction false} LineIsTracked(ys: seq<real>, a: real, d: real, p: HoltParams, t: nat)
    requires Line(ys, a, d) && |ys| >= 2 && p.phi == 1.0 && t < |ys|
    ensures StateAt(ys, p, t) == State(ys[t], d)
    ensures Predicted(ys, p, t) == ys[t]
  {
    hide LineValue, Next, OneAhead;
    if t == 0 {
      LineShift(a, d, 0, 0);
    } else {
      LineIsTracked(ys, a, d, p, t - 1);
      LineShift(a, d, t - 1, 0);
      NextOnLine(ys[t - 1], d, p);
    }
  }

  lemma WindowOfLine(ys: seq<real>, a: real, d: real, end: nat)
    requires Line(ys, a, d) && end <= |ys|
    ensures var train := RecentWindow(ys, end); Line(train, LineValue(a, d, end - |train|), d)
  {
    hide LineValue;
    var train := RecentWindow(ys, end);
    forall t | 0 <= t < |train| ensures train[t] == LineValue(LineValue(a, d, end - |train|), d, t) {
      LineShift(a, d, end - |train|, t);
    }
  }

  lemma LineAhead(ys: seq<real>, a: real, d: real, end: nat, h: nat, p: HoltParams)
    requires Line(ys, a, d) && 2 <= end <= |ys| && p.phi == 1.0
    ensures var s := Final(RecentWindow(ys, end), p);
      HoltForecastAhead(s.level, s.trend, p, h) == LineValue(a, d, end - 1 + h)
  {
    hide LineValue, HoltForecastAhead, StateAt, Line;
    var train := RecentWindow(ys, end);
    WindowOfLine(ys, a, d, end);
    LineIsTracked(train, LineValue(a, d, end - |train|), d, p, |train| - 1);
    UndampedIsLine(ys[end - 1], d, p, h);
    LineShift(a, d, end - 1, h);
    LineAt(ys, a, d, end - 1);
    LineFrom(ys[end - 1], d, h);
  }

  lemma LineFrom(y: real, d: real, h: nat)
    ensures LineValue(y, d, h) == y + h as real * d
  {
  }

  lemma LineAt(ys: seq<real>, a: real, d: real, t: nat)
    requires Line(ys, a, d) && t < |ys|
    ensures ys[t] == LineValue(a, d, t)
  {
  }

  lemma LineFold(ys: seq<real>, a: real, d: real, horizon: nat, origin: nat)
    requires Line(ys, a, d) && MIN_TRAIN <= origin <= |ys| - horizon
    ensures FoldError(ys, horizon, false, origin) == 0.0
  {
    hide Line, LineValue, HoltForecastAhead, StateAt, BestFit;
    var p := BestFit(RecentWindow(ys, origin), false);
    BestFitIsBest(RecentWindow(ys, origin), false);
    LineAhead(ys, a, d, origin, horizon, p);
    LineAt(ys, a, d, origin + horizon - 1);
  }

  lemma {:induction false} LineFolds(ys: seq<real>, a: real, d: real, horizon: nat, folds: nat)
    requires Line(ys, a, d) && horizon <= |ys| && folds <= FoldCount(|ys| - horizon)
    ensures TotalError(ys, horizon, false, folds) == 0.0
  {
    hide Line, FoldError, Origin, TotalError;
    if folds == 0 {
      NoFolds(ys, horizon, false);
    } else {
      LineFolds(ys, a, d, horizon, folds - 1);
      OneMoreFold(ys, horizon, false, folds - 1);
      LineFold(ys, a, d, horizon, Origin(|ys| - horizon, folds - 1));
    }
  }

  lemma {:induction false} LineHasNoResiduals(ys: seq<real>, a: real, d: real, p: HoltParams, n: nat)
    requires Line(ys, a, d) && |ys| >= 2 && p.phi == 1.0 && n <= |ys|
    ensures ResidualSum(ys, p, n) == 0.0 && SquaresAround(ys, p, 0.0, n) == 0.0
  {
    hide Line, Predicted;
    if n > 1 {
      LineHasNoResiduals(ys, a, d, p, n - 1);
      LineIsTracked(ys, a, d, p, n - 1);
    }
  }

  /** A straight line is forecast by plain Holt with no backtest error, by its own continuation, with no interval. */
  lemma LineIsContinued(ys: seq<real>, a: real, d: real, horizon: nat, sqrt: real -> real, r: DeepForecastResult)
    requires Line(ys, a, d) && |ys| >= 3 && IsSquareRoot(sqrt) && IsForecast(ys, horizon, sqrt, r)
    ensures r.model == "holt" && r.params.phi == 1.0 && r.backtestMAEHolt == 0.0
    ensures forall i | 0 <= i < horizon ::
              var line := Max(LineValue(a, d, |ys| + i), 0.0);
              r.forecast[i] == DeepForecastPoint(i + 1, line, line, line)
  {
    hide Line, LineValue, StateAt, BestFit, Variance, FoldCount, IsSquareRoot, BacktestError, ForecastPoint,
      RecentWindow;
    LineBacktest(ys, a, d, MinInt(horizon, 5));
    var fitYs := RecentWindow(ys, |ys|);
    BestFitIsBest(fitYs, false);
    LineVariance(ys, a, d, r.params);
    NoRoot(sqrt);
    forall i | 0 <= i < horizon
      ensures var line := Max(LineValue(a, d, |ys| + i), 0.0);
        r.forecast[i] == DeepForecastPoint(i + 1, line, line, line)
    {
      LineAhead(ys, a, d, |ys|, i + 1, r.params);
      NoWidth(Final(fitYs, r.params), r.params, sqrt, i + 1);
    }
  }

  lemma NoWidth(s: State, p: HoltParams, sqrt: real -> real, h: nat)
    ensures var point := Max(HoltForecastAhead(s.level, s.trend, p, h), 0.0);
      ForecastPoint(s, p, 0.0, sqrt, h) == DeepForecastPoint(h, point, point, point)
  {
    hide HoltForecastAhead;
    assert 1.2816 * 0.0 * sqrt(h as real) == 0.0;
  }

  lemma NoRoot(sqrt: real -> real)
    requires IsSquareRoot(sqrt)
    ensures sqrt(0.0) == 0.0
  {
    ProductIsZero(sqrt(0.0), sqrt(0.0));
  }

  lemma LineBacktest(ys: seq<real>, a: real, d: real, horizon: nat)
    requires Line(ys, a, d)
    ensures BacktestError(ys, horizon, false) == 0.0
  {
    hide Line, TotalError;
    if FoldCount(|ys| - horizon) > 0 {
      LineFolds(ys, a, d, horizon, FoldCount(|ys| - horizon));
    }
  }

  lemma LineVariance(ys: seq<real>, a: real, d: real, p: HoltParams)
    requires Line(ys, a, d) && |ys| >= 3 && p.phi == 1.0
    ensures Variance(RecentWindow(ys, |ys|), p) == 0.0
  {
    hide Line, LineValue, SquaresAround, ResidualSum;
    var fitYs := RecentWindow(ys, |ys|);
    WindowOfLine(ys, a, d, |ys|);
    LineHasNoResiduals(fitYs, LineValue(a, d, |ys| - |fitYs|), d, p, |fitYs|);
  }
}
