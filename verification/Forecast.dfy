/** (Damped) Holt smoothing, its grid search, and walk-forward validation, over exact reals. */
module Forecast {
  import opened Reals

  /** `phi` is 1.0 for plain Holt and smaller for a damped trend. */
  datatype HoltParams = HoltParams(alpha: real, beta: real, phi: real)

  // ----- The recurrence -----

  datatype State = State(level: real, trend: real)

  function OneAhead(s: State, p: HoltParams): real {
    s.level + p.phi * s.trend
  }

  function Next(s: State, y: real, p: HoltParams): State {
    var level := p.alpha * y + (1.0 - p.alpha) * OneAhead(s, p);
    State(level, p.beta * (level - s.level) + (1.0 - p.beta) * p.phi * s.trend)
  }

  /** The error-correction form: the prediction moves level and trend on, and its error corrects the level by alpha and
      the trend by alpha times beta of it. */
  lemma NextCorrectsErrors(s: State, y: real, p: HoltParams)
    ensures var err := y - OneAhead(s, p);
      Next(s, y, p) == State(OneAhead(s, p) + p.alpha * err, p.phi * s.trend + p.alpha * p.beta * err)
  {
    var f := OneAhead(s, p);
    var err, damped := y - f, p.phi * s.trend;
    assert p.alpha * y + (1.0 - p.alpha) * f == f + p.alpha * err;
    assert (1.0 - p.beta) * p.phi * s.trend == (1.0 - p.beta) * damped;
    assert p.beta * (damped + p.alpha * err) == p.beta * damped + p.beta * (p.alpha * err);
    assert p.beta * (p.alpha * err) == p.alpha * p.beta * err;
    assert p.beta * damped + (1.0 - p.beta) * damped == damped;
  }

  /** The state once `ys[t]` is in. */
  function StateAt(ys: seq<real>, p: HoltParams, t: nat): State
    requires t < |ys|
  {
    if t == 0 then State(ys[0], if |ys| > 1 then ys[1] - ys[0] else 0.0)
    else Next(StateAt(ys, p, t - 1), ys[t], p)
  }

  /** What is predicted for `ys[t]` from the points before it. */
  function Predicted(ys: seq<real>, p: HoltParams, t: nat): real
    requires t < |ys|
  {
    if t == 0 then ys[0] else OneAhead(StateAt(ys, p, t - 1), p)
  }

  function Square(x: real): (r: real)
    ensures r >= 0.0
  {
    x * x
  }

  /** The squared one-step errors of the first `t` points. */
  function SquaredError(ys: seq<real>, p: HoltParams, t: nat): (r: real)
    requires t <= |ys|
    ensures r >= 0.0
  {
    if t <= 1 then 0.0 else SquaredError(ys, p, t - 1) + Square(ys[t - 1] - Predicted(ys, p, t - 1))
  }

  function Error(ys: seq<real>, p: HoltParams): real {
    SquaredError(ys, p, |ys|)
  }

  function Final(ys: seq<real>, p: HoltParams): State
    requires ys != []
  {
    StateAt(ys, p, |ys| - 1)
  }

  method HoltFit(ys: seq<real>, p: HoltParams) returns (fitted: seq<real>, sse: real, level: real, trend: real)
    requires ys != []
    ensures |fitted| == |ys| && forall t | 0 <= t < |ys| :: fitted[t] == Predicted(ys, p, t)
    ensures sse == Error(ys, p)
    ensures State(level, trend) == Final(ys, p)
  {
    hide Next, OneAhead, Square;
    level, trend, sse := ys[0], 0.0, 0.0;
    if |ys| > 1 {
      trend := ys[1] - ys[0];
    }
    fitted := [level];
    for t := 1 to |ys|
      invariant |fitted| == t && forall i | 0 <= i < t :: fitted[i] == Predicted(ys, p, i)
      invariant sse == SquaredError(ys, p, t)
      invariant State(level, trend) == StateAt(ys, p, t - 1)
    {
      var forecastPrev := level + p.phi * trend;
      assert forecastPrev == OneAhead(State(level, trend), p) by { OneAheadOf(level, trend, p); }
      var err := ys[t] - forecastPrev;
      assert err * err == Square(err) by { SquareOf(err); }
      sse := sse + err * err;
      NextOf(level, trend, ys[t], p);
      var prevLevel := level;
      level := p.alpha * ys[t] + (1.0 - p.alpha) * (level + p.phi * trend);
      trend := p.beta * (level - prevLevel) + (1.0 - p.beta) * p.phi * trend;
      fitted := fitted + [forecastPrev];
    }
  }

  lemma OneAheadOf(level: real, trend: real, p: HoltParams)
    ensures OneAhead(State(level, trend), p) == level + p.phi * trend
  {
  }

  lemma SquareOf(x: real)
    ensures Square(x) == x * x
  {
  }

  lemma NextOf(level: real, trend: real, y: real, p: HoltParams)
    ensures var l := p.alpha * y + (1.0 - p.alpha) * (level + p.phi * trend);
      Next(State(level, trend), y, p) == State(l, p.beta * (l - level) + (1.0 - p.beta) * p.phi * trend)
  {
  }

  // ----- Projection -----

  function Pow(x: real, n: nat): real {
    if n == 0 then 1.0 else x * Pow(x, n - 1)
  }

  function HoltForecastAhead(level: real, trend: real, p: HoltParams, h: nat): real {
    if p.phi >= 0.999999 then level + h as real * trend
    else
      var sum := p.phi * (1.0 - Pow(p.phi, h)) / (1.0 - p.phi);
      level + sum * trend
  }

  /** phi + phi^2 + ... + phi^h */
  function GeometricSum(phi: real, h: nat): real {
    if h == 0 then 0.0 else GeometricSum(phi, h - 1) + Pow(phi, h)
  }

  /** The recurrence run `h` steps further on its own predictions. */
  function Coast(s: State, p: HoltParams, h: nat): State {
    if h == 0 then s else var before := Coast(s, p, h - 1); Next(before, OneAhead(before, p), p)
  }

  lemma Cancel(x: real, y: real, z: real)
    requires x == y * z && z != 0.0
    ensures x / z == y
  {
  }

  lemma {:induction false} GeometricClosedForm(phi: real, h: nat)
    ensures GeometricSum(phi, h) * (1.0 - phi) == phi * (1.0 - Pow(phi, h))
  {
    if h > 0 {
      GeometricClosedForm(phi, h - 1);
      var g, q := GeometricSum(phi, h - 1), Pow(phi, h - 1);
      assert Pow(phi, h) == phi * q;
      assert (g + phi * q) * (1.0 - phi) == g * (1.0 - phi) + phi * q - phi * (phi * q);
    }
  }

  /** A damped projection is level plus a geometric sum of trends. */
  lemma DampedIsGeometric(level: real, trend: real, p: HoltParams, h: nat)
    requires p.phi < 0.999999
    ensures HoltForecastAhead(level, trend, p, h) == level + GeometricSum(p.phi, h) * trend
  {
    GeometricClosedForm(p.phi, h);
    Cancel(p.phi * (1.0 - Pow(p.phi, h)), GeometricSum(p.phi, h), 1.0 - p.phi);
  }

  function Along(s: State, g: real, q: real): State {
    State(s.level + g * s.trend, q * s.trend)
  }

  lemma {:induction false} CoastIsGeometric(s: State, p: HoltParams, h: nat)
    ensures Coast(s, p, h) == Along(s, GeometricSum(p.phi, h), Pow(p.phi, h))
  {
    hide Next, OneAhead, Along, Coast, GeometricSum, Pow;
    if h == 0 {
      NotYetOn(s, p);
    } else {
      CoastIsGeometric(s, p, h - 1);
      OneStepOn(s, p, h);
      CoastOnward(p, s, GeometricSum(p.phi, h - 1), Pow(p.phi, h - 1), GeometricSum(p.phi, h), Pow(p.phi, h));
    }
  }

  lemma NotYetOn(s: State, p: HoltParams)
    ensures Coast(s, p, 0) == Along(s, GeometricSum(p.phi, 0), Pow(p.phi, 0))
  {
    hide Next, OneAhead;
  }

  lemma OneStepOn(s: State, p: HoltParams, h: nat)
    requires h > 0
    ensures var before := Coast(s, p, h - 1);
      Coast(s, p, h) == Next(before, OneAhead(before, p), p)
    ensures Pow(p.phi, h) == p.phi * Pow(p.phi, h - 1)
    ensures GeometricSum(p.phi, h) == GeometricSum(p.phi, h - 1) + Pow(p.phi, h)
  {
    hide Next, OneAhead;
  }

  lemma CoastOnward(p: HoltParams, s: State, g: real, q: real, g': real, q': real)
    requires q' == p.phi * q && g' == g + q'
    ensures var before := Along(s, g, q);
      Next(before, OneAhead(before, p), p) == Along(s, g', q')
  {
    hide Next, OneAhead;
    CoastOnce(Along(s, g, q), p);
    Regroup(p.phi, q, s.trend);
    Distribute(g, p.phi * q, s.trend);
  }

  lemma Regroup(a: real, b: real, c: real)
    ensures a * (b * c) == a * b * c
  {
  }

  lemma CoastOnce(s: State, p: HoltParams)
    ensures Next(s, OneAhead(s, p), p) == State(s.level + p.phi * s.trend, p.phi * s.trend)
  {
    var y, b := OneAhead(s, p), p.phi * s.trend;
    assert p.alpha * y + (1.0 - p.alpha) * y == y;
    assert (1.0 - p.beta) * p.phi * s.trend == (1.0 - p.beta) * b;
    assert p.beta * b + (1.0 - p.beta) * b == b;
  }

  lemma {:induction false} GeometricSumOfOne(h: nat)
    ensures Pow(1.0, h) == 1.0 && GeometricSum(1.0, h) == h as real
  {
    if h > 0 {
      GeometricSumOfOne(h - 1);
    }
  }

  lemma {:induction false} PowBelowOne(phi: real, h: nat)
    requires 0.0 < phi < 1.0
    ensures 0.0 < Pow(phi, h) <= 1.0
    ensures h > 0 ==> Pow(phi, h) < 1.0
  {
    if h > 0 {
      PowBelowOne(phi, h - 1);
      Shrinks(phi, Pow(phi, h - 1));
    }
  }

  lemma Shrinks(phi: real, q: real)
    requires 0.0 < phi < 1.0 && 0.0 < q <= 1.0
    ensures 0.0 < phi * q < 1.0
  {
    assert phi * q <= phi * 1.0;
  }

  lemma {:induction false} PowAboveOne(phi: real, h: nat)
    requires phi > 1.0
    ensures h > 0 ==> Pow(phi, h) > 1.0
  {
    if h > 1 {
      PowAboveOne(phi, h - 1);
      assert phi * Pow(phi, h - 1) > phi * 1.0;
    } else if h == 1 {
      assert Pow(phi, 1) == phi * Pow(phi, 0);
    }
  }

  lemma {:induction false} GeometricVersusCount(phi: real, h: nat)
    requires phi > 0.0
    ensures phi < 1.0 ==> GeometricSum(phi, h) <= h as real && (h > 0 ==> GeometricSum(phi, h) < h as real)
    ensures phi > 1.0 && h > 0 ==> GeometricSum(phi, h) > h as real
  {
    if h > 0 {
      GeometricVersusCount(phi, h - 1);
      if phi < 1.0 {
        PowBelowOne(phi, h);
      } else if phi > 1.0 {
        PowAboveOne(phi, h);
      }
    }
  }

  /** The projection is the recurrence coasting on its own predictions, except for a damping factor so close to one that
      it is taken for no damping at all. */
  lemma ProjectionIsCoasting(s: State, p: HoltParams, h: nat)
    requires p.phi > 0.0
    ensures HoltForecastAhead(s.level, s.trend, p, h) == Coast(s, p, h).level <==>
              p.phi < 0.999999 || p.phi == 1.0 || s.trend == 0.0 || h == 0
  {
    hide Coast, GeometricSum, HoltForecastAhead, Pow, Next, OneAhead;
    CoastIsGeometric(s, p, h);
    var g := GeometricSum(p.phi, h);
    if p.phi < 0.999999 {
      DampedIsGeometric(s.level, s.trend, p, h);
    } else {
      UndampedIsLine(s.level, s.trend, p, h);
      EqualProducts(g, h as real, s.trend);
      if p.phi == 1.0 {
        GeometricSumOfOne(h);
      } else {
        GeometricVersusCount(p.phi, h);
        NoSteps(p.phi);
      }
    }
  }

  lemma UndampedIsLine(level: real, trend: real, p: HoltParams, h: nat)
    requires p.phi >= 0.999999
    ensures HoltForecastAhead(level, trend, p, h) == level + h as real * trend
  {
  }

  lemma NoSteps(phi: real)
    ensures GeometricSum(phi, 0) == 0.0
  {
  }

  lemma EqualProducts(x: real, y: real, c: real)
    ensures x * c == y * c <==> x == y || c == 0.0
  {
    var d := x - y;
    assert x * c == y * c + d * c;
    ProductIsZero(d, c);
  }

  lemma ProductIsZero(x: real, y: real)
    ensures x * y == 0.0 <==> x == 0.0 || y == 0.0
  {
    if x != 0.0 && x * y == 0.0 {
      Cancel(x * y, y, x);
    }
  }

  /** A damped rising trend stays at or below the straight line and strictly below its limit, however far ahead. */
  lemma DampedIsBounded(level: real, trend: real, p: HoltParams, h: nat)
    requires 0.0 < p.phi < 0.999999 && trend >= 0.0
    ensures HoltForecastAhead(level, trend, p, h) <= HoltForecastAhead(level, trend, p.(phi := 1.0), h)
    ensures HoltForecastAhead(level, trend, p, h) <= level + trend * (p.phi / (1.0 - p.phi))
    ensures trend > 0.0 ==> HoltForecastAhead(level, trend, p, h) < level + trend * (p.phi / (1.0 - p.phi))
  {
    hide HoltForecastAhead, GeometricSum;
    DampedIsGeometric(level, trend, p, h);
    UndampedIsLine(level, trend, p.(phi := 1.0), h);
    GeometricVersusCount(p.phi, h);
    var g, limit := GeometricSum(p.phi, h), p.phi / (1.0 - p.phi);
    ScaleKeepsOrder(g, h as real, trend);
    BelowLimit(p.phi, h);
    ScaleKeepsOrder(g, limit, trend);
  }

  lemma BelowLimit(phi: real, h: nat)
    requires 0.0 < phi < 1.0
    ensures GeometricSum(phi, h) < phi / (1.0 - phi)
  {
    GeometricClosedForm(phi, h);
    PowBelowOne(phi, h);
    var g, limit := GeometricSum(phi, h), phi / (1.0 - phi);
    Cancel(phi, limit, 1.0 - phi);
    var q := Pow(phi, h);
    assert phi * (1.0 - q) == phi - phi * q;
    assert phi * q > 0.0;
    if g >= limit {
      ScaleKeepsOrder(limit, g, 1.0 - phi);
    }
  }
}
