/** Walk-forward validation: at spread-out cut points, fit on a bounded recent window and score the projection. */
module Backtest {
  import opened Forecast
  import opened HoltGrid
  import opened Reals

  const MAX_FIT_WINDOW := 400
  const MIN_TRAIN := 5
  const MAX_FOLDS := 20

  function RecentWindow(ys: seq<real>, end: nat): (train: seq<real>)
    requires end <= |ys|
    ensures |train| == if end < 400 then end else 400
    ensures forall i | 0 <= i < |train| :: train[i] == ys[end - |train| + i]
  {
    var start := if end < MAX_FIT_WINDOW then 0 else end - MAX_FIT_WINDOW;
    ys[start..end]
  }

  // ----- Where the folds are cut -----

  function FoldCount(maxOrigin: int): nat {
    if maxOrigin < MIN_TRAIN then 0
    else if maxOrigin - MIN_TRAIN + 1 <= MAX_FOLDS then maxOrigin - MIN_TRAIN + 1
    else MAX_FOLDS
  }

  function Round(x: real): (r: int)
    ensures r as real - 0.5 <= x < r as real + 0.5
  {
    (x + 0.5).Floor
  }

  function Step(maxOrigin: int): real {
    (maxOrigin - MIN_TRAIN) as real / (MAX_FOLDS - 1) as real
  }

  function Spread(i: nat, step: real): int {
    Round(i as real * step)
  }

  /** The `i`-th cut: all of them if few, otherwise evenly spread ones. */
  function Origin(maxOrigin: int, i: nat): int {
    if maxOrigin - MIN_TRAIN + 1 <= MAX_FOLDS then MIN_TRAIN + i
    else MIN_TRAIN + Spread(i, Step(maxOrigin))
  }

  /** There are as many cuts as there is room for, up to twenty; they never repeat, always leave five points to train on
      and something to predict, reach both ends, and lie as evenly in between as whole numbers can. */
  lemma OriginsSpread(maxOrigin: int)
    requires maxOrigin >= MIN_TRAIN
    ensures FoldCount(maxOrigin) == if maxOrigin - 4 < 20 then maxOrigin - 4 else 20
    ensures forall i, j | 0 <= i < j < FoldCount(maxOrigin) :: Origin(maxOrigin, i) < Origin(maxOrigin, j)
    ensures forall i | 0 <= i < FoldCount(maxOrigin) :: MIN_TRAIN <= Origin(maxOrigin, i) <= maxOrigin
    ensures Origin(maxOrigin, 0) == 5 && Origin(maxOrigin, FoldCount(maxOrigin) - 1) == maxOrigin
    ensures FoldCount(maxOrigin) == 20 ==> forall i | 0 <= i < 20 ::
      -19 <= 38 * (Origin(maxOrigin, i) - 5) - 2 * (i * (maxOrigin - 5)) <= 19
  {
    hide Origin, Round;
    if FoldCount(maxOrigin) == 20 {
      forall i | 0 <= i < 20 ensures -19 <= 38 * (Origin(maxOrigin, i) - 5) - 2 * (i * (maxOrigin - 5)) <= 19 {
        OriginIsEven(maxOrigin, i);
      }
    }
    forall i, j | 0 <= i < j < FoldCount(maxOrigin) ensures Origin(maxOrigin, i) < Origin(maxOrigin, j) {
      OriginsGrow(maxOrigin, i, j);
    }
    OriginEnds(maxOrigin);
    forall i | 0 <= i < FoldCount(maxOrigin) ensures MIN_TRAIN <= Origin(maxOrigin, i) <= maxOrigin {
      if i > 0 {
        OriginsGrow(maxOrigin, 0, i);
      }
      if i < FoldCount(maxOrigin) - 1 {
        OriginsGrow(maxOrigin, i, FoldCount(maxOrigin) - 1);
      }
    }
  }

  lemma StepIsLong(maxOrigin: int)
    requires maxOrigin - MIN_TRAIN + 1 > MAX_FOLDS
    ensures Step(maxOrigin) > 1.0 && 19.0 * Step(maxOrigin) == (maxOrigin - MIN_TRAIN) as real
  {
  }

  lemma OriginIsEven(maxOrigin: int, i: nat)
    requires FoldCount(maxOrigin) == 20
    ensures -19 <= 38 * (Origin(maxOrigin, i) - 5) - 2 * (i * (maxOrigin - 5)) <= 19
  {
    hide Round;
    if maxOrigin - MIN_TRAIN + 1 > MAX_FOLDS {
      hide Step, Origin;
      var step := Step(maxOrigin);
      StepIsLong(maxOrigin);
      SpreadOrigin(maxOrigin, i, step);
      NineteenSteps(i as real, step, (maxOrigin - 5) as real);
      WholeProduct(i, maxOrigin - 5);
      RoundIsNear(i as real * step, i * (maxOrigin - 5));
    }
  }

  lemma NineteenSteps(i: real, step: real, length: real)
    requires 19.0 * step == length
    ensures 19.0 * (i * step) == i * length
  {
  }

  lemma WholeProduct(i: int, n: int)
    ensures i as real * n as real == (i * n) as real
  {
  }

  lemma RoundIsNear(x: real, n: int)
    requires 19.0 * x == n as real
    ensures -19 <= 38 * Round(x) - 2 * n <= 19
  {
    var r := Round(x);
    assert 38.0 * r as real - 19.0 <= 2.0 * n as real < 38.0 * r as real + 19.0;
  }

  lemma OriginsGrow(maxOrigin: int, i: nat, j: nat)
    requires i < j < FoldCount(maxOrigin)
    ensures Origin(maxOrigin, i) < Origin(maxOrigin, j)
  {
    if maxOrigin - MIN_TRAIN + 1 > MAX_FOLDS {
      hide Spread, Origin, Step;
      StepIsLong(maxOrigin);
      SpreadOrigin(maxOrigin, i, Step(maxOrigin));
      SpreadOrigin(maxOrigin, j, Step(maxOrigin));
      Steps(i, j, Step(maxOrigin));
    }
  }

  lemma OriginEnds(maxOrigin: int)
    requires maxOrigin >= MIN_TRAIN
    ensures Origin(maxOrigin, 0) == MIN_TRAIN && Origin(maxOrigin, FoldCount(maxOrigin) - 1) == maxOrigin
  {
    if maxOrigin - MIN_TRAIN + 1 > MAX_FOLDS {
      StepIsLong(maxOrigin);
      assert (MAX_FOLDS - 1) as real * Step(maxOrigin) == (maxOrigin - MIN_TRAIN) as real;
      assert 0.0 * Step(maxOrigin) == 0.0;
      RoundsWhole(maxOrigin - MIN_TRAIN);
      RoundsWhole(0);
    }
  }

  lemma RoundsWhole(n: int)
    ensures Round(n as real) == n
  {
  }

  lemma Steps(i: nat, j: nat, step: real)
    requires i < j && step > 1.0
    ensures Spread(i, step) < Spread(j, step)
  {
    var d := (j - i) as real;
    assert j as real == i as real + d;
    Distribute(i as real, d, step);
    Grow(d, step);
    RoundsApart(i as real * step, j as real * step);
  }

  lemma RoundsApart(x: real, y: real)
    requires x + 1.0 <= y
    ensures Round(x) < Round(y)
  {
  }

  lemma Grow(d: real, step: real)
    requires d >= 1.0 && step > 1.0
    ensures d * step >= 1.0
  {
    assert (d - 1.0) * step >= 0.0;
    assert d * step == (d - 1.0) * step + step;
  }

  lemma SpreadOrigin(maxOrigin: int, i: nat, step: real)
    requires maxOrigin - MIN_TRAIN + 1 > MAX_FOLDS && step == Step(maxOrigin)
    ensures Origin(maxOrigin, i) == MIN_TRAIN + Spread(i, step)
  {
  }

  lemma SpreadIs(i: nat, step: real)
    ensures Spread(i, step) == Round(i as real * step)
  {
  }

  lemma FewOrigins(maxOrigin: int, i: nat)
    requires maxOrigin - MIN_TRAIN + 1 <= MAX_FOLDS
    ensures Origin(maxOrigin, i) == MIN_TRAIN + i
  {
  }

  method FoldOrigins(maxOrigin: nat) returns (origins: seq<nat>)
    requires maxOrigin >= MIN_TRAIN
    ensures |origins| == FoldCount(maxOrigin)
    ensures forall i | 0 <= i < |origins| :: origins[i] == Origin(maxOrigin, i)
    ensures forall i | 0 <= i < |origins| :: MIN_TRAIN <= origins[i] <= maxOrigin
  {
    hide Round, Step, Spread, Origin;
    OriginsSpread(maxOrigin);
    origins := [];
    if maxOrigin - MIN_TRAIN + 1 <= MAX_FOLDS {
      for o := MIN_TRAIN to maxOrigin + 1
        invariant |origins| == o - MIN_TRAIN
        invariant forall i | 0 <= i < |origins| :: origins[i] == Origin(maxOrigin, i)
      {
        FewOrigins(maxOrigin, o - MIN_TRAIN);
        origins := origins + [o];
      }
    } else {
      var step := Step(maxOrigin);
      for i := 0 to MAX_FOLDS
        invariant |origins| == i
        invariant forall j | 0 <= j < i :: origins[j] == Origin(maxOrigin, j)
      {
        SpreadOrigin(maxOrigin, i, step);
        SpreadIs(i, step);
        origins := origins + [MIN_TRAIN + Round(i as real * step)];
      }
    }
  }

  // ----- Scoring -----

  function Abs(x: real): (r: real)
    ensures r >= 0.0 && (r == x || r == -x)
  {
    if x < 0.0 then -x else x
  }

  /** How far off the projection from one cut is: only points before the cut are fitted. */
  ghost function FoldError(ys: seq<real>, horizon: nat, allowDamping: bool, origin: nat): (r: real)
    requires MIN_TRAIN <= origin <= |ys| - horizon
    ensures r >= 0.0
  {
    var train := RecentWindow(ys, origin);
    var p := BestFit(train, allowDamping);
    var s := Final(train, p);
    Abs(HoltForecastAhead(s.level, s.trend, p, horizon) - ys[origin + horizon - 1])
  }

  ghost function TotalError(ys: seq<real>, horizon: nat, allowDamping: bool, folds: nat): (r: real)
    requires horizon <= |ys| && folds <= FoldCount(|ys| - horizon)
    ensures r >= 0.0
  {
    if folds == 0 then 0.0
    else
      OriginsSpread(|ys| - horizon);
      TotalError(ys, horizon, allowDamping, folds - 1)
        + FoldError(ys, horizon, allowDamping, Origin(|ys| - horizon, folds - 1))
  }

  ghost function BacktestError(ys: seq<real>, horizon: nat, allowDamping: bool): (r: real)
    ensures r >= 0.0
  {
    var folds := FoldCount(|ys| - horizon);
    if folds == 0 then 0.0 else TotalError(ys, horizon, allowDamping, folds) / folds as real
  }

  lemma NoFolds(ys: seq<real>, horizon: nat, allowDamping: bool)
    requires horizon <= |ys|
    ensures TotalError(ys, horizon, allowDamping, 0) == 0.0
  {
  }

  lemma OneMoreFold(ys: seq<real>, horizon: nat, allowDamping: bool, i: nat)
    requires horizon <= |ys| && i < FoldCount(|ys| - horizon)
    ensures MIN_TRAIN <= Origin(|ys| - horizon, i) <= |ys| - horizon
    ensures TotalError(ys, horizon, allowDamping, i + 1)
         == TotalError(ys, horizon, allowDamping, i) + FoldError(ys, horizon, allowDamping, Origin(|ys| - horizon, i))
  {
    hide FoldError, Origin;
    OriginsSpread(|ys| - horizon);
  }

  method BacktestMAE(ys: seq<real>, horizon: nat, allowDamping: bool) returns (mae: real, folds: nat)
    ensures folds == FoldCount(|ys| - horizon)
    ensures mae == BacktestError(ys, horizon, allowDamping)
  {
    hide TotalError;
    var maxOrigin := |ys| - horizon;
    if maxOrigin < MIN_TRAIN {
      return 0.0, 0;
    }
    var origins := FoldOrigins(maxOrigin);
    var totalAbsErr := ScoreFolds(ys, horizon, allowDamping, origins);
    return totalAbsErr / |origins| as real, |origins|;
  }

  method ScoreFolds(ys: seq<real>, horizon: nat, allowDamping: bool, origins: seq<nat>) returns (totalAbsErr: real)
    requires horizon <= |ys| && |origins| == FoldCount(|ys| - horizon)
    requires forall i | 0 <= i < |origins| :: origins[i] == Origin(|ys| - horizon, i)
    ensures totalAbsErr == TotalError(ys, horizon, allowDamping, |origins|)
  {
    hide Origin, FoldError, TotalError, FoldCount;
    totalAbsErr := 0.0;
    NoFolds(ys, horizon, allowDamping);
    for i := 0 to |origins|
      invariant totalAbsErr == TotalError(ys, horizon, allowDamping, i)
    {
      OneMoreFold(ys, horizon, allowDamping, i);
      var err := ScoreFold(ys, horizon, allowDamping, origins[i]);
      totalAbsErr := totalAbsErr + err;
    }
  }

  method ScoreFold(ys: seq<real>, horizon: nat, allowDamping: bool, origin: nat) returns (err: real)
    requires MIN_TRAIN <= origin <= |ys| - horizon
    ensures err == FoldError(ys, horizon, allowDamping, origin)
  {
    hide HoltForecastAhead, StateAt;
    var train := RecentWindow(ys, origin);
    var params := FitBestHolt(train, allowDamping);
    var _, _, level, trend := HoltFit(train, params);
    assert State(level, trend) == Final(train, params);
    var predicted := HoltForecastAhead(level, trend, params, horizon);
    err := Abs(predicted - ys[origin + horizon - 1]);
  }
}
