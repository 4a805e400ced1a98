/** The grid search for smoothing parameters: the first point of least in-sample error. */
module HoltGrid {
  import opened Findings
  import opened Forecast

  function Phis(allowDamping: bool): (phis: seq<real>)
    ensures |phis| > 0
    ensures allowDamping ==> forall i | 0 <= i < |phis| :: 0.0 < phis[i] < 0.999999
    ensures !allowDamping ==> phis == [1.0]
  {
    if allowDamping then [0.80, 0.85, 0.90, 0.95, 0.98] else [1.0]
  }

  function GridSize(allowDamping: bool): nat {
    |Phis(allowDamping)| * 81
  }

  /** The grid in search order: nine values of alpha per phi, nine of beta per alpha. */
  function GridPoint(allowDamping: bool, r: nat): HoltParams
    requires r < GridSize(allowDamping)
  {
    HoltParams((r / 9 % 9 + 1) as real / 10.0, (r % 9 + 1) as real / 10.0, Phis(allowDamping)[r / 81])
  }

  /** Of the first `n` grid points, the `r`-th is the first with the least error. */
  ghost predicate FirstLeast(ys: seq<real>, allowDamping: bool, r: nat, n: nat) {
    && r < n <= GridSize(allowDamping)
    && (forall q: nat | q < n :: Error(ys, GridPoint(allowDamping, r)) <= Error(ys, GridPoint(allowDamping, q)))
    && (forall q: nat | q < r :: Error(ys, GridPoint(allowDamping, r)) < Error(ys, GridPoint(allowDamping, q)))
  }

  lemma {:induction false} FirstLeastExists(ys: seq<real>, allowDamping: bool, n: nat)
    requires 0 < n <= GridSize(allowDamping)
    ensures exists r: nat :: FirstLeast(ys, allowDamping, r, n)
  {
    hide Error, GridPoint;
    if n == 1 {
      assert FirstLeast(ys, allowDamping, 0, n);
    } else {
      FirstLeastExists(ys, allowDamping, n - 1);
      var r: nat :| FirstLeast(ys, allowDamping, r, n - 1);
      LeastOfOneMore(ys, allowDamping, r, n - 1);
    }
  }

  lemma LeastOfOneMore(ys: seq<real>, allowDamping: bool, r: nat, n: nat)
    requires FirstLeast(ys, allowDamping, r, n) && n < GridSize(allowDamping)
    ensures if Error(ys, GridPoint(allowDamping, n)) < Error(ys, GridPoint(allowDamping, r))
            then FirstLeast(ys, allowDamping, n, n + 1) else FirstLeast(ys, allowDamping, r, n + 1)
  {
    hide Error, GridPoint;
  }

  lemma FirstLeastIsUnique(ys: seq<real>, allowDamping: bool, r: nat, r': nat, n: nat)
    requires FirstLeast(ys, allowDamping, r, n) && FirstLeast(ys, allowDamping, r', n)
    ensures r == r'
  {
    hide Error;
    assert Error(ys, GridPoint(allowDamping, r)) <= Error(ys, GridPoint(allowDamping, r'));
    assert Error(ys, GridPoint(allowDamping, r')) <= Error(ys, GridPoint(allowDamping, r));
  }

  /** The parameters the search settles on. */
  ghost function BestFit(ys: seq<real>, allowDamping: bool): HoltParams {
    FirstLeastExists(ys, allowDamping, GridSize(allowDamping));
    var r: nat :| FirstLeast(ys, allowDamping, r, GridSize(allowDamping));
    GridPoint(allowDamping, r)
  }

  lemma BestFitIs(ys: seq<real>, allowDamping: bool, r: nat)
    requires FirstLeast(ys, allowDamping, r, GridSize(allowDamping))
    ensures BestFit(ys, allowDamping) == GridPoint(allowDamping, r)
  {
    hide Error, GridPoint;
    var q: nat :| FirstLeast(ys, allowDamping, q, GridSize(allowDamping))
                  && BestFit(ys, allowDamping) == GridPoint(allowDamping, q);
    FirstLeastIsUnique(ys, allowDamping, r, q, GridSize(allowDamping));
  }

  predicate IsTenth(x: real) {
    x in {0.1, 0.2, 0.3, 0.4, 0.5, 0.6, 0.7, 0.8, 0.9}
  }

  /** Both smoothing parameters are tenths, and a damping factor is one of five. */
  predicate OnGrid(p: HoltParams, allowDamping: bool) {
    IsTenth(p.alpha) && IsTenth(p.beta) && if allowDamping then p.phi in {0.8, 0.85, 0.9, 0.95, 0.98} else p.phi == 1.0
  }

  lemma TenthOf(x: real) returns (i: nat)
    requires IsTenth(x)
    ensures i < 9 && x == (i + 1) as real / 10.0
  {
    i := (x * 10.0).Floor - 1;
  }

  lemma PhiAt(p: HoltParams, allowDamping: bool) returns (f: nat)
    requires OnGrid(p, allowDamping)
    ensures f < |Phis(allowDamping)| && Phis(allowDamping)[f] == p.phi
  {
    hide IsTenth;
    if allowDamping {
      f := if p.phi < 0.85 then 0 else if p.phi < 0.9 then 1 else if p.phi < 0.95 then 2
           else if p.phi < 0.98 then 3 else 4;
    } else {
      f := 0;
    }
  }

  lemma GridIsListed(p: HoltParams, allowDamping: bool)
    ensures OnGrid(p, allowDamping) <==> exists r: nat | r < GridSize(allowDamping) :: GridPoint(allowDamping, r) == p
  {
    if OnGrid(p, allowDamping) {
      var i := TenthOf(p.alpha);
      var j := TenthOf(p.beta);
      var f := PhiAt(p, allowDamping);
      GridPointAt(allowDamping, f, i, j);
      assert GridPoint(allowDamping, 81 * f + 9 * i + j) == p;
    }
    if r: nat :| r < GridSize(allowDamping) && GridPoint(allowDamping, r) == p {
      GridPointIsListed(p, allowDamping, r);
    }
  }

  lemma GridPointIsListed(p: HoltParams, allowDamping: bool, r: nat)
    requires r < GridSize(allowDamping) && GridPoint(allowDamping, r) == p
    ensures OnGrid(p, allowDamping)
  {
    assert p.phi == Phis(allowDamping)[r / 81];
    assert 1 <= r / 9 % 9 + 1 <= 9 && 1 <= r % 9 + 1 <= 9;
  }

  /** It is on the grid and no grid point fits better. */
  lemma BestFitIsBest(ys: seq<real>, allowDamping: bool)
    ensures OnGrid(BestFit(ys, allowDamping), allowDamping)
    ensures forall p | OnGrid(p, allowDamping) :: Error(ys, BestFit(ys, allowDamping)) <= Error(ys, p)
  {
    hide Error, OnGrid, GridPoint;
    FirstLeastExists(ys, allowDamping, GridSize(allowDamping));
    var r: nat :| FirstLeast(ys, allowDamping, r, GridSize(allowDamping));
    BestFitIs(ys, allowDamping, r);
    GridIsListed(GridPoint(allowDamping, r), allowDamping);
    forall p | OnGrid(p, allowDamping) ensures Error(ys, BestFit(ys, allowDamping)) <= Error(ys, p) {
      GridIsListed(p, allowDamping);
    }
  }

  lemma GridPointAt(allowDamping: bool, f: nat, i: nat, j: nat)
    requires f < |Phis(allowDamping)| && i < 9 && j < 9
    ensures 81 * f + 9 * i + j < GridSize(allowDamping)
    ensures GridPoint(allowDamping, 81 * f + 9 * i + j)
         == HoltParams((i + 1) as real / 10.0, (j + 1) as real / 10.0, Phis(allowDamping)[f])
  {
    hide Phis;
    Nines(9 * f + i, j);
    Nines(f, i);
    assert 81 * f + 9 * i + j == 9 * (9 * f + i) + j;
    assert (81 * f + 9 * i + j) / 81 == f;
  }

  lemma Nines(q: nat, m: nat)
    requires m < 9
    ensures (9 * q + m) / 9 == q && (9 * q + m) % 9 == m
  {
  }

  method FitBestHolt(ys: seq<real>, allowDamping: bool) returns (best: HoltParams)
    requires ys != []
    ensures best == BestFit(ys, allowDamping)
  {
    hide Error, GridPoint, FirstLeast;
    best := HoltParams(0.5, 0.5, 1.0);
    var bestSSE: Option<real> := None;
    ghost var r, n: nat := 0, 0;
    var phis := Phis(allowDamping);
    for f := 0 to |phis|
      invariant n == 81 * f
      invariant Found(ys, allowDamping, best, bestSSE, r, n)
    {
      var alpha := 0.1;
      ghost var i := 0;
      while alpha <= 0.9
        invariant 0 <= i <= 9 && alpha == (i + 1) as real / 10.0 && n == 81 * f + 9 * i
        invariant Found(ys, allowDamping, best, bestSSE, r, n)
        decreases 9 - i
      {
        var beta := 0.1;
        ghost var j := 0;
        while beta <= 0.9
          invariant 0 <= j <= 9 && beta == (j + 1) as real / 10.0 && n == 81 * f + 9 * i + j
          invariant Found(ys, allowDamping, best, bestSSE, r, n)
          decreases 9 - j
        {
          var p := HoltParams(alpha, beta, phis[f]);
          GridPointAt(allowDamping, f, i, j);
          var _, sse, _, _ := HoltFit(ys, p);
          Improve(ys, allowDamping, best, bestSSE, r, n, p, sse);
          if bestSSE.None? || sse < bestSSE.value {
            bestSSE, best, r := Some(sse), p, n;
          }
          beta, j, n := beta + 0.1, j + 1, n + 1;
        }
        alpha, i := alpha + 0.1, i + 1;
      }
    }
    BestFitIs(ys, allowDamping, r);
  }

  /** The running best after the first `n` grid points, of which it is the `r`-th. */
  ghost predicate Found(ys: seq<real>, allowDamping: bool, best: HoltParams, bestSSE: Option<real>, r: nat, n: nat) {
    if n == 0 then bestSSE == None
    else
      && FirstLeast(ys, allowDamping, r, n)
      && best == GridPoint(allowDamping, r) && bestSSE == Some(Error(ys, best))
  }

  lemma Improve(ys: seq<real>, allowDamping: bool, best: HoltParams, bestSSE: Option<real>, r: nat, n: nat,
                p: HoltParams, sse: real)
    requires Found(ys, allowDamping, best, bestSSE, r, n) && n < GridSize(allowDamping)
    requires p == GridPoint(allowDamping, n) && sse == Error(ys, p)
    ensures if bestSSE.None? || sse < bestSSE.value then Found(ys, allowDamping, p, Some(sse), n, n + 1)
            else Found(ys, allowDamping, best, bestSSE, r, n + 1)
  {
    hide Error, GridPoint;
    if n > 0 {
      hide FirstLeast;
      LeastOfOneMore(ys, allowDamping, r, n);
    }
  }
}
