/** What compaction does to a workload's trend: the order and the total stay, the growth changes by a known amount. */
module GrowthRuns {
  import opened DeployEvents
  import opened Growth
  import opened StoreRuns
  import opened Sums
  import opened Tables

  // ----- Sums by slot -----

  /** The daily slot a row falls into once folded. */
  function FoldedSlot(r: RawRow): Slot {
    SlotOfDay(KeyOf(r))
  }

  /** The rows whose daily slot is `s`. */
  function FoldedAt(s: Slot): RawRow -> bool {
    OnKey(DayAtSlot(s))
  }

  lemma {:induction false} KeysMembers(rows: seq<RawRow>)
    ensures Keys(rows) == set r | r in rows :: KeyOf(r)
  {
    if rows != [] {
      KeysMembers(rows[..|rows| - 1]);
      assert rows == rows[..|rows| - 1] + [rows[|rows| - 1]];
    }
  }

  lemma DaySlotsAre(rows: seq<RawRow>)
    ensures DaySlots(RollupOf(rows).Keys) == set r | r in rows :: FoldedSlot(r)
  {
    KeysMembers(rows);
    assert RollupOf(rows).Keys == Keys(rows);
    forall s ensures s in DaySlots(Keys(rows)) <==> s in set r | r in rows :: FoldedSlot(r) {
      if r :| r in rows && FoldedSlot(r) == s {
        assert KeyOf(r) in Keys(rows);
      }
    }
  }

  // ----- Rollup points come before raw points -----

  /** The tables after a single compaction of everything. */
  ghost function CompactedOnce(all: seq<RawRow>, m: int): Db {
    Db(Newer(all, m), RollupOf(Older(all, m)))
  }

  /** The tables of a timely run, by its largest cutoff. */
  lemma TimelyTables(steps: seq<Step>)
    requires Timely(steps)
    ensures Run(steps).db == CompactedOnce(AllRows(Run(steps).log), MaxCutoff(steps))
  {
    hide Timely, Run;
    OneCompactionSuffices(steps);
    RollupFromNothing(Older(AllRows(Run(steps).log), MaxCutoff(steps)));
  }

  lemma RollupBelowCutoff(rows: seq<RawRow>, m: int, s: Slot)
    ensures s in DaySlots(RollupOf(Older(rows, m)).Keys) ==> s.ts < m
    ensures s in RawSlots(Newer(rows, m)) ==> s.ts >= m
  {
    DaySlotsAre(Older(rows, m));
    FilterMembers(rows, m);
  }

  /** In a timely run no timestamp is both, and every rollup point is earlier than every raw point. */
  lemma RollupPointsFirst(steps: seq<Step>, q: Workload, trend: seq<WorkloadCostPoint>, i: nat, j: nat)
    requires Timely(steps) && IsTrend(Run(steps).db, q, trend) && i < |trend| && j < |trend|
    requires Slot(q, trend[i].ts) in DaySlots(Run(steps).db.daily.Keys)
             && Slot(q, trend[j].ts) in RawSlots(Run(steps).db.raw)
    ensures i < j && trend[i].ts < trend[j].ts
  {
    hide Run, RawSlots, DaySlots;
    TimelyTables(steps);
    RollupBelowCutoff(AllRows(Run(steps).log), MaxCutoff(steps), Slot(q, trend[i].ts));
    RollupBelowCutoff(AllRows(Run(steps).log), MaxCutoff(steps), Slot(q, trend[j].ts));
  }

  // ----- The total is kept -----

  function OfWorkload(q: Workload): RawRow -> bool {
    (r: RawRow) => SlotOf(r).workload == q
  }

  function WorkloadTotal(rows: seq<RawRow>, q: Workload): real {
    CostWhere(rows, OfWorkload(q))
  }

  function TrendTotal(trend: seq<WorkloadCostPoint>): real {
    if trend == [] then 0.0 else TrendTotal(trend[..|trend| - 1]) + trend[|trend| - 1].costHigh
  }

  /** A way of placing a workload's rows on timestamps: `at(t)` says which rows fall on `t`. */
  ghost predicate Places(rows: seq<RawRow>, q: Workload, at: nat -> RawRow -> bool, place: RawRow -> nat) {
    forall r, t: nat | r in rows :: at(t)(r) <==> SlotOf(r).workload == q && place(r) == t
  }

  ghost function AtTime(rows: seq<RawRow>, at: nat -> RawRow -> bool): nat -> real {
    (t: nat) => CostWhere(rows, at(t))
  }

  /** Summing by timestamp over all timestamps is summing over all rows. */
  lemma {:induction false} TimesCoverRows(rows: seq<RawRow>, q: Workload, at: nat -> RawRow -> bool,
                                          place: RawRow -> nat, times: set<nat>)
    requires Places(rows, q, at, place) && forall r | r in rows && SlotOf(r).workload == q :: place(r) in times
    ensures Sum(times, AtTime(rows, at)) == WorkloadTotal(rows, q)
  {
    if rows == [] {
      SumZero(times, AtTime(rows, at));
    } else {
      var front, r := rows[..|rows| - 1], rows[|rows| - 1];
      assert rows == front + [r];
      TimesCoverRows(front, q, at, place, times);
      forall t: nat ensures AtTime(rows, at)(t)
                         == AtTime(front, at)(t)
                              + if SlotOf(r).workload == q && place(r) == t then r.finding.costHigh else 0.0
      {
        CostOneMore(front, r, at(t));
      }
      CostOneMore(front, r, OfWorkload(q));
      OneMoreAtTime(times, AtTime(front, at), AtTime(rows, at), SlotOf(r).workload == q, place(r), r.finding.costHigh);
    }
  }

  lemma OneMoreAtTime(times: set<nat>, f: nat -> real, g: nat -> real, here: bool, time: nat, cost: real)
    requires forall t :: g(t) == f(t) + if here && time == t then cost else 0.0
    requires here ==> time in times
    ensures Sum(times, g) == Sum(times, f) + if here then cost else 0.0
  {
    if here {
      SumAddAt(times, f, g, time, cost);
      assert times + {time} == times;
    } else {
      SumCongruence(times, f, g);
    }
  }

  ghost function CostOver(db: Db, q: Workload): nat -> real {
    (t: nat) => CostAt(db, Slot(q, t))
  }

  /** Points in order, each with the cost `f` has for its time. */
  ghost predicate Plots(trend: seq<WorkloadCostPoint>, f: nat -> real) {
    && (forall i, j | 0 <= i < j < |trend| :: trend[i].ts < trend[j].ts)
    && (forall i | 0 <= i < |trend| :: trend[i].costHigh == f(trend[i].ts))
  }

  lemma {:induction false} TrendSums(trend: seq<WorkloadCostPoint>, f: nat -> real)
    requires Plots(trend, f)
    ensures TrendTotal(trend) == Sum(Times(trend), f)
  {
    if trend == [] {
      assert Times(trend) == {};
    } else {
      hide Times, Sum, Plots;
      var front, p := trend[..|trend| - 1], trend[|trend| - 1];
      PlotsFront(trend, front, p, f);
      TrendSums(front, f);
      SumAddAt(Times(front), f, f, p.ts, p.costHigh);
    }
  }

  lemma PlotsFront(trend: seq<WorkloadCostPoint>, front: seq<WorkloadCostPoint>, p: WorkloadCostPoint, f: nat -> real)
    requires Plots(trend, f) && trend == front + [p]
    ensures Plots(front, f) && p.costHigh == f(p.ts)
    ensures Times(trend) == Times(front) + {p.ts} && p.ts !in Times(front)
  {
    assert forall x :: x in trend <==> x in front || x == p;
    assert forall i | 0 <= i < |front| :: front[i] == trend[i];
    assert trend[|front|] == p;
  }

  /** The points of a trend are those of both tiers. */
  lemma TrendTimes(db: Db, rows: seq<RawRow>, q: Workload, trend: seq<WorkloadCostPoint>)
    requires db.daily == RollupOf(rows) && IsTrend(db, q, trend)
    ensures forall r | r in db.raw && SlotOf(r).workload == q :: SlotOf(r).ts in Times(trend)
    ensures forall r | r in rows && SlotOf(r).workload == q :: FoldedSlot(r).ts in Times(trend)
  {
    DaySlotsAre(rows);
    forall s | s in Slots(db) && s.workload == q ensures s.ts in Times(trend) {
      var i :| 0 <= i < |trend| && trend[i].ts == s.ts;
      assert trend[i] in trend;
    }
    forall r | r in rows && SlotOf(r).workload == q ensures FoldedSlot(r).ts in Times(trend) {
      assert FoldedSlot(r) in Slots(db);
    }
    forall r | r in db.raw && SlotOf(r).workload == q ensures SlotOf(r).ts in Times(trend) {
      assert SlotOf(r) in Slots(db);
    }
  }

  /** After any run of ingests and compactions a trend adds up to everything ever ingested for its workload. */
  lemma TrendKeepsTotal(steps: seq<Step>, q: Workload, trend: seq<WorkloadCostPoint>)
    requires IsTrend(Run(steps).db, q, trend)
    ensures TrendTotal(trend) == WorkloadTotal(AllRows(Run(steps).log), q)
  {
    hide Run, Slots, CostWhere, TrendTotal, AllRows, FoldedRows, Unfolded;
    var w := Run(steps);
    RunIsFaithful(steps);
    var folded, raw := FoldedRows(w.log), w.db.raw;
    TrendTimes(w.db, folded, q, trend);
    TrendSums(trend, CostOver(w.db, q));
    TierTotals(w.db, folded, q, Times(trend));
    LogSplitsCost(w.log, OfWorkload(q));
  }

  lemma TierTotals(db: Db, folded: seq<RawRow>, q: Workload, times: set<nat>)
    requires db.daily == RollupOf(folded)
    requires forall r | r in db.raw && SlotOf(r).workload == q :: SlotOf(r).ts in times
    requires forall r | r in folded && SlotOf(r).workload == q :: FoldedSlot(r).ts in times
    ensures Sum(times, CostOver(db, q)) == WorkloadTotal(db.raw, q) + WorkloadTotal(folded, q)
  {
    hide CostWhere;
    var rawAt := (t: nat) => AtSlot(Slot(q, t));
    var foldedAt := (t: nat) => FoldedAt(Slot(q, t));
    forall t: nat ensures CostOver(db, q)(t) == AtTime(db.raw, rawAt)(t) + AtTime(folded, foldedAt)(t) {
      RollupCost(folded, DayAtSlot(Slot(q, t)));
    }
    SumAdds(times, AtTime(db.raw, rawAt), AtTime(folded, foldedAt), CostOver(db, q));
    TimesCoverRows(db.raw, q, rawAt, r => SlotOf(r).ts, times);
    TimesCoverRows(folded, q, foldedAt, r => FoldedSlot(r).ts, times);
  }

  // ----- The growth -----

  function Delta(trend: seq<WorkloadCostPoint>): real
    requires trend != []
  {
    trend[|trend| - 1].costHigh - trend[0].costHigh
  }

  /** Later snapshots of the workload on the day of its first one, below the cutoff. */
  function LaterThatDay(q: Workload, first: nat, m: int): RawRow -> bool {
    (r: RawRow) => SlotOf(r).workload == q && DayOf(r.reportedAt) == DayOf(first) && first < r.reportedAt < m
  }

  /** Earlier snapshots of the workload on the day of its last one. */
  function EarlierThatDay(q: Workload, last: nat): RawRow -> bool {
    (r: RawRow) => SlotOf(r).workload == q && DayOf(r.reportedAt) == DayOf(last) && r.reportedAt < last
  }

  /** What folding adds to the first point of a trend. */
  function FirstDayRest(rows: seq<RawRow>, q: Workload, first: nat, m: int): real {
    CostWhere(rows, LaterThatDay(q, first, m))
  }

  /** What folding adds to its last point, once that is folded too. */
  function LastDayRest(rows: seq<RawRow>, q: Workload, last: nat, m: int): real {
    if last < m then CostWhere(rows, EarlierThatDay(q, last)) else 0.0
  }

  /** Where a timestamp of the plain trend is found after compaction. */
  function PointAfter(t: nat, m: int): nat {
    if t < m then DayOf(t) else t
  }

  /** The workload's first and last snapshots. */
  ghost predicate Spans(rows: seq<RawRow>, q: Workload, first: nat, last: nat) {
    && (exists r | r in rows :: SlotOf(r) == Slot(q, first))
    && (exists r | r in rows :: SlotOf(r) == Slot(q, last))
    && (forall r | r in rows && SlotOf(r).workload == q :: first <= r.reportedAt <= last)
  }

  /** What a compacted trend says at one timestamp. */
  lemma CompactedCost(all: seq<RawRow>, m: int, s: Slot)
    ensures CostAt(CompactedOnce(all, m), s)
         == CostWhere(all, NotBelow(m, AtSlot(s))) + CostWhere(all, Below(m, FoldedAt(s)))
  {
    RollupCost(Older(all, m), DayAtSlot(s));
    CostFiltered(all, m, AtSlot(s));
    CostFiltered(all, m, FoldedAt(s));
  }

  lemma OnThatDay(r: RawRow, q: Workload, t: nat)
    ensures FoldedAt(Slot(q, DayOf(t)))(r) <==> SlotOf(r).workload == q && DayOf(r.reportedAt) == DayOf(t)
    ensures FoldedSlot(r) == Slot(q, DayOf(t)) <==> SlotOf(r).workload == q && DayOf(r.reportedAt) == DayOf(t)
  {
    assert DayAtSlot(Slot(q, DayOf(t)))(KeyOf(r)) == (FoldedSlot(r) == Slot(q, DayOf(t)));
  }

  lemma CompactedFirst(all: seq<RawRow>, m: int, q: Workload, first: nat)
    requires forall r | r in all && SlotOf(r).workload == q :: first <= r.reportedAt
    ensures CostAt(CompactedOnce(all, m), Slot(q, PointAfter(first, m)))
         == RawSum(all, Slot(q, first)) + FirstDayRest(all, q, first, m)
  {
    hide CostAt, CostWhere, DayOf;
    var s := Slot(q, PointAfter(first, m));
    CompactedCost(all, m, s);
    if first < m {
      CostOfNone(all, NotBelow(m, AtSlot(s)));
      forall r
        ensures Below(m, FoldedAt(s))(r)
           <==> r.reportedAt < m && SlotOf(r).workload == q && DayOf(r.reportedAt) == DayOf(first)
      {
        OnThatDay(r, q, first);
      }
      CostSplits(all, Below(m, FoldedAt(s)), AtSlot(Slot(q, first)), LaterThatDay(q, first, m));
    } else {
      StillRaw(all, m, s);
      CostOfNone(all, LaterThatDay(q, first, m));
    }
  }

  lemma StillRaw(all: seq<RawRow>, m: int, s: Slot)
    requires s.ts >= m
    ensures CostWhere(all, NotBelow(m, AtSlot(s))) == RawSum(all, s)
    ensures CostWhere(all, Below(m, FoldedAt(s))) == 0.0
  {
    hide CostWhere;
    CostCongruence(all, NotBelow(m, AtSlot(s)), AtSlot(s));
    forall r ensures !Below(m, FoldedAt(s))(r) {
      assert DayAtSlot(s)(KeyOf(r)) == (FoldedSlot(r) == s);
    }
    CostOfNone(all, Below(m, FoldedAt(s)));
  }

  lemma CompactedLast(all: seq<RawRow>, m: int, q: Workload, last: nat)
    requires forall r | r in all && SlotOf(r).workload == q :: r.reportedAt <= last
    ensures CostAt(CompactedOnce(all, m), Slot(q, PointAfter(last, m)))
         == RawSum(all, Slot(q, last)) + LastDayRest(all, q, last, m)
  {
    hide CostAt, CostWhere, DayOf;
    var s := Slot(q, PointAfter(last, m));
    CompactedCost(all, m, s);
    if last < m {
      CostOfNone(all, NotBelow(m, AtSlot(s)));
      forall r
        ensures Below(m, FoldedAt(s))(r)
           <==> r.reportedAt < m && SlotOf(r).workload == q && DayOf(r.reportedAt) == DayOf(last)
      {
        OnThatDay(r, q, last);
      }
      CostSplits(all, Below(m, FoldedAt(s)), AtSlot(Slot(q, last)), EarlierThatDay(q, last));
    } else {
      StillRaw(all, m, s);
    }
  }

  lemma PlainCost(all: seq<RawRow>, s: Slot)
    ensures CostAt(Db(all, map[]), s) == RawSum(all, s)
    ensures Slots(Db(all, map[])) == RawSlots(all)
  {
    assert Sum({}, DayCost(map[], s)) == 0.0;
  }

  /** The ends of a trend are its least and greatest timestamps. */
  lemma TrendEnds(db: Db, q: Workload, trend: seq<WorkloadCostPoint>, least: nat, greatest: nat)
    requires IsTrend(db, q, trend) && Slot(q, least) in Slots(db) && Slot(q, greatest) in Slots(db)
    requires forall s | s in Slots(db) && s.workload == q :: least <= s.ts <= greatest
    ensures trend != [] && trend[0].ts == least && trend[|trend| - 1].ts == greatest
    ensures trend[0].costHigh == CostAt(db, Slot(q, least))
            && trend[|trend| - 1].costHigh == CostAt(db, Slot(q, greatest))
    ensures |trend| == 1 <==> least == greatest
  {
    hide Slots, CostAt;
    var i :| 0 <= i < |trend| && trend[i].ts == least;
    var j :| 0 <= j < |trend| && trend[j].ts == greatest;
    assert Slot(q, trend[0].ts) in Slots(db) && Slot(q, trend[|trend| - 1].ts) in Slots(db);
    assert Slot(q, trend[0].ts).workload == q && Slot(q, trend[|trend| - 1].ts).workload == q;
  }

  lemma PlainRows(all: seq<RawRow>, q: Workload, plain: seq<WorkloadCostPoint>)
    requires IsTrend(Db(all, map[]), q, plain) && plain != []
    ensures Spans(all, q, plain[0].ts, plain[|plain| - 1].ts)
    ensures plain[0].costHigh == RawSum(all, Slot(q, plain[0].ts))
    ensures plain[|plain| - 1].costHigh == RawSum(all, Slot(q, plain[|plain| - 1].ts))
  {
    hide RawSum;
    PlainCost(all, Slot(q, plain[0].ts));
    PlainCost(all, Slot(q, plain[|plain| - 1].ts));
    forall r | r in all && SlotOf(r).workload == q ensures plain[0].ts <= r.reportedAt <= plain[|plain| - 1].ts {
      assert SlotOf(r) in RawSlots(all);
      var i :| 0 <= i < |plain| && plain[i].ts == r.reportedAt;
    }
  }

  lemma PointsMonotone(a: nat, b: nat, m: int)
    requires a <= b
    ensures PointAfter(a, m) <= PointAfter(b, m)
  {
  }

  /** Every row stands at its point, on whichever side of the cutoff it is. */
  lemma CompactedSlots(all: seq<RawRow>, m: int, s: Slot)
    ensures s in Slots(CompactedOnce(all, m)) <==>
              exists r | r in all :: SlotOf(r).workload == s.workload && PointAfter(r.reportedAt, m) == s.ts
  {
    hide DayOf;
    DaySlotsAre(Older(all, m));
    FilterMembers(all, m);
    if s in RawSlots(Newer(all, m)) {
      var r :| r in Newer(all, m) && SlotOf(r) == s;
      assert SlotOf(r).workload == s.workload && PointAfter(r.reportedAt, m) == s.ts;
    }
    if s in DaySlots(RollupOf(Older(all, m)).Keys) {
      var r :| r in Older(all, m) && FoldedSlot(r) == s;
      assert SlotOf(r).workload == s.workload && PointAfter(r.reportedAt, m) == s.ts;
    }
    if r :| r in all && SlotOf(r).workload == s.workload && PointAfter(r.reportedAt, m) == s.ts {
      assert if r.reportedAt < m then r in Older(all, m) && FoldedSlot(r) == s
             else r in Newer(all, m) && SlotOf(r) == s;
    }
  }

  lemma CompactedSpan(all: seq<RawRow>, m: int, q: Workload, first: nat, last: nat)
    requires Spans(all, q, first, last)
    ensures var db := CompactedOnce(all, m);
      && Slot(q, PointAfter(first, m)) in Slots(db) && Slot(q, PointAfter(last, m)) in Slots(db)
      && forall s | s in Slots(db) && s.workload == q :: PointAfter(first, m) <= s.ts <= PointAfter(last, m)
  {
    hide Slots, PointAfter, CompactedOnce;
    CompactedSlots(all, m, Slot(q, PointAfter(first, m)));
    CompactedSlots(all, m, Slot(q, PointAfter(last, m)));
    forall s | s in Slots(CompactedOnce(all, m)) && s.workload == q
      ensures PointAfter(first, m) <= s.ts <= PointAfter(last, m)
    {
      CompactedSlots(all, m, s);
      var r :| r in all && SlotOf(r).workload == q && PointAfter(r.reportedAt, m) == s.ts;
      PointsMonotone(first, r.reportedAt, m);
      PointsMonotone(r.reportedAt, last, m);
    }
  }

  /** What compaction does to a workload's growth, whatever has been folded: it takes away what the other folded
      snapshots of its first day cost and, once its last day is folded too, adds what the other snapshots of that day
      cost. The workload is left with a single point exactly when everything it has falls on one folded day, or it had
      one point before. */
  lemma GrowthAfterCompaction(steps: seq<Step>, q: Workload, trend: seq<WorkloadCostPoint>,
                              plain: seq<WorkloadCostPoint>)
    requires Timely(steps) && IsTrend(Run(steps).db, q, trend)
    requires IsTrend(Db(AllRows(Run(steps).log), map[]), q, plain) && plain != []
    ensures var all, m, first, last := AllRows(Run(steps).log), MaxCutoff(steps), plain[0].ts, plain[|plain| - 1].ts;
      && trend != [] && trend[0].ts == PointAfter(first, m) && trend[|trend| - 1].ts == PointAfter(last, m)
      && Delta(trend) == Delta(plain) - FirstDayRest(all, q, first, m) + LastDayRest(all, q, last, m)
      && (|trend| == 1 <==> |plain| == 1 || (last < m && DayOf(first) == DayOf(last)))
  {
    hide Run, IsTrend, Slots, RawSum, CostAt, FirstDayRest, LastDayRest, PointAfter, AllRows;
    TimelyTables(steps);
    var all, m := AllRows(Run(steps).log), MaxCutoff(steps);
    var first, last := plain[0].ts, plain[|plain| - 1].ts;
    PlainRows(all, q, plain);
    PlainSlots(all, q, plain);
    CompactedSpan(all, m, q, first, last);
    TrendEnds(Run(steps).db, q, trend, PointAfter(first, m), PointAfter(last, m));
    CompactedFirst(all, m, q, first);
    CompactedLast(all, m, q, last);
    OnePoint(first, last, m);
  }

  lemma PlainSlots(all: seq<RawRow>, q: Workload, plain: seq<WorkloadCostPoint>)
    requires IsTrend(Db(all, map[]), q, plain) && plain != []
    ensures plain[0].ts <= plain[|plain| - 1].ts && (|plain| == 1 <==> plain[0].ts == plain[|plain| - 1].ts)
  {
  }

  lemma OnePoint(first: nat, last: nat, m: int)
    requires first <= last
    ensures PointAfter(first, m) == PointAfter(last, m) <==> first == last || (last < m && DayOf(first) == DayOf(last))
  {
  }

  /** While the last snapshot is still raw, the growth is kept exactly when the rest of the first day costs nothing. */
  lemma GrowthWhileRecent(steps: seq<Step>, q: Workload, trend: seq<WorkloadCostPoint>, plain: seq<WorkloadCostPoint>)
    requires Timely(steps) && IsTrend(Run(steps).db, q, trend)
    requires IsTrend(Db(AllRows(Run(steps).log), map[]), q, plain) && plain != []
    requires plain[|plain| - 1].ts >= MaxCutoff(steps)
    ensures trend != []
    ensures Delta(trend) == Delta(plain)
       <==> FirstDayRest(AllRows(Run(steps).log), q, plain[0].ts, MaxCutoff(steps)) == 0.0
  {
    hide Run, IsTrend, FirstDayRest, AllRows, PointAfter;
    GrowthAfterCompaction(steps, q, trend, plain);
  }

  ghost predicate OneSnapshotThatDay(rows: seq<RawRow>, q: Workload, t: nat) {
    forall r | r in rows && SlotOf(r).workload == q && DayOf(r.reportedAt) == DayOf(t) :: r.reportedAt == t
  }

  /** One snapshot on the first day, and one on the last, leave the growth alone. */
  lemma OneSnapshotADayKeepsGrowth(steps: seq<Step>, q: Workload, trend: seq<WorkloadCostPoint>,
                                   plain: seq<WorkloadCostPoint>)
    requires Timely(steps) && IsTrend(Run(steps).db, q, trend)
    requires IsTrend(Db(AllRows(Run(steps).log), map[]), q, plain) && plain != []
    requires OneSnapshotThatDay(AllRows(Run(steps).log), q, plain[0].ts)
    requires plain[|plain| - 1].ts >= MaxCutoff(steps)
             || OneSnapshotThatDay(AllRows(Run(steps).log), q, plain[|plain| - 1].ts)
    ensures trend != [] && Delta(trend) == Delta(plain)
  {
    hide Run, IsTrend, CostWhere, PointAfter, DayOf, AllRows;
    var all, m := AllRows(Run(steps).log), MaxCutoff(steps);
    CostOfNone(all, LaterThatDay(q, plain[0].ts, m));
    if plain[|plain| - 1].ts < m {
      CostOfNone(all, EarlierThatDay(q, plain[|plain| - 1].ts));
    }
    GrowthAfterCompaction(steps, q, trend, plain);
  }

  // ----- The deploy events beside it -----

  /** The window follows the trend: compaction loses the deploy events after midnight of the last day once that day is
      folded, and no others; it picks up those between midnight of the first day and the first snapshot. */
  lemma EventsAfterCompaction(steps: seq<Step>, q: Workload, trend: seq<WorkloadCostPoint>,
                              plain: seq<WorkloadCostPoint>, row: EventRow)
    requires Timely(steps) && IsTrend(Run(steps).db, q, trend)
    requires IsTrend(Db(AllRows(Run(steps).log), map[]), q, plain) && plain != []
    ensures trend != []
    ensures var m, first, last := MaxCutoff(steps), plain[0].ts, plain[|plain| - 1].ts;
      var before := InWindow(row, q.tenant, q.clusterId, first, last);
      var after := InWindow(row, q.tenant, q.clusterId, trend[0].ts, trend[|trend| - 1].ts);
      && (before && !after <==> before && last < m && DayOf(last) < row.event.occurredAt)
      && (after && !before <==> after && first < m && row.event.occurredAt < first)
  {
    hide Run, IsTrend, FirstDayRest, LastDayRest, AllRows, DayOf;
    GrowthAfterCompaction(steps, q, trend, plain);
    PlainSlots(AllRows(Run(steps).log), q, plain);
    PointIsNotLater(plain[0].ts, MaxCutoff(steps));
    PointIsNotLater(plain[|plain| - 1].ts, MaxCutoff(steps));
  }

  lemma PointIsNotLater(t: nat, m: int)
    ensures PointAfter(t, m) <= t
  {
  }

  /** A workload left with one point is in no ranking, so it leaves the report and all its events with it. */
  lemma OnePointIsNotRanked(steps: seq<Step>, q: Workload, trend: seq<WorkloadCostPoint>, plain: seq<WorkloadCostPoint>,
                            all: seq<WorkloadGrowth>)
    requires Timely(steps) && IsTrend(Run(steps).db, q, trend) && IsRanking(Run(steps).db, q.tenant, all)
    requires IsTrend(Db(AllRows(Run(steps).log), map[]), q, plain) && plain != []
    ensures (exists g | g in all :: g.workload == q) <==>
              |plain| > 1 && !(plain[|plain| - 1].ts < MaxCutoff(steps)
                               && DayOf(plain[0].ts) == DayOf(plain[|plain| - 1].ts))
  {
    hide Run, IsTrend, Slots, FirstDayRest, LastDayRest, AllRows, DayOf, PointAfter;
    GrowthAfterCompaction(steps, q, trend, plain);
    if g :| g in all && g.workload == q {
      SameLength(Run(steps).db, q, trend, g.trend);
    }
    if |trend| > 1 {
      TrendIsOfSlots(Run(steps).db, q, trend, 0);
      TrendIsOfSlots(Run(steps).db, q, trend, 1);
    }
  }

  lemma TrendIsOfSlots(db: Db, q: Workload, trend: seq<WorkloadCostPoint>, i: nat)
    requires IsTrend(db, q, trend) && i < |trend|
    ensures Slot(q, trend[i].ts) in Slots(db)
    ensures i > 0 ==> trend[0].ts < trend[i].ts
  {
  }

  /** Two trends of one workload have more than one point both or neither. */
  lemma SameLength(db: Db, q: Workload, trend: seq<WorkloadCostPoint>, other: seq<WorkloadCostPoint>)
    requires IsTrend(db, q, trend) && IsTrend(db, q, other) && |other| >= 2
    ensures |trend| >= 2
  {
    hide Slots, CostAt;
    assert Slot(q, other[0].ts) in Slots(db) && Slot(q, other[1].ts) in Slots(db);
    TwoPoints(db, Slot(q, other[0].ts), Slot(q, other[1].ts), trend);
  }
}
