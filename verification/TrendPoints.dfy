/** Trends and rankings by the rows of the two tables. */
module TrendPoints {
  import opened Growth
  import opened Sums
  import opened Tables

  /** A raw row of the workload at the time. */
  predicate RowAt(r: RawRow, q: Workload, ts: nat) {
    r.tenant == q.tenant && r.clusterId == q.clusterId && r.finding.source == q.name && r.reportedAt == ts
  }

  /** A daily row of the workload for the day that begins at the time. */
  predicate DayAt(k: DailyKey, q: Workload, ts: nat) {
    k.tenant == q.tenant && k.clusterId == q.clusterId && k.source == q.name && k.day == ts
  }

  ghost predicate AnyAt(db: Db, q: Workload, ts: nat) {
    || (exists r | r in db.raw :: RowAt(r, q, ts))
    || (exists k | k in db.daily :: DayAt(k, q, ts))
  }

  /** All that either table has for the workload at the time, over all destinations. */
  ghost function StoredCost(db: Db, q: Workload, ts: nat): real {
    CostWhere(db.raw, (r: RawRow) => RowAt(r, q, ts))
    + Sum(db.daily.Keys, (k: DailyKey) => if k in db.daily && DayAt(k, q, ts) then db.daily[k].costHigh else 0.0)
  }

  /** One point, with its whole cost, for each time either table has for the workload, in order. */
  ghost predicate PointsAsStored(db: Db, q: Workload, trend: seq<WorkloadCostPoint>) {
    && (forall i, j | 0 <= i < j < |trend| :: trend[i].ts < trend[j].ts)
    && (forall i | 0 <= i < |trend| :: AnyAt(db, q, trend[i].ts) && trend[i].costHigh == StoredCost(db, q, trend[i].ts))
    && (forall ts | AnyAt(db, q, ts) :: exists i | 0 <= i < |trend| :: trend[i].ts == ts)
  }

  lemma SlotIsStored(db: Db, q: Workload, ts: nat)
    ensures Slot(q, ts) in Slots(db) <==> AnyAt(db, q, ts)
    ensures CostAt(db, Slot(q, ts)) == StoredCost(db, q, ts)
  {
    var s := Slot(q, ts);
    forall r ensures SlotOf(r) == s <==> RowAt(r, q, ts) {
    }
    forall k ensures SlotOfDay(k) == s <==> DayAt(k, q, ts) {
    }
    CostCongruence(db.raw, AtSlot(s), (r: RawRow) => RowAt(r, q, ts));
    SumCongruence(db.daily.Keys, DayCost(db.daily, s),
                  (k: DailyKey) => if k in db.daily && DayAt(k, q, ts) then db.daily[k].costHigh else 0.0);
  }

  lemma TrendAsStored(db: Db, q: Workload, trend: seq<WorkloadCostPoint>)
    requires IsTrend(db, q, trend)
    ensures PointsAsStored(db, q, trend)
  {
    hide AnyAt, StoredCost, Slots, CostAt;
    forall ts ensures Slot(q, ts) in Slots(db) <==> AnyAt(db, q, ts)
      ensures CostAt(db, Slot(q, ts)) == StoredCost(db, q, ts)
    {
      SlotIsStored(db, q, ts);
    }
  }

  /** Every ranking lists exactly the workloads of the tenant with more than one time in the tables, each once, with all
      its points, fastest growing first. */
  lemma RankingAsStored(db: Db, tenant: int, all: seq<WorkloadGrowth>)
    requires IsRanking(db, tenant, all)
    ensures forall g | g in all ::
      && g.workload.tenant == tenant && PointsAsStored(db, g.workload, g.trend) && |g.trend| >= 2
      && g.deltaINR == g.trend[|g.trend| - 1].costHigh - g.trend[0].costHigh
    ensures forall q: Workload, ts, ts' | q.tenant == tenant && ts != ts' && AnyAt(db, q, ts) && AnyAt(db, q, ts') ::
      exists g | g in all :: g.workload == q
    ensures forall i, j | 0 <= i < j < |all| ::
      all[i].workload != all[j].workload && all[i].deltaINR >= all[j].deltaINR
  {
    hide AnyAt, PointsAsStored, Slots, IsTrend;
    forall g | g in all ensures PointsAsStored(db, g.workload, g.trend) {
      TrendAsStored(db, g.workload, g.trend);
    }
    forall q: Workload, ts, ts' | q.tenant == tenant && ts != ts' && AnyAt(db, q, ts) && AnyAt(db, q, ts')
      ensures exists g | g in all :: g.workload == q
    {
      SlotIsStored(db, q, ts);
      SlotIsStored(db, q, ts');
      assert Slot(q, ts).workload == Slot(q, ts').workload;
    }
  }
}
