/** Cost growth per workload over the whole retained history, raw snapshots and daily rollups together. */
module Growth {
  import opened Compaction
  import opened DeployEvents
  import opened Findings
  import opened Sums
  import opened Tables
  import opened Text
  import TrafficReplay

  datatype Workload = Workload(tenant: int, clusterId: string, name: string)

  /** One group of the query: a workload at one timestamp. */
  datatype Slot = Slot(workload: Workload, ts: nat)

  datatype WorkloadCostPoint = WorkloadCostPoint(ts: nat, costHigh: real)

  datatype WorkloadGrowth = WorkloadGrowth(workload: Workload, trend: seq<WorkloadCostPoint>, deltaINR: real,
                                           relatedEvents: seq<DeployEvent>)

  function SlotOf(r: RawRow): Slot {
    Slot(Workload(r.tenant, r.clusterId, r.finding.source), r.reportedAt)
  }

  function SlotOfDay(k: DailyKey): Slot {
    Slot(Workload(k.tenant, k.clusterId, k.source), k.day)
  }

  function AtSlot(s: Slot): RawRow -> bool {
    (r: RawRow) => SlotOf(r) == s
  }

  function RawSum(raw: seq<RawRow>, s: Slot): real {
    CostWhere(raw, AtSlot(s))
  }

  function RawSlots(raw: seq<RawRow>): set<Slot> {
    set r | r in raw :: SlotOf(r)
  }

  ghost function DayCost(daily: map<DailyKey, Totals>, s: Slot): DailyKey -> real {
    DailyCost(daily, DayAtSlot(s))
  }

  function DayAtSlot(s: Slot): DailyKey -> bool {
    (k: DailyKey) => SlotOfDay(k) == s
  }

  function DaySlots(keys: set<DailyKey>): set<Slot> {
    set k | k in keys :: SlotOfDay(k)
  }

  /** Both tiers. */
  ghost function CostAt(db: Db, s: Slot): real {
    RawSum(db.raw, s) + Sum(db.daily.Keys, DayCost(db.daily, s))
  }

  function Slots(db: Db): set<Slot> {
    RawSlots(db.raw) + DaySlots(db.daily.Keys)
  }

  /** Every timestamp of the workload once, in order, with everything recorded for it. */
  ghost predicate IsTrend(db: Db, q: Workload, trend: seq<WorkloadCostPoint>) {
    && (forall i, j | 0 <= i < j < |trend| :: trend[i].ts < trend[j].ts)
    && (forall i | 0 <= i < |trend| ::
          Slot(q, trend[i].ts) in Slots(db) && trend[i].costHigh == CostAt(db, Slot(q, trend[i].ts)))
    && (forall s | s in Slots(db) && s.workload == q :: exists i | 0 <= i < |trend| :: trend[i].ts == s.ts)
  }

  ghost predicate IsGrowth(db: Db, g: WorkloadGrowth) {
    && IsTrend(db, g.workload, g.trend) && |g.trend| >= 2
    && g.deltaINR == g.trend[|g.trend| - 1].costHigh - g.trend[0].costHigh
  }

  /** Every workload of the tenant with at least two points once, fastest growing first. */
  ghost predicate IsRanking(db: Db, tenant: int, all: seq<WorkloadGrowth>) {
    && (forall g | g in all :: g.workload.tenant == tenant && IsGrowth(db, g))
    && (forall i, j | 0 <= i < j < |all| :: all[i].workload != all[j].workload)
    && (forall i, j | 0 <= i < j < |all| :: all[i].deltaINR >= all[j].deltaINR)
    && (forall s, t | s in Slots(db) && t in Slots(db) && s.workload == t.workload && s.workload.tenant == tenant
                        && s.ts != t.ts ::
         exists g | g in all :: g.workload == s.workload)
  }

  // ----- The grouped union -----

  function Value(sums: map<Slot, real>, s: Slot): real {
    if s in sums then sums[s] else 0.0
  }

  function AddTo(sums: map<Slot, real>, s: Slot, cost: real): map<Slot, real> {
    sums[s := Value(sums, s) + cost]
  }

  function OfTenant(slots: set<Slot>, tenant: int): set<Slot> {
    set s | s in slots && s.workload.tenant == tenant
  }

  ghost predicate Summed(sums: map<Slot, real>, db: Db, tenant: int, raw: seq<RawRow>, keys: set<DailyKey>) {
    && sums.Keys == OfTenant(RawSlots(raw) + DaySlots(keys), tenant)
    && forall s: Slot | s.workload.tenant == tenant ::
         Value(sums, s) == RawSum(raw, s) + Sum(keys, DayCost(db.daily, s))
  }

  lemma NothingSummed(db: Db, tenant: int)
    ensures Summed(map[], db, tenant, [], {})
  {
  }

  lemma RawSlotsOneMore(raw: seq<RawRow>, r: RawRow)
    ensures RawSlots(raw + [r]) == RawSlots(raw) + {SlotOf(r)}
  {
  }

  lemma OneMoreRaw(sums: map<Slot, real>, db: Db, tenant: int, raw: seq<RawRow>, r: RawRow)
    requires Summed(sums, db, tenant, raw, {})
    ensures Summed(if r.tenant == tenant then AddTo(sums, SlotOf(r), r.finding.costHigh) else sums,
                   db, tenant, raw + [r], {})
  {
    hide RawSlots, DayCost, DaySlots, CostWhere;
    RawSlotsOneMore(raw, r);
    forall s ensures RawSum(raw + [r], s) == RawSum(raw, s) + if SlotOf(r) == s then r.finding.costHigh else 0.0 {
      CostOneMore(raw, r, AtSlot(s));
    }
  }

  lemma DayAdds(daily: map<DailyKey, Totals>, keys: set<DailyKey>, k: DailyKey, s: Slot)
    requires k in daily && k !in keys
    ensures Sum(keys + {k}, DayCost(daily, s))
         == Sum(keys, DayCost(daily, s)) + if SlotOfDay(k) == s then daily[k].costHigh else 0.0
  {
    SumSplit(keys + {k}, DayCost(daily, s), k);
    assert keys + {k} - {k} == keys;
  }

  lemma OneMoreDay(sums: map<Slot, real>, db: Db, tenant: int, raw: seq<RawRow>, keys: set<DailyKey>, k: DailyKey)
    requires Summed(sums, db, tenant, raw, keys) && k in db.daily && k !in keys
    ensures Summed(if k.tenant == tenant then AddTo(sums, SlotOfDay(k), db.daily[k].costHigh) else sums,
                   db, tenant, raw, keys + {k})
  {
    hide RawSum, RawSlots, DayCost;
    assert DaySlots(keys + {k}) == DaySlots(keys) + {SlotOfDay(k)};
    hide DaySlots;
    forall s ensures Sum(keys + {k}, DayCost(db.daily, s)) == Sum(keys, DayCost(db.daily, s))
                       + if SlotOfDay(k) == s then db.daily[k].costHigh else 0.0 {
      DayAdds(db.daily, keys, k, s);
    }
  }

  method SumRaw(db: Db, tenant: int) returns (sums: map<Slot, real>)
    ensures Summed(sums, db, tenant, db.raw, {})
  {
    hide Summed;
    sums := map[];
    NothingSummed(db, tenant);
    assert db.raw[..0] == [];
    for i := 0 to |db.raw|
      invariant Summed(sums, db, tenant, db.raw[..i], {})
    {
      OneMoreRaw(sums, db, tenant, db.raw[..i], db.raw[i]);
      assert db.raw[..i + 1] == db.raw[..i] + [db.raw[i]];
      if db.raw[i].tenant == tenant {
        sums := AddTo(sums, SlotOf(db.raw[i]), db.raw[i].finding.costHigh);
      }
    }
    assert db.raw[..|db.raw|] == db.raw;
  }

  method SumDays(db: Db, tenant: int, rawSums: map<Slot, real>) returns (sums: map<Slot, real>)
    requires Summed(rawSums, db, tenant, db.raw, {})
    ensures Summed(sums, db, tenant, db.raw, db.daily.Keys)
  {
    hide Summed;
    sums := rawSums;
    var rest, done: set<DailyKey> := db.daily.Keys, {};
    while rest != {}
      invariant rest + done == db.daily.Keys && rest !! done
      invariant Summed(sums, db, tenant, db.raw, done)
      decreases |rest|
    {
      var k :| k in rest;
      OneMoreDay(sums, db, tenant, db.raw, done, k);
      if k.tenant == tenant {
        sums := AddTo(sums, SlotOfDay(k), db.daily[k].costHigh);
      }
      rest, done := rest - {k}, done + {k};
    }
    assert done == db.daily.Keys;
  }

  // ----- ORDER BY cluster_id, src_workload, ts -----

  predicate SlotLess(x: Slot, y: Slot) {
    if x.workload.clusterId != y.workload.clusterId then Less(x.workload.clusterId, y.workload.clusterId)
    else if x.workload.name != y.workload.name then Less(x.workload.name, y.workload.name)
    else x.ts < y.ts
  }

  lemma SlotsAreOrdered()
    ensures StrictWeakOrder(SlotLess)
  {
    forall x, y, z ensures OrderedTriple(SlotLess, x, y, z) {
      SlotTriple(x, y, z);
    }
  }

  lemma SlotTriple(x: Slot, y: Slot, z: Slot)
    ensures OrderedTriple(SlotLess, x, y, z)
  {
    hide Less;
    LessLaws(x.workload.clusterId, y.workload.clusterId, z.workload.clusterId);
    LessLaws(x.workload.name, y.workload.name, z.workload.name);
  }

  /** Two strings compare one way only, and a third falls on one side. */
  lemma LessLaws(a: string, b: string, c: string)
    ensures a == c || Less(a, c) || Less(c, a)
    ensures !(Less(a, c) && Less(c, a)) && (a == c ==> !Less(a, c))
    ensures Less(a, c) ==> Less(a, b) || Less(b, c)
    ensures a == b || Less(a, b) || Less(b, a)
    ensures b == c || Less(b, c) || Less(c, b)
  {
    LessTrichotomy(a, c);
    LessTrichotomy(a, b);
    LessTrichotomy(b, c);
    if Less(a, c) && Less(b, a) {
      LessTransitive(b, a, c);
    }
  }

  method OrderedSlots(sums: map<Slot, real>) returns (slots: seq<Slot>)
    ensures multiset(slots) == multiset(sums.Keys) && NoInversion(slots, SlotLess)
  {
    var listing := Elements(sums.Keys);
    SlotsAreOrdered();
    slots := SortSlice(listing, SlotLess);
  }

  /** The points of one workload, in the order of the rows. */
  function PointsOf(slots: seq<Slot>, sums: map<Slot, real>, q: Workload): seq<WorkloadCostPoint> {
    if slots == [] then []
    else
      var s := slots[|slots| - 1];
      PointsOf(slots[..|slots| - 1], sums, q)
        + if s.workload == q then [WorkloadCostPoint(s.ts, Value(sums, s))] else []
  }

  /** One point per slot of the workload, in order. */
  ghost predicate Fit(points: seq<WorkloadCostPoint>, slots: seq<Slot>, sums: map<Slot, real>, q: Workload) {
    && (forall i, j | 0 <= i < j < |points| :: points[i].ts < points[j].ts)
    && (forall i | 0 <= i < |points| ::
          Slot(q, points[i].ts) in slots && points[i].costHigh == Value(sums, Slot(q, points[i].ts)))
    && (forall s | s in slots && s.workload == q :: s.ts in Times(points))
  }

  ghost function Times(points: seq<WorkloadCostPoint>): set<nat> {
    set p | p in points :: p.ts
  }

  lemma FitMore(points: seq<WorkloadCostPoint>, front: seq<Slot>, s: Slot, sums: map<Slot, real>, p: WorkloadCostPoint)
    requires Fit(points, front, sums, s.workload) && p == WorkloadCostPoint(s.ts, Value(sums, s))
    requires forall i | 0 <= i < |points| :: points[i].ts < s.ts
    ensures Fit(points + [p], front + [s], sums, s.workload)
  {
    forall t ensures t in Times(points + [p]) <==> t in Times(points) + {s.ts} {
      assert p in points + [p];
    }
    assert s == Slot(s.workload, s.ts);
  }

  lemma FitOther(points: seq<WorkloadCostPoint>, front: seq<Slot>, s: Slot, sums: map<Slot, real>, q: Workload)
    requires Fit(points, front, sums, q) && s.workload != q
    ensures Fit(points, front + [s], sums, q)
  {
  }

  lemma {:induction false} PointsInOrder(slots: seq<Slot>, sums: map<Slot, real>, q: Workload)
    requires NoInversion(slots, SlotLess) && forall i, j | 0 <= i < j < |slots| :: slots[i] != slots[j]
    ensures Fit(PointsOf(slots, sums, q), slots, sums, q)
  {
    hide Fit, SlotLess, Value;
    if slots == [] {
      NoPointsFit(sums, q);
    } else {
      var front, s := slots[..|slots| - 1], slots[|slots| - 1];
      assert slots == front + [s];
      PointsInOrder(front, sums, q);
      PointsOneMore(front, sums, s, q);
      if s.workload == q {
        LaterSlots(PointsOf(front, sums, q), slots, sums);
        FitMore(PointsOf(front, sums, q), front, s, sums, WorkloadCostPoint(s.ts, Value(sums, s)));
      } else {
        FitOther(PointsOf(front, sums, q), front, s, sums, q);
      }
    }
  }

  lemma NoPointsFit(sums: map<Slot, real>, q: Workload)
    ensures Fit([], [], sums, q)
  {
  }

  lemma LaterSlots(points: seq<WorkloadCostPoint>, slots: seq<Slot>, sums: map<Slot, real>)
    requires slots != [] && NoInversion(slots, SlotLess) && forall i, j | 0 <= i < j < |slots| :: slots[i] != slots[j]
    requires Fit(points, slots[..|slots| - 1], sums, slots[|slots| - 1].workload)
    ensures forall i | 0 <= i < |points| :: points[i].ts < slots[|slots| - 1].ts
  {
    hide SlotLess, Value, NoInversion;
    forall i | 0 <= i < |points| ensures points[i].ts < slots[|slots| - 1].ts {
      LaterSlot(slots, Slot(slots[|slots| - 1].workload, points[i].ts));
    }
  }

  lemma LaterSlot(slots: seq<Slot>, x: Slot)
    requires slots != [] && NoInversion(slots, SlotLess) && forall i, j | 0 <= i < j < |slots| :: slots[i] != slots[j]
    requires x in slots[..|slots| - 1] && x.workload == slots[|slots| - 1].workload
    ensures x.ts < slots[|slots| - 1].ts
  {
    hide Less;
    var i :| 0 <= i < |slots| - 1 && slots[i] == x;
    assert !SlotLess(slots[|slots| - 1], slots[i]);
  }

  lemma PointsAreTrend(db: Db, tenant: int, sums: map<Slot, real>, slots: seq<Slot>, q: Workload)
    requires Summed(sums, db, tenant, db.raw, db.daily.Keys) && q.tenant == tenant
    requires multiset(slots) == multiset(sums.Keys) && NoInversion(slots, SlotLess)
    ensures IsTrend(db, q, PointsOf(slots, sums, q))
  {
    hide SlotLess, Summed, Fit, IsTrend;
    ListingHasNoRepeats(slots, sums.Keys);
    PointsInOrder(slots, sums, q);
    FitIsTrend(db, tenant, sums, slots, PointsOf(slots, sums, q), q);
  }

  lemma FitIsTrend(db: Db, tenant: int, sums: map<Slot, real>, slots: seq<Slot>, points: seq<WorkloadCostPoint>,
                   q: Workload)
    requires Summed(sums, db, tenant, db.raw, db.daily.Keys) && q.tenant == tenant
    requires Fit(points, slots, sums, q) && forall s :: s in slots <==> s in sums.Keys
    ensures IsTrend(db, q, points)
  {
    hide RawSum, RawSlots, DaySlots, DayCost, Value;
    forall s | s in Slots(db) && s.workload == q ensures exists i | 0 <= i < |points| :: points[i].ts == s.ts {
      assert s in sums.Keys;
      TimeOfPoint(points, s.ts);
    }
  }

  lemma TimeOfPoint(points: seq<WorkloadCostPoint>, t: nat)
    requires t in Times(points)
    ensures exists i | 0 <= i < |points| :: points[i].ts == t
  {
    var p :| p in points && p.ts == t;
  }

  // ----- Grouping and ranking -----

  ghost function WorkloadsOf(slots: seq<Slot>): set<Workload> {
    set s | s in slots :: s.workload
  }

  ghost predicate Grouped(byWorkload: map<Workload, seq<WorkloadCostPoint>>, order: seq<Workload>, slots: seq<Slot>,
                          sums: map<Slot, real>)
  {
    && byWorkload.Keys == WorkloadsOf(slots)
    && (forall q | q in byWorkload :: byWorkload[q] == PointsOf(slots, sums, q))
    && (forall q :: q in order <==> q in byWorkload)
    && (forall i, j | 0 <= i < j < |order| :: order[i] != order[j])
  }

  lemma NothingGrouped(sums: map<Slot, real>)
    ensures Grouped(map[], [], [], sums)
  {
  }

  lemma GroupOneMore(byWorkload: map<Workload, seq<WorkloadCostPoint>>, order: seq<Workload>, slots: seq<Slot>,
                     sums: map<Slot, real>, s: Slot)
    requires Grouped(byWorkload, order, slots, sums)
    ensures var before := if s.workload in byWorkload then byWorkload[s.workload] else [];
      Grouped(byWorkload[s.workload := before + [WorkloadCostPoint(s.ts, Value(sums, s))]],
              if s.workload in byWorkload then order else order + [s.workload], slots + [s], sums)
  {
    hide Value, PointsOf, WorkloadsOf;
    WorkloadsOneMore(slots, s);
    if s.workload !in byWorkload {
      NoPoints(slots, sums, s.workload);
    }
    forall q | q in WorkloadsOf(slots + [s])
      ensures PointsOf(slots + [s], sums, q)
           == if q == s.workload then PointsOf(slots, sums, q) + [WorkloadCostPoint(s.ts, Value(sums, s))]
                                                else byWorkload[q]
    {
      PointsOneMore(slots, sums, s, q);
    }
    assert forall q :: q in order + [s.workload] <==> q in order || q == s.workload;
  }

  lemma WorkloadsOneMore(slots: seq<Slot>, s: Slot)
    ensures WorkloadsOf(slots + [s]) == WorkloadsOf(slots) + {s.workload}
    ensures forall x | x in slots :: x.workload in WorkloadsOf(slots)
  {
    forall q ensures q in WorkloadsOf(slots + [s]) <==> q in WorkloadsOf(slots) + {s.workload} {
      assert s in slots + [s];
    }
  }

  lemma PointsOneMore(slots: seq<Slot>, sums: map<Slot, real>, s: Slot, q: Workload)
    ensures var before := PointsOf(slots, sums, q);
      PointsOf(slots + [s], sums, q)
      == if s.workload == q then before + [WorkloadCostPoint(s.ts, Value(sums, s))] else before
  {
    assert (slots + [s])[..|slots|] == slots;
  }

  lemma {:induction false} NoPoints(slots: seq<Slot>, sums: map<Slot, real>, q: Workload)
    requires forall s | s in slots :: s.workload != q
    ensures PointsOf(slots, sums, q) == []
  {
    if slots != [] {
      assert slots[|slots| - 1] in slots;
      NoPoints(slots[..|slots| - 1], sums, q);
    }
  }

  method GroupByWorkload(slots: seq<Slot>, sums: map<Slot, real>)
    returns (byWorkload: map<Workload, seq<WorkloadCostPoint>>, order: seq<Workload>)
    ensures Grouped(byWorkload, order, slots, sums)
  {
    byWorkload, order := map[], [];
    hide Grouped, Value, SlotLess;
    assert slots[..0] == [];
    NothingGrouped(sums);
    for i := 0 to |slots|
      invariant Grouped(byWorkload, order, slots[..i], sums)
    {
      var s := slots[i];
      GroupOneMore(byWorkload, order, slots[..i], sums, s);
      assert slots[..i + 1] == slots[..i] + [s];
      var point := WorkloadCostPoint(s.ts, Value(sums, s));
      if s.workload !in byWorkload {
        order := order + [s.workload];
        byWorkload := byWorkload[s.workload := [] + [point]];
      } else {
        byWorkload := byWorkload[s.workload := byWorkload[s.workload] + [point]];
      }
    }
    assert slots[..|slots|] == slots;
  }

  function GrowthOf(q: Workload, trend: seq<WorkloadCostPoint>): WorkloadGrowth
    requires |trend| >= 2
  {
    WorkloadGrowth(q, trend, trend[|trend| - 1].costHigh - trend[0].costHigh, [])
  }

  /** The workloads with at least two points. */
  function Growths(byWorkload: map<Workload, seq<WorkloadCostPoint>>, order: seq<Workload>): seq<WorkloadGrowth>
    requires forall q | q in order :: q in byWorkload
  {
    if order == [] then []
    else
      var q := order[|order| - 1];
      Growths(byWorkload, order[..|order| - 1]) + if |byWorkload[q]| >= 2 then [GrowthOf(q, byWorkload[q])] else []
  }

  lemma {:induction false} GrowthsAre(byWorkload: map<Workload, seq<WorkloadCostPoint>>, order: seq<Workload>)
    requires (forall q | q in order :: q in byWorkload) && forall i, j | 0 <= i < j < |order| :: order[i] != order[j]
    ensures var gs := Growths(byWorkload, order);
      && (forall g ::
            g in gs <==>
              && g.workload in order && |byWorkload[g.workload]| >= 2
              && g == GrowthOf(g.workload, byWorkload[g.workload]))
      && (forall i, j | 0 <= i < j < |gs| :: gs[i].workload != gs[j].workload)
  {
    if order != [] {
      var front, q := order[..|order| - 1], order[|order| - 1];
      assert order == front + [q];
      GrowthsAre(byWorkload, front);
    }
  }

  predicate GrowsFaster(x: WorkloadGrowth, y: WorkloadGrowth) {
    x.deltaINR > y.deltaINR
  }

  /** The first `topN` of such a ranking. */
  ghost predicate IsTop(db: Db, tenant: int, topN: nat, out: seq<WorkloadGrowth>) {
    exists all :: IsRanking(db, tenant, all) && out == if |all| > topN then all[..topN] else all
  }

  method TopGrowth(store: Store, tenant: int, topN: nat) returns (out: seq<WorkloadGrowth>)
    ensures IsTop(store.Contents(), tenant, topN, out)
  {
    hide Summed, Grouped, SlotLess, IsRanking;
    var db := Db(store.raw, store.daily);
    var sums := SumRaw(db, tenant);
    sums := SumDays(db, tenant, sums);
    var slots := OrderedSlots(sums);
    var byWorkload, order := GroupByWorkload(slots, sums);
    out := ListGrowths(byWorkload, order, slots, sums);
    ghost var unsorted := out;
    assert StrictWeakOrder(GrowsFaster) by { DeltasAreOrdered(); }
    out := SortSlice(out, GrowsFaster);
    ghost var all := out;
    RankingIs(db, tenant, sums, slots, byWorkload, order, unsorted, all);
    if |out| > topN {
      out := out[..topN];
    }
  }

  // ----- Related deploy events -----

  /** The events of the workload's own namespace within its trend, most recent first; a workload without
      one has none. */
  ghost predicate Explained(table: seq<EventRow>, g: WorkloadGrowth, related: seq<DeployEvent>)
    requires g.trend != []
  {
    match TrafficReplay.ExtractNamespace(g.workload.name)
    case None => related == []
    case Some(namespace) =>
      IsSelection(table, g.workload.tenant, g.workload.clusterId, g.trend[0].ts, g.trend[|g.trend| - 1].ts, namespace,
                  related)
  }

  ghost predicate IsAnnotated(table: seq<EventRow>, g: WorkloadGrowth, out: WorkloadGrowth) {
    g.trend != [] && out == g.(relatedEvents := out.relatedEvents) && Explained(table, g, out.relatedEvents)
  }

  /** `out` is `top` with each entry's related events filled in. */
  ghost predicate Annotated(table: seq<EventRow>, top: seq<WorkloadGrowth>, out: seq<WorkloadGrowth>) {
    |out| == |top| && forall i | 0 <= i < |top| :: IsAnnotated(table, top[i], out[i])
  }

  predicate HasNamespace(g: WorkloadGrowth) {
    TrafficReplay.ExtractNamespace(g.workload.name).Some?
  }

  lemma NamespaceIs(g: WorkloadGrowth)
    ensures HasNamespace(g) <==> TrafficReplay.ExtractNamespace(g.workload.name).Some?
  {
  }

  /** Some entry needs an event query that fails. */
  ghost predicate Unanswered(top: seq<WorkloadGrowth>, fails: nat -> bool) {
    exists i: nat | i < |top| :: TrafficReplay.ExtractNamespace(top[i].workload.name).Some? && fails(i)
  }

  /** The entry with its related events, when their query succeeds or is not needed. */
  method Annotate(table: seq<EventRow>, g: WorkloadGrowth) returns (out: WorkloadGrowth)
    requires g.trend != []
    ensures IsAnnotated(table, g, out)
  {
    hide IsRecent, IsSelection;
    var namespace := TrafficReplay.ExtractNamespace(g.workload.name);
    if namespace.None? {
      return g.(relatedEvents := []);
    }
    var tenant, clusterId := g.workload.tenant, g.workload.clusterId;
    var since, until := g.trend[0].ts, g.trend[|g.trend| - 1].ts;
    var events := RecentDeployEvents(table, tenant, clusterId, since, until);
    SelectionOfRecent(table, tenant, clusterId, since, until, namespace.value, events);
    var related := SelectNamespace(events, namespace.value);
    out := g.(relatedEvents := related);
  }

  method AnnotateAll(table: seq<EventRow>, top: seq<WorkloadGrowth>, fails: nat -> bool)
    returns (out: Option<seq<WorkloadGrowth>>)
    requires forall i | 0 <= i < |top| :: top[i].trend != []
    ensures out.None? <==> Unanswered(top, fails)
    ensures out.Some? ==> Annotated(table, top, out.value)
  {
    hide IsAnnotated, HasNamespace, TrafficReplay.ExtractNamespace;
    var annotated: seq<WorkloadGrowth> := [];
    for i := 0 to |top|
      invariant |annotated| == i
      invariant forall j: nat | j < i :: TrafficReplay.ExtractNamespace(top[j].workload.name).Some? ==> !fails(j)
      invariant forall j | 0 <= j < i :: IsAnnotated(table, top[j], annotated[j])
    {
      NamespaceIs(top[i]);
      if HasNamespace(top[i]) && fails(i) {
        return None;
      }
      var g := Annotate(table, top[i]);
      annotated := annotated + [g];
    }
    out := Some(annotated);
  }

  /** `table` is the deploy event table; `fails` says of each reported entry whether its event query fails, and one
      failure fails the whole report. */
  method WorkloadCostGrowth(store: Store, table: seq<EventRow>, tenant: int, topN: nat, fails: nat -> bool)
    returns (out: Option<seq<WorkloadGrowth>>)
    ensures exists top ::
              && IsTop(store.Contents(), tenant, topN, top)
              && (out.None? <==> Unanswered(top, fails))
              && (out.Some? ==> Annotated(table, top, out.value))
  {
    hide Annotated, Unanswered, IsTop;
    var top := TopGrowth(store, tenant, topN);
    TopHasTrends(store.Contents(), tenant, topN, top);
    out := AnnotateAll(table, top, fails);
  }

  lemma TopHasTrends(db: Db, tenant: int, topN: nat, top: seq<WorkloadGrowth>)
    requires IsTop(db, tenant, topN, top)
    ensures forall i | 0 <= i < |top| :: top[i].trend != []
  {
    hide IsTrend;
    var all :| IsRanking(db, tenant, all) && top == if |all| > topN then all[..topN] else all;
    forall i | 0 <= i < |top| ensures top[i].trend != [] {
      assert all[i] in all;
    }
  }

  lemma DeltasAreOrdered()
    ensures StrictWeakOrder(GrowsFaster)
  {
    forall x, y, z ensures OrderedTriple(GrowsFaster, x, y, z) {
    }
  }

  method ListGrowths(byWorkload: map<Workload, seq<WorkloadCostPoint>>, order: seq<Workload>, ghost slots: seq<Slot>,
                     ghost sums: map<Slot, real>) returns (out: seq<WorkloadGrowth>)
    requires Grouped(byWorkload, order, slots, sums)
    ensures forall q | q in order :: q in byWorkload
    ensures out == Growths(byWorkload, order)
  {
    hide PointsOf, WorkloadsOf;
    out := [];
    for i := 0 to |order|
      invariant out == Growths(byWorkload, order[..i])
    {
      assert order[..i + 1][..i] == order[..i];
      var trend := byWorkload[order[i]];
      if |trend| < 2 {
        continue;
      }
      out := out + [WorkloadGrowth(order[i], trend, trend[|trend| - 1].costHigh - trend[0].costHigh, [])];
    }
    assert order[..|order|] == order;
  }

  lemma RankingIs(db: Db, tenant: int, sums: map<Slot, real>, slots: seq<Slot>,
                  byWorkload: map<Workload, seq<WorkloadCostPoint>>, order: seq<Workload>,
                  unsorted: seq<WorkloadGrowth>, all: seq<WorkloadGrowth>)
    requires Summed(sums, db, tenant, db.raw, db.daily.Keys) && multiset(slots) == multiset(sums.Keys)
    requires NoInversion(slots, SlotLess) && Grouped(byWorkload, order, slots, sums)
    requires (forall q | q in order :: q in byWorkload) && unsorted == Growths(byWorkload, order)
    requires multiset(all) == multiset(unsorted) && NoInversion(all, GrowsFaster)
    ensures IsRanking(db, tenant, all)
  {
    hide SlotLess, Growths, PointsOf, IsTrend, Summed, Slots;
    GrowthsAre(byWorkload, order);
    SameBag(unsorted, all);
    forall q | q in byWorkload ensures q.tenant == tenant && IsTrend(db, q, byWorkload[q]) {
      WorkloadOfTenant(db, tenant, sums, slots, q);
      PointsAreTrend(db, tenant, sums, slots, q);
    }
    forall s, t | s in Slots(db) && t in Slots(db) && s.workload == t.workload && s.workload.tenant == tenant
                    && s.ts != t.ts
      ensures exists g | g in all :: g.workload == s.workload
    {
      InOrder(db, tenant, sums, slots, s);
      TwoPoints(db, s, t, byWorkload[s.workload]);
      assert GrowthOf(s.workload, byWorkload[s.workload]) in all;
    }
  }

  lemma SameBag(unsorted: seq<WorkloadGrowth>, all: seq<WorkloadGrowth>)
    requires multiset(all) == multiset(unsorted)
    requires forall i, j | 0 <= i < j < |unsorted| :: unsorted[i].workload != unsorted[j].workload
    ensures forall g :: g in all <==> g in unsorted
    ensures forall i, j | 0 <= i < j < |all| :: all[i].workload != all[j].workload
  {
    forall g ensures g in all <==> g in unsorted {
      assert g in all <==> g in multiset(all);
      assert g in unsorted <==> g in multiset(unsorted);
    }
    forall i, j | 0 <= i < j < |all| ensures all[i].workload != all[j].workload {
      if all[i].workload == all[j].workload {
        assert all[i] in unsorted && all[j] in unsorted;
        var k :| 0 <= k < |unsorted| && unsorted[k] == all[i];
        assert all[j] == all[i];
        TwiceInBag(all, i, j);
        OnceInBag(unsorted, k);
        assert false;
      }
    }
  }

  lemma OnceInBag(s: seq<WorkloadGrowth>, k: nat)
    requires k < |s| && forall i, j | 0 <= i < j < |s| :: s[i].workload != s[j].workload
    ensures multiset(s)[s[k]] == 1
  {
    assert s == s[..k] + [s[k]] + s[k + 1..];
    assert s[k] !in s[..k] && s[k] !in s[k + 1..];
    assert multiset(s) == multiset(s[..k]) + multiset{s[k]} + multiset(s[k + 1..]);
  }

  lemma WorkloadOfTenant(db: Db, tenant: int, sums: map<Slot, real>, slots: seq<Slot>, q: Workload)
    requires Summed(sums, db, tenant, db.raw, db.daily.Keys) && multiset(slots) == multiset(sums.Keys)
    requires q in WorkloadsOf(slots)
    ensures q.tenant == tenant
  {
    hide RawSlots, DaySlots;
    ListingHasNoRepeats(slots, sums.Keys);
    var s :| s in slots && s.workload == q;
    assert s in sums.Keys;
  }

  lemma InOrder(db: Db, tenant: int, sums: map<Slot, real>, slots: seq<Slot>, s: Slot)
    requires Summed(sums, db, tenant, db.raw, db.daily.Keys) && multiset(slots) == multiset(sums.Keys)
    requires s in Slots(db) && s.workload.tenant == tenant
    ensures s.workload in WorkloadsOf(slots)
  {
    ListingHasNoRepeats(slots, sums.Keys);
    assert s in sums.Keys;
  }

  lemma TwoPoints(db: Db, s: Slot, t: Slot, trend: seq<WorkloadCostPoint>)
    requires s in Slots(db) && t in Slots(db) && s.workload == t.workload && s.ts != t.ts
             && IsTrend(db, s.workload, trend)
    ensures |trend| >= 2
  {
    hide Slots;
    var i :| 0 <= i < |trend| && trend[i].ts == s.ts;
    var j :| 0 <= j < |trend| && trend[j].ts == t.ts;
  }
}
