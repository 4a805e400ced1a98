/** What a measured cost is, in terms of the rows that were stored when it was read. */
module MeasuredOutcomes {
  import opened Findings
  import opened Outcome
  import opened OutcomeRuns
  import opened Tables
  import Compaction

  /** A row of the outcome's pair in its cluster, whatever its path class. */
  predicate OfPair(r: RawRow, k: OutcomeKey) {
    && r.tenant == k.tenant && r.clusterId == k.clusterId
    && r.finding.source == k.source && r.finding.destination == k.destination
  }

  /** The time of the cluster's latest snapshot. */
  ghost predicate IsLatestTime(raw: seq<RawRow>, k: OutcomeKey, at: nat) {
    && (exists r | r in raw :: r.tenant == k.tenant && r.clusterId == k.clusterId && r.reportedAt == at)
    && (forall r | r in raw && r.tenant == k.tenant && r.clusterId == k.clusterId :: r.reportedAt <= at)
  }

  /** The pair's highest cost in the snapshot, or nothing if the pair is gone. */
  ghost predicate IsPairCost(raw: seq<RawRow>, k: OutcomeKey, at: nat, cost: real) {
    || (&& (exists r | r in raw :: OfPair(r, k) && r.reportedAt == at && r.finding.costHigh == cost)
        && (forall r | r in raw && OfPair(r, k) && r.reportedAt == at :: r.finding.costHigh <= cost))
    || ((forall r | r in raw :: !(OfPair(r, k) && r.reportedAt == at)) && cost == 0.0)
  }

  lemma CostIsPairCost(raw: seq<RawRow>, k: OutcomeKey, at: nat)
    ensures IsPairCost(raw, k, at, CostAt(raw, k, at))
  {
    hide HighestCost;
    HighestIsHighest(raw, k, at);
    forall r ensures InPair(r, k, at) <==> OfPair(r, k) && r.reportedAt == at {
    }
  }

  lemma LatestIsLatestTime(raw: seq<RawRow>, k: OutcomeKey)
    requires LatestTime(raw, k.tenant, k.clusterId) > 0
    ensures IsLatestTime(raw, k, LatestTime(raw, k.tenant, k.clusterId))
  {
    hide LatestTime;
    LatestIsLatest(raw, k.tenant, k.clusterId);
  }

  lemma ReadingIsTrue(u: Reading, raw: seq<RawRow>)
    requires IsReading(u, raw)
    ensures u.appliedAt < u.snapshot && IsLatestTime(raw, u.key, u.snapshot)
    ensures IsPairCost(raw, u.key, u.snapshot, u.cost)
  {
    hide LatestTime, CostAt, IsLatestTime, IsPairCost;
    LatestIsLatestTime(raw, u.key);
    CostIsPairCost(raw, u.key, u.snapshot);
  }

  /** The raw table after some prefix of the run backs a stored cost. */
  ghost predicate Backs(raw: seq<RawRow>, k: OutcomeKey, r: RecommendationOutcome, at: nat)
    requires r.appliedAt.Some? && r.costAfter.Some? && r.measuredAt.Some?
  {
    && r.appliedAt.value < at <= r.measuredAt.value
    && IsLatestTime(raw, k, at) && IsPairCost(raw, k, at, r.costAfter.value)
  }

  /** In every interleaving, the cost stored for a measured outcome is that of its own pair: after some step, the latest
      snapshot of its cluster was newer than the application and not newer than the measurement, and the cost is the
      highest of the pair's rows in it, or zero because it has none. */
  lemma MeasuredCostIsThePairs(steps: seq<Step>, k: OutcomeKey)
    requires k in Run(steps).rows && Run(steps).rows[k].costAfter.Some?
    ensures var r := Run(steps).rows[k];
      r.appliedAt.Some? && r.measuredAt.Some?
      && exists i, at | 0 <= i <= |steps| :: Backs(Run(steps[..i]).raw, k, r, at)
  {
    hide Run, Held, Stamped, IsReading, IsLatestTime, IsPairCost;
    RunIsSound(steps);
    var r := Run(steps).rows[k];
    var u: Reading :| Witnessed(steps, u) && u.key == k && u.appliedAt == r.appliedAt.value
                      && u.cost == r.costAfter.value && u.appliedAt < u.snapshot <= r.measuredAt.value;
    var i :| 0 <= i <= |steps| && IsReading(u, Run(steps[..i]).raw);
    ReadingIsTrue(u, Run(steps[..i]).raw);
    assert Backs(Run(steps[..i]).raw, k, r, u.snapshot);
  }

  /** What a step does to the raw table, row by row. */
  lemma RawFollows(w: World, s: Step, r: RawRow)
    ensures r in Apply(w, s).raw <==>
              if s.Ingest? then
                r in w.raw
                || (r.tenant == s.tenant && r.clusterId == s.clusterId && r.reportedAt == w.clock
                    && r.finding in s.findings)
              else r in w.raw && !(s.Compact? && r.reportedAt < s.cutoff)
  {
    hide Shown, Saved, AppliedTo, IsFresh, ReadingOf, Newer;
    if s.Compact? {
      FilterMembers(w.raw, s.cutoff);
    } else if s.Ingest? && r.finding in s.findings {
      var i :| 0 <= i < |s.findings| && s.findings[i] == r.finding;
      var rows := Compaction.Snapshot(s.tenant, s.clusterId, w.clock, s.findings);
      assert rows[i] == RawRow(s.tenant, s.clusterId, w.clock, r.finding);
    }
  }

  /** Rows of other pairs change no reading, as long as the cluster's latest snapshot is of the same time. */
  lemma OtherPairsDoNotMatter(p: Pending, raw: seq<RawRow>, other: seq<RawRow>)
    requires forall r | OfPair(r, p.key) :: r in raw <==> r in other
    requires forall at :: IsLatestTime(raw, p.key, at) <==> IsLatestTime(other, p.key, at)
    requires IsFresh(p, raw) && IsFresh(p, other)
    ensures ReadingOf(p, raw) == ReadingOf(p, other)
  {
    hide LatestTime, CostAt;
    LatestIsLatestTime(raw, p.key);
    LatestIsLatestTime(other, p.key);
    var at := LatestTime(raw, p.key.tenant, p.key.clusterId);
    var at' := LatestTime(other, p.key.tenant, p.key.clusterId);
    assert IsLatestTime(raw, p.key, at) && IsLatestTime(other, p.key, at');
    CostIsPairCost(raw, p.key, at);
    CostIsPairCost(other, p.key, at);
    SamePairCost(raw, other, p.key, at, CostAt(raw, p.key, at), CostAt(other, p.key, at));
  }

  lemma SamePairCost(raw: seq<RawRow>, other: seq<RawRow>, k: OutcomeKey, at: nat, cost: real, cost': real)
    requires forall r | OfPair(r, k) :: r in raw <==> r in other
    requires IsPairCost(raw, k, at, cost) && IsPairCost(other, k, at, cost')
    ensures cost == cost'
  {
    hide OfPair;
    if r :| r in raw && OfPair(r, k) && r.reportedAt == at {
      var x :| x in raw && OfPair(x, k) && x.reportedAt == at && x.finding.costHigh == cost;
      var y :| y in other && OfPair(y, k) && y.reportedAt == at && y.finding.costHigh == cost';
    }
  }
}
