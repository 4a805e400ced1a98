/** Recommendation outcomes: shown, applied, and later measured against a fresher snapshot. */
module Outcome {
  import opened Findings
  import opened Tables
  import opened Text

  /** The identity of an outcome row. */
  datatype OutcomeKey = OutcomeKey(tenant: int, clusterId: string, source: string, destination: string,
                                   pathClass: string)

  /** What a recommendation promised, frozen once it is applied. */
  datatype Baseline = Baseline(fixHint: string, savingsLow: real, savingsHigh: real, costBefore: real)

  datatype RecommendationOutcome = RecommendationOutcome(
    baseline: Baseline,
    firstShownAt: nat,
    lastShownAt: nat,
    appliedAt: Option<nat>,
    costAfter: Option<real>,
    measuredAt: Option<nat>)

  type Outcomes = map<OutcomeKey, RecommendationOutcome>

  // ----- Shown -----

  function KeyOfFix(tenant: int, f: FindingRow): OutcomeKey {
    OutcomeKey(tenant, f.clusterId, f.finding.source, f.finding.destination, f.finding.pathClass)
  }

  function BaselineOf(f: FindingRow): Baseline {
    Baseline(f.finding.fixHint, f.finding.savingsLow, f.finding.savingsHigh, f.finding.costHigh)
  }

  /** A row after being shown: the baseline follows until applied. */
  function ShownAgain(r: RecommendationOutcome, b: Baseline, now: nat): RecommendationOutcome {
    r.(lastShownAt := now, baseline := if r.appliedAt.None? then b else r.baseline)
  }

  function ShowOne(rows: Outcomes, k: OutcomeKey, b: Baseline, now: nat): Outcomes {
    rows[k := if k in rows then ShownAgain(rows[k], b, now)
              else RecommendationOutcome(b, now, now, None, None, None)]
  }

  /** The baseline the last of the fixes for one key carries; fixes without a hint are skipped. */
  function LastFix(tenant: int, fixes: seq<FindingRow>, k: OutcomeKey): Option<Baseline> {
    if fixes == [] then None
    else
      var f := fixes[|fixes| - 1];
      if f.finding.fixHint != "" && KeyOfFix(tenant, f) == k then Some(BaselineOf(f))
      else LastFix(tenant, fixes[..|fixes| - 1], k)
  }

  /** A hinted fix of the tenant for this outcome. */
  predicate IsFixFor(f: FindingRow, tenant: int, k: OutcomeKey) {
    && f.finding.fixHint != "" && k.tenant == tenant && k.clusterId == f.clusterId
    && k.source == f.finding.source && k.destination == f.finding.destination && k.pathClass == f.finding.pathClass
  }

  /** `fixes[j]` is the last of them. */
  ghost predicate IsLastFixFor(fixes: seq<FindingRow>, j: int, tenant: int, k: OutcomeKey) {
    0 <= j < |fixes| && IsFixFor(fixes[j], tenant, k) && forall m | j < m < |fixes| :: !IsFixFor(fixes[m], tenant, k)
  }

  /** The baseline is the hint, the promised savings and the current cost of the last fix for the outcome. */
  lemma {:induction false} LastFixIsLast(tenant: int, fixes: seq<FindingRow>, k: OutcomeKey)
    ensures LastFix(tenant, fixes, k).None? <==> forall f | f in fixes :: !IsFixFor(f, tenant, k)
    ensures LastFix(tenant, fixes, k).Some? ==>
              exists j :: IsLastFixFor(fixes, j, tenant, k) &&
                var b, f := LastFix(tenant, fixes, k).value, fixes[j].finding;
                && b.fixHint == f.fixHint && b.savingsLow == f.savingsLow && b.savingsHigh == f.savingsHigh
                && b.costBefore == f.costHigh
  {
    if fixes != [] {
      var n := |fixes| - 1;
      LastFixIsLast(tenant, fixes[..n], k);
      assert fixes == fixes[..n] + [fixes[n]];
      assert IsFixFor(fixes[n], tenant, k) <==> fixes[n].finding.fixHint != "" && KeyOfFix(tenant, fixes[n]) == k;
      if IsFixFor(fixes[n], tenant, k) {
        assert IsLastFixFor(fixes, n, tenant, k);
      } else if LastFix(tenant, fixes, k).Some? {
        var j :| IsLastFixFor(fixes[..n], j, tenant, k)
                 && LastFix(tenant, fixes[..n], k).value == BaselineOf(fixes[..n][j]);
        assert IsLastFixFor(fixes, j, tenant, k);
      }
    }
  }

  // ----- Measured -----

  predicate InSnapshots(r: RawRow, tenant: int, clusterId: string) {
    r.tenant == tenant && r.clusterId == clusterId
  }

  /** `COALESCE(MAX(reported_at), 0)` of one cluster. */
  function LatestTime(raw: seq<RawRow>, tenant: int, clusterId: string): nat {
    if raw == [] then 0
    else
      var r, before := raw[|raw| - 1], LatestTime(raw[..|raw| - 1], tenant, clusterId);
      if InSnapshots(r, tenant, clusterId) && r.reportedAt > before then r.reportedAt else before
  }

  predicate InPair(r: RawRow, k: OutcomeKey, at: nat) {
    && InSnapshots(r, k.tenant, k.clusterId) && r.reportedAt == at
    && r.finding.source == k.source && r.finding.destination == k.destination
  }

  /** The highest cost of the pair in one snapshot, whatever the path class; none if the pair is gone. */
  function HighestCost(raw: seq<RawRow>, k: OutcomeKey, at: nat): Option<real> {
    if raw == [] then None
    else
      var r, before := raw[|raw| - 1], HighestCost(raw[..|raw| - 1], k, at);
      if InPair(r, k, at) && (before.None? || r.finding.costHigh > before.value) then Some(r.finding.costHigh)
      else before
  }

  /** A pair that is gone costs nothing. */
  function CostAt(raw: seq<RawRow>, k: OutcomeKey, at: nat): real {
    var highest := HighestCost(raw, k, at);
    if highest.Some? then highest.value else 0.0
  }

  lemma {:induction false} LatestIsLatest(raw: seq<RawRow>, tenant: int, clusterId: string)
    ensures forall r | r in raw && InSnapshots(r, tenant, clusterId) ::
              r.reportedAt <= LatestTime(raw, tenant, clusterId)
    ensures LatestTime(raw, tenant, clusterId) > 0 ==>
              exists r | r in raw ::
                InSnapshots(r, tenant, clusterId) && r.reportedAt == LatestTime(raw, tenant, clusterId)
  {
    if raw != [] {
      LatestIsLatest(raw[..|raw| - 1], tenant, clusterId);
      assert raw == raw[..|raw| - 1] + [raw[|raw| - 1]];
    }
  }

  lemma {:induction false} HighestIsHighest(raw: seq<RawRow>, k: OutcomeKey, at: nat)
    ensures HighestCost(raw, k, at).None? <==> forall r | r in raw :: !InPair(r, k, at)
    ensures HighestCost(raw, k, at).Some? ==>
              && (forall r | r in raw && InPair(r, k, at) :: r.finding.costHigh <= HighestCost(raw, k, at).value)
              && exists r | r in raw :: InPair(r, k, at) && r.finding.costHigh == HighestCost(raw, k, at).value
  {
    if raw != [] {
      HighestIsHighest(raw[..|raw| - 1], k, at);
      assert raw == raw[..|raw| - 1] + [raw[|raw| - 1]];
    }
  }

  predicate IsPending(r: RecommendationOutcome) {
    r.appliedAt.Some? && r.costAfter.None?
  }

  predicate WaitsSince(r: RecommendationOutcome, appliedAt: nat) {
    IsPending(r) && r.appliedAt == Some(appliedAt)
  }

  /** What one measurement pass read about one outcome. */
  datatype Reading = Reading(key: OutcomeKey, appliedAt: nat, snapshot: nat, cost: real)

  /** One read of one pending outcome: the latest snapshot must be newer than the application. */
  predicate IsReading(u: Reading, raw: seq<RawRow>) {
    && u.snapshot == LatestTime(raw, u.key.tenant, u.key.clusterId) > u.appliedAt
    && u.cost == CostAt(raw, u.key, u.snapshot)
  }

  /** An applied outcome waiting for fresher data. */
  datatype Pending = Pending(key: OutcomeKey, appliedAt: nat)

  predicate IsFresh(p: Pending, raw: seq<RawRow>) {
    LatestTime(raw, p.key.tenant, p.key.clusterId) > p.appliedAt
  }

  function ReadingOf(p: Pending, raw: seq<RawRow>): Reading {
    var latest := LatestTime(raw, p.key.tenant, p.key.clusterId);
    Reading(p.key, p.appliedAt, latest, CostAt(raw, p.key, latest))
  }

  /** What one pass reads over a list of pending outcomes: those without fresher data stay pending. */
  function Readings(pendings: seq<Pending>, raw: seq<RawRow>): seq<Reading> {
    if pendings == [] then []
    else
      var p := pendings[|pendings| - 1];
      Readings(pendings[..|pendings| - 1], raw) + if IsFresh(p, raw) then [ReadingOf(p, raw)] else []
  }

  lemma {:induction false} ReadingsAreExact(pendings: seq<Pending>, raw: seq<RawRow>, u: Reading)
    ensures u in Readings(pendings, raw) <==> Pending(u.key, u.appliedAt) in pendings && IsReading(u, raw)
  {
    hide LatestTime, CostAt;
    if pendings != [] {
      ReadingsAreExact(pendings[..|pendings| - 1], raw, u);
      assert pendings == pendings[..|pendings| - 1] + [pendings[|pendings| - 1]];
    }
  }

  function SaveOne(rows: Outcomes, u: Reading, now: nat): Outcomes {
    if u.key in rows then rows[u.key := rows[u.key].(costAfter := Some(u.cost), measuredAt := Some(now))] else rows
  }

  function Saved(rows: Outcomes, batch: seq<Reading>, now: nat): Outcomes {
    if batch == [] then rows else SaveOne(Saved(rows, batch[..|batch| - 1], now), batch[|batch| - 1], now)
  }

  // ----- The table -----

  /** Then it reads the snapshots for each of them. */
  method ReadPendings(pendings: seq<Pending>, raw: seq<RawRow>) returns (toUpdate: seq<Reading>)
    ensures toUpdate == Readings(pendings, raw)
  {
    toUpdate := [];
    for i := 0 to |pendings|
      invariant toUpdate == Readings(pendings[..i], raw)
    {
      assert pendings[..i + 1][..i] == pendings[..i];
      var latest := LatestTime(raw, pendings[i].key.tenant, pendings[i].key.clusterId);
      if latest <= pendings[i].appliedAt {
        continue;
      }
      var cost := CostAt(raw, pendings[i].key, latest);
      toUpdate := toUpdate + [Reading(pendings[i].key, pendings[i].appliedAt, latest, cost)];
    }
    assert pendings[..|pendings|] == pendings;
  }

  class OutcomeTable {
    var rows: Outcomes

    constructor ()
      ensures rows == map[]
    {
      rows := map[];
    }

    /** Statements are begin, prepare, one upsert per hinted fix, commit; see `Compaction` for `fails`. */
    method RecordRecommendationsShown(tenant: int, fixes: seq<FindingRow>, now: nat, fails: nat -> bool)
      returns (failed: bool)
      modifies this
      ensures rows == if failed then old(rows) else Shown(old(rows), tenant, fixes, now)
      ensures (forall n :: !fails(n)) ==> !failed
    {
      if fails(0) || fails(1) {
        return true;
      }
      var tx, n := rows, 2;
      for i := 0 to |fixes|
        invariant tx == Shown(old(rows), tenant, fixes[..i], now)
      {
        assert fixes[..i + 1][..i] == fixes[..i];
        if fixes[i].finding.fixHint == "" {
          continue;
        }
        if fails(n) {
          return true;
        }
        n := n + 1;
        tx := ShowOne(tx, KeyOfFix(tenant, fixes[i]), BaselineOf(fixes[i]), now);
      }
      if fails(n) {
        return true;
      }
      assert fixes[..|fixes|] == fixes;
      rows := tx;
      failed := false;
    }

    /** Applying a second time is no error and changes nothing; an unknown outcome is reported. */
    method MarkRecommendationApplied(tenant: int, clusterId: string, source: string, destination: string,
                                     pathClass: string, now: nat)
      returns (found: bool)
      modifies this
      ensures found <==> OutcomeKey(tenant, clusterId, source, destination, pathClass) in old(rows)
      ensures rows == AppliedTo(old(rows), OutcomeKey(tenant, clusterId, source, destination, pathClass), now)
    {
      var k := OutcomeKey(tenant, clusterId, source, destination, pathClass);
      var affected := 0;
      if k in rows && rows[k].appliedAt.None? {
        rows := rows[k := rows[k].(appliedAt := Some(now))];
        affected := 1;
      }
      if affected == 0 && k !in rows {
        return false;
      }
      return true;
    }

    /** A pass first lists the pending outcomes of the tenant, each once, in any order. */
    method ListPending(tenant: int) returns (pendings: seq<Pending>)
      ensures forall p: Pending ::
                p in pendings <==>
                  && p.key in rows && p.key.tenant == tenant
                  && rows[p.key].appliedAt == Some(p.appliedAt) && rows[p.key].costAfter.None?
      ensures forall i, j | 0 <= i < j < |pendings| :: pendings[i].key != pendings[j].key
    {
      var table := rows;
      var pending := set k | k in table && k.tenant == tenant && IsPending(table[k]);
      var keys := Elements(pending);
      ListingHasNoRepeats(keys, pending);
      assert forall i | 0 <= i < |keys| :: keys[i] in keys && keys[i] in pending;
      pendings := seq(|keys|, i requires 0 <= i < |keys| => Pending(keys[i], table[keys[i]].appliedAt.value));
      forall p: Pending | p.key in table && p.key.tenant == tenant && WaitsSince(table[p.key], p.appliedAt)
        ensures p in pendings
      {
        assert p.key in keys;
        var i :| 0 <= i < |keys| && keys[i] == p.key;
        assert pendings[i] == p;
      }
    }

    /** The write phase: one transaction for the whole pass. */
    method SaveMeasurements(batch: seq<Reading>, now: nat, fails: nat -> bool) returns (failed: bool)
      modifies this
      ensures rows == if failed then old(rows) else Saved(old(rows), batch, now)
      ensures (forall n :: !fails(n)) ==> !failed
    {
      if batch == [] {
        return false;
      }
      if fails(0) || fails(1) {
        return true;
      }
      var tx := rows;
      for i := 0 to |batch|
        invariant tx == Saved(old(rows), batch[..i], now)
      {
        assert batch[..i + 1][..i] == batch[..i];
        if fails(i + 2) {
          return true;
        }
        tx := SaveOne(tx, batch[i], now);
      }
      if fails(|batch| + 2) {
        return true;
      }
      assert batch[..|batch|] == batch;
      rows := tx;
      failed := false;
    }
  }

  /** The table after a batch of fixes was shown. */
  function Shown(rows: Outcomes, tenant: int, fixes: seq<FindingRow>, now: nat): Outcomes {
    if fixes == [] then rows
    else
      var before, f := Shown(rows, tenant, fixes[..|fixes| - 1], now), fixes[|fixes| - 1];
      if f.finding.fixHint == "" then before else ShowOne(before, KeyOfFix(tenant, f), BaselineOf(f), now)
  }

  function AppliedTo(rows: Outcomes, k: OutcomeKey, now: nat): Outcomes {
    if k in rows && rows[k].appliedAt.None? then rows[k := rows[k].(appliedAt := Some(now))] else rows
  }

  /** What showing a batch does to one row: its last fix counts, and only before the row is applied. */
  lemma {:induction false} ShownAt(rows: Outcomes, tenant: int, fixes: seq<FindingRow>, now: nat, k: OutcomeKey)
    ensures var after, b := Shown(rows, tenant, fixes, now), LastFix(tenant, fixes, k);
      if b.None? then (k in after <==> k in rows) && (k in rows ==> after[k] == rows[k])
      else
        && k in after
        && after[k] == if k in rows then ShownAgain(rows[k], b.value, now)
                       else RecommendationOutcome(b.value, now, now, None, None, None)
  {
    hide KeyOfFix, BaselineOf;
    if fixes != [] {
      ShownAt(rows, tenant, fixes[..|fixes| - 1], now, k);
    }
  }

  /** What saving a batch does to one row. */
  lemma {:induction false} SavedAt(rows: Outcomes, batch: seq<Reading>, now: nat, k: OutcomeKey)
    ensures var after := Saved(rows, batch, now);
      && (k in after <==> k in rows)
      && (k in rows ==>
           || (after[k] == rows[k] && forall u | u in batch :: u.key != k)
           || exists u | u in batch ::
                u.key == k && after[k] == rows[k].(costAfter := Some(u.cost), measuredAt := Some(now)))
  {
    if batch != [] {
      var front, u := batch[..|batch| - 1], batch[|batch| - 1];
      SavedAt(rows, front, now, k);
      assert batch == front + [u];
    }
  }
}
