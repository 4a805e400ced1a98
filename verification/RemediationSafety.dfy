/** End to end: which findings the whole pipeline still marks for automatic application, in terms of
    every row the tenant's cluster ever ingested, compacted away or not. */
module RemediationSafety {
  import opened Compaction
  import opened Findings
  import opened History
  import opened Remediation
  import opened StoreRuns
  import opened Tables
  import opened TrafficReplay

  /** Every lookup that succeeds answers from the given tables. */
  ghost predicate AnswersFrom(fetch: (string, string) -> Fetched, db: Db, tenant: int) {
    forall clusterId, ip :: fetch(clusterId, ip).Rows? ==>
      IsHistory(db, Lookup(tenant, clusterId, ip), fetch(clusterId, ip).rows)
  }

  ghost predicate NonNegativeCosts(rows: seq<RawRow>) {
    forall r | r in rows :: r.finding.costHigh >= 0.0
  }

  /** Recorded, paid-for traffic of a cluster's workload to one of the addresses. */
  predicate PaidTraffic(r: RawRow, tenant: int, clusterId: string, ips: seq<string>) {
    r.tenant == tenant && r.clusterId == clusterId && r.finding.destination in ips && r.finding.costHigh > 0.0
  }

  // ----- From rows to sums -----

  lemma {:induction false} PaidCost(rows: seq<RawRow>, q: Lookup, source: string)
    requires NonNegativeCosts(rows)
    ensures RowCost(rows, q, source) >= 0.0
    ensures RowCost(rows, q, source) > 0.0 <==>
              exists r | r in rows :: Matches(r, q) && r.finding.source == source && r.finding.costHigh > 0.0
    ensures RowCost(rows, q, source) > 0.0 ==> source in RowSources(rows, q)
  {
    if rows != [] {
      var front, r := rows[..|rows| - 1], rows[|rows| - 1];
      PaidCost(front, q, source);
      assert rows == front + [r];
    }
  }

  lemma {:induction false} IntendedPaid(rows: seq<HistoricalFlowCost>, flagged: string)
    requires forall row | row in rows :: row.costHigh >= 0.0
    ensures Intended(rows, flagged) >= 0.0
    ensures Intended(rows, flagged) != 0.0 <==> exists row | row in rows :: row.source == flagged && row.costHigh > 0.0
  {
    if rows != [] {
      IntendedPaid(rows[..|rows| - 1], flagged);
      assert rows == rows[..|rows| - 1] + [rows[|rows| - 1]];
    }
  }

  lemma {:induction false} CollateralPaid(rows: seq<HistoricalFlowCost>, namespace: string, flagged: string)
    requires forall row | row in rows :: row.costHigh >= 0.0
    ensures Collateral(rows, namespace, flagged) >= 0.0
    ensures Collateral(rows, namespace, flagged) != 0.0 <==>
              exists row | row in rows :: IsCollateral(row, namespace, flagged) && row.costHigh > 0.0
  {
    if rows != [] {
      CollateralPaid(rows[..|rows| - 1], namespace, flagged);
      assert rows == rows[..|rows| - 1] + [rows[|rows| - 1]];
    }
  }

  lemma {:induction false} GatherMembers(fetch: (string, string) -> Fetched, clusterId: string, ips: seq<string>)
    requires Gather(fetch, clusterId, ips).Rows?
    ensures forall ip | ip in ips :: fetch(clusterId, ip).Rows?
    ensures forall row :: row in Gather(fetch, clusterId, ips).rows <==>
              exists ip | ip in ips :: row in fetch(clusterId, ip).rows
  {
    if ips != [] {
      var front, last := ips[..|ips| - 1], ips[|ips| - 1];
      GatherMembers(fetch, clusterId, front);
      assert ips == front + [last];
    }
  }

  // ----- What the gathered history says -----

  /** A source pays for one of the addresses, according to the whole log. */
  ghost predicate Pays(log: seq<Entry>, tenant: int, clusterId: string, ips: seq<string>, source: string) {
    exists r | r in AllRows(log) :: PaidTraffic(r, tenant, clusterId, ips) && r.finding.source == source
  }

  lemma PaysByAddress(log: seq<Entry>, tenant: int, clusterId: string, ips: seq<string>, source: string)
    requires NonNegativeCosts(AllRows(log))
    ensures Pays(log, tenant, clusterId, ips, source) <==>
              exists ip | ip in ips :: RowCost(AllRows(log), Lookup(tenant, clusterId, ip), source) > 0.0
  {
    var rows := AllRows(log);
    if Pays(log, tenant, clusterId, ips, source) {
      var r :| r in rows && PaidTraffic(r, tenant, clusterId, ips) && r.finding.source == source;
      PaidCost(rows, Lookup(tenant, clusterId, r.finding.destination), source);
    }
    forall ip | ip in ips && RowCost(rows, Lookup(tenant, clusterId, ip), source) > 0.0
      ensures Pays(log, tenant, clusterId, ips, source)
    {
      PaidCost(rows, Lookup(tenant, clusterId, ip), source);
    }
  }

  /** One successful lookup lists exactly the log's sources with the log's costs. */
  lemma AnswerIsLog(steps: seq<Step>, q: Lookup, out: seq<HistoricalFlowCost>, source: string)
    requires IsHistory(Run(steps).db, q, out) && NonNegativeCosts(AllRows(Run(steps).log))
    ensures forall row | row in out && row.source == source ::
              row.costHigh == RowCost(AllRows(Run(steps).log), q, source)
    ensures RowCost(AllRows(Run(steps).log), q, source) > 0.0 <==>
              exists row | row in out :: row.source == source && row.costHigh > 0.0
  {
    var rows := AllRows(Run(steps).log);
    HistoryIsComplete(steps, q, source);
    PaidCost(rows, q, source);
    if RowCost(rows, q, source) > 0.0 {
      var i :| 0 <= i < |out| && out[i].source == source;
      assert out[i] in out;
    }
  }

  lemma GatheredIsLog(steps: seq<Step>, tenant: int, fetch: (string, string) -> Fetched, clusterId: string,
                      ips: seq<string>, source: string)
    requires AnswersFrom(fetch, Run(steps).db, tenant) && NonNegativeCosts(AllRows(Run(steps).log))
    requires Gather(fetch, clusterId, ips).Rows?
    ensures Pays(Run(steps).log, tenant, clusterId, ips, source) <==>
              exists row | row in Gather(fetch, clusterId, ips).rows :: row.source == source && row.costHigh > 0.0
  {
    GatherMembers(fetch, clusterId, ips);
    PaysByAddress(Run(steps).log, tenant, clusterId, ips, source);
    forall ip | ip in ips
      ensures RowCost(AllRows(Run(steps).log), Lookup(tenant, clusterId, ip), source) > 0.0 <==>
                exists row | row in fetch(clusterId, ip).rows :: row.source == source && row.costHigh > 0.0
    {
      AnswerIsLog(steps, Lookup(tenant, clusterId, ip), fetch(clusterId, ip).rows, source);
    }
  }

  lemma GatheredNonNegative(steps: seq<Step>, tenant: int, fetch: (string, string) -> Fetched, clusterId: string,
                            ips: seq<string>)
    requires AnswersFrom(fetch, Run(steps).db, tenant) && NonNegativeCosts(AllRows(Run(steps).log))
    requires Gather(fetch, clusterId, ips).Rows?
    ensures forall row | row in Gather(fetch, clusterId, ips).rows :: row.costHigh >= 0.0
  {
    GatherMembers(fetch, clusterId, ips);
    forall row | row in Gather(fetch, clusterId, ips).rows ensures row.costHigh >= 0.0 {
      var ip :| ip in ips && row in fetch(clusterId, ip).rows;
      var q := Lookup(tenant, clusterId, ip);
      AnswerIsLog(steps, q, fetch(clusterId, ip).rows, row.source);
      PaidCost(AllRows(Run(steps).log), q, row.source);
    }
  }

  // ----- The theorem -----

  /** The recorded history calls the policy safe: its subject has paid-for rows under a blocked address, nobody else of
      its namespace does. */
  ghost predicate SafeByLog(log: seq<Entry>, tenant: int, f: FindingRow) {
    var ips, namespace := BlockedIPs(f.finding.fixManifest), NamespaceOf(f.finding.fixManifest);
    && Pays(log, tenant, f.clusterId, ips, f.finding.source)
    && forall r | r in AllRows(log) && PaidTraffic(r, tenant, f.clusterId, ips)
       && r.finding.source != f.finding.source ::
         ExtractNamespace(r.finding.source) != Some(namespace)
  }

  lemma ReplayDecidesSafety(steps: seq<Step>, tenant: int, fetch: (string, string) -> Fetched, f: FindingRow,
                            replay: TrafficReplayResult)
    requires AnswersFrom(fetch, Run(steps).db, tenant) && NonNegativeCosts(AllRows(Run(steps).log))
    requires Gather(fetch, f.clusterId, BlockedIPs(f.finding.fixManifest)).Rows?
    requires IsReplay(replay, NamespaceOf(f.finding.fixManifest), f.finding.source, BlockedIPs(f.finding.fixManifest),
                      Gather(fetch, f.clusterId, BlockedIPs(f.finding.fixManifest)).rows)
    ensures replay.safe <==> SafeByLog(Run(steps).log, tenant, f)
  {
    var log, ips, namespace := Run(steps).log, BlockedIPs(f.finding.fixManifest), NamespaceOf(f.finding.fixManifest);
    var rows, flagged := Gather(fetch, f.clusterId, ips).rows, f.finding.source;
    GatheredNonNegative(steps, tenant, fetch, f.clusterId, ips);
    GatheredIsLog(steps, tenant, fetch, f.clusterId, ips, flagged);
    IntendedPaid(rows, flagged);
    CollateralPaid(rows, namespace, flagged);
    if Collateral(rows, namespace, flagged) != 0.0 {
      var row :| row in rows && IsCollateral(row, namespace, flagged) && row.costHigh > 0.0;
      GatheredIsLog(steps, tenant, fetch, f.clusterId, ips, row.source);
    } else {
      forall r | r in AllRows(log) && PaidTraffic(r, tenant, f.clusterId, ips) && r.finding.source != flagged
        ensures ExtractNamespace(r.finding.source) != Some(namespace)
      {
        GatheredIsLog(steps, tenant, fetch, f.clusterId, ips, r.finding.source);
        assert Pays(log, tenant, f.clusterId, ips, r.finding.source);
        var row :| row in rows && row.source == r.finding.source && row.costHigh > 0.0;
      }
    }
  }

  /** A finding survives the default pipeline exactly when it clears the bars, its policy names a namespace and
      an address, and the rows ever ingested for that cluster under a blocked address show the policy to be safe. */
  lemma AutoApplyIsSafe(steps: seq<Step>, tenant: int, fetch: (string, string) -> Fetched, f: FindingRow,
                        d: RemediationDecision, after: RemediationDecision)
    requires AnswersFrom(fetch, Run(steps).db, tenant) && NonNegativeCosts(AllRows(Run(steps).log))
    requires Decides(f, DefaultRemediationPolicy(), d)
    requires Gated(d, after, DefaultRemediationPolicy(), fetch)
    ensures after.wouldAutoApply <==>
              && f.finding.confidence == "high" && f.finding.savingsHigh >= 0.01
              && f.finding.fixManifest.Policy?
              && NamespaceOf(f.finding.fixManifest) != "" && BlockedIPs(f.finding.fixManifest) != []
              && SafeByLog(Run(steps).log, tenant, f)
  {
    if Candidate(d) && Understood(d.fixManifest) {
      var gathered := Gather(fetch, d.clusterId, BlockedIPs(d.fixManifest));
      var replay :| IsReplay(replay, NamespaceOf(d.fixManifest), d.source, BlockedIPs(d.fixManifest), gathered.rows)
        && after == Applied(d, replay, DefaultRemediationPolicy());
      ReplayDecidesSafety(steps, tenant, fetch, f, replay);
    }
  }

  // ----- What the decision looks at -----

  /** A row of the tenant and cluster that is recorded under a blocked address. */
  predicate IsConsulted(r: RawRow, tenant: int, f: FindingRow) {
    r.tenant == tenant && r.clusterId == f.clusterId && r.finding.destination in BlockedIPs(f.finding.fixManifest)
  }

  ghost predicate SameConsulted(a: seq<RawRow>, b: seq<RawRow>, tenant: int, f: FindingRow) {
    forall r | IsConsulted(r, tenant, f) :: r in a <==> r in b
  }

  lemma OnlyConsultedRowsDecide(log: seq<Entry>, other: seq<Entry>, tenant: int, f: FindingRow)
    requires SameConsulted(AllRows(log), AllRows(other), tenant, f)
    ensures SafeByLog(log, tenant, f) <==> SafeByLog(other, tenant, f)
  {
    hide BlockedIPs, NamespaceOf, ExtractNamespace, AllRows;
    if SafeByLog(log, tenant, f) {
      SafeTransfers(AllRows(log), log, other, tenant, f);
    } else if SafeByLog(other, tenant, f) {
      SafeTransfers(AllRows(other), other, log, tenant, f);
    }
  }

  lemma SafeTransfers(rows: seq<RawRow>, log: seq<Entry>, other: seq<Entry>, tenant: int, f: FindingRow)
    requires rows == AllRows(log) && SameConsulted(rows, AllRows(other), tenant, f) && SafeByLog(log, tenant, f)
    ensures SafeByLog(other, tenant, f)
  {
    hide BlockedIPs, NamespaceOf, ExtractNamespace, AllRows;
    var ips := BlockedIPs(f.finding.fixManifest);
    var own :| own in rows && PaidTraffic(own, tenant, f.clusterId, ips) && own.finding.source == f.finding.source;
    assert IsConsulted(own, tenant, f);
    forall r | r in AllRows(other) && PaidTraffic(r, tenant, f.clusterId, ips) && r.finding.source != f.finding.source
      ensures ExtractNamespace(r.finding.source) != Some(NamespaceOf(f.finding.fixManifest))
    {
      assert IsConsulted(r, tenant, f);
    }
  }

  /** Two histories that agree on the rows recorded under a blocked address lead to one decision, whatever else they
      hold. */
  lemma OtherRowsKeepTheDecision(steps: seq<Step>, others: seq<Step>, tenant: int, fetch: (string, string) -> Fetched,
                                 refetch: (string, string) -> Fetched, f: FindingRow, d: RemediationDecision,
                                 after: RemediationDecision, instead: RemediationDecision)
    requires AnswersFrom(fetch, Run(steps).db, tenant) && NonNegativeCosts(AllRows(Run(steps).log))
    requires AnswersFrom(refetch, Run(others).db, tenant) && NonNegativeCosts(AllRows(Run(others).log))
    requires SameConsulted(AllRows(Run(steps).log), AllRows(Run(others).log), tenant, f)
    requires Decides(f, DefaultRemediationPolicy(), d)
    requires Gated(d, after, DefaultRemediationPolicy(), fetch)
             && Gated(d, instead, DefaultRemediationPolicy(), refetch)
    ensures after.wouldAutoApply <==> instead.wouldAutoApply
  {
    hide Run, AnswersFrom, Gated, Decides, SameConsulted, SafeByLog, NonNegativeCosts, AllRows;
    AutoApplyIsSafe(steps, tenant, fetch, f, d, after);
    AutoApplyIsSafe(others, tenant, refetch, f, d, instead);
    OnlyConsultedRowsDecide(Run(steps).log, Run(others).log, tenant, f);
  }

  /** Ingesting findings that are recorded under anything else adds nothing to these rows. */
  lemma OtherFindingsAreNotConsulted(steps: seq<Step>, ingest: Step, tenant: int, f: FindingRow)
    requires ingest.IngestStep? && forall x | x in ingest.findings ::
               x.destination !in BlockedIPs(f.finding.fixManifest)
    ensures SameConsulted(AllRows(Run(steps).log), AllRows(Run(steps + [ingest]).log), tenant, f)
  {
    hide BlockedIPs;
    assert (steps + [ingest])[..|steps|] == steps;
    var rows := Snapshot(ingest.tenant, ingest.clusterId, ingest.now, ingest.findings);
    AllRowsGrow(Run(steps).log, rows);
    forall r | r in rows ensures !IsConsulted(r, tenant, f) {
      assert r.finding in ingest.findings;
    }
  }

  // ----- Safe is not unused -----

  /** A safe result can still list affected workloads: exactly when its subject paid, and the others that are recorded
      under a blocked address are so at no cost only. For traffic that is recorded under a name see the end-to-end
      theorems. */
  lemma SafeButAffected(result: TrafficReplayResult, namespace: string, flagged: string, ips: seq<string>,
                        rows: seq<HistoricalFlowCost>)
    requires IsReplay(result, namespace, flagged, ips, rows) && forall row | row in rows :: row.costHigh >= 0.0
    ensures result.safe && result.affectedWorkloads != [] <==>
              && (exists row | row in rows :: row.source == flagged && row.costHigh > 0.0)
              && (exists row | row in rows :: IsCollateral(row, namespace, flagged))
              && (forall row | row in rows && IsCollateral(row, namespace, flagged) :: row.costHigh == 0.0)
  {
    hide Intended, Collateral, IsCollateral;
    IntendedPaid(rows, flagged);
    CollateralPaid(rows, namespace, flagged);
    if result.affectedWorkloads != [] {
      assert result.affectedWorkloads[0] in result.affectedWorkloads;
    }
    if row :| row in rows && IsCollateral(row, namespace, flagged) {
      assert row.source in result.affectedWorkloads;
    }
  }

  /** Such a history: another workload of the namespace was only ever seen for nothing. */
  lemma FreeTrafficIsOverlooked(result: TrafficReplayResult, namespace: string, flagged: string, other: string,
                                ips: seq<string>)
    requires other != flagged && ExtractNamespace(other) == Some(namespace)
    requires IsReplay(result, namespace, flagged, ips,
                      [HistoricalFlowCost(flagged, 1.0), HistoricalFlowCost(other, 0.0)])
    ensures result.safe && other in result.affectedWorkloads
  {
    hide Intended, Collateral, ExtractNamespace;
    var rows := [HistoricalFlowCost(flagged, 1.0), HistoricalFlowCost(other, 0.0)];
    assert rows[0] in rows && rows[1] in rows;
    assert IsCollateral(rows[1], namespace, flagged);
    SafeButAffected(result, namespace, flagged, ips, rows);
    assert other in Affected(rows, namespace, flagged);
  }
}
