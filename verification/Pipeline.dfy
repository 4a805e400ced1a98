/** From the agent's report through the store to the remediation gate: what a shipped finding needs to be applied
    automatically, and what the gate cannot see of the traffic it is about. */
module Pipeline {
  import opened Classify
  import opened Findings
  import opened Report
  import opened Tables
  import History
  import Remediation
  import RemediationSafety
  import ReportRuns
  import StoreRuns
  import TrafficReplay

  // ----- Under which name traffic is recorded -----

  /** The destination is known by a service, pod or endpoint that has a namespace and a name. */
  predicate ByName(o: Observation) {
    if o.service.Some? then o.service.value.namespace != "" && o.service.value.name != ""
    else if o.destination.Some? then o.destination.value.namespace != "" && o.destination.value.pod != ""
    else o.endpoint.Some? && o.endpoint.value.namespace != "" && o.endpoint.value.podName != ""
  }

  /** An endpoint that leaves the address as the name: it is no pod and has no other address. */
  predicate KeepsAddress(e: KubeEndpoint, address: string) {
    if e.podName == "" then e.ip == "" || e.ip == address else e.namespace == "" && e.podName == address
  }

  /** Nothing gives the destination a name of its own. */
  predicate ByAddress(o: Observation) {
    if o.service.Some? then o.service.value.namespace == "" && o.service.value.name == RemoteText(o)
    else
      && (o.destination.Some? ==> o.destination.value.namespace == "" && o.destination.value.pod == RemoteText(o))
      && (o.endpoint.Some? ==> KeepsAddress(o.endpoint.value, RemoteText(o)))
  }

  /** Services and pods always have a namespace and a name, and endpoints a namespace; an endpoint need not be a pod. */
  predicate InCluster(o: Observation) {
    && (o.service.Some? ==> o.service.value.namespace != "" && o.service.value.name != "")
    && (o.destination.Some? ==> o.destination.value.namespace != "" && o.destination.value.pod != "")
    && (o.endpoint.Some? ==> o.endpoint.value.namespace != "")
  }

  lemma SlashBetween(a: string, b: string)
    ensures '/' in a + "/" + b
  {
    assert (a + "/" + b)[|a|] == '/';
  }

  lemma NamesHaveSlashes(o: Observation)
    ensures '/' !in RemoteText(o) && RemoteText(o) != ""
    ensures ByName(o) ==> '/' in DestName(o)
  {
    if o.service.Some? {
      ServiceNameIsNoAddress(o.service.value, RemoteText(o));
    } else if o.destination.Some? {
      WorkloadNameIsNoAddress(o.destination.value, RemoteText(o));
    } else if o.endpoint.Some? {
      EndpointNameIsNoAddress(o.endpoint.value, RemoteText(o));
    }
  }

  lemma ServiceNameIsNoAddress(s: KubeService, address: string)
    requires '/' !in address && address != ""
    ensures s.namespace != "" && s.name != "" ==> '/' in ServiceName(s)
    ensures ServiceName(s) == address <==> s.namespace == "" && s.name == address
  {
    SlashBetween(s.namespace, "service/" + s.name);
    assert s.namespace + "/service/" + s.name == s.namespace + "/" + ("service/" + s.name);
  }

  lemma WorkloadNameIsNoAddress(w: KubeWorkload, address: string)
    requires '/' !in address && address != ""
    ensures w.namespace != "" && w.pod != "" ==> '/' in WorkloadName(w)
    ensures WorkloadName(w) == address <==> w.namespace == "" && w.pod == address
  {
    SlashBetween(w.namespace, w.pod);
  }

  lemma EndpointNameIsNoAddress(e: KubeEndpoint, address: string)
    requires '/' !in address && address != ""
    ensures e.namespace != "" && e.podName != "" ==> '/' in EndpointName(e)
    ensures EndpointName(e) == "" || EndpointName(e) == address <==> KeepsAddress(e, address)
  {
    SlashBetween(e.namespace, e.podName);
  }

  /** Traffic of any class is recorded under its address exactly when nothing names its destination: in a cluster, when
      it is behind no resolved service and belongs to no pod, and whatever endpoint is known for it has no other
      address. */
  lemma RecordedByAddress(o: Observation)
    ensures DestName(o) == RemoteText(o) <==> ByAddress(o)
    ensures InCluster(o) ==>
              (ByAddress(o) <==>
                 && o.service.None? && o.destination.None?
                 && (o.endpoint.Some? ==>
                       o.endpoint.value.podName == ""
                       && (o.endpoint.value.ip == "" || o.endpoint.value.ip == RemoteText(o))))
  {
    hide WorkloadName, ServiceName, EndpointName, IpText;
    NamesHaveSlashes(o);
    if o.service.Some? {
      ServiceNameIsNoAddress(o.service.value, RemoteText(o));
    }
    if o.destination.Some? {
      WorkloadNameIsNoAddress(o.destination.value, RemoteText(o));
    }
    if o.endpoint.Some? {
      EndpointNameIsNoAddress(o.endpoint.value, RemoteText(o));
    }
  }

  /** Crossing regions takes a known destination node, so cross-region traffic is recorded by name, except to an
      endpoint that is neither behind a resolved service nor a pod: that is recorded by its address. */
  lemma CrossRegionIsResolved(o: Observation, s: Settings, zoneOf: string -> string)
    requires InCluster(o) && Classified(InputOf(o, s), zoneOf).0 == CrossRegion
    ensures ByName(o) <==> o.service.Some? || o.destination.Some? || o.endpoint.value.podName != ""
    ensures !ByName(o) ==> DestName(o) == if o.endpoint.value.ip != "" then o.endpoint.value.ip else RemoteText(o)
  {
    CrossingNeedsZones(InputOf(o, s), zoneOf);
  }

  // ----- Where a finding's fields come from -----

  /** Where a shipped finding came from: an agent's settings, what it was told until it shipped, and the
      finding's key. */
  datatype Origin = Origin(s: Settings, calls: seq<ReportRuns.Call>, key: string) {
    ghost predicate Valid() {
      key in ReportRuns.Run(s, calls)
    }

    ghost function Finding(): AgentFinding
      requires Valid()
    {
      ReportRuns.Run(s, calls)[key]
    }

    ghost function OnTheWire(): Finding
      requires Valid()
    {
      ReportRuns.Shipped(Finding(), s.priceBook)
    }
  }

  /** The last observation under a key: the one that describes its finding. */
  function Describing(s: Settings, calls: seq<ReportRuns.Call>, key: string): ReportRuns.Call
    requires key in ReportRuns.Run(s, calls)
  {
    var c := calls[|calls| - 1];
    if key == ReportRuns.CallKey(s, c) then c else Describing(s, calls[..|calls| - 1], key)
  }

  /** The finding carries the class, the names and the address of the observation. */
  ghost predicate DescribedBy(f: AgentFinding, s: Settings, c: ReportRuns.Call) {
    && f.class_ == Classified(InputOf(c.o, s), c.zoneOf).0
    && f.source == SourceName(c.o) && f.destination == DestName(c.o) && f.destIp == RemoteText(c.o)
  }

  lemma {:induction false} LastDescribes(s: Settings, calls: seq<ReportRuns.Call>, key: string)
    requires key in ReportRuns.Run(s, calls)
    ensures var c := Describing(s, calls, key);
      c in calls && DescribedBy(ReportRuns.Run(s, calls)[key], s, c)
  {
    hide Classified, SourceName, DestName, RemoteText, FindingKey;
    var front, c := calls[..|calls| - 1], calls[|calls| - 1];
    if key == ReportRuns.CallKey(s, c) {
      AddedIsDescribed(ReportRuns.Run(s, front), s, c);
    } else {
      LastDescribes(s, front, key);
    }
  }

  lemma AddedIsDescribed(byKey: map<string, AgentFinding>, s: Settings, c: ReportRuns.Call)
    ensures var after := Added(byKey, s, c.o, c.zoneOf, c.tx, c.rx);
      ReportRuns.CallKey(s, c) in after && DescribedBy(after[ReportRuns.CallKey(s, c)], s, c)
  {
    hide Classified, SourceName, DestName, RemoteText, FindingKey;
  }

  /** The observation behind a finding. */
  ghost function Behind(from: Origin): Observation
    requires from.Valid()
  {
    Describing(from.s, from.calls, from.key).o
  }

  lemma RecordedAs(from: Origin)
    requires from.Valid()
    ensures from.Finding().destination == from.Finding().destIp <==> ByAddress(Behind(from))
    ensures '/' !in from.Finding().destIp
    ensures ByName(Behind(from)) ==> '/' in from.Finding().destination
  {
    hide ReportRuns.Run, Classified, ByAddress, ByName, DestName, RemoteText, SourceName;
    LastDescribes(from.s, from.calls, from.key);
    RecordedByAddress(Behind(from));
    NamesHaveSlashes(Behind(from));
  }

  // ----- A history that was shipped -----

  /** Every row ever ingested, with where it came from. */
  ghost predicate Traced(rows: seq<RawRow>, origins: seq<Origin>) {
    |origins| == |rows| && forall i | 0 <= i < |rows| :: origins[i].Valid() && rows[i].finding == origins[i].OnTheWire()
  }

  /** Cross-region traffic was resolved to names. */
  ghost predicate CrossRegionByName(origins: seq<Origin>) {
    forall from | from in origins && from.Valid() && from.Finding().class_ == CrossRegion :: ByName(Behind(from))
  }

  lemma CrossRegionRecordedByName(rows: seq<RawRow>, origins: seq<Origin>, r: RawRow)
    requires Traced(rows, origins) && CrossRegionByName(origins) && r in rows && r.finding.pathClass == "CROSS_REGION"
    ensures '/' in r.finding.destination
  {
    hide ReportRuns.Run, Behind, ByName, Name, ConfidenceName, HintText;
    var i :| 0 <= i < |rows| && rows[i] == r;
    var from := origins[i];
    assert from in origins;
    NamesDiffer(from.Finding().class_, CrossRegion);
    NameOfCrossRegion();
    RecordedAs(from);
  }

  lemma NameOfCrossRegion()
    ensures Name(CrossRegion) == "CROSS_REGION"
  {
  }

  // ----- The gate, for a shipped finding -----

  /** What the default pipeline makes of a stored finding, with lookups answered from the tables of a run. */
  ghost predicate Judged(steps: seq<StoreRuns.Step>, tenant: int, row: FindingRow,
                         after: Remediation.RemediationDecision)
  {
    RemediationSafety.NonNegativeCosts(StoreRuns.AllRows(StoreRuns.Run(steps).log))
    && exists fetch, d :: JudgedBy(steps, tenant, row, fetch, d, after)
  }

  ghost predicate JudgedBy(steps: seq<StoreRuns.Step>, tenant: int, row: FindingRow,
                           fetch: (string, string) -> Remediation.Fetched, d: Remediation.RemediationDecision,
                           after: Remediation.RemediationDecision)
  {
    && RemediationSafety.AnswersFrom(fetch, StoreRuns.Run(steps).db, tenant)
    && Remediation.Decides(row, Remediation.DefaultRemediationPolicy(), d)
    && Remediation.Gated(d, after, Remediation.DefaultRemediationPolicy(), fetch)
  }

  /** A finding clears the bars: it crosses regions, has a manifest and saves enough. */
  predicate Qualifies(f: AgentFinding) {
    f.class_ == CrossRegion && f.fixManifest != NoManifest && f.savingsHigh >= 0.01
  }

  /** A shipped finding survives the default pipeline exactly when it clears the bars, and the rows ever ingested under
      its address show its policy to be safe. */
  lemma ShippedFindingIsGated(from: Origin, steps: seq<StoreRuns.Step>, tenant: int, row: FindingRow,
                              after: Remediation.RemediationDecision)
    requires from.Valid() && row.finding == from.OnTheWire() && Judged(steps, tenant, row, after)
    ensures after.wouldAutoApply <==>
              Qualifies(from.Finding()) && RemediationSafety.SafeByLog(StoreRuns.Run(steps).log, tenant, row)
  {
    hide ReportRuns.Run, StoreRuns.Run, RemediationSafety.SafeByLog, Remediation.Gated, Remediation.Decides,
      RemediationSafety.AnswersFrom, RemediationSafety.NonNegativeCosts, Name, ConfidenceName, HintText,
      TrafficReplay.BlockedIPs, Remediation.FailedBars, Remediation.DefaultRemediationPolicy;
    var fetch, d :| JudgedBy(steps, tenant, row, fetch, d, after);
    ReportRuns.OnlyCrossRegionQualifies(from.s, from.calls, from.key);
    ReportRuns.DefaultBars(row.finding);
    RemediationSafety.AutoApplyIsSafe(steps, tenant, fetch, row, d, after);
    HintComesWithManifest(from.s, from.calls, from.key);
  }

  lemma HintComesWithManifest(s: Settings, calls: seq<ReportRuns.Call>, key: string)
    requires key in ReportRuns.Run(s, calls)
    ensures var f := ReportRuns.Run(s, calls)[key];
      f.fixManifest != NoManifest ==> HintText(f.fixHint) != ""
  {
    hide ReportRuns.Run;
    ReportRuns.RunIsConsistent(s, calls);
    var f := ReportRuns.Run(s, calls)[key];
    if f.fixManifest != NoManifest {
      ReportRuns.ManifestTells(f, s.priceBook);
    }
  }

  // ----- Its own traffic -----

  /** Traffic by this source to the bare address, paid for under another class. */
  predicate OtherwisePaid(r: RawRow, tenant: int, row: FindingRow, address: string) {
    && r.tenant == tenant && r.clusterId == row.clusterId && r.finding.source == row.finding.source
    && r.finding.destination == address && r.finding.costHigh > 0.0 && r.finding.pathClass != "CROSS_REGION"
  }

  /** Traffic to the bare address by another workload of the policy's namespace, paid for. */
  predicate PaidByOther(r: RawRow, tenant: int, row: FindingRow, address: string) {
    && r.tenant == tenant && r.clusterId == row.clusterId && r.finding.source != row.finding.source
    && TrafficReplay.ExtractNamespace(r.finding.source) == Some(TrafficReplay.NamespaceOf(row.finding.fixManifest))
    && r.finding.destination == address && r.finding.costHigh > 0.0
  }

  /** The lookup compares recorded destinations with the blocked address, but cross-region traffic is recorded by name.
      So a shipped finding survives exactly when it clears the bars, its source also paid for the bare address under
      another class, and nobody else of its namespace paid for it: its own traffic, however much was ingested, is no
      evidence. */
  lemma OwnTrafficIsNoEvidence(from: Origin, steps: seq<StoreRuns.Step>, origins: seq<Origin>, tenant: int,
                               row: FindingRow, after: Remediation.RemediationDecision)
    requires from.Valid() && row.finding == from.OnTheWire() && Judged(steps, tenant, row, after)
    requires Traced(StoreRuns.AllRows(StoreRuns.Run(steps).log), origins) && CrossRegionByName(origins)
    ensures var f, rows := from.Finding(), StoreRuns.AllRows(StoreRuns.Run(steps).log);
      after.wouldAutoApply <==>
        && Qualifies(f)
        && (exists r | r in rows :: OtherwisePaid(r, tenant, row, f.destIp))
        && (forall r | r in rows :: !PaidByOther(r, tenant, row, f.destIp))
  {
    hide ReportRuns.Run, StoreRuns.Run, Judged, Traced, CrossRegionByName, Name, ConfidenceName, HintText,
      TrafficReplay.BlockedIPs, TrafficReplay.NamespaceOf, TrafficReplay.ExtractNamespace, RemediationSafety.SafeByLog;
    var f, rows := from.Finding(), StoreRuns.AllRows(StoreRuns.Run(steps).log);
    ShippedFindingIsGated(from, steps, tenant, row, after);
    if Qualifies(f) {
      ReportRuns.OnlyCrossRegionQualifies(from.s, from.calls, from.key);
      forall r | r in rows && r.finding.pathClass == "CROSS_REGION" ensures r.finding.destination != f.destIp {
        CrossRegionRecordedByName(rows, origins, r);
        RecordedAs(from);
      }
      SafeInRows(StoreRuns.Run(steps).log, tenant, row, f.destIp);
    }
  }

  lemma SafeInRows(log: seq<StoreRuns.Entry>, tenant: int, row: FindingRow, address: string)
    requires TrafficReplay.BlockedIPs(row.finding.fixManifest) == [address]
    requires forall r | r in StoreRuns.AllRows(log) && r.finding.pathClass == "CROSS_REGION" ::
               r.finding.destination != address
    ensures RemediationSafety.SafeByLog(log, tenant, row) <==>
              && (exists r | r in StoreRuns.AllRows(log) :: OtherwisePaid(r, tenant, row, address))
              && (forall r | r in StoreRuns.AllRows(log) :: !PaidByOther(r, tenant, row, address))
  {
    hide TrafficReplay.BlockedIPs, TrafficReplay.NamespaceOf, TrafficReplay.ExtractNamespace, StoreRuns.AllRows;
    var rows := StoreRuns.AllRows(log);
    if r :| r in rows && OtherwisePaid(r, tenant, row, address) {
      assert RemediationSafety.PaidTraffic(r, tenant, row.clusterId, [address]);
    }
    forall r | r in rows
      ensures PaidByOther(r, tenant, row, address) <==>
                && RemediationSafety.PaidTraffic(r, tenant, row.clusterId, [address])
                && r.finding.source != row.finding.source
                && TrafficReplay.ExtractNamespace(r.finding.source)
                   == Some(TrafficReplay.NamespaceOf(row.finding.fixManifest))
    {
    }
  }

  // ----- Other workloads' traffic -----

  /** Another workload of the policy's namespace talked to the address, whatever it is recorded under. */
  ghost predicate Talked(r: RawRow, from: Origin, tenant: int, row: FindingRow, address: string)
    requires from.Valid()
  {
    && r.tenant == tenant && r.clusterId == row.clusterId && r.finding.source != row.finding.source
    && TrafficReplay.ExtractNamespace(r.finding.source) == Some(TrafficReplay.NamespaceOf(row.finding.fixManifest))
    && from.Finding().destIp == address
  }

  /** Nobody else of the namespace ever talked to the address. */
  ghost predicate NobodyTalked(rows: seq<RawRow>, origins: seq<Origin>, tenant: int, row: FindingRow, address: string)
    requires Traced(rows, origins)
  {
    forall i | 0 <= i < |rows| :: !Talked(rows[i], origins[i], tenant, row, address)
  }

  /** Nobody else of the namespace ever paid for talking to it. */
  ghost predicate NobodyPaid(rows: seq<RawRow>, origins: seq<Origin>, tenant: int, row: FindingRow, address: string)
    requires Traced(rows, origins)
  {
    forall i | 0 <= i < |rows| :: !(Talked(rows[i], origins[i], tenant, row, address) && rows[i].finding.costHigh > 0.0)
  }

  /** All their traffic to it that was recorded at a cost was recorded under the address. */
  ghost predicate PaidUnderAddress(rows: seq<RawRow>, origins: seq<Origin>, tenant: int, row: FindingRow,
                                   address: string)
    requires Traced(rows, origins)
  {
    forall i | 0 <= i < |rows| && Talked(rows[i], origins[i], tenant, row, address) && rows[i].finding.costHigh > 0.0 ::
      ByAddress(Behind(origins[i]))
  }

  /** All their traffic to it was recorded at a cost. */
  ghost predicate AllPaid(rows: seq<RawRow>, origins: seq<Origin>, tenant: int, row: FindingRow, address: string)
    requires Traced(rows, origins)
  {
    forall i | 0 <= i < |rows| && Talked(rows[i], origins[i], tenant, row, address) :: rows[i].finding.costHigh > 0.0
  }

  /** The promise that nobody else of the namespace ever talked to a blocked destination, for a finding that survives:
      it is kept exactly when all the others' traffic to the address was recorded at a cost and, by what was known of
      its destination, under the address. Traffic that was free or resolved to a name is overlooked. */
  lemma SafePromise(from: Origin, steps: seq<StoreRuns.Step>, origins: seq<Origin>, tenant: int, row: FindingRow,
                    after: Remediation.RemediationDecision)
    requires from.Valid() && row.finding == from.OnTheWire() && Judged(steps, tenant, row, after)
    requires Traced(StoreRuns.AllRows(StoreRuns.Run(steps).log), origins) && after.wouldAutoApply
    ensures var address, rows := from.Finding().destIp, StoreRuns.AllRows(StoreRuns.Run(steps).log);
      && (NobodyPaid(rows, origins, tenant, row, address) <==> PaidUnderAddress(rows, origins, tenant, row, address))
      && (NobodyTalked(rows, origins, tenant, row, address) <==>
            AllPaid(rows, origins, tenant, row, address) && PaidUnderAddress(rows, origins, tenant, row, address))
  {
    hide ReportRuns.Run, StoreRuns.Run, Judged, Name, ConfidenceName, HintText, ByAddress, Behind,
      TrafficReplay.BlockedIPs, TrafficReplay.NamespaceOf, TrafficReplay.ExtractNamespace;
    var address, rows := from.Finding().destIp, StoreRuns.AllRows(StoreRuns.Run(steps).log);
    ShippedFindingIsGated(from, steps, tenant, row, after);
    ReportRuns.OnlyCrossRegionQualifies(from.s, from.calls, from.key);
    forall i | 0 <= i < |rows| && Talked(rows[i], origins[i], tenant, row, address) && rows[i].finding.costHigh > 0.0
      ensures !ByAddress(Behind(origins[i]))
    {
      RecordedAs(origins[i]);
      assert rows[i] in rows;
    }
  }

  /** Whoever's traffic it is and whatever it cost: a finding recorded by name changes no decision about a shipped one,
      not even if its address is the blocked one. */
  lemma NamedTrafficChangesNothing(from: Origin, steps: seq<StoreRuns.Step>, ingest: StoreRuns.Step,
                                   others: seq<Origin>, tenant: int, row: FindingRow)
    requires from.Valid() && row.finding == from.OnTheWire() && from.Finding().fixManifest != NoManifest
    requires ingest.IngestStep? && |others| == |ingest.findings|
    requires forall i | 0 <= i < |others| ::
               others[i].Valid() && ingest.findings[i] == others[i].OnTheWire() && ByName(Behind(others[i]))
    ensures RemediationSafety.SafeByLog(StoreRuns.Run(steps).log, tenant, row)
       <==> RemediationSafety.SafeByLog(StoreRuns.Run(steps + [ingest]).log, tenant, row)
  {
    hide ReportRuns.Run, StoreRuns.Run, RemediationSafety.SafeByLog, ByName, Behind, ByAddress, Name, ConfidenceName,
      HintText, TrafficReplay.BlockedIPs, TrafficReplay.NamespaceOf;
    ReportRuns.OnlyCrossRegionQualifies(from.s, from.calls, from.key);
    RecordedAs(from);
    forall x | x in ingest.findings ensures x.destination !in TrafficReplay.BlockedIPs(row.finding.fixManifest) {
      var i :| 0 <= i < |ingest.findings| && ingest.findings[i] == x;
      RecordedAs(others[i]);
    }
    RemediationSafety.OtherFindingsAreNotConsulted(steps, ingest, tenant, row);
    RemediationSafety.OnlyConsultedRowsDecide(StoreRuns.Run(steps).log, StoreRuns.Run(steps + [ingest]).log, tenant,
                                              row);
  }

  /** Row `i` of a shipped history is paid traffic of another workload of the namespace to the very address that a
      stored finding's policy blocks; the policy counts as safe, and no lookup by the address returns that workload. */
  ghost predicate Overlooks(from: Origin, steps: seq<StoreRuns.Step>, origins: seq<Origin>, tenant: int,
                            row: FindingRow, i: nat)
  {
    var log := StoreRuns.Run(steps).log;
    var rows := StoreRuns.AllRows(log);
    && from.Valid() && row.finding == from.OnTheWire() && Qualifies(from.Finding())
    && RawRow(tenant, row.clusterId, row.reportedAt, row.finding) in rows
    && Traced(rows, origins) && CrossRegionByName(origins)
    && i < |rows| && Talked(rows[i], origins[i], tenant, row, from.Finding().destIp) && rows[i].finding.costHigh > 0.0
    && RemediationSafety.SafeByLog(log, tenant, row)
    && rows[i].finding.source !in
         History.HistoricalSources(StoreRuns.Run(steps).db,
                                   History.Lookup(tenant, row.clusterId, from.Finding().destIp))
  }

  lemma OverlookedSurvives(from: Origin, steps: seq<StoreRuns.Step>, origins: seq<Origin>, tenant: int,
                           row: FindingRow, i: nat, after: Remediation.RemediationDecision)
    requires Overlooks(from, steps, origins, tenant, row, i) && Judged(steps, tenant, row, after)
    ensures after.wouldAutoApply
  {
    hide ReportRuns.Run, StoreRuns.Run, Judged, Qualifies, Traced, Talked, CrossRegionByName,
      RemediationSafety.SafeByLog;
    ShippedFindingIsGated(from, steps, tenant, row, after);
  }
}
