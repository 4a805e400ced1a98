/** The dry-run remediation pipeline: policy bars first, then the traffic-replay gate. */
module Remediation {
  import opened Findings
  import opened History
  import opened TrafficReplay

  datatype RemediationPolicy = RemediationPolicy(
    requireManifest: bool,
    requireHighConfidence: bool,
    minSavingsHigh: real,
    requireSafeTrafficReplay: bool)

  function DefaultRemediationPolicy(): RemediationPolicy {
    RemediationPolicy(true, true, 0.01, true)
  }

  datatype Reason =
    | NoGeneratedManifest
    | ConfidenceNotHigh(confidence: string)
    | SavingsTooSmall
    | PassesEveryBar
    | ReplayConfirmed
    | ReplayNote(note: Note)
    | ReplayFoundOthers(workloads: nat, safetyScore: real)

  datatype RemediationDecision = RemediationDecision(
    clusterId: string,
    source: string,
    destination: string,
    pathClass: string,
    confidence: string,
    fixHint: string,
    fixManifest: Manifest,
    costHigh: real,
    savingsHigh: real,
    wouldAutoApply: bool,
    reasons: seq<Reason>,
    trafficReplay: Option<TrafficReplayResult>)

  // ----- The policy bars -----

  /** The bars a finding fails, in the order they are checked. */
  function FailedBars(f: Finding, policy: RemediationPolicy): seq<Reason> {
    (if policy.requireManifest && f.fixManifest == NoManifest then [NoGeneratedManifest] else [])
    + (if policy.requireHighConfidence && f.confidence != "high" then [ConfidenceNotHigh(f.confidence)] else [])
    + (if f.savingsHigh < policy.minSavingsHigh then [SavingsTooSmall] else [])
  }

  ghost predicate Decides(f: FindingRow, policy: RemediationPolicy, d: RemediationDecision) {
    && d.clusterId == f.clusterId
    && d.source == f.finding.source && d.destination == f.finding.destination
    && d.pathClass == f.finding.pathClass && d.confidence == f.finding.confidence
    && d.fixHint == f.finding.fixHint && d.fixManifest == f.finding.fixManifest
    && d.costHigh == f.finding.costHigh && d.savingsHigh == f.finding.savingsHigh
    && d.trafficReplay == None
    && (d.wouldAutoApply <==> FailedBars(f.finding, policy) == [])
    && d.reasons == (if d.wouldAutoApply then [PassesEveryBar] else FailedBars(f.finding, policy))
  }

  /** Only findings with a hint are considered. */
  function Flagged(findings: seq<FindingRow>): seq<FindingRow> {
    if findings == [] then []
    else
      var f := findings[|findings| - 1];
      Flagged(findings[..|findings| - 1]) + if f.finding.fixHint == "" then [] else [f]
  }

  lemma NothingFlagged()
    ensures Flagged([]) == []
  {
  }

  lemma FlaggedNext(findings: seq<FindingRow>, n: nat)
    requires n < |findings|
    ensures Flagged(findings[..n + 1])
         == if findings[n].finding.fixHint == "" then Flagged(findings[..n]) else Flagged(findings[..n]) + [findings[n]]
  {
    assert findings[..n + 1][..n] == findings[..n];
  }

  method EvaluateRemediation(findings: seq<FindingRow>, policy: RemediationPolicy)
    returns (out: seq<RemediationDecision>)
    ensures |out| == |Flagged(findings)|
    ensures forall i | 0 <= i < |out| :: Decides(Flagged(findings)[i], policy, out[i])
  {
    hide Flagged;
    out := [];
    NothingFlagged();
    assert findings[..0] == [];
    for n := 0 to |findings|
      invariant |out| == |Flagged(findings[..n])|
      invariant forall i | 0 <= i < |out| :: Decides(Flagged(findings[..n])[i], policy, out[i])
    {
      var f := findings[n].finding;
      FlaggedNext(findings, n);
      if f.fixHint == "" {
        continue;
      }
      var reasons, qualifies := [], true;
      if policy.requireManifest && f.fixManifest == NoManifest {
        qualifies := false;
        reasons := reasons + [NoGeneratedManifest];
      }
      if policy.requireHighConfidence && f.confidence != "high" {
        qualifies := false;
        reasons := reasons + [ConfidenceNotHigh(f.confidence)];
      }
      if f.savingsHigh < policy.minSavingsHigh {
        qualifies := false;
        reasons := reasons + [SavingsTooSmall];
      }
      assert reasons == FailedBars(f, policy) && (qualifies <==> reasons == []);
      if qualifies {
        reasons := [PassesEveryBar];
      }
      out := out + [RemediationDecision(findings[n].clusterId, f.source, f.destination, f.pathClass, f.confidence,
                                        f.fixHint, f.fixManifest, f.costHigh, f.savingsHigh, qualifies, reasons, None)];
    }
    assert findings[..|findings|] == findings;
  }

  // ----- The traffic-replay gate -----

  datatype Fetched = Rows(rows: seq<HistoricalFlowCost>) | FetchError

  /** A decision once a replay is attached: an unsafe replay overrides it, replacing a stale "passes" reason. */
  function Applied(d: RemediationDecision, replay: TrafficReplayResult, policy: RemediationPolicy)
    : RemediationDecision
  {
    var seen := d.(trafficReplay := Some(replay));
    if !policy.requireSafeTrafficReplay then seen
    else if replay.safe then seen.(reasons := d.reasons + [ReplayConfirmed])
    else
      var kept := if d.wouldAutoApply then [] else d.reasons;
      var reason := if replay.note != NoNote then ReplayNote(replay.note)
                    else ReplayFoundOthers(|replay.affectedWorkloads|, replay.safetyScore);
      seen.(wouldAutoApply := false, reasons := kept + [reason])
  }

  method ApplyTrafficReplayResult(out: array<RemediationDecision>, i: nat, replay: TrafficReplayResult,
                                  policy: RemediationPolicy)
    requires i < out.Length
    modifies out
    ensures out[..] == old(out[..])[i := Applied(old(out[i]), replay, policy)]
  {
    out[i] := out[i].(trafficReplay := Some(replay));
    if !policy.requireSafeTrafficReplay {
      return;
    }
    if replay.safe {
      out[i] := out[i].(reasons := out[i].reasons + [ReplayConfirmed]);
      return;
    }
    if out[i].wouldAutoApply {
      out[i] := out[i].(reasons := []);
    }
    out[i] := out[i].(wouldAutoApply := false);
    if replay.note != NoNote {
      out[i] := out[i].(reasons := out[i].reasons + [ReplayNote(replay.note)]);
      return;
    }
    out[i] := out[i].(reasons := out[i].reasons + [ReplayFoundOthers(|replay.affectedWorkloads|, replay.safetyScore)]);
  }

  /** All history of the blocked addresses, one lookup each; the first failing lookup fails. */
  function Gather(fetch: (string, string) -> Fetched, clusterId: string, ips: seq<string>): Fetched {
    if ips == [] then Rows([])
    else
      match Gather(fetch, clusterId, ips[..|ips| - 1])
      case FetchError => FetchError
      case Rows(rows) =>
        match fetch(clusterId, ips[|ips| - 1])
        case FetchError => FetchError
        case Rows(more) => Rows(rows + more)
  }

  /** The decisions the gate looks at: a manifest exists and no earlier bar disqualified it. */
  predicate Candidate(d: RemediationDecision) {
    d.fixManifest != NoManifest && d.wouldAutoApply
  }

  predicate Understood(m: Manifest) {
    m.Policy? && m.namespace != "" && BlockedIPs(m) != []
  }

  /** The replay reported for a manifest that names no namespace or no address. */
  function Unread(): TrafficReplayResult {
    TrafficReplayResult(false, 0.0, [], 0.0, 0.0, [], ManifestNotUnderstood)
  }

  /** The gate refuses a candidate whose policy it cannot read, and otherwise applies the replay of its history. */
  ghost predicate Gated(d: RemediationDecision, after: RemediationDecision, policy: RemediationPolicy,
                        fetch: (string, string) -> Fetched)
  {
    if !Candidate(d) then after == d
    else if !Understood(d.fixManifest) then
      after == Applied(d, TrafficReplayResult(false, 0.0, [], 0.0, 0.0, [], ManifestNotUnderstood), policy)
    else
      var gathered := Gather(fetch, d.clusterId, BlockedIPs(d.fixManifest));
      gathered.Rows? && exists replay ::
        && IsReplay(replay, NamespaceOf(d.fixManifest), d.source, BlockedIPs(d.fixManifest), gathered.rows)
        && after == Applied(d, replay, policy)
  }

  predicate LookupFails(d: RemediationDecision, fetch: (string, string) -> Fetched) {
    Candidate(d) && Understood(d.fixManifest) && Gather(fetch, d.clusterId, BlockedIPs(d.fixManifest)).FetchError?
  }

  /** Never changes its input; fails exactly when a needed lookup does. */
  method SimulateTrafficReplay(decisions: seq<RemediationDecision>, policy: RemediationPolicy,
                               fetch: (string, string) -> Fetched)
    returns (result: seq<RemediationDecision>, failed: bool)
    ensures failed <==> exists d | d in decisions :: LookupFails(d, fetch)
    ensures if failed then result == [] else |result| == |decisions|
    ensures !failed ==> forall i | 0 <= i < |decisions| :: Gated(decisions[i], result[i], policy, fetch)
  {
    var out := new RemediationDecision[|decisions|](i requires 0 <= i < |decisions| => decisions[i]);
    for i := 0 to |decisions|
      invariant forall j | i <= j < |decisions| :: out[j] == decisions[j]
      invariant forall j | 0 <= j < i :: Gated(decisions[j], out[j], policy, fetch) && !LookupFails(decisions[j], fetch)
    {
      var d := decisions[i];
      if d.fixManifest == NoManifest || !d.wouldAutoApply {
        continue;
      }
      var replay, lookupFailed := ReplayOne(d, fetch);
      if lookupFailed {
        return [], true;
      }
      ApplyTrafficReplayResult(out, i, replay, policy);
      assert out[..][i] == Applied(d, replay, policy);
      assert Gated(d, out[i], policy, fetch);
    }
    result, failed := out[..], false;
  }

  method ReplayOne(d: RemediationDecision, fetch: (string, string) -> Fetched)
    returns (replay: TrafficReplayResult, failed: bool)
    requires Candidate(d)
    ensures failed <==> LookupFails(d, fetch)
    ensures !failed ==>
              if !Understood(d.fixManifest) then replay == Unread()
              else IsReplay(replay, NamespaceOf(d.fixManifest), d.source, BlockedIPs(d.fixManifest),
                            Gather(fetch, d.clusterId, BlockedIPs(d.fixManifest)).rows)
  {
    var namespace, blockedIPs, parseFailed := ParseGeneratedNetworkPolicy(d.fixManifest);
    replay := Unread();
    if parseFailed || namespace == "" || |blockedIPs| == 0 {
      return replay, false;
    }
    var historical := [];
    for i := 0 to |blockedIPs|
      invariant Gather(fetch, d.clusterId, blockedIPs[..i]) == Rows(historical)
    {
      assert blockedIPs[..i + 1][..i] == blockedIPs[..i];
      var rows := fetch(d.clusterId, blockedIPs[i]);
      if rows.FetchError? {
        GatherFails(fetch, d.clusterId, blockedIPs, i + 1);
        return replay, true;
      }
      historical := historical + rows.rows;
    }
    assert blockedIPs[..|blockedIPs|] == blockedIPs;
    replay := EvaluateTrafficReplay(namespace, d.source, blockedIPs, historical);
    failed := false;
  }

  lemma {:induction false} GatherFails(fetch: (string, string) -> Fetched, clusterId: string, ips: seq<string>, n: nat)
    requires n <= |ips| && Gather(fetch, clusterId, ips[..n]).FetchError?
    ensures Gather(fetch, clusterId, ips).FetchError?
  {
    if n == |ips| {
      assert ips[..n] == ips;
    } else {
      assert ips[..|ips| - 1][..n] == ips[..n];
      GatherFails(fetch, clusterId, ips[..|ips| - 1], n);
    }
  }
}
