/** Replaying a generated policy against recorded traffic. */
module TrafficReplay {
  import opened Findings
  import opened History
  import opened Text

  // ----- Namespaces of workload names -----

  predicate IsAlphanumeric(c: char) {
    'a' <= c <= 'z' || '0' <= c <= '9'
  }

  /** A DNS label: letters, digits and inner hyphens (RFC 1123, section 2.1). */
  predicate IsLabel(s: string) {
    && s != ""
    && IsAlphanumeric(s[0]) && IsAlphanumeric(s[|s| - 1])
    && forall i | 0 <= i < |s| :: IsAlphanumeric(s[i]) || s[i] == '-'
  }

  /** What `^[a-z0-9]([-a-z0-9]*[a-z0-9])?$` matches. */
  lemma LabelIsMatch(first: char, middle: string, last: char)
    ensures IsLabel([first]) <==> 'a' <= first <= 'z' || '0' <= first <= '9'
    ensures IsLabel([first] + middle + [last]) <==>
              && IsAlphanumeric(first) && IsAlphanumeric(last)
              && forall c | c in middle :: c == '-' || IsAlphanumeric(c)
    ensures !IsLabel("")
  {
    var s := [first] + middle + [last];
    assert s[0] == first && s[|s| - 1] == last;
    assert forall i | 0 <= i < |middle| :: s[i + 1] == middle[i];
    if IsLabel(s) {
      forall c | c in middle ensures c == '-' || IsAlphanumeric(c) {
        var i :| 0 <= i < |middle| && middle[i] == c;
        assert s[i + 1] == c;
      }
    }
  }

  /** The namespace of a "namespace/pod" name; a name without a label before its first slash has none. */
  function ExtractNamespace(source: string): (namespace: Option<string>)
    ensures namespace.Some? ==> IsLabel(namespace.value) && '/' !in namespace.value && namespace.value + "/" <= source
  {
    var prefix := Before(source, '/');
    if !prefix.1 || prefix.0 == "" || !IsLabel(prefix.0) then None else Some(prefix.0)
  }

  /** Every workload of a namespace is recognised as such. */
  lemma NamespaceIsRecognised(namespace: string, pod: string)
    requires IsLabel(namespace)
    ensures ExtractNamespace(namespace + "/" + pod) == Some(namespace)
  {
    assert '/' !in namespace;
    BeforeAppended(namespace, '/', pod);
    assert namespace + "/" + pod == namespace + ['/'] + pod;
  }

  // ----- Reading a manifest -----

  /** The addresses of some `except` entries, without their masks; entries with no address are skipped. */
  function Addresses(excepted: seq<string>): seq<string> {
    if excepted == [] then []
    else
      var ip := Before(excepted[|excepted| - 1], '/').0;
      Addresses(excepted[..|excepted| - 1]) + if ip != "" then [ip] else []
  }

  function BlocksAddresses(blocks: seq<IpBlock>): seq<string> {
    if blocks == [] then []
    else BlocksAddresses(blocks[..|blocks| - 1]) + Addresses(blocks[|blocks| - 1].excepted)
  }

  function EgressAddresses(egress: seq<seq<IpBlock>>): seq<string> {
    if egress == [] then []
    else EgressAddresses(egress[..|egress| - 1]) + BlocksAddresses(egress[|egress| - 1])
  }

  /** The blocked addresses of a manifest. */
  function BlockedIPs(m: Manifest): seq<string> {
    if m.Policy? then EgressAddresses(m.egress) else []
  }

  function NamespaceOf(m: Manifest): string {
    if m.Policy? then m.namespace else ""
  }

  method ParseGeneratedNetworkPolicy(m: Manifest) returns (namespace: string, blockedIPs: seq<string>, failed: bool)
    ensures failed <==> m.Unparseable?
    ensures namespace == NamespaceOf(m) && blockedIPs == BlockedIPs(m)
  {
    hide Before;
    namespace, blockedIPs, failed := "", [], false;
    match m
    case Unparseable => failed := true;
    case NoManifest =>
    case Policy(ns, egress) =>
      namespace := ns;
      for i := 0 to |egress|
        invariant blockedIPs == EgressAddresses(egress[..i])
      {
        assert egress[..i + 1][..i] == egress[..i];
        ghost var earlier := blockedIPs;
        for j := 0 to |egress[i]|
          invariant blockedIPs == earlier + BlocksAddresses(egress[i][..j])
        {
          assert egress[i][..j + 1][..j] == egress[i][..j];
          blockedIPs := TakeAddresses(blockedIPs, egress[i][j].excepted);
        }
        assert egress[i][..|egress[i]|] == egress[i];
      }
      assert egress[..|egress|] == egress;
  }

  /** The loop over one `except` list. */
  method TakeAddresses(soFar: seq<string>, excepted: seq<string>) returns (blockedIPs: seq<string>)
    ensures blockedIPs == soFar + Addresses(excepted)
  {
    blockedIPs := soFar;
    for k := 0 to |excepted|
      invariant blockedIPs == soFar + Addresses(excepted[..k])
    {
      assert excepted[..k + 1][..k] == excepted[..k];
      var ip := Before(excepted[k], '/').0;
      if ip != "" {
        blockedIPs := blockedIPs + [ip];
      }
    }
    assert excepted[..|excepted|] == excepted;
  }

  // ----- The replay -----

  datatype Note = NoNote | NoHistory | ManifestNotUnderstood

  datatype TrafficReplayResult = TrafficReplayResult(
    safe: bool,
    safetyScore: real,
    blockedDestinations: seq<string>,
    intendedCost: real,
    collateralCost: real,
    affectedWorkloads: seq<string>,
    note: Note)

  /** Rows of another workload the policy would also cut off. */
  predicate IsCollateral(row: HistoricalFlowCost, namespace: string, flagged: string) {
    row.source != flagged && ExtractNamespace(row.source) == Some(namespace)
  }

  function Intended(rows: seq<HistoricalFlowCost>, flagged: string): real {
    if rows == [] then 0.0
    else
      var row := rows[|rows| - 1];
      Intended(rows[..|rows| - 1], flagged) + if row.source == flagged then row.costHigh else 0.0
  }

  function Collateral(rows: seq<HistoricalFlowCost>, namespace: string, flagged: string): real {
    if rows == [] then 0.0
    else
      var row := rows[|rows| - 1];
      Collateral(rows[..|rows| - 1], namespace, flagged)
        + if IsCollateral(row, namespace, flagged) then row.costHigh else 0.0
  }

  function Affected(rows: seq<HistoricalFlowCost>, namespace: string, flagged: string): set<string> {
    set row | row in rows && IsCollateral(row, namespace, flagged) :: row.source
  }

  /** What a replay reports about the given history. */
  ghost predicate IsReplay(result: TrafficReplayResult, namespace: string, flagged: string, ips: seq<string>,
                           rows: seq<HistoricalFlowCost>)
  {
    var intended, collateral := Intended(rows, flagged), Collateral(rows, namespace, flagged);
    && result.blockedDestinations == ips
    && result.intendedCost == intended && result.collateralCost == collateral
    && Ascending(result.affectedWorkloads)
    && (forall w :: w in result.affectedWorkloads <==> w in Affected(rows, namespace, flagged))
    && (result.safe <==> intended != 0.0 && collateral == 0.0)
    && (result.note == NoHistory <==> intended + collateral == 0.0)
    && (result.note == NoHistory || result.note == NoNote)
    && (result.safe ==> result.safetyScore == 1.0)
    && (result.note == NoHistory ==> result.safetyScore == 0.0)
    && result.safetyScore * (intended + collateral) == (if result.note == NoHistory then 0.0 else intended)
  }

  method EvaluateTrafficReplay(namespace: string, flaggedSource: string, blockedIPs: seq<string>,
                               historical: seq<HistoricalFlowCost>)
    returns (result: TrafficReplayResult)
    ensures IsReplay(result, namespace, flaggedSource, blockedIPs, historical)
  {
    hide Intended, Collateral, Affected, Ascending;
    var intended, collateral, affected := Tally(namespace, flaggedSource, historical);
    var sorted := SortedStrings(affected);
    var total := intended + collateral;
    var safe, safetyScore, note := false, 0.0, NoNote;
    if total == 0.0 {
      note := NoHistory;
    } else if collateral == 0.0 {
      safe, safetyScore := true, 1.0;
    } else {
      safetyScore := intended / total;
      DivideBack(intended, total);
    }
    result := TrafficReplayResult(safe, safetyScore, blockedIPs, intended, collateral, sorted, note);
  }

  lemma DivideBack(x: real, y: real)
    requires y != 0.0
    ensures x / y * y == x
  {
  }

  lemma OneMoreHistoric(rows: seq<HistoricalFlowCost>, row: HistoricalFlowCost, namespace: string, flagged: string)
    ensures Intended(rows + [row], flagged)
         == Intended(rows, flagged) + if row.source == flagged then row.costHigh else 0.0
    ensures Collateral(rows + [row], namespace, flagged)
         == Collateral(rows, namespace, flagged) + if IsCollateral(row, namespace, flagged) then row.costHigh else 0.0
    ensures Affected(rows + [row], namespace, flagged)
         == Affected(rows, namespace, flagged) + if IsCollateral(row, namespace, flagged) then {row.source} else {}
  {
    assert (rows + [row])[..|rows|] == rows;
    assert forall r :: r in rows + [row] <==> r in rows || r == row;
  }

  method Tally(namespace: string, flaggedSource: string, historical: seq<HistoricalFlowCost>)
    returns (intended: real, collateral: real, affected: set<string>)
    ensures intended == Intended(historical, flaggedSource)
    ensures collateral == Collateral(historical, namespace, flaggedSource)
    ensures affected == Affected(historical, namespace, flaggedSource)
  {
    intended, collateral, affected := 0.0, 0.0, {};
    for i := 0 to |historical|
      invariant intended == Intended(historical[..i], flaggedSource)
      invariant collateral == Collateral(historical[..i], namespace, flaggedSource)
      invariant affected == Affected(historical[..i], namespace, flaggedSource)
    {
      var row := historical[i];
      assert historical[..i + 1] == historical[..i] + [row];
      OneMoreHistoric(historical[..i], row, namespace, flaggedSource);
      if row.source == flaggedSource {
        intended := intended + row.costHigh;
        continue;
      }
      var ns := ExtractNamespace(row.source);
      if ns.None? || ns.value != namespace {
        continue;
      }
      collateral := collateral + row.costHigh;
      affected := affected + {row.source};
    }
    assert historical[..|historical|] == historical;
  }
}
