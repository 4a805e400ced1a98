/** The agent's cumulative report: classify, price and accumulate every scrape's traffic into findings. */
module Report {
  import opened Classify
  import opened Findings
  import opened Pricing
  import opened Text
  import TrafficReplay

  // ----- What an observation resolves to -----

  datatype KubeWorkload = KubeWorkload(namespace: string, pod: string, node: string)
  datatype KubeService = KubeService(namespace: string, name: string)
  datatype KubeEndpoint = KubeEndpoint(namespace: string, podName: string, ip: string, nodeName: string)

  /** One scrape window's traffic of one flow, with whatever Kubernetes metadata could be resolved for it. */
  datatype Observation = Observation(
    cgroupId: nat,
    cgroupPath: string,
    kubernetes: Option<KubeWorkload>,
    remote: Option<Ip>,
    destination: Option<KubeWorkload>,
    service: Option<KubeService>,
    endpoint: Option<KubeEndpoint>)

  function WorkloadName(w: KubeWorkload): string {
    if w.namespace != "" && w.pod != "" then w.namespace + "/" + w.pod else w.pod
  }

  function ServiceName(s: KubeService): string {
    if s.namespace != "" && s.name != "" then s.namespace + "/service/" + s.name else s.name
  }

  function EndpointName(e: KubeEndpoint): string {
    if e.namespace != "" && e.podName != "" then e.namespace + "/" + e.podName
    else if e.podName != "" then e.podName
    else e.ip
  }

  function RemoteText(o: Observation): string {
    if o.remote.Some? then IpText(o.remote.value) else "?"
  }

  function SourceName(o: Observation): string {
    if o.kubernetes.Some? then WorkloadName(o.kubernetes.value) else o.cgroupPath
  }

  function SourceNamespace(o: Observation): string {
    if o.kubernetes.Some? then o.kubernetes.value.namespace else ""
  }

  function SourceNode(o: Observation, localNode: string): string {
    if o.kubernetes.Some? && o.kubernetes.value.node != "" then o.kubernetes.value.node else localNode
  }

  function DestNode(o: Observation): string {
    if o.destination.Some? && o.destination.value.node != "" then o.destination.value.node
    else if o.endpoint.Some? then o.endpoint.value.nodeName
    else ""
  }

  /** A service names the destination before a pod does, a pod before an endpoint, and the address is the
      last resort. */
  function DestName(o: Observation): string {
    if o.service.Some? then ServiceName(o.service.value)
    else
      var direct := if o.destination.Some? then WorkloadName(o.destination.value) else RemoteText(o);
      if o.endpoint.Some? && direct == RemoteText(o) && EndpointName(o.endpoint.value) != "" then
        EndpointName(o.endpoint.value)
      else direct
  }

  // ----- Fixes -----

  datatype Hint = NoHint | StayInZone | ConfirmCrossing | AddEndpoint | ConfirmLeaving | PinToZone

  /** Classes that cost nothing extra, or that have no known fix, get no hint. */
  function FixHint(class_: PathClass): Hint {
    match class_
    case CrossAZ => StayInZone
    case CrossRegion => ConfirmCrossing
    case NATEgress => AddEndpoint
    case InternetEgress => ConfirmLeaving
    case ManagedService => PinToZone
    case _ => NoHint
  }

  function ZoneHintText(h: Hint): (s: string)
    ensures |s| > 0 <==> h == StayInZone || h == PinToZone
  {
    match h
    case StayInZone =>
      "Enable Topology Aware Routing on this Service, or co-locate these two workloads in the same zone."
    case PinToZone => "Pin this client and the managed-service endpoint to the same zone."
    case _ => ""
  }

  function EgressHintText(h: Hint): (s: string)
    ensures |s| > 0 <==> h == AddEndpoint || h == ConfirmLeaving
  {
    match h
    case AddEndpoint => "Add a VPC/private endpoint for this destination instead of routing it through the NAT gateway."
    case ConfirmLeaving => "Confirm this traffic needs to leave the cluster; cache or compress it if it's chatty."
    case _ => ""
  }

  /** The sentence a hint is shipped as; no hint is the empty one. */
  function HintText(h: Hint): (s: string)
    ensures s == "" <==> h == NoHint
  {
    match h
    case StayInZone => ZoneHintText(h)
    case PinToZone => ZoneHintText(h)
    case AddEndpoint => EgressHintText(h)
    case ConfirmLeaving => EgressHintText(h)
    case ConfirmCrossing => "Confirm this traffic needs to cross regions at all; if it must, batch or compress it."
    case NoHint => ""
  }

  /** A policy allowing all egress but one address. */
  function DenyDestination(namespace: string, destIp: string): Manifest {
    Policy(namespace, [[IpBlock("0.0.0.0/0", [destIp + "/32"])]])
  }

  /** Only classes whose fix needs no more than a namespace and an address get a manifest. */
  function GenerateFixManifest(class_: PathClass, namespace: string, remote: Option<Ip>): Manifest {
    if namespace == "" || remote.None? then NoManifest
    else if class_ == InternetEgress || class_ == NATEgress || class_ == CrossRegion then
      DenyDestination(namespace, IpText(remote.value))
    else NoManifest
  }

  /** The control plane reads back the namespace and the one bare address a generated manifest was made from. */
  lemma GeneratedManifestReadsBack(namespace: string, ip: Ip)
    ensures TrafficReplay.NamespaceOf(DenyDestination(namespace, IpText(ip))) == namespace
    ensures TrafficReplay.BlockedIPs(DenyDestination(namespace, IpText(ip))) == [IpText(ip)]
  {
    var text := IpText(ip);
    BeforeAppended(text, '/', "32");
    assert text + "/32" == text + ['/'] + "32";
    assert TrafficReplay.Addresses([text + "/32"]) == TrafficReplay.Addresses([]) + [text];
    var block := IpBlock("0.0.0.0/0", [text + "/32"]);
    assert TrafficReplay.BlocksAddresses([block]) == TrafficReplay.BlocksAddresses([]) + [text];
    assert TrafficReplay.EgressAddresses([[block]]) == TrafficReplay.EgressAddresses([]) + [text];
  }

  // ----- Findings -----

  datatype AgentFinding = AgentFinding(
    cgroupId: nat,
    source: string,
    sourceNode: string,
    destination: string,
    destIp: string,
    destNode: string,
    class_: PathClass,
    confidence: Confidence,
    fixHint: Hint,
    fixManifest: Manifest,
    bytesTx: nat,
    bytesRx: nat,
    costLow: real,
    costHigh: real,
    savingsLow: real,
    savingsHigh: real)

  /** "cgroup|class|address" */
  function FindingKey(cgroupId: nat, class_: PathClass, destIp: string): string {
    Decimal(cgroupId) + "|" + Name(class_) + "|" + destIp
  }

  lemma KeyInjective(c: nat, class_: PathClass, ip: string, c': nat, class': PathClass, ip': string)
    requires FindingKey(c, class_, ip) == FindingKey(c', class', ip')
    ensures c == c' && class_ == class' && ip == ip'
  {
    hide Name, Decimal;
    var k, n, n' := FindingKey(c, class_, ip), Decimal(c), Decimal(c');
    assert k == n + ['|'] + (Name(class_) + "|" + ip) == n' + ['|'] + (Name(class') + "|" + ip');
    BeforeAppended(n, '|', Name(class_) + "|" + ip);
    BeforeAppended(n', '|', Name(class') + "|" + ip');
    DecimalInjective(c, c');
    var rest := k[|n| + 1..];
    assert rest == Name(class_) + ['|'] + ip == Name(class') + ['|'] + ip';
    NamesDiffer(class_, class');
    BeforeAppended(Name(class_), '|', ip);
    BeforeAppended(Name(class'), '|', ip');
    assert ip == rest[|Name(class_)| + 1..] && ip' == rest[|Name(class')| + 1..];
  }

  lemma NamesDiffer(class_: PathClass, class': PathClass)
    ensures Name(class_) == Name(class') ==> class_ == class'
    ensures '|' !in Name(class_) && '|' !in Name(class')
  {
  }

  /** The fields a new or a refreshed finding takes from an observation; running totals are not among them. */
  function Described(f: AgentFinding, o: Observation, localNode: string, class_: PathClass, confidence: Confidence)
    : AgentFinding
  {
    f.(source := SourceName(o), sourceNode := SourceNode(o, localNode),
       destination := DestName(o), destIp := RemoteText(o), destNode := DestNode(o),
       class_ := class_, confidence := confidence, fixHint := FixHint(class_),
       fixManifest := GenerateFixManifest(class_, SourceNamespace(o), o.remote))
  }

  /** The agent's fixed settings. */
  datatype Settings = Settings(priceBook: PriceBook, managedNets: seq<Block>, nodeHasPublicIP: bool, localNode: string)

  function InputOf(o: Observation, s: Settings): ClassifyInput {
    ClassifyInput(o.remote, SourceNode(o, s.localNode), DestNode(o),
                  o.remote.Some? && InAny(s.managedNets, o.remote.value), s.nodeHasPublicIP)
  }

  class Aggregate {
    const settings: Settings
    var byKey: map<string, AgentFinding>

    constructor (settings: Settings)
      ensures byKey == map[] && this.settings == settings
    {
      this.settings := settings;
      byKey := map[];
    }

    method Add(o: Observation, zoneOf: string -> string, tx: nat, rx: nat)
      modifies this
      ensures byKey == Added(old(byKey), settings, o, zoneOf, tx, rx)
    {
      hide CostINR, SavingsINR, SourceName, DestName, SourceNode, DestNode;
      var remoteIp := RemoteText(o);
      var (class_, confidence) := Classified(InputOf(o, settings), zoneOf);
      var key := FindingKey(o.cgroupId, class_, remoteIp);
      var f;
      if key !in byKey {
        f := AgentFinding(o.cgroupId, SourceName(o), SourceNode(o, settings.localNode), DestName(o), remoteIp,
                          DestNode(o),
                          class_, confidence, FixHint(class_),
                          GenerateFixManifest(class_, SourceNamespace(o), o.remote), 0, 0, 0.0, 0.0, 0.0, 0.0);
      } else {
        f := byKey[key];
        f := f.(source := SourceName(o), sourceNode := SourceNode(o, settings.localNode));
        f := f.(destination := DestName(o), destIp := remoteIp, destNode := DestNode(o));
        f := f.(class_ := class_, confidence := confidence, fixHint := FixHint(class_));
        f := f.(fixManifest := GenerateFixManifest(class_, SourceNamespace(o), o.remote));
      }
      assert f == Described(if key in byKey then byKey[key] else Blank(o.cgroupId), o, settings.localNode,
                            class_, confidence);
      f := AddTraffic(f, settings.priceBook, tx, rx);
      byKey := byKey[key := f];
    }
  }

  method AddTraffic(finding: AgentFinding, pb: PriceBook, tx: nat, rx: nat) returns (f: AgentFinding)
    ensures f == WithTraffic(finding, pb, tx, rx)
  {
    f := finding.(bytesTx := finding.bytesTx + tx, bytesRx := finding.bytesRx + rx);
    var (low, high) := CostINR(pb, f.class_, f.confidence, tx + rx);
    f := f.(costLow := f.costLow + low, costHigh := f.costHigh + high);
    var target := OptimizationTarget(f.class_);
    if target.Some? {
      var (targetLow, targetHigh) := CostINR(pb, target.value, f.confidence, tx + rx);
      f := f.(savingsLow := f.savingsLow + (low - targetLow), savingsHigh := f.savingsHigh + (high - targetHigh));
    }
  }

  /** A finding after one more window's bytes, priced and compared with the fix's target at its current class. */
  function WithTraffic(f: AgentFinding, pb: PriceBook, tx: nat, rx: nat): AgentFinding {
    var cost, savings := CostINR(pb, f.class_, f.confidence, tx + rx), SavingsINR(pb, f.class_, f.confidence, tx + rx);
    f.(bytesTx := f.bytesTx + tx, bytesRx := f.bytesRx + rx,
       costLow := f.costLow + cost.0, costHigh := f.costHigh + cost.1,
       savingsLow := f.savingsLow + savings.0, savingsHigh := f.savingsHigh + savings.1)
  }

  /** A finding before any traffic. */
  function Blank(cgroupId: nat): AgentFinding {
    AgentFinding(cgroupId, "", "", "", "", "", SameNode, High, NoHint, NoManifest, 0, 0, 0.0, 0.0, 0.0, 0.0)
  }

  /** The reference: describe afresh, then add this window's bytes, price and saving. */
  function Added(byKey: map<string, AgentFinding>, s: Settings, o: Observation, zoneOf: string -> string, tx: nat,
                 rx: nat)
    : map<string, AgentFinding>
  {
    var (class_, confidence) := Classified(InputOf(o, s), zoneOf);
    var key := FindingKey(o.cgroupId, class_, RemoteText(o));
    var f := Described(if key in byKey then byKey[key] else Blank(o.cgroupId), o, s.localNode, class_, confidence);
    byKey[key := WithTraffic(f, s.priceBook, tx, rx)]
  }
}
