/** One history in which a paid collateral workload stays unseen, and one in which a finding's own traffic is no
    evidence: two workloads of one namespace call a pod in another region, by an address outside the private ranges. */
module PipelineWitness {
  import opened Classify
  import opened Findings
  import opened Pipeline
  import opened Pricing
  import opened Report
  import opened Tables
  import Compaction
  import History
  import Remediation
  import RemediationSafety
  import ReportRuns
  import StoreRuns
  import TrafficReplay

  // ----- One agent's report -----

  const REMOTE: Ip := Ip(100, 64, 0, 2)
  const GIGABYTE: nat := 1000000000

  function ZoneOf(node: string): string {
    if node == "near" then "us-east-1a" else "eu-west-1a"
  }

  function Prices(): PriceBook {
    PriceBook("aws", "us-east-1", map["internet_egress" := 0.09, "cross_region" := 0.02, "cross_az" := 0.01], 80.0)
  }

  function Agent(): Settings {
    Settings(Prices(), [], true, "near")
  }

  function Web(): KubeWorkload {
    KubeWorkload("shop", "web", "near")
  }

  function Cron(): KubeWorkload {
    KubeWorkload("shop", "cron", "near")
  }

  function ApiName(): string {
    "pay/api"
  }

  function Api(): KubeWorkload {
    KubeWorkload("pay", "api", "far")
  }

  /** A workload's gigabyte to the address, with or without what is known of the pod there. */
  function Gigabyte(cgroupId: nat, source: KubeWorkload, destination: Option<KubeWorkload>): ReportRuns.Call {
    ReportRuns.Call(Observation(cgroupId, "", Some(source), Some(REMOTE), destination, None, None), ZoneOf, GIGABYTE, 0)
  }

  /** Before the pod is known. */
  function Early(): ReportRuns.Call {
    Gigabyte(1, Web(), None)
  }

  function Later(): ReportRuns.Call {
    Gigabyte(1, Web(), Some(Api()))
  }

  function FromCron(): ReportRuns.Call {
    Gigabyte(2, Cron(), Some(Api()))
  }

  lemma Classes()
    ensures Classified(InputOf(Early().o, Agent()), ZoneOf) == (InternetEgress, High)
    ensures Classified(InputOf(Later().o, Agent()), ZoneOf) == (CrossRegion, High)
    ensures Classified(InputOf(FromCron().o, Agent()), ZoneOf) == (CrossRegion, High)
  {
    hide ZoneOf, Region, InAny, Prices;
    PrivateByOctets(REMOTE);
    ZonesDiffer();
    NothingManaged();
  }

  lemma NothingManaged()
    ensures !InAny([], REMOTE)
  {
  }

  lemma ZonesDiffer()
    ensures "near" != "far" && "near" != "" && "far" != ""
    ensures ZoneOf("near") != "" && ZoneOf("far") != "" && ZoneOf("near") != ZoneOf("far")
    ensures Region(ZoneOf("near")) != Region(ZoneOf("far"))
  {
    RegionIsStem("us-east-1", "a");
    RegionIsStem("eu-west-1", "a");
    assert "us-east-1" + "a" == "us-east-1a" && "eu-west-1" + "a" == "eu-west-1a";
    assert "us-east-1"[1] != "eu-west-1"[1] && "us-east-1a"[1] != "eu-west-1a"[1] && "near"[0] != "far"[0];
  }

  /** The finding a first call leaves. */
  function Fresh(c: ReportRuns.Call): AgentFinding {
    var (class_, confidence) := Classified(InputOf(c.o, Agent()), c.zoneOf);
    WithTraffic(Described(Blank(c.o.cgroupId), c.o, "near", class_, confidence), Prices(), c.tx, c.rx)
  }

  lemma OneMoreCall(calls: seq<ReportRuns.Call>, c: ReportRuns.Call)
    requires ReportRuns.CallKey(Agent(), c) !in ReportRuns.Run(Agent(), calls)
    ensures ReportRuns.Run(Agent(), calls + [c])
         == ReportRuns.Run(Agent(), calls)[ReportRuns.CallKey(Agent(), c) := Fresh(c)]
  {
    hide Classified, WithTraffic, Described, FindingKey;
    assert (calls + [c])[..|calls|] == calls;
  }

  lemma KeysDiffer()
    ensures var a, b, c := ReportRuns.CallKey(Agent(), Early()), ReportRuns.CallKey(Agent(), Later()),
                           ReportRuns.CallKey(Agent(), FromCron());
      a != b && a != c && b != c
  {
    hide Classified, FindingKey, RemoteText;
    Classes();
    var ip := RemoteText(Early().o);
    if FindingKey(1, InternetEgress, ip) == FindingKey(1, CrossRegion, ip) {
      KeyInjective(1, InternetEgress, ip, 1, CrossRegion, ip);
    }
    if FindingKey(1, InternetEgress, ip) == FindingKey(2, CrossRegion, ip) {
      KeyInjective(1, InternetEgress, ip, 2, CrossRegion, ip);
    }
    if FindingKey(1, CrossRegion, ip) == FindingKey(2, CrossRegion, ip) {
      KeyInjective(1, CrossRegion, ip, 2, CrossRegion, ip);
    }
    assert RemoteText(Later().o) == ip && RemoteText(FromCron().o) == ip by { SameRemote(); }
  }

  lemma SameRemote()
    ensures RemoteText(Early().o) == RemoteText(Later().o) == RemoteText(FromCron().o) == IpText(REMOTE)
  {
    hide IpText;
  }

  function Calls(): seq<ReportRuns.Call> {
    [Early(), Later(), FromCron()]
  }

  lemma ReportIs()
    ensures ReportRuns.Run(Agent(), Calls()) == map[
      ReportRuns.CallKey(Agent(), Early()) := Fresh(Early()), ReportRuns.CallKey(Agent(), Later()) := Fresh(Later()),
      ReportRuns.CallKey(Agent(), FromCron()) := Fresh(FromCron())]
  {
    hide ReportRuns.Run, ReportRuns.CallKey, Fresh, Early, Later, FromCron;
    KeysDiffer();
    NothingYet();
    var a, b, c := Early(), Later(), FromCron();
    OneMoreCall([], a);
    assert [] + [a] == [a];
    OneMoreCall([a], b);
    assert [a] + [b] == [a, b];
    OneMoreCall([a, b], c);
    assert [a, b] + [c] == Calls();
  }

  lemma NothingYet()
    ensures ReportRuns.Run(Agent(), []) == map[]
  {
  }

  // ----- What the three findings say -----

  lemma Costs()
    ensures CostINR(Prices(), InternetEgress, High, GIGABYTE).1 > 0.0
    ensures CostINR(Prices(), CrossRegion, High, GIGABYTE).1 > 0.0
    ensures SavingsINR(Prices(), CrossRegion, High, GIGABYTE).1 >= 0.01
  {
    assert Rupees(Prices(), InternetEgress, GIGABYTE) == 0.09 * 80.0 by { OneGigabyte(InternetEgress, 0.09); }
    assert Rupees(Prices(), CrossRegion, GIGABYTE) == 0.02 * 80.0 by { OneGigabyte(CrossRegion, 0.02); }
    assert Rupees(Prices(), CrossAZ, GIGABYTE) == 0.01 * 80.0 by { OneGigabyte(CrossAZ, 0.01); }
    hide Rupees;
  }

  lemma OneGigabyte(class_: PathClass, rate: real)
    requires RateKey(class_) in Prices().rates && Prices().rates[RateKey(class_)] == rate
    ensures Rupees(Prices(), class_, GIGABYTE) == rate * 80.0
  {
    assert GIGABYTE as real / 1000000000.0 == 1.0;
  }

  function From(c: ReportRuns.Call): Origin {
    Origin(Agent(), Calls(), ReportRuns.CallKey(Agent(), c))
  }

  lemma OriginIs(c: ReportRuns.Call)
    requires c in Calls()
    ensures From(c).Valid() && From(c).Finding() == Fresh(c)
  {
    hide ReportRuns.Run, ReportRuns.CallKey, Fresh, Early, Later, FromCron;
    KeysDiffer();
    ReportIs();
  }

  /** The fields the gate compares. */
  lemma FreshFields(c: ReportRuns.Call, class_: PathClass)
    requires Classified(InputOf(c.o, Agent()), c.zoneOf) == (class_, High)
    ensures var f := Fresh(c);
      && f.class_ == class_ && f.source == SourceName(c.o) && f.destination == DestName(c.o)
      && f.destIp == RemoteText(c.o) && f.fixManifest == GenerateFixManifest(class_, SourceNamespace(c.o), c.o.remote)
      && f.costHigh == CostINR(Prices(), class_, High, c.tx + c.rx).1
      && f.savingsHigh == SavingsINR(Prices(), class_, High, c.tx + c.rx).1
  {
    hide CostINR, SavingsINR, Classified, Prices;
  }

  lemma Names()
    ensures SourceName(Early().o) == SourceName(Later().o) == "shop/web" && SourceName(FromCron().o) == "shop/cron"
    ensures DestName(Early().o) == IpText(REMOTE)
    ensures DestName(Later().o) == DestName(FromCron().o) == ApiName()
    ensures ByName(Later().o) && ByName(FromCron().o)
  {
    hide IpText;
  }

  // ----- A history that the gate misreads -----

  function Shipment(cs: seq<ReportRuns.Call>): seq<Origin> {
    seq(|cs|, i requires 0 <= i < |cs| => From(cs[i]))
  }

  ghost function Wire(cs: seq<ReportRuns.Call>): seq<Finding>
    requires forall c | c in cs :: c in Calls()
  {
    seq(|cs|, i requires 0 <= i < |cs| => (OriginIs(cs[i]); From(cs[i]).OnTheWire()))
  }

  /** One snapshot of the given findings. */
  ghost function Stored(cs: seq<ReportRuns.Call>): seq<StoreRuns.Step>
    requires forall c | c in cs :: c in Calls()
  {
    [StoreRuns.IngestStep(1, "prod", 1, Wire(cs))]
  }

  ghost function StoredRows(cs: seq<ReportRuns.Call>): seq<RawRow>
    requires forall c | c in cs :: c in Calls()
  {
    StoreRuns.AllRows(StoreRuns.Run(Stored(cs)).log)
  }

  lemma StoredRowsAre(cs: seq<ReportRuns.Call>)
    requires forall c | c in cs :: c in Calls()
    ensures StoredRows(cs) == Compaction.Snapshot(1, "prod", 1, Wire(cs))
    ensures Traced(StoredRows(cs), Shipment(cs))
  {
    hide Early, Later, FromCron, Wire, ReportRuns.Run, ReportRuns.CallKey;
    var steps, rows := Stored(cs), Compaction.Snapshot(1, "prod", 1, Wire(cs));
    assert steps[..0] == [] && steps[|steps| - 1] == steps[0];
    assert StoreRuns.Run([]).log == [];
    StoreRuns.AllRowsGrow([], rows);
    assert StoreRuns.AllRows([]) == [];
    WireIs(cs);
  }

  lemma WireIs(cs: seq<ReportRuns.Call>)
    requires forall c | c in cs :: c in Calls()
    ensures |Wire(cs)| == |cs|
    ensures forall i | 0 <= i < |cs| :: From(cs[i]).Valid() && Wire(cs)[i] == From(cs[i]).OnTheWire()
  {
    hide Early, Later, FromCron, ReportRuns.Run, ReportRuns.CallKey;
    forall i | 0 <= i < |cs| ensures From(cs[i]).Valid() && Wire(cs)[i] == From(cs[i]).OnTheWire() {
      assert cs[i] in cs;
      OriginIs(cs[i]);
    }
  }

  /** What the stored finding of a call says. */
  lemma RowIs(c: ReportRuns.Call, class_: PathClass)
    requires c in Calls() && Classified(InputOf(c.o, Agent()), c.zoneOf) == (class_, High)
    ensures From(c).Valid()
    ensures var x := From(c).OnTheWire();
      && x.source == SourceName(c.o) && x.destination == DestName(c.o) && x.pathClass == Name(class_)
      && x.costHigh == CostINR(Prices(), class_, High, c.tx + c.rx).1
      && x.fixManifest == GenerateFixManifest(class_, SourceNamespace(c.o), c.o.remote)
      && From(c).Finding().class_ == class_ && From(c).Finding().destIp == RemoteText(c.o)
      && From(c).Finding().fixManifest == x.fixManifest
      && From(c).Finding().savingsHigh == SavingsINR(Prices(), class_, High, c.tx + c.rx).1
  {
    hide ReportRuns.Run, ReportRuns.CallKey, Fresh, CostINR, SavingsINR, Classified, Calls, Prices, Name,
      ConfidenceName, HintText;
    OriginIs(c);
    FreshFields(c, class_);
  }

  /** The early finding stands under the address, at a cost. */
  lemma EarlyRow()
    ensures From(Early()).Valid()
    ensures var x := From(Early()).OnTheWire();
      && x.source == SourceName(Early().o) && x.destination == IpText(REMOTE)
      && x.pathClass != "CROSS_REGION" && x.costHigh > 0.0
  {
    Classes();
    Names();
    Costs();
    ClassNames();
    InReport();
    hide ReportRuns.Run, ReportRuns.CallKey, CostINR, SavingsINR, Classified, Calls, Prices, Name, SourceName,
      DestName, RemoteText, GenerateFixManifest, Early, IpText, InputOf;
    RowIs(Early(), InternetEgress);
  }

  lemma NamedFacts(c: ReportRuns.Call)
    requires c == Later() || c == FromCron()
    ensures c in Calls() && c.tx + c.rx == GIGABYTE
    ensures Classified(InputOf(c.o, Agent()), c.zoneOf) == (CrossRegion, High)
    ensures DestName(c.o) == ApiName() && RemoteText(c.o) == IpText(REMOTE)
    ensures GenerateFixManifest(CrossRegion, SourceNamespace(c.o), c.o.remote)
         == DenyDestination("shop", IpText(REMOTE)) != NoManifest
  {
    hide *;
    Classes();
    Names();
    SameRemote();
    Manifests();
    InReport();
  }

  /** Another finding of theirs stands under the pod's name, and clears the bars. */
  lemma NamedRow(c: ReportRuns.Call)
    requires c == Later() || c == FromCron()
    ensures From(c).Valid() && Qualifies(From(c).Finding()) && From(c).Finding().destIp == IpText(REMOTE)
    ensures var x := From(c).OnTheWire();
      && x.source == SourceName(c.o) && x.destination == ApiName() && x.pathClass == "CROSS_REGION" && x.costHigh > 0.0
      && x.fixManifest == DenyDestination("shop", IpText(REMOTE))
  {
    hide ReportRuns.Run, ReportRuns.CallKey, CostINR, SavingsINR, Classified, Calls, Prices, Name, SourceName,
      DestName, RemoteText, GenerateFixManifest, Early, Later, FromCron, IpText, InputOf, DenyDestination, Agent,
      ZoneOf, ApiName, SourceNamespace;
    NamedFacts(c);
    Costs();
    ClassNames();
    RowIs(c, CrossRegion);
  }

  lemma InReport()
    ensures Early() in Calls() && Later() in Calls() && FromCron() in Calls()
    ensures Early().tx + Early().rx == Later().tx + Later().rx == FromCron().tx + FromCron().rx == GIGABYTE
    ensures Early().zoneOf == Later().zoneOf == FromCron().zoneOf == ZoneOf
  {
    assert Calls()[0] == Early() && Calls()[1] == Later() && Calls()[2] == FromCron();
  }

  lemma Manifests()
    ensures GenerateFixManifest(CrossRegion, SourceNamespace(Later().o), Later().o.remote)
         == GenerateFixManifest(CrossRegion, SourceNamespace(FromCron().o), FromCron().o.remote)
         == DenyDestination("shop", IpText(REMOTE)) != NoManifest
  {
    hide IpText;
  }

  lemma ClassNames()
    ensures Name(InternetEgress) != "CROSS_REGION" == Name(CrossRegion)
  {
  }

  lemma ShopIsANamespace()
    ensures TrafficReplay.ExtractNamespace("shop/cron") == Some("shop")
  {
    assert TrafficReplay.IsLabel("shop");
    TrafficReplay.NamespaceIsRecognised("shop", "cron");
    assert "shop" + "/" + "cron" == "shop/cron";
  }

  // ----- The two histories -----

  lemma TextsDiffer()
    ensures "shop/web" != "shop/cron" && '/' in ApiName()
  {
    assert "shop/web"[5] != "shop/cron"[5];
    assert "pay/api"[3] == '/';
  }

  lemma NameTextsDiffer()
    ensures SourceName(Early().o) == SourceName(Later().o) != SourceName(FromCron().o)
    ensures IpText(REMOTE) != ApiName()
    ensures TrafficReplay.ExtractNamespace(SourceName(FromCron().o)) == Some("shop")
  {
    hide *;
    Names();
    ShopIsANamespace();
    TextsDiffer();
  }

  lemma BlocksTheAddress(m: Manifest)
    requires m == DenyDestination("shop", IpText(REMOTE))
    ensures TrafficReplay.BlockedIPs(m) == [IpText(REMOTE)] && TrafficReplay.NamespaceOf(m) == "shop"
  {
    hide IpText;
    GeneratedManifestReadsBack("shop", REMOTE);
  }

  /** The stored rows of some of the calls, one by one. */
  lemma StoredRow(cs: seq<ReportRuns.Call>, i: nat)
    requires (forall c | c in cs :: c in Calls()) && i < |cs|
    ensures |StoredRows(cs)| == |cs| && From(cs[i]).Valid()
    ensures StoredRows(cs)[i] == RawRow(1, "prod", 1, From(cs[i]).OnTheWire())
  {
    hide Early, Later, FromCron, ReportRuns.Run, ReportRuns.CallKey, Wire, Calls, StoredRows;
    StoredRowsAre(cs);
    WireIs(cs);
  }

  /** Web's later finding, stored. */
  ghost function Flagged(): FindingRow {
    InReport();
    OriginIs(Later());
    FindingRow(From(Later()).OnTheWire(), "prod", 1)
  }

  lemma FlaggedIs()
    ensures From(Later()).Valid() && Flagged().finding == From(Later()).OnTheWire() && Flagged().clusterId == "prod"
    ensures TrafficReplay.BlockedIPs(Flagged().finding.fixManifest) == [IpText(REMOTE)]
    ensures TrafficReplay.NamespaceOf(Flagged().finding.fixManifest) == "shop"
    ensures Flagged().finding.source == SourceName(Later().o)
    ensures Qualifies(From(Later()).Finding()) && From(Later()).Finding().destIp == IpText(REMOTE)
  {
    NamedRow(Later());
    hide ReportRuns.Run, ReportRuns.CallKey, Later, IpText, SourceName, DenyDestination, Qualifies;
    BlocksTheAddress(Flagged().finding.fixManifest);
  }

  /** All three findings stored. */
  lemma AllStored()
    ensures var rows, origins := StoredRows(Calls()), Shipment(Calls());
      && |rows| == 3 && |origins| == 3 && origins[2] == From(FromCron()) && Traced(rows, origins)
      && From(Early()).Valid() && From(Later()).Valid() && From(FromCron()).Valid()
      && rows[0] == RawRow(1, "prod", 1, From(Early()).OnTheWire())
      && rows[1] == RawRow(1, "prod", 1, From(Later()).OnTheWire())
      && rows[2] == RawRow(1, "prod", 1, From(FromCron()).OnTheWire())
  {
    hide Early, Later, FromCron, ReportRuns.Run, ReportRuns.CallKey, Wire, StoredRows;
    StoredRowsAre(Calls());
    StoredRow(Calls(), 0);
    StoredRow(Calls(), 1);
    StoredRow(Calls(), 2);
  }

  /** In the report of all three calls each call is the last under its key. */
  lemma CallsDescribe(c: ReportRuns.Call)
    requires c in Calls()
    ensures From(c).Valid() && Behind(From(c)) == c.o
  {
    hide ReportRuns.CallKey, Fresh, Early, Later, FromCron;
    OriginIs(c);
    KeysDiffer();
    var x, y, z := Early(), Later(), FromCron();
    assert Calls()[..2] == [x, y] && [x, y][..1] == [x];
    LastOfThree(x, y, z, ReportRuns.CallKey(Agent(), c));
  }

  lemma LastOfMore(calls: seq<ReportRuns.Call>, c: ReportRuns.Call, key: string)
    requires key in ReportRuns.Run(Agent(), calls + [c])
    ensures if key == ReportRuns.CallKey(Agent(), c) then Describing(Agent(), calls + [c], key) == c
            else key in ReportRuns.Run(Agent(), calls)
                 && Describing(Agent(), calls + [c], key) == Describing(Agent(), calls, key)
  {
    hide Agent, FindingKey, Classified, WithTraffic, Described;
    assert (calls + [c])[..|calls|] == calls;
  }

  lemma LastOfThree(x: ReportRuns.Call, y: ReportRuns.Call, z: ReportRuns.Call, key: string)
    requires key in ReportRuns.Run(Agent(), [x, y, z])
    ensures Describing(Agent(), [x, y, z], key)
         == if key == ReportRuns.CallKey(Agent(), z) then z else if key == ReportRuns.CallKey(Agent(), y) then y else x
  {
    hide ReportRuns.CallKey, Agent, ReportRuns.Run, Describing;
    assert [x, y, z] == [x, y] + [z] && [x, y] == [x] + [y] && [x] == [] + [x];
    LastOfMore([x, y], z, key);
    if key != ReportRuns.CallKey(Agent(), z) {
      LastOfMore([x], y, key);
      if key != ReportRuns.CallKey(Agent(), y) {
        NothingYet();
        LastOfMore([], x, key);
      }
    }
  }

  // ----- The gate misreads it -----

  lemma AllByName()
    ensures CrossRegionByName(Shipment(Calls()))
  {
    InReport();
    Names();
    Classes();
    EarlyRow();
    ClassNames();
    hide ReportRuns.Run, ReportRuns.CallKey, Behind, ByName, Classified, DestName, SourceName, IpText, Name,
      ConfidenceName, HintText;
    CallsDescribe(Later());
    CallsDescribe(FromCron());
    var origins := Shipment(Calls());
    assert |origins| == 3 && origins[0] == From(Early()) && origins[1] == From(Later())
           && origins[2] == From(FromCron());
    forall from | from in origins && from.Valid() && from.Finding().class_ == CrossRegion ensures ByName(Behind(from)) {
      assert from == origins[0] || from == origins[1] || from == origins[2];
    }
  }

  lemma {:induction false} SourcesMatch(rows: seq<RawRow>, q: History.Lookup, source: string)
    ensures source in History.RowSources(rows, q) <==>
              exists r | r in rows :: History.Matches(r, q) && r.finding.source == source
  {
    if rows != [] {
      var front, r := rows[..|rows| - 1], rows[|rows| - 1];
      SourcesMatch(front, q, source);
      assert rows == front + [r];
    }
  }

  /** One paid row under the address by the flagged source, two rows of whomever under another name. */
  lemma SafeByTheFirst(log: seq<StoreRuns.Entry>, row: FindingRow, address: string)
    requires TrafficReplay.BlockedIPs(row.finding.fixManifest) == [address]
    requires |StoreRuns.AllRows(log)| == 3 && OtherwisePaid(StoreRuns.AllRows(log)[0], 1, row, address)
    requires StoreRuns.AllRows(log)[1].finding.destination != address
    requires StoreRuns.AllRows(log)[2].finding.destination != address
    ensures RemediationSafety.SafeByLog(log, 1, row)
  {
    hide TrafficReplay.BlockedIPs, TrafficReplay.NamespaceOf, TrafficReplay.ExtractNamespace, StoreRuns.AllRows;
    var rows := StoreRuns.AllRows(log);
    forall r | r in rows ensures r == rows[0] || r == rows[1] || r == rows[2] {
    }
    SafeInRows(log, 1, row, address);
  }

  /** No lookup by the address returns the source of the third row. */
  lemma ThirdIsNotLookedUp(steps: seq<StoreRuns.Step>, address: string)
    requires |StoreRuns.AllRows(StoreRuns.Run(steps).log)| == 3
    requires var rows := StoreRuns.AllRows(StoreRuns.Run(steps).log);
      rows[0].finding.source == rows[1].finding.source != rows[2].finding.source
      && rows[2].finding.destination != address
    ensures StoreRuns.AllRows(StoreRuns.Run(steps).log)[2].finding.source !in
              History.HistoricalSources(StoreRuns.Run(steps).db, History.Lookup(1, "prod", address))
  {
    hide StoreRuns.Run, StoreRuns.AllRows, History.HistoricalSources, History.RowSources;
    var rows, q := StoreRuns.AllRows(StoreRuns.Run(steps).log), History.Lookup(1, "prod", address);
    forall r | r in rows ensures r == rows[0] || r == rows[1] || r == rows[2] {
    }
    History.HistoryIsComplete(steps, q, rows[2].finding.source);
    SourcesMatch(rows, q, rows[2].finding.source);
  }

  /** What the three rows are for the gate. */
  lemma RowsForTheGate()
    ensures var rows := StoredRows(Calls());
      && |rows| == 3 && OtherwisePaid(rows[0], 1, Flagged(), IpText(REMOTE))
      && rows[0].finding.source == rows[1].finding.source != rows[2].finding.source
      && rows[1].finding.destination != IpText(REMOTE) && rows[2].finding.destination != IpText(REMOTE)
      && rows[1] == RawRow(1, "prod", 1, Flagged().finding) && rows[2].finding.costHigh > 0.0
      && rows[2].tenant == 1 && rows[2].clusterId == "prod" && Flagged().reportedAt == 1
      && TrafficReplay.ExtractNamespace(rows[2].finding.source) == Some("shop")
  {
    hide ReportRuns.Run, ReportRuns.CallKey, Early, Later, FromCron, Stored, StoredRows, Shipment, Traced,
      DestName, SourceName, IpText, Name, ConfidenceName, HintText, DenyDestination, Qualifies, Calls,
      TrafficReplay.BlockedIPs, TrafficReplay.NamespaceOf, TrafficReplay.ExtractNamespace;
    AllStored();
    FlaggedIs();
    EarlyRow();
    NamedRow(Later());
    NamedRow(FromCron());
    NameTextsDiffer();
  }

  /** Web's early traffic is on record under the address, its later traffic and cron's under the pod's name. Web's
      finding is judged safe although cron paid for the very address that its policy blocks. */
  lemma PaidCollateralIsUnseen()
    ensures Overlooks(From(Later()), Stored(Calls()), Shipment(Calls()), 1, Flagged(), 2)
  {
    hide ReportRuns.Run, ReportRuns.CallKey, Early, Later, FromCron, Stored, Shipment, CrossRegionByName, Traced,
      DestName, SourceName, IpText, Name, ConfidenceName, HintText, DenyDestination, Qualifies, Flagged, From,
      Calls, OtherwisePaid, StoreRuns.Run, TrafficReplay.BlockedIPs, TrafficReplay.NamespaceOf,
      TrafficReplay.ExtractNamespace, RemediationSafety.SafeByLog;
    AllStored();
    AllByName();
    FlaggedIs();
    NamedRow(FromCron());
    RowsForTheGate();
    SafeByTheFirst(StoreRuns.Run(Stored(Calls())).log, Flagged(), IpText(REMOTE));
    ThirdIsNotLookedUp(Stored(Calls()), IpText(REMOTE));
  }

  // ----- And refuses a finding on its own -----

  function Alone(): seq<ReportRuns.Call> {
    [Later()]
  }

  lemma AloneInReport()
    ensures forall c | c in Alone() :: c in Calls()
  {
    InReport();
  }

  lemma AloneStored()
    ensures (forall c | c in Alone() :: c in Calls()) && From(Later()).Valid()
    ensures StoredRows(Alone()) == [RawRow(1, "prod", 1, Flagged().finding)]
  {
    hide Early, Later, FromCron, ReportRuns.Run, ReportRuns.CallKey, Wire, StoredRows, Calls, Flagged, From,
      ReportRuns.Shipped, Qualifies, TrafficReplay.BlockedIPs, TrafficReplay.NamespaceOf, IpText, SourceName,
      Name, ConfidenceName, HintText;
    AloneInReport();
    assert |Alone()| == 1 && Alone()[0] == Later();
    hide Alone;
    StoredRow(Alone(), 0);
    FlaggedIs();
    var rows := StoredRows(Alone());
    assert rows == [rows[0]];
  }

  lemma NamedOnlyIsUnsafe(log: seq<StoreRuns.Entry>, row: FindingRow, address: string)
    requires TrafficReplay.BlockedIPs(row.finding.fixManifest) == [address]
    requires forall r | r in StoreRuns.AllRows(log) :: r.finding.destination != address
    ensures !RemediationSafety.SafeByLog(log, 1, row)
  {
    hide TrafficReplay.BlockedIPs, TrafficReplay.NamespaceOf, TrafficReplay.ExtractNamespace, StoreRuns.AllRows;
  }

  /** Web's later finding on its own clears every bar, and is refused: all its traffic is on record under the pod's
      name. */
  lemma OwnTrafficAloneIsRefused()
    ensures From(Later()).Valid() && Flagged().finding == From(Later()).OnTheWire()
            && Qualifies(From(Later()).Finding())
    ensures forall c | c in Alone() :: c in Calls()
    ensures StoredRows(Alone()) == [RawRow(1, "prod", 1, Flagged().finding)]
    ensures !RemediationSafety.SafeByLog(StoreRuns.Run(Stored(Alone())).log, 1, Flagged())
  {
    hide ReportRuns.Run, ReportRuns.CallKey, Early, Later, FromCron, Stored, DestName, SourceName, StoreRuns.Run,
      Alone, Calls, IpText, Name, ConfidenceName, HintText, DenyDestination, Qualifies, Flagged, From,
      RemediationSafety.SafeByLog, TrafficReplay.BlockedIPs, TrafficReplay.NamespaceOf,
      TrafficReplay.ExtractNamespace;
    AloneStored();
    FlaggedIs();
    NamedRow(Later());
    NameTextsDiffer();
    NamedOnlyIsUnsafe(StoreRuns.Run(Stored(Alone())).log, Flagged(), IpText(REMOTE));
  }
}
