/** What a report says of the calls it was made from: each finding is the last call's description, the bytes of all its
    calls, and their price by the price book's own entries. */
module ReportedFindings {
  import opened Classify
  import opened Findings
  import opened Pricing
  import opened Report
  import opened ReportRuns

  // ----- What one call shows -----

  function Joined(namespace: string, between: string, name: string): string {
    if namespace != "" && name != "" then namespace + between + name else name
  }

  /** Traffic of a pod has its name and node; other traffic its cgroup's and the agent's own. */
  predicate CameFrom(o: Observation, localNode: string, source: string, node: string) {
    match o.kubernetes
    case Some(w) =>
      source == Joined(w.namespace, "/", w.pod) && node == if w.node != "" then w.node else localNode
    case None => source == o.cgroupPath && node == localNode
  }

  /** The address the traffic went to, with the best name known for it and the node it is on. */
  predicate WentTo(o: Observation, address: string, name: string, node: string) {
    && (match o.remote case Some(ip) => address == IpText(ip) case None => address == "?")
    && (match o.destination
        case Some(w) => node == if w.node == "" && o.endpoint.Some? then o.endpoint.value.nodeName else w.node
        case None => node == if o.endpoint.Some? then o.endpoint.value.nodeName else "")
    && (o.service.Some? ==> name == Joined(o.service.value.namespace, "/service/", o.service.value.name))
    && (o.service.None? ==>
          var pod := match o.destination case Some(w) => Joined(w.namespace, "/", w.pod) case None => address;
          var backend := match o.endpoint
                         case Some(e) => if e.podName != "" then Joined(e.namespace, "/", e.podName) else e.ip
                         case None => "";
          name == if pod == address && backend != "" then backend else pod)
  }

  /** The hint goes with the class, and the manifest with the classes it can be written for, a namespace and an
      address. */
  predicate FixFits(f: AgentFinding, o: Observation) {
    && f.fixHint == (match f.class_
                     case CrossAZ => StayInZone
                     case CrossRegion => ConfirmCrossing
                     case NATEgress => AddEndpoint
                     case InternetEgress => ConfirmLeaving
                     case ManagedService => PinToZone
                     case _ => NoHint)
    && f.fixManifest ==
         if o.kubernetes.Some? && o.kubernetes.value.namespace != "" && o.remote.Some?
            && f.class_ in {InternetEgress, NATEgress, CrossRegion} then
           Policy(o.kubernetes.value.namespace, [[IpBlock("0.0.0.0/0", [f.destIp + "/32"])]])
         else NoManifest
  }

  /** The finding has the names, nodes, class and fix of the call, the classifier going by the nodes it names. */
  ghost predicate Shows(f: AgentFinding, c: Call, s: Settings) {
    && f.cgroupId == c.o.cgroupId
    && CameFrom(c.o, s.localNode, f.source, f.sourceNode)
    && WentTo(c.o, f.destIp, f.destination, f.destNode)
    && FixFits(f, c.o)
    && var managed := c.o.remote.Some? && exists block | block in s.managedNets :: Contains(block, c.o.remote.value);
       (f.class_, f.confidence)
         == Classified(ClassifyInput(c.o.remote, f.sourceNode, f.destNode, managed, s.nodeHasPublicIP), c.zoneOf)
  }

  /** The call is about the finding's cgroup, class and address. */
  ghost predicate Lands(c: Call, s: Settings, f: AgentFinding) {
    exists shown :: Shows(shown, c, s) &&
      shown.cgroupId == f.cgroupId && shown.class_ == f.class_ && shown.destIp == f.destIp
  }

  lemma SourceCame(o: Observation, localNode: string, source: string, node: string)
    ensures CameFrom(o, localNode, source, node) <==> source == SourceName(o) && node == SourceNode(o, localNode)
  {
  }

  lemma DestinationWent(o: Observation, address: string, name: string, node: string)
    ensures WentTo(o, address, name, node) <==> address == RemoteText(o) && name == DestName(o) && node == DestNode(o)
  {
    hide IpText;
  }

  lemma ManagedByBlock(s: Settings, ip: Ip)
    ensures InAny(s.managedNets, ip) <==> exists block | block in s.managedNets :: Contains(block, ip)
  {
    hide Contains;
    if block :| block in s.managedNets && Contains(block, ip) {
      var i :| 0 <= i < |s.managedNets| && s.managedNets[i] == block;
    }
  }

  lemma FixIsDescribed(f: AgentFinding, o: Observation)
    requires f.destIp == RemoteText(o)
    ensures FixFits(f, o) <==>
              && f.fixHint == FixHint(f.class_)
              && f.fixManifest == GenerateFixManifest(f.class_, SourceNamespace(o), o.remote)
  {
    hide IpText;
  }

  lemma DescribedShows(f: AgentFinding, c: Call, s: Settings)
    requires f.cgroupId == c.o.cgroupId
    ensures Shows(f, c, s) <==>
              var (class_, confidence) := Classified(InputOf(c.o, s), c.zoneOf);
              f == Described(f, c.o, s.localNode, class_, confidence)
  {
    hide Classified, CameFrom, WentTo, FixFits, SourceName, SourceNode, DestName, DestNode, RemoteText, FixHint,
      GenerateFixManifest, InAny, Contains;
    SourceCame(c.o, s.localNode, f.source, f.sourceNode);
    DestinationWent(c.o, f.destIp, f.destination, f.destNode);
    if c.o.remote.Some? {
      ManagedByBlock(s, c.o.remote.value);
    }
    if f.destIp == RemoteText(c.o) {
      FixIsDescribed(f, c.o);
    }
  }

  function KeyOf(f: AgentFinding): string {
    FindingKey(f.cgroupId, f.class_, f.destIp)
  }

  lemma LandsByKey(c: Call, s: Settings, f: AgentFinding)
    ensures Lands(c, s, f) <==> CallKey(s, c) == KeyOf(f)
  {
    hide Classified, Shows, FindingKey, RemoteText;
    var (class_, confidence) := Classified(InputOf(c.o, s), c.zoneOf);
    if CallKey(s, c) == KeyOf(f) {
      KeyInjective(c.o.cgroupId, class_, RemoteText(c.o), f.cgroupId, f.class_, f.destIp);
      var shown := Sight(c, s);
      DescribedShows(shown, c, s);
    }
    if shown :| Shows(shown, c, s) && shown.cgroupId == f.cgroupId && shown.class_ == f.class_
                && shown.destIp == f.destIp {
      ShownKey(shown, c, s);
    }
  }

  function Sight(c: Call, s: Settings): AgentFinding {
    var (class_, confidence) := Classified(InputOf(c.o, s), c.zoneOf);
    Described(Blank(c.o.cgroupId), c.o, s.localNode, class_, confidence)
  }

  lemma ShownKey(f: AgentFinding, c: Call, s: Settings)
    requires Shows(f, c, s)
    ensures KeyOf(f) == CallKey(s, c)
  {
    hide Classified, FindingKey, RemoteText, SourceName, SourceNode, DestName, DestNode, FixHint, GenerateFixManifest;
    assert f.cgroupId == c.o.cgroupId;
    DescribedShows(f, c, s);
  }

  // ----- The bytes of one finding -----

  ghost function TxOf(calls: seq<Call>, s: Settings, f: AgentFinding): nat {
    if calls == [] then 0
    else
      var c := calls[|calls| - 1];
      TxOf(calls[..|calls| - 1], s, f) + if Lands(c, s, f) then c.tx else 0
  }

  ghost function RxOf(calls: seq<Call>, s: Settings, f: AgentFinding): nat {
    if calls == [] then 0
    else
      var c := calls[|calls| - 1];
      RxOf(calls[..|calls| - 1], s, f) + if Lands(c, s, f) then c.rx else 0
  }

  /** The calls since the last that shows the finding are about others. */
  ghost predicate LastShown(f: AgentFinding, calls: seq<Call>, s: Settings) {
    exists i | 0 <= i < |calls| :: Shows(f, calls[i], s) && forall j | i < j < |calls| :: !Lands(calls[j], s, f)
  }

  /** The bytes a finding has when it has the key, and none when nothing has. */
  ghost predicate HasBytes(calls: seq<Call>, s: Settings, f: AgentFinding) {
    var byKey := Run(s, calls);
    if KeyOf(f) in byKey then
      byKey[KeyOf(f)].bytesTx == TxOf(calls, s, f) && byKey[KeyOf(f)].bytesRx == RxOf(calls, s, f)
    else TxOf(calls, s, f) == 0 == RxOf(calls, s, f)
  }

  /** One call changes one finding: it shows the call and gains its bytes. */
  lemma AddedIsShown(byKey: map<string, AgentFinding>, s: Settings, c: Call)
    requires Keyed(byKey)
    ensures var key, after := CallKey(s, c), Added(byKey, s, c.o, c.zoneOf, c.tx, c.rx);
      && after.Keys == byKey.Keys + {key} && (forall k | k in byKey && k != key :: after[k] == byKey[k])
      && Shows(after[key], c, s) && KeyOf(after[key]) == key
      && after[key].bytesTx == (if key in byKey then byKey[key].bytesTx else 0) + c.tx
      && after[key].bytesRx == (if key in byKey then byKey[key].bytesRx else 0) + c.rx
  {
    hide CostINR, SavingsINR, Classified, FindingKey, RemoteText, SourceName, SourceNode, DestName, DestNode, FixHint,
      GenerateFixManifest, Shows;
    var key := CallKey(s, c);
    var after := Added(byKey, s, c.o, c.zoneOf, c.tx, c.rx);
    if key in byKey {
      SameCgroup(byKey[key], s, c);
    }
    DescribedShows(after[key], c, s);
  }

  lemma SameCgroup(f: AgentFinding, s: Settings, c: Call)
    requires KeyOf(f) == CallKey(s, c)
    ensures f.cgroupId == c.o.cgroupId
  {
    hide Classified, FindingKey, RemoteText;
    KeyInjective(c.o.cgroupId, Classified(InputOf(c.o, s), c.zoneOf).0, RemoteText(c.o), f.cgroupId, f.class_,
                 f.destIp);
  }

  lemma {:induction false} BytesByKey(s: Settings, calls: seq<Call>, f: AgentFinding)
    ensures HasBytes(calls, s, f)
  {
    hide Lands, KeyOf, Added, CallKey, Keyed, Consistent, Shows;
    if calls != [] {
      var front, c := calls[..|calls| - 1], calls[|calls| - 1];
      RunIsConsistent(s, front);
      BytesByKey(s, front, f);
      LandsByKey(c, s, f);
      AddedIsShown(Run(s, front), s, c);
    }
  }

  lemma LastShownStays(f: AgentFinding, calls: seq<Call>, n: nat, s: Settings)
    requires |calls| == n + 1
    ensures Shows(f, calls[n], s) ==> LastShown(f, calls, s)
    ensures LastShown(f, calls[..n], s) && !Lands(calls[n], s, f) ==> LastShown(f, calls, s)
  {
    hide Shows, Lands;
    if LastShown(f, calls[..n], s) && !Lands(calls[n], s, f) {
      var front := calls[..n];
      var i :| 0 <= i < n && Shows(f, front[i], s) && forall j | i < j < n :: !Lands(front[j], s, f);
      assert front[i] == calls[i] && forall j | i < j < n :: front[j] == calls[j];
    }
  }

  lemma {:induction false} LastCallShows(s: Settings, calls: seq<Call>, key: string)
    requires key in Run(s, calls)
    ensures LastShown(Run(s, calls)[key], calls, s) && KeyOf(Run(s, calls)[key]) == key
  {
    hide LastShown, Lands, KeyOf, Added, CallKey, Keyed, Consistent, Shows;
    var n := |calls| - 1;
    RunIsConsistent(s, calls[..n]);
    AddedIsShown(Run(s, calls[..n]), s, calls[n]);
    LastShownStays(Run(s, calls)[key], calls, n, s);
    if key != CallKey(s, calls[n]) {
      LastCallShows(s, calls[..n], key);
      LandsByKey(calls[n], s, Run(s, calls)[key]);
    }
  }

  // ----- The price of one finding -----

  /** Costs are the list price of the bytes within the confidence's band; a SAME_AZ finding, whose confidence may
      change, has it in the middle of a band no narrower than at high and no wider than at low confidence. Savings are
      against the entry the fix would move the traffic to. */
  ghost predicate PricedByEntry(f: AgentFinding, pb: PriceBook) {
    && (f.class_ == SameAZ ==>
          && f.savingsLow == 0.0 == f.savingsHigh
          && var list := if "same_az" in pb.rates then
                           (f.bytesTx + f.bytesRx) as real / 1000000000.0 * pb.rates["same_az"] * pb.usdToInr else 0.0;
             && f.costLow + f.costHigh == 2.0 * list
             && (NonNegativeRates(pb) ==> 0.40 * list <= f.costLow <= 0.85 * list))
    && (f.class_ != SameAZ ==>
          && (forall key | BilledUnder(f.class_, key) ::
                Costs(pb, key, f.confidence, f.bytesTx + f.bytesRx, f.costLow, f.costHigh))
          && (forall key | FixedUnder(f.class_, key) ::
                Costs(pb, key, f.confidence, f.bytesTx + f.bytesRx, f.costLow - f.savingsLow,
                      f.costHigh - f.savingsHigh))
          && ((forall key :: !FixedUnder(f.class_, key)) ==> f.savingsLow == 0.0 == f.savingsHigh))
  }

  lemma WellPricedByEntry(f: AgentFinding, pb: PriceBook)
    requires WellPriced(f, pb)
    ensures PricedByEntry(f, pb)
  {
    hide BilledUnder, FixedUnder, Costs, Rupees, NonNegativeRates;
    var bytes := f.bytesTx + f.bytesRx;
    if f.class_ == SameAZ {
      SameAZIsBilled();
      RupeesUnder(pb, SameAZ, "same_az", bytes);
      BandAround(Rupees(pb, SameAZ, bytes), Low);
      BandAround(Rupees(pb, SameAZ, bytes), High);
    } else {
      forall key | BilledUnder(f.class_, key) ensures Costs(pb, key, f.confidence, bytes, f.costLow, f.costHigh) {
        CostIsListPrice(pb, f.class_, key, f.confidence, bytes);
      }
      forall key | FixedUnder(f.class_, key)
        ensures Costs(pb, key, f.confidence, bytes, f.costLow - f.savingsLow, f.costHigh - f.savingsHigh)
      {
        FixedUnderOne(f.class_, key);
        CostIsListPrice(pb, OptimizationTarget(f.class_).value, key, f.confidence, bytes);
      }
      if forall key :: !FixedUnder(f.class_, key) {
        NoEntryNoTarget(f.class_);
      }
    }
  }

  lemma SameAZIsBilled()
    ensures BilledUnder(SameAZ, "same_az")
  {
  }

  lemma NoEntryNoTarget(class_: PathClass)
    requires forall key :: !FixedUnder(class_, key)
    ensures OptimizationTarget(class_).None?
  {
    var target := OptimizationTarget(class_);
    if target.Some? {
      FixedUnderOne(class_, RateKey(target.value));
      BilledUnderOne(target.value, RateKey(target.value));
    }
  }

  /** Every finding of every run shows the last call that is about it, has the bytes of exactly those calls, and costs
      and saves what the price book says of them. */
  lemma FindingsAreTheCalls(s: Settings, calls: seq<Call>, key: string)
    requires key in Run(s, calls)
    ensures var f := Run(s, calls)[key];
      && LastShown(f, calls, s)
      && f.bytesTx == TxOf(calls, s, f) && f.bytesRx == RxOf(calls, s, f)
      && PricedByEntry(f, s.priceBook)
  {
    hide Run, WellPriced, WellFixed, LastShown, KeyOf, PricedByEntry;
    RunIsConsistent(s, calls);
    LastCallShows(s, calls, key);
    BytesByKey(s, calls, Run(s, calls)[key]);
    WellPricedByEntry(Run(s, calls)[key], s.priceBook);
  }

  /** And no call is lost: each is about exactly one finding. */
  lemma {:induction false} EveryCallIsReported(s: Settings, calls: seq<Call>, i: nat)
    requires i < |calls|
    ensures exists key | key in Run(s, calls) :: Lands(calls[i], s, Run(s, calls)[key])
    ensures forall key, key' | key in Run(s, calls) && key' in Run(s, calls) && key != key' ::
      !(Lands(calls[i], s, Run(s, calls)[key]) && Lands(calls[i], s, Run(s, calls)[key']))
  {
    hide Lands, KeyOf, Run, CallKey, Consistent, Keyed;
    CallIsKeyed(s, calls, i);
    KeysAreKept(s, calls);
    forall key | key in Run(s, calls)
      ensures Lands(calls[i], s, Run(s, calls)[key]) <==> key == CallKey(s, calls[i])
    {
      LandsByKey(calls[i], s, Run(s, calls)[key]);
    }
  }

  lemma {:induction false} CallIsKeyed(s: Settings, calls: seq<Call>, i: nat)
    requires i < |calls|
    ensures CallKey(s, calls[i]) in Run(s, calls)
  {
    hide FindingKey, Classified, RemoteText, WithTraffic, Described;
    var n := |calls| - 1;
    if i < n {
      CallIsKeyed(s, calls[..n], i);
    }
  }

  lemma KeysAreKept(s: Settings, calls: seq<Call>)
    ensures forall key | key in Run(s, calls) :: KeyOf(Run(s, calls)[key]) == key
  {
    hide Run, Consistent, FindingKey;
    RunIsConsistent(s, calls);
  }

  // ----- On the wire -----

  predicate ClassOnWire(class_: PathClass, text: string) {
    || (class_ == SameNode && text == "SAME_NODE")
    || (class_ == SameAZ && text == "SAME_AZ")
    || (class_ == CrossAZ && text == "CROSS_AZ")
    || (class_ == CrossRegion && text == "CROSS_REGION")
    || (class_ == ManagedService && text == "MANAGED_SERVICE")
    || (class_ == PrivateOffCluster && text == "PRIVATE_OFFCLUSTER")
    || (class_ == NATEgress && text == "NAT_EGRESS")
    || (class_ == InternetEgress && text == "INTERNET_EGRESS")
  }

  predicate ConfidenceOnWire(confidence: Confidence, text: string) {
    || (confidence == High && text == "high")
    || (confidence == Med && text == "med")
    || (confidence == Low && text == "low")
  }

  lemma NamesOnWire(class_: PathClass, confidence: Confidence)
    ensures ClassOnWire(class_, Name(class_)) && ConfidenceOnWire(confidence, ConfidenceName(confidence))
  {
  }

  /** What the control plane is sent of a finding: its names, class and confidence as text, the bytes of its calls, its
      costs and savings, a hint and a manifest where it has them, and the price book's cloud and region. */
  lemma ShippedFindingsSay(s: Settings, calls: seq<Call>, key: string)
    requires key in Run(s, calls)
    ensures var f := Run(s, calls)[key];
      var wire := Shipped(f, s.priceBook);
      && wire.source == f.source && wire.destination == f.destination
      && ClassOnWire(f.class_, wire.pathClass) && ConfidenceOnWire(f.confidence, wire.confidence)
      && wire.bytesTx == TxOf(calls, s, f) && wire.bytesRx == RxOf(calls, s, f)
      && wire.costLow == f.costLow && wire.costHigh == f.costHigh
      && wire.savingsLow == f.savingsLow && wire.savingsHigh == f.savingsHigh
      && (wire.fixHint == "" <==> f.fixHint == NoHint) && wire.fixManifest == f.fixManifest
      && wire.cloud == s.priceBook.cloud && wire.region == s.priceBook.region
  {
    hide Run, LastShown, PricedByEntry, TxOf, RxOf, Name, ConfidenceName, ClassOnWire, ConfidenceOnWire, HintText;
    FindingsAreTheCalls(s, calls, key);
    NamesOnWire(Run(s, calls)[key].class_, Run(s, calls)[key].confidence);
  }
}
