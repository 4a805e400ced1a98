/** What holds of every finding after any sequence of observations. */
module ReportRuns {
  import opened Classify
  import opened Findings
  import opened Pricing
  import opened Report
  import opened Sums
  import Remediation
  import TrafficReplay

  /** One call of `Add`; the zone lookup may answer differently each time. */
  datatype Call = Call(o: Observation, zoneOf: string -> string, tx: nat, rx: nat)

  function Run(s: Settings, calls: seq<Call>): map<string, AgentFinding> {
    if calls == [] then map[]
    else
      var c := calls[|calls| - 1];
      Added(Run(s, calls[..|calls| - 1]), s, c.o, c.zoneOf, c.tx, c.rx)
  }

  /** The key of the finding a call goes to. */
  function CallKey(s: Settings, c: Call): string {
    FindingKey(c.o.cgroupId, Classified(InputOf(c.o, s), c.zoneOf).0, RemoteText(c.o))
  }

  // ----- Pricing -----

  /** Costs and savings are those of the cumulative bytes, priced once at the current class and confidence. */
  predicate PricedOnce(f: AgentFinding, pb: PriceBook) {
    && (f.costLow, f.costHigh) == CostINR(pb, f.class_, f.confidence, f.bytesTx + f.bytesRx)
    && (f.savingsLow, f.savingsHigh) == SavingsINR(pb, f.class_, f.confidence, f.bytesTx + f.bytesRx)
  }

  /** Costs lie between the cumulative bytes' one-shot prices at low and at high confidence. */
  predicate PricedBetween(f: AgentFinding, pb: PriceBook) {
    var wide := CostINR(pb, f.class_, Low, f.bytesTx + f.bytesRx);
    var narrow := CostINR(pb, f.class_, High, f.bytesTx + f.bytesRx);
    wide.0 <= f.costLow <= narrow.0 && narrow.1 <= f.costHigh <= wide.1
  }

  /** The middle of the costs is the cumulative bytes' list price, whatever the confidence was over time. */
  predicate PricedMidway(f: AgentFinding, pb: PriceBook) {
    f.costLow + f.costHigh == 2.0 * Rupees(pb, f.class_, f.bytesTx + f.bytesRx)
  }

  /** A hint goes with the class; a manifest names a namespace, blocks the finding's own address, and is only given off
      the cluster or across regions. */
  ghost predicate WellFixed(f: AgentFinding) {
    && f.fixHint == FixHint(f.class_)
    && (f.fixManifest != NoManifest ==>
         && (f.class_ == InternetEgress || f.class_ == NATEgress || f.class_ == CrossRegion)
         && exists ip, namespace ::
              namespace != "" && f.destIp == IpText(ip) && f.fixManifest == DenyDestination(namespace, f.destIp))
  }

  ghost predicate WellPriced(f: AgentFinding, pb: PriceBook) {
    && (f.class_ != SameAZ ==> f.confidence == UsualConfidence(f.class_, f.destIp != "?") && PricedOnce(f, pb))
    && (f.class_ == SameAZ ==> f.savingsLow == 0.0 == f.savingsHigh && PricedMidway(f, pb))
    && (f.class_ == SameAZ && NonNegativeRates(pb) ==> PricedBetween(f, pb))
  }

  ghost predicate Consistent(f: AgentFinding, pb: PriceBook) {
    WellFixed(f) && WellPriced(f, pb)
  }

  ghost predicate Keyed(byKey: map<string, AgentFinding>) {
    forall key | key in byKey :: key == FindingKey(byKey[key].cgroupId, byKey[key].class_, byKey[key].destIp)
  }

  lemma TrafficKeepsPrice(f: AgentFinding, pb: PriceBook, tx: nat, rx: nat)
    requires PricedOnce(f, pb)
    ensures PricedOnce(WithTraffic(f, pb, tx, rx), pb)
  {
    hide CostINR, SavingsINR;
    CostAdds(pb, f.class_, f.confidence, f.bytesTx + f.bytesRx, tx + rx);
    SavingsAdd(pb, f.class_, f.confidence, f.bytesTx + f.bytesRx, tx + rx);
    assert f.bytesTx + f.bytesRx + (tx + rx) == (f.bytesTx + tx) + (f.bytesRx + rx);
  }

  lemma TrafficKeepsBounds(f: AgentFinding, pb: PriceBook, tx: nat, rx: nat)
    requires NonNegativeRates(pb) && PricedBetween(f, pb)
    ensures PricedBetween(WithTraffic(f, pb, tx, rx), pb)
  {
    hide CostINR, SavingsINR;
    CostAdds(pb, f.class_, Low, f.bytesTx + f.bytesRx, tx + rx);
    CostAdds(pb, f.class_, High, f.bytesTx + f.bytesRx, tx + rx);
    BandsNest(pb, f.class_, f.confidence, tx + rx);
    assert f.bytesTx + f.bytesRx + (tx + rx) == (f.bytesTx + tx) + (f.bytesRx + rx);
  }

  lemma TrafficKeepsMiddle(f: AgentFinding, pb: PriceBook, tx: nat, rx: nat)
    requires PricedMidway(f, pb)
    ensures PricedMidway(WithTraffic(f, pb, tx, rx), pb)
  {
    hide Rupees, SavingsINR;
    RupeesAdd(pb, f.class_, f.bytesTx + f.bytesRx, tx + rx);
    BandAround(Rupees(pb, f.class_, tx + rx), f.confidence);
    assert f.bytesTx + f.bytesRx + (tx + rx) == (f.bytesTx + tx) + (f.bytesRx + rx);
  }

  lemma NothingCostsNothing(pb: PriceBook, class_: PathClass, confidence: Confidence)
    ensures CostINR(pb, class_, confidence, 0) == (0.0, 0.0) && SavingsINR(pb, class_, confidence, 0) == (0.0, 0.0)
  {
    hide CostINR, SavingsINR;
    CostAdds(pb, class_, confidence, 0, 0);
    SavingsAdd(pb, class_, confidence, 0, 0);
  }

  lemma DescribedIsFixed(before: AgentFinding, o: Observation, localNode: string, class_: PathClass,
                         confidence: Confidence)
    ensures WellFixed(Described(before, o, localNode, class_, confidence))
  {
    hide SourceName, DestName, SourceNode, DestNode, IpText;
    if GenerateFixManifest(class_, SourceNamespace(o), o.remote) != NoManifest {
      var ip, namespace := o.remote.value, SourceNamespace(o);
      assert namespace != "" && RemoteText(o) == IpText(ip);
    }
  }

  lemma BlankIsPriced(cgroupId: nat, class_: PathClass, confidence: Confidence, pb: PriceBook)
    ensures var f := Blank(cgroupId).(class_ := class_, confidence := confidence);
      PricedOnce(f, pb) && PricedBetween(f, pb) && PricedMidway(f, pb)
  {
    hide CostINR, SavingsINR, Rupees;
    RupeesAdd(pb, class_, 0, 0);
    NothingCostsNothing(pb, class_, confidence);
    NothingCostsNothing(pb, class_, Low);
    NothingCostsNothing(pb, class_, High);
  }

  /** Traffic keeps the price of a finding whose class is as before; only SAME_AZ may have changed confidence. */
  lemma TrafficKeepsWellPriced(before: AgentFinding, f: AgentFinding, pb: PriceBook, tx: nat, rx: nat)
    requires WellPriced(before, pb) && before.class_ == f.class_
    requires before.class_ != SameAZ ==> before.confidence == f.confidence
    requires before.bytesTx == f.bytesTx && before.bytesRx == f.bytesRx && (before.destIp == "?" <==> f.destIp == "?")
    requires before.costLow == f.costLow && before.costHigh == f.costHigh
    requires before.savingsLow == f.savingsLow && before.savingsHigh == f.savingsHigh
    ensures WellPriced(WithTraffic(f, pb, tx, rx), pb)
  {
    hide CostINR, SavingsINR, NonNegativeRates, Rupees;
    if f.class_ != SameAZ {
      TrafficKeepsPrice(f, pb, tx, rx);
    } else {
      NoTargetNoSavings(pb, f.class_, f.confidence, tx + rx);
      TrafficKeepsMiddle(f, pb, tx, rx);
      if NonNegativeRates(pb) {
        TrafficKeepsBounds(f, pb, tx, rx);
      }
    }
  }

  lemma ClassifiedAsUsual(o: Observation, s: Settings, zoneOf: string -> string)
    ensures var (class_, confidence) := Classified(InputOf(o, s), zoneOf);
      class_ != SameAZ ==> confidence == UsualConfidence(class_, RemoteText(o) != "?")
  {
    hide Classified;
    ConfidenceFollowsClass(InputOf(o, s), zoneOf);
  }

  /** What `Add` writes: the finding before, described afresh, plus traffic. */
  lemma AddKeepsConsistent(before: AgentFinding, s: Settings, c: Call, class_: PathClass, confidence: Confidence)
    requires (class_, confidence) == Classified(InputOf(c.o, s), c.zoneOf)
    requires before == Blank(c.o.cgroupId) ||
             (Consistent(before, s.priceBook) && before.class_ == class_ && before.destIp == RemoteText(c.o))
    ensures Consistent(WithTraffic(Described(before, c.o, s.localNode, class_, confidence), s.priceBook, c.tx, c.rx),
                       s.priceBook)
  {
    hide CostINR, SavingsINR, Classified, PricedOnce, PricedBetween, PricedMidway, SourceName, DestName, SourceNode,
      DestNode, IpText, UsualConfidence, GenerateFixManifest;
    var f := Described(before, c.o, s.localNode, class_, confidence);
    DescribedIsFixed(before, c.o, s.localNode, class_, confidence);
    ClassifiedAsUsual(c.o, s, c.zoneOf);
    if before == Blank(c.o.cgroupId) {
      BlankIsPriced(c.o.cgroupId, class_, confidence, s.priceBook);
      var named := before.(class_ := class_, confidence := confidence, destIp := f.destIp);
      SamePrice(before.(class_ := class_, confidence := confidence), named, s.priceBook);
      TrafficKeepsWellPriced(named, f, s.priceBook, c.tx, c.rx);
    } else {
      TrafficKeepsWellPriced(before, f, s.priceBook, c.tx, c.rx);
    }
  }

  lemma SamePrice(f: AgentFinding, g: AgentFinding, pb: PriceBook)
    requires g == f.(destIp := g.destIp)
    ensures PricedOnce(f, pb) <==> PricedOnce(g, pb)
    ensures PricedBetween(f, pb) <==> PricedBetween(g, pb)
    ensures PricedMidway(f, pb) <==> PricedMidway(g, pb)
  {
    hide CostINR, SavingsINR;
  }

  /** Every finding of every run is keyed, classified, priced and fixed consistently. */
  lemma {:induction false} RunIsConsistent(s: Settings, calls: seq<Call>)
    ensures Keyed(Run(s, calls))
    ensures forall key | key in Run(s, calls) :: Consistent(Run(s, calls)[key], s.priceBook)
  {
    hide CostINR, SavingsINR, Classified, Consistent, DestName, SourceName;
    if calls != [] {
      var c := calls[|calls| - 1];
      var byKey := Run(s, calls[..|calls| - 1]);
      RunIsConsistent(s, calls[..|calls| - 1]);
      var (class_, confidence) := Classified(InputOf(c.o, s), c.zoneOf);
      var key := FindingKey(c.o.cgroupId, class_, RemoteText(c.o));
      if key in byKey {
        KeyInjective(byKey[key].cgroupId, byKey[key].class_, byKey[key].destIp, c.o.cgroupId, class_, RemoteText(c.o));
        AddKeepsConsistent(byKey[key], s, c, class_, confidence);
      } else {
        AddKeepsConsistent(Blank(c.o.cgroupId), s, c, class_, confidence);
      }
    }
  }

  // ----- Bytes -----

  /** Bytes are counted by direction. */
  datatype Direction = Sent | Received {
    function Of(tx: nat, rx: nat): nat {
      if this == Sent then tx else rx
    }
  }

  function CallBytes(dir: Direction, calls: seq<Call>): nat {
    if calls == [] then 0
    else CallBytes(dir, calls[..|calls| - 1]) + dir.Of(calls[|calls| - 1].tx, calls[|calls| - 1].rx)
  }

  ghost function BytesAt(dir: Direction, byKey: map<string, AgentFinding>): string -> real {
    key => if key in byKey then dir.Of(byKey[key].bytesTx, byKey[key].bytesRx) as real else 0.0
  }

  /** The bytes of all findings are the bytes of all calls, in each direction. */
  lemma {:induction false} BytesAddUp(dir: Direction, s: Settings, calls: seq<Call>)
    ensures Sum(Run(s, calls).Keys, BytesAt(dir, Run(s, calls))) == CallBytes(dir, calls) as real
  {
    hide DestName, SourceName, CostINR, SavingsINR, Classified, GenerateFixManifest;
    if calls != [] {
      var c := calls[|calls| - 1];
      var before, after := Run(s, calls[..|calls| - 1]), Run(s, calls);
      BytesAddUp(dir, s, calls[..|calls| - 1]);
      var key := FindingKey(c.o.cgroupId, Classified(InputOf(c.o, s), c.zoneOf).0, RemoteText(c.o));
      assert after.Keys == before.Keys + {key};
      SumAddAt(before.Keys, BytesAt(dir, before), BytesAt(dir, after), key, dir.Of(c.tx, c.rx) as real);
    } else {
      assert Run(s, calls).Keys == {};
    }
  }

  // ----- Which findings can qualify for remediation -----

  /** A finding on the wire. */
  function Shipped(f: AgentFinding, pb: PriceBook): Finding {
    Finding(f.source, f.destination, Name(f.class_), ConfidenceName(f.confidence), f.bytesTx, f.bytesRx,
            f.costLow, f.costHigh, HintText(f.fixHint), f.fixManifest, pb.cloud, pb.region, f.savingsLow, f.savingsHigh)
  }

  /** Under the default policy a finding of a run clears every bar exactly when it crosses regions, has a manifest and
      saves enough; the manifest then blocks its own address for a named namespace. */
  lemma OnlyCrossRegionQualifies(s: Settings, calls: seq<Call>, key: string)
    requires key in Run(s, calls)
    ensures var f := Run(s, calls)[key];
      var wire := Shipped(f, s.priceBook);
      && (wire.fixHint != "" && Remediation.FailedBars(wire, Remediation.DefaultRemediationPolicy()) == [] <==>
            f.class_ == CrossRegion && f.fixManifest != NoManifest && f.savingsHigh >= 0.01)
      && (f.fixManifest != NoManifest ==>
            Remediation.Understood(wire.fixManifest) && TrafficReplay.BlockedIPs(wire.fixManifest) == [f.destIp])
  {
    hide Run, Consistent;
    RunIsConsistent(s, calls);
    ConsistentFindingBars(Run(s, calls)[key], s.priceBook);
    if Run(s, calls)[key].fixManifest != NoManifest {
      ConsistentFindingManifest(Run(s, calls)[key], s.priceBook);
    }
  }

  lemma DefaultBars(f: Finding)
    ensures Remediation.FailedBars(f, Remediation.DefaultRemediationPolicy()) == [] <==>
              f.fixManifest != NoManifest && f.confidence == "high" && f.savingsHigh >= 0.01
  {
  }

  lemma InternetSavesNothing(f: AgentFinding, pb: PriceBook)
    requires PricedOnce(f, pb) && f.class_ == InternetEgress
    ensures f.savingsHigh == 0.0
  {
    hide CostINR;
    NoTargetNoSavings(pb, f.class_, f.confidence, f.bytesTx + f.bytesRx);
  }

  /** A class with a manifest has a hint, and only crossing regions comes with both certainty and savings. */
  lemma ManifestTells(f: AgentFinding, pb: PriceBook)
    requires Consistent(f, pb) && f.fixManifest != NoManifest
    ensures f.fixHint != NoHint
    ensures f.confidence == High && f.savingsHigh >= 0.01 <==> f.class_ == CrossRegion && f.savingsHigh >= 0.01
  {
    hide PricedOnce, PricedBetween, IpText, DenyDestination;
    if f.class_ == InternetEgress {
      InternetSavesNothing(f, pb);
    }
  }

  lemma OnlyHighIsHigh(c: Confidence)
    ensures ConfidenceName(c) == "high" <==> c == High
  {
  }

  lemma ConsistentFindingBars(f: AgentFinding, pb: PriceBook)
    requires Consistent(f, pb)
    ensures var wire := Shipped(f, pb);
      wire.fixHint != "" && Remediation.FailedBars(wire, Remediation.DefaultRemediationPolicy()) == [] <==>
        f.class_ == CrossRegion && f.fixManifest != NoManifest && f.savingsHigh >= 0.01
  {
    hide Consistent, Remediation.FailedBars, Remediation.DefaultRemediationPolicy, Name, ConfidenceName, HintText;
    DefaultBars(Shipped(f, pb));
    OnlyHighIsHigh(f.confidence);
    if f.fixManifest != NoManifest {
      ManifestTells(f, pb);
    }
  }

  lemma ConsistentFindingManifest(f: AgentFinding, pb: PriceBook)
    requires Consistent(f, pb) && f.fixManifest != NoManifest
    ensures Remediation.Understood(f.fixManifest) && TrafficReplay.BlockedIPs(f.fixManifest) == [f.destIp]
  {
    var ip, namespace :| namespace != "" && f.destIp == IpText(ip)
                         && f.fixManifest == DenyDestination(namespace, f.destIp);
    GeneratedManifestReadsBack(namespace, ip);
  }
}
