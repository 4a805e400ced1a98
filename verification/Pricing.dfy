/** Pricing bytes on a classified path, in rupees, as a band around the list price. */
module Pricing {
  import opened Classify
  import opened Findings
  import opened Reals

  datatype PriceBook = PriceBook(cloud: string, region: string, rates: map<string, real>, usdToInr: real)

  function RateKey(class_: PathClass): string {
    match class_
    case SameNode => "same_node"
    case SameAZ => "same_az"
    case CrossAZ => "cross_az"
    case CrossRegion => "cross_region"
    case ManagedService => "managed_service"
    case PrivateOffCluster => "private_offcluster"
    case NATEgress => "nat_egress"
    case InternetEgress => "internet_egress"
  }

  /** The cheaper class a class's fix would turn its traffic into. */
  function OptimizationTarget(class_: PathClass): Option<PathClass> {
    match class_
    case CrossAZ => Some(SameAZ)
    case CrossRegion => Some(CrossAZ)
    case NATEgress => Some(PrivateOffCluster)
    case ManagedService => Some(SameAZ)
    case _ => None
  }

  function Band(confidence: Confidence): real {
    match confidence
    case High => 0.15
    case Med => 0.35
    case Low => 0.60
  }

  /** A missing rate prices at zero. */
  function Rate(pb: PriceBook, class_: PathClass): real {
    if RateKey(class_) in pb.rates then pb.rates[RateKey(class_)] else 0.0
  }

  /** The middle of the band. */
  function Rupees(pb: PriceBook, class_: PathClass, bytes: nat): real {
    bytes as real / 1000000000.0 * Rate(pb, class_) * pb.usdToInr
  }

  function CostINR(pb: PriceBook, class_: PathClass, confidence: Confidence, bytes: nat): (real, real) {
    var inr := Rupees(pb, class_, bytes);
    (inr * (1.0 - Band(confidence)), inr * (1.0 + Band(confidence)))
  }

  /** What a finding saves if its fix works: the same bytes at the target class. */
  function SavingsINR(pb: PriceBook, class_: PathClass, confidence: Confidence, bytes: nat): (real, real) {
    match OptimizationTarget(class_)
    case None => (0.0, 0.0)
    case Some(target) =>
      var cost, cheaper := CostINR(pb, class_, confidence, bytes), CostINR(pb, target, confidence, bytes);
      (cost.0 - cheaper.0, cost.1 - cheaper.1)
  }

  lemma NoTargetNoSavings(pb: PriceBook, class_: PathClass, confidence: Confidence, bytes: nat)
    requires OptimizationTarget(class_).None?
    ensures SavingsINR(pb, class_, confidence, bytes) == (0.0, 0.0)
  {
  }

  lemma RupeesAdd(pb: PriceBook, class_: PathClass, m: nat, n: nat)
    ensures Rupees(pb, class_, m + n) == Rupees(pb, class_, m) + Rupees(pb, class_, n)
  {
    var rate := Rate(pb, class_);
    var a, b := m as real / 1000000000.0, n as real / 1000000000.0;
    assert (m + n) as real / 1000000000.0 == a + b;
    Distribute(a, b, rate);
    Distribute(a * rate, b * rate, pb.usdToInr);
  }

  /** Pricing in parts is pricing at once. */
  lemma CostAdds(pb: PriceBook, class_: PathClass, confidence: Confidence, m: nat, n: nat)
    ensures var a, b, all := CostINR(pb, class_, confidence, m), CostINR(pb, class_, confidence, n),
                             CostINR(pb, class_, confidence, m + n);
      all == (a.0 + b.0, a.1 + b.1)
  {
    RupeesAdd(pb, class_, m, n);
    Distribute(Rupees(pb, class_, m), Rupees(pb, class_, n), 1.0 - Band(confidence));
    Distribute(Rupees(pb, class_, m), Rupees(pb, class_, n), 1.0 + Band(confidence));
  }

  lemma SavingsAdd(pb: PriceBook, class_: PathClass, confidence: Confidence, m: nat, n: nat)
    ensures var a, b, all := SavingsINR(pb, class_, confidence, m), SavingsINR(pb, class_, confidence, n),
                             SavingsINR(pb, class_, confidence, m + n);
      all == (a.0 + b.0, a.1 + b.1)
  {
    CostAdds(pb, class_, confidence, m, n);
    match OptimizationTarget(class_)
    case None =>
    case Some(target) => CostAdds(pb, target, confidence, m, n);
  }

  ghost predicate NonNegativeRates(pb: PriceBook) {
    pb.usdToInr >= 0.0 && forall k | k in pb.rates :: pb.rates[k] >= 0.0
  }

  lemma RupeesNonNegative(pb: PriceBook, class_: PathClass, bytes: nat)
    requires NonNegativeRates(pb)
    ensures Rupees(pb, class_, bytes) >= 0.0
  {
    var rate := Rate(pb, class_);
    assert bytes as real / 1000000000.0 * rate >= 0.0;
  }

  // ----- The price, by the price book's own entries -----

  /** The entry of the price book a class is billed under. */
  predicate BilledUnder(class_: PathClass, key: string) {
    || (class_ == SameNode && key == "same_node")
    || (class_ == SameAZ && key == "same_az")
    || (class_ == CrossAZ && key == "cross_az")
    || (class_ == CrossRegion && key == "cross_region")
    || (class_ == ManagedService && key == "managed_service")
    || (class_ == PrivateOffCluster && key == "private_offcluster")
    || (class_ == NATEgress && key == "nat_egress")
    || (class_ == InternetEgress && key == "internet_egress")
  }

  /** The entry a class's fix would move its traffic to. */
  predicate FixedUnder(class_: PathClass, key: string) {
    || (class_ == CrossAZ && key == "same_az")
    || (class_ == CrossRegion && key == "cross_az")
    || (class_ == NATEgress && key == "private_offcluster")
    || (class_ == ManagedService && key == "same_az")
  }

  /** The band lies around the list price of the bytes, 15, 35 or 60 percent to either side. */
  ghost predicate Costs(pb: PriceBook, key: string, confidence: Confidence, bytes: nat, low: real, high: real) {
    && low + high == 2.0 * (if key in pb.rates then bytes as real / 1000000000.0 * pb.rates[key] * pb.usdToInr else 0.0)
    && (confidence == High ==> 115.0 * low == 85.0 * high)
    && (confidence == Med ==> 135.0 * low == 65.0 * high)
    && (confidence == Low ==> 160.0 * low == 40.0 * high)
  }

  lemma BilledUnderOne(class_: PathClass, key: string)
    ensures BilledUnder(class_, key) <==> key == RateKey(class_)
  {
  }

  lemma FixedUnderOne(class_: PathClass, key: string)
    ensures FixedUnder(class_, key) <==>
              OptimizationTarget(class_).Some? && BilledUnder(OptimizationTarget(class_).value, key)
  {
  }

  lemma CostIsListPrice(pb: PriceBook, class_: PathClass, key: string, confidence: Confidence, bytes: nat)
    requires BilledUnder(class_, key)
    ensures Costs(pb, key, confidence, bytes, CostINR(pb, class_, confidence, bytes).0,
                  CostINR(pb, class_, confidence, bytes).1)
  {
    hide BilledUnder, RateKey, Rupees;
    RupeesUnder(pb, class_, key, bytes);
    BandAround(Rupees(pb, class_, bytes), confidence);
  }

  lemma RupeesUnder(pb: PriceBook, class_: PathClass, key: string, bytes: nat)
    requires BilledUnder(class_, key)
    ensures Rupees(pb, class_, bytes)
         == if key in pb.rates then bytes as real / 1000000000.0 * pb.rates[key] * pb.usdToInr else 0.0
  {
    BilledUnderOne(class_, key);
    hide BilledUnder, RateKey;
  }

  lemma BandAround(inr: real, confidence: Confidence)
    ensures var low, high := inr * (1.0 - Band(confidence)), inr * (1.0 + Band(confidence));
      && low + high == 2.0 * inr
      && (confidence == High ==> low == 0.85 * inr && high == 1.15 * inr)
      && (confidence == Med ==> low == 0.65 * inr && high == 1.35 * inr)
      && (confidence == Low ==> low == 0.40 * inr && high == 1.60 * inr)
  {
  }

  /** Lower confidence widens the band at both ends, strictly if the price is not zero. */
  lemma BandsNest(pb: PriceBook, class_: PathClass, confidence: Confidence, bytes: nat)
    requires NonNegativeRates(pb)
    ensures var wide, narrow, cost := CostINR(pb, class_, Low, bytes), CostINR(pb, class_, High, bytes),
                                      CostINR(pb, class_, confidence, bytes);
      wide.0 <= cost.0 <= narrow.0 <= narrow.1 <= cost.1 <= wide.1
    ensures forall key | BilledUnder(class_, key) && key in pb.rates ::
      pb.rates[key] > 0.0 && pb.usdToInr > 0.0 && bytes > 0 ==>
        var low, med, high := CostINR(pb, class_, Low, bytes), CostINR(pb, class_, Med, bytes),
                              CostINR(pb, class_, High, bytes);
        low.0 < med.0 < high.0 < high.1 < med.1 < low.1
  {
    RupeesNonNegative(pb, class_, bytes);
    BilledUnderOne(class_, RateKey(class_));
    forall key | BilledUnder(class_, key) ensures key == RateKey(class_) {
      BilledUnderOne(class_, key);
    }
    hide BilledUnder, RateKey, Rupees, NonNegativeRates;
    BandAround(Rupees(pb, class_, bytes), Low);
    BandAround(Rupees(pb, class_, bytes), Med);
    BandAround(Rupees(pb, class_, bytes), High);
    if Rate(pb, class_) > 0.0 && pb.usdToInr > 0.0 && bytes > 0 {
      RupeesPositive(pb, class_, bytes);
    }
  }

  lemma RupeesPositive(pb: PriceBook, class_: PathClass, bytes: nat)
    requires Rate(pb, class_) > 0.0 && pb.usdToInr > 0.0 && bytes > 0
    ensures Rupees(pb, class_, bytes) > 0.0
  {
    hide Rate;
    var gigabytes := bytes as real / 1000000000.0;
    assert gigabytes > 0.0;
    ScaleKeepsOrder(0.0, gigabytes, Rate(pb, class_));
    ScaleKeepsOrder(0.0, gigabytes * Rate(pb, class_), pb.usdToInr);
  }

  /** Nearer paths cost no more than farther ones. */
  ghost predicate NearerIsCheaper(pb: PriceBook) {
    && NonNegativeRates(pb)
    && Rate(pb, SameAZ) <= Rate(pb, CrossAZ) <= Rate(pb, CrossRegion)
    && Rate(pb, SameAZ) <= Rate(pb, ManagedService)
    && Rate(pb, PrivateOffCluster) <= Rate(pb, NATEgress)
  }

  lemma CheaperRateCheaperBytes(pb: PriceBook, class_: PathClass, target: PathClass, bytes: nat)
    requires NonNegativeRates(pb) && Rate(pb, target) <= Rate(pb, class_)
    ensures Rupees(pb, target, bytes) <= Rupees(pb, class_, bytes)
  {
    hide Rate;
    ScaledOrder(bytes as real / 1000000000.0, Rate(pb, target), Rate(pb, class_), pb.usdToInr);
  }

  lemma ScaledOrder(x: real, low: real, high: real, y: real)
    requires x >= 0.0 && y >= 0.0 && low <= high
    ensures x * low * y <= x * high * y
  {
    ScaleKeepsOrder(low, high, x);
    ScaleKeepsOrder(x * low, x * high, y);
  }

  /** Under such rates no fix makes anything dearer. */
  lemma FixesNeverCostMore(pb: PriceBook, class_: PathClass, confidence: Confidence, bytes: nat)
    requires NearerIsCheaper(pb)
    ensures SavingsINR(pb, class_, confidence, bytes).0 >= 0.0 && SavingsINR(pb, class_, confidence, bytes).1 >= 0.0
  {
    var target := OptimizationTarget(class_);
    if target.Some? {
      hide Rupees, NonNegativeRates;
      CheaperRateCheaperBytes(pb, class_, target.value, bytes);
    }
  }
}
