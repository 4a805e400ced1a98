/** Every interleaving of packets, evictions and scrapes, whatever each scrape visits: all bytes are accounted for, and
    what is attributed twice or never is known exactly. */
module FlowRuns {
  import opened Flows

  datatype Event =
    | Packet(key: FlowKey, cpu: nat, tx: nat, rx: nat)
    | Eviction(key: FlowKey)
    | Scrape(visits: seq<FlowKey>)

  /** The kernel map and the agent's last snapshot, with two records no code keeps: all bytes that crossed the hooks,
      and all bytes attributed. */
  datatype World = World(flows: Counters, prev: Snapshot, crossed: Snapshot, attributed: Snapshot)

  function Raised(s: Snapshot, k: FlowKey, tx: nat, rx: nat): Snapshot {
    s[k := FlowStat(StatAt(s, k).bytesTx + tx, StatAt(s, k).bytesRx + rx)]
  }

  predicate AtMost(a: FlowStat, b: FlowStat) {
    a.bytesTx <= b.bytesTx && a.bytesRx <= b.bytesRx
  }

  function Minus(a: FlowStat, b: FlowStat): (r: FlowStat)
    requires AtMost(b, a)
    ensures Add(r, b) == a
  {
    FlowStat(a.bytesTx - b.bytesTx, a.bytesRx - b.bytesRx)
  }

  /** `d` once for every visit of `k`. */
  function PerVisit(visits: seq<FlowKey>, k: FlowKey, d: FlowStat): (r: FlowStat)
    ensures k in visits ==> AtMost(d, r)
  {
    if visits == [] then FlowStat(0, 0)
    else
      assert visits == visits[..|visits| - 1] + [visits[|visits| - 1]];
      var rest := PerVisit(visits[..|visits| - 1], k, d);
      if visits[|visits| - 1] == k then Add(rest, d) else rest
  }

  /** What one scrape attributes to a flow: its traffic since the last snapshot, once per visit. */
  function Attributed(flows: Counters, prev: Snapshot, visits: seq<FlowKey>, k: FlowKey): FlowStat {
    if k in flows then PerVisit(visits, k, Delta(StatAt(prev, k), PerCpuSum(flows[k]))) else FlowStat(0, 0)
  }

  function AfterScrape(attributed: Snapshot, flows: Counters, prev: Snapshot, visits: seq<FlowKey>): Snapshot {
    map k | k in attributed.Keys + flows.Keys :: Add(StatAt(attributed, k), Attributed(flows, prev, visits, k))
  }

  ghost predicate CpusMatch(flows: Counters, cpus: nat) {
    forall k | k in flows :: |flows[k]| == cpus
  }

  function Apply(w: World, e: Event, cpus: nat): (r: World)
    requires CpusMatch(w.flows, cpus)
    ensures CpusMatch(r.flows, cpus)
  {
    match e
    case Packet(key, cpu, tx, rx) =>
      if cpu < cpus then
        w.(flows := Counted(w.flows, cpus, key, cpu, tx, rx), crossed := Raised(w.crossed, key, tx, rx))
      else w
    case Eviction(key) => w.(flows := w.flows - {key})
    case Scrape(visits) =>
      w.(prev := SnapshotOf(w.flows, visits), attributed := AfterScrape(w.attributed, w.flows, w.prev, visits))
  }

  function Run(events: seq<Event>, cpus: nat): (w: World)
    ensures CpusMatch(w.flows, cpus)
  {
    if events == [] then World(map[], map[], map[], map[])
    else Apply(Run(events[..|events| - 1], cpus), events[|events| - 1], cpus)
  }

  // ----- Counter sums -----

  lemma {:induction false} SumWithUpdate(stats: seq<FlowStat>, i: nat, s: FlowStat)
    requires i < |stats|
    ensures PerCpuSum(stats[i := s]).bytesTx == PerCpuSum(stats).bytesTx - stats[i].bytesTx + s.bytesTx
    ensures PerCpuSum(stats[i := s]).bytesRx == PerCpuSum(stats).bytesRx - stats[i].bytesRx + s.bytesRx
  {
    var n := |stats| - 1;
    if i < n {
      SumWithUpdate(stats[..n], i, s);
      assert stats[i := s][..n] == stats[..n][i := s];
    } else {
      assert stats[i := s][..n] == stats[..n];
    }
  }

  lemma {:induction false} SumOfZeros(n: nat)
    ensures PerCpuSum(seq(n, i => FlowStat(0, 0))) == FlowStat(0, 0)
  {
    if n > 0 {
      SumOfZeros(n - 1);
      assert seq(n, i => FlowStat(0, 0))[..n - 1] == seq(n - 1, i => FlowStat(0, 0));
    }
  }

  /** The summed counters of one flow; zero if the map does not hold it. */
  function InMap(flows: Counters, k: FlowKey): FlowStat {
    if k in flows then PerCpuSum(flows[k]) else FlowStat(0, 0)
  }

  lemma CountedRaisesSum(flows: Counters, cpus: nat, key: FlowKey, cpu: nat, tx: nat, rx: nat)
    requires cpu < cpus && (key in flows ==> |flows[key]| == cpus)
    ensures InMap(Counted(flows, cpus, key, cpu, tx, rx), key)
         == FlowStat(InMap(flows, key).bytesTx + tx, InMap(flows, key).bytesRx + rx)
  {
    if key in flows {
      SumWithUpdate(flows[key], cpu, FlowStat(flows[key][cpu].bytesTx + tx, flows[key][cpu].bytesRx + rx));
    } else {
      var zeros := seq(cpus, i => FlowStat(0, 0));
      SumOfZeros(cpus);
      SumWithUpdate(zeros, cpu, FlowStat(tx, rx));
      assert Counted(flows, cpus, key, cpu, tx, rx)[key] == zeros[cpu := FlowStat(tx, rx)];
    }
  }

  // ----- One flow's view -----

  /** Everything about one flow: counted in the map, at the last scrape, crossed, attributed. */
  datatype View = View(inMap: FlowStat, prev: FlowStat, crossed: FlowStat, attributed: FlowStat)

  function ViewOf(w: World, k: FlowKey): View {
    View(InMap(w.flows, k), StatAt(w.prev, k), StatAt(w.crossed, k), StatAt(w.attributed, k))
  }

  /** What the next scrape that visits the flow once would attribute to it. */
  function Due(v: View): (d: FlowStat)
    ensures AtMost(d, v.inMap)
  {
    Delta(v.prev, v.inMap)
  }

  /** What one event does to one flow. */
  function StepView(v: View, e: Event, k: FlowKey, cpus: nat): View {
    match e
    case Packet(key, cpu, tx, rx) =>
      if k == key && cpu < cpus then
        v.(inMap := Add(v.inMap, FlowStat(tx, rx)), crossed := Add(v.crossed, FlowStat(tx, rx)))
      else v
    case Eviction(key) => if k == key then v.(inMap := FlowStat(0, 0)) else v
    case Scrape(visits) =>
      v.(prev := if k in visits then v.inMap else FlowStat(0, 0),
         attributed := Add(v.attributed, PerVisit(visits, k, Due(v))))
  }

  lemma PacketView(w: World, cpus: nat, e: Event, k: FlowKey)
    requires CpusMatch(w.flows, cpus) && e.Packet?
    ensures ViewOf(Apply(w, e, cpus), k) == StepView(ViewOf(w, k), e, k, cpus)
  {
    if e.cpu < cpus {
      CountedRaisesSum(w.flows, cpus, e.key, e.cpu, e.tx, e.rx);
      if k != e.key {
        assert InMap(Counted(w.flows, cpus, e.key, e.cpu, e.tx, e.rx), k) == InMap(w.flows, k);
      }
    }
  }

  lemma {:induction false} VisitsOfNothing(visits: seq<FlowKey>, k: FlowKey)
    ensures PerVisit(visits, k, FlowStat(0, 0)) == FlowStat(0, 0)
  {
    if visits != [] {
      VisitsOfNothing(visits[..|visits| - 1], k);
    }
  }

  lemma AttributedInScrape(w: World, visits: seq<FlowKey>, k: FlowKey)
    ensures Attributed(w.flows, w.prev, visits, k) == PerVisit(visits, k, Delta(StatAt(w.prev, k), InMap(w.flows, k)))
  {
    hide PerVisit, PerCpuSum;
    if k !in w.flows {
      VisitsOfNothing(visits, k);
    }
  }

  lemma SnapshotInScrape(w: World, visits: seq<FlowKey>, k: FlowKey)
    ensures StatAt(SnapshotOf(w.flows, visits), k) == if k in visits then InMap(w.flows, k) else FlowStat(0, 0)
  {
    hide PerCpuSum;
  }

  lemma AttributedAfter(w: World, visits: seq<FlowKey>, k: FlowKey)
    ensures StatAt(AfterScrape(w.attributed, w.flows, w.prev, visits), k)
         == Add(StatAt(w.attributed, k), Attributed(w.flows, w.prev, visits, k))
  {
    hide PerVisit, PerCpuSum, Delta;
  }

  lemma ScrapeView(w: World, cpus: nat, visits: seq<FlowKey>, k: FlowKey)
    requires CpusMatch(w.flows, cpus)
    ensures ViewOf(Apply(w, Scrape(visits), cpus), k) == StepView(ViewOf(w, k), Scrape(visits), k, cpus)
  {
    hide Attributed, InMap, StatAt, Delta, SnapshotOf, AfterScrape, Add, PerVisit;
    AttributedInScrape(w, visits, k);
    SnapshotInScrape(w, visits, k);
    AttributedAfter(w, visits, k);
  }

  lemma EvictionView(w: World, cpus: nat, key: FlowKey, k: FlowKey)
    requires CpusMatch(w.flows, cpus)
    ensures ViewOf(Apply(w, Eviction(key), cpus), k) == StepView(ViewOf(w, k), Eviction(key), k, cpus)
  {
    hide PerCpuSum;
    if k != key {
      assert InMap(w.flows - {key}, k) == InMap(w.flows, k);
    }
  }

  lemma ViewStep(w: World, cpus: nat, e: Event, k: FlowKey)
    requires CpusMatch(w.flows, cpus)
    ensures ViewOf(Apply(w, e, cpus), k) == StepView(ViewOf(w, k), e, k, cpus)
  {
    hide Apply, ViewOf, StepView;
    match e
    case Packet(_, _, _, _) => PacketView(w, cpus, e, k);
    case Eviction(key) => EvictionView(w, cpus, key, k);
    case Scrape(visits) => ScrapeView(w, cpus, visits, k);
  }

  // ----- The accounts of one flow -----

  /** Whether the counters look as if the entry had been dropped since the last scrape. */
  predicate LooksReset(prev: FlowStat, cur: FlowStat) {
    cur.bytesTx < prev.bytesTx || cur.bytesRx < prev.bytesRx
  }

  /** Bytes one event makes the agent attribute once more than they crossed: what a missed entry had already attributed,
      and every visit of new traffic but the first. */
  function Excess(v: View, e: Event, k: FlowKey): FlowStat {
    match e
    case Scrape(visits) =>
      if k in visits then Minus(PerVisit(visits, k, Due(v)), Due(v)) else Minus(v.inMap, Due(v))
    case _ => FlowStat(0, 0)
  }

  /** Bytes one event puts out of the agent's reach: what an eviction drops before it is scraped, and what a restarted
      entry counts before it has caught up with its old counters. */
  function Lost(v: View, e: Event, k: FlowKey, cpus: nat): FlowStat {
    match e
    case Packet(key, cpu, tx, rx) =>
      if k == key && cpu < cpus && LooksReset(v.prev, v.inMap) && !LooksReset(v.prev, Add(v.inMap, FlowStat(tx, rx)))
      then v.prev else FlowStat(0, 0)
    case Eviction(key) => if k == key then Due(v) else FlowStat(0, 0)
    case Scrape(_) => FlowStat(0, 0)
  }

  function TotalExcess(events: seq<Event>, cpus: nat, k: FlowKey): FlowStat {
    if events == [] then FlowStat(0, 0)
    else
      var front := events[..|events| - 1];
      Add(TotalExcess(front, cpus, k), Excess(ViewOf(Run(front, cpus), k), events[|events| - 1], k))
  }

  function TotalLost(events: seq<Event>, cpus: nat, k: FlowKey): FlowStat {
    if events == [] then FlowStat(0, 0)
    else
      var front := events[..|events| - 1];
      Add(TotalLost(front, cpus, k), Lost(ViewOf(Run(front, cpus), k), events[|events| - 1], k, cpus))
  }

  /** Attributed, still due and lost on one side; crossed and attributed in excess on the other. */
  predicate Balanced(v: View, lost: FlowStat, excess: FlowStat) {
    Add(Add(v.attributed, Due(v)), lost) == Add(v.crossed, excess)
  }

  lemma StepKeepsBalance(v: View, e: Event, k: FlowKey, cpus: nat, lost: FlowStat, excess: FlowStat)
    requires Balanced(v, lost, excess)
    ensures Balanced(StepView(v, e, k, cpus), Add(lost, Lost(v, e, k, cpus)), Add(excess, Excess(v, e, k)))
  {
    if e.Scrape? {
      hide PerVisit;
      if k !in e.visits {
        NoVisitNothing(e.visits, k, Due(v));
      }
    }
  }

  lemma {:induction false} NoVisitNothing(visits: seq<FlowKey>, k: FlowKey, d: FlowStat)
    requires k !in visits
    ensures PerVisit(visits, k, d) == FlowStat(0, 0)
  {
    if visits != [] {
      assert visits == visits[..|visits| - 1] + [visits[|visits| - 1]];
      NoVisitNothing(visits[..|visits| - 1], k, d);
    }
  }

  lemma NothingIsBalanced(cpus: nat, k: FlowKey)
    ensures Balanced(ViewOf(Run([], cpus), k), FlowStat(0, 0), FlowStat(0, 0))
  {
  }

  /** In every run the accounts of every flow balance. */
  lemma {:induction false} AccountsBalance(events: seq<Event>, cpus: nat, k: FlowKey)
    ensures Balanced(ViewOf(Run(events, cpus), k), TotalLost(events, cpus, k), TotalExcess(events, cpus, k))
  {
    hide Balanced, StepView, ViewOf, Apply, Lost, Excess, Add;
    if events == [] {
      NothingIsBalanced(cpus, k);
    } else {
      var front, e := events[..|events| - 1], events[|events| - 1];
      AccountsBalance(front, cpus, k);
      ViewStep(Run(front, cpus), cpus, e, k);
      StepKeepsBalance(ViewOf(Run(front, cpus), k), e, k, cpus, TotalLost(front, cpus, k), TotalExcess(front, cpus, k));
    }
  }

  function SentBytes(events: seq<Event>, cpus: nat, k: FlowKey): nat {
    if events == [] then 0
    else
      var before, e := SentBytes(events[..|events| - 1], cpus, k), events[|events| - 1];
      if e.Packet? && e.key == k && e.cpu < cpus then before + e.tx else before
  }

  function ReceivedBytes(events: seq<Event>, cpus: nat, k: FlowKey): nat {
    if events == [] then 0
    else
      var before, e := ReceivedBytes(events[..|events| - 1], cpus, k), events[|events| - 1];
      if e.Packet? && e.key == k && e.cpu < cpus then before + e.rx else before
  }

  /** What crossed is the bytes of the flow's own packets, by direction. */
  lemma {:induction false} CrossedIsPackets(events: seq<Event>, cpus: nat, k: FlowKey)
    ensures StatAt(Run(events, cpus).crossed, k)
         == FlowStat(SentBytes(events, cpus, k), ReceivedBytes(events, cpus, k))
  {
    hide Counted, SnapshotOf, AfterScrape;
    if events != [] {
      CrossedIsPackets(events[..|events| - 1], cpus, k);
    }
  }

  // ----- Scrapes that do no harm -----

  /** A scrape does no harm to a flow in the map: it is only missed while nothing of it was attributed before, and only
      visited again while nothing of it is new. */
  ghost predicate Harmless(w: World, e: Event, k: FlowKey) {
    e.Scrape? && k in w.flows ==>
      && (k !in e.visits ==> Due(ViewOf(w, k)) == InMap(w.flows, k))
      && (multiset(e.visits)[k] > 1 ==> Due(ViewOf(w, k)) == FlowStat(0, 0))
  }

  lemma AddMonotone(a: FlowStat, b: FlowStat, d: FlowStat)
    requires AtMost(a, b)
    ensures AtMost(Add(a, d), Add(b, d)) && AtMost(a, Add(b, d))
  {
  }

  lemma {:induction false} VisitsCount(visits: seq<FlowKey>, k: FlowKey, d: FlowStat)
    ensures multiset(visits)[k] == 0 <==> k !in visits
    ensures multiset(visits)[k] == 1 ==> PerVisit(visits, k, d) == d
    ensures multiset(visits)[k] > 1 ==> AtMost(Add(d, d), PerVisit(visits, k, d))
  {
    hide AtMost, Add;
    if visits != [] {
      var front, last := visits[..|visits| - 1], visits[|visits| - 1];
      assert visits == front + [last];
      VisitsCount(front, k, d);
      if last == k {
        if k in front {
          AddMonotone(d, PerVisit(front, k, d), d);
        } else {
          NoVisitNothing(front, k, d);
          NothingAdds(d);
        }
      }
    }
  }

  lemma NothingAdds(d: FlowStat)
    ensures Add(FlowStat(0, 0), d) == d
  {
  }

  lemma NoDifference(a: FlowStat, b: FlowStat)
    requires AtMost(b, a)
    ensures Minus(a, b) == FlowStat(0, 0) <==> a == b
  {
  }

  lemma TwiceIsMore(d: FlowStat, r: FlowStat)
    requires AtMost(Add(d, d), r)
    ensures r == d <==> r == d == FlowStat(0, 0)
  {
  }

  /** Visiting a flow more than once adds nothing only if there is nothing to add. */
  lemma RepeatsOfNothing(visits: seq<FlowKey>, k: FlowKey, d: FlowStat)
    requires k in visits
    ensures PerVisit(visits, k, d) == d <==> (multiset(visits)[k] > 1 ==> d == FlowStat(0, 0))
  {
    hide PerVisit, Add, AtMost;
    VisitsCount(visits, k, d);
    if multiset(visits)[k] > 1 {
      TwiceIsMore(d, PerVisit(visits, k, d));
      VisitsOfNothing(visits, k);
    }
  }

  lemma HarmlessIsNoExcess(w: World, e: Event, k: FlowKey)
    ensures Harmless(w, e, k) <==> Excess(ViewOf(w, k), e, k) == FlowStat(0, 0)
  {
    if e.Scrape? {
      ScrapeHarm(w, e.visits, k, ViewOf(w, k), Due(ViewOf(w, k)));
    }
  }

  lemma ScrapeHarm(w: World, visits: seq<FlowKey>, k: FlowKey, v: View, d: FlowStat)
    requires v == ViewOf(w, k) && d == Due(v)
    ensures Harmless(w, Scrape(visits), k) <==> Excess(v, Scrape(visits), k) == FlowStat(0, 0)
  {
    hide PerVisit, PerCpuSum, Minus, Delta, AtMost, Add;
    VisitsCount(visits, k, d);
    if k in visits {
      RepeatsOfNothing(visits, k, d);
      NoDifference(PerVisit(visits, k, d), d);
    } else {
      NoDifference(v.inMap, d);
    }
    if k !in w.flows {
      NothingDue(v);
    }
  }

  lemma NothingDue(v: View)
    requires v.inMap == FlowStat(0, 0)
    ensures Due(v) == FlowStat(0, 0)
  {
  }

  /** No scrape of the run did the flow any harm. */
  ghost predicate Scanned(events: seq<Event>, cpus: nat, k: FlowKey) {
    forall i | 0 <= i < |events| :: Harmless(Run(events[..i], cpus), events[i], k)
  }

  lemma ScannedBefore(events: seq<Event>, cpus: nat, k: FlowKey)
    requires events != []
    ensures Scanned(events, cpus, k) <==>
              && Scanned(events[..|events| - 1], cpus, k)
              && Harmless(Run(events[..|events| - 1], cpus), events[|events| - 1], k)
  {
    hide Harmless, Run;
    var front := events[..|events| - 1];
    assert forall i | 0 <= i < |front| :: front[..i] == events[..i] && front[i] == events[i];
  }

  lemma {:induction false} ScannedIsNoExcess(events: seq<Event>, cpus: nat, k: FlowKey)
    ensures Scanned(events, cpus, k) <==> TotalExcess(events, cpus, k) == FlowStat(0, 0)
  {
    hide Harmless, Run, Excess;
    if events != [] {
      ScannedBefore(events, cpus, k);
      ScannedIsNoExcess(events[..|events| - 1], cpus, k);
      HarmlessIsNoExcess(Run(events[..|events| - 1], cpus), events[|events| - 1], k);
    }
  }

  lemma BalanceBounds(v: View, due: FlowStat, lost: FlowStat, excess: FlowStat)
    requires Balanced(v, lost, excess) && due == Due(v)
    ensures AtMost(v.attributed, v.crossed) <==> AtMost(excess, Add(due, lost))
    ensures excess == FlowStat(0, 0) ==> AtMost(v.attributed, v.crossed)
  {
    hide Delta;
  }

  /** A run attributes more to a flow than crossed the hooks exactly when the excess is more than is due or lost; so
      never, evictions or not, if no scrape does harm. */
  lemma NeverOverCounts(events: seq<Event>, cpus: nat, k: FlowKey)
    ensures var w := Run(events, cpus);
      && (AtMost(StatAt(w.attributed, k), StatAt(w.crossed, k)) <==>
            AtMost(TotalExcess(events, cpus, k), Add(Due(ViewOf(w, k)), TotalLost(events, cpus, k))))
      && (Scanned(events, cpus, k) ==> AtMost(StatAt(w.attributed, k), StatAt(w.crossed, k)))
  {
    hide Run, Scanned, TotalLost, TotalExcess, Delta, Balanced, AtMost, Add, StatAt, InMap;
    AccountsBalance(events, cpus, k);
    ScannedIsNoExcess(events, cpus, k);
    BalanceBounds(ViewOf(Run(events, cpus), k), Due(ViewOf(Run(events, cpus), k)), TotalLost(events, cpus, k),
                  TotalExcess(events, cpus, k));
  }

  // ----- Flows that are never evicted -----

  ghost predicate NeverEvicted(events: seq<Event>, k: FlowKey) {
    forall e | e in events && e.Eviction? :: e.key != k
  }

  /** Counters only grow, so the last snapshot is a lower bound. */
  lemma StepKeepsLowerBound(v: View, e: Event, k: FlowKey, cpus: nat)
    requires AtMost(v.prev, v.inMap) && e != Eviction(k)
    ensures AtMost(StepView(v, e, k, cpus).prev, StepView(v, e, k, cpus).inMap)
    ensures Lost(v, e, k, cpus) == FlowStat(0, 0)
  {
    hide PerVisit;
  }

  lemma {:induction false} NothingIsLost(events: seq<Event>, cpus: nat, k: FlowKey)
    requires NeverEvicted(events, k)
    ensures AtMost(ViewOf(Run(events, cpus), k).prev, ViewOf(Run(events, cpus), k).inMap)
    ensures TotalLost(events, cpus, k) == FlowStat(0, 0)
  {
    hide Apply, StepView, Lost, PerCpuSum;
    if events != [] {
      var front, e := events[..|events| - 1], events[|events| - 1];
      assert events == front + [e];
      NothingIsLost(front, cpus, k);
      ViewStep(Run(front, cpus), cpus, e, k);
      StepKeepsLowerBound(ViewOf(Run(front, cpus), k), e, k, cpus);
    }
  }

  /** Attributed plus counted since the last scrape is exactly what crossed. */
  predicate Exact(v: View) {
    && AtMost(v.prev, v.inMap)
    && Add(v.attributed, v.inMap) == Add(v.crossed, v.prev)
  }

  /** Without an eviction, whatever the scrapes visit, a flow is accounted for exactly if and only if no scrape missed
      it after attributing some of it, or visited it again with something new. */
  lemma UnevictedIsExact(events: seq<Event>, cpus: nat, k: FlowKey)
    requires NeverEvicted(events, k)
    ensures Exact(ViewOf(Run(events, cpus), k)) <==> Scanned(events, cpus, k)
  {
    hide Run, Scanned, TotalLost, TotalExcess, NeverEvicted, ViewOf;
    AccountsBalance(events, cpus, k);
    NothingIsLost(events, cpus, k);
    ScannedIsNoExcess(events, cpus, k);
  }

  /** The same condition in terms of what a scrape finds: missed only with an empty last snapshot, repeated only with
      nothing new. */
  lemma HarmlessUnevicted(events: seq<Event>, cpus: nat, k: FlowKey, visits: seq<FlowKey>)
    requires NeverEvicted(events, k) && k in Run(events, cpus).flows
    ensures var w := Run(events, cpus);
      Harmless(w, Scrape(visits), k) <==>
        && (k !in visits ==> StatAt(w.prev, k) == FlowStat(0, 0))
        && (multiset(visits)[k] > 1 ==> StatAt(w.prev, k) == InMap(w.flows, k))
  {
    hide Run, PerCpuSum, NeverEvicted;
    NothingIsLost(events, cpus, k);
  }

  lemma Running(events: seq<Event>, cpus: nat, e: Event)
    ensures Run(events + [e], cpus) == Apply(Run(events, cpus), e, cpus)
  {
    assert (events + [e])[..|events|] == events;
  }

  lemma ScrapeOfExact(v: View, k: FlowKey, cpus: nat)
    requires Exact(v)
    ensures var after := StepView(v, Scrape([k]), k, cpus);
      after.attributed == v.crossed == after.crossed && after.prev == v.inMap == after.inMap
  {
    OneVisit(k, Due(v));
  }

  lemma OneVisit(k: FlowKey, d: FlowStat)
    ensures PerVisit([k], k, d) == d
  {
    VisitsCount([k], k, d);
    assert multiset([k])[k] == 1;
  }

  /** A scrape over one flow leaves it fully attributed if it was accounted for exactly. */
  lemma ScrapeCatchesUp(events: seq<Event>, cpus: nat, k: FlowKey)
    requires NeverEvicted(events, k) && Scanned(events, cpus, k)
    ensures var w, after := Run(events, cpus), Run(events + [Scrape([k])], cpus);
      && after.flows == w.flows && after.crossed == w.crossed
      && StatAt(after.attributed, k) == StatAt(w.crossed, k) && StatAt(after.prev, k) == InMap(w.flows, k)
  {
    hide Run, Apply, Scanned, Exact, StepView, Delta;
    Running(events, cpus, Scrape([k]));
    UnevictedIsExact(events, cpus, k);
    ViewStep(Run(events, cpus), cpus, Scrape([k]), k);
    ScrapeKeepsMap(Run(events, cpus), cpus, [k]);
    ScrapeOfExact(ViewOf(Run(events, cpus), k), k, cpus);
  }

  lemma ScrapeKeepsMap(w: World, cpus: nat, visits: seq<FlowKey>)
    requires CpusMatch(w.flows, cpus)
    ensures var after := Apply(w, Scrape(visits), cpus);
      after.flows == w.flows && after.crossed == w.crossed
  {
  }

  /** One missed visit of a flow that was fully attributed: the next scrape attributes its whole counter again. */
  lemma MissedVisitOverCounts(events: seq<Event>, cpus: nat, k: FlowKey)
    requires NeverEvicted(events, k) && Scanned(events, cpus, k) && k in Run(events, cpus).flows
    ensures var w := Run(events + [Scrape([k])] + [Scrape([])] + [Scrape([k])], cpus);
      StatAt(w.attributed, k) == Add(StatAt(w.crossed, k), InMap(w.flows, k))
  {
    hide Run, Apply, Scanned, NeverEvicted, InMap, StatAt;
    var once := events + [Scrape([k])];
    ScrapeCatchesUp(events, cpus, k);
    Running(once, cpus, Scrape([]));
    ViewStep(Run(once, cpus), cpus, Scrape([]), k);
    ScrapeKeepsMap(Run(once, cpus), cpus, []);
    var missed := Run(once + [Scrape([])], cpus);
    Running(once + [Scrape([])], cpus, Scrape([k]));
    ViewStep(missed, cpus, Scrape([k]), k);
    ScrapeKeepsMap(missed, cpus, [k]);
    OneVisit(k, Due(ViewOf(missed, k)));
  }

  /** One repeated visit: the traffic since the last scrape counts twice. */
  lemma RepeatedVisitOverCounts(events: seq<Event>, cpus: nat, k: FlowKey)
    requires NeverEvicted(events, k) && Scanned(events, cpus, k) && k in Run(events, cpus).flows
    ensures var w, after := Run(events, cpus), Run(events + [Scrape([k, k])], cpus);
      Add(StatAt(after.attributed, k), StatAt(w.prev, k)) == Add(StatAt(w.crossed, k), InMap(w.flows, k))
  {
    hide Run, Apply, Scanned, InMap, StatAt, NeverEvicted;
    UnevictedIsExact(events, cpus, k);
    Running(events, cpus, Scrape([k, k]));
    ViewStep(Run(events, cpus), cpus, Scrape([k, k]), k);
    TwoVisits(k, Due(ViewOf(Run(events, cpus), k)));
  }

  lemma TwoVisits(k: FlowKey, d: FlowStat)
    ensures PerVisit([k, k], k, d) == Add(d, d)
  {
    assert [k, k][..1] == [k] && [k][..0] == [];
    assert PerVisit([k], k, d) == d;
  }

  /** An eviction can lose bytes: three bytes counted and dropped before any scrape are never attributed. */
  lemma EvictionCanLoseBytes(k: FlowKey)
    ensures var w := Run([Packet(k, 0, 3, 0), Eviction(k), Scrape([])], 1);
      StatAt(w.crossed, k).bytesTx == 3 && StatAt(w.attributed, k).bytesTx == 0
  {
    var events := [Packet(k, 0, 3, 0), Eviction(k), Scrape([])];
    assert events[..2] == [Packet(k, 0, 3, 0), Eviction(k)] && events[..2][..1] == [Packet(k, 0, 3, 0)];
    assert events[..2][..1][..0] == [];
    ViewStep(Run([], 1), 1, events[0], k);
    ViewStep(Run(events[..2][..1], 1), 1, events[1], k);
    ViewStep(Run(events[..2], 1), 1, events[2], k);
  }
}
