/** One scrape of the kernel map into the report, and what the report then holds against what crossed the hooks. */
module Scraping {
  import opened Classify
  import opened Findings
  import opened Flows
  import opened Report
  import opened Sums
  import FlowRuns
  import ReportRuns

  // ----- What a flow resolves to -----

  datatype Kube = Kube(
    resolveIP: Ip -> Option<KubeWorkload>,
    resolveServiceIP: Ip -> Option<KubeService>,
    resolveEndpointIP: Ip -> Option<KubeEndpoint>,
    resolveEndpointWorkload: KubeEndpoint -> Option<KubeWorkload>)

  /** The answers of the cgroup resolver, of Kubernetes if there is one, and of the zone lookup during one scrape. */
  datatype Surroundings = Surroundings(
    resolve: nat -> (string, Option<KubeWorkload>),
    kube: Option<Kube>,
    zoneOf: string -> string)

  function RemoteIp(key: FlowKey): Ip {
    var (a, b, c, d) := AddressBytes(key.daddr);
    Ip(a, b, c, d)
  }

  /** An address that is no pod's may still be an endpoint's, which names its own workload. */
  function Observed(key: FlowKey, env: Surroundings): Observation {
    var remote, source := RemoteIp(key), env.resolve(key.cgroupId);
    match env.kube
    case None => Observation(key.cgroupId, source.0, source.1, Some(remote), None, None, None)
    case Some(kube) =>
      var endpoint, pod := kube.resolveEndpointIP(remote), kube.resolveIP(remote);
      var destination := if pod.None? && endpoint.Some? then kube.resolveEndpointWorkload(endpoint.value) else pod;
      Observation(key.cgroupId, source.0, source.1, Some(remote), destination, kube.resolveServiceIP(remote), endpoint)
  }

  function CallFor(key: FlowKey, d: FlowStat, env: Surroundings): ReportRuns.Call {
    ReportRuns.Call(Observed(key, env), env.zoneOf, d.bytesTx, d.bytesRx)
  }

  predicate IsZero(d: FlowStat) {
    d.bytesTx == 0 && d.bytesRx == 0
  }

  function DeltaOf(flows: Counters, prev: Snapshot, k: FlowKey): FlowStat {
    if k in flows then Delta(StatAt(prev, k), PerCpuSum(flows[k])) else FlowStat(0, 0)
  }

  /** The calls of one scrape: one for each visited flow with traffic. */
  function Window(flows: Counters, prev: Snapshot, visits: seq<FlowKey>, env: Surroundings): seq<ReportRuns.Call> {
    if visits == [] then []
    else
      var k := visits[|visits| - 1];
      var d := DeltaOf(flows, prev, k);
      Window(flows, prev, visits[..|visits| - 1], env) + if IsZero(d) then [] else [CallFor(k, d, env)]
  }

  /** A report after further calls. */
  function AddedAll(byKey: map<string, AgentFinding>, s: Settings, calls: seq<ReportRuns.Call>)
    : map<string, AgentFinding>
  {
    if calls == [] then byKey
    else
      var c := calls[|calls| - 1];
      Added(AddedAll(byKey, s, calls[..|calls| - 1]), s, c.o, c.zoneOf, c.tx, c.rx)
  }

  lemma AddedOneMore(byKey: map<string, AgentFinding>, s: Settings, calls: seq<ReportRuns.Call>, c: ReportRuns.Call)
    ensures AddedAll(byKey, s, calls + [c]) == Added(AddedAll(byKey, s, calls), s, c.o, c.zoneOf, c.tx, c.rx)
  {
    hide Added;
    assert (calls + [c])[..|calls|] == calls;
  }

  lemma WindowOneMore(flows: Counters, prev: Snapshot, visits: seq<FlowKey>, i: nat, env: Surroundings)
    requires i < |visits|
    ensures var d, before := DeltaOf(flows, prev, visits[i]), Window(flows, prev, visits[..i], env);
      Window(flows, prev, visits[..i + 1], env) == if IsZero(d) then before else before + [CallFor(visits[i], d, env)]
  {
    hide DeltaOf, CallFor;
    assert visits[..i + 1][..i] == visits[..i];
  }

  /** `visits` is what the map iterator yields. */
  method Scrape(m: FlowMap, visits: seq<FlowKey>, prev: Snapshot, agg: Aggregate, env: Surroundings)
    returns (cur: Snapshot)
    requires forall k | k in visits :: k in m.flows
    modifies agg
    ensures cur == SnapshotOf(m.flows, visits)
    ensures agg.byKey == AddedAll(old(agg.byKey), agg.settings, Window(m.flows, prev, visits, env))
  {
    hide Window, AddedAll, Added, CallFor, PerCpuSum, Delta;
    cur := map[];
    NothingYet(m.flows, prev, agg.byKey, agg.settings, env);
    assert visits[..0] == [];
    for i := 0 to |visits|
      invariant cur == SnapshotOf(m.flows, visits[..i])
      invariant agg.byKey == AddedAll(old(agg.byKey), agg.settings, Window(m.flows, prev, visits[..i], env))
    {
      var key := visits[i];
      var sum := SumCpus(m.flows[key]);
      cur := cur[key := sum];
      assert visits[..i + 1] == visits[..i] + [key];
      WindowOneMore(m.flows, prev, visits, i, env);
      var d := Delta(StatAt(prev, key), sum);
      if d.bytesTx == 0 && d.bytesRx == 0 {
        continue;
      }
      var c := CallFor(key, d, env);
      AddedOneMore(old(agg.byKey), agg.settings, Window(m.flows, prev, visits[..i], env), c);
      agg.Add(c.o, c.zoneOf, c.tx, c.rx);
    }
    assert visits[..|visits|] == visits;
  }

  lemma NothingYet(flows: Counters, prev: Snapshot, byKey: map<string, AgentFinding>, s: Settings, env: Surroundings)
    ensures AddedAll(byKey, s, Window(flows, prev, [], env)) == byKey
  {
  }

  /** The call carries the traffic of the flow since the last snapshot, and what the lookups say of its two ends: an
      address that is no pod's may still be an endpoint's, which names its own workload. */
  ghost predicate CallTells(c: ReportRuns.Call, k: FlowKey, d: FlowStat, env: Surroundings) {
    && c.tx == d.bytesTx && c.rx == d.bytesRx && (c.tx > 0 || c.rx > 0) && c.zoneOf == env.zoneOf
    && c.o.cgroupId == k.cgroupId && (c.o.cgroupPath, c.o.kubernetes) == env.resolve(k.cgroupId)
    && c.o.remote.Some?
    && var ip := c.o.remote.value;
      && ip.a + 256 * ip.b + 65536 * ip.c + 16777216 * ip.d == k.daddr % 4294967296
      && if env.kube.None? then c.o.service == None && c.o.endpoint == None && c.o.destination == None
         else
           var kube := env.kube.value;
           && c.o.service == kube.resolveServiceIP(ip) && c.o.endpoint == kube.resolveEndpointIP(ip)
           && c.o.destination ==
                if kube.resolveIP(ip).Some? || c.o.endpoint.None? then kube.resolveIP(ip)
                else kube.resolveEndpointWorkload(c.o.endpoint.value)
  }

  lemma CallForTells(k: FlowKey, d: FlowStat, env: Surroundings)
    requires !IsZero(d)
    ensures CallTells(CallFor(k, d, env), k, d, env)
  {
    WordOfBytes(k.daddr);
  }

  lemma DivideTwice(v: nat, a: nat, b: nat)
    requires (a, b) in {(256, 65536), (65536, 16777216), (16777216, 4294967296)}
    ensures v / b == v / a / 256
  {
    var x, s, r := v / a / 256, v / a % 256, v % a;
    assert v == a * (256 * x + s) + r == b * x + (a * s + r);
    assert 0 <= a * s + r < b;
  }

  lemma WordOfBytes(v: nat)
    ensures var (a, b, c, d) := AddressBytes(v);
      a + 256 * b + 65536 * c + 16777216 * d == v % 4294967296
  {
    DivideTwice(v, 256, 65536);
    DivideTwice(v, 65536, 16777216);
    DivideTwice(v, 16777216, 4294967296);
    FromBytes(v, v / 256, v / 65536, v / 16777216, v / 4294967296);
  }

  lemma FromBytes(v: nat, q1: nat, q2: nat, q3: nat, q4: nat)
    requires q1 == v / 256 && q2 == q1 / 256 && q3 == q2 / 256 && q4 == q3 / 256
    ensures v % 256 + 256 * (q1 % 256) + 65536 * (q2 % 256) + 16777216 * (q3 % 256) == v - 4294967296 * q4
  {
  }

  /** Every call of a scrape is that of a visited flow. */
  lemma {:induction false} CallsAreVisits(flows: Counters, prev: Snapshot, visits: seq<FlowKey>, env: Surroundings)
    ensures forall c | c in Window(flows, prev, visits, env) ::
              exists k | k in visits :: CallTells(c, k, DeltaOf(flows, prev, k), env)
  {
    hide CallTells, CallFor, DeltaOf, IsZero;
    if visits != [] {
      var front, k := visits[..|visits| - 1], visits[|visits| - 1];
      CallsAreVisits(flows, prev, front, env);
      assert visits == front + [k];
      if !IsZero(DeltaOf(flows, prev, k)) {
        CallForTells(k, DeltaOf(flows, prev, k), env);
      }
    }
  }

  /** A report fed by several scrapes is the report of all their calls. */
  lemma {:induction false} ReportsCompose(s: Settings, a: seq<ReportRuns.Call>, b: seq<ReportRuns.Call>)
    ensures AddedAll(ReportRuns.Run(s, a), s, b) == ReportRuns.Run(s, a + b)
  {
    hide Added;
    if b == [] {
      assert a + b == a;
    } else {
      ReportsCompose(s, a, b[..|b| - 1]);
      assert (a + b)[..|a + b| - 1] == a + b[..|b| - 1];
    }
  }

  // ----- The report of a whole run -----

  ghost predicate IsWindow(flows: Counters, prev: Snapshot, visits: seq<FlowKey>, calls: seq<ReportRuns.Call>) {
    exists env :: calls == Window(flows, prev, visits, env)
  }

  /** The calls a run of packets, evictions and scrapes makes, whatever each scrape's lookups answer. */
  ghost predicate Reported(events: seq<FlowRuns.Event>, cpus: nat, calls: seq<ReportRuns.Call>) {
    if events == [] then calls == []
    else
      var front, e := events[..|events| - 1], events[|events| - 1];
      var w := FlowRuns.Run(front, cpus);
      match e
      case Scrape(visits) =>
        exists n | 0 <= n <= |calls| ::
          Reported(front, cpus, calls[..n]) && IsWindow(w.flows, w.prev, visits, calls[n..])
      case _ => Reported(front, cpus, calls)
  }

  function Bytes(dir: ReportRuns.Direction, s: FlowStat): nat {
    dir.Of(s.bytesTx, s.bytesRx)
  }

  ghost function BytesIn(dir: ReportRuns.Direction, s: Snapshot): FlowKey -> real {
    k => Bytes(dir, StatAt(s, k)) as real
  }

  ghost function WindowAt(dir: ReportRuns.Direction, flows: Counters, prev: Snapshot, visits: seq<FlowKey>)
    : FlowKey -> real
  {
    k => Bytes(dir, FlowRuns.Attributed(flows, prev, visits, k)) as real
  }

  lemma CallBytesOneMore(dir: ReportRuns.Direction, calls: seq<ReportRuns.Call>, c: ReportRuns.Call)
    ensures ReportRuns.CallBytes(dir, calls + [c]) == ReportRuns.CallBytes(dir, calls) + dir.Of(c.tx, c.rx)
  {
    assert (calls + [c])[..|calls|] == calls;
  }

  lemma {:induction false} CallBytesConcat(dir: ReportRuns.Direction, a: seq<ReportRuns.Call>, b: seq<ReportRuns.Call>)
    ensures ReportRuns.CallBytes(dir, a + b) == ReportRuns.CallBytes(dir, a) + ReportRuns.CallBytes(dir, b)
  {
    if b == [] {
      assert a + b == a;
    } else {
      CallBytesConcat(dir, a, b[..|b| - 1]);
      assert a + b == (a + b[..|b| - 1]) + [b[|b| - 1]];
      CallBytesOneMore(dir, a + b[..|b| - 1], b[|b| - 1]);
    }
  }

  lemma OneMoreVisit(dir: ReportRuns.Direction, flows: Counters, prev: Snapshot, visits: seq<FlowKey>, i: nat,
                     k: FlowKey)
    requires i < |visits|
    ensures Bytes(dir, FlowRuns.Attributed(flows, prev, visits[..i + 1], k))
         == Bytes(dir, FlowRuns.Attributed(flows, prev, visits[..i], k))
              + if visits[i] == k then Bytes(dir, DeltaOf(flows, prev, k)) else 0
  {
    hide DeltaOf, FlowRuns.Attributed, FlowRuns.PerVisit, Bytes, Add;
    BytesAdd(dir, FlowRuns.PerVisit(visits[..i], k, DeltaOf(flows, prev, k)), DeltaOf(flows, prev, k));
    AttributedIs(flows, prev, visits[..i], k);
    AttributedIs(flows, prev, visits[..i + 1], k);
    VisitOneMore(visits, i, k, DeltaOf(flows, prev, k));
    NoDeltaOutside(dir, flows, prev, k);
  }

  lemma BytesAdd(dir: ReportRuns.Direction, a: FlowStat, b: FlowStat)
    ensures Bytes(dir, Add(a, b)) == Bytes(dir, a) + Bytes(dir, b) && Bytes(dir, FlowStat(0, 0)) == 0
  {
  }

  lemma AttributedIs(flows: Counters, prev: Snapshot, visits: seq<FlowKey>, k: FlowKey)
    ensures FlowRuns.Attributed(flows, prev, visits, k)
         == if k in flows then FlowRuns.PerVisit(visits, k, DeltaOf(flows, prev, k)) else FlowStat(0, 0)
  {
    hide Delta, PerCpuSum, FlowRuns.PerVisit;
  }

  lemma VisitOneMore(visits: seq<FlowKey>, i: nat, k: FlowKey, d: FlowStat)
    requires i < |visits|
    ensures FlowRuns.PerVisit(visits[..i + 1], k, d)
         == if visits[i] == k then Add(FlowRuns.PerVisit(visits[..i], k, d), d)
            else FlowRuns.PerVisit(visits[..i], k, d)
  {
    assert visits[..i + 1][..i] == visits[..i];
  }

  /** The bytes of a scrape's calls are those it attributes, over any set of flows that has all visited ones. */
  lemma {:induction false} WindowBytes(dir: ReportRuns.Direction, flows: Counters, prev: Snapshot,
                                       visits: seq<FlowKey>, n: nat, env: Surroundings, all: set<FlowKey>)
    requires n <= |visits| && flows.Keys <= all
    ensures ReportRuns.CallBytes(dir, Window(flows, prev, visits[..n], env)) as real
         == Sum(all, WindowAt(dir, flows, prev, visits[..n]))
  {
    hide *;
    if n == 0 {
      EmptyWindow(dir, flows, prev, visits[..0], env);
      SumZero(all, WindowAt(dir, flows, prev, visits[..0]));
    } else {
      WindowBytes(dir, flows, prev, visits, n - 1, env, all);
      OneMoreInSum(dir, flows, prev, visits, n - 1, all);
      WindowOneMore(flows, prev, visits, n - 1, env);
      OneMoreCall(dir, flows, prev, visits[..n - 1], visits[n - 1], env);
    }
  }

  lemma OneMoreInSum(dir: ReportRuns.Direction, flows: Counters, prev: Snapshot, visits: seq<FlowKey>, i: nat,
                     all: set<FlowKey>)
    requires i < |visits| && flows.Keys <= all
    ensures Sum(all, WindowAt(dir, flows, prev, visits[..i + 1]))
         == Sum(all, WindowAt(dir, flows, prev, visits[..i])) + Bytes(dir, DeltaOf(flows, prev, visits[i])) as real
  {
    hide DeltaOf, FlowRuns.Attributed, Bytes;
    var k := visits[i];
    var d := Bytes(dir, DeltaOf(flows, prev, k)) as real;
    forall x ensures WindowAt(dir, flows, prev, visits[..i + 1])(x)
                  == WindowAt(dir, flows, prev, visits[..i])(x) + if x == k then d else 0.0 {
      OneMoreVisit(dir, flows, prev, visits, i, x);
    }
    NoDeltaOutside(dir, flows, prev, k);
    RaisedSum(all, WindowAt(dir, flows, prev, visits[..i]), WindowAt(dir, flows, prev, visits[..i + 1]), k, d);
  }

  lemma EmptyWindow(dir: ReportRuns.Direction, flows: Counters, prev: Snapshot, visits: seq<FlowKey>, env: Surroundings)
    requires visits == []
    ensures ReportRuns.CallBytes(dir, Window(flows, prev, visits, env)) == 0
    ensures forall k :: WindowAt(dir, flows, prev, visits)(k) == 0.0
  {
    hide FlowRuns.Attributed, Bytes;
    BytesAdd(dir, FlowStat(0, 0), FlowStat(0, 0));
    forall k ensures WindowAt(dir, flows, prev, visits)(k) == 0.0 {
      NoVisits(flows, prev, k);
    }
  }

  lemma NoVisits(flows: Counters, prev: Snapshot, k: FlowKey)
    ensures FlowRuns.Attributed(flows, prev, [], k) == FlowStat(0, 0)
  {
    hide Delta, PerCpuSum;
  }

  lemma OneMoreCall(dir: ReportRuns.Direction, flows: Counters, prev: Snapshot, visits: seq<FlowKey>, k: FlowKey,
                    env: Surroundings)
    ensures var d := DeltaOf(flows, prev, k);
      var before := Window(flows, prev, visits, env);
      ReportRuns.CallBytes(dir, if IsZero(d) then before else before + [CallFor(k, d, env)])
        == ReportRuns.CallBytes(dir, before) + Bytes(dir, d)
  {
    hide DeltaOf, Observed, Window;
    var d, before := DeltaOf(flows, prev, k), Window(flows, prev, visits, env);
    if !IsZero(d) {
      CallBytesOneMore(dir, before, CallFor(k, d, env));
    }
  }

  lemma NoDeltaOutside(dir: ReportRuns.Direction, flows: Counters, prev: Snapshot, k: FlowKey)
    ensures k !in flows ==> Bytes(dir, DeltaOf(flows, prev, k)) == 0
  {
  }

  lemma RaisedSum(all: set<FlowKey>, f: FlowKey -> real, g: FlowKey -> real, k: FlowKey, d: real)
    requires k !in all ==> d == 0.0
    requires forall x :: g(x) == f(x) + if x == k then d else 0.0
    ensures Sum(all, g) == Sum(all, f) + d
  {
    if k in all {
      SumAddAt(all, f, g, k, d);
      assert all + {k} == all;
    } else {
      SumCongruence(all, f, g);
    }
  }

  ghost predicate InCrossed(w: FlowRuns.World) {
    w.flows.Keys <= w.crossed.Keys && w.attributed.Keys <= w.crossed.Keys
  }

  lemma StepKeepsCrossed(w: FlowRuns.World, e: FlowRuns.Event, cpus: nat)
    requires FlowRuns.CpusMatch(w.flows, cpus) && InCrossed(w)
    ensures InCrossed(FlowRuns.Apply(w, e, cpus))
  {
    hide PerCpuSum, FlowRuns.Attributed;
  }

  lemma {:induction false} AllCrossed(events: seq<FlowRuns.Event>, cpus: nat)
    ensures InCrossed(FlowRuns.Run(events, cpus))
  {
    hide FlowRuns.Apply;
    if events != [] {
      AllCrossed(events[..|events| - 1], cpus);
      StepKeepsCrossed(FlowRuns.Run(events[..|events| - 1], cpus), events[|events| - 1], cpus);
    }
  }

  lemma AttributionAdds(dir: ReportRuns.Direction, w: FlowRuns.World, visits: seq<FlowKey>, cpus: nat)
    requires FlowRuns.CpusMatch(w.flows, cpus)
    ensures var after := FlowRuns.Apply(w, FlowRuns.Scrape(visits), cpus);
      && after.crossed == w.crossed
      && Sum(w.crossed.Keys, BytesIn(dir, after.attributed))
         == Sum(w.crossed.Keys, BytesIn(dir, w.attributed))
            + Sum(w.crossed.Keys, WindowAt(dir, w.flows, w.prev, visits))
  {
    hide PerCpuSum, FlowRuns.Attributed, Bytes, Add, FlowRuns.AfterScrape;
    var after := FlowRuns.Apply(w, FlowRuns.Scrape(visits), cpus);
    FlowRuns.ScrapeKeepsMap(w, cpus, visits);
    var before, window := BytesIn(dir, w.attributed), WindowAt(dir, w.flows, w.prev, visits);
    forall k ensures BytesIn(dir, after.attributed)(k) == before(k) + window(k) {
      FlowRuns.AttributedAfter(w, visits, k);
      BytesAdd(dir, StatAt(w.attributed, k), FlowRuns.Attributed(w.flows, w.prev, visits, k));
    }
    SumAdds(w.crossed.Keys, before, window, BytesIn(dir, after.attributed));
  }

  lemma CrossingAttributesNothing(dir: ReportRuns.Direction, w: FlowRuns.World, e: FlowRuns.Event, cpus: nat)
    requires FlowRuns.CpusMatch(w.flows, cpus) && InCrossed(w) && !e.Scrape?
    ensures var after := FlowRuns.Apply(w, e, cpus);
      Sum(after.crossed.Keys, BytesIn(dir, after.attributed)) == Sum(w.crossed.Keys, BytesIn(dir, w.attributed))
  {
    hide Counted, PerCpuSum, Bytes;
    BytesAdd(dir, FlowStat(0, 0), FlowStat(0, 0));
    var after := FlowRuns.Apply(w, e, cpus);
    if e.Packet? && e.cpu < cpus {
      assert after.crossed.Keys == w.crossed.Keys + {e.key};
      assert e.key !in w.crossed.Keys ==> e.key !in w.attributed;
      SumAddAt(w.crossed.Keys, BytesIn(dir, w.attributed), BytesIn(dir, after.attributed), e.key, 0.0);
    }
  }

  lemma ScrapeReports(events: seq<FlowRuns.Event>, cpus: nat, visits: seq<FlowKey>, calls: seq<ReportRuns.Call>)
    returns (n: nat)
    requires Reported(events, cpus, calls) && events != [] && events[|events| - 1] == FlowRuns.Scrape(visits)
    ensures n <= |calls| && Reported(events[..|events| - 1], cpus, calls[..n])
    ensures var w := FlowRuns.Run(events[..|events| - 1], cpus);
      IsWindow(w.flows, w.prev, visits, calls[n..])
  {
    hide IsWindow;
    var w := FlowRuns.Run(events[..|events| - 1], cpus);
    n :| 0 <= n <= |calls| && Reported(events[..|events| - 1], cpus, calls[..n])
         && IsWindow(w.flows, w.prev, visits, calls[n..]);
  }

  /** A run's calls carry exactly the attributed bytes. */
  lemma {:induction false} CallsCarryAttributed(dir: ReportRuns.Direction, events: seq<FlowRuns.Event>, cpus: nat,
                                                calls: seq<ReportRuns.Call>)
    requires Reported(events, cpus, calls)
    ensures var w := FlowRuns.Run(events, cpus);
      ReportRuns.CallBytes(dir, calls) as real == Sum(w.crossed.Keys, BytesIn(dir, w.attributed))
  {
    hide FlowRuns.Apply, BytesIn, WindowAt, Window;
    if events == [] {
      assert FlowRuns.Run(events, cpus).crossed.Keys == {};
    } else {
      var front, e := events[..|events| - 1], events[|events| - 1];
      var w := FlowRuns.Run(front, cpus);
      AllCrossed(front, cpus);
      if e.Scrape? {
        var n := ScrapeReports(events, cpus, e.visits, calls);
        CallsCarryAttributed(dir, front, cpus, calls[..n]);
        var env :| calls[n..] == Window(w.flows, w.prev, e.visits, env);
        assert e.visits[..|e.visits|] == e.visits;
        WindowBytes(dir, w.flows, w.prev, e.visits, |e.visits|, env, w.crossed.Keys);
        assert calls == calls[..n] + calls[n..];
        CallBytesConcat(dir, calls[..n], calls[n..]);
        AttributionAdds(dir, w, e.visits, cpus);
      } else {
        CallsCarryAttributed(dir, front, cpus, calls);
        CrossingAttributesNothing(dir, w, e, cpus);
      }
    }
  }

  /** Bytes of every flow that are still due, lost, or attributed in excess. */
  ghost function DueIn(dir: ReportRuns.Direction, w: FlowRuns.World): FlowKey -> real {
    k => Bytes(dir, FlowRuns.Due(FlowRuns.ViewOf(w, k))) as real
  }

  ghost function LostIn(dir: ReportRuns.Direction, events: seq<FlowRuns.Event>, cpus: nat): FlowKey -> real {
    k => Bytes(dir, FlowRuns.TotalLost(events, cpus, k)) as real
  }

  ghost function ExcessIn(dir: ReportRuns.Direction, events: seq<FlowRuns.Event>, cpus: nat): FlowKey -> real {
    k => Bytes(dir, FlowRuns.TotalExcess(events, cpus, k)) as real
  }

  ghost function Both<T>(f: T -> real, g: T -> real): T -> real {
    x => f(x) + g(x)
  }

  lemma BytesBalance(dir: ReportRuns.Direction, v: FlowRuns.View, lost: FlowStat, excess: FlowStat)
    requires FlowRuns.Balanced(v, lost, excess)
    ensures Bytes(dir, v.attributed) + Bytes(dir, FlowRuns.Due(v)) + Bytes(dir, lost)
         == Bytes(dir, v.crossed) + Bytes(dir, excess)
  {
    hide Delta;
  }

  lemma FlowsBalance(dir: ReportRuns.Direction, events: seq<FlowRuns.Event>, cpus: nat, flows: set<FlowKey>)
    ensures var w := FlowRuns.Run(events, cpus);
      Sum(flows, BytesIn(dir, w.attributed)) + Sum(flows, DueIn(dir, w)) + Sum(flows, LostIn(dir, events, cpus))
        == Sum(flows, BytesIn(dir, w.crossed)) + Sum(flows, ExcessIn(dir, events, cpus))
  {
    hide FlowRuns.Run, FlowRuns.Due, FlowRuns.TotalLost, FlowRuns.TotalExcess, FlowRuns.Balanced, FlowRuns.InMap,
      StatAt, Bytes;
    var w := FlowRuns.Run(events, cpus);
    var due, lost, excess := DueIn(dir, w), LostIn(dir, events, cpus), ExcessIn(dir, events, cpus);
    forall k ensures Both(Both(BytesIn(dir, w.attributed), due), lost)(k) == Both(BytesIn(dir, w.crossed), excess)(k) {
      FlowRuns.AccountsBalance(events, cpus, k);
      BytesBalance(dir, FlowRuns.ViewOf(w, k), FlowRuns.TotalLost(events, cpus, k),
                   FlowRuns.TotalExcess(events, cpus, k));
    }
    SumAdds(flows, BytesIn(dir, w.attributed), due, Both(BytesIn(dir, w.attributed), due));
    SumAdds(flows, Both(BytesIn(dir, w.attributed), due), lost, Both(Both(BytesIn(dir, w.attributed), due), lost));
    SumAdds(flows, BytesIn(dir, w.crossed), excess, Both(BytesIn(dir, w.crossed), excess));
    SumCongruence(flows, Both(Both(BytesIn(dir, w.attributed), due), lost), Both(BytesIn(dir, w.crossed), excess));
  }

  /** From the hooks to the report, whatever the scrapes visit, in each direction: the bytes of all findings, what is
      still due and what is lost make up what crossed the hooks and what was attributed in excess. So the report never
      shows more than crossed if no scrape does harm to any flow. */
  lemma ReportNeverOverCounts(dir: ReportRuns.Direction, events: seq<FlowRuns.Event>, cpus: nat, s: Settings,
                              calls: seq<ReportRuns.Call>)
    requires Reported(events, cpus, calls)
    ensures var w, byKey := FlowRuns.Run(events, cpus), ReportRuns.Run(s, calls);
      var flows, reported := w.crossed.Keys, Sum(byKey.Keys, ReportRuns.BytesAt(dir, byKey));
      && reported + Sum(flows, DueIn(dir, w)) + Sum(flows, LostIn(dir, events, cpus))
         == Sum(flows, BytesIn(dir, w.crossed)) + Sum(flows, ExcessIn(dir, events, cpus))
      && ((forall k :: FlowRuns.Scanned(events, cpus, k)) ==> reported <= Sum(flows, BytesIn(dir, w.crossed)))
  {
    hide FlowRuns.Run, ReportRuns.Run, FlowRuns.Scanned, FlowRuns.TotalExcess, FlowRuns.TotalLost, FlowRuns.Due;
    var w := FlowRuns.Run(events, cpus);
    CallsCarryAttributed(dir, events, cpus, calls);
    ReportRuns.BytesAddUp(dir, s, calls);
    FlowsBalance(dir, events, cpus, w.crossed.Keys);
    if forall k :: FlowRuns.Scanned(events, cpus, k) {
      forall k ensures BytesIn(dir, w.attributed)(k) <= BytesIn(dir, w.crossed)(k) {
        FlowRuns.NeverOverCounts(events, cpus, k);
      }
      SumAtMost(w.crossed.Keys, BytesIn(dir, w.attributed), BytesIn(dir, w.crossed));
    }
  }
}
