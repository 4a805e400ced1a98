/** The weighted workload graph of the placement optimizer, the cut of an
    assignment of workloads to zones, and what one workload's move does to it. */
module PlacementGraph {
  import opened Findings
  import opened Sums
  import opened Text

  datatype Edge = Edge(a: string, b: string, cost: real)

  datatype Graph = Graph(nodes: seq<string>, edges: seq<Edge>)

  type Assignment = map<string, int>

  /** Nodes are non-empty and ascending; edges join distinct nodes, smaller name first, in ascending order. */
  ghost predicate WellFormed(graph: Graph) {
    && Ascending(graph.nodes)
    && "" !in graph.nodes
    && (forall e | e in graph.edges :: e.a in graph.nodes && e.b in graph.nodes && e.a != e.b)
    && EdgesAscending(graph.edges)
  }

  predicate PairLess(x: (string, string), y: (string, string)) {
    if x.0 != y.0 then Less(x.0, y.0) else Less(x.1, y.1)
  }

  predicate EdgeLess(x: Edge, y: Edge) {
    PairLess((x.a, x.b), (y.a, y.b))
  }

  ghost predicate EdgesAscending(edges: seq<Edge>) {
    forall i, j | 0 <= i < j < |edges| :: EdgeLess(edges[i], edges[j])
  }

  /** Every workload has a zone below `k`, and nothing else has one. */
  ghost predicate Assigns(graph: Graph, k: int, zone: Assignment) {
    && (forall n :: n in zone <==> n in graph.nodes)
    && (forall n | n in zone :: 0 <= zone[n] < k)
  }

  ghost predicate Covers(edges: seq<Edge>, zone: Assignment) {
    forall e | e in edges :: e.a in zone && e.b in zone && e.a != e.b
  }

  /** The summed cost of the edges that cross zones. */
  function Cut(edges: seq<Edge>, zone: Assignment): real
    requires Covers(edges, zone)
  {
    if edges == [] then 0.0
    else
      var e := edges[|edges| - 1];
      Cut(edges[..|edges| - 1], zone) + if zone[e.a] != zone[e.b] then e.cost else 0.0
  }

  function Total(edges: seq<Edge>): real {
    if edges == [] then 0.0
    else Total(edges[..|edges| - 1]) + edges[|edges| - 1].cost
  }

  /** The cost between workload `n` and the other workloads of zone `g`. */
  function Toward(edges: seq<Edge>, zone: Assignment, n: string, g: int): real
    requires Covers(edges, zone)
  {
    if edges == [] then 0.0
    else
      var e := edges[|edges| - 1];
      Toward(edges[..|edges| - 1], zone, n, g)
      + if e.a == n && zone[e.b] == g then e.cost
        else if e.b == n && zone[e.a] == g then e.cost
        else 0.0
  }

  /** Moving one workload trades its cost toward the zone it leaves for its cost toward the zone it joins. */
  lemma {:induction false} MoveChangesCut(edges: seq<Edge>, zone: Assignment, n: string, g: int)
    requires Covers(edges, zone) && n in zone && g != zone[n]
    ensures Cut(edges, zone[n := g]) == Cut(edges, zone) + Toward(edges, zone, n, zone[n]) - Toward(edges, zone, n, g)
  {
    if edges != [] {
      MoveChangesCut(edges[..|edges| - 1], zone, n, g);
    }
  }

  lemma {:induction false} CutWithinTotal(edges: seq<Edge>, zone: Assignment)
    requires Covers(edges, zone)
    requires forall e | e in edges :: e.cost >= 0.0
    ensures 0.0 <= Cut(edges, zone) <= Total(edges)
  {
    if edges != [] {
      CutWithinTotal(edges[..|edges| - 1], zone);
    }
  }

  /** The workloads of zone `g`. */
  function Members(zone: Assignment, g: int): set<string> {
    set n | n in zone && zone[n] == g
  }

  lemma MoveShiftsMembers(zone: Assignment, n: string, g: int)
    requires n in zone && g != zone[n]
    ensures Members(zone[n := g], g) == Members(zone, g) + {n}
    ensures Members(zone[n := g], zone[n]) == Members(zone, zone[n]) - {n}
    ensures forall h | h != g && h != zone[n] :: Members(zone[n := g], h) == Members(zone, h)
  {
  }

  // ----- Building the graph -----

  function EdgeKey(a: string, b: string): (string, string) {
    if Less(a, b) then (a, b) else (b, a)
  }

  lemma EdgeKeySymmetric(a: string, b: string)
    ensures EdgeKey(a, b) == EdgeKey(b, a)
    ensures a != b ==> Less(EdgeKey(a, b).0, EdgeKey(a, b).1)
  {
    LessTrichotomy(a, b);
  }

  /** Two pairs share a key exactly when they are the same unordered pair. */
  lemma EdgeKeyIsThePair(a: string, b: string, c: string, d: string)
    ensures EdgeKey(a, b) == EdgeKey(c, d) <==> {a, b} == {c, d}
  {
    hide Less;
    EdgeKeySymmetric(a, b);
    if EdgeKey(a, b) == EdgeKey(c, d) {
      assert (a == c && b == d) || (a == d && b == c);
    } else if {a, b} == {c, d} {
      SamePair(a, b, c, d);
    }
  }

  lemma SamePair(a: string, b: string, c: string, d: string)
    requires {a, b} == {c, d}
    ensures (a == c && b == d) || (a == d && b == c)
  {
    assert a in {c, d} && b in {c, d} && c in {a, b} && d in {a, b};
  }

  /** Only cross-zone findings between two distinct named workloads enter the graph. */
  predicate Admitted(f: FindingRow) {
    && (f.finding.pathClass == "CROSS_AZ" || f.finding.pathClass == "cross_az")
    && f.finding.source != "" && f.finding.destination != "" && f.finding.source != f.finding.destination
  }

  /** The reference: everything the findings say about one unordered pair, and in total. */
  function PairCost(findings: seq<FindingRow>, key: (string, string)): real {
    if findings == [] then 0.0
    else
      var f := findings[|findings| - 1];
      PairCost(findings[..|findings| - 1], key)
      + if Admitted(f) && EdgeKey(f.finding.source, f.finding.destination) == key then f.finding.costHigh else 0.0
  }

  function AdmittedCost(findings: seq<FindingRow>): real {
    if findings == [] then 0.0
    else
      var f := findings[|findings| - 1];
      AdmittedCost(findings[..|findings| - 1]) + if Admitted(f) then f.finding.costHigh else 0.0
  }

  function Endpoints(findings: seq<FindingRow>): set<string> {
    (set f | f in findings && Admitted(f) :: f.finding.source)
       + (set f | f in findings && Admitted(f) :: f.finding.destination)
  }

  function Pairs(findings: seq<FindingRow>): set<(string, string)> {
    set f | f in findings && Admitted(f) :: EdgeKey(f.finding.source, f.finding.destination)
  }

  /** The graph says exactly what the admitted findings say. */
  ghost predicate Represents(graph: Graph, findings: seq<FindingRow>) {
    && WellFormed(graph)
    && (forall n :: n in graph.nodes <==> n in Endpoints(findings))
    && (forall e | e in graph.edges :: (e.a, e.b) in Pairs(findings) && e.cost == PairCost(findings, (e.a, e.b)))
    && (forall key | key in Pairs(findings) :: Edge(key.0, key.1, PairCost(findings, key)) in graph.edges)
    && Total(graph.edges) == AdmittedCost(findings)
  }

  ghost function Weight(m: map<(string, string), real>): ((string, string)) -> real {
    key => if key in m then m[key] else 0.0
  }

  /** The running `edgeWeight` map after some findings. */
  ghost predicate Accumulates(weights: map<(string, string), real>, findings: seq<FindingRow>) {
    && weights.Keys == Pairs(findings)
    && (forall key | key in weights :: weights[key] == PairCost(findings, key))
    && Sum(weights.Keys, Weight(weights)) == AdmittedCost(findings)
  }

  lemma {:induction false} PairCostOfNothing(findings: seq<FindingRow>, key: (string, string))
    requires key !in Pairs(findings)
    ensures PairCost(findings, key) == 0.0
  {
    if findings != [] {
      assert findings[|findings| - 1] in findings;
      assert Pairs(findings[..|findings| - 1]) <= Pairs(findings);
      PairCostOfNothing(findings[..|findings| - 1], key);
    }
  }

  lemma OneMoreFinding(findings: seq<FindingRow>, f: FindingRow)
    ensures Pairs(findings + [f])
         == Pairs(findings) + if Admitted(f) then {EdgeKey(f.finding.source, f.finding.destination)} else {}
    ensures Endpoints(findings + [f])
         == Endpoints(findings) + if Admitted(f) then {f.finding.source, f.finding.destination} else {}
    ensures AdmittedCost(findings + [f]) == AdmittedCost(findings) + if Admitted(f) then f.finding.costHigh else 0.0
  {
    var more := findings + [f];
    assert more[..|more| - 1] == findings;
    assert forall x :: x in more <==> x in findings || x == f;
  }

  lemma OneMoreCost(findings: seq<FindingRow>, f: FindingRow, key: (string, string))
    ensures PairCost(findings + [f], key) == PairCost(findings, key)
              + if Admitted(f) && EdgeKey(f.finding.source, f.finding.destination) == key then f.finding.costHigh
                else 0.0
  {
    assert (findings + [f])[..|findings|] == findings;
  }

  /** `edgeWeight[key] += cost`. */
  function AddWeight(weights: map<(string, string), real>, key: (string, string), cost: real)
    : map<(string, string), real>
  {
    weights[key := (if key in weights then weights[key] else 0.0) + cost]
  }

  lemma AddWeightAddsCost(weights: map<(string, string), real>, key: (string, string), cost: real)
    ensures AddWeight(weights, key, cost).Keys == weights.Keys + {key}
    ensures Sum(AddWeight(weights, key, cost).Keys, Weight(AddWeight(weights, key, cost)))
         == Sum(weights.Keys, Weight(weights)) + cost
  {
    var after := AddWeight(weights, key, cost);
    assert after.Keys == weights.Keys + {key};
    SumAddAt(weights.Keys, Weight(weights), Weight(after), key, cost);
  }

  lemma AccumulateOne(weights: map<(string, string), real>, findings: seq<FindingRow>, f: FindingRow,
                      key: (string, string))
    requires Accumulates(weights, findings) && Admitted(f) && key == EdgeKey(f.finding.source, f.finding.destination)
    ensures Accumulates(AddWeight(weights, key, f.finding.costHigh), findings + [f])
  {
    OneMoreFinding(findings, f);
    AddWeightAddsCost(weights, key, f.finding.costHigh);
    var after := AddWeight(weights, key, f.finding.costHigh);
    forall k | k in after ensures after[k] == PairCost(findings + [f], k) {
      OneMoreCost(findings, f, k);
      if key !in weights {
        PairCostOfNothing(findings, key);
      }
    }
  }

  lemma OneMoreRefused(weights: map<(string, string), real>, findings: seq<FindingRow>, f: FindingRow)
    requires Accumulates(weights, findings) && !Admitted(f)
    ensures Accumulates(weights, findings + [f])
  {
    OneMoreFinding(findings, f);
    forall k | k in weights ensures weights[k] == PairCost(findings + [f], k) {
      OneMoreCost(findings, f, k);
    }
  }

  lemma PairsAreNodes(findings: seq<FindingRow>)
    ensures forall key | key in Pairs(findings) ::
              key.0 in Endpoints(findings) && key.1 in Endpoints(findings) && key.0 != key.1
    ensures "" !in Endpoints(findings)
  {
  }

  // ----- Listing the edges -----

  lemma PairLessIsStrictWeakOrder()
    ensures StrictWeakOrder(PairLess)
  {
    LessIsStrictWeakOrder();
    forall x, y, z ensures OrderedTriple(PairLess, x, y, z) {
      assert OrderedTriple(Less, x.0, y.0, z.0) && OrderedTriple(Less, x.1, y.1, z.1);
      LessTrichotomy(x.0, y.0);
      LessTrichotomy(y.0, z.0);
    }
  }

  function EdgesOf(weights: map<(string, string), real>, keys: seq<(string, string)>): seq<Edge>
    requires forall key | key in keys :: key in weights
  {
    seq(|keys|, i requires 0 <= i < |keys| => Edge(keys[i].0, keys[i].1, weights[keys[i]]))
  }

  lemma {:induction false} TotalOfEdges(weights: map<(string, string), real>, keys: seq<(string, string)>)
    requires forall key | key in keys :: key in weights
    requires forall i, j | 0 <= i < j < |keys| :: keys[i] != keys[j]
    ensures Total(EdgesOf(weights, keys)) == Sum((set key | key in keys), Weight(weights))
  {
    if keys != [] {
      var front, last := keys[..|keys| - 1], keys[|keys| - 1];
      TotalOfEdges(weights, front);
      assert EdgesOf(weights, keys)[..|keys| - 1] == EdgesOf(weights, front);
      var all := set key | key in keys;
      assert all - {last} == set key | key in front;
      SumSplit(all, Weight(weights), last);
    }
  }

  method SortedEdges(weights: map<(string, string), real>) returns (edges: seq<Edge>)
    ensures EdgesAscending(edges)
    ensures forall e | e in edges :: (e.a, e.b) in weights && e.cost == weights[(e.a, e.b)]
    ensures forall key | key in weights :: Edge(key.0, key.1, weights[key]) in edges
    ensures Total(edges) == Sum(weights.Keys, Weight(weights))
  {
    var elements := Elements(weights.Keys);
    PairLessIsStrictWeakOrder();
    var keys := SortSlice(elements, PairLess);
    ListingHasNoRepeats(keys, weights.Keys);
    edges := EdgesOf(weights, keys);
    assert (set key | key in keys) == weights.Keys;
    TotalOfEdges(weights, keys);
    ListedEdges(weights, keys);
  }

  lemma ListedEdges(weights: map<(string, string), real>, keys: seq<(string, string)>)
    requires forall key :: key in keys <==> key in weights
    requires forall i, j | 0 <= i < j < |keys| :: keys[i] != keys[j]
    requires NoInversion(keys, PairLess)
    ensures EdgesAscending(EdgesOf(weights, keys))
    ensures forall key | key in weights :: Edge(key.0, key.1, weights[key]) in EdgesOf(weights, keys)
  {
    forall i, j | 0 <= i < j < |keys| ensures PairLess(keys[i], keys[j]) {
      LessTrichotomy(keys[i].0, keys[j].0);
      LessTrichotomy(keys[i].1, keys[j].1);
    }
    forall key | key in weights ensures Edge(key.0, key.1, weights[key]) in EdgesOf(weights, keys) {
      var i :| 0 <= i < |keys| && keys[i] == key;
      assert EdgesOf(weights, keys)[i] == Edge(key.0, key.1, weights[key]);
    }
  }

  lemma ListingRepresents(graph: Graph, weights: map<(string, string), real>, findings: seq<FindingRow>)
    requires Accumulates(weights, findings)
    requires Ascending(graph.nodes) && EdgesAscending(graph.edges)
    requires forall n :: n in graph.nodes <==> n in Endpoints(findings)
    requires forall e | e in graph.edges :: (e.a, e.b) in weights && e.cost == weights[(e.a, e.b)]
    requires forall key | key in weights :: Edge(key.0, key.1, weights[key]) in graph.edges
    requires Total(graph.edges) == Sum(weights.Keys, Weight(weights))
    ensures Represents(graph, findings)
  {
    PairsAreNodes(findings);
    forall e | e in graph.edges ensures e.a in graph.nodes && e.b in graph.nodes && e.a != e.b {
      assert (e.a, e.b) in Pairs(findings);
    }
  }
}
