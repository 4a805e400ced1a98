/** The placement optimizer: twelve restarts of steepest single-workload moves
    that lower cross-zone cost without ever emptying a zone. */
module Placement {
  import opened Findings
  import opened PlacementGraph
  import opened Sums
  import opened Text

  const MAX_ITERATIONS := 500
  const RESTARTS := 12

  // ----- What a move is -----

  /** The moves the search considers: `n` is not alone in its zone and `g` is another zone. */
  ghost predicate Permitted(graph: Graph, k: int, zone: Assignment, n: string, g: int)
    requires Assigns(graph, k, zone)
  {
    n in graph.nodes && |Members(zone, zone[n])| >= 2 && 0 <= g < k && g != zone[n]
  }

  /** What moving `n` to `g` does to the global cut. */
  ghost function CutChange(graph: Graph, k: int, zone: Assignment, n: string, g: int): real
    requires WellFormed(graph) && Assigns(graph, k, zone) && n in graph.nodes
  {
    Cut(graph.edges, zone[n := g]) - Cut(graph.edges, zone)
  }

  ghost predicate LocalOptimum(graph: Graph, k: int, zone: Assignment)
    requires WellFormed(graph) && Assigns(graph, k, zone)
  {
    forall n, g | Permitted(graph, k, zone, n, g) :: CutChange(graph, k, zone, n, g) >= 0.0
  }

  /** A permitted move that lowers the cut at least as much as every other permitted move. */
  ghost predicate Steepest(graph: Graph, k: int, zone: Assignment, n: string, g: int)
    requires WellFormed(graph) && Assigns(graph, k, zone)
  {
    && Permitted(graph, k, zone, n, g)
    && CutChange(graph, k, zone, n, g) < 0.0
    && forall m, h | Permitted(graph, k, zone, m, h) ::
         CutChange(graph, k, zone, n, g) <= CutChange(graph, k, zone, m, h)
  }

  /** The steepest move the scan meets first: nodes in name order, then zones in number order. */
  ghost predicate Chosen(graph: Graph, k: int, zone: Assignment, n: string, g: int)
    requires WellFormed(graph) && Assigns(graph, k, zone)
  {
    && Steepest(graph, k, zone, n, g)
    && forall m, h | Permitted(graph, k, zone, m, h) && (Less(m, n) || (m == n && h < g)) ::
         CutChange(graph, k, zone, m, h) > CutChange(graph, k, zone, n, g)
  }

  ghost predicate ChosenStep(graph: Graph, k: int, zone: Assignment, next: Assignment)
    requires WellFormed(graph) && Assigns(graph, k, zone)
  {
    exists n, g :: Chosen(graph, k, zone, n, g) && next == zone[n := g]
  }

  /** The assignments one restart goes through. */
  ghost predicate Search(graph: Graph, k: int, trace: seq<Assignment>)
    requires WellFormed(graph)
  {
    && trace != []
    && (forall i | 0 <= i < |trace| :: Assigns(graph, k, trace[i]))
    && (forall i | 0 <= i < |trace| - 1 :: ChosenStep(graph, k, trace[i], trace[i + 1]))
  }

  // ----- Building the graph -----

  method BuildPlacementGraph(findings: seq<FindingRow>) returns (graph: Graph)
    ensures Represents(graph, findings)
  {
    var nodeSet, edgeWeight := WeighPairs(findings);
    var nodes := SortedStrings(nodeSet);
    var edges := SortedEdges(edgeWeight);
    graph := Graph(nodes, edges);
    ListingRepresents(graph, edgeWeight, findings);
  }

  lemma NothingAccumulated()
    ensures Accumulates(map[], []) && Endpoints([]) == {}
  {
  }

  method WeighPairs(findings: seq<FindingRow>) returns (nodeSet: set<string>, edgeWeight: map<(string, string), real>)
    ensures nodeSet == Endpoints(findings)
    ensures Accumulates(edgeWeight, findings)
  {
    hide Accumulates, AddWeight, EdgeKey;
    nodeSet, edgeWeight := {}, map[];
    NothingAccumulated();
    assert findings[..0] == [];
    for i := 0 to |findings|
      invariant nodeSet == Endpoints(findings[..i])
      invariant Accumulates(edgeWeight, findings[..i])
    {
      var f := findings[i];
      assert findings[..i + 1] == findings[..i] + [f];
      OneMoreFinding(findings[..i], f);
      if f.finding.pathClass != "CROSS_AZ" && f.finding.pathClass != "cross_az" {
        OneMoreRefused(edgeWeight, findings[..i], f);
        continue;
      }
      if f.finding.source == "" || f.finding.destination == "" || f.finding.source == f.finding.destination {
        OneMoreRefused(edgeWeight, findings[..i], f);
        continue;
      }
      nodeSet := nodeSet + {f.finding.source} + {f.finding.destination};
      var key := EdgeKey(f.finding.source, f.finding.destination);
      AccumulateOne(edgeWeight, findings[..i], f, key);
      edgeWeight := AddWeight(edgeWeight, key, f.finding.costHigh);
    }
    assert findings[..|findings|] == findings;
  }

  // ----- Adjacency and the gain of one move -----

  type Row = map<string, real>

  /** The row of `n`: its summed cost to each neighbour. */
  function AdjacencyRow(edges: seq<Edge>, n: string): Row {
    if edges == [] then map[]
    else
      var row, e := AdjacencyRow(edges[..|edges| - 1], n), edges[|edges| - 1];
      if e.a == n then AddCost(row, e.b, e.cost)
      else if e.b == n then AddCost(row, e.a, e.cost)
      else row
  }

  /** `row[m] += cost`. */
  function AddCost(row: Row, m: string, cost: real): Row {
    row[m := (if m in row then row[m] else 0.0) + cost]
  }

  function RowAt(adjacency: map<string, Row>, n: string): Row {
    if n in adjacency then adjacency[n] else map[]
  }

  method BuildAdjacency(edges: seq<Edge>) returns (adjacency: map<string, Row>)
    requires forall e | e in edges :: e.a != e.b
    ensures forall n :: RowAt(adjacency, n) == AdjacencyRow(edges, n)
  {
    adjacency := map[];
    for i := 0 to |edges|
      invariant forall n :: RowAt(adjacency, n) == AdjacencyRow(edges[..i], n)
    {
      var e := edges[i];
      assert edges[..i + 1][..i] == edges[..i];
      if e.a !in adjacency {
        adjacency := adjacency[e.a := map[]];
      }
      if e.b !in adjacency {
        adjacency := adjacency[e.b := map[]];
      }
      adjacency := adjacency[e.a := AddCost(adjacency[e.a], e.b, e.cost)];
      adjacency := adjacency[e.b := AddCost(adjacency[e.b], e.a, e.cost)];
    }
    assert edges[..|edges|] == edges;
  }

  /** What one neighbour adds to the delta of a move from zone `from` to zone `to`. */
  ghost function Pull(row: Row, zone: Assignment, from: int, to: int): string -> real {
    m =>
      if m !in row || m !in zone then 0.0
      else if zone[m] == from then row[m]
      else if zone[m] == to then -row[m]
      else 0.0
  }

  lemma {:induction false} RowSumsToToward(edges: seq<Edge>, zone: Assignment, n: string, from: int, to: int)
    requires Covers(edges, zone) && from != to
    ensures var row := AdjacencyRow(edges, n);
      && (forall m | m in row :: m in zone)
      && Sum(row.Keys, Pull(row, zone, from, to)) == Toward(edges, zone, n, from) - Toward(edges, zone, n, to)
  {
    if edges != [] {
      var front, e := edges[..|edges| - 1], edges[|edges| - 1];
      RowSumsToToward(front, zone, n, from, to);
      var row, after := AdjacencyRow(front, n), AdjacencyRow(edges, n);
      if e.a == n || e.b == n {
        var m := if e.a == n then e.b else e.a;
        var d := if zone[m] == from then e.cost else if zone[m] == to then -e.cost else 0.0;
        assert after.Keys == row.Keys + {m};
        SumAddAt(row.Keys, Pull(row, zone, from, to), Pull(after, zone, from, to), m, d);
      }
    }
  }

  /** The neighbour-only delta is the change of the cut over all edges. */
  method MoveDelta(graph: Graph, k: int, row: Row, zone: Assignment, n: string, to: int) returns (delta: real)
    requires WellFormed(graph) && Assigns(graph, k, zone) && n in graph.nodes && to != zone[n]
    requires row == AdjacencyRow(graph.edges, n)
    ensures delta == CutChange(graph, k, zone, n, to)
  {
    var from := zone[n];
    RowSumsToToward(graph.edges, zone, n, from, to);
    MoveChangesCut(graph.edges, zone, n, to);
    delta := 0.0;
    var neighbors := row.Keys;
    while neighbors != {}
      invariant neighbors <= row.Keys
      invariant delta + Sum(neighbors, Pull(row, zone, from, to)) == Sum(row.Keys, Pull(row, zone, from, to))
      decreases |neighbors|
    {
      var neighbor :| neighbor in neighbors;
      SumSplit(neighbors, Pull(row, zone, from, to), neighbor);
      var w := row[neighbor];
      if zone[neighbor] == from {
        delta := delta + w;
      } else if zone[neighbor] == to {
        delta := delta - w;
      }
      neighbors := neighbors - {neighbor};
    }
  }

  // ----- The search -----

  ghost predicate Counts(graph: Graph, k: int, zone: Assignment, groupSize: seq<int>)
    requires Assigns(graph, k, zone)
  {
    |groupSize| == k && forall g | 0 <= g < k :: groupSize[g] == |Members(zone, g)|
  }

  /** Whether the scan, having reached row `i` and column `g`, has met cell `(j, h)`. */
  ghost predicate Met(j: int, h: int, i: int, g: int) {
    j < i || (j == i && h < g)
  }

  /** Scanning a table row by row, `(best, bestGroup)` is the first least negative-valued allowed cell met
      so far and `delta` its value; a negative `best` says there is none. */
  ghost predicate BestMet(allowed: (int, int) -> bool, value: (int, int) -> real, i: int, g: int,
                          best: int, bestGroup: int, delta: real)
  {
    && (best < 0 ==> delta == 0.0)
    && (best >= 0 ==> Met(best, bestGroup, i, g) && allowed(best, bestGroup) && value(best, bestGroup) == delta < 0.0)
    && (forall j, h | Met(j, h, i, g) && allowed(j, h) ::
         value(j, h) >= delta && (best >= 0 && Met(j, h, best, bestGroup) ==> value(j, h) > delta))
  }

  lemma MeetCell(allowed: (int, int) -> bool, value: (int, int) -> real, i: int, g: int,
                 best: int, bestGroup: int, delta: real)
    requires BestMet(allowed, value, i, g, best, bestGroup, delta) && i >= 0
    ensures if allowed(i, g) && value(i, g) < delta then BestMet(allowed, value, i, g + 1, i, g, value(i, g))
            else BestMet(allowed, value, i, g + 1, best, bestGroup, delta)
  {
    forall j, h | Met(j, h, i, g + 1) ensures Met(j, h, i, g) || (j == i && h == g) {
    }
  }

  lemma NextRow(allowed: (int, int) -> bool, value: (int, int) -> real, i: int, g: int,
                best: int, bestGroup: int, delta: real)
    requires BestMet(allowed, value, i, g, best, bestGroup, delta)
    requires forall h | h >= g :: !allowed(i, h)
    requires forall j, h | allowed(j, h) :: h >= 0
    ensures BestMet(allowed, value, i + 1, 0, best, bestGroup, delta)
  {
    forall j, h | Met(j, h, i + 1, 0) && allowed(j, h) ensures Met(j, h, i, g) {
    }
  }

  ghost function Allowed(graph: Graph, k: int, zone: Assignment): (int, int) -> bool
    requires WellFormed(graph) && Assigns(graph, k, zone)
  {
    (j, h) => 0 <= j < |graph.nodes| && Permitted(graph, k, zone, graph.nodes[j], h)
  }

  ghost function Change(graph: Graph, k: int, zone: Assignment): (int, int) -> real
    requires WellFormed(graph) && Assigns(graph, k, zone)
  {
    (j, h) => if 0 <= j < |graph.nodes| then CutChange(graph, k, zone, graph.nodes[j], h) else 0.0
  }

  method BestMove(graph: Graph, k: int, adjacency: map<string, Row>, zone: Assignment, groupSize: array<int>)
    returns (bestNode: string, bestGroup: int)
    requires WellFormed(graph) && Assigns(graph, k, zone) && Counts(graph, k, zone, groupSize[..])
    requires forall n :: RowAt(adjacency, n) == AdjacencyRow(graph.edges, n)
    ensures bestNode == "" ==> LocalOptimum(graph, k, zone)
    ensures bestNode != "" ==> Chosen(graph, k, zone, bestNode, bestGroup)
  {
    bestNode, bestGroup := "", -1;
    var bestDelta := 0.0;
    ghost var best := -1;
    ghost var allowed, change := Allowed(graph, k, zone), Change(graph, k, zone);
    for i := 0 to |graph.nodes|
      invariant best < |graph.nodes| && bestNode == if best < 0 then "" else graph.nodes[best]
      invariant BestMet(allowed, change, i, 0, best, bestGroup, bestDelta)
    {
      var n := graph.nodes[i];
      var currentGroup := zone[n];
      assert groupSize[..][currentGroup] == |Members(zone, currentGroup)|;
      if groupSize[currentGroup] <= 1 {
        NextRow(allowed, change, i, 0, best, bestGroup, bestDelta);
        continue;
      }
      bestNode, bestGroup, bestDelta, best :=
        BestZone(graph, k, RowAt(adjacency, n), zone, i, bestNode, bestGroup, bestDelta, best);
    }
    BestMetIsChosen(graph, k, zone, best, bestGroup, bestDelta);
  }

  /** The inner loop: every zone node `i` could move to, against the best move so far. */
  method BestZone(graph: Graph, k: int, row: Row, zone: Assignment, i: int,
                  node: string, group: int, delta: real, ghost soFar: int)
    returns (bestNode: string, bestGroup: int, bestDelta: real, ghost best: int)
    requires WellFormed(graph) && Assigns(graph, k, zone) && 0 <= i < |graph.nodes|
    requires row == AdjacencyRow(graph.edges, graph.nodes[i])
    requires |Members(zone, zone[graph.nodes[i]])| > 1
    requires soFar < |graph.nodes| && node == if soFar < 0 then "" else graph.nodes[soFar]
    requires BestMet(Allowed(graph, k, zone), Change(graph, k, zone), i, 0, soFar, group, delta)
    ensures best < |graph.nodes| && bestNode == if best < 0 then "" else graph.nodes[best]
    ensures BestMet(Allowed(graph, k, zone), Change(graph, k, zone), i + 1, 0, best, bestGroup, bestDelta)
  {
    var n := graph.nodes[i];
    bestNode, bestGroup, bestDelta, best := node, group, delta, soFar;
    ghost var allowed, change := Allowed(graph, k, zone), Change(graph, k, zone);
    for g := 0 to k
      invariant best < |graph.nodes| && bestNode == if best < 0 then "" else graph.nodes[best]
      invariant BestMet(allowed, change, i, g, best, bestGroup, bestDelta)
    {
      MeetCell(allowed, change, i, g, best, bestGroup, bestDelta);
      if g == zone[n] {
        continue;
      }
      var moved := MoveDelta(graph, k, row, zone, n, g);
      if moved < bestDelta {
        bestDelta, bestNode, bestGroup := moved, n, g;
        best := i;
      }
    }
    NextRow(allowed, change, i, k, best, bestGroup, bestDelta);
  }

  lemma BestMetIsChosen(graph: Graph, k: int, zone: Assignment, best: int, bestGroup: int, delta: real)
    requires WellFormed(graph) && Assigns(graph, k, zone) && best < |graph.nodes|
    requires BestMet(Allowed(graph, k, zone), Change(graph, k, zone), |graph.nodes|, 0, best, bestGroup, delta)
    ensures best < 0 ==> LocalOptimum(graph, k, zone)
    ensures best >= 0 ==> Chosen(graph, k, zone, graph.nodes[best], bestGroup)
  {
    forall n, g | Permitted(graph, k, zone, n, g)
      ensures CutChange(graph, k, zone, n, g) >= delta
      ensures best >= 0 && (Less(n, graph.nodes[best]) || (n == graph.nodes[best] && g < bestGroup)) ==>
                CutChange(graph, k, zone, n, g) > delta
    {
      var j :| 0 <= j < |graph.nodes| && graph.nodes[j] == n;
      assert Met(j, g, |graph.nodes|, 0) && Allowed(graph, k, zone)(j, g);
      if best >= 0 && (Less(n, graph.nodes[best]) || n == graph.nodes[best]) {
        LessTrichotomy(n, graph.nodes[best]);
        assert j > best ==> Less(graph.nodes[best], graph.nodes[j]);
        assert j < best ==> Less(graph.nodes[j], graph.nodes[best]);
      }
    }
  }
}
