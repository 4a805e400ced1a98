/** `OptimizePlacement` itself and what a reader of its result may rely on. */
module PlacementOptimizer {
  import opened Findings
  import opened Placement
  import opened PlacementGraph
  import opened PlacementProperties
  import opened PlacementSearch

  datatype PlacementResult = PlacementResult(
    groups: int,
    workloads: int,
    edges: int,
    observed: real,
    optimized: real,
    savings: real,
    iterations: int,
    assignment: Assignment)

  function Floor1(numGroups: int): int {
    if numGroups < 1 then 1 else numGroups
  }

  ghost function Last(trace: seq<Assignment>): Assignment
    requires trace != []
  {
    trace[|trace| - 1]
  }

  /** One restart: a dealt start, and chosen moves until none is left or 500 were made. */
  ghost predicate Restart(graph: Graph, k: int, trace: seq<Assignment>)
    requires WellFormed(graph) && k > 0
  {
    && Search(graph, k, trace)
    && Start(graph, k, trace[0])
    && |trace| - 1 <= 500
    && (|trace| - 1 < 500 ==> LocalOptimum(graph, k, Last(trace)))
  }

  ghost predicate AllRestarts(graph: Graph, k: int, restarts: seq<seq<Assignment>>)
    requires WellFormed(graph) && k > 0
  {
    forall i | 0 <= i < |restarts| :: Restart(graph, k, restarts[i])
  }

  ghost function FinalCut(graph: Graph, k: int, restarts: seq<seq<Assignment>>, i: int): real
    requires WellFormed(graph) && k > 0 && AllRestarts(graph, k, restarts) && 0 <= i < |restarts|
  {
    assert Restart(graph, k, restarts[i]);
    Cut(graph.edges, Last(restarts[i]))
  }

  /** `best` (negative for none) is the first restart among `restarts` with the least final cut below `ceiling`. */
  ghost predicate BestRestart(graph: Graph, k: int, restarts: seq<seq<Assignment>>, ceiling: real, best: int,
                              cost: real)
    requires WellFormed(graph) && k > 0 && AllRestarts(graph, k, restarts)
  {
    && best < |restarts|
    && (if best < 0 then cost == ceiling else cost == FinalCut(graph, k, restarts, best) < ceiling)
    && (forall i | 0 <= i < |restarts| :: cost <= FinalCut(graph, k, restarts, i))
    && (forall i | 0 <= i < best :: cost < FinalCut(graph, k, restarts, i))
  }

  /** How the twelve restarts determine the reported result. */
  ghost predicate Reports(graph: Graph, k: int, restarts: seq<seq<Assignment>>, best: int, result: PlacementResult)
    requires WellFormed(graph) && k > 0 && AllRestarts(graph, k, restarts)
  {
    && |restarts| == 12
    && result.groups == k && result.workloads == |graph.nodes| && result.edges == |graph.edges|
    && result.observed == Total(graph.edges)
    && result.savings == (if result.observed - result.optimized < 0.0 then 0.0 else result.observed - result.optimized)
    && Keeps(graph, k, restarts, result.observed + 1.0, best, result.assignment, result.optimized, result.iterations)
  }

  /** The kept restart's assignment, cost and iterations; nothing at no cost when none was kept. */
  ghost predicate Keeps(graph: Graph, k: int, restarts: seq<seq<Assignment>>, ceiling: real, best: int,
                        assignment: Assignment, cost: real, iterations: int)
    requires WellFormed(graph) && k > 0 && AllRestarts(graph, k, restarts)
  {
    if best < 0 then
      assignment == map[] && cost == 0.0 && iterations == 0 && BestRestart(graph, k, restarts, ceiling, best, ceiling)
    else
      && BestRestart(graph, k, restarts, ceiling, best, cost)
      && Restart(graph, k, restarts[best])
      && assignment == Last(restarts[best]) && iterations == |restarts[best]| - 1
  }

  method TotalCost(edges: seq<Edge>) returns (observed: real)
    ensures observed == Total(edges)
  {
    observed := 0.0;
    for i := 0 to |edges|
      invariant observed == Total(edges[..i])
    {
      assert edges[..i + 1][..i] == edges[..i];
      observed := observed + edges[i].cost;
    }
    assert edges[..|edges|] == edges;
  }

  method CutCost(edges: seq<Edge>, zone: Assignment) returns (cost: real)
    requires Covers(edges, zone)
    ensures cost == Cut(edges, zone)
  {
    cost := 0.0;
    for i := 0 to |edges|
      invariant cost == Cut(edges[..i], zone)
    {
      var e := edges[i];
      assert edges[..i + 1][..i] == edges[..i];
      if zone[e.a] != zone[e.b] {
        cost := cost + e.cost;
      }
    }
    assert edges[..|edges|] == edges;
  }

  /** The result of some twelve restarts, over the graph of the findings. */
  ghost predicate IsPlacement(findings: seq<FindingRow>, numGroups: int, result: PlacementResult) {
    exists graph, restarts, best :: CameFrom(findings, Floor1(numGroups), result, graph, restarts, best)
  }

  ghost predicate CameFrom(findings: seq<FindingRow>, k: int, result: PlacementResult, graph: Graph,
                           restarts: seq<seq<Assignment>>, best: int)
  {
    k > 0 && Represents(graph, findings) && AllRestarts(graph, k, restarts) && Reports(graph, k, restarts, best, result)
  }

  lemma RepresentsIsWellFormed(graph: Graph, findings: seq<FindingRow>)
    requires Represents(graph, findings)
    ensures WellFormed(graph)
  {
  }

  method OptimizePlacement(findings: seq<FindingRow>, numGroups: int) returns (result: PlacementResult)
    ensures IsPlacement(findings, numGroups, result)
  {
    hide Represents, AllRestarts, Keeps, RowAt, AdjacencyRow;
    var k := if numGroups < 1 then 1 else numGroups;
    var g := BuildPlacementGraph(findings);
    RepresentsIsWellFormed(g, findings);
    var observed := TotalCost(g.edges);
    var adjacency := BuildAdjacency(g.edges);
    ghost var restarts, best;
    var assignment, cost, iterations;
    assignment, cost, iterations, restarts, best := RunRestarts(g, k, adjacency, observed);
    var savings := observed - cost;
    if savings < 0.0 {
      savings := 0.0;
    }
    result := PlacementResult(k, |g.nodes|, |g.edges|, observed, cost, savings, iterations, assignment);
    assert CameFrom(findings, Floor1(numGroups), result, g, restarts, best);
  }

  method RunRestarts(graph: Graph, k: int, adjacency: map<string, Row>, observed: real)
    returns (assignment: Assignment, cost: real, iterations: int, ghost restarts: seq<seq<Assignment>>, ghost best: int)
    requires WellFormed(graph) && k > 0
    requires forall n :: RowAt(adjacency, n) == AdjacencyRow(graph.edges, n)
    ensures |restarts| == 12 && AllRestarts(graph, k, restarts)
    ensures Keeps(graph, k, restarts, observed + 1.0, best, assignment, cost, iterations)
  {
    var bestAssignment: Option<Assignment>, bestCost, bestIterations := None, observed + 1.0, 0;
    restarts, best := [], -1;
    for restart := 0 to RESTARTS
      invariant |restarts| == restart && AllRestarts(graph, k, restarts)
      invariant BestRestart(graph, k, restarts, observed + 1.0, best, bestCost)
      invariant bestAssignment == (if best < 0 then None else Some(Last(restarts[best])))
      invariant bestIterations == (if best < 0 then 0 else |restarts[best]| - 1)
    {
      ghost var trace;
      var zone, moves, zoneCost;
      zone, moves, zoneCost, trace := RunOnce(graph, k, adjacency);
      OneMoreRestart(graph, k, restarts, observed + 1.0, best, bestCost, trace);
      restarts := restarts + [trace];
      if zoneCost < bestCost {
        bestCost, bestAssignment, bestIterations := zoneCost, Some(zone), moves;
        best := restart;
      }
    }
    if bestAssignment == None {
      bestAssignment, bestCost := Some(map[]), 0.0;
    }
    assignment, cost, iterations := bestAssignment.value, bestCost, bestIterations;
  }

  method RunOnce(graph: Graph, k: int, adjacency: map<string, Row>)
    returns (zone: Assignment, iterations: int, cost: real, ghost trace: seq<Assignment>)
    requires WellFormed(graph) && k > 0
    requires forall n :: RowAt(adjacency, n) == AdjacencyRow(graph.edges, n)
    ensures Restart(graph, k, trace) && zone == Last(trace) && iterations == |trace| - 1
    ensures cost == Cut(graph.edges, Last(trace))
  {
    var order := Shuffle(graph.nodes);
    zone, iterations, trace := LocalSearch(graph, k, adjacency, order);
    cost := CutCost(graph.edges, zone);
  }

  lemma FinalCutOneMore(graph: Graph, k: int, restarts: seq<seq<Assignment>>, trace: seq<Assignment>)
    requires WellFormed(graph) && k > 0 && AllRestarts(graph, k, restarts) && Restart(graph, k, trace)
    ensures AllRestarts(graph, k, restarts + [trace])
    ensures FinalCut(graph, k, restarts + [trace], |restarts|) == Cut(graph.edges, Last(trace))
    ensures forall i | 0 <= i < |restarts| ::
              FinalCut(graph, k, restarts + [trace], i) == FinalCut(graph, k, restarts, i)
  {
  }

  lemma OneMoreRestart(graph: Graph, k: int, restarts: seq<seq<Assignment>>, ceiling: real, best: int, cost: real,
                       trace: seq<Assignment>)
    requires WellFormed(graph) && k > 0 && AllRestarts(graph, k, restarts) && Restart(graph, k, trace)
    requires BestRestart(graph, k, restarts, ceiling, best, cost)
    ensures AllRestarts(graph, k, restarts + [trace])
    ensures var last := Cut(graph.edges, Last(trace));
      if last < cost then BestRestart(graph, k, restarts + [trace], ceiling, |restarts|, last)
      else BestRestart(graph, k, restarts + [trace], ceiling, best, cost)
  {
    hide AllRestarts, Restart, FinalCut, Cut;
    FinalCutOneMore(graph, k, restarts, trace);
  }

  // ----- What the result promises -----

  ghost predicate NonNegativeCosts(findings: seq<FindingRow>) {
    forall f | f in findings :: f.finding.costHigh >= 0.0
  }

  lemma {:induction false} PairCostNonNegative(findings: seq<FindingRow>, key: (string, string))
    requires NonNegativeCosts(findings)
    ensures PairCost(findings, key) >= 0.0
  {
    if findings != [] {
      PairCostNonNegative(findings[..|findings| - 1], key);
    }
  }

  /** With costs of either sign: if a restart was kept, no restart starts or ends cheaper. */
  lemma ResultBeatsRestarts(graph: Graph, k: int, restarts: seq<seq<Assignment>>, best: int, result: PlacementResult)
    requires WellFormed(graph) && k > 0 && AllRestarts(graph, k, restarts)
    requires Reports(graph, k, restarts, best, result) && best >= 0
    ensures Assigns(graph, k, result.assignment) && result.optimized == Cut(graph.edges, result.assignment)
    ensures forall i | 0 <= i < |restarts| ::
              result.optimized <= Cut(graph.edges, Last(restarts[i])) <= Cut(graph.edges, restarts[i][0])
    ensures forall g | 0 <= g < k && g < |graph.nodes| :: Members(result.assignment, g) != {}
  {
    hide LocalOptimum, Total, Members;
    forall i | 0 <= i < |restarts|
      ensures result.optimized <= Cut(graph.edges, Last(restarts[i])) <= Cut(graph.edges, restarts[i][0])
    {
      var r := restarts[i];
      assert Restart(graph, k, r) && result.optimized <= FinalCut(graph, k, restarts, i);
      if |r| > 1 {
        SearchLowersCut(graph, k, r, 0, |r| - 1);
      }
    }
    forall g | 0 <= g < k && g < |graph.nodes| ensures Members(result.assignment, g) != {} {
      StartPopulates(graph, k, restarts[best][0]);
      SearchKeepsZones(graph, k, restarts[best], |restarts[best]| - 1, g);
    }
  }

  /** With no negative cost the fallback and the clamp are dead code, and the saving is what the cut leaves out. */
  lemma FallbacksNeverFire(findings: seq<FindingRow>, graph: Graph, k: int, restarts: seq<seq<Assignment>>, best: int,
                           result: PlacementResult)
    requires Represents(graph, findings) && NonNegativeCosts(findings)
    requires k > 0 && AllRestarts(graph, k, restarts)
    requires Reports(graph, k, restarts, best, result)
    ensures best >= 0
    ensures result.observed == AdmittedCost(findings)
    ensures 0.0 <= result.optimized <= result.observed
    ensures result.savings == result.observed - result.optimized
  {
    forall e | e in graph.edges ensures e.cost >= 0.0 {
      PairCostNonNegative(findings, (e.a, e.b));
    }
    var i := if best < 0 then 0 else best;
    assert Restart(graph, k, restarts[i]);
    CutWithinTotal(graph.edges, Last(restarts[i]));
    assert 0.0 <= FinalCut(graph, k, restarts, i) <= result.observed;
  }

  lemma KeptIsLocalOptimum(graph: Graph, k: int, restarts: seq<seq<Assignment>>, best: int, result: PlacementResult)
    requires WellFormed(graph) && k > 0 && AllRestarts(graph, k, restarts)
    requires Reports(graph, k, restarts, best, result) && best >= 0
    ensures Assigns(graph, k, result.assignment)
    ensures result.observed == Total(graph.edges) && result.optimized == Cut(graph.edges, result.assignment)
    ensures result.savings >= result.observed - result.optimized
    ensures result.iterations < 500 ==> LocalOptimum(graph, k, result.assignment)
  {
  }

  /** The approximation bound, for costs of either sign, whenever the kept search stopped on its own. */
  lemma ApproximationBound(graph: Graph, k: int, restarts: seq<seq<Assignment>>, best: int, result: PlacementResult)
    requires WellFormed(graph) && k > 0 && AllRestarts(graph, k, restarts)
    requires Reports(graph, k, restarts, best, result) && best >= 0
    requires result.iterations < 500
    ensures Assigns(graph, k, result.assignment)
    ensures SavesItsShare(graph, k, result.assignment, result.observed, result.savings)
    ensures NoLoneWorkload(graph, result.assignment) ==>
              Times(k, result.optimized) <= Times(k - 1, result.observed)
  {
    KeptIsLocalOptimum(graph, k, restarts, best, result);
    LocalOptimumShare(graph, k, result.assignment, result.observed, result.optimized, result.savings);
  }

  /** A reported assignment is as balanced as its moves leave it: with no iterations no two zones differ by more than
      one workload, and each iteration adds two to that at most. */
  lemma AssignmentIsBalanced(graph: Graph, k: int, restarts: seq<seq<Assignment>>, best: int, result: PlacementResult)
    requires WellFormed(graph) && k > 0 && AllRestarts(graph, k, restarts)
    requires Reports(graph, k, restarts, best, result) && best >= 0
    ensures Within(result.assignment, k, 1 + 2 * result.iterations)
    ensures result.iterations == 0 ==>
              forall g, h | 0 <= g < h < k ::
                && |Members(result.assignment, h)| <= |Members(result.assignment, g)|
                && |Members(result.assignment, g)| <= |Members(result.assignment, h)| + 1
  {
    hide Cut, Total, LocalOptimum, Members;
    var trace := restarts[best];
    MovesUnbalanceSlowly(graph, k, trace, |trace| - 1);
    if |trace| == 1 {
      StartIsBalanced(graph, k, trace[0]);
    }
  }

  // ----- No more workloads than zones -----

  /** A dealt start with no more workloads than zones gives each its own. */
  lemma StartSeparates(graph: Graph, k: int, zone: Assignment)
    requires WellFormed(graph) && k > 0 && Start(graph, k, zone) && |graph.nodes| <= k
    ensures forall n, m | n in zone && m in zone && n != m :: zone[n] != zone[m]
  {
    hide WellFormed;
    var order :| multiset(order) == multiset(graph.nodes) && RoundRobin(order, k, zone);
    assert |order| == |multiset(order)| == |graph.nodes|;
    forall n, m | n in zone && m in zone && n != m ensures zone[n] != zone[m] {
      var i :| 0 <= i < |order| && order[i] == n;
      var j :| 0 <= j < |order| && order[j] == m;
    }
  }

  /** Then no workload may move. */
  lemma SeparatedIsStuck(graph: Graph, k: int, zone: Assignment, n: string, g: int)
    requires WellFormed(graph) && Assigns(graph, k, zone)
    requires forall x, y | x in zone && y in zone && x != y :: zone[x] != zone[y]
    ensures !Permitted(graph, k, zone, n, g)
  {
    if n in graph.nodes {
      assert Members(zone, zone[n]) == {n};
    }
  }

  lemma {:induction false} SeparatedCut(edges: seq<Edge>, zone: Assignment)
    requires Covers(edges, zone) && forall e | e in edges :: e.a != e.b
    requires forall x, y | x in zone && y in zone && x != y :: zone[x] != zone[y]
    ensures Cut(edges, zone) == Total(edges)
  {
    if edges != [] {
      assert edges[|edges| - 1] in edges;
      SeparatedCut(edges[..|edges| - 1], zone);
    }
  }

  lemma SeparatedRestart(graph: Graph, k: int, trace: seq<Assignment>)
    requires WellFormed(graph) && k > 0 && |graph.nodes| <= k && Restart(graph, k, trace)
    ensures |trace| == 1 && Cut(graph.edges, Last(trace)) == Total(graph.edges)
  {
    hide Steepest, Permitted, Cut, Total;
    StartSeparates(graph, k, trace[0]);
    if |trace| > 1 {
      assert ChosenStep(graph, k, trace[0], trace[1]);
      var n, g :| Chosen(graph, k, trace[0], n, g) && trace[1] == trace[0][n := g];
      SeparatedIsStuck(graph, k, trace[0], n, g);
      ChosenIsPermitted(graph, k, trace[0], n, g);
      assert false;
    }
    SeparatedCut(graph.edges, trace[0]);
  }

  lemma ChosenIsPermitted(graph: Graph, k: int, zone: Assignment, n: string, g: int)
    requires WellFormed(graph) && Assigns(graph, k, zone) && Chosen(graph, k, zone, n, g)
    ensures Permitted(graph, k, zone, n, g)
  {
  }

  /** With no more workloads than zones nothing moves and nothing is saved, whatever the costs. */
  lemma FewWorkloadsSaveNothing(graph: Graph, k: int, restarts: seq<seq<Assignment>>, best: int,
                                result: PlacementResult)
    requires WellFormed(graph) && k > 0 && AllRestarts(graph, k, restarts) && |graph.nodes| <= k
    requires Reports(graph, k, restarts, best, result)
    ensures best == 0 && result.iterations == 0 && result.savings == 0.0 && result.optimized == result.observed
  {
    hide Restart, Cut, Total;
    forall i | 0 <= i < |restarts|
      ensures |restarts[i]| == 1 && FinalCut(graph, k, restarts, i) == result.observed
    {
      assert Restart(graph, k, restarts[i]);
      SeparatedRestart(graph, k, restarts[i]);
    }
    assert FinalCut(graph, k, restarts, 0) == result.observed;
  }

  /** What a caller gets, with no negative cost: exact totals, a realised cut, and a share of the cost saved if the
      search stopped on its own and left no workload alone. */
  lemma PlacementKeepsPromises(findings: seq<FindingRow>, numGroups: int, result: PlacementResult)
    returns (graph: Graph)
    requires IsPlacement(findings, numGroups, result) && NonNegativeCosts(findings)
    ensures Represents(graph, findings) && result.groups == Floor1(numGroups)
    ensures result.observed == AdmittedCost(findings) && 0.0 <= result.optimized <= result.observed
    ensures result.savings == result.observed - result.optimized
    ensures Assigns(graph, result.groups, result.assignment) && result.optimized == Cut(graph.edges, result.assignment)
    ensures forall g | 0 <= g < result.groups && g < |graph.nodes| :: Members(result.assignment, g) != {}
    ensures result.iterations < 500 && NoLoneWorkload(graph, result.assignment) ==>
              Times(result.groups, result.optimized) <= Times(result.groups - 1, result.observed)
    ensures result.workloads == |graph.nodes|
    ensures Within(result.assignment, result.groups, 1 + 2 * result.iterations)
    ensures result.workloads <= result.groups ==> result.iterations == 0 && result.savings == 0.0
  {
    hide AllRestarts, NonNegativeCosts, AdmittedCost, Assigns, NoLoneWorkload, SavesItsShare, Keeps, Cut;
    var k := Floor1(numGroups);
    var g, restarts, best :| CameFrom(findings, k, result, g, restarts, best);
    graph := g;
    RepresentsIsWellFormed(graph, findings);
    FallbacksNeverFire(findings, graph, k, restarts, best, result);
    ResultBeatsRestarts(graph, k, restarts, best, result);
    if result.iterations < 500 {
      ApproximationBound(graph, k, restarts, best, result);
    }
    AssignmentIsBalanced(graph, k, restarts, best, result);
    if |graph.nodes| <= k {
      FewWorkloadsSaveNothing(graph, k, restarts, best, result);
    }
  }
}
