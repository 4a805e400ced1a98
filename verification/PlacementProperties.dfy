/** What every search keeps, why it stops, and how good a local optimum is. */
module PlacementProperties {
  import opened Placement
  import opened PlacementGraph
  import opened Text

  // ----- A search never repeats an assignment -----

  lemma {:induction false} SearchLowersCut(graph: Graph, k: int, trace: seq<Assignment>, i: nat, j: nat)
    requires WellFormed(graph) && Search(graph, k, trace) && i < j < |trace|
    ensures Cut(graph.edges, trace[j]) < Cut(graph.edges, trace[i])
  {
    assert ChosenStep(graph, k, trace[j - 1], trace[j]);
    if i < j - 1 {
      SearchLowersCut(graph, k, trace, i, j - 1);
    }
  }

  lemma SearchNeverRepeats(graph: Graph, k: int, trace: seq<Assignment>)
    requires WellFormed(graph) && Search(graph, k, trace)
    ensures forall i, j | 0 <= i < j < |trace| :: trace[i] != trace[j]
  {
    forall i, j | 0 <= i < j < |trace| ensures trace[i] != trace[j] {
      SearchLowersCut(graph, k, trace, i, j);
    }
  }

  lemma OneIsChosen(graph: Graph, k: int, zone: Assignment, n: string, g: int, m: string, h: int)
    requires WellFormed(graph) && Assigns(graph, k, zone)
    requires Chosen(graph, k, zone, n, g) && Chosen(graph, k, zone, m, h)
    ensures n == m && g == h
  {
    hide Less, CutChange, WellFormed, Assigns;
    LessTrichotomy(n, m);
  }

  lemma StepIsDetermined(graph: Graph, k: int, zone: Assignment, next: Assignment, other: Assignment)
    requires WellFormed(graph) && Assigns(graph, k, zone) && ChosenStep(graph, k, zone, next)
             && ChosenStep(graph, k, zone, other)
    ensures next == other
  {
    hide Chosen, Assigns;
    var n, g :| Chosen(graph, k, zone, n, g) && next == zone[n := g];
    var m, h :| Chosen(graph, k, zone, m, h) && other == zone[m := h];
    OneIsChosen(graph, k, zone, n, g, m, h);
  }

  /** The chosen move is unique, so a search is reproducible from its start. */
  lemma {:induction false} SearchIsDetermined(graph: Graph, k: int, trace: seq<Assignment>, other: seq<Assignment>,
                                              i: nat)
    requires WellFormed(graph) && Search(graph, k, trace) && Search(graph, k, other)
    requires trace[0] == other[0] && i < |trace| && i < |other|
    ensures trace[i] == other[i]
  {
    if i > 0 {
      hide ChosenStep, Assigns;
      SearchIsDetermined(graph, k, trace, other, i - 1);
      StepIsDetermined(graph, k, trace[i - 1], trace[i], other[i]);
    }
  }

  function Power(k: nat, n: nat): nat {
    if n == 0 then 1 else k * Power(k, n - 1)
  }

  /** Every one of `zones` with `n` placed in every zone below `k`. */
  ghost function Spread(zones: set<Assignment>, n: string, k: nat): set<Assignment> {
    if k == 0 then {} else Spread(zones, n, k - 1) + set zone | zone in zones :: zone[n := k - 1]
  }

  /** Every way of giving each of `nodes` a zone below `k`. */
  ghost function AllAssignments(nodes: seq<string>, k: nat): set<Assignment> {
    if nodes == [] then {map[]}
    else Spread(AllAssignments(nodes[..|nodes| - 1], k), nodes[|nodes| - 1], k)
  }

  lemma {:induction false} SpreadHas(zones: set<Assignment>, n: string, k: nat, zone: Assignment, g: int)
    requires zone in zones && 0 <= g < k
    ensures zone[n := g] in Spread(zones, n, k)
  {
    if g < k - 1 {
      SpreadHas(zones, n, k - 1, zone, g);
    }
  }

  lemma {:induction false} AssignmentIsListed(nodes: seq<string>, k: nat, zone: Assignment)
    requires forall n :: n in zone <==> n in nodes
    requires forall n | n in zone :: 0 <= zone[n] < k
    requires forall i, j | 0 <= i < j < |nodes| :: nodes[i] != nodes[j]
    ensures zone in AllAssignments(nodes, k)
  {
    if nodes == [] {
      assert zone == map[];
    } else {
      var n := nodes[|nodes| - 1];
      var rest := zone - {n};
      AssignmentIsListed(nodes[..|nodes| - 1], k, rest);
      SpreadHas(AllAssignments(nodes[..|nodes| - 1], k), n, k, rest, zone[n]);
      assert zone == rest[n := zone[n]];
    }
  }

  lemma {:induction false} AssignmentCount(nodes: seq<string>, k: nat)
    ensures |AllAssignments(nodes, k)| <= Power(k, |nodes|)
  {
    if nodes != [] {
      var front := AllAssignments(nodes[..|nodes| - 1], k);
      AssignmentCount(nodes[..|nodes| - 1], k);
      SpreadCount(front, nodes[|nodes| - 1], k);
      TimesAtMost(k, |front|, Power(k, |nodes| - 1));
    }
  }

  lemma TimesAtMost(k: nat, a: nat, b: nat)
    requires a <= b
    ensures k * a <= k * b
  {
  }

  lemma {:induction false} SpreadCount(zones: set<Assignment>, n: string, k: nat)
    ensures |Spread(zones, n, k)| <= k * |zones|
  {
    if k > 0 {
      SpreadCount(zones, n, k - 1);
      ImageCount(zones, n, k - 1);
      assert k * |zones| == (k - 1) * |zones| + |zones|;
    }
  }

  lemma {:induction false} ImageCount(zones: set<Assignment>, n: string, g: int)
    ensures |set zone | zone in zones :: zone[n := g]| <= |zones|
    decreases |zones|
  {
    var image := set zone | zone in zones :: zone[n := g];
    if zones == {} {
      assert image == {};
    } else {
      var one :| one in zones;
      var smaller := set zone | zone in zones - {one} :: zone[n := g];
      ImageCount(zones - {one}, n, g);
      assert image == smaller + {one[n := g]} by {
        assert zones == zones - {one} + {one};
        assert one[n := g] in image;
      }
    }
  }

  lemma {:induction false} DistinctFit<T>(listing: seq<T>, s: set<T>)
    requires forall x | x in listing :: x in s
    requires forall i, j | 0 <= i < j < |listing| :: listing[i] != listing[j]
    ensures |listing| <= |s|
  {
    if listing != [] {
      var x := listing[|listing| - 1];
      DistinctFit(listing[..|listing| - 1], s - {x});
    }
  }

  /** Even without the iteration cap a search visits at most k^n assignments. */
  lemma SearchIsBounded(graph: Graph, k: nat, trace: seq<Assignment>)
    requires WellFormed(graph) && Search(graph, k, trace)
    ensures |trace| <= Power(k, |graph.nodes|)
  {
    AscendingIsDistinct(graph.nodes);
    forall zone | zone in trace ensures zone in AllAssignments(graph.nodes, k) {
      AssignmentIsListed(graph.nodes, k, zone);
    }
    SearchNeverRepeats(graph, k, trace);
    DistinctFit(trace, AllAssignments(graph.nodes, k));
    AssignmentCount(graph.nodes, k);
  }

  // ----- A search never empties a zone -----

  lemma {:induction false} SearchKeepsZones(graph: Graph, k: int, trace: seq<Assignment>, i: nat, g: int)
    requires WellFormed(graph) && Search(graph, k, trace) && i < |trace|
    requires 0 <= g < k && Members(trace[0], g) != {}
    ensures Members(trace[i], g) != {}
  {
    if i > 0 {
      SearchKeepsZones(graph, k, trace, i - 1, g);
      assert ChosenStep(graph, k, trace[i - 1], trace[i]);
      StepKeepsZone(graph, k, trace[i - 1], trace[i], g);
    }
  }

  lemma StepKeepsZone(graph: Graph, k: int, zone: Assignment, next: Assignment, g: int)
    requires WellFormed(graph) && Assigns(graph, k, zone) && ChosenStep(graph, k, zone, next)
    requires Members(zone, g) != {}
    ensures Members(next, g) != {}
  {
    var n, h :| Chosen(graph, k, zone, n, h) && next == zone[n := h];
    MoveShiftsMembers(zone, n, h);
    assert |Members(zone, zone[n])| >= 2;
    if g == zone[n] {
      assert |Members(zone, g) - {n}| == |Members(zone, g)| - 1;
    }
  }

  // ----- How good a local optimum is -----

  function Degree(edges: seq<Edge>, n: string): real {
    if edges == [] then 0.0
    else
      var e := edges[|edges| - 1];
      Degree(edges[..|edges| - 1], n) + if e.a == n || e.b == n then e.cost else 0.0
  }

  /** The summed degrees of the listed workloads that are alone in their zone. */
  function SingletonDegree(nodes: seq<string>, edges: seq<Edge>, zone: Assignment): real
    requires forall n | n in nodes :: n in zone
  {
    if nodes == [] then 0.0
    else
      var n := nodes[|nodes| - 1];
      SingletonDegree(nodes[..|nodes| - 1], edges, zone)
        + if |Members(zone, zone[n])| <= 1 then Degree(edges, n) else 0.0
  }

  function DegreeSum(nodes: seq<string>, edges: seq<Edge>): real {
    if nodes == [] then 0.0
    else DegreeSum(nodes[..|nodes| - 1], edges) + Degree(edges, nodes[|nodes| - 1])
  }

  /** The cost each listed workload keeps inside its own zone. */
  function InnerSum(nodes: seq<string>, edges: seq<Edge>, zone: Assignment): real
    requires Covers(edges, zone) && forall n | n in nodes :: n in zone
  {
    if nodes == [] then 0.0
    else
      var n := nodes[|nodes| - 1];
      InnerSum(nodes[..|nodes| - 1], edges, zone) + Toward(edges, zone, n, zone[n])
  }

  /** The cost of `n` toward the zones below `g`. */
  function TowardBelow(edges: seq<Edge>, zone: Assignment, n: string, g: nat): real
    requires Covers(edges, zone)
  {
    if g == 0 then 0.0 else TowardBelow(edges, zone, n, g - 1) + Toward(edges, zone, n, g - 1)
  }

  lemma {:induction false} TowardBelowOneEdge(edges: seq<Edge>, zone: Assignment, n: string, g: nat)
    requires Covers(edges, zone) && edges != []
    ensures var front, e := edges[..|edges| - 1], edges[|edges| - 1];
      TowardBelow(edges, zone, n, g) == TowardBelow(front, zone, n, g)
        + if e.a == n && 0 <= zone[e.b] < g then e.cost
          else if e.b == n && 0 <= zone[e.a] < g then e.cost
          else 0.0
  {
    if g > 0 {
      TowardBelowOneEdge(edges, zone, n, g - 1);
    }
  }

  /** Over all zones a workload's costs add up to its degree. */
  lemma {:induction false} TowardAddsToDegree(edges: seq<Edge>, zone: Assignment, n: string, k: nat)
    requires Covers(edges, zone) && forall m | m in zone :: 0 <= zone[m] < k
    ensures TowardBelow(edges, zone, n, k) == Degree(edges, n)
  {
    if edges == [] {
      TowardNothing(zone, n, k);
    } else {
      TowardBelowOneEdge(edges, zone, n, k);
      TowardAddsToDegree(edges[..|edges| - 1], zone, n, k);
    }
  }

  lemma {:induction false} TowardNothing(zone: Assignment, n: string, g: nat)
    ensures TowardBelow([], zone, n, g) == 0.0
  {
    if g > 0 {
      TowardNothing(zone, n, g - 1);
    }
  }

  /** `k` times `x`, by addition. */
  function Times(k: nat, x: real): real {
    if k == 0 then 0.0 else Times(k - 1, x) + x
  }

  lemma {:induction false} TimesAdds(k: nat, x: real, y: real)
    ensures Times(k, x + y) == Times(k, x) + Times(k, y)
    ensures Times(k, x) == k as real * x
  {
    if k > 0 {
      TimesAdds(k - 1, x, y);
      assert k as real * x == (k - 1) as real * x + x;
    }
  }

  lemma {:induction false} TowardBelowBounded(edges: seq<Edge>, zone: Assignment, n: string, g: nat, bound: real)
    requires Covers(edges, zone)
    requires forall h | 0 <= h < g :: Toward(edges, zone, n, h) <= bound
    ensures TowardBelow(edges, zone, n, g) <= Times(g, bound)
  {
    if g > 0 {
      TowardBelowBounded(edges, zone, n, g - 1, bound);
    }
  }

  /** A workload with company costs at least as much toward its own zone as toward any other. */
  ghost predicate Settled(edges: seq<Edge>, k: nat, zone: Assignment, n: string)
    requires Covers(edges, zone) && n in zone
  {
    |Members(zone, zone[n])| >= 2 ==>
      forall h | 0 <= h < k :: Toward(edges, zone, n, h) <= Toward(edges, zone, n, zone[n])
  }

  lemma LocalOptimumSettles(graph: Graph, k: nat, zone: Assignment, n: string)
    requires WellFormed(graph) && Assigns(graph, k, zone) && LocalOptimum(graph, k, zone) && n in graph.nodes
    ensures Settled(graph.edges, k, zone, n)
  {
    if |Members(zone, zone[n])| >= 2 {
      forall h | 0 <= h < k ensures Toward(graph.edges, zone, n, h) <= Toward(graph.edges, zone, n, zone[n]) {
        if h != zone[n] {
          assert Permitted(graph, k, zone, n, h);
          assert CutChange(graph, k, zone, n, h) >= 0.0;
          MoveChangesCut(graph.edges, zone, n, h);
        }
      }
    }
  }

  /** A settled workload with company keeps at least 1/k of its degree inside its zone. */
  lemma CompanyKeepsShare(edges: seq<Edge>, k: nat, zone: Assignment, n: string)
    requires Covers(edges, zone) && forall m | m in zone :: 0 <= zone[m] < k
    requires n in zone && Settled(edges, k, zone, n) && |Members(zone, zone[n])| >= 2
    ensures Times(k, Toward(edges, zone, n, zone[n])) >= Degree(edges, n)
  {
    TowardBelowBounded(edges, zone, n, k, Toward(edges, zone, n, zone[n]));
    TowardAddsToDegree(edges, zone, n, k);
  }

  /** A workload alone in its zone keeps nothing inside it. */
  lemma {:induction false} AloneKeepsNothing(edges: seq<Edge>, zone: Assignment, n: string)
    requires Covers(edges, zone) && n in zone && |Members(zone, zone[n])| <= 1
    ensures Toward(edges, zone, n, zone[n]) == 0.0
  {
    if edges != [] {
      AloneKeepsNothing(edges[..|edges| - 1], zone, n);
      var e := edges[|edges| - 1];
      if e.a == n || e.b == n {
        var m := if e.a == n then e.b else e.a;
        if zone[m] == zone[n] {
          assert {m, n} <= Members(zone, zone[n]);
          SubsetCount({m, n}, Members(zone, zone[n]));
          assert false;
        }
      }
    }
  }

  lemma {:induction false} SubsetCount<T>(a: set<T>, b: set<T>)
    requires a <= b
    ensures |a| <= |b|
  {
    if a != {} {
      var x :| x in a;
      SubsetCount(a - {x}, b - {x});
    }
  }

  lemma {:induction false} SumOverWorkloads(edges: seq<Edge>, k: nat, zone: Assignment, nodes: seq<string>)
    requires Covers(edges, zone) && forall m | m in zone :: 0 <= zone[m] < k
    requires forall n | n in nodes :: n in zone && Settled(edges, k, zone, n)
    ensures Times(k, InnerSum(nodes, edges, zone)) >= DegreeSum(nodes, edges) - SingletonDegree(nodes, edges, zone)
  {
    if nodes != [] {
      var front, n := nodes[..|nodes| - 1], nodes[|nodes| - 1];
      SumOverWorkloads(edges, k, zone, front);
      var inner := Toward(edges, zone, n, zone[n]);
      if |Members(zone, zone[n])| >= 2 {
        CompanyKeepsShare(edges, k, zone, n);
      } else {
        AloneKeepsNothing(edges, zone, n);
      }
      TimesAdds(k, InnerSum(front, edges, zone), inner);
    } else {
      TimesAdds(k, 0.0, 0.0);
    }
  }

  // Double counting: every edge is met from both of its ends.

  /** What one edge adds to the degrees of the listed workloads. */
  function EndCost(nodes: seq<string>, e: Edge): real {
    if nodes == [] then 0.0
    else
      var n := nodes[|nodes| - 1];
      EndCost(nodes[..|nodes| - 1], e) + if e.a == n || e.b == n then e.cost else 0.0
  }

  lemma {:induction false} EdgeMetFromItsEnds(nodes: seq<string>, e: Edge)
    requires forall i, j | 0 <= i < j < |nodes| :: nodes[i] != nodes[j]
    requires e.a != e.b
    ensures EndCost(nodes, e) == (if e.a in nodes then e.cost else 0.0) + (if e.b in nodes then e.cost else 0.0)
  {
    if nodes != [] {
      EdgeMetFromItsEnds(nodes[..|nodes| - 1], e);
    }
  }

  lemma {:induction false} OneEdgeMore(nodes: seq<string>, edges: seq<Edge>, zone: Assignment)
    requires edges != [] && Covers(edges, zone) && forall n | n in nodes :: n in zone
    ensures var front, e := edges[..|edges| - 1], edges[|edges| - 1];
      && DegreeSum(nodes, edges) == DegreeSum(nodes, front) + EndCost(nodes, e)
      && InnerSum(nodes, edges, zone)
         == InnerSum(nodes, front, zone) + if zone[e.a] == zone[e.b] then EndCost(nodes, e) else 0.0
  {
    if nodes != [] {
      OneEdgeMore(nodes[..|nodes| - 1], edges, zone);
    }
  }

  lemma {:induction false} SumsOverNoEdges(nodes: seq<string>, zone: Assignment)
    requires forall n | n in nodes :: n in zone
    ensures DegreeSum(nodes, []) == 0.0 && InnerSum(nodes, [], zone) == 0.0
  {
    if nodes != [] {
      SumsOverNoEdges(nodes[..|nodes| - 1], zone);
    }
  }

  lemma {:induction false} DoubleCounting(nodes: seq<string>, edges: seq<Edge>, zone: Assignment)
    requires Covers(edges, zone) && forall n | n in nodes :: n in zone
    requires forall i, j | 0 <= i < j < |nodes| :: nodes[i] != nodes[j]
    requires forall e | e in edges :: e.a in nodes && e.b in nodes
    ensures DegreeSum(nodes, edges) == 2.0 * Total(edges)
    ensures InnerSum(nodes, edges, zone) == 2.0 * (Total(edges) - Cut(edges, zone))
  {
    if edges == [] {
      SumsOverNoEdges(nodes, zone);
    } else {
      DoubleCounting(nodes, edges[..|edges| - 1], zone);
      OneEdgeMore(nodes, edges, zone);
      EdgeMetFromItsEnds(nodes, edges[|edges| - 1]);
    }
  }

  /** The approximation bound: k times twice the cost saved covers all degrees but those of lone workloads. */
  lemma LocalOptimumBound(graph: Graph, k: nat, zone: Assignment)
    requires WellFormed(graph) && Assigns(graph, k, zone) && LocalOptimum(graph, k, zone)
    ensures Times(k, 2.0 * (Total(graph.edges) - Cut(graph.edges, zone)))
         >= 2.0 * Total(graph.edges) - SingletonDegree(graph.nodes, graph.edges, zone)
  {
    hide LocalOptimum, Settled, Cut, Total, InnerSum, DegreeSum, SingletonDegree, Times;
    AscendingIsDistinct(graph.nodes);
    DoubleCounting(graph.nodes, graph.edges, zone);
    forall n | n in graph.nodes ensures Settled(graph.edges, k, zone, n) {
      LocalOptimumSettles(graph, k, zone, n);
    }
    SumOverWorkloads(graph.edges, k, zone, graph.nodes);
  }

  lemma {:induction false} NoSingletonsNoDegree(nodes: seq<string>, edges: seq<Edge>, zone: Assignment)
    requires forall n | n in nodes :: n in zone && |Members(zone, zone[n])| >= 2
    ensures SingletonDegree(nodes, edges, zone) == 0.0
  {
    if nodes != [] {
      NoSingletonsNoDegree(nodes[..|nodes| - 1], edges, zone);
    }
  }

  ghost predicate NoLoneWorkload(graph: Graph, zone: Assignment) {
    forall n | n in graph.nodes :: n in zone && |Members(zone, zone[n])| >= 2
  }

  /** k times twice the savings reach the observed cost met from both ends, short of what lone workloads cost. */
  ghost predicate SavesItsShare(graph: Graph, k: nat, zone: Assignment, observed: real, savings: real)
    requires Assigns(graph, k, zone)
  {
    Times(k, 2.0 * savings) >= 2.0 * observed - SingletonDegree(graph.nodes, graph.edges, zone)
  }

  /** The same bound for the saving, and as a share of the observed cost when no workload is alone. */
  lemma LocalOptimumShare(graph: Graph, k: nat, zone: Assignment, observed: real, cut: real, savings: real)
    requires WellFormed(graph) && Assigns(graph, k, zone) && LocalOptimum(graph, k, zone) && k > 0
    requires observed == Total(graph.edges) && cut == Cut(graph.edges, zone) && savings >= observed - cut
    ensures SavesItsShare(graph, k, zone, observed, savings)
    ensures NoLoneWorkload(graph, zone) ==> Times(k, cut) <= Times(k - 1, observed)
  {
    LocalOptimumBound(graph, k, zone);
    BoundAsShare(k, observed, cut, savings);
    if NoLoneWorkload(graph, zone) {
      NoSingletonsNoDegree(graph.nodes, graph.edges, zone);
    }
  }

  lemma BoundAsShare(k: nat, observed: real, cut: real, savings: real)
    requires k > 0 && savings >= observed - cut
    ensures Times(k, 2.0 * savings) >= Times(k, 2.0 * (observed - cut))
    ensures Times(k, 2.0 * (observed - cut)) >= 2.0 * observed ==> Times(k, cut) <= Times(k - 1, observed)
  {
    TimesAdds(k, 2.0 * (observed - cut), 2.0 * (savings - (observed - cut)));
    TimesNonNegative(k, 2.0 * (savings - (observed - cut)));
    TimesAdds(k, observed - cut, observed - cut);
    TimesAdds(k, observed - cut, cut);
  }

  lemma {:induction false} TimesNonNegative(k: nat, x: real)
    requires x >= 0.0
    ensures Times(k, x) >= 0.0
  {
    if k > 0 {
      TimesNonNegative(k - 1, x);
    }
  }
}
