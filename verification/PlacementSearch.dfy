/** Running the search: shuffled round-robin starts, moves until none helps, the best of all restarts. */
module PlacementSearch {
  import opened Placement
  import opened PlacementGraph
  import opened Text

  // ----- The initial split -----

  lemma SwapKeepsBag(s: seq<string>, i: nat, j: nat)
    requires i < |s| && j < |s|
    ensures multiset(s[i := s[j]][j := s[i]]) == multiset(s)
  {
  }

  /** A Fisher-Yates shuffle with arbitrary draws: any permutation may come out. */
  method Shuffle(nodes: seq<string>) returns (order: seq<string>)
    ensures multiset(order) == multiset(nodes)
  {
    var out := new string[|nodes|](i requires 0 <= i < |nodes| => nodes[i]);
    assert out[..] == nodes;
    var i := |nodes| - 1;
    while i > 0
      invariant i < |nodes|
      invariant multiset(out[..]) == multiset(nodes)
    {
      var j :| 0 <= j <= i;
      ghost var before := out[..];
      out[i], out[j] := out[j], out[i];
      assert out[..] == before[i := before[j]][j := before[i]];
      SwapKeepsBag(before, i, j);
      i := i - 1;
    }
    order := out[..];
  }

  /** The zone dealt to the `i`-th workload. */
  function Deal(i: nat, k: int): (g: int)
    requires k > 0
    ensures 0 <= g < k && g <= i
    ensures i < k ==> g == i
  {
    i % k
  }

  ghost predicate RoundRobin(order: seq<string>, k: int, zone: Assignment)
    requires k > 0
  {
    && (forall n :: n in zone <==> n in order)
    && (forall i | 0 <= i < |order| :: zone[order[i]] == Deal(i, k))
  }

  ghost predicate Start(graph: Graph, k: int, zone: Assignment)
    requires k > 0
  {
    exists order :: multiset(order) == multiset(graph.nodes) && RoundRobin(order, k, zone)
  }

  lemma NewMember(zone: Assignment, n: string, g: int)
    requires n !in zone
    ensures |Members(zone[n := g], g)| == |Members(zone, g)| + 1
    ensures forall h | h != g :: Members(zone[n := g], h) == Members(zone, h)
  {
    assert Members(zone[n := g], g) == Members(zone, g) + {n};
  }

  lemma NoMembers()
    ensures forall g :: Members(map[], g) == {}
  {
  }

  method InitialSplit(order: seq<string>, k: int) returns (zone: Assignment, groupSize: array<int>)
    requires k > 0
    requires forall i, j | 0 <= i < j < |order| :: order[i] != order[j]
    ensures RoundRobin(order, k, zone)
    ensures groupSize.Length == k && fresh(groupSize)
    ensures forall g | 0 <= g < k :: groupSize[g] == |Members(zone, g)|
  {
    hide Members;
    zone := map[];
    NoMembers();
    groupSize := new int[k](_ => 0);
    for i := 0 to |order|
      invariant RoundRobin(order[..i], k, zone)
      invariant forall g | 0 <= g < k :: groupSize[g] == |Members(zone, g)|
    {
      var n, g := order[i], Deal(i, k);
      NewMember(zone, n, g);
      zone := zone[n := g];
      groupSize[g] := groupSize[g] + 1;
    }
    assert order[..|order|] == order;
  }

  /** A split dealt out in turn populates exactly the first min(n, k) zones. */
  lemma StartPopulates(graph: Graph, k: int, zone: Assignment)
    requires WellFormed(graph) && k > 0 && Start(graph, k, zone)
    ensures Assigns(graph, k, zone)
    ensures forall g | 0 <= g < k :: Members(zone, g) != {} <==> g < |graph.nodes|
  {
    var order :| multiset(order) == multiset(graph.nodes) && RoundRobin(order, k, zone);
    assert |order| == |multiset(order)| == |graph.nodes|;
    forall n ensures n in order <==> n in graph.nodes {
      assert n in order <==> n in multiset(order);
    }
    RoundRobinFills(order, k, zone);
  }

  lemma RoundRobinFills(order: seq<string>, k: int, zone: Assignment)
    requires k > 0 && RoundRobin(order, k, zone)
    ensures forall n | n in zone :: 0 <= zone[n] < k
    ensures forall g | 0 <= g < k :: Members(zone, g) != {} <==> g < |order|
  {
    forall n | n in zone ensures 0 <= zone[n] < k && zone[n] < |order| {
      var i :| 0 <= i < |order| && order[i] == n;
    }
    forall g | 0 <= g < k && g < |order| ensures Members(zone, g) != {} {
      assert order[g] in Members(zone, g);
    }
  }

  // ----- The start is balanced -----

  /** No two zones differ by more than `d` workloads. */
  ghost predicate Within(zone: Assignment, k: int, d: int) {
    forall g, h | 0 <= g < k && 0 <= h < k :: |Members(zone, g)| <= |Members(zone, h)| + d
  }

  /** How many of `n` workloads dealt in turn fall to zone `g`. */
  function ShareOf(n: nat, k: int, g: int): int
    requires 0 <= g < k
  {
    n / k + if g < n % k then 1 else 0
  }

  lemma NextShare(n: nat, k: int, g: int)
    requires 0 <= g < k
    ensures ShareOf(n + 1, k, g) == ShareOf(n, k, g) + if g == n % k then 1 else 0
  {
    var q, r := n / k, n % k;
    if r + 1 < k {
      DivisionIs(n + 1, k, q, r + 1);
    } else {
      assert (q + 1) * k == q * k + k;
      DivisionIs(n + 1, k, q + 1, 0);
    }
  }

  lemma DivisionIs(n: nat, k: int, q: int, r: int)
    requires k > 0 && n == q * k + r && 0 <= r < k
    ensures n / k == q && n % k == r
  {
    var d := n / k - q;
    assert n == n / k * k + n % k;
    assert d * k == n / k * k - q * k;
    assert d >= 1 ==> d * k >= k;
    assert d <= -1 ==> d * k <= -k;
  }

  /** Dealt out in turn, zone by zone. */
  lemma {:induction false} SharesOfTheDeal(order: seq<string>, k: int, zone: Assignment, g: int)
    requires 0 <= g < k && RoundRobin(order, k, zone)
    requires forall i, j | 0 <= i < j < |order| :: order[i] != order[j]
    ensures |Members(zone, g)| == ShareOf(|order|, k, g)
    decreases |order|
  {
    hide ShareOf, Members, RoundRobin;
    if order == [] {
      NothingDealt(zone, k, g);
    } else {
      var n, front := |order| - 1, order[..|order| - 1];
      var last, before := order[n], zone - {order[n]};
      DealtLast(order, front, last, k, zone, before);
      SharesOfTheDeal(front, k, before, g);
      NewMember(before, last, zone[last]);
      NextShare(n, k, g);
    }
  }

  lemma NothingDealt(zone: Assignment, k: int, g: int)
    requires 0 <= g < k && RoundRobin([], k, zone)
    ensures |Members(zone, g)| == ShareOf(0, k, g)
  {
    assert Members(zone, g) == {};
  }

  lemma DealtLast(order: seq<string>, front: seq<string>, last: string, k: int, zone: Assignment, before: Assignment)
    requires k > 0 && RoundRobin(order, k, zone) && order == front + [last] && before == zone - {last}
    requires forall i, j | 0 <= i < j < |order| :: order[i] != order[j]
    ensures RoundRobin(front, k, before) && last !in before && last in zone
    ensures zone == before[last := zone[last]] && zone[last] == |front| % k
    ensures forall i, j | 0 <= i < j < |front| :: front[i] != front[j]
  {
    assert order[|front|] == last;
    assert forall i | 0 <= i < |front| :: order[i] == front[i];
  }

  /** Every start is balanced: no two zones differ by more than one workload, and earlier zones are not the smaller
      ones. */
  lemma StartIsBalanced(graph: Graph, k: int, zone: Assignment)
    requires WellFormed(graph) && k > 0 && Start(graph, k, zone)
    ensures forall g, h | 0 <= g < k && 0 <= h < k :: |Members(zone, g)| <= |Members(zone, h)| + 1
    ensures forall g, h | 0 <= g < h < k :: |Members(zone, g)| >= |Members(zone, h)|
  {
    hide WellFormed, Members, RoundRobin;
    var order :| multiset(order) == multiset(graph.nodes) && RoundRobin(order, k, zone);
    DistinctAfterShuffle(graph, order);
    forall g | 0 <= g < k ensures |Members(zone, g)| == ShareOf(|order|, k, g) {
      SharesOfTheDeal(order, k, zone, g);
    }
  }

  /** Each move brings two zones apart by two at most. */
  lemma {:induction false} MovesUnbalanceSlowly(graph: Graph, k: int, trace: seq<Assignment>, i: nat)
    requires WellFormed(graph) && k > 0 && Search(graph, k, trace) && Start(graph, k, trace[0]) && i < |trace|
    ensures Within(trace[i], k, 1 + 2 * i)
  {
    if i == 0 {
      StartIsBalanced(graph, k, trace[0]);
    } else {
      hide Start, Assigns, ChosenStep, Within, WellFormed;
      MovesUnbalanceSlowly(graph, k, trace, i - 1);
      StepUnbalances(graph, k, trace[i - 1], trace[i], 2 * i - 1);
    }
  }

  lemma StepUnbalances(graph: Graph, k: int, zone: Assignment, next: Assignment, d: int)
    requires WellFormed(graph) && Assigns(graph, k, zone) && ChosenStep(graph, k, zone, next) && Within(zone, k, d)
    ensures Within(next, k, d + 2)
  {
    hide Chosen, Assigns, WellFormed, Members;
    var n, g :| Chosen(graph, k, zone, n, g) && next == zone[n := g];
    ChosenMovesOne(graph, k, zone, n, g);
    forall a, b | 0 <= a < k && 0 <= b < k ensures |Members(next, a)| <= |Members(next, b)| + d + 2 {
      assert |Members(zone, a)| <= |Members(zone, b)| + d;
    }
  }

  lemma ChosenMovesOne(graph: Graph, k: int, zone: Assignment, n: string, g: int)
    requires WellFormed(graph) && Assigns(graph, k, zone) && Chosen(graph, k, zone, n, g)
    ensures forall h :: |Members(zone, h)| - 1 <= |Members(zone[n := g], h)| <= |Members(zone, h)| + 1
  {
    MoveShiftsMembers(zone, n, g);
  }

  // ----- One restart -----

  lemma ChosenKeepsAssigned(graph: Graph, k: int, zone: Assignment, n: string, g: int)
    requires WellFormed(graph) && Assigns(graph, k, zone) && Chosen(graph, k, zone, n, g)
    ensures Assigns(graph, k, zone[n := g])
  {
  }

  method LocalSearch(graph: Graph, k: int, adjacency: map<string, Row>, order: seq<string>)
    returns (zone: Assignment, iterations: int, ghost trace: seq<Assignment>)
    requires WellFormed(graph) && k > 0 && multiset(order) == multiset(graph.nodes)
    requires forall n :: RowAt(adjacency, n) == AdjacencyRow(graph.edges, n)
    ensures Search(graph, k, trace) && Start(graph, k, trace[0])
    ensures zone == trace[|trace| - 1]
    ensures iterations == |trace| - 1 <= 500
    ensures iterations < 500 ==> LocalOptimum(graph, k, zone)
  {
    hide Search, LocalOptimum, RowAt, AdjacencyRow, RoundRobin;
    DistinctAfterShuffle(graph, order);
    var groupSize: array<int>;
    zone, groupSize := InitialSplit(order, k);
    assert Start(graph, k, zone);
    StartPopulates(graph, k, zone);
    zone, iterations, trace := Descend(graph, k, adjacency, zone, groupSize);
  }

  /** The loop of one restart: make the chosen move until there is none, at most 500 times. */
  method Descend(graph: Graph, k: int, adjacency: map<string, Row>, start: Assignment, groupSize: array<int>)
    returns (zone: Assignment, iterations: int, ghost trace: seq<Assignment>)
    requires WellFormed(graph) && Assigns(graph, k, start) && Counts(graph, k, start, groupSize[..])
    requires forall n :: RowAt(adjacency, n) == AdjacencyRow(graph.edges, n)
    modifies groupSize
    ensures Search(graph, k, trace) && trace[0] == start && zone == trace[|trace| - 1]
    ensures iterations == |trace| - 1 <= 500
    ensures iterations < 500 ==> LocalOptimum(graph, k, zone)
    ensures Counts(graph, k, zone, groupSize[..])
  {
    hide LocalOptimum, RowAt, AdjacencyRow, WellFormed;
    zone, trace, iterations := start, [start], 0;
    while iterations < MAX_ITERATIONS
      invariant Search(graph, k, trace) && trace[0] == start && zone == trace[|trace| - 1]
      invariant iterations == |trace| - 1 <= MAX_ITERATIONS
      invariant Counts(graph, k, zone, groupSize[..])
    {
      var bestNode, bestGroup := BestMove(graph, k, adjacency, zone, groupSize);
      if bestNode == "" {
        break;
      }
      ShiftCounts(graph, k, zone, groupSize[..], bestNode, bestGroup);
      ExtendSearch(graph, k, trace, bestNode, bestGroup);
      groupSize[zone[bestNode]] := groupSize[zone[bestNode]] - 1;
      groupSize[bestGroup] := groupSize[bestGroup] + 1;
      zone := zone[bestNode := bestGroup];
      iterations := iterations + 1;
      trace := trace + [zone];
    }
  }

  lemma DistinctAfterShuffle(graph: Graph, order: seq<string>)
    requires WellFormed(graph) && multiset(order) == multiset(graph.nodes)
    ensures forall i, j | 0 <= i < j < |order| :: order[i] != order[j]
  {
    AscendingIsDistinct(graph.nodes);
    var all := set n | n in graph.nodes;
    NoRepeatsAreASet(graph.nodes, all);
    ListingHasNoRepeats(order, all);
  }

  lemma ShiftCounts(graph: Graph, k: int, zone: Assignment, groupSize: seq<int>, n: string, g: int)
    requires WellFormed(graph) && Assigns(graph, k, zone) && Counts(graph, k, zone, groupSize)
    requires Chosen(graph, k, zone, n, g)
    ensures Assigns(graph, k, zone[n := g])
    ensures Counts(graph, k, zone[n := g], groupSize[zone[n] := groupSize[zone[n]] - 1][g := groupSize[g] + 1])
  {
    MoveShiftsMembers(zone, n, g);
  }

  lemma ExtendSearch(graph: Graph, k: int, trace: seq<Assignment>, n: string, g: int)
    requires WellFormed(graph) && Search(graph, k, trace)
    requires Chosen(graph, k, trace[|trace| - 1], n, g)
    ensures Search(graph, k, trace + [trace[|trace| - 1][n := g]])
  {
    ChosenKeepsAssigned(graph, k, trace[|trace| - 1], n, g);
    assert ChosenStep(graph, k, trace[|trace| - 1], trace[|trace| - 1][n := g]);
  }
}
