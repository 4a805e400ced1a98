/** The current state across a tenant's clusters: each cluster's latest snapshot, dearest first. */
module Latest {
  import opened Findings
  import opened Outcome
  import opened Tables
  import opened Text

  predicate IsLatest(raw: seq<RawRow>, tenant: int, r: RawRow) {
    r.tenant == tenant && r.reportedAt == LatestTime(raw, tenant, r.clusterId)
  }

  /** The rows of every cluster's latest snapshot, as stored. */
  function LatestRows(raw: seq<RawRow>, tenant: int, rows: seq<RawRow>): seq<RawRow> {
    if rows == [] then []
    else
      var r := rows[|rows| - 1];
      LatestRows(raw, tenant, rows[..|rows| - 1]) + if IsLatest(raw, tenant, r) then [r] else []
  }

  predicate Dearer(x: RawRow, y: RawRow) {
    x.finding.costHigh > y.finding.costHigh
  }

  function RowOf(r: RawRow): FindingRow {
    FindingRow(r.finding, r.clusterId, r.reportedAt)
  }

  /** The rows of the latest snapshots, dearest first; equally dear ones in any order. */
  ghost predicate IsRanked(raw: seq<RawRow>, tenant: int, ranked: seq<RawRow>) {
    && multiset(ranked) == multiset(LatestRows(raw, tenant, raw))
    && (forall i, j | 0 <= i < j < |ranked| :: ranked[i].finding.costHigh >= ranked[j].finding.costHigh)
  }

  /** The first `limit` rows of the view, dearest first; all of them if the limit is negative. */
  ghost predicate IsView(raw: seq<RawRow>, tenant: int, limit: int, out: seq<FindingRow>) {
    exists ranked: seq<RawRow> ::
      && IsRanked(raw, tenant, ranked)
      && |out| == (if 0 <= limit < |ranked| then limit else |ranked|)
      && forall i | 0 <= i < |out| :: out[i] == RowOf(ranked[i])
  }

  method LatestFindings(raw: seq<RawRow>, tenant: int, limit: int) returns (out: seq<FindingRow>)
    ensures IsView(raw, tenant, limit, out)
  {
    hide IsView, FirstRows, Dearer;
    var rows := SelectLatest(raw, tenant);
    CostsAreOrdered();
    var sorted := SortSlice(rows, Dearer);
    out := FirstRows(sorted, limit);
    ViewIs(raw, tenant, limit, sorted, out);
  }

  method SelectLatest(raw: seq<RawRow>, tenant: int) returns (rows: seq<RawRow>)
    ensures rows == LatestRows(raw, tenant, raw)
  {
    hide IsLatest;
    rows := [];
    for i := 0 to |raw|
      invariant rows == LatestRows(raw, tenant, raw[..i])
    {
      assert raw[..i + 1][..i] == raw[..i];
      if IsLatest(raw, tenant, raw[i]) {
        rows := rows + [raw[i]];
      }
    }
    assert raw[..|raw|] == raw;
  }

  function FirstRows(sorted: seq<RawRow>, limit: int): (out: seq<FindingRow>)
    ensures |out| == (if 0 <= limit < |sorted| then limit else |sorted|)
    ensures forall i | 0 <= i < |out| :: out[i] == RowOf(sorted[i])
  {
    var n := if 0 <= limit < |sorted| then limit else |sorted|;
    seq(n, i requires 0 <= i < n <= |sorted| => RowOf(sorted[i]))
  }

  lemma ViewIs(raw: seq<RawRow>, tenant: int, limit: int, sorted: seq<RawRow>, out: seq<FindingRow>)
    requires multiset(sorted) == multiset(LatestRows(raw, tenant, raw)) && NoInversion(sorted, Dearer)
    requires out == FirstRows(sorted, limit)
    ensures IsView(raw, tenant, limit, out)
  {
    hide LatestRows, RowOf, FirstRows;
    forall i, j | 0 <= i < j < |sorted| ensures sorted[i].finding.costHigh >= sorted[j].finding.costHigh {
      assert !Dearer(sorted[j], sorted[i]);
    }
  }

  lemma CostsAreOrdered()
    ensures StrictWeakOrder(Dearer)
  {
    forall x, y, z ensures OrderedTriple(Dearer, x, y, z) {
    }
  }

  // ----- The view, by the rows of the table -----

  /** No row of its cluster is newer. */
  predicate IsNewest(raw: seq<RawRow>, r: RawRow) {
    forall x | x in raw && x.tenant == r.tenant && x.clusterId == r.clusterId :: x.reportedAt <= r.reportedAt
  }

  /** The newest rows of the tenant's clusters, each as often as it is stored, dearest first. */
  ghost predicate ListsNewest(raw: seq<RawRow>, tenant: int, ranked: seq<RawRow>) {
    && (forall r :: multiset(ranked)[r] == if r.tenant == tenant && IsNewest(raw, r) then multiset(raw)[r] else 0)
    && (forall i, j | 0 <= i < j < |ranked| :: ranked[i].finding.costHigh >= ranked[j].finding.costHigh)
  }

  lemma NewestIsLatest(raw: seq<RawRow>, tenant: int, r: RawRow)
    requires r in raw
    ensures IsLatest(raw, tenant, r) <==> r.tenant == tenant && IsNewest(raw, r)
  {
    hide LatestTime;
    LatestIsLatest(raw, tenant, r.clusterId);
  }

  lemma {:induction false} LatestCount(raw: seq<RawRow>, tenant: int, rows: seq<RawRow>, r: RawRow)
    ensures multiset(LatestRows(raw, tenant, rows))[r] == if IsLatest(raw, tenant, r) then multiset(rows)[r] else 0
  {
    hide IsLatest;
    if rows != [] {
      var front, last := rows[..|rows| - 1], rows[|rows| - 1];
      LatestCount(raw, tenant, front, r);
      assert rows == front + [last];
    }
  }

  lemma RankedListsNewest(raw: seq<RawRow>, tenant: int, ranked: seq<RawRow>)
    requires IsRanked(raw, tenant, ranked)
    ensures ListsNewest(raw, tenant, ranked)
  {
    hide IsLatest, IsNewest, LatestRows;
    forall r
      ensures multiset(ranked)[r] == if r.tenant == tenant && IsNewest(raw, r) then multiset(raw)[r] else 0
    {
      LatestCount(raw, tenant, raw, r);
      if r in raw {
        NewestIsLatest(raw, tenant, r);
      }
    }
  }

  /** What the view shows are the fields of the first of these rows. */
  lemma ViewAsStored(raw: seq<RawRow>, tenant: int, limit: int, out: seq<FindingRow>)
    requires IsView(raw, tenant, limit, out)
    ensures exists ranked: seq<RawRow> | ListsNewest(raw, tenant, ranked) ::
      && |out| == (if 0 <= limit < |ranked| then limit else |ranked|)
      && forall i | 0 <= i < |out| ::
           && out[i].finding == ranked[i].finding && out[i].clusterId == ranked[i].clusterId
           && out[i].reportedAt == ranked[i].reportedAt
  {
    hide IsRanked, ListsNewest;
    var ranked: seq<RawRow> :|
      && IsRanked(raw, tenant, ranked)
      && |out| == (if 0 <= limit < |ranked| then limit else |ranked|)
      && forall i | 0 <= i < |out| :: out[i] == RowOf(ranked[i]);
    RankedListsNewest(raw, tenant, ranked);
  }

  // ----- The view survives compaction -----

  lemma {:induction false} NewerLatest(raw: seq<RawRow>, tenant: int, clusterId: string, m: int)
    ensures LatestTime(raw, tenant, clusterId) >= m ==>
              LatestTime(Newer(raw, m), tenant, clusterId) == LatestTime(raw, tenant, clusterId)
    ensures LatestTime(raw, tenant, clusterId) < m ==> LatestTime(Newer(raw, m), tenant, clusterId) == 0
  {
    if raw != [] {
      var front, r := raw[..|raw| - 1], raw[|raw| - 1];
      NewerLatest(front, tenant, clusterId, m);
      if r.reportedAt < m {
        assert Newer(raw, m) == Newer(front, m);
      } else {
        assert (Newer(front, m) + [r])[..|Newer(front, m)|] == Newer(front, m);
      }
    }
  }

  /** Whether a cluster of the tenant still has a raw row at or after the cutoff. */
  predicate IsAlive(raw: seq<RawRow>, tenant: int, clusterId: string, m: int) {
    LatestTime(raw, tenant, clusterId) >= m
  }

  function OfAlive(raw: seq<RawRow>, tenant: int, m: int, rows: seq<RawRow>): seq<RawRow> {
    if rows == [] then []
    else
      var r := rows[|rows| - 1];
      OfAlive(raw, tenant, m, rows[..|rows| - 1]) + if IsAlive(raw, tenant, r.clusterId, m) then [r] else []
  }

  lemma LatestAfter(raw: seq<RawRow>, tenant: int, m: int, r: RawRow)
    requires r in raw
    ensures r.reportedAt >= m && IsLatest(Newer(raw, m), tenant, r)
       <==> IsLatest(raw, tenant, r) && IsAlive(raw, tenant, r.clusterId, m)
  {
    hide LatestTime;
    NewerLatest(raw, tenant, r.clusterId, m);
    LatestIsLatest(raw, tenant, r.clusterId);
    LatestIsLatest(Newer(raw, m), tenant, r.clusterId);
    FilterMembers(raw, m);
  }

  /** After a compaction the view holds the same rows in the same order for every cluster with a row at or after the
      cutoff, and no rows for any other. */
  lemma ViewAfterCompaction(raw: seq<RawRow>, tenant: int, m: int)
    ensures LatestRows(Newer(raw, m), tenant, Newer(raw, m)) == OfAlive(raw, tenant, m, LatestRows(raw, tenant, raw))
  {
    ViewOfSome(raw, tenant, m, raw);
  }

  lemma {:induction false} AliveCount(raw: seq<RawRow>, tenant: int, m: int, rows: seq<RawRow>, r: RawRow)
    ensures multiset(OfAlive(raw, tenant, m, rows))[r]
         == if IsAlive(raw, tenant, r.clusterId, m) then multiset(rows)[r] else 0
  {
    hide IsAlive;
    if rows != [] {
      var front, last := rows[..|rows| - 1], rows[|rows| - 1];
      AliveCount(raw, tenant, m, front, r);
      assert rows == front + [last];
    }
  }

  ghost predicate Falling(rows: seq<RawRow>) {
    forall i, j | 0 <= i < j < |rows| :: rows[i].finding.costHigh >= rows[j].finding.costHigh
  }

  lemma {:induction false} AliveFalls(raw: seq<RawRow>, tenant: int, m: int, rows: seq<RawRow>)
    requires Falling(rows)
    ensures Falling(OfAlive(raw, tenant, m, rows)) && forall r | r in OfAlive(raw, tenant, m, rows) :: r in rows
  {
    hide IsAlive;
    if rows != [] {
      var front, last := rows[..|rows| - 1], rows[|rows| - 1];
      AliveFalls(raw, tenant, m, front);
      assert rows == front + [last];
      forall r | r in front ensures r.finding.costHigh >= last.finding.costHigh {
        var k :| 0 <= k < |front| && front[k] == r;
        assert rows[k] == r && rows[|front|] == last;
      }
    }
  }

  lemma {:induction false} AlivePrefix(raw: seq<RawRow>, tenant: int, m: int, rows: seq<RawRow>, n: nat)
    requires n <= |rows|
    ensures OfAlive(raw, tenant, m, rows[..n]) <= OfAlive(raw, tenant, m, rows)
    ensures |OfAlive(raw, tenant, m, rows[..n])| <= n
    decreases |rows|
  {
    hide IsAlive;
    if n < |rows| {
      var front := rows[..|rows| - 1];
      AlivePrefix(raw, tenant, m, front, n);
      assert front[..n] == rows[..n];
    } else {
      assert rows[..n] == rows;
      if n > 0 {
        AlivePrefix(raw, tenant, m, rows[..n - 1], n - 1);
        assert rows[..n - 1][..n - 1] == rows[..n - 1];
      }
    }
  }

  /** With a limit: ranking the old rows and leaving out the dead clusters ranks the new ones. So every row of a living
      cluster that was shown stays, in its order and before all others; what it leaves free goes to rows that had been
      cut off. */
  lemma LimitedViewAfterCompaction(raw: seq<RawRow>, tenant: int, m: int, limit: int, ranked: seq<RawRow>)
    requires IsRanked(raw, tenant, ranked)
    ensures var alive, out := OfAlive(raw, tenant, m, ranked), FirstRows(OfAlive(raw, tenant, m, ranked), limit);
      && IsRanked(Newer(raw, m), tenant, alive) && IsView(Newer(raw, m), tenant, limit, out)
      && OfAlive(raw, tenant, m, ranked[..|FirstRows(ranked, limit)|]) <= alive[..|out|]
  {
    hide IsAlive, FirstRows, OfAlive, IsRanked, IsView;
    var alive, n := OfAlive(raw, tenant, m, ranked), |FirstRows(ranked, limit)|;
    AliveIsRanked(raw, tenant, m, ranked);
    RankedIsView(Newer(raw, m), tenant, limit, alive);
    AlivePrefix(raw, tenant, m, ranked, n);
    PrefixOfPrefix(OfAlive(raw, tenant, m, ranked[..n]), alive, |FirstRows(alive, limit)|);
  }

  lemma RankedIsView(raw: seq<RawRow>, tenant: int, limit: int, ranked: seq<RawRow>)
    requires IsRanked(raw, tenant, ranked)
    ensures IsView(raw, tenant, limit, FirstRows(ranked, limit))
  {
    hide IsRanked, FirstRows, RowOf;
  }

  lemma PrefixOfPrefix(kept: seq<RawRow>, alive: seq<RawRow>, n: nat)
    requires kept <= alive && |kept| <= n <= |alive|
    ensures kept <= alive[..n]
  {
    assert forall i | 0 <= i < |kept| :: kept[i] == alive[i];
  }

  lemma AliveIsRanked(raw: seq<RawRow>, tenant: int, m: int, ranked: seq<RawRow>)
    requires IsRanked(raw, tenant, ranked)
    ensures IsRanked(Newer(raw, m), tenant, OfAlive(raw, tenant, m, ranked))
  {
    hide IsAlive, OfAlive, LatestRows;
    ViewAfterCompaction(raw, tenant, m);
    AliveFalls(raw, tenant, m, ranked);
    var rows := LatestRows(raw, tenant, raw);
    forall r ensures multiset(OfAlive(raw, tenant, m, ranked))[r] == multiset(OfAlive(raw, tenant, m, rows))[r] {
      AliveCount(raw, tenant, m, ranked, r);
      AliveCount(raw, tenant, m, rows, r);
    }
  }

  lemma {:induction false} ViewOfSome(raw: seq<RawRow>, tenant: int, m: int, rows: seq<RawRow>)
    requires forall r | r in rows :: r in raw
    ensures LatestRows(Newer(raw, m), tenant, Newer(rows, m)) == OfAlive(raw, tenant, m, LatestRows(raw, tenant, rows))
  {
    if rows != [] {
      hide IsLatest, IsAlive, LatestRows, OfAlive, Newer;
      var front, r := rows[..|rows| - 1], rows[|rows| - 1];
      assert rows == front + [r];
      ViewOfSome(raw, tenant, m, front);
      NewerOneMore(front, r, m);
      LatestAfter(raw, tenant, m, r);
      ViewOneMore(raw, tenant, front, r);
      ViewOneMore(Newer(raw, m), tenant, Newer(front, m), r);
      AliveOneMore(raw, tenant, m, LatestRows(raw, tenant, front), r);
    }
  }

  lemma NewerOneMore(rows: seq<RawRow>, r: RawRow, m: int)
    ensures Newer(rows + [r], m) == if r.reportedAt < m then Newer(rows, m) else Newer(rows, m) + [r]
  {
    assert (rows + [r])[..|rows|] == rows;
  }

  lemma ViewOneMore(raw: seq<RawRow>, tenant: int, rows: seq<RawRow>, r: RawRow)
    ensures LatestRows(raw, tenant, rows + [r])
         == if IsLatest(raw, tenant, r) then LatestRows(raw, tenant, rows) + [r] else LatestRows(raw, tenant, rows)
  {
    assert (rows + [r])[..|rows|] == rows;
  }

  lemma AliveOneMore(raw: seq<RawRow>, tenant: int, m: int, rows: seq<RawRow>, r: RawRow)
    ensures OfAlive(raw, tenant, m, rows + [r])
         == if IsAlive(raw, tenant, r.clusterId, m) then OfAlive(raw, tenant, m, rows) + [r]
            else OfAlive(raw, tenant, m, rows)
  {
    assert (rows + [r])[..|rows|] == rows;
  }
}
