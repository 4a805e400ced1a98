/** What the store can still tell about traffic to one destination, and that compaction never loses any of it. */
module History {
  import opened Compaction
  import opened MeasureRuns
  import opened StoreRuns
  import opened Sums
  import opened Tables
  import opened Text

  datatype HistoricalFlowCost = HistoricalFlowCost(source: string, costHigh: real)

  /** The `WHERE` clause of the lookup. */
  datatype Lookup = Lookup(tenant: int, clusterId: string, destination: string)

  predicate Matches(r: RawRow, q: Lookup) {
    r.tenant == q.tenant && r.clusterId == q.clusterId && r.finding.destination == q.destination
  }

  predicate KeyMatches(k: DailyKey, q: Lookup) {
    k.tenant == q.tenant && k.clusterId == q.clusterId && k.destination == q.destination
  }

  /** What raw rows say one source paid toward the destination. */
  function RowCost(rows: seq<RawRow>, q: Lookup, source: string): real {
    CostWhere(rows, PaidBy(q, source))
  }

  function PaidBy(q: Lookup, source: string): RawRow -> bool {
    (r: RawRow) => Matches(r, q) && r.finding.source == source
  }

  function RowSources(rows: seq<RawRow>, q: Lookup): set<string> {
    if rows == [] then {}
    else
      var r := rows[|rows| - 1];
      RowSources(rows[..|rows| - 1], q) + if Matches(r, q) then {r.finding.source} else {}
  }

  /** What one rollup row adds to the cost of a source. */
  ghost function KeyCost(daily: map<DailyKey, Totals>, q: Lookup, source: string): DailyKey -> real {
    DailyCost(daily, KeyPaidBy(q, source))
  }

  function KeyPaidBy(q: Lookup, source: string): DailyKey -> bool {
    (k: DailyKey) => KeyMatches(k, q) && k.source == source
  }

  ghost function KeySources(keys: set<DailyKey>, q: Lookup): set<string> {
    set k | k in keys && KeyMatches(k, q) :: k.source
  }

  /** Both tiers together. */
  ghost function HistoricalCost(db: Db, q: Lookup, source: string): real {
    RowCost(db.raw, q, source) + Sum(db.daily.Keys, KeyCost(db.daily, q, source))
  }

  ghost function HistoricalSources(db: Db, q: Lookup): set<string> {
    RowSources(db.raw, q) + KeySources(db.daily.Keys, q)
  }

  /** An answer to the lookup: every source with history once, with its summed cost, in any order. */
  ghost predicate IsHistory(db: Db, q: Lookup, out: seq<HistoricalFlowCost>) {
    && (forall i, j | 0 <= i < j < |out| :: out[i].source != out[j].source)
    && (forall i | 0 <= i < |out| ::
         out[i].source in HistoricalSources(db, q) && out[i].costHigh == HistoricalCost(db, q, out[i].source))
    && (forall s | s in HistoricalSources(db, q) :: exists i | 0 <= i < |out| :: out[i].source == s)
  }

  // ----- The query -----

  function Cost(sums: map<string, real>, s: string): real {
    if s in sums then sums[s] else 0.0
  }

  function AddTo(sums: map<string, real>, s: string, cost: real): map<string, real> {
    sums[s := Cost(sums, s) + cost]
  }

  lemma OneMoreRowSummed(rows: seq<RawRow>, r: RawRow, q: Lookup)
    ensures RowSources(rows + [r], q) == RowSources(rows, q) + if Matches(r, q) then {r.finding.source} else {}
    ensures forall s :: RowCost(rows + [r], q, s)
              == RowCost(rows, q, s) + if Matches(r, q) && r.finding.source == s then r.finding.costHigh else 0.0
  {
    MaybeOneMoreSource(rows, r, true, q);
    forall s ensures RowCost(rows + [r], q, s)
              == RowCost(rows, q, s) + if Matches(r, q) && r.finding.source == s then r.finding.costHigh else 0.0
    {
      CostOneMore(rows, r, PaidBy(q, s));
    }
  }

  method SumRawRows(raw: seq<RawRow>, q: Lookup) returns (sums: map<string, real>)
    ensures sums.Keys == RowSources(raw, q)
    ensures forall s :: Cost(sums, s) == RowCost(raw, q, s)
  {
    hide Matches;
    sums := map[];
    for i := 0 to |raw|
      invariant sums.Keys == RowSources(raw[..i], q)
      invariant forall s :: Cost(sums, s) == RowCost(raw[..i], q, s)
    {
      assert raw[..i + 1] == raw[..i] + [raw[i]];
      OneMoreRowSummed(raw[..i], raw[i], q);
      if Matches(raw[i], q) {
        sums := AddTo(sums, raw[i].finding.source, raw[i].finding.costHigh);
      }
    }
    assert raw[..|raw|] == raw;
  }

  /** The sums once all raw rows and the rollup rows of `done` are in. */
  ghost predicate Summed(sums: map<string, real>, db: Db, done: set<DailyKey>, q: Lookup) {
    && sums.Keys == RowSources(db.raw, q) + KeySources(done, q)
    && forall s :: Cost(sums, s) == RowCost(db.raw, q, s) + Sum(done, KeyCost(db.daily, q, s))
  }

  lemma OneMoreKey(sums: map<string, real>, db: Db, done: set<DailyKey>, k: DailyKey, q: Lookup)
    requires Summed(sums, db, done, q) && k in db.daily && k !in done
    ensures Summed(if KeyMatches(k, q) then AddTo(sums, k.source, db.daily[k].costHigh) else sums, db, done + {k}, q)
  {
    hide RowCost, RowSources;
    assert KeySources(done + {k}, q) == KeySources(done, q) + if KeyMatches(k, q) then {k.source} else {};
    forall s
      ensures Sum(done + {k}, KeyCost(db.daily, q, s))
           == Sum(done, KeyCost(db.daily, q, s)) + KeyCost(db.daily, q, s)(k)
    {
      SumSplit(done + {k}, KeyCost(db.daily, q, s), k);
      assert done + {k} - {k} == done;
    }
  }

  /** `UNION ALL` with the rollup rows, summed per source. */
  method HistoricalFlowsToDestination(store: Store, tenant: int, clusterId: string, destination: string)
    returns (out: seq<HistoricalFlowCost>)
    ensures IsHistory(store.Contents(), Lookup(tenant, clusterId, destination), out)
  {
    var q := Lookup(tenant, clusterId, destination);
    var sums := SumRawRows(store.raw, q);
    sums := SumDailyRows(Db(store.raw, store.daily), q, sums);
    var sources := Elements(sums.Keys);
    out := SumListing(sums, sources);
  }

  method SumDailyRows(db: Db, q: Lookup, rawSums: map<string, real>) returns (sums: map<string, real>)
    requires Summed(rawSums, db, {}, q)
    ensures Summed(sums, db, db.daily.Keys, q)
  {
    hide Summed, KeyMatches;
    sums := rawSums;
    var rest, done: set<DailyKey> := db.daily.Keys, {};
    while rest != {}
      invariant rest + done == db.daily.Keys && rest !! done
      invariant Summed(sums, db, done, q)
      decreases |rest|
    {
      var k :| k in rest;
      OneMoreKey(sums, db, done, k, q);
      if KeyMatches(k, q) {
        sums := AddTo(sums, k.source, db.daily[k].costHigh);
      }
      rest, done := rest - {k}, done + {k};
    }
    assert done == db.daily.Keys;
  }

  function SumListing(sums: map<string, real>, sources: seq<string>): (out: seq<HistoricalFlowCost>)
    requires multiset(sources) == multiset(sums.Keys)
    ensures |out| == |sources|
    ensures forall i | 0 <= i < |out| :: out[i].source in sums && out[i].costHigh == sums[out[i].source]
    ensures forall i, j | 0 <= i < j < |out| :: out[i].source != out[j].source
    ensures forall s | s in sums :: exists i | 0 <= i < |out| :: out[i].source == s
  {
    ListingHasNoRepeats(sources, sums.Keys);
    var out := seq(|sources|, i requires 0 <= i < |sources| => HistoricalFlowCost(sources[i], sums[sources[i]]));
    assert forall i | 0 <= i < |sources| :: out[i].source == sources[i];
    out
  }

  // ----- Compaction loses nothing -----

  lemma PaidByKey(rows: seq<RawRow>, q: Lookup, source: string)
    ensures RowCost(rows, q, source) == CostWhere(rows, OnKey(KeyPaidBy(q, source)))
  {
    forall r ensures PaidBy(q, source)(r) == OnKey(KeyPaidBy(q, source))(r) {
      assert KeyPaidBy(q, source)(KeyOf(r)) == (Matches(r, q) && r.finding.source == source);
    }
    CostCongruence(rows, PaidBy(q, source), OnKey(KeyPaidBy(q, source)));
  }

  lemma {:induction false} RollupSources(rows: seq<RawRow>, q: Lookup)
    ensures KeySources(Keys(rows), q) == RowSources(rows, q)
  {
    if rows != [] {
      RollupSources(rows[..|rows| - 1], q);
      var keys, key := Keys(rows[..|rows| - 1]), KeyOf(rows[|rows| - 1]);
      assert KeySources(keys + {key}, q) == KeySources(keys, q) + if KeyMatches(key, q) then {key.source} else {};
    }
  }

  lemma {:induction false} LogSplitsSources(log: seq<Entry>, q: Lookup)
    ensures RowSources(FoldedRows(log), q) + RowSources(Unfolded(log), q) == RowSources(AllRows(log), q)
  {
    if log == [] {
      assert AllRows(log) == FoldedRows(log) == Unfolded(log) == [];
    } else {
      hide RowSources, AllRows, FoldedRows, Unfolded, Matches;
      var front, e := log[..|log| - 1], log[|log| - 1];
      assert log == front + [e];
      LogSplitsSources(front, q);
      LastShares(log, front, e);
      MaybeOneMoreSource(AllRows(front), e.row, true, q);
      MaybeOneMoreSource(FoldedRows(front), e.row, e.folded, q);
      MaybeOneMoreSource(Unfolded(front), e.row, !e.folded, q);
    }
  }

  lemma MaybeOneMoreSource(rows: seq<RawRow>, r: RawRow, present: bool, q: Lookup)
    ensures RowSources(rows + if present then [r] else [], q) == RowSources(rows, q)
              + if present && Matches(r, q) then {r.finding.source} else {}
  {
    if present {
      assert (rows + [r])[..|rows|] == rows;
    } else {
      assert rows + [] == rows;
    }
  }

  /** After any run the lookup sees exactly the history of everything ever ingested. */
  lemma HistoryIsComplete(steps: seq<Step>, q: Lookup, source: string)
    ensures var w := Run(steps);
      && HistoricalCost(w.db, q, source) == RowCost(AllRows(w.log), q, source)
      && HistoricalSources(w.db, q) == RowSources(AllRows(w.log), q)
  {
    var w := Run(steps);
    RunIsFaithful(steps);
    RollupCost(FoldedRows(w.log), KeyPaidBy(q, source));
    PaidByKey(FoldedRows(w.log), q, source);
    RollupSources(FoldedRows(w.log), q);
    assert w.db.daily.Keys == Keys(FoldedRows(w.log));
    LogSplitsCost(w.log, PaidBy(q, source));
    LogSplitsSources(w.log, q);
  }

  // ----- The answer, by what was ingested -----

  /** A row says that the source talked to the destination. */
  predicate Toward(r: RawRow, tenant: int, clusterId: string, source: string, destination: string) {
    && r.tenant == tenant && r.clusterId == clusterId
    && r.finding.source == source && r.finding.destination == destination
  }

  predicate Talked(rows: seq<RawRow>, tenant: int, clusterId: string, source: string, destination: string) {
    exists r | r in rows :: Toward(r, tenant, clusterId, source, destination)
  }

  predicate Lists(out: seq<HistoricalFlowCost>, source: string) {
    exists i | 0 <= i < |out| :: out[i].source == source
  }

  lemma {:induction false} SourcesAreRows(rows: seq<RawRow>, q: Lookup, source: string)
    ensures source in RowSources(rows, q) <==> Talked(rows, q.tenant, q.clusterId, source, q.destination)
  {
    if rows != [] {
      var front, last := rows[..|rows| - 1], rows[|rows| - 1];
      SourcesAreRows(front, q, source);
      assert rows == front + [last];
      assert Matches(last, q) && last.finding.source == source
        <==> Toward(last, q.tenant, q.clusterId, source, q.destination);
    }
  }

  lemma PaidIsToward(rows: seq<RawRow>, q: Lookup, source: string)
    ensures RowCost(rows, q, source)
         == CostWhere(rows, (r: RawRow) => Toward(r, q.tenant, q.clusterId, source, q.destination))
  {
    CostCongruence(rows, PaidBy(q, source),
                   (r: RawRow) => Toward(r, q.tenant, q.clusterId, source, q.destination));
  }

  /** After any run the lookup answers with exactly the sources that were ever ingested as talking to the destination,
      each once, and with all they ever cost. */
  lemma AnswerAsIngested(steps: seq<Step>, tenant: int, clusterId: string, destination: string,
                         out: seq<HistoricalFlowCost>)
    requires IsHistory(Run(steps).db, Lookup(tenant, clusterId, destination), out)
    ensures forall source :: Lists(out, source) <==> Talked(Ingested(steps), tenant, clusterId, source, destination)
    ensures forall i | 0 <= i < |out| ::
      out[i].costHigh ==
        CostWhere(Ingested(steps), (r: RawRow) => Toward(r, tenant, clusterId, out[i].source, destination))
    ensures forall i, j | 0 <= i < j < |out| :: out[i].source != out[j].source
  {
    hide Run, HistoricalCost, HistoricalSources, RowSources, RowCost, CostWhere, Toward, AllRows, Talked;
    var q := Lookup(tenant, clusterId, destination);
    LogIsIngested(steps);
    forall source
      ensures Lists(out, source) <==> Talked(Ingested(steps), tenant, clusterId, source, destination)
      ensures HistoricalCost(Run(steps).db, q, source) ==
                CostWhere(Ingested(steps), (r: RawRow) => Toward(r, tenant, clusterId, source, destination))
    {
      HistoryIsComplete(steps, q, source);
      SourcesAreRows(Ingested(steps), q, source);
      PaidIsToward(Ingested(steps), q, source);
    }
  }
}
