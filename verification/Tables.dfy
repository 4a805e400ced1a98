/** The two flow tables, what one daily rollup row stands for, and compaction as a function on them. */
module Tables {
  import opened Findings
  import opened Sums

  datatype RawRow = RawRow(tenant: int, clusterId: string, reportedAt: nat, finding: Finding)

  datatype DailyKey = DailyKey(tenant: int, clusterId: string, day: nat, source: string, destination: string,
                               pathClass: string)

  /** The seven measures of a rollup row. */
  datatype Totals = Totals(
    bytesTx: nat, bytesRx: nat, costLow: real, costHigh: real, savingsLow: real, savingsHigh: real, samples: nat)

  /** `flow_aggregate` and `flow_aggregate_daily`, the latter by its unique key. */
  datatype Db = Db(raw: seq<RawRow>, daily: map<DailyKey, Totals>)

  /** The UTC midnight at or before a timestamp. */
  function DayOf(t: nat): (day: nat)
    ensures day <= t < day + 86400
  {
    t / 86400 * 86400
  }

  function KeyOf(r: RawRow): DailyKey {
    DailyKey(r.tenant, r.clusterId, DayOf(r.reportedAt), r.finding.source, r.finding.destination, r.finding.pathClass)
  }

  function Nothing(): Totals {
    Totals(0, 0, 0.0, 0.0, 0.0, 0.0, 0)
  }

  function Plus(a: Totals, b: Totals): Totals {
    Totals(a.bytesTx + b.bytesTx, a.bytesRx + b.bytesRx, a.costLow + b.costLow, a.costHigh + b.costHigh,
           a.savingsLow + b.savingsLow, a.savingsHigh + b.savingsHigh, a.samples + b.samples)
  }

  function MeasuresOf(r: RawRow): Totals {
    Totals(r.finding.bytesTx, r.finding.bytesRx, r.finding.costLow, r.finding.costHigh,
           r.finding.savingsLow, r.finding.savingsHigh, 1)
  }

  function At(daily: map<DailyKey, Totals>, k: DailyKey): Totals {
    if k in daily then daily[k] else Nothing()
  }

  /** `INSERT ... ON CONFLICT DO UPDATE`: accumulate onto the row of key `k`. */
  function Upsert(daily: map<DailyKey, Totals>, k: DailyKey, t: Totals): map<DailyKey, Totals> {
    daily[k := Plus(At(daily, k), t)]
  }

  /** Everything the given rows say about one daily key. */
  function TotalFor(rows: seq<RawRow>, k: DailyKey): Totals {
    if rows == [] then Nothing()
    else
      var r := rows[|rows| - 1];
      Plus(TotalFor(rows[..|rows| - 1], k), if KeyOf(r) == k then MeasuresOf(r) else Nothing())
  }

  function Keys(rows: seq<RawRow>): set<DailyKey> {
    if rows == [] then {} else Keys(rows[..|rows| - 1]) + {KeyOf(rows[|rows| - 1])}
  }

  function Older(rows: seq<RawRow>, cutoff: int): seq<RawRow> {
    if rows == [] then []
    else
      var r := rows[|rows| - 1];
      Older(rows[..|rows| - 1], cutoff) + if r.reportedAt < cutoff then [r] else []
  }

  function Newer(rows: seq<RawRow>, cutoff: int): seq<RawRow> {
    if rows == [] then []
    else
      var r := rows[|rows| - 1];
      Newer(rows[..|rows| - 1], cutoff) + if r.reportedAt < cutoff then [] else [r]
  }

  /** The rollup with the given rows added to it. */
  function Rollup(daily: map<DailyKey, Totals>, rows: seq<RawRow>): map<DailyKey, Totals> {
    map k | k in daily.Keys + Keys(rows) :: Plus(At(daily, k), TotalFor(rows, k))
  }

  /** The rollup of some rows on their own. */
  function RollupOf(rows: seq<RawRow>): map<DailyKey, Totals> {
    map k | k in Keys(rows) :: TotalFor(rows, k)
  }

  /** What a committed compaction leaves: old rows folded, the others untouched. */
  function Compacted(db: Db, cutoff: int): Db {
    Db(Newer(db.raw, cutoff), Rollup(db.daily, Older(db.raw, cutoff)))
  }

  // ----- Costs of some of the rows -----

  /** What the rows of one kind cost together. */
  function CostWhere(rows: seq<RawRow>, p: RawRow -> bool): real {
    if rows == [] then 0.0
    else
      var r := rows[|rows| - 1];
      CostWhere(rows[..|rows| - 1], p) + if p(r) then r.finding.costHigh else 0.0
  }

  lemma CostOneMore(rows: seq<RawRow>, r: RawRow, p: RawRow -> bool)
    ensures CostWhere(rows + [r], p) == CostWhere(rows, p) + if p(r) then r.finding.costHigh else 0.0
  {
    assert (rows + [r])[..|rows|] == rows;
  }

  lemma CostMaybeOneMore(rows: seq<RawRow>, r: RawRow, present: bool, p: RawRow -> bool)
    ensures CostWhere(rows + if present then [r] else [], p)
         == CostWhere(rows, p) + if present && p(r) then r.finding.costHigh else 0.0
  {
    if present {
      CostOneMore(rows, r, p);
    } else {
      assert rows + [] == rows;
    }
  }

  /** Two disjoint kinds. */
  lemma {:induction false} CostSplits(rows: seq<RawRow>, either: RawRow -> bool, p: RawRow -> bool, q: RawRow -> bool)
    requires forall r | r in rows :: either(r) == (p(r) || q(r)) && !(p(r) && q(r))
    ensures CostWhere(rows, either) == CostWhere(rows, p) + CostWhere(rows, q)
  {
    if rows != [] {
      assert rows[|rows| - 1] in rows;
      CostSplits(rows[..|rows| - 1], either, p, q);
    }
  }

  lemma {:induction false} CostCongruence(rows: seq<RawRow>, p: RawRow -> bool, q: RawRow -> bool)
    requires forall r | r in rows :: p(r) == q(r)
    ensures CostWhere(rows, p) == CostWhere(rows, q)
  {
    if rows != [] {
      assert rows[|rows| - 1] in rows;
      CostCongruence(rows[..|rows| - 1], p, q);
    }
  }

  lemma {:induction false} CostOfNone(rows: seq<RawRow>, p: RawRow -> bool)
    requires forall r | r in rows :: !p(r)
    ensures CostWhere(rows, p) == 0.0
  {
    if rows != [] {
      assert rows[|rows| - 1] in rows;
      CostOfNone(rows[..|rows| - 1], p);
    }
  }

  function Below(cutoff: int, p: RawRow -> bool): RawRow -> bool {
    (r: RawRow) => r.reportedAt < cutoff && p(r)
  }

  function NotBelow(cutoff: int, p: RawRow -> bool): RawRow -> bool {
    (r: RawRow) => r.reportedAt >= cutoff && p(r)
  }

  lemma FilterLast(rows: seq<RawRow>, front: seq<RawRow>, r: RawRow, cutoff: int)
    requires rows != [] && front == rows[..|rows| - 1] && r == rows[|rows| - 1]
    ensures Older(rows, cutoff) == Older(front, cutoff) + if r.reportedAt < cutoff then [r] else []
    ensures Newer(rows, cutoff) == Newer(front, cutoff) + if r.reportedAt >= cutoff then [r] else []
  {
  }

  lemma {:induction false} CostFiltered(rows: seq<RawRow>, cutoff: int, p: RawRow -> bool)
    ensures CostWhere(Older(rows, cutoff), p) == CostWhere(rows, Below(cutoff, p))
    ensures CostWhere(Newer(rows, cutoff), p) == CostWhere(rows, NotBelow(cutoff, p))
  {
    if rows == [] {
      assert Older(rows, cutoff) == Newer(rows, cutoff) == [];
    } else {
      hide Older, Newer;
      var front, r := rows[..|rows| - 1], rows[|rows| - 1];
      CostFiltered(front, cutoff, p);
      FilterLast(rows, front, r, cutoff);
      CostMaybeOneMore(Older(front, cutoff), r, r.reportedAt < cutoff, p);
      CostMaybeOneMore(Newer(front, cutoff), r, r.reportedAt >= cutoff, p);
    }
  }

  // ----- The rollup -----

  lemma {:induction false} TotalForOthers(rows: seq<RawRow>, k: DailyKey)
    requires k !in Keys(rows)
    ensures TotalFor(rows, k) == Nothing()
  {
    if rows != [] {
      TotalForOthers(rows[..|rows| - 1], k);
    }
  }

  lemma OneMoreRow(rows: seq<RawRow>, r: RawRow, k: DailyKey)
    ensures TotalFor(rows + [r], k) == Plus(TotalFor(rows, k), if KeyOf(r) == k then MeasuresOf(r) else Nothing())
  {
    assert (rows + [r])[..|rows|] == rows;
  }

  lemma KeysOfMore(rows: seq<RawRow>, r: RawRow)
    ensures Keys(rows + [r]) == Keys(rows) + {KeyOf(r)}
  {
    assert (rows + [r])[..|rows|] == rows;
  }

  lemma FilterOneMore(rows: seq<RawRow>, r: RawRow, cutoff: int)
    ensures Older(rows + [r], cutoff) == Older(rows, cutoff) + if r.reportedAt < cutoff then [r] else []
    ensures Newer(rows + [r], cutoff) == Newer(rows, cutoff) + if r.reportedAt < cutoff then [] else [r]
  {
    assert (rows + [r])[..|rows|] == rows;
  }

  lemma {:induction false} FilterMembers(rows: seq<RawRow>, cutoff: int)
    ensures forall r :: r in Older(rows, cutoff) <==> r in rows && r.reportedAt < cutoff
    ensures forall r :: r in Newer(rows, cutoff) <==> r in rows && r.reportedAt >= cutoff
    ensures |Older(rows, cutoff)| + |Newer(rows, cutoff)| == |rows|
  {
    if rows != [] {
      FilterMembers(rows[..|rows| - 1], cutoff);
      assert forall x :: x in rows <==> x in rows[..|rows| - 1] || x == rows[|rows| - 1];
    }
  }

  lemma PlusNothing(a: Totals)
    ensures Plus(a, Nothing()) == a == Plus(Nothing(), a)
  {
  }

  lemma SameRollup(a: map<DailyKey, Totals>, b: map<DailyKey, Totals>)
    requires a.Keys == b.Keys
    requires forall k | k in a :: At(a, k) == At(b, k)
    ensures a == b
  {
    forall k | k in a ensures a[k] == b[k] {
      assert At(a, k) == At(b, k);
    }
  }

  lemma RollupAt(rows: seq<RawRow>, k: DailyKey)
    ensures At(RollupOf(rows), k) == TotalFor(rows, k)
  {
    if k !in Keys(rows) {
      TotalForOthers(rows, k);
    }
  }

  /** Adding a row to the rollup of some rows is one upsert. */
  lemma RollupOneMore(rows: seq<RawRow>, r: RawRow, key: DailyKey, m: Totals)
    requires key == KeyOf(r) && m == MeasuresOf(r)
    ensures RollupOf(rows + [r]) == Upsert(RollupOf(rows), key, m)
  {
    KeysOfMore(rows, r);
    forall k | k in Keys(rows + [r]) ensures At(RollupOf(rows + [r]), k) == At(Upsert(RollupOf(rows), key, m), k) {
      if k == key {
        OneMoreOfKey(rows, r, key, m);
      } else {
        OneMoreOfOther(rows, r, k);
      }
    }
    SameRollup(RollupOf(rows + [r]), Upsert(RollupOf(rows), key, m));
  }

  lemma OneMoreOfKey(rows: seq<RawRow>, r: RawRow, key: DailyKey, m: Totals)
    requires key == KeyOf(r) && m == MeasuresOf(r)
    ensures TotalFor(rows + [r], key) == Plus(At(RollupOf(rows), key), m)
  {
    OneMoreRow(rows, r, key);
    RollupAt(rows, key);
  }

  lemma OneMoreOfOther(rows: seq<RawRow>, r: RawRow, k: DailyKey)
    requires k != KeyOf(r)
    ensures TotalFor(rows + [r], k) == TotalFor(rows, k)
  {
    OneMoreRow(rows, r, k);
    PlusNothing(TotalFor(rows, k));
  }

  /** What one rollup row of some kind costs. */
  ghost function DailyCost(daily: map<DailyKey, Totals>, p: DailyKey -> bool): DailyKey -> real {
    k => if k in daily && p(k) then daily[k].costHigh else 0.0
  }

  function OnKey(p: DailyKey -> bool): RawRow -> bool {
    r => p(KeyOf(r))
  }

  lemma UpsertCost(daily: map<DailyKey, Totals>, key: DailyKey, m: Totals, p: DailyKey -> bool)
    ensures var after := Upsert(daily, key, m);
      Sum(after.Keys, DailyCost(after, p)) == Sum(daily.Keys, DailyCost(daily, p)) + if p(key) then m.costHigh else 0.0
  {
    var after := Upsert(daily, key, m);
    assert after.Keys == daily.Keys + {key};
    SumAddAt(daily.Keys, DailyCost(daily, p), DailyCost(after, p), key, if p(key) then m.costHigh else 0.0);
  }

  /** Rolling rows up keeps the cost of every kind that a daily key can tell apart. */
  lemma {:induction false} RollupCost(rows: seq<RawRow>, p: DailyKey -> bool)
    ensures var daily := RollupOf(rows);
      Sum(daily.Keys, DailyCost(daily, p)) == CostWhere(rows, OnKey(p))
  {
    if rows == [] {
      assert RollupOf(rows).Keys == {};
    } else {
      hide RollupOf, Upsert;
      var front, r := rows[..|rows| - 1], rows[|rows| - 1];
      RollupCost(front, p);
      assert rows == front + [r];
      CostOneMore(front, r, OnKey(p));
      var key, m := KeyOf(r), MeasuresOf(r);
      RollupOneMore(front, r, key, m);
      UpsertCost(RollupOf(front), key, m, p);
    }
  }

  /** Merging a rollup of some rows into the daily table. */
  lemma MergeAt(daily: map<DailyKey, Totals>, rows: seq<RawRow>, k: DailyKey)
    ensures At(Rollup(daily, rows), k) == Plus(At(daily, k), TotalFor(rows, k))
    ensures k !in Keys(rows) ==> At(Rollup(daily, rows), k) == At(daily, k)
  {
    if k !in Keys(rows) {
      TotalForOthers(rows, k);
      if k in daily {
        PlusNothing(daily[k]);
      }
    }
  }
}
