/** Conservation spelled out: each measure of a daily row is a sum over one field of the rows of that day. */
module MeasureRuns {
  import opened Compaction
  import opened Findings
  import opened StoreRuns
  import opened Tables

  /** The rows a daily key stands for: of its tenant, cluster, pair and class, reported on its UTC day. */
  predicate IsOf(r: RawRow, k: DailyKey) {
    && r.tenant == k.tenant && r.clusterId == k.clusterId
    && r.finding.source == k.source && r.finding.destination == k.destination && r.finding.pathClass == k.pathClass
    && k.day % 86400 == 0 && k.day <= r.reportedAt < k.day + 86400
  }

  lemma IsOfItsKey(r: RawRow, k: DailyKey)
    ensures KeyOf(r) == k <==> IsOf(r, k)
  {
  }

  function SumInt(rows: seq<RawRow>, k: DailyKey, field: Finding -> int): int {
    if rows == [] then 0
    else
      var r := rows[|rows| - 1];
      SumInt(rows[..|rows| - 1], k, field) + if IsOf(r, k) then field(r.finding) else 0
  }

  function SumReal(rows: seq<RawRow>, k: DailyKey, field: Finding -> real): real {
    if rows == [] then 0.0
    else
      var r := rows[|rows| - 1];
      SumReal(rows[..|rows| - 1], k, field) + if IsOf(r, k) then field(r.finding) else 0.0
  }

  function BytesTx(rows: seq<RawRow>, k: DailyKey): int {
    SumInt(rows, k, (x: Finding) => x.bytesTx)
  }

  function BytesRx(rows: seq<RawRow>, k: DailyKey): int {
    SumInt(rows, k, (x: Finding) => x.bytesRx)
  }

  function CostLow(rows: seq<RawRow>, k: DailyKey): real {
    SumReal(rows, k, (x: Finding) => x.costLow)
  }

  function CostHigh(rows: seq<RawRow>, k: DailyKey): real {
    SumReal(rows, k, (x: Finding) => x.costHigh)
  }

  function SavingsLow(rows: seq<RawRow>, k: DailyKey): real {
    SumReal(rows, k, (x: Finding) => x.savingsLow)
  }

  function SavingsHigh(rows: seq<RawRow>, k: DailyKey): real {
    SumReal(rows, k, (x: Finding) => x.savingsHigh)
  }

  function Samples(rows: seq<RawRow>, k: DailyKey): int {
    SumInt(rows, k, (x: Finding) => 1)
  }

  lemma {:induction false} TotalsAreSums(rows: seq<RawRow>, k: DailyKey)
    ensures var t := TotalFor(rows, k);
      && t.bytesTx == BytesTx(rows, k) && t.bytesRx == BytesRx(rows, k)
      && t.costLow == CostLow(rows, k) && t.costHigh == CostHigh(rows, k)
      && t.savingsLow == SavingsLow(rows, k) && t.savingsHigh == SavingsHigh(rows, k)
      && t.samples == Samples(rows, k)
  {
    if rows != [] {
      TotalsAreSums(rows[..|rows| - 1], k);
      IsOfItsKey(rows[|rows| - 1], k);
      hide KeyOf, IsOf;
    }
  }

  // ----- What a table holds for a key -----

  /** One row of the daily table, with zeros for a missing one, and the sums of the raw rows. */
  ghost predicate Holds(db: Db, k: DailyKey, tx: int, rx: int, low: real, high: real, saveLow: real, saveHigh: real,
                        samples: int) {
    var t := if k in db.daily then db.daily[k] else Totals(0, 0, 0.0, 0.0, 0.0, 0.0, 0);
    && t.bytesTx + BytesTx(db.raw, k) == tx && t.bytesRx + BytesRx(db.raw, k) == rx
    && t.costLow + CostLow(db.raw, k) == low && t.costHigh + CostHigh(db.raw, k) == high
    && t.savingsLow + SavingsLow(db.raw, k) == saveLow && t.savingsHigh + SavingsHigh(db.raw, k) == saveHigh
    && t.samples + Samples(db.raw, k) == samples
  }

  /** Everything a run was told to ingest, in order. */
  function Ingested(steps: seq<Step>): seq<RawRow> {
    if steps == [] then []
    else
      var before := Ingested(steps[..|steps| - 1]);
      match steps[|steps| - 1]
      case IngestStep(tenant, clusterId, now, findings) =>
        before + seq(|findings|, i requires 0 <= i < |findings| => RawRow(tenant, clusterId, now, findings[i]))
      case CompactStep(_) => before
      case AbortedStep => before
  }

  lemma {:induction false} LogIsIngested(steps: seq<Step>)
    ensures AllRows(Run(steps).log) == Ingested(steps)
  {
    if steps != [] {
      LogIsIngested(steps[..|steps| - 1]);
      var w := Run(steps[..|steps| - 1]);
      match steps[|steps| - 1]
      case IngestStep(tenant, clusterId, now, findings) =>
        AllRowsGrow(w.log, Snapshot(tenant, clusterId, now, findings));
      case CompactStep(cutoff) => AllRowsMarked(w.log, cutoff);
      case AbortedStep =>
    }
  }

  lemma AllRowsMarked(log: seq<Entry>, cutoff: int)
    ensures AllRows(Mark(log, cutoff)) == AllRows(log)
  {
  }

  /** After any run, for each daily key and each measure on its own: the daily row plus the raw rows is the sum of that
      field over everything ever ingested for the key. */
  lemma EachMeasureIsConserved(steps: seq<Step>, k: DailyKey)
    ensures var all := Ingested(steps);
      Holds(Run(steps).db, k, BytesTx(all, k), BytesRx(all, k), CostLow(all, k), CostHigh(all, k),
            SavingsLow(all, k), SavingsHigh(all, k), Samples(all, k))
  {
    hide Run, BytesTx, BytesRx, CostLow, CostHigh, SavingsLow, SavingsHigh, Samples, TotalFor;
    LogIsIngested(steps);
    Conservation(steps, k);
    TotalsAreSums(Run(steps).db.raw, k);
    TotalsAreSums(Ingested(steps), k);
  }

  /** One committed compaction, on any tables: exactly the rows below the cutoff leave the raw table, and no key loses
      or gains anything in any measure. */
  lemma CompactionMovesEachMeasure(db: Db, cutoff: int, k: DailyKey)
    ensures var t := if k in db.daily then db.daily[k] else Totals(0, 0, 0.0, 0.0, 0.0, 0.0, 0);
      Holds(Compacted(db, cutoff), k, t.bytesTx + BytesTx(db.raw, k), t.bytesRx + BytesRx(db.raw, k),
            t.costLow + CostLow(db.raw, k), t.costHigh + CostHigh(db.raw, k), t.savingsLow + SavingsLow(db.raw, k),
            t.savingsHigh + SavingsHigh(db.raw, k), t.samples + Samples(db.raw, k))
    ensures forall r ::
      multiset(Compacted(db, cutoff).raw)[r] == if r.reportedAt < cutoff then 0 else multiset(db.raw)[r]
  {
    hide BytesTx, BytesRx, CostLow, CostHigh, SavingsLow, SavingsHigh, Samples, TotalFor, Rollup, Older, Newer,
      Plus, Holds;
    forall r ensures multiset(Newer(db.raw, cutoff))[r] == if r.reportedAt < cutoff then 0 else multiset(db.raw)[r] {
      NewerCount(db.raw, cutoff, r);
    }
    MergeAt(db.daily, Older(db.raw, cutoff), k);
    SplitTotals(db.raw, cutoff, k);
    MovedTotals(db, Compacted(db, cutoff), k, TotalFor(Older(db.raw, cutoff), k), TotalFor(db.raw, k));
  }

  lemma MovedTotals(db: Db, after: Db, k: DailyKey, older: Totals, all: Totals)
    requires all == TotalFor(db.raw, k) && At(after.daily, k) == Plus(At(db.daily, k), older)
    requires Plus(older, TotalFor(after.raw, k)) == all
    ensures var t := if k in db.daily then db.daily[k] else Totals(0, 0, 0.0, 0.0, 0.0, 0.0, 0);
      Holds(after, k, t.bytesTx + BytesTx(db.raw, k), t.bytesRx + BytesRx(db.raw, k),
            t.costLow + CostLow(db.raw, k), t.costHigh + CostHigh(db.raw, k), t.savingsLow + SavingsLow(db.raw, k),
            t.savingsHigh + SavingsHigh(db.raw, k), t.samples + Samples(db.raw, k))
  {
    hide BytesTx, BytesRx, CostLow, CostHigh, SavingsLow, SavingsHigh, Samples, TotalFor;
    TotalsAreSums(db.raw, k);
    TotalsAreSums(after.raw, k);
  }

  lemma {:induction false} NewerCount(rows: seq<RawRow>, cutoff: int, r: RawRow)
    ensures multiset(Newer(rows, cutoff))[r] == if r.reportedAt < cutoff then 0 else multiset(rows)[r]
  {
    if rows != [] {
      hide Newer;
      var front, last := rows[..|rows| - 1], rows[|rows| - 1];
      NewerCount(front, cutoff, r);
      FilterLast(rows, front, last, cutoff);
      assert rows == front + [last];
    } else {
      assert Newer(rows, cutoff) == [];
    }
  }

  lemma {:induction false} SplitTotals(rows: seq<RawRow>, cutoff: int, k: DailyKey)
    ensures Plus(TotalFor(Older(rows, cutoff), k), TotalFor(Newer(rows, cutoff), k)) == TotalFor(rows, k)
  {
    if rows == [] {
      NothingSplits(cutoff, k);
    } else {
      hide Older, Newer, TotalFor, Plus, OfKey;
      var front, r := rows[..|rows| - 1], rows[|rows| - 1];
      SplitTotals(front, cutoff, k);
      FilterNext(rows, front, r, cutoff);
      OneMore(front, r, k);
      AddToOneSide(TotalFor(Older(front, cutoff), k), TotalFor(Newer(front, cutoff), k), OfKey(r, k));
      if r.reportedAt < cutoff {
        OneMore(Older(front, cutoff), r, k);
      } else {
        OneMore(Newer(front, cutoff), r, k);
      }
    }
  }

  lemma OneMore(rows: seq<RawRow>, r: RawRow, k: DailyKey)
    ensures TotalFor(rows + [r], k) == Plus(TotalFor(rows, k), OfKey(r, k))
  {
    OneMoreRow(rows, r, k);
  }

  lemma FilterNext(rows: seq<RawRow>, front: seq<RawRow>, r: RawRow, cutoff: int)
    requires rows != [] && front == rows[..|rows| - 1] && r == rows[|rows| - 1]
    ensures rows == front + [r]
    ensures if r.reportedAt < cutoff then
              Older(rows, cutoff) == Older(front, cutoff) + [r] && Newer(rows, cutoff) == Newer(front, cutoff)
            else
              Newer(rows, cutoff) == Newer(front, cutoff) + [r] && Older(rows, cutoff) == Older(front, cutoff)
  {
  }

  lemma NothingSplits(cutoff: int, k: DailyKey)
    ensures Plus(TotalFor(Older([], cutoff), k), TotalFor(Newer([], cutoff), k)) == TotalFor([], k)
  {
    var none: seq<RawRow> := [];
    assert Older(none, cutoff) == none && Newer(none, cutoff) == none;
    hide Older, Newer;
    assert TotalFor(none, k) == Nothing();
    hide TotalFor, Plus, Nothing;
    PlusNothing(Nothing());
  }

  lemma AddToOneSide(older: Totals, newer: Totals, c: Totals)
    ensures Plus(Plus(older, c), newer) == Plus(older, Plus(newer, c)) == Plus(Plus(older, newer), c)
  {
  }
}
