/** Every run of ingests, compactions and aborted transactions, against a log of all rows ever ingested. */
module StoreRuns {
  import opened Compaction
  import opened Findings
  import opened Tables

  datatype Step =
    | IngestStep(tenant: int, clusterId: string, now: nat, findings: seq<Finding>)
    | CompactStep(cutoff: int)
    | AbortedStep

  /** A row ever ingested, and whether some compaction has folded it. */
  datatype Entry = Entry(row: RawRow, folded: bool)

  datatype World = World(db: Db, log: seq<Entry>)

  function Unfolded(log: seq<Entry>): seq<RawRow> {
    if log == [] then []
    else
      var e := log[|log| - 1];
      Unfolded(log[..|log| - 1]) + if e.folded then [] else [e.row]
  }

  function FoldedRows(log: seq<Entry>): seq<RawRow> {
    if log == [] then []
    else
      var e := log[|log| - 1];
      FoldedRows(log[..|log| - 1]) + if e.folded then [e.row] else []
  }

  function AllRows(log: seq<Entry>): seq<RawRow> {
    seq(|log|, i requires 0 <= i < |log| => log[i].row)
  }

  function Entries(rows: seq<RawRow>): seq<Entry> {
    seq(|rows|, i requires 0 <= i < |rows| => Entry(rows[i], false))
  }

  function Mark(log: seq<Entry>, cutoff: int): seq<Entry> {
    seq(|log|, i requires 0 <= i < |log| => Entry(log[i].row, log[i].folded || log[i].row.reportedAt < cutoff))
  }

  function Apply(w: World, s: Step): World {
    match s
    case IngestStep(tenant, clusterId, now, findings) =>
      var rows := Snapshot(tenant, clusterId, now, findings);
      World(Db(w.db.raw + rows, w.db.daily), w.log + Entries(rows))
    case CompactStep(cutoff) => World(Compacted(w.db, cutoff), Mark(w.log, cutoff))
    case AbortedStep => w
  }

  function Run(steps: seq<Step>): World {
    if steps == [] then World(Db([], map[]), [])
    else Apply(Run(steps[..|steps| - 1]), steps[|steps| - 1])
  }

  // ----- The tables are a function of the log -----

  ghost predicate Faithful(w: World) {
    w.db.raw == Unfolded(w.log) && w.db.daily == RollupOf(FoldedRows(w.log))
  }

  lemma {:induction false} UnfoldedGrows(log: seq<Entry>, rows: seq<RawRow>)
    ensures Unfolded(log + Entries(rows)) == Unfolded(log) + rows
    ensures FoldedRows(log + Entries(rows)) == FoldedRows(log)
  {
    if rows == [] {
      assert log + Entries(rows) == log;
    } else {
      hide Unfolded, FoldedRows, Entries;
      var front, r := rows[..|rows| - 1], rows[|rows| - 1];
      UnfoldedGrows(log, front);
      EntriesOneMore(log, rows, front, r);
      UnfoldedOneMore(log + Entries(front), r);
      assert Unfolded(log) + front + [r] == Unfolded(log) + rows;
    }
  }

  lemma EntriesOneMore(log: seq<Entry>, rows: seq<RawRow>, front: seq<RawRow>, r: RawRow)
    requires rows == front + [r]
    ensures log + Entries(rows) == log + Entries(front) + [Entry(r, false)]
  {
  }

  lemma UnfoldedOneMore(log: seq<Entry>, r: RawRow)
    ensures Unfolded(log + [Entry(r, false)]) == Unfolded(log) + [r]
    ensures FoldedRows(log + [Entry(r, false)]) == FoldedRows(log)
  {
    assert (log + [Entry(r, false)])[..|log|] == log;
  }

  lemma AllRowsGrow(log: seq<Entry>, rows: seq<RawRow>)
    ensures AllRows(log + Entries(rows)) == AllRows(log) + rows
  {
  }

  lemma PlusRearranged(a: Totals, b: Totals, c: Totals)
    ensures Plus(Plus(a, b), c) == Plus(Plus(a, c), b)
    ensures Plus(a, Plus(b, c)) == Plus(Plus(a, b), c)
  {
  }

  /** What the last entry of a log contributes to each list. */
  lemma LastEntry(log: seq<Entry>, cutoff: int)
    requires log != []
    ensures var front, e := log[..|log| - 1], log[|log| - 1];
      && FoldedRows(log) == FoldedRows(front) + (if e.folded then [e.row] else [])
      && Unfolded(log) == Unfolded(front) + (if e.folded then [] else [e.row])
      && AllRows(log) == AllRows(front) + [e.row]
      && FoldedRows(Mark(log, cutoff)) == FoldedRows(Mark(front, cutoff))
                                        + (if e.folded || e.row.reportedAt < cutoff then [e.row] else [])
      && Unfolded(Mark(log, cutoff)) == Unfolded(Mark(front, cutoff))
                                      + (if e.folded || e.row.reportedAt < cutoff then [] else [e.row])
  {
    var marked := Mark(log, cutoff);
    assert marked[..|marked| - 1] == Mark(log[..|log| - 1], cutoff);
  }

  lemma LastUnfolded(log: seq<Entry>, cutoff: int)
    requires log != []
    ensures var front, e := log[..|log| - 1], log[|log| - 1];
      && Older(Unfolded(log), cutoff) == Older(Unfolded(front), cutoff)
                                       + (if !e.folded && e.row.reportedAt < cutoff then [e.row] else [])
      && Newer(Unfolded(log), cutoff) == Newer(Unfolded(front), cutoff)
                                       + (if !e.folded && e.row.reportedAt >= cutoff then [e.row] else [])
  {
    var front, e := log[..|log| - 1], log[|log| - 1];
    LastEntry(log, cutoff);
    if e.folded {
      assert Unfolded(log) == Unfolded(front);
    } else {
      FilterOneMore(Unfolded(front), e.row, cutoff);
    }
  }

  /** Appending one row, or none. */
  lemma MaybeOneMore(rows: seq<RawRow>, r: RawRow, present: bool, k: DailyKey)
    ensures TotalFor(rows + if present then [r] else [], k)
         == if present then Plus(TotalFor(rows, k), OfKey(r, k)) else TotalFor(rows, k)
  {
    if present {
      OneMoreRow(rows, r, k);
    } else {
      assert rows + [] == rows;
    }
  }

  lemma MaybeOneMoreKey(rows: seq<RawRow>, r: RawRow, present: bool)
    ensures Keys(rows + if present then [r] else []) == Keys(rows) + if present then {KeyOf(r)} else {}
  {
    if present {
      KeysOfMore(rows, r);
    } else {
      assert rows + [] == rows;
    }
  }

  function OfKey(r: RawRow, k: DailyKey): Totals {
    if KeyOf(r) == k then MeasuresOf(r) else Nothing()
  }

  /** Marking moves exactly the older rows of the raw table to the folded ones. */
  lemma {:induction false} MarkKeepsNewer(log: seq<Entry>, cutoff: int)
    ensures Unfolded(Mark(log, cutoff)) == Newer(Unfolded(log), cutoff)
  {
    if log != [] {
      MarkKeepsNewer(log[..|log| - 1], cutoff);
      LastEntry(log, cutoff);
      LastUnfolded(log, cutoff);
    }
  }

  lemma {:induction false} MarkMovesKeys(log: seq<Entry>, cutoff: int)
    ensures Keys(FoldedRows(Mark(log, cutoff))) == Keys(FoldedRows(log)) + Keys(Older(Unfolded(log), cutoff))
  {
    if log != [] {
      var front, e := log[..|log| - 1], log[|log| - 1];
      MarkMovesKeys(front, cutoff);
      LastEntry(log, cutoff);
      LastUnfolded(log, cutoff);
      var old_ := e.row.reportedAt < cutoff;
      MaybeOneMoreKey(FoldedRows(Mark(front, cutoff)), e.row, e.folded || old_);
      MaybeOneMoreKey(FoldedRows(front), e.row, e.folded);
      MaybeOneMoreKey(Older(Unfolded(front), cutoff), e.row, !e.folded && old_);
    }
  }

  lemma {:induction false} MarkMovesTotals(log: seq<Entry>, cutoff: int, k: DailyKey)
    ensures TotalFor(FoldedRows(Mark(log, cutoff)), k)
         == Plus(TotalFor(FoldedRows(log), k), TotalFor(Older(Unfolded(log), cutoff), k))
  {
    if log != [] {
      var front, e := log[..|log| - 1], log[|log| - 1];
      MarkMovesTotals(front, cutoff, k);
      LastEntry(log, cutoff);
      LastUnfolded(log, cutoff);
      var old_ := e.row.reportedAt < cutoff;
      MaybeOneMore(FoldedRows(Mark(front, cutoff)), e.row, e.folded || old_, k);
      MaybeOneMore(FoldedRows(front), e.row, e.folded, k);
      MaybeOneMore(Older(Unfolded(front), cutoff), e.row, !e.folded && old_, k);
      PlusRearranged(TotalFor(FoldedRows(front), k), TotalFor(Older(Unfolded(front), cutoff), k), OfKey(e.row, k));
    }
  }

  lemma MarkIsRollup(log: seq<Entry>, cutoff: int)
    ensures Rollup(RollupOf(FoldedRows(log)), Older(Unfolded(log), cutoff)) == RollupOf(FoldedRows(Mark(log, cutoff)))
  {
    var a := Rollup(RollupOf(FoldedRows(log)), Older(Unfolded(log), cutoff));
    var b := RollupOf(FoldedRows(Mark(log, cutoff)));
    MarkMovesKeys(log, cutoff);
    forall k | k in a ensures At(a, k) == At(b, k) {
      MarkAt(log, cutoff, k);
    }
    SameRollup(a, b);
  }

  lemma MarkAt(log: seq<Entry>, cutoff: int, k: DailyKey)
    ensures At(Rollup(RollupOf(FoldedRows(log)), Older(Unfolded(log), cutoff)), k)
         == At(RollupOf(FoldedRows(Mark(log, cutoff))), k)
  {
    MarkMovesTotals(log, cutoff, k);
    MergeAt(RollupOf(FoldedRows(log)), Older(Unfolded(log), cutoff), k);
    RollupAt(FoldedRows(log), k);
    RollupAt(FoldedRows(Mark(log, cutoff)), k);
  }

  lemma {:induction false} RunIsFaithful(steps: seq<Step>)
    ensures Faithful(Run(steps))
  {
    if steps != [] {
      var w := Run(steps[..|steps| - 1]);
      RunIsFaithful(steps[..|steps| - 1]);
      match steps[|steps| - 1]
      case IngestStep(tenant, clusterId, now, findings) =>
        UnfoldedGrows(w.log, Snapshot(tenant, clusterId, now, findings));
      case CompactStep(cutoff) =>
        MarkKeepsNewer(w.log, cutoff);
        MarkIsRollup(w.log, cutoff);
      case AbortedStep =>
    }
  }

  // ----- Conservation -----

  lemma {:induction false} LogSplits(log: seq<Entry>, k: DailyKey)
    ensures Plus(TotalFor(FoldedRows(log), k), TotalFor(Unfolded(log), k)) == TotalFor(AllRows(log), k)
  {
    if log != [] {
      var front, e := log[..|log| - 1], log[|log| - 1];
      LogSplits(front, k);
      LastEntry(log, 0);
      MaybeOneMore(AllRows(front), e.row, true, k);
      MaybeOneMore(FoldedRows(front), e.row, e.folded, k);
      MaybeOneMore(Unfolded(front), e.row, !e.folded, k);
      PlusRearranged(TotalFor(FoldedRows(front), k), TotalFor(Unfolded(front), k), OfKey(e.row, k));
    }
  }

  lemma LastShares(log: seq<Entry>, front: seq<Entry>, e: Entry)
    requires log == front + [e]
    ensures AllRows(log) == AllRows(front) + if true then [e.row] else []
    ensures FoldedRows(log) == FoldedRows(front) + if e.folded then [e.row] else []
    ensures Unfolded(log) == Unfolded(front) + if !e.folded then [e.row] else []
  {
    assert log[..|log| - 1] == front;
    LastEntry(log, 0);
  }

  /** The same for the cost of any kind of rows. */
  lemma {:induction false} LogSplitsCost(log: seq<Entry>, p: RawRow -> bool)
    ensures CostWhere(FoldedRows(log), p) + CostWhere(Unfolded(log), p) == CostWhere(AllRows(log), p)
  {
    if log == [] {
      assert AllRows(log) == FoldedRows(log) == Unfolded(log) == [];
    } else {
      hide FoldedRows, Unfolded, AllRows, CostWhere;
      var front, e := log[..|log| - 1], log[|log| - 1];
      assert log == front + [e];
      LogSplitsCost(front, p);
      LastShares(log, front, e);
      CostMaybeOneMore(AllRows(front), e.row, true, p);
      CostMaybeOneMore(FoldedRows(front), e.row, e.folded, p);
      CostMaybeOneMore(Unfolded(front), e.row, !e.folded, p);
    }
  }

  /** For each daily key and each measure, rollup plus remaining raw rows is everything ever ingested. */
  lemma Conservation(steps: seq<Step>, k: DailyKey)
    ensures var w := Run(steps);
      Plus(At(w.db.daily, k), TotalFor(w.db.raw, k)) == TotalFor(AllRows(w.log), k)
  {
    var w := Run(steps);
    RunIsFaithful(steps);
    RollupAt(FoldedRows(w.log), k);
    LogSplits(w.log, k);
  }

  // ----- Any schedule against one compaction -----

  function Max(a: int, b: int): int {
    if a > b then a else b
  }

  /** The largest cutoff of the run, zero if it has none above zero. */
  function MaxCutoff(steps: seq<Step>): int {
    if steps == [] then 0
    else
      var s := steps[|steps| - 1];
      Max(MaxCutoff(steps[..|steps| - 1]), if s.CompactStep? then s.cutoff else 0)
  }

  ghost predicate LaterCompacted(steps: seq<Step>, i: nat, t: nat) {
    exists j | i < j < |steps| :: steps[j].CompactStep? && t < steps[j].cutoff
  }

  ghost predicate Ingests(s: Step, t: nat) {
    s.IngestStep? && s.findings != [] && s.now == t
  }

  /** Every row stamped below the largest cutoff is followed by a compaction that reaches it. */
  ghost predicate Timely(steps: seq<Step>) {
    forall i | 0 <= i < |steps| && steps[i].IngestStep? && steps[i].findings != [] && steps[i].now < MaxCutoff(steps) ::
      LaterCompacted(steps, i, steps[i].now)
  }

  /** No ingest is stamped below an earlier cutoff: what a non-decreasing clock gives. */
  ghost predicate NoBackdating(steps: seq<Step>) {
    forall i, j | 0 <= i < j < |steps| && steps[i].CompactStep? && steps[j].IngestStep? ::
      steps[i].cutoff <= steps[j].now
  }

  ghost predicate Stale(log: seq<Entry>, t: nat) {
    exists e | e in log :: !e.folded && e.row.reportedAt == t
  }

  ghost predicate Missed(steps: seq<Step>, t: nat) {
    exists i | 0 <= i < |steps| :: Ingests(steps[i], t) && !LaterCompacted(steps, i, t)
  }

  lemma LaterInPrefix(steps: seq<Step>, i: nat, t: nat)
    requires i < |steps| - 1
    ensures var s := steps[|steps| - 1];
      LaterCompacted(steps, i, t) <==> LaterCompacted(steps[..|steps| - 1], i, t) || (s.CompactStep? && t < s.cutoff)
  {
    var front := steps[..|steps| - 1];
    if LaterCompacted(front, i, t) {
      var j :| i < j < |front| && front[j].CompactStep? && t < front[j].cutoff;
      assert steps[j] == front[j];
    }
    if LaterCompacted(steps, i, t) {
      var j :| i < j < |steps| && steps[j].CompactStep? && t < steps[j].cutoff;
      assert j < |front| ==> steps[j] == front[j];
    }
  }

  lemma MissedStep(steps: seq<Step>, t: nat)
    requires steps != []
    ensures var front, s := steps[..|steps| - 1], steps[|steps| - 1];
      Missed(steps, t) <==> Ingests(s, t) || (Missed(front, t) && !(s.CompactStep? && t < s.cutoff))
  {
    var front, s := steps[..|steps| - 1], steps[|steps| - 1];
    assert !LaterCompacted(steps, |steps| - 1, t);
    if Missed(front, t) {
      var i :| 0 <= i < |front| && Ingests(front[i], t) && !LaterCompacted(front, i, t);
      LaterInPrefix(steps, i, t);
      assert steps[i] == front[i];
    }
    if Missed(steps, t) {
      var i :| 0 <= i < |steps| && Ingests(steps[i], t) && !LaterCompacted(steps, i, t);
      if i < |front| {
        LaterInPrefix(steps, i, t);
        assert steps[i] == front[i];
      }
    }
  }

  lemma StaleAfterMark(log: seq<Entry>, cutoff: int, t: nat)
    ensures Stale(Mark(log, cutoff), t) <==> Stale(log, t) && t >= cutoff
  {
    var marked := Mark(log, cutoff);
    if Stale(log, t) && t >= cutoff {
      var e :| e in log && !e.folded && e.row.reportedAt == t;
      var i :| 0 <= i < |log| && log[i] == e;
      assert marked[i] == e;
    }
    if Stale(marked, t) {
      var e :| e in marked && !e.folded && e.row.reportedAt == t;
      var i :| 0 <= i < |marked| && marked[i] == e;
      assert log[i] == e;
    }
  }

  lemma StaleAfterIngest(log: seq<Entry>, s: Step, t: nat)
    requires s.IngestStep?
    ensures Stale(log + Entries(Snapshot(s.tenant, s.clusterId, s.now, s.findings)), t)
       <==> Stale(log, t) || Ingests(s, t)
  {
    var added := Entries(Snapshot(s.tenant, s.clusterId, s.now, s.findings));
    if Ingests(s, t) {
      assert added[0] in log + added;
    }
    assert forall e | e in added :: e.row.reportedAt == s.now;
  }

  /** A timestamp still has raw rows exactly when one of its ingests was missed by every later compaction. */
  lemma {:induction false} StaleIsMissed(steps: seq<Step>, t: nat)
    ensures Stale(Run(steps).log, t) <==> Missed(steps, t)
  {
    if steps != [] {
      var front, s := steps[..|steps| - 1], steps[|steps| - 1];
      StaleIsMissed(front, t);
      MissedStep(steps, t);
      match s
      case IngestStep(_, _, _, _) => StaleAfterIngest(Run(front).log, s, t);
      case CompactStep(cutoff) => StaleAfterMark(Run(front).log, cutoff, t);
      case AbortedStep =>
    }
  }

  lemma {:induction false} FoldedBelowMax(steps: seq<Step>)
    ensures forall e | e in Run(steps).log && e.folded :: e.row.reportedAt < MaxCutoff(steps)
  {
    if steps != [] {
      var log := Run(steps[..|steps| - 1]).log;
      FoldedBelowMax(steps[..|steps| - 1]);
      forall e | e in Run(steps).log && e.folded ensures e.row.reportedAt < MaxCutoff(steps) {
        var s := steps[|steps| - 1];
        if s.CompactStep? {
          var i :| 0 <= i < |Run(steps).log| && Run(steps).log[i] == e;
          assert log[i] in log && log[i].row == e.row;
        }
      }
    }
  }

  /** When "folded" means "below the cutoff", the log splits as one compaction splits it. */
  lemma {:induction false} FoldedIsOlder(log: seq<Entry>, cutoff: int)
    requires forall e | e in log :: e.folded <==> e.row.reportedAt < cutoff
    ensures Unfolded(log) == Newer(AllRows(log), cutoff) && FoldedRows(log) == Older(AllRows(log), cutoff)
  {
    if log != [] {
      var front, e := log[..|log| - 1], log[|log| - 1];
      assert e in log;
      FoldedIsOlder(front, cutoff);
      assert AllRows(log) == AllRows(front) + [e.row];
      FilterOneMore(AllRows(front), e.row, cutoff);
    }
  }

  lemma {:induction false} UnfoldedMembers(log: seq<Entry>)
    ensures forall r :: r in Unfolded(log) <==> Entry(r, false) in log
  {
    if log != [] {
      var front, e := log[..|log| - 1], log[|log| - 1];
      UnfoldedMembers(front);
      assert log == front + [e];
    }
  }

  /** The tables of a run are those of one compaction at its largest cutoff, exactly when the run is timely. */
  lemma OneCompactionSuffices(steps: seq<Step>)
    ensures var w := Run(steps);
      w.db == Compacted(Db(AllRows(w.log), map[]), MaxCutoff(steps)) <==> Timely(steps)
  {
    var w, m := Run(steps), MaxCutoff(steps);
    RunIsFaithful(steps);
    if Timely(steps) {
      forall e | e in w.log ensures e.folded <==> e.row.reportedAt < m {
        FoldedBelowMax(steps);
        StaleIsMissed(steps, e.row.reportedAt);
      }
      FoldedIsOlder(w.log, m);
      RollupFromNothing(Older(AllRows(w.log), m));
    } else {
      var i :| 0 <= i < |steps| && steps[i].IngestStep? && steps[i].findings != [] && steps[i].now < m
        && !LaterCompacted(steps, i, steps[i].now);
      var t := steps[i].now;
      assert Ingests(steps[i], t) && Missed(steps, t);
      StaleIsMissed(steps, t);
      var e :| e in w.log && !e.folded && e.row.reportedAt == t;
      UnfoldedMembers(w.log);
      assert e == Entry(e.row, false);
      FilterMembers(AllRows(w.log), m);
      assert e.row in w.db.raw && e.row !in Newer(AllRows(w.log), m);
    }
  }

  lemma RollupFromNothing(rows: seq<RawRow>)
    ensures Rollup(map[], rows) == RollupOf(rows)
  {
    forall k | k in Keys(rows) ensures At(Rollup(map[], rows), k) == At(RollupOf(rows), k) {
      MergeAt(map[], rows, k);
      PlusNothing(TotalFor(rows, k));
    }
    SameRollup(Rollup(map[], rows), RollupOf(rows));
  }

  /** With a non-decreasing clock every schedule of cutoffs is timely. */
  lemma ClockMakesTimely(steps: seq<Step>)
    requires NoBackdating(steps)
    ensures Timely(steps)
  {
    forall i | 0 <= i < |steps| && steps[i].IngestStep? && steps[i].findings != [] && steps[i].now < MaxCutoff(steps)
      ensures LaterCompacted(steps, i, steps[i].now)
    {
      var j := MaxIsAttained(steps);
      assert steps[j].cutoff > steps[i].now;
    }
  }

  lemma {:induction false} MaxIsAttained(steps: seq<Step>) returns (j: nat)
    requires MaxCutoff(steps) > 0
    ensures j < |steps| && steps[j].CompactStep? && steps[j].cutoff == MaxCutoff(steps)
  {
    j := |steps| - 1;
    if !(steps[j].CompactStep? && steps[j].cutoff == MaxCutoff(steps)) {
      j := MaxIsAttained(steps[..|steps| - 1]);
    }
  }

  // ----- Two compactions in either order -----

  lemma LastRow(rows: seq<RawRow>, a: int, b: int)
    requires rows != []
    ensures var front, r := rows[..|rows| - 1], rows[|rows| - 1];
      && Older(rows, a) == Older(front, a) + (if r.reportedAt < a then [r] else [])
      && Newer(Newer(rows, a), b)
         == Newer(Newer(front, a), b) + (if r.reportedAt < a || r.reportedAt < b then [] else [r])
      && Older(Newer(rows, a), b) == Older(Newer(front, a), b) + (if a <= r.reportedAt < b then [r] else [])
  {
    var front, r := rows[..|rows| - 1], rows[|rows| - 1];
    if r.reportedAt < a {
      assert Newer(rows, a) == Newer(front, a);
    } else {
      FilterOneMore(Newer(front, a), r, b);
    }
  }

  lemma {:induction false} NewerTwice(rows: seq<RawRow>, a: int, b: int)
    ensures Newer(Newer(rows, a), b) == Newer(rows, Max(a, b))
  {
    if rows != [] {
      NewerTwice(rows[..|rows| - 1], a, b);
      LastRow(rows, a, b);
    }
  }

  lemma {:induction false} OlderTwiceKey(rows: seq<RawRow>, a: int, b: int, k: DailyKey)
    ensures k in Keys(Older(rows, Max(a, b))) <==> k in Keys(Older(rows, a)) || k in Keys(Older(Newer(rows, a), b))
  {
    if rows != [] {
      var front, r := rows[..|rows| - 1], rows[|rows| - 1];
      OlderTwiceKey(front, a, b, k);
      LastRow(rows, a, b);
      LastRow(rows, Max(a, b), b);
      MaybeOneMoreKey(Older(front, a), r, r.reportedAt < a);
      MaybeOneMoreKey(Older(Newer(front, a), b), r, a <= r.reportedAt < b);
      MaybeOneMoreKey(Older(front, Max(a, b)), r, r.reportedAt < Max(a, b));
    }
  }

  lemma {:induction false} OlderTwice(rows: seq<RawRow>, a: int, b: int, k: DailyKey)
    ensures Plus(TotalFor(Older(rows, a), k), TotalFor(Older(Newer(rows, a), b), k))
         == TotalFor(Older(rows, Max(a, b)), k)
  {
    if rows != [] {
      var front, r := rows[..|rows| - 1], rows[|rows| - 1];
      OlderTwice(front, a, b, k);
      LastRow(rows, a, b);
      LastRow(rows, Max(a, b), b);
      MaybeOneMore(Older(front, a), r, r.reportedAt < a, k);
      MaybeOneMore(Older(Newer(front, a), b), r, a <= r.reportedAt < b, k);
      MaybeOneMore(Older(front, Max(a, b)), r, r.reportedAt < Max(a, b), k);
      PlusRearranged(TotalFor(Older(front, a), k), TotalFor(Older(Newer(front, a), b), k), OfKey(r, k));
    }
  }

  lemma ComposeAt(db: Db, a: int, b: int, k: DailyKey)
    ensures k in Rollup(Rollup(db.daily, Older(db.raw, a)), Older(Newer(db.raw, a), b))
       <==> k in Rollup(db.daily, Older(db.raw, Max(a, b)))
    ensures At(Rollup(Rollup(db.daily, Older(db.raw, a)), Older(Newer(db.raw, a), b)), k)
         == At(Rollup(db.daily, Older(db.raw, Max(a, b))), k)
  {
    var older, rest := Older(db.raw, a), Older(Newer(db.raw, a), b);
    OlderTwiceKey(db.raw, a, b, k);
    OlderTwice(db.raw, a, b, k);
    MergeAt(db.daily, older, k);
    MergeAt(Rollup(db.daily, older), rest, k);
    MergeAt(db.daily, Older(db.raw, Max(a, b)), k);
    PlusRearranged(At(db.daily, k), TotalFor(older, k), TotalFor(rest, k));
  }

  /** On any tables, two compactions are one at the larger cutoff; so they commute and repeat harmlessly. */
  lemma CompactionsCompose(db: Db, a: int, b: int)
    ensures Compacted(Compacted(db, a), b) == Compacted(db, Max(a, b))
  {
    NewerTwice(db.raw, a, b);
    var x := Rollup(Rollup(db.daily, Older(db.raw, a)), Older(Newer(db.raw, a), b));
    var y := Rollup(db.daily, Older(db.raw, Max(a, b)));
    forall k ensures (k in x <==> k in y) && At(x, k) == At(y, k) {
      ComposeAt(db, a, b, k);
    }
    SameRollup(x, y);
  }
}
