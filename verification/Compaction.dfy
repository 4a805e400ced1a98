/** The store with its ingest and compaction transactions. A statement that fails rolls the whole
    transaction back: `fails(n)` says whether the n-th statement of the call fails. */
module Compaction {
  import opened Findings
  import opened Tables
  import opened Text

  /** The rows one ingest appends: one snapshot, one timestamp. */
  function Snapshot(tenant: int, clusterId: string, now: nat, findings: seq<Finding>): seq<RawRow> {
    seq(|findings|, i requires 0 <= i < |findings| => RawRow(tenant, clusterId, now, findings[i]))
  }

  class Store {
    var raw: seq<RawRow>
    var daily: map<DailyKey, Totals>

    ghost function Contents(): Db
      reads this
    {
      Db(raw, daily)
    }

    constructor ()
      ensures Contents() == Db([], map[])
    {
      raw, daily := [], map[];
    }

    method Ingest(tenant: int, clusterId: string, findings: seq<Finding>, now: nat, fails: nat -> bool)
      returns (failed: bool)
      modifies this
      ensures failed ==> Contents() == old(Contents())
      ensures !failed ==> Contents() == Db(old(raw) + Snapshot(tenant, clusterId, now, findings), old(daily))
      ensures failed <==> exists n | 0 <= n < |findings| + 3 :: fails(n)
    {
      if fails(0) || fails(1) {
        return true;
      }
      var tx := raw;
      for i := 0 to |findings|
        invariant tx == old(raw) + Snapshot(tenant, clusterId, now, findings)[..i]
        invariant forall n | 0 <= n < i + 2 :: !fails(n)
      {
        if fails(i + 2) {
          return true;
        }
        tx := tx + [RawRow(tenant, clusterId, now, findings[i])];
      }
      if fails(|findings| + 2) {
        return true;
      }
      raw := tx;
      failed := false;
    }

    method CompactFindingsOlderThan(cutoff: int, fails: nat -> bool)
      returns (groupsCompacted: nat, rawRowsDeleted: nat, failed: bool)
      modifies this
      ensures failed ==> Contents() == old(Contents()) && groupsCompacted == rawRowsDeleted == 0
      ensures !failed ==>
                && Contents() == Compacted(old(Contents()), cutoff)
                && groupsCompacted == |Keys(Older(old(raw), cutoff))|
                && rawRowsDeleted == |Older(old(raw), cutoff)|
      ensures (forall n :: !fails(n)) ==> !failed
    {
      groupsCompacted, rawRowsDeleted, failed := 0, 0, true;
      if fails(0) || fails(1) {
        return;
      }
      var groups := GroupOlderRows(raw, cutoff);
      if |groups| == 0 {
        NothingToFold(Contents(), cutoff);
        return 0, 0, fails(2);
      }
      if fails(2) {
        return;
      }
      var txDaily := daily;
      for i := 0 to |groups|
        invariant Contents() == old(Contents()) && groupsCompacted == rawRowsDeleted == 0 && failed
        invariant txDaily == Folded(daily, groups[..i])
      {
        if fails(3 + i) {
          return;
        }
        FoldOneMore(daily, groups, i);
        txDaily := Upsert(txDaily, groups[i].0, groups[i].1);
      }
      assert groups[..|groups|] == groups;
      FoldedIsRollup(daily, groups, Older(raw, cutoff));
      var txRaw := DeleteOlder(raw, cutoff);
      if fails(3 + |groups|) || fails(4 + |groups|) {
        return;
      }
      FilterMembers(raw, cutoff);
      groupsCompacted, rawRowsDeleted, failed := |groups|, |raw| - |txRaw|, false;
      raw, daily := txRaw, txDaily;
    }
  }

  // ----- GROUP BY -----

  /** The groups are one row per key that occurs, with that key's sums, in any order. */
  ghost predicate Groups(groups: seq<(DailyKey, Totals)>, rows: seq<RawRow>) {
    && (forall i, j | 0 <= i < j < |groups| :: groups[i].0 != groups[j].0)
    && (forall i | 0 <= i < |groups| :: groups[i].0 in Keys(rows) && groups[i].1 == TotalFor(rows, groups[i].0))
    && (forall k | k in Keys(rows) :: exists i | 0 <= i < |groups| :: groups[i].0 == k)
    && |groups| == |Keys(rows)|
  }

  method GroupOlderRows(raw: seq<RawRow>, cutoff: int) returns (groups: seq<(DailyKey, Totals)>)
    ensures Groups(groups, Older(raw, cutoff))
  {
    var sums := SumOlderRows(raw, cutoff);
    var keys := Elements(sums.Keys);
    groups := GroupListing(sums, keys);
    GroupsListed(sums, keys, Older(raw, cutoff));
  }

  function GroupListing(sums: map<DailyKey, Totals>, keys: seq<DailyKey>): (groups: seq<(DailyKey, Totals)>)
    requires multiset(keys) == multiset(sums.Keys)
    ensures |groups| == |keys| && forall i | 0 <= i < |keys| :: groups[i].0 == keys[i]
  {
    ListingHasNoRepeats(keys, sums.Keys);
    seq(|keys|, i requires 0 <= i < |keys| => (keys[i], sums[keys[i]]))
  }

  lemma GroupsListed(sums: map<DailyKey, Totals>, keys: seq<DailyKey>, rows: seq<RawRow>)
    requires multiset(keys) == multiset(sums.Keys) && sums == RollupOf(rows)
    ensures Groups(GroupListing(sums, keys), rows)
  {
    ListingHasNoRepeats(keys, sums.Keys);
    assert sums.Keys == Keys(rows);
    var groups := GroupListing(sums, keys);
    forall k | k in Keys(rows) ensures exists i | 0 <= i < |groups| :: groups[i].0 == k {
      var i :| 0 <= i < |keys| && keys[i] == k;
      assert groups[i].0 == k;
    }
  }

  method SumOlderRows(raw: seq<RawRow>, cutoff: int) returns (sums: map<DailyKey, Totals>)
    ensures sums == RollupOf(Older(raw, cutoff))
  {
    sums := map[];
    for i := 0 to |raw|
      invariant sums == RollupOf(Older(raw[..i], cutoff))
    {
      assert raw[..i + 1] == raw[..i] + [raw[i]];
      FilterOneMore(raw[..i], raw[i], cutoff);
      if raw[i].reportedAt < cutoff {
        var key, measures := KeyOf(raw[i]), MeasuresOf(raw[i]);
        RollupOneMore(Older(raw[..i], cutoff), raw[i], key, measures);
        sums := Upsert(sums, key, measures);
      } else {
        assert Older(raw[..i + 1], cutoff) == Older(raw[..i], cutoff);
      }
    }
    assert raw[..|raw|] == raw;
  }

  method DeleteOlder(raw: seq<RawRow>, cutoff: int) returns (kept: seq<RawRow>)
    ensures kept == Newer(raw, cutoff)
  {
    kept := [];
    for i := 0 to |raw|
      invariant kept == Newer(raw[..i], cutoff)
    {
      assert raw[..i + 1] == raw[..i] + [raw[i]];
      FilterOneMore(raw[..i], raw[i], cutoff);
      if !(raw[i].reportedAt < cutoff) {
        kept := kept + [raw[i]];
      }
    }
    assert raw[..|raw|] == raw;
  }

  // ----- Upserting the groups one after the other -----

  function Folded(daily: map<DailyKey, Totals>, groups: seq<(DailyKey, Totals)>): map<DailyKey, Totals> {
    if groups == [] then daily
    else Upsert(Folded(daily, groups[..|groups| - 1]), groups[|groups| - 1].0, groups[|groups| - 1].1)
  }

  lemma FoldOneMore(daily: map<DailyKey, Totals>, groups: seq<(DailyKey, Totals)>, i: nat)
    requires i < |groups|
    ensures Folded(daily, groups[..i + 1]) == Upsert(Folded(daily, groups[..i]), groups[i].0, groups[i].1)
  {
    assert groups[..i + 1][..i] == groups[..i];
  }

  lemma {:induction false} FoldedAt(daily: map<DailyKey, Totals>, groups: seq<(DailyKey, Totals)>, k: DailyKey)
    requires forall i, j | 0 <= i < j < |groups| :: groups[i].0 != groups[j].0
    ensures (forall i | 0 <= i < |groups| :: groups[i].0 != k) ==>
              (k in Folded(daily, groups) <==> k in daily) && At(Folded(daily, groups), k) == At(daily, k)
    ensures forall i | 0 <= i < |groups| && groups[i].0 == k ::
              k in Folded(daily, groups) && Folded(daily, groups)[k] == Plus(At(daily, k), groups[i].1)
  {
    if groups != [] {
      FoldedAt(daily, groups[..|groups| - 1], k);
    }
  }

  lemma FoldedKey(daily: map<DailyKey, Totals>, groups: seq<(DailyKey, Totals)>, rows: seq<RawRow>, k: DailyKey)
    requires Groups(groups, rows)
    ensures k in Folded(daily, groups) <==> k in Rollup(daily, rows)
    ensures At(Folded(daily, groups), k) == At(Rollup(daily, rows), k)
  {
    hide Folded, Plus, Keys, TotalFor;
    FoldedAt(daily, groups, k);
    MergeAt(daily, rows, k);
    if k in Keys(rows) {
      var i :| 0 <= i < |groups| && groups[i].0 == k;
    }
  }

  lemma FoldedIsRollup(daily: map<DailyKey, Totals>, groups: seq<(DailyKey, Totals)>, rows: seq<RawRow>)
    requires Groups(groups, rows)
    ensures Folded(daily, groups) == Rollup(daily, rows)
  {
    hide Folded, Plus, Keys, TotalFor;
    forall k ensures k in Folded(daily, groups) <==> k in Rollup(daily, rows)
             ensures At(Folded(daily, groups), k) == At(Rollup(daily, rows), k)
    {
      FoldedKey(daily, groups, rows, k);
    }
    SameRollup(Folded(daily, groups), Rollup(daily, rows));
  }

  lemma KeysOfSome(rows: seq<RawRow>)
    ensures Keys(rows) == {} <==> rows == []
  {
  }

  lemma NothingToFold(db: Db, cutoff: int)
    requires |Keys(Older(db.raw, cutoff))| == 0
    ensures Compacted(db, cutoff) == db && Older(db.raw, cutoff) == []
  {
    KeysOfSome(Older(db.raw, cutoff));
    FilterMembers(db.raw, cutoff);
    NewerKeepsAll(db.raw, cutoff);
    assert Rollup(db.daily, []) == db.daily;
  }

  lemma {:induction false} NewerKeepsAll(rows: seq<RawRow>, cutoff: int)
    requires forall r | r in rows :: r.reportedAt >= cutoff
    ensures Newer(rows, cutoff) == rows
  {
    if rows != [] {
      var front, r := rows[..|rows| - 1], rows[|rows| - 1];
      assert rows == front + [r];
      NewerKeepsAll(front, cutoff);
    }
  }
}
