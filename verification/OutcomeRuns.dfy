/** Every interleaving of showing, applying, ingesting, compacting and measuring, any number of measurements at once. */
module OutcomeRuns {
  import opened Compaction
  import opened Findings
  import opened Outcome
  import opened Tables

  /** One step at the time the clock then shows; a pass's lists and reads may each be taken at a different step. */
  datatype Step =
    | Tick(seconds: nat)
    | Ingest(tenant: int, clusterId: string, findings: seq<Finding>)
    | Compact(cutoff: int)
    | Show(tenant: int, fixes: seq<FindingRow>)
    | MarkApplied(key: OutcomeKey)
    | List(pass: nat, key: OutcomeKey)
    | Read(pass: nat, pending: Pending)
    | Save(pass: nat, batch: seq<Reading>)

  /** `listed` and `read` hold what each unfinished pass has in hand. */
  datatype World = World(
    clock: nat, raw: seq<RawRow>, rows: Outcomes, listed: set<(nat, Pending)>, read: set<(nat, Reading)>)

  ghost predicate Taken(pass: nat, batch: seq<Reading>, read: set<(nat, Reading)>) {
    forall u | u in batch :: (pass, u) in read
  }

  ghost function Apply(w: World, s: Step): World {
    match s
    case Tick(seconds) => w.(clock := w.clock + seconds)
    case Ingest(tenant, clusterId, findings) => w.(raw := w.raw + Snapshot(tenant, clusterId, w.clock, findings))
    case Compact(cutoff) => w.(raw := Newer(w.raw, cutoff))
    case Show(tenant, fixes) => w.(rows := Shown(w.rows, tenant, fixes, w.clock))
    case MarkApplied(key) => w.(rows := AppliedTo(w.rows, key, w.clock))
    case List(pass, key) =>
      if key in w.rows && IsPending(w.rows[key]) then
        w.(listed := w.listed + {(pass, Pending(key, w.rows[key].appliedAt.value))})
      else w
    case Read(pass, pending) =>
      if (pass, pending) in w.listed then
        w.(listed := w.listed - {(pass, pending)},
           read := if IsFresh(pending, w.raw) then w.read + {(pass, ReadingOf(pending, w.raw))} else w.read)
      else w
    case Save(pass, batch) =>
      if Taken(pass, batch, w.read) then
        w.(rows := Saved(w.rows, batch, w.clock), read := w.read - (set u | u in batch :: (pass, u)))
      else w
  }

  ghost function Run(steps: seq<Step>): World {
    if steps == [] then World(0, [], map[], {}, {})
    else Apply(Run(steps[..|steps| - 1]), steps[|steps| - 1])
  }

  // ----- The timeline -----

  /** A reading was taken from the snapshot that was the latest after some earlier step. */
  ghost predicate Witnessed(steps: seq<Step>, u: Reading) {
    exists i | 0 <= i <= |steps| :: IsReading(u, Run(steps[..i]).raw)
  }

  ghost predicate InOrder(r: RecommendationOutcome, clock: nat) {
    && r.firstShownAt <= r.lastShownAt <= clock
    && (r.appliedAt.Some? ==> r.firstShownAt <= r.appliedAt.value <= clock)
    && (r.measuredAt.Some? <==> r.costAfter.Some?)
    && (r.measuredAt.Some? ==> r.appliedAt.Some? && r.measuredAt.value <= clock)
  }

  /** The stored cost is a witnessed reading whose snapshot lies between application and measurement. */
  ghost predicate Grounded(steps: seq<Step>, k: OutcomeKey, r: RecommendationOutcome) {
    r.measuredAt.Some? && r.costAfter.Some? && r.appliedAt.Some? ==>
      exists u: Reading ::
        && Witnessed(steps, u) && u.key == k && u.appliedAt == r.appliedAt.value && u.cost == r.costAfter.value
        && u.appliedAt < u.snapshot <= r.measuredAt.value
  }

  /** What unfinished passes hold was read of rows applied then as now. */
  ghost predicate Held(steps: seq<Step>, w: World) {
    && (forall pass, p | (pass, p) in w.listed :: p.key in w.rows && w.rows[p.key].appliedAt == Some(p.appliedAt))
    && (forall pass, u | (pass, u) in w.read :: HeldReading(steps, w, u))
  }

  ghost predicate HeldReading(steps: seq<Step>, w: World, u: Reading) {
    && u.key in w.rows && w.rows[u.key].appliedAt == Some(u.appliedAt)
    && u.appliedAt < u.snapshot <= w.clock && Witnessed(steps, u)
  }

  ghost predicate Stamped(w: World) {
    forall r | r in w.raw :: r.reportedAt <= w.clock
  }

  ghost predicate Sound(steps: seq<Step>) {
    var w := Run(steps);
    && Stamped(w) && Held(steps, w)
    && forall k | k in w.rows :: InOrder(w.rows[k], w.clock) && Grounded(steps, k, w.rows[k])
  }

  lemma WitnessedStays(steps: seq<Step>, s: Step, u: Reading)
    requires Witnessed(steps, u)
    ensures Witnessed(steps + [s], u)
  {
    hide IsReading, Run;
    var i :| 0 <= i <= |steps| && IsReading(u, Run(steps[..i]).raw);
    assert (steps + [s])[..i] == steps[..i];
  }

  lemma GroundedStays(steps: seq<Step>, s: Step, k: OutcomeKey, r: RecommendationOutcome, r': RecommendationOutcome)
    requires Grounded(steps, k, r)
    requires r'.appliedAt == r.appliedAt || r.measuredAt.None?
    requires r'.costAfter == r.costAfter && r'.measuredAt == r.measuredAt && (r'.measuredAt.Some? ==> r.appliedAt.Some?)
    ensures Grounded(steps + [s], k, r')
  {
    hide Witnessed;
    if r'.measuredAt.Some? && r'.costAfter.Some? && r'.appliedAt.Some? {
      var u: Reading :| Witnessed(steps, u) && u.key == k && u.appliedAt == r.appliedAt.value
                        && u.cost == r.costAfter.value
        && u.appliedAt < u.snapshot <= r.measuredAt.value;
      WitnessedStays(steps, s, u);
    }
  }

  /** How one step may change one row. */
  datatype Change = Same | Told(b: Baseline) | Took | Measured(u: Reading)

  ghost predicate Changes(w: World, s: Step, k: OutcomeKey, c: Change) {
    var after := Apply(w, s).rows;
    match c
    case Same => (k in after <==> k in w.rows) && (k in w.rows ==> after[k] == w.rows[k])
    case Told(b) =>
      && s.Show? && LastFix(s.tenant, s.fixes, k) == Some(b) && k in after
      && after[k] == if k in w.rows then ShownAgain(w.rows[k], b, w.clock)
                     else RecommendationOutcome(b, w.clock, w.clock, None, None, None)
    case Took =>
      && s == MarkApplied(k) && k in w.rows && w.rows[k].appliedAt.None? && k in after
      && after[k] == w.rows[k].(appliedAt := Some(w.clock))
    case Measured(u) =>
      && s.Save? && u in s.batch && (s.pass, u) in w.read && u.key == k && k in w.rows && k in after
      && after[k] == w.rows[k].(costAfter := Some(u.cost), measuredAt := Some(w.clock))
  }

  /** Every step leaves a row alone, shows it, applies it, or measures it. */
  lemma OneChange(w: World, s: Step, k: OutcomeKey) returns (c: Change)
    ensures Changes(w, s, k, c)
    ensures c.Same? ==> !(s.Show? && LastFix(s.tenant, s.fixes, k).Some?)
  {
    hide Shown, Saved, LastFix, ShownAgain;
    c := Same;
    match s
    case Show(tenant, fixes) =>
      ShownAt(w.rows, tenant, fixes, w.clock, k);
      if LastFix(tenant, fixes, k).Some? {
        c := Told(LastFix(tenant, fixes, k).value);
      }
    case MarkApplied(key) =>
      if key == k && k in w.rows && w.rows[k].appliedAt.None? {
        c := Took;
      }
    case Save(pass, batch) =>
      SavedAt(w.rows, batch, w.clock, k);
      if Taken(pass, batch, w.read) && k in w.rows && Saved(w.rows, batch, w.clock)[k] != w.rows[k] {
        var u :| u in batch && u.key == k
          && Saved(w.rows, batch, w.clock)[k] == w.rows[k].(costAfter := Some(u.cost), measuredAt := Some(w.clock));
        c := Measured(u);
      }
    case _ =>
  }

  // ----- Soundness of every run -----

  /** Applying is forever: a row that was applied stays applied at the same time, with the same baseline. */
  lemma AppliedStays(w: World, s: Step, k: OutcomeKey)
    requires k in w.rows
    ensures var after := Apply(w, s).rows;
      && k in after && after[k].firstShownAt == w.rows[k].firstShownAt
      && (w.rows[k].appliedAt.Some? ==>
            after[k].appliedAt == w.rows[k].appliedAt && after[k].baseline == w.rows[k].baseline)
  {
    hide Apply;
    var c := OneChange(w, s, k);
  }

  lemma HeldStays(steps: seq<Step>, s: Step, u: Reading)
    requires HeldReading(steps, Run(steps), u)
    ensures HeldReading(steps + [s], Apply(Run(steps), s), u)
  {
    hide Witnessed, Run;
    WitnessedStays(steps, s, u);
    AppliedStays(Run(steps), s, u.key);
    ClockMovesOn(Run(steps), s);
  }

  lemma ClockMovesOn(w: World, s: Step)
    ensures Apply(w, s).clock >= w.clock
  {
  }

  lemma ReadingIsWitnessed(steps: seq<Step>, s: Step, pending: Pending)
    requires IsFresh(pending, Run(steps).raw)
    ensures Witnessed(steps + [s], ReadingOf(pending, Run(steps).raw))
  {
    hide LatestTime, CostAt, Run;
    assert (steps + [s])[..|steps|] == steps;
    assert IsReading(ReadingOf(pending, Run(steps).raw), Run((steps + [s])[..|steps|]).raw);
  }

  lemma LatestIsPast(w: World, p: Pending)
    requires Stamped(w)
    ensures LatestTime(w.raw, p.key.tenant, p.key.clusterId) <= w.clock
  {
    LatestIsLatest(w.raw, p.key.tenant, p.key.clusterId);
  }

  lemma StepKeepsHeld(steps: seq<Step>, s: Step)
    requires Held(steps, Run(steps)) && Stamped(Run(steps))
    ensures Held(steps + [s], Apply(Run(steps), s))
  {
    hide HeldReading, Run;
    var w := Run(steps);
    var after := Apply(w, s);
    forall pass, p | (pass, p) in after.listed
      ensures p.key in after.rows && after.rows[p.key].appliedAt == Some(p.appliedAt)
    {
      NewlyListed(w, s, pass, p);
      if (pass, p) in w.listed {
        AppliedStays(w, s, p.key);
      }
    }
    forall pass, u | (pass, u) in after.read ensures HeldReading(steps + [s], after, u) {
      NewlyRead(w, s, pass, u);
      if (pass, u) in w.read {
        HeldStays(steps, s, u);
      } else {
        FreshIsHeld(steps, s, s.pending);
      }
    }
  }

  lemma NewlyListed(w: World, s: Step, pass: nat, p: Pending)
    requires (pass, p) in Apply(w, s).listed
    ensures (pass, p) in w.listed ||
            (p.key in w.rows && Apply(w, s).rows == w.rows && w.rows[p.key].appliedAt == Some(p.appliedAt))
  {
    hide Shown, Saved, AppliedTo, Newer;
  }

  lemma NewlyRead(w: World, s: Step, pass: nat, u: Reading)
    requires (pass, u) in Apply(w, s).read
    ensures (pass, u) in w.read ||
            (s.Read? && (s.pass, s.pending) in w.listed && IsFresh(s.pending, w.raw)
             && u == ReadingOf(s.pending, w.raw))
  {
    hide Shown, Saved, AppliedTo, Newer, ReadingOf, IsFresh;
  }

  lemma FreshIsHeld(steps: seq<Step>, s: Step, p: Pending)
    requires Held(steps, Run(steps)) && Stamped(Run(steps)) && s.Read? && s.pending == p
    requires (s.pass, p) in Run(steps).listed && IsFresh(p, Run(steps).raw)
    ensures HeldReading(steps + [s], Apply(Run(steps), s), ReadingOf(p, Run(steps).raw))
  {
    hide Witnessed, Run, LatestTime, CostAt;
    ReadingIsWitnessed(steps, s, p);
    LatestIsPast(Run(steps), p);
  }

  lemma StepKeepsStamped(w: World, s: Step)
    requires Stamped(w)
    ensures Stamped(Apply(w, s))
  {
    if s.Compact? {
      FilterMembers(w.raw, s.cutoff);
    }
  }

  lemma StepKeepsOrder(w: World, s: Step, k: OutcomeKey)
    requires k in w.rows ==> InOrder(w.rows[k], w.clock)
    requires forall pass, u | (pass, u) in w.read :: u.key in w.rows && w.rows[u.key].appliedAt == Some(u.appliedAt)
    ensures k in Apply(w, s).rows ==> InOrder(Apply(w, s).rows[k], Apply(w, s).clock)
  {
    hide Apply;
    ClockMovesOn(w, s);
    var c := OneChange(w, s, k);
  }

  lemma StepKeepsGrounded(steps: seq<Step>, s: Step, k: OutcomeKey)
    requires Held(steps, Run(steps)) && k in Apply(Run(steps), s).rows
    requires k in Run(steps).rows ==>
               InOrder(Run(steps).rows[k], Run(steps).clock) && Grounded(steps, k, Run(steps).rows[k])
    ensures Grounded(steps + [s], k, Apply(Run(steps), s).rows[k])
  {
    hide Apply, Run, Grounded, Witnessed;
    var w := Run(steps);
    var c := OneChange(w, s, k);
    if c.Measured? {
      WitnessedStays(steps, s, c.u);
      MeasuredIsGrounded(steps + [s], k, Apply(w, s).rows[k], c.u);
    } else if k in w.rows {
      GroundedStays(steps, s, k, w.rows[k], Apply(w, s).rows[k]);
    } else {
      UnmeasuredIsGrounded(steps + [s], k, Apply(w, s).rows[k]);
    }
  }

  lemma MeasuredIsGrounded(steps: seq<Step>, k: OutcomeKey, r: RecommendationOutcome, u: Reading)
    requires Witnessed(steps, u) && u.key == k && r.appliedAt == Some(u.appliedAt) && r.costAfter == Some(u.cost)
    requires r.measuredAt.Some? && u.appliedAt < u.snapshot <= r.measuredAt.value
    ensures Grounded(steps, k, r)
  {
    hide Witnessed;
  }

  lemma UnmeasuredIsGrounded(steps: seq<Step>, k: OutcomeKey, r: RecommendationOutcome)
    requires r.measuredAt.None?
    ensures Grounded(steps, k, r)
  {
  }

  /** In every interleaving: shown before applied, applied before the measured snapshot, snapshot before measurement;
      and every stored cost is the pair's highest cost in a snapshot that was the latest when it was read. */
  lemma {:induction false} RunIsSound(steps: seq<Step>)
    ensures Sound(steps)
  {
    hide Apply, Held, Grounded, InOrder, Stamped;
    if steps == [] {
      EmptyIsSound(steps);
    } else {
      var front, s := steps[..|steps| - 1], steps[|steps| - 1];
      RunIsSound(front);
      assert front + [s] == steps;
      var w := Run(front);
      StepKeepsStamped(w, s);
      StepKeepsHeld(front, s);
      forall k | k in Run(steps).rows
        ensures InOrder(Run(steps).rows[k], Run(steps).clock) && Grounded(steps, k, Run(steps).rows[k])
      {
        HeldRows(front, w);
        StepKeepsOrder(w, s, k);
        StepKeepsGrounded(front, s, k);
      }
    }
  }

  lemma EmptyIsSound(steps: seq<Step>)
    requires steps == []
    ensures Sound(steps)
  {
  }

  lemma HeldRows(steps: seq<Step>, w: World)
    requires Held(steps, w)
    ensures forall pass, u | (pass, u) in w.read :: u.key in w.rows && w.rows[u.key].appliedAt == Some(u.appliedAt)
  {
    hide Witnessed;
    forall pass, u | (pass, u) in w.read ensures u.key in w.rows && w.rows[u.key].appliedAt == Some(u.appliedAt) {
      assert HeldReading(steps, w, u);
    }
  }

  // ----- The baseline -----

  /** What the last showing of an outcome said. */
  ghost function LastShown(steps: seq<Step>, k: OutcomeKey): Option<Baseline> {
    if steps == [] then None
    else
      var s, before := steps[|steps| - 1], LastShown(steps[..|steps| - 1], k);
      if s.Show? && LastFix(s.tenant, s.fixes, k).Some? then LastFix(s.tenant, s.fixes, k) else before
  }

  /** A row's baseline is its last showing; once applied, the last showing before the step that applied it. */
  ghost predicate Anchored(steps: seq<Step>, k: OutcomeKey, r: RecommendationOutcome) {
    if r.appliedAt.None? then LastShown(steps, k) == Some(r.baseline)
    else exists i: nat :: AppliedBy(steps, k, r, i)
  }

  ghost predicate AppliedBy(steps: seq<Step>, k: OutcomeKey, r: RecommendationOutcome, i: nat) {
    && i < |steps| && steps[i] == MarkApplied(k)
    && k in Run(steps[..i]).rows && Run(steps[..i]).rows[k].appliedAt.None?
    && r.appliedAt == Some(Run(steps[..i]).clock) && LastShown(steps[..i], k) == Some(r.baseline)
  }

  lemma AppliedByStays(steps: seq<Step>, s: Step, k: OutcomeKey, r: RecommendationOutcome, r': RecommendationOutcome)
    requires r.appliedAt.Some? && Anchored(steps, k, r) && r'.appliedAt == r.appliedAt && r'.baseline == r.baseline
    ensures Anchored(steps + [s], k, r')
  {
    hide Run, LastShown;
    var i: nat :| AppliedBy(steps, k, r, i);
    assert (steps + [s])[..i] == steps[..i];
    assert AppliedBy(steps + [s], k, r', i);
  }

  lemma NewlyApplied(steps: seq<Step>, k: OutcomeKey, r: RecommendationOutcome, r': RecommendationOutcome)
    requires k in Run(steps).rows && Run(steps).rows[k] == r && r.appliedAt.None? && Anchored(steps, k, r)
    requires r' == r.(appliedAt := Some(Run(steps).clock))
    ensures Anchored(steps + [MarkApplied(k)], k, r')
  {
    hide Run, LastShown;
    assert (steps + [MarkApplied(k)])[..|steps|] == steps;
    assert AppliedBy(steps + [MarkApplied(k)], k, r', |steps|);
  }

  lemma LastShownMore(steps: seq<Step>, s: Step, k: OutcomeKey)
    ensures LastShown(steps + [s], k) ==
            if s.Show? && LastFix(s.tenant, s.fixes, k).Some? then LastFix(s.tenant, s.fixes, k)
            else LastShown(steps, k)
  {
    assert (steps + [s])[..|steps|] == steps;
  }

  /** Every row of every run is anchored. */
  lemma {:induction false} BaselineIsLastShown(steps: seq<Step>, k: OutcomeKey)
    requires k in Run(steps).rows
    ensures Anchored(steps, k, Run(steps).rows[k])
  {
    hide Apply, Anchored, LastShown, LastFix;
    if steps == [] {
      assert false;
    } else {
      var front, s := steps[..|steps| - 1], steps[|steps| - 1];
      var w := Run(front);
      assert front + [s] == steps;
      var c := OneChange(w, s, k);
      if k in w.rows {
        BaselineIsLastShown(front, k);
      }
      if k in w.rows && w.rows[k].appliedAt.Some? {
        AppliedStays(w, s, k);
        AppliedByStays(front, s, k, w.rows[k], Run(steps).rows[k]);
      } else if c.Took? {
        NewlyApplied(front, k, w.rows[k], Run(steps).rows[k]);
      } else {
        UnappliedFollows(front, s, k, c);
      }
    }
  }

  lemma UnappliedFollows(steps: seq<Step>, s: Step, k: OutcomeKey, c: Change)
    requires Changes(Run(steps), s, k, c) && !c.Took? && k in Apply(Run(steps), s).rows
    requires c.Same? ==> !(s.Show? && LastFix(s.tenant, s.fixes, k).Some?)
    requires k in Run(steps).rows ==> Run(steps).rows[k].appliedAt.None? && Anchored(steps, k, Run(steps).rows[k])
    ensures Anchored(steps + [s], k, Apply(Run(steps), s).rows[k])
  {
    hide Apply, LastShown, LastFix, Run;
    LastShownMore(steps, s, k);
  }

  // ----- For ever after -----

  /** Later steps keep the first showing, the application time and the baseline of an applied outcome. */
  lemma {:induction false} AppliedForever(steps: seq<Step>, more: seq<Step>, k: OutcomeKey)
    requires k in Run(steps).rows && Run(steps).rows[k].appliedAt.Some?
    ensures var before, after := Run(steps).rows, Run(steps + more).rows;
      && k in after && after[k].appliedAt == before[k].appliedAt && after[k].baseline == before[k].baseline
      && after[k].firstShownAt == before[k].firstShownAt
  {
    hide Apply;
    if more == [] {
      assert steps + more == steps;
    } else {
      AppliedForever(steps, more[..|more| - 1], k);
      RunOn(steps, more);
      AppliedStays(Run(steps + more[..|more| - 1]), more[|more| - 1], k);
    }
  }

  lemma RunOn(steps: seq<Step>, more: seq<Step>)
    requires more != []
    ensures Run(steps + more) == Apply(Run(steps + more[..|more| - 1]), more[|more| - 1])
  {
    hide Apply, Run;
    var all, front, last := steps + more, steps + more[..|more| - 1], more[|more| - 1];
    assert all == front + [last];
    RunStep(all, front, last);
  }

  lemma RunStep(all: seq<Step>, front: seq<Step>, last: Step)
    requires all == front + [last]
    ensures Run(all) == Apply(Run(front), last)
  {
    hide Apply;
    assert all[..|all| - 1] == front;
  }

  /** No pass has this outcome in hand. */
  ghost predicate Idle(w: World, k: OutcomeKey) {
    && (forall pass, p | (pass, p) in w.listed :: p.key != k)
    && (forall pass, u | (pass, u) in w.read :: u.key != k)
  }

  lemma MeasuredStaysIdle(w: World, s: Step, k: OutcomeKey)
    requires k in w.rows && w.rows[k].costAfter.Some? && Idle(w, k)
    ensures var after := Apply(w, s);
      && k in after.rows && after.rows[k].costAfter == w.rows[k].costAfter
         && after.rows[k].measuredAt == w.rows[k].measuredAt
      && Idle(after, k)
  {
    hide Apply;
    var c := OneChange(w, s, k);
    forall pass, p | (pass, p) in Apply(w, s).listed ensures p.key != k {
      ListedIsPending(w, s, pass, p);
    }
    forall pass, u | (pass, u) in Apply(w, s).read ensures u.key != k {
      NewlyRead(w, s, pass, u);
    }
  }

  lemma ListedIsPending(w: World, s: Step, pass: nat, p: Pending)
    requires (pass, p) in Apply(w, s).listed
    ensures (pass, p) in w.listed || (p.key in w.rows && IsPending(w.rows[p.key]))
  {
    hide Shown, Saved, AppliedTo, Newer;
  }

  /** A measured outcome that no pass has in hand is measured for good. */
  lemma {:induction false} MeasuredForever(steps: seq<Step>, more: seq<Step>, k: OutcomeKey)
    requires k in Run(steps).rows && Run(steps).rows[k].costAfter.Some? && Idle(Run(steps), k)
    ensures var before, after := Run(steps).rows, Run(steps + more).rows;
      && k in after && after[k].costAfter == before[k].costAfter && after[k].measuredAt == before[k].measuredAt
      && Idle(Run(steps + more), k)
  {
    hide Apply, Idle;
    if more == [] {
      assert steps + more == steps;
    } else {
      MeasuredForever(steps, more[..|more| - 1], k);
      RunOn(steps, more);
      MeasuredStaysIdle(Run(steps + more[..|more| - 1]), more[|more| - 1], k);
    }
  }

  lemma Running(steps: seq<Step>, s: Step)
    ensures Run(steps + [s]) == Apply(Run(steps), s)
  {
    assert (steps + [s])[..|steps|] == steps;
  }

  /** One pass lists and reads one outcome, and nothing else happens. */
  lemma PassReads(steps: seq<Step>, pass: nat, k: OutcomeKey)
    requires k in Run(steps).rows && IsPending(Run(steps).rows[k])
    ensures var p, w := Pending(k, Run(steps).rows[k].appliedAt.value), Run(steps);
      var after := Run(steps + [List(pass, k)] + [Read(pass, p)]);
      && after.rows == w.rows && after.raw == w.raw && after.clock == w.clock && w.read <= after.read
      && (IsFresh(p, w.raw) ==> (pass, ReadingOf(p, w.raw)) in after.read)
  {
    hide Run, IsFresh, ReadingOf;
    var p := Pending(k, Run(steps).rows[k].appliedAt.value);
    Running(steps, List(pass, k));
    Running(steps + [List(pass, k)], Read(pass, p));
  }

  lemma SavesOne(steps: seq<Step>, pass: nat, u: Reading)
    requires (pass, u) in Run(steps).read && u.key in Run(steps).rows
    ensures var w, after := Run(steps), Run(steps + [Save(pass, [u])]);
      && u.key in after.rows && after.rows[u.key].costAfter == Some(u.cost)
         && after.rows[u.key].measuredAt == Some(w.clock)
      && after.clock == w.clock && forall q, v | (q, v) in w.read && (q, v) != (pass, u) :: (q, v) in after.read
  {
    hide Run;
    Running(steps, Save(pass, [u]));
    assert [u][..0] == [];
    assert Saved(Run(steps).rows, [u], Run(steps).clock)
        == SaveOne(Saved(Run(steps).rows, [], Run(steps).clock), u, Run(steps).clock);
  }

  /** The two passes of `OverlapRemeasures` up to their saves. */
  ghost function Overlap(steps: seq<Step>, k: OutcomeKey, findings: seq<Finding>): seq<Step>
    requires k in Run(steps).rows && IsPending(Run(steps).rows[k])
  {
    var p := Pending(k, Run(steps).rows[k].appliedAt.value);
    steps + [List(1, k)] + [Read(1, p)] + [Tick(1)] + [Ingest(k.tenant, k.clusterId, findings)] + [List(2, k)]
      + [Read(2, p)]
  }

  lemma OverlapReads(steps: seq<Step>, k: OutcomeKey, findings: seq<Finding>, p: Pending, later: seq<RawRow>)
    requires k in Run(steps).rows && IsPending(Run(steps).rows[k])
             && p == Pending(k, Run(steps).rows[k].appliedAt.value)
    requires later == Run(steps).raw + Snapshot(k.tenant, k.clusterId, Run(steps).clock + 1, findings)
    requires IsFresh(p, Run(steps).raw) && IsFresh(p, later)
    ensures var w := Run(Overlap(steps, k, findings));
      && w.rows == Run(steps).rows
      && (1, ReadingOf(p, Run(steps).raw)) in w.read && (2, ReadingOf(p, later)) in w.read
  {
    hide Run, IsFresh, ReadingOf;
    PassReads(steps, 1, k);
    var first := steps + [List(1, k)] + [Read(1, p)];
    Running(first, Tick(1));
    Running(first + [Tick(1)], Ingest(k.tenant, k.clusterId, findings));
    PassReads(first + [Tick(1)] + [Ingest(k.tenant, k.clusterId, findings)], 2, k);
  }

  /** Nothing guards a measurement against a pass that read earlier but saves later: whenever an outcome can be
      measured and another snapshot then arrives, two overlapping passes can measure it twice and leave the older
      snapshot's cost. */
  lemma OverlapRemeasures(steps: seq<Step>, k: OutcomeKey, findings: seq<Finding>, p: Pending, later: seq<RawRow>)
    requires k in Run(steps).rows && IsPending(Run(steps).rows[k])
             && p == Pending(k, Run(steps).rows[k].appliedAt.value)
    requires later == Run(steps).raw + Snapshot(k.tenant, k.clusterId, Run(steps).clock + 1, findings)
    requires IsFresh(p, Run(steps).raw) && IsFresh(p, later)
    ensures var older, newer := ReadingOf(p, Run(steps).raw), ReadingOf(p, later);
      var once := Overlap(steps, k, findings) + [Save(2, [newer])];
      var twice := once + [Save(1, [older])];
      && k in Run(once).rows && Run(once).rows[k].costAfter == Some(newer.cost)
      && k in Run(twice).rows && Run(twice).rows[k].costAfter == Some(older.cost)
  {
    hide Run, IsFresh, Overlap;
    OverlapReads(steps, k, findings, p, later);
    var older, newer := ReadingOf(p, Run(steps).raw), ReadingOf(p, later);
    SavesOne(Overlap(steps, k, findings), 2, newer);
    SavesOne(Overlap(steps, k, findings) + [Save(2, [newer])], 1, older);
  }

  /** What later steps leave of a measurement. */
  ghost predicate KeptBy(steps: seq<Step>, more: seq<Step>, k: OutcomeKey)
    requires k in Run(steps).rows
  {
    var before, after := Run(steps).rows, Run(steps + more).rows;
    k in after && after[k].costAfter == before[k].costAfter && after[k].measuredAt == before[k].measuredAt
  }

  lemma MeasuredInThePast(steps: seq<Step>, k: OutcomeKey)
    requires k in Run(steps).rows && Run(steps).rows[k].costAfter.Some?
    ensures Run(steps).rows[k].measuredAt.Some? && Run(steps).rows[k].measuredAt.value <= Run(steps).clock
  {
    hide Run, Held, Grounded, Stamped;
    RunIsSound(steps);
  }

  lemma Ticked(steps: seq<Step>)
    ensures var w := Run(steps);
      Run(steps + [Tick(1)]) == w.(clock := w.clock + 1)
  {
    hide Run;
    Running(steps, Tick(1));
  }

  /** A reading in hand can be saved a second later. */
  lemma ReadingRemeasures(steps: seq<Step>, pass: nat, u: Reading)
    requires u.key in Run(steps).rows && Run(steps).rows[u.key].costAfter.Some? && (pass, u) in Run(steps).read
    ensures !KeptBy(steps, [Tick(1)] + [Save(pass, [u])], u.key)
  {
    hide Run;
    MeasuredInThePast(steps, u.key);
    Ticked(steps);
    SavesOne(steps + [Tick(1)], pass, u);
    assert steps + [Tick(1)] + [Save(pass, [u])] == steps + ([Tick(1)] + [Save(pass, [u])]);
  }

  lemma AppendedIsLatest(raw: seq<RawRow>, r: RawRow)
    ensures LatestTime(raw + [r], r.tenant, r.clusterId) >= r.reportedAt
  {
    LatestIsLatest(raw + [r], r.tenant, r.clusterId);
    assert r in raw + [r];
  }

  /** An outcome in hand as listed can be read once the next snapshot is in, whatever that snapshot holds. */
  lemma ListingReads(steps: seq<Step>, pass: nat, p: Pending, f: Finding)
    requires (pass, p) in Run(steps).listed
    ensures var more := [Tick(1)] + [Ingest(p.key.tenant, p.key.clusterId, [f])] + [Read(pass, p)];
      Run(steps + more).rows == Run(steps).rows && exists u: Reading ::
        u.key == p.key && (pass, u) in Run(steps + more).read
  {
    hide Run, LatestTime, CostAt, Stamped, Grounded;
    var w, k := Run(steps), p.key;
    RunIsSound(steps);
    var ticked := steps + [Tick(1)];
    var ingested := ticked + [Ingest(k.tenant, k.clusterId, [f])];
    Ticked(steps);
    Running(ticked, Ingest(k.tenant, k.clusterId, [f]));
    var row := RawRow(k.tenant, k.clusterId, w.clock + 1, f);
    assert Snapshot(k.tenant, k.clusterId, w.clock + 1, [f]) == [row];
    AppendedIsLatest(w.raw, row);
    Running(ingested, Read(pass, p));
    assert (pass, ReadingOf(p, Run(ingested).raw)) in Run(ingested + [Read(pass, p)]).read;
    assert ingested + [Read(pass, p)] == steps + ([Tick(1)] + [Ingest(k.tenant, k.clusterId, [f])] + [Read(pass, p)]);
  }

  lemma KeptOn(steps: seq<Step>, more: seq<Step>, last: seq<Step>, k: OutcomeKey)
    requires k in Run(steps).rows && Run(steps + more).rows == Run(steps).rows
    ensures KeptBy(steps, more + last, k) <==> KeptBy(steps + more, last, k)
  {
    hide Run;
    assert steps + (more + last) == steps + more + last;
  }

  lemma ListingRemeasures(steps: seq<Step>, pass: nat, p: Pending, f: Finding) returns (more: seq<Step>)
    requires (pass, p) in Run(steps).listed
    requires p.key in Run(steps).rows && Run(steps).rows[p.key].costAfter.Some?
    ensures !KeptBy(steps, more, p.key)
  {
    hide Run, KeptBy;
    var reading := [Tick(1)] + [Ingest(p.key.tenant, p.key.clusterId, [f])] + [Read(pass, p)];
    ListingReads(steps, pass, p, f);
    var u: Reading :| u.key == p.key && (pass, u) in Run(steps + reading).read;
    ReadingRemeasures(steps + reading, pass, u);
    KeptOn(steps, reading, [Tick(1)] + [Save(pass, [u])], p.key);
    more := reading + ([Tick(1)] + [Save(pass, [u])]);
  }

  /** A measurement is for good exactly when no pass has its outcome in hand: nothing else guards the write. */
  lemma MeasuredForGood(steps: seq<Step>, k: OutcomeKey)
    requires k in Run(steps).rows && Run(steps).rows[k].costAfter.Some?
    ensures Idle(Run(steps), k) <==> forall more :: KeptBy(steps, more, k)
  {
    hide Run, KeptBy;
    if Idle(Run(steps), k) {
      forall more ensures KeptBy(steps, more, k) {
        IdleKeeps(steps, more, k);
      }
    } else if pass, u :| (pass, u) in Run(steps).read && u.key == k {
      ReadingRemeasures(steps, pass, u);
    } else {
      var pass, p :| (pass, p) in Run(steps).listed && p.key == k;
      var f := Finding("", "", "", "", 0, 0, 0.0, 0.0, "", NoManifest, "", "", 0.0, 0.0);
      var more := ListingRemeasures(steps, pass, p, f);
    }
  }

  lemma IdleKeeps(steps: seq<Step>, more: seq<Step>, k: OutcomeKey)
    requires k in Run(steps).rows && Run(steps).rows[k].costAfter.Some? && Idle(Run(steps), k)
    ensures KeptBy(steps, more, k)
  {
    hide Run, Idle;
    MeasuredForever(steps, more, k);
  }
}
