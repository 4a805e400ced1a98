/** Every row of the outcome table by the steps that made it: when it was shown, applied and measured. */
module OutcomeTimes {
  import opened Findings
  import opened Outcome
  import opened OutcomeRuns

  /** The clock after some steps. */
  function Time(steps: seq<Step>): nat {
    if steps == [] then 0
    else
      var before := Time(steps[..|steps| - 1]);
      if steps[|steps| - 1].Tick? then before + steps[|steps| - 1].seconds else before
  }

  /** The step shows a hinted fix for the outcome. */
  ghost predicate ShowsFix(s: Step, k: OutcomeKey) {
    s.Show? && exists f | f in s.fixes :: IsFixFor(f, s.tenant, k)
  }

  /** The first such step, or -1. */
  ghost function FirstShow(steps: seq<Step>, k: OutcomeKey): (i: int)
    ensures -1 <= i < |steps|
    ensures i >= 0 ==> ShowsFix(steps[i], k)
    ensures forall j | 0 <= j < (if i < 0 then |steps| else i) :: !ShowsFix(steps[j], k)
  {
    if steps == [] then -1
    else
      var n := |steps| - 1;
      var before := FirstShow(steps[..n], k);
      if before < 0 && ShowsFix(steps[n], k) then n else before
  }

  /** The last one, or -1. */
  ghost function LastShow(steps: seq<Step>, k: OutcomeKey): (i: int)
    ensures -1 <= i < |steps|
    ensures i >= 0 ==> ShowsFix(steps[i], k)
    ensures forall j | i < j < |steps| :: !ShowsFix(steps[j], k)
  {
    if steps == [] then -1
    else
      var n := |steps| - 1;
      if ShowsFix(steps[n], k) then n else LastShow(steps[..n], k)
  }

  /** The first step that applies the outcome once it was shown, or -1. */
  ghost function FirstApply(steps: seq<Step>, k: OutcomeKey): (i: int)
    ensures -1 <= i < |steps|
    ensures i >= 0 ==> steps[i] == MarkApplied(k) && 0 <= FirstShow(steps, k) < i
    ensures forall j | 0 <= FirstShow(steps, k) < j < (if i < 0 then |steps| else i) :: steps[j] != MarkApplied(k)
  {
    if steps == [] then -1
    else
      var n := |steps| - 1;
      var before := FirstApply(steps[..n], k);
      if before < 0 && FirstShow(steps[..n], k) >= 0 && steps[n] == MarkApplied(k) then n else before
  }

  ghost predicate TimedAs(steps: seq<Step>, k: OutcomeKey, r: RecommendationOutcome) {
    var first, last, applied := FirstShow(steps, k), LastShow(steps, k), FirstApply(steps, k);
    && first >= 0 && r.firstShownAt == Time(steps[..first])
    && last >= 0 && r.lastShownAt == Time(steps[..last])
    && r.appliedAt == if applied < 0 then None else Some(Time(steps[..applied]))
  }

  /** Whatever is stored as measured was saved then. */
  ghost predicate SavedAs(steps: seq<Step>, k: OutcomeKey, r: RecommendationOutcome) {
    r.measuredAt.Some? ==>
      exists i, u | 0 <= i < |steps| && steps[i].Save? && u in steps[i].batch ::
        u.key == k && r.measuredAt == Some(Time(steps[..i])) && r.costAfter == Some(u.cost)
  }

  lemma {:induction false} ClockIsTime(steps: seq<Step>)
    ensures Run(steps).clock == Time(steps)
  {
    if steps != [] {
      ClockIsTime(steps[..|steps| - 1]);
    }
  }

  lemma ShowsLastFix(s: Step, k: OutcomeKey)
    requires s.Show?
    ensures ShowsFix(s, k) <==> LastFix(s.tenant, s.fixes, k).Some?
  {
    hide IsFixFor;
    LastFixIsLast(s.tenant, s.fixes, k);
  }

  lemma IndicesNext(steps: seq<Step>, n: nat, k: OutcomeKey)
    requires |steps| == n + 1
    ensures var front := steps[..n];
      && FirstShow(steps, k) ==
           (if FirstShow(front, k) < 0 && ShowsFix(steps[n], k) then n else FirstShow(front, k))
      && LastShow(steps, k) == (if ShowsFix(steps[n], k) then n else LastShow(front, k))
      && FirstApply(steps, k) ==
           (if FirstApply(front, k) < 0 && FirstShow(front, k) >= 0 && steps[n] == MarkApplied(k) then n
            else FirstApply(front, k))
      && forall i | 0 <= i <= n :: steps[..i] == front[..i]
  {
    hide ShowsFix;
  }

  /** What a step that is neither does to the row. */
  lemma StepChanges(w: World, s: Step, k: OutcomeKey, c: Change)
    requires Changes(w, s, k, c) && (c.Same? ==> !(s.Show? && LastFix(s.tenant, s.fixes, k).Some?))
    ensures c.Told? <==> ShowsFix(s, k)
    ensures k in w.rows && s == MarkApplied(k) && w.rows[k].appliedAt.None? ==> c.Took?
  {
    hide Shown, Saved, LastFix, ShownAgain, ShowsFix;
    if s.Show? {
      ShowsLastFix(s, k);
    } else {
      OnlyShowsShow(s, k);
    }
  }

  lemma OnlyShowsShow(s: Step, k: OutcomeKey)
    requires !s.Show?
    ensures !ShowsFix(s, k)
  {
  }

  lemma TimesNext(steps: seq<Step>, n: nat, k: OutcomeKey, c: Change)
    requires |steps| == n + 1 && Changes(Run(steps[..n]), steps[n], k, c)
    requires c.Told? <==> ShowsFix(steps[n], k)
    requires var w := Run(steps[..n]);
      k in w.rows && steps[n] == MarkApplied(k) && w.rows[k].appliedAt.None? ==> c.Took?
    requires k in Run(steps[..n]).rows <==> FirstShow(steps[..n], k) >= 0
    requires k in Run(steps[..n]).rows ==> TimedAs(steps[..n], k, Run(steps[..n]).rows[k])
    ensures k in Run(steps).rows <==> FirstShow(steps, k) >= 0
    ensures k in Run(steps).rows ==> TimedAs(steps, k, Run(steps).rows[k])
  {
    hide Apply, ShowsFix, FirstShow, LastShow, FirstApply, Time, LastFix;
    ClockIsTime(steps[..n]);
    IndicesNext(steps, n, k);
    assert Run(steps) == Apply(Run(steps[..n]), steps[n]);
  }

  lemma SavesNext(steps: seq<Step>, n: nat, k: OutcomeKey, c: Change)
    requires |steps| == n + 1 && Changes(Run(steps[..n]), steps[n], k, c)
    requires k in Run(steps).rows
    requires k in Run(steps[..n]).rows ==> SavedAs(steps[..n], k, Run(steps[..n]).rows[k])
    ensures SavedAs(steps, k, Run(steps).rows[k])
  {
    hide Apply, Time, LastFix;
    ClockIsTime(steps[..n]);
    assert Run(steps) == Apply(Run(steps[..n]), steps[n]);
    assert forall i | 0 <= i < n :: steps[..n][i] == steps[i] && steps[..n][..i] == steps[..i];
    if c.Measured? {
      assert steps[n].Save? && c.u in steps[n].batch;
    }
  }

  /** In every interleaving: there is a row exactly for what was shown; it holds the times of the first and the last
      showing, of the first application since it was shown, and a measurement that a pass saved at its time. */
  lemma {:induction false} RowTellsItsRun(steps: seq<Step>, k: OutcomeKey)
    ensures k in Run(steps).rows <==> FirstShow(steps, k) >= 0
    ensures k in Run(steps).rows ==> TimedAs(steps, k, Run(steps).rows[k]) && SavedAs(steps, k, Run(steps).rows[k])
  {
    hide Apply, Changes, TimedAs, SavedAs, ShowsFix, LastFix;
    if steps != [] {
      var n := |steps| - 1;
      RowTellsItsRun(steps[..n], k);
      var c := OneChange(Run(steps[..n]), steps[n], k);
      StepChanges(Run(steps[..n]), steps[n], k, c);
      TimesNext(steps, n, k, c);
      if k in Run(steps).rows {
        SavesNext(steps, n, k, c);
      }
    }
  }
}
