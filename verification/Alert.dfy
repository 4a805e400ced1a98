/** Webhook alerts: a finding alerts when it reaches a threshold, and again once it has grown enough. */
module Alert {
  import opened Reals
  import opened Report
  import opened Text
  import ReportRuns

  predicate IsDue(last: map<string, real>, f: AgentFinding, threshold: real, growthRatio: real) {
    f.costHigh >= threshold && !Settled(LastOf(last, f), f.costHigh, growthRatio)
  }

  /** Already alerted, and not grown enough since. */
  predicate Settled(recorded: real, cost: real, growthRatio: real) {
    recorded > 0.0 && cost < recorded * growthRatio
  }

  function KeyOf(f: AgentFinding): string {
    FindingKey(f.cgroupId, f.class_, f.destIp)
  }

  function LastOf(last: map<string, real>, f: AgentFinding): real {
    if KeyOf(f) in last then last[KeyOf(f)] else 0.0
  }

  /** One finding's turn; whether the post succeeds is up to the webhook. */
  function Turn(last: map<string, real>, f: AgentFinding, posts: bool, threshold: real, growthRatio: real)
    : map<string, real>
  {
    if IsDue(last, f, threshold, growthRatio) && posts then last[KeyOf(f) := f.costHigh] else last
  }

  /** The record after one check: `posts` says of each finding whether a post would succeed. */
  function Checked(last: map<string, real>, findings: seq<AgentFinding>, posts: nat -> bool, threshold: real,
                   growthRatio: real)
    : map<string, real>
  {
    if findings == [] then last
    else
      var n := |findings| - 1;
      Turn(Checked(last, findings[..n], posts, threshold, growthRatio), findings[n], posts(n), threshold, growthRatio)
  }

  /** Whether a finding is due when the check gets to it. */
  predicate DueAtTurn(last: map<string, real>, findings: seq<AgentFinding>, posts: nat -> bool, threshold: real,
                      growthRatio: real, n: nat)
  {
    n < |findings|
    && IsDue(Checked(last, findings[..n], posts, threshold, growthRatio), findings[n], threshold, growthRatio)
  }

  lemma NothingChecked(last: map<string, real>, posts: nat -> bool, threshold: real, growthRatio: real)
    ensures Checked(last, [], posts, threshold, growthRatio) == last
  {
  }

  lemma CheckedNext(last: map<string, real>, findings: seq<AgentFinding>, posts: nat -> bool, threshold: real,
                    growthRatio: real, n: nat)
    requires n < |findings|
    ensures var before, f := Checked(last, findings[..n], posts, threshold, growthRatio), findings[n];
      var due := f.costHigh >= threshold
                 && !(LastOf(before, f) > 0.0 && f.costHigh < LastOf(before, f) * growthRatio);
      && (DueAtTurn(last, findings, posts, threshold, growthRatio, n) <==> due)
      && Checked(last, findings[..n + 1], posts, threshold, growthRatio)
         == if due && posts(n) then before[KeyOf(f) := f.costHigh] else before
  {
    hide KeyOf, LastOf;
    assert findings[..n + 1][..n] == findings[..n];
  }

  class Alerter {
    const enabled: bool
    const threshold: real
    const growthRatio: real
    var lastAlerted: map<string, real>

    constructor (enabled: bool, threshold: real, growthRatio: real)
      ensures lastAlerted == map[] && this.enabled == enabled
      ensures this.threshold == threshold && this.growthRatio == growthRatio
    {
      this.enabled, this.threshold, this.growthRatio := enabled, threshold, growthRatio;
      lastAlerted := map[];
    }

    /** `posted` lists the findings posted, in order. A failed post is not recorded. */
    method Check(findings: seq<AgentFinding>, posts: nat -> bool) returns (posted: seq<nat>)
      modifies this
      ensures lastAlerted ==
        if enabled then Checked(old(lastAlerted), findings, posts, threshold, growthRatio) else old(lastAlerted)
      ensures !enabled ==> posted == []
      ensures enabled ==> forall n: nat ::
                n in posted <==>
                  && n < |findings| && posts(n)
                  && DueAtTurn(old(lastAlerted), findings, posts, threshold, growthRatio, n)
    {
      hide KeyOf, Checked, Turn, LastOf, IsDue;
      posted := [];
      if !enabled {
        return;
      }
      NothingChecked(lastAlerted, posts, threshold, growthRatio);
      for n := 0 to |findings|
        invariant lastAlerted == Checked(old(lastAlerted), findings[..n], posts, threshold, growthRatio)
        invariant forall i: nat ::
          i in posted <==> i < n && posts(i) && DueAtTurn(old(lastAlerted), findings, posts, threshold, growthRatio, i)
      {
        CheckedNext(old(lastAlerted), findings, posts, threshold, growthRatio, n);
        var f := findings[n];
        if f.costHigh < threshold {
          continue;
        }
        var last := LastOf(lastAlerted, f);
        if last > 0.0 && f.costHigh < last * growthRatio {
          continue;
        }
        if !posts(n) {
          continue;
        }
        posted := posted + [n];
        lastAlerted := lastAlerted[KeyOf(f) := f.costHigh];
      }
      assert findings[..|findings|] == findings;
    }
  }

  // ----- Growth of the record -----

  /** One turn of one finding, in the history of its alerter. */
  datatype Attempt = Attempt(f: AgentFinding, posts: bool)

  function Run(attempts: seq<Attempt>, threshold: real, growthRatio: real): map<string, real> {
    if attempts == [] then map[]
    else
      var a := attempts[|attempts| - 1];
      Turn(Run(attempts[..|attempts| - 1], threshold, growthRatio), a.f, a.posts, threshold, growthRatio)
  }

  /** How often a key was posted successfully. */
  function Posts(attempts: seq<Attempt>, threshold: real, growthRatio: real, key: string): nat {
    if attempts == [] then 0
    else
      var a, front := attempts[|attempts| - 1], attempts[..|attempts| - 1];
      Posts(front, threshold, growthRatio, key)
        + if KeyOf(a.f) == key && a.posts && IsDue(Run(front, threshold, growthRatio), a.f, threshold, growthRatio)
          then 1 else 0
  }

  /** The least cost that can have been recorded by the `k`-th post. */
  function Floor(threshold: real, growthRatio: real, k: nat): real
    requires k > 0
  {
    if k == 1 then threshold else Floor(threshold, growthRatio, k - 1) * growthRatio
  }

  lemma {:induction false} FloorMovesAway(threshold: real, growthRatio: real, k: nat)
    requires k > 0 && growthRatio >= 1.0
    ensures if threshold > 0.0 then Floor(threshold, growthRatio, k) >= threshold
            else Floor(threshold, growthRatio, k) <= threshold
  {
    if k > 1 {
      FloorMovesAway(threshold, growthRatio, k - 1);
      var floor := Floor(threshold, growthRatio, k - 1);
      if threshold > 0.0 {
        ScaleKeepsOrder(1.0, growthRatio, floor);
      } else {
        ScaleKeepsOrder(1.0, growthRatio, -floor);
      }
    }
  }

  ghost predicate Recorded(last: map<string, real>, key: string, threshold: real, growthRatio: real, k: nat) {
    if k == 0 then key !in last
    else key in last && last[key] >= Floor(threshold, growthRatio, k)
  }

  lemma TurnRecords(last: map<string, real>, f: AgentFinding, threshold: real, growthRatio: real, k: nat)
    requires growthRatio >= 1.0
    requires Recorded(last, KeyOf(f), threshold, growthRatio, k) && IsDue(last, f, threshold, growthRatio)
    ensures Recorded(Turn(last, f, true, threshold, growthRatio), KeyOf(f), threshold, growthRatio, k + 1)
  {
    hide KeyOf;
    FloorMovesAway(threshold, growthRatio, k + 1);
    if k > 0 && threshold > 0.0 {
      FloorMovesAway(threshold, growthRatio, k);
      ScaleKeepsOrder(Floor(threshold, growthRatio, k), last[KeyOf(f)], growthRatio);
    }
  }

  /** After `k` successful posts for a key its recorded cost is at least threshold * ratio^(k - 1): a bounded cost can
      only alert logarithmically often, however often it is checked. */
  lemma {:induction false} PostsAreBounded(attempts: seq<Attempt>, threshold: real, growthRatio: real, key: string)
    requires growthRatio >= 1.0
    ensures Recorded(Run(attempts, threshold, growthRatio), key, threshold, growthRatio,
                     Posts(attempts, threshold, growthRatio, key))
  {
    hide KeyOf, IsDue, Recorded, Floor;
    if attempts == [] {
      NothingRecorded(key, threshold, growthRatio);
    } else {
      var a, front := attempts[|attempts| - 1], attempts[..|attempts| - 1];
      PostsAreBounded(front, threshold, growthRatio, key);
      var last := Run(front, threshold, growthRatio);
      if IsDue(last, a.f, threshold, growthRatio) && a.posts {
        if KeyOf(a.f) == key {
          TurnRecords(last, a.f, threshold, growthRatio, Posts(front, threshold, growthRatio, key));
        } else {
          OtherKeyKept(last, a.f, key, threshold, growthRatio, Posts(front, threshold, growthRatio, key));
        }
      }
    }
  }

  lemma NothingRecorded(key: string, threshold: real, growthRatio: real)
    ensures Recorded(map[], key, threshold, growthRatio, 0)
  {
  }

  lemma OtherKeyKept(last: map<string, real>, f: AgentFinding, key: string, threshold: real, growthRatio: real, k: nat)
    requires KeyOf(f) != key && Recorded(last, key, threshold, growthRatio, k)
    ensures Recorded(last[KeyOf(f) := f.costHigh], key, threshold, growthRatio, k)
  {
    hide KeyOf;
  }

  /** One check of one report. */
  datatype Round = Round(findings: seq<AgentFinding>, posts: nat -> bool)

  /** The record of a fresh alerter after a sequence of checks. */
  function AfterRounds(rounds: seq<Round>, threshold: real, growthRatio: real): map<string, real> {
    if rounds == [] then map[]
    else
      var r := rounds[|rounds| - 1];
      Checked(AfterRounds(rounds[..|rounds| - 1], threshold, growthRatio), r.findings, r.posts, threshold, growthRatio)
  }

  /** The turns a check gives its findings, in order. */
  function Turns(findings: seq<AgentFinding>, posts: nat -> bool): (turns: seq<Attempt>) {
    seq(|findings|, (n: nat) requires n < |findings| => Attempt(findings[n], posts(n)))
  }

  function AllTurns(rounds: seq<Round>): (turns: seq<Attempt>) {
    if rounds == [] then []
    else
      var r := rounds[|rounds| - 1];
      AllTurns(rounds[..|rounds| - 1]) + Turns(r.findings, r.posts)
  }

  lemma {:induction false} CheckIsARun(attempts: seq<Attempt>, findings: seq<AgentFinding>, posts: nat -> bool,
                                       threshold: real, growthRatio: real)
    ensures Checked(Run(attempts, threshold, growthRatio), findings, posts, threshold, growthRatio)
         == Run(attempts + Turns(findings, posts), threshold, growthRatio)
  {
    hide Turn;
    var all := attempts + Turns(findings, posts);
    if findings == [] {
      assert all == attempts;
    } else {
      var n := |findings| - 1;
      CheckIsARun(attempts, findings[..n], posts, threshold, growthRatio);
      assert all[..|all| - 1] == attempts + Turns(findings[..n], posts);
    }
  }

  /** Any sequence of checks is a run of attempts, so what holds of every run holds of a checking alerter. */
  lemma {:induction false} RoundsAreARun(rounds: seq<Round>, threshold: real, growthRatio: real)
    ensures AfterRounds(rounds, threshold, growthRatio) == Run(AllTurns(rounds), threshold, growthRatio)
  {
    hide Turns, Turn, Checked;
    if rounds != [] {
      var r, front := rounds[|rounds| - 1], rounds[..|rounds| - 1];
      RoundsAreARun(front, threshold, growthRatio);
      CheckIsARun(AllTurns(front), r.findings, r.posts, threshold, growthRatio);
    }
  }

  /** The bound for a checking alerter: after `k` successful posts for a key over any sequence of checks. */
  lemma RoundsAreBounded(rounds: seq<Round>, threshold: real, growthRatio: real, key: string)
    requires growthRatio >= 1.0
    ensures Recorded(AfterRounds(rounds, threshold, growthRatio), key, threshold, growthRatio,
                     Posts(AllTurns(rounds), threshold, growthRatio, key))
  {
    hide *;
    RoundsAreARun(rounds, threshold, growthRatio);
    PostsAreBounded(AllTurns(rounds), threshold, growthRatio, key);
  }

  // ----- The rule, by what was posted before -----

  predicate SameFlow(f: AgentFinding, g: AgentFinding) {
    f.cgroupId == g.cgroupId && f.class_ == g.class_ && f.destIp == g.destIp
  }

  /** Turn `j` was the last before `i` to be posted for the same flow. */
  ghost predicate LastBefore(attempts: seq<Attempt>, posted: iset<int>, i: int, j: int)
    requires 0 <= i <= |attempts|
  {
    && 0 <= j < i < |attempts| && j in posted && SameFlow(attempts[j].f, attempts[i].f)
    && forall m | j < m < i && m in posted :: !SameFlow(attempts[m].f, attempts[i].f)
  }

  /** Of all turns, exactly those were posted whose post succeeds, whose cost reaches the threshold, and whose cost is
      the ratio times that of the last post for the same flow, if that cost something. */
  ghost predicate PostedByRule(attempts: seq<Attempt>, posted: iset<int>, threshold: real, growthRatio: real) {
    forall i :: i in posted <==>
      && 0 <= i < |attempts|
      && attempts[i].posts && attempts[i].f.costHigh >= threshold
      && forall j | LastBefore(attempts, posted, i, j) ::
           attempts[j].f.costHigh <= 0.0 || attempts[i].f.costHigh >= attempts[j].f.costHigh * growthRatio
  }

  ghost predicate IsPosted(attempts: seq<Attempt>, i: int, threshold: real, growthRatio: real) {
    && 0 <= i < |attempts| && attempts[i].posts
    && IsDue(Run(attempts[..i], threshold, growthRatio), attempts[i].f, threshold, growthRatio)
  }

  ghost function Posted(attempts: seq<Attempt>, threshold: real, growthRatio: real): iset<int> {
    iset i | IsPosted(attempts, i, threshold, growthRatio)
  }

  lemma KeyIsFlow(f: AgentFinding, g: AgentFinding)
    ensures KeyOf(f) == KeyOf(g) <==> SameFlow(f, g)
  {
    hide FindingKey;
    if KeyOf(f) == KeyOf(g) {
      KeyInjective(f.cgroupId, f.class_, f.destIp, g.cgroupId, g.class_, g.destIp);
    }
  }

  /** The last turn posted for a flow, or -1. */
  ghost function LastPost(attempts: seq<Attempt>, f: AgentFinding, threshold: real, growthRatio: real): (j: int)
    ensures -1 <= j < |attempts|
  {
    if attempts == [] then -1
    else
      var n := |attempts| - 1;
      if IsPosted(attempts, n, threshold, growthRatio) && SameFlow(attempts[n].f, f) then n
      else LastPost(attempts[..n], f, threshold, growthRatio)
  }

  lemma PostedBefore(attempts: seq<Attempt>, n: nat, i: int, threshold: real, growthRatio: real)
    requires i < n <= |attempts|
    ensures IsPosted(attempts[..n], i, threshold, growthRatio) <==> IsPosted(attempts, i, threshold, growthRatio)
  {
    hide IsDue;
    if i >= 0 {
      assert attempts[..n][..i] == attempts[..i];
    }
  }

  lemma {:induction false} LastPostIsLast(attempts: seq<Attempt>, f: AgentFinding, threshold: real, growthRatio: real)
    ensures var j := LastPost(attempts, f, threshold, growthRatio);
      && (j >= 0 ==> IsPosted(attempts, j, threshold, growthRatio) && SameFlow(attempts[j].f, f))
      && forall m | j < m < |attempts| && IsPosted(attempts, m, threshold, growthRatio) :: !SameFlow(attempts[m].f, f)
  {
    hide IsPosted, SameFlow;
    if attempts != [] {
      var n := |attempts| - 1;
      LastPostIsLast(attempts[..n], f, threshold, growthRatio);
      forall m | m < n
        ensures IsPosted(attempts[..n], m, threshold, growthRatio) <==> IsPosted(attempts, m, threshold, growthRatio)
      {
        PostedBefore(attempts, n, m, threshold, growthRatio);
      }
    }
  }

  /** The record of a flow is the cost of its last post. */
  lemma {:induction false} RunRemembers(attempts: seq<Attempt>, f: AgentFinding, threshold: real, growthRatio: real)
    ensures var last, j := Run(attempts, threshold, growthRatio), LastPost(attempts, f, threshold, growthRatio);
      if j >= 0 then KeyOf(f) in last && last[KeyOf(f)] == attempts[j].f.costHigh else KeyOf(f) !in last
  {
    hide KeyOf, SameFlow, IsDue;
    if attempts != [] {
      var n := |attempts| - 1;
      RunRemembers(attempts[..n], f, threshold, growthRatio);
      KeyIsFlow(attempts[n].f, f);
    }
  }

  /** Over any sequence of turns, what is posted follows from the costs and earlier posts alone. */
  lemma PostsFollowTheRule(attempts: seq<Attempt>, threshold: real, growthRatio: real)
    ensures PostedByRule(attempts, Posted(attempts, threshold, growthRatio), threshold, growthRatio)
  {
    hide KeyOf, SameFlow, Run, IsDue;
    var posted := Posted(attempts, threshold, growthRatio);
    forall i | 0 <= i < |attempts|
      ensures IsDue(Run(attempts[..i], threshold, growthRatio), attempts[i].f, threshold, growthRatio) <==>
        && attempts[i].f.costHigh >= threshold
        && forall j | LastBefore(attempts, posted, i, j) ::
             attempts[j].f.costHigh <= 0.0 || attempts[i].f.costHigh >= attempts[j].f.costHigh * growthRatio
    {
      DueByRule(attempts, i, threshold, growthRatio);
    }
  }

  /** The record when turn `i` comes is the cost of the last post before it. */
  ghost predicate RecordBefore(attempts: seq<Attempt>, posted: iset<int>, last: map<string, real>, i: nat)
    requires i < |attempts|
  {
    var key := KeyOf(attempts[i].f);
    if key in last then
      exists j | LastBefore(attempts, posted, i, j) ::
        last[key] == attempts[j].f.costHigh && forall m | LastBefore(attempts, posted, i, m) :: m == j
    else forall j :: !LastBefore(attempts, posted, i, j)
  }

  lemma RecordIsLastPost(attempts: seq<Attempt>, i: nat, threshold: real, growthRatio: real)
    requires i < |attempts|
    ensures RecordBefore(attempts, Posted(attempts, threshold, growthRatio),
                         Run(attempts[..i], threshold, growthRatio), i)
  {
    hide KeyOf, SameFlow, Run, IsPosted, LastPost;
    var front, f := attempts[..i], attempts[i].f;
    RunRemembers(front, f, threshold, growthRatio);
    LastPostIsLast(front, f, threshold, growthRatio);
    forall m | m < i
      ensures IsPosted(front, m, threshold, growthRatio) <==> IsPosted(attempts, m, threshold, growthRatio)
    {
      PostedBefore(attempts, i, m, threshold, growthRatio);
    }
    var j := LastPost(front, f, threshold, growthRatio);
    if j >= 0 {
      assert LastBefore(attempts, Posted(attempts, threshold, growthRatio), i, j);
    }
  }

  lemma DueByRule(attempts: seq<Attempt>, i: nat, threshold: real, growthRatio: real)
    requires i < |attempts|
    ensures IsDue(Run(attempts[..i], threshold, growthRatio), attempts[i].f, threshold, growthRatio) <==>
      && attempts[i].f.costHigh >= threshold
      && forall j | LastBefore(attempts, Posted(attempts, threshold, growthRatio), i, j) ::
           attempts[j].f.costHigh <= 0.0 || attempts[i].f.costHigh >= attempts[j].f.costHigh * growthRatio
  {
    hide KeyOf, SameFlow, Run, IsPosted, Posted;
    RecordIsLastPost(attempts, i, threshold, growthRatio);
  }

  /** What a check posts is what the rule says for its turns after all earlier ones. */
  lemma ChecksFollowTheRule(rounds: seq<Round>, findings: seq<AgentFinding>, posts: nat -> bool, threshold: real,
                            growthRatio: real, n: nat)
    requires n < |findings|
    ensures var before, last := AllTurns(rounds), AfterRounds(rounds, threshold, growthRatio);
      var due := DueAtTurn(last, findings, posts, threshold, growthRatio, n);
      posts(n) && due <==> |before| + n in Posted(before + Turns(findings, posts), threshold, growthRatio)
  {
    hide Run, Checked, Turns, IsDue, AllTurns;
    var before := AllTurns(rounds);
    RoundsAreARun(rounds, threshold, growthRatio);
    CheckIsARun(before, findings[..n], posts, threshold, growthRatio);
    TurnsPrefix(before, findings, posts, n);
  }

  lemma TurnsPrefix(before: seq<Attempt>, findings: seq<AgentFinding>, posts: nat -> bool, n: nat)
    requires n < |findings|
    ensures var all := before + Turns(findings, posts);
      && |before| + n < |all| && all[..|before| + n] == before + Turns(findings[..n], posts)
      && all[|before| + n] == Attempt(findings[n], posts(n))
  {
  }

  // ----- Settling -----

  lemma SettlesItself(cost: real, ratio: real)
    ensures Settled(cost, cost, ratio) <==> cost > 0.0 && ratio > 1.0
  {
    if cost > 0.0 && ratio > 1.0 {
      assert cost * (ratio - 1.0) > 0.0;
    } else if cost > 0.0 {
      assert cost * (1.0 - ratio) >= 0.0;
    }
  }

  lemma SettlesLesser(recorded: real, cost: real, higher: real, ratio: real)
    requires higher > 0.0 && ratio > 1.0 && Settled(recorded, cost, ratio) && !Settled(recorded, higher, ratio)
    ensures Settled(higher, cost, ratio)
  {
    SettlesItself(higher, ratio);
  }

  /** What a successful post leaves: the finding is due again exactly when it costs nothing or the ratio is at most
      one. */
  lemma DueAfterPost(last: map<string, real>, f: AgentFinding, threshold: real, growthRatio: real)
    requires IsDue(last, f, threshold, growthRatio)
    ensures IsDue(Turn(last, f, true, threshold, growthRatio), f, threshold, growthRatio)
       <==> f.costHigh <= 0.0 || growthRatio <= 1.0
  {
    hide KeyOf, Settled;
    SettlesItself(f.costHigh, growthRatio);
  }

  ghost predicate DistinctKeys(findings: seq<AgentFinding>) {
    forall i, j | 0 <= i < j < |findings| :: KeyOf(findings[i]) != KeyOf(findings[j])
  }

  lemma {:induction false} OtherKeysKept(last: map<string, real>, findings: seq<AgentFinding>, posts: nat -> bool,
                                         threshold: real, growthRatio: real, f: AgentFinding)
    requires forall i | 0 <= i < |findings| :: KeyOf(findings[i]) != KeyOf(f)
    ensures LastOf(Checked(last, findings, posts, threshold, growthRatio), f) == LastOf(last, f)
  {
    hide KeyOf, IsDue;
    if findings != [] {
      OtherKeysKept(last, findings[..|findings| - 1], posts, threshold, growthRatio, f);
    }
  }

  lemma DueByRecord(a: map<string, real>, b: map<string, real>, f: AgentFinding, threshold: real, growthRatio: real)
    requires LastOf(a, f) == LastOf(b, f)
    ensures IsDue(a, f, threshold, growthRatio) <==> IsDue(b, f, threshold, growthRatio)
  {
    hide KeyOf, LastOf, Settled;
  }

  /** A report has one finding per key. After a check of it a finding is due exactly when it was due before and either
      its post failed, or it costs nothing, or the ratio is at most one. */
  lemma {:induction false} DueAfterCheck(last: map<string, real>, findings: seq<AgentFinding>, posts: nat -> bool,
                                         threshold: real, growthRatio: real, n: nat)
    requires DistinctKeys(findings) && n < |findings|
    ensures IsDue(Checked(last, findings, posts, threshold, growthRatio), findings[n], threshold, growthRatio)
       <==> IsDue(last, findings[n], threshold, growthRatio)
            && (!posts(n) || findings[n].costHigh <= 0.0 || growthRatio <= 1.0)
  {
    hide KeyOf, IsDue, LastOf, Turn;
    var m := |findings| - 1;
    var f, front := findings[n], findings[..m];
    var before := Checked(last, front, posts, threshold, growthRatio);
    if n < m {
      assert front[n] == f;
      DueAfterCheck(last, front, posts, threshold, growthRatio, n);
      OtherTurnKept(before, findings[m], f, posts(m), threshold, growthRatio);
    } else {
      OtherKeysKept(last, front, posts, threshold, growthRatio, f);
      DueByRecord(before, last, f, threshold, growthRatio);
      LastTurn(before, f, posts(n), threshold, growthRatio);
    }
  }

  /** The findings of a report, in any order. */
  ghost predicate Lists(findings: seq<AgentFinding>, byKey: map<string, AgentFinding>) {
    exists keys :: ListsBy(findings, byKey, keys)
  }

  ghost predicate ListsBy(findings: seq<AgentFinding>, byKey: map<string, AgentFinding>, keys: seq<string>) {
    && multiset(keys) == multiset(byKey.Keys) && |findings| == |keys|
    && forall i | 0 <= i < |keys| :: keys[i] in byKey && findings[i] == byKey[keys[i]]
  }

  /** Every reachable report has one finding per key. */
  lemma ReportsHaveDistinctKeys(s: Settings, calls: seq<ReportRuns.Call>, findings: seq<AgentFinding>)
    requires Lists(findings, ReportRuns.Run(s, calls))
    ensures DistinctKeys(findings)
  {
    hide ReportRuns.Run, FindingKey;
    ReportRuns.RunIsConsistent(s, calls);
    var byKey := ReportRuns.Run(s, calls);
    var keys :| ListsBy(findings, byKey, keys);
    ListingHasNoRepeats(keys, byKey.Keys);
  }

  /** So for a listing of any reachable report, in any order: due after a check means due before and not posted, or
      free, or a ratio of at most one. */
  lemma DueAfterReport(last: map<string, real>, s: Settings, calls: seq<ReportRuns.Call>, findings: seq<AgentFinding>,
                       posts: nat -> bool, threshold: real, growthRatio: real, n: nat)
    requires Lists(findings, ReportRuns.Run(s, calls)) && n < |findings|
    ensures IsDue(Checked(last, findings, posts, threshold, growthRatio), findings[n], threshold, growthRatio)
       <==> IsDue(last, findings[n], threshold, growthRatio)
            && (!posts(n) || findings[n].costHigh <= 0.0 || growthRatio <= 1.0)
  {
    hide *;
    ReportsHaveDistinctKeys(s, calls, findings);
    DueAfterCheck(last, findings, posts, threshold, growthRatio, n);
  }

  lemma OtherTurnKept(last: map<string, real>, g: AgentFinding, f: AgentFinding, posts: bool, threshold: real,
                      growthRatio: real)
    requires KeyOf(g) != KeyOf(f)
    ensures IsDue(Turn(last, g, posts, threshold, growthRatio), f, threshold, growthRatio)
       <==> IsDue(last, f, threshold, growthRatio)
  {
    hide KeyOf, Settled;
  }

  lemma LastTurn(last: map<string, real>, f: AgentFinding, posts: bool, threshold: real, growthRatio: real)
    ensures IsDue(Turn(last, f, posts, threshold, growthRatio), f, threshold, growthRatio)
       <==> IsDue(last, f, threshold, growthRatio) && (!posts || f.costHigh <= 0.0 || growthRatio <= 1.0)
  {
    hide KeyOf, Settled;
    if IsDue(last, f, threshold, growthRatio) && posts {
      DueAfterPost(last, f, threshold, growthRatio);
    }
  }

  lemma StaysSettled(last: map<string, real>, g: AgentFinding, f: AgentFinding, posts: bool, threshold: real,
                     growthRatio: real)
    requires growthRatio > 1.0 && (g.costHigh >= threshold ==> g.costHigh > 0.0)
             && !IsDue(last, f, threshold, growthRatio)
    ensures !IsDue(Turn(last, g, posts, threshold, growthRatio), f, threshold, growthRatio)
  {
    hide KeyOf, Settled;
    if f.costHigh >= threshold && KeyOf(g) == KeyOf(f) && IsDue(last, g, threshold, growthRatio) && posts {
      SettlesLesser(LastOf(last, f), f.costHigh, g.costHigh, growthRatio);
    }
  }

  /** Keys may repeat here: with a ratio above one, a check whose posts all succeed leaves nothing due, provided
      whatever reaches the threshold costs something. */
  lemma {:induction false} CheckSettles(last: map<string, real>, findings: seq<AgentFinding>, posts: nat -> bool,
                                        threshold: real, growthRatio: real)
    requires growthRatio > 1.0 && forall n | 0 <= n < |findings| :: posts(n)
    requires forall f | f in findings :: f.costHigh >= threshold ==> f.costHigh > 0.0
    ensures forall f | f in findings ::
              !IsDue(Checked(last, findings, posts, threshold, growthRatio), f, threshold, growthRatio)
  {
    hide KeyOf, IsDue, Turn;
    if findings != [] {
      var n := |findings| - 1;
      var front := findings[..n];
      assert findings == front + [findings[n]];
      CheckSettles(last, front, posts, threshold, growthRatio);
      var before := Checked(last, front, posts, threshold, growthRatio);
      LastTurn(before, findings[n], true, threshold, growthRatio);
      assert findings[n].costHigh < threshold ==> !IsDue(before, findings[n], threshold, growthRatio) by {
        BelowThreshold(before, findings[n], threshold, growthRatio);
      }
      forall f | f in front
        ensures !IsDue(Checked(last, findings, posts, threshold, growthRatio), f, threshold, growthRatio)
      {
        StaysSettled(before, findings[n], f, posts(n), threshold, growthRatio);
      }
    }
  }

  lemma BelowThreshold(last: map<string, real>, f: AgentFinding, threshold: real, growthRatio: real)
    ensures f.costHigh < threshold ==> !IsDue(last, f, threshold, growthRatio)
  {
  }

  /** Posted successfully, a report leaves nothing due exactly when each of its due findings costs something and the
      ratio is above one. */
  lemma SettledIff(last: map<string, real>, findings: seq<AgentFinding>, posts: nat -> bool, threshold: real,
                   growthRatio: real)
    requires DistinctKeys(findings) && forall n | 0 <= n < |findings| :: posts(n)
    ensures (forall n | 0 <= n < |findings| ::
               !IsDue(Checked(last, findings, posts, threshold, growthRatio), findings[n], threshold, growthRatio))
       <==> (forall n | 0 <= n < |findings| ::
               IsDue(last, findings[n], threshold, growthRatio) ==> findings[n].costHigh > 0.0 && growthRatio > 1.0)
  {
    hide *;
    forall n | 0 <= n < |findings|
      ensures IsDue(Checked(last, findings, posts, threshold, growthRatio), findings[n], threshold, growthRatio)
         <==> IsDue(last, findings[n], threshold, growthRatio) && (findings[n].costHigh <= 0.0 || growthRatio <= 1.0)
    {
      DueAfterCheck(last, findings, posts, threshold, growthRatio, n);
    }
  }
}
