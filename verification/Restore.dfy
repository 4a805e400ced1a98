/** Replacing aliases by names, longest alias first, undoes the aliasing of a text. */
module Restore {
  import opened Aliases
  import opened Text

  // ----- strings.ReplaceAll -----

  function ReplaceAll(t: string, a: string, r: string): string
    requires a != ""
  {
    if |t| < |a| then t
    else if t[..|a|] == a then r + ReplaceAll(t[|a|..], a, r)
    else [t[0]] + ReplaceAll(t[1..], a, r)
  }

  /** `a` is a substring of `t`. */
  predicate Occurs(a: string, t: string) {
    a <= t || (t != "" && Occurs(a, t[1..]))
  }

  lemma {:induction false} ReplaceAbsent(t: string, a: string, r: string)
    requires a != "" && !Occurs(a, t)
    ensures ReplaceAll(t, a, r) == t
  {
    if t != "" {
      ReplaceAbsent(t[1..], a, r);
      ReplaceSkips(t, a, r);
    }
  }

  lemma ReplaceHits(t: string, a: string, r: string)
    requires a != "" && a <= t
    ensures ReplaceAll(t, a, r) == r + ReplaceAll(t[|a|..], a, r)
  {
  }

  lemma ReplaceWhole(a: string, r: string)
    requires a != ""
    ensures ReplaceAll(a, a, r) == r
  {
    assert a[..|a|] == a && a[|a|..] == "";
  }

  lemma ReplaceSkips(t: string, a: string, r: string)
    requires a != "" && t != "" && !(a <= t)
    ensures ReplaceAll(t, a, r) == [t[0]] + ReplaceAll(t[1..], a, r)
  {
    assert t == [t[0]] + t[1..];
  }

  /** A character that is not part of the alias keeps what is left of it apart from what is right of it. */
  lemma {:induction false} ReplaceSplits(x: string, y: string, a: string, r: string)
    requires a != ""
    requires x == "" || y == "" || x[|x| - 1] !in a || y[0] !in a
    ensures ReplaceAll(x + y, a, r) == ReplaceAll(x, a, r) + ReplaceAll(y, a, r)
    decreases |x|
  {
    if x == "" {
      assert x + y == y;
    } else if y == "" {
      assert x + y == x;
    } else if a <= x {
      ReplaceSplits(x[|a|..], y, a, r);
      SplitAfterHit(x, y, a, r);
    } else {
      ReplaceSplits(x[1..], y, a, r);
      NoStraddle(x, y, a);
      SplitAfterSkip(x, y, a, r, ReplaceAll(x[1..], a, r), ReplaceAll(y, a, r));
    }
  }

  lemma SplitAfterHit(x: string, y: string, a: string, r: string)
    requires a != "" && a <= x
    requires ReplaceAll(x[|a|..] + y, a, r) == ReplaceAll(x[|a|..], a, r) + ReplaceAll(y, a, r)
    ensures ReplaceAll(x + y, a, r) == ReplaceAll(x, a, r) + ReplaceAll(y, a, r)
  {
    assert (x + y)[|a|..] == x[|a|..] + y;
    ReplaceHits(x, a, r);
    ReplaceHits(x + y, a, r);
  }

  lemma SplitAfterSkip(x: string, y: string, a: string, r: string, p: string, q: string)
    requires a != "" && x != "" && !(a <= x) && !(a <= x + y)
    requires p == ReplaceAll(x[1..], a, r) && ReplaceAll(x[1..] + y, a, r) == p + q
    ensures ReplaceAll(x + y, a, r) == ReplaceAll(x, a, r) + q
  {
    assert (x + y)[1..] == x[1..] + y;
    ReplaceSkips(x, a, r);
    ReplaceSkips(x + y, a, r);
    assert [x[0]] + (p + q) == [x[0]] + p + q;
  }

  lemma NoStraddle(x: string, y: string, a: string)
    requires x != "" && y != "" && !(a <= x)
    requires x[|x| - 1] !in a || y[0] !in a
    ensures !(a <= x + y)
  {
    var t := x + y;
    if |a| > |x| {
      assert t[|x| - 1] == x[|x| - 1] && t[|x|] == y[0];
    } else {
      assert t[..|a|] == x[..|a|];
    }
  }

  // ----- A text of aliases -----

  /** A text: alias slots with plain text before, between and after them. */
  datatype Spoken = End(tail: string) | Slot(before: string, entry: Issue, rest: Spoken)

  /** The text as sent. */
  function Sent(text: Spoken): string {
    match text
    case End(tail) => tail
    case Slot(before, e, rest) => before + e.Alias() + Sent(rest)
  }

  /** The text with every name in place. */
  function Names(text: Spoken): string {
    match text
    case End(tail) => tail
    case Slot(before, e, rest) => before + e.real_ + Names(rest)
  }

  ghost predicate AliasFree(s: string, issued: seq<Issue>) {
    forall e | e in issued :: !Occurs(e.Alias(), s)
  }

  /** Slots hold issued aliases; the plain text contains none and borders slots with characters no alias has. */
  ghost predicate Clear(text: Spoken, issued: seq<Issue>, first: bool) {
    match text
    case End(tail) => AliasFree(tail, issued) && (first || tail == "" || !IsWordChar(tail[0]))
    case Slot(before, e, rest) =>
      && e in issued && AliasFree(before, issued)
      && (before == "" || !IsWordChar(before[|before| - 1]))
      && (first || (before != "" && !IsWordChar(before[0])))
      && Clear(rest, issued, false)
  }

  lemma {:induction false} ShorterCannotContain(a: string, t: string)
    requires |a| > |t|
    ensures !Occurs(a, t)
  {
    if t != "" {
      ShorterCannotContain(a, t[1..]);
    }
  }

  lemma OtherCannotContain(a: string, t: string)
    requires |a| >= |t| && a != t && a != ""
    ensures !Occurs(a, t)
  {
    if |a| > |t| {
      ShorterCannotContain(a, t);
    } else {
      ShorterCannotContain(a, t[1..]);
    }
  }

  /** Plain text free of the alias, a slot, and text that starts with a separating character. */
  lemma ReplaceAround(before: string, x: string, y: string, a: string, r: string)
    requires a != "" && forall c | c in a :: IsWordChar(c)
    requires !Occurs(a, before) && (before == "" || !IsWordChar(before[|before| - 1]))
    requires y == "" || !IsWordChar(y[0])
    ensures ReplaceAll(before + x + y, a, r) == before + ReplaceAll(x, a, r) + ReplaceAll(y, a, r)
  {
    hide ReplaceAll, Occurs, IsWordChar;
    ReplaceAbsent(before, a, r);
    ReplaceSplits(x, y, a, r);
    var rest := x + y;
    ReplaceSplits(before, rest, a, r);
    assert before + x + y == before + rest;
    assert before + ReplaceAll(x, a, r) + ReplaceAll(y, a, r) == before + (ReplaceAll(x, a, r) + ReplaceAll(y, a, r));
  }

  lemma AliasTextIsWordOf(issued: seq<Issue>, a: Issue)
    requires Proper(issued) && a in issued
    ensures a.Alias() != "" && forall c | c in a.Alias() :: IsWordChar(c)
  {
    AliasTextIsWord(a.kind, a.n);
  }

  // ----- Replacing one alias after the other -----

  ghost predicate Replaceable(order: seq<string>, reverse: map<string, string>) {
    forall i | 0 <= i < |order| :: order[i] != "" && order[i] in reverse
  }

  /** Replacing the aliases of `order` one after the other. */
  ghost function RestoreIn(order: seq<string>, reverse: map<string, string>, text: string): string
    requires Replaceable(order, reverse)
  {
    if order == [] then text
    else ReplaceAll(RestoreIn(order[..|order| - 1], reverse, text), order[|order| - 1], reverse[order[|order| - 1]])
  }

  ghost predicate IsAlias(issued: seq<Issue>, a: string) {
    exists e | e in issued :: e.Alias() == a
  }

  ghost predicate Reverses(reverse: map<string, string>, issued: seq<Issue>) {
    && (forall e | e in issued :: e.Alias() in reverse && reverse[e.Alias()] == e.real_)
    && (forall a | a in reverse :: exists e | e in issued :: e.Alias() == a)
  }

  /** Every alias once, none longer than an earlier one; aliases of equal length in any order. */
  ghost predicate LongestFirst(order: seq<string>, reverse: map<string, string>) {
    && (forall a :: a in order <==> a in reverse)
    && (forall i, j | 0 <= i < j < |order| :: order[i] != order[j] && |order[i]| >= |order[j]|)
  }

  // ----- Slots are restored one by one -----

  /** The text with every slot restored on its own. */
  ghost function SlotsRestored(text: Spoken, order: seq<string>, reverse: map<string, string>): string
    requires Replaceable(order, reverse)
  {
    match text
    case End(tail) => tail
    case Slot(before, e, rest) => before + RestoreIn(order, reverse, e.Alias()) + SlotsRestored(rest, order, reverse)
  }

  lemma RestStartsApart(rest: Spoken, issued: seq<Issue>, order: seq<string>, reverse: map<string, string>)
    requires Clear(rest, issued, false) && Replaceable(order, reverse)
    ensures SlotsRestored(rest, order, reverse) == "" || !IsWordChar(SlotsRestored(rest, order, reverse)[0])
  {
    hide RestoreIn;
  }

  lemma {:induction false} SlotsOneMore(text: Spoken, issued: seq<Issue>, first: bool, order: seq<string>,
                                        reverse: map<string, string>, a: Issue)
    requires Proper(issued) && Clear(text, issued, first) && a in issued
    requires order != [] && Replaceable(order, reverse) && order[|order| - 1] == a.Alias()
    ensures Replaceable(order[..|order| - 1], reverse)
    ensures ReplaceAll(SlotsRestored(text, order[..|order| - 1], reverse), a.Alias(), reverse[a.Alias()])
         == SlotsRestored(text, order, reverse)
  {
    AliasTextIsWordOf(issued, a);
    var front := order[..|order| - 1];
    match text
    case End(tail) => ReplaceAbsent(tail, a.Alias(), reverse[a.Alias()]);
    case Slot(before, e, rest) =>
      SlotsOneMore(rest, issued, false, order, reverse, a);
      RestStartsApart(rest, issued, front, reverse);
      ReplaceAround(before, RestoreIn(front, reverse, e.Alias()), SlotsRestored(rest, front, reverse), a.Alias(),
                    reverse[a.Alias()]);
  }

  lemma {:induction false} SlotsOfNothing(text: Spoken, reverse: map<string, string>)
    ensures SlotsRestored(text, [], reverse) == Sent(text)
  {
    match text
    case End(tail) =>
    case Slot(before, e, rest) => SlotsOfNothing(rest, reverse);
  }

  /** In any order, a clear text is restored slot by slot: no replacement reaches over the text between them. */
  lemma {:induction false} SlotsRestoreApart(text: Spoken, issued: seq<Issue>, order: seq<string>,
                                             reverse: map<string, string>)
    requires Proper(issued) && Clear(text, issued, true) && Replaceable(order, reverse)
    requires forall i | 0 <= i < |order| :: IsAlias(issued, order[i])
    ensures RestoreIn(order, reverse, Sent(text)) == SlotsRestored(text, order, reverse)
  {
    if order == [] {
      SlotsOfNothing(text, reverse);
    } else {
      var front := order[..|order| - 1];
      SlotsRestoreApart(text, issued, front, reverse);
      assert IsAlias(issued, order[|order| - 1]);
      var a :| a in issued && a.Alias() == order[|order| - 1];
      SlotsOneMore(text, issued, true, order, reverse, a);
    }
  }

  // ----- When an alias comes back -----

  /** The aliases replaced after the `i`-th leave its name as it is. */
  ghost predicate ComesBack(order: seq<string>, reverse: map<string, string>, i: nat)
    requires Replaceable(order, reverse) && i < |order|
  {
    RestoreIn(order[i + 1..], reverse, reverse[order[i]]) == reverse[order[i]]
  }

  lemma {:induction false} RestoreInParts(a: seq<string>, b: seq<string>, reverse: map<string, string>, text: string)
    requires Replaceable(a, reverse) && Replaceable(b, reverse) && Replaceable(a + b, reverse)
    ensures RestoreIn(a + b, reverse, text) == RestoreIn(b, reverse, RestoreIn(a, reverse, text))
  {
    if b == [] {
      assert a + b == a;
    } else {
      var front, last := b[..|b| - 1], b[|b| - 1];
      assert a + b == (a + front) + [last];
      assert (a + b)[..|a + b| - 1] == a + front;
      RestoreInParts(a, front, reverse, text);
    }
  }

  lemma {:induction false} LongerLeaveAlone(order: seq<string>, reverse: map<string, string>, a: string)
    requires Replaceable(order, reverse) && forall i | 0 <= i < |order| :: order[i] != a && |order[i]| >= |a|
    ensures RestoreIn(order, reverse, a) == a
  {
    if order != [] {
      var last := order[|order| - 1];
      LongerLeaveAlone(order[..|order| - 1], reverse, a);
      OtherCannotContain(last, a);
      ReplaceAbsent(a, last, reverse[last]);
    }
  }

  lemma RestoreSelf(reverse: map<string, string>, a: string)
    requires a != "" && a in reverse
    ensures RestoreIn([a], reverse, a) == reverse[a]
  {
    assert [a][..0] == [];
    ReplaceWhole(a, reverse[a]);
  }

  lemma BecomesInParts(before: seq<string>, a: string, later: seq<string>, reverse: map<string, string>)
    requires Replaceable(before, reverse) && Replaceable(later, reverse) && a != "" && a in reverse
    requires forall j | 0 <= j < |before| :: before[j] != a && |before[j]| >= |a|
    ensures Replaceable(before + ([a] + later), reverse)
    ensures RestoreIn(before + ([a] + later), reverse, a) == RestoreIn(later, reverse, reverse[a])
  {
    hide RestoreIn;
    LongerLeaveAlone(before, reverse, a);
    RestoreSelf(reverse, a);
    RestoreInParts([a], later, reverse, a);
    RestoreInParts(before, [a] + later, reverse, a);
  }

  /** What an alias is restored to: its name, after the aliases replaced later. */
  lemma AliasBecomes(order: seq<string>, reverse: map<string, string>, i: nat)
    requires Replaceable(order, reverse) && LongestFirst(order, reverse) && i < |order|
    ensures RestoreIn(order, reverse, order[i]) == RestoreIn(order[i + 1..], reverse, reverse[order[i]])
  {
    hide RestoreIn, LongestFirst;
    SplitAt(order, i);
    PartsReplaceable(order, reverse, i);
    BecomesInParts(order[..i], order[i], order[i + 1..], reverse);
  }

  lemma PartsReplaceable(order: seq<string>, reverse: map<string, string>, i: nat)
    requires Replaceable(order, reverse) && LongestFirst(order, reverse) && i < |order|
    ensures Replaceable(order[..i], reverse) && Replaceable(order[i + 1..], reverse)
    ensures forall j | 0 <= j < i :: order[..i][j] != order[i] && |order[..i][j]| >= |order[i]|
  {
  }

  /** An alias is restored to its name exactly when the aliases replaced after it leave the name as it is. */
  lemma AliasRestoredIff(order: seq<string>, reverse: map<string, string>, i: nat)
    requires Replaceable(order, reverse) && LongestFirst(order, reverse) && i < |order|
    ensures RestoreIn(order, reverse, order[i]) == reverse[order[i]] <==> ComesBack(order, reverse, i)
  {
    hide RestoreIn;
    AliasBecomes(order, reverse, i);
  }

  // ----- The whole restoration -----

  /** No name contains another alias that may be replaced after its own. */
  ghost predicate NamesClear(issued: seq<Issue>) {
    forall e, f | e in issued && f in issued && e != f && |f.Alias()| <= |e.Alias()| :: !Occurs(f.Alias(), e.real_)
  }

  ghost predicate Returns(order: seq<string>, reverse: map<string, string>, a: string)
    requires Replaceable(order, reverse)
  {
    forall i | 0 <= i < |order| && order[i] == a :: ComesBack(order, reverse, i)
  }

  /** An issued alias is restored to its name exactly when it returns. */
  lemma EntryRestoredIff(order: seq<string>, reverse: map<string, string>, issued: seq<Issue>, e: Issue)
    requires Proper(issued) && Reverses(reverse, issued) && LongestFirst(order, reverse) && e in issued
    ensures Replaceable(order, reverse)
    ensures RestoreIn(order, reverse, e.Alias()) == e.real_ <==> Returns(order, reverse, e.Alias())
  {
    hide RestoreIn, ComesBack, AliasText;
    OrderIsReplaceable(order, reverse, issued);
    forall i | 0 <= i < |order| && order[i] == e.Alias()
      ensures RestoreIn(order, reverse, e.Alias()) == e.real_ <==> ComesBack(order, reverse, i)
    {
      AliasRestoredIff(order, reverse, i);
    }
    assert e.Alias() in order;
  }

  /** Every slot's alias returns. */
  ghost predicate AllComeBack(text: Spoken, order: seq<string>, reverse: map<string, string>)
    requires Replaceable(order, reverse)
  {
    match text
    case End(_) => true
    case Slot(_, e, rest) => Returns(order, reverse, e.Alias()) && AllComeBack(rest, order, reverse)
  }

  lemma OrderIsReplaceable(order: seq<string>, reverse: map<string, string>, issued: seq<Issue>)
    requires Proper(issued) && Reverses(reverse, issued) && LongestFirst(order, reverse)
    ensures Replaceable(order, reverse)
    ensures forall i | 0 <= i < |order| :: IsAlias(issued, order[i])
    ensures forall e | e in issued :: e.Alias() in order && reverse[e.Alias()] == e.real_
  {
    forall i | 0 <= i < |order| ensures order[i] != "" && order[i] in reverse && IsAlias(issued, order[i]) {
      assert order[i] in order;
      var e :| e in issued && e.Alias() == order[i];
      AliasTextIsWordOf(issued, e);
    }
  }

  lemma {:induction false} SlotsComeBack(text: Spoken, issued: seq<Issue>, first: bool, order: seq<string>,
                                         reverse: map<string, string>)
    requires Proper(issued) && Clear(text, issued, first) && Reverses(reverse, issued) && LongestFirst(order, reverse)
    requires Replaceable(order, reverse) && AllComeBack(text, order, reverse)
    ensures SlotsRestored(text, order, reverse) == Names(text)
  {
    hide RestoreIn, Returns, LongestFirst;
    match text
    case End(tail) =>
    case Slot(before, e, rest) =>
      EntryRestoredIff(order, reverse, issued, e);
      SlotsComeBack(rest, issued, false, order, reverse);
  }

  /** A clear text of aliases is restored slot by slot, so to the text of names if each of its aliases comes back. */
  lemma RestoreUndoes(order: seq<string>, reverse: map<string, string>, issued: seq<Issue>, text: Spoken)
    requires Proper(issued) && Clear(text, issued, true)
    requires Reverses(reverse, issued) && LongestFirst(order, reverse)
    ensures Replaceable(order, reverse)
    ensures RestoreIn(order, reverse, Sent(text)) == SlotsRestored(text, order, reverse)
    ensures AllComeBack(text, order, reverse) ==> RestoreIn(order, reverse, Sent(text)) == Names(text)
  {
    hide RestoreIn, ComesBack, Clear;
    OrderIsReplaceable(order, reverse, issued);
    SlotsRestoreApart(text, issued, order, reverse);
    if AllComeBack(text, order, reverse) {
      SlotsComeBack(text, issued, true, order, reverse);
    }
  }

  lemma {:induction false} AbsentLeaveAlone(order: seq<string>, reverse: map<string, string>, t: string)
    requires Replaceable(order, reverse) && forall i | 0 <= i < |order| :: !Occurs(order[i], t)
    ensures RestoreIn(order, reverse, t) == t
  {
    if order != [] {
      AbsentLeaveAlone(order[..|order| - 1], reverse, t);
      ReplaceAbsent(t, order[|order| - 1], reverse[order[|order| - 1]]);
    }
  }

  /** If no name contains another alias that may be replaced later, every alias returns, however equal lengths are
      ordered. */
  lemma ClearNamesReturn(order: seq<string>, reverse: map<string, string>, issued: seq<Issue>, e: Issue)
    requires Proper(issued) && NamesClear(issued) && e in issued
    requires Reverses(reverse, issued) && LongestFirst(order, reverse)
    ensures Replaceable(order, reverse) && Returns(order, reverse, e.Alias())
  {
    hide AliasText, Occurs, RestoreIn, Proper, NamesClear;
    OrderIsReplaceable(order, reverse, issued);
    forall i | 0 <= i < |order| && order[i] == e.Alias() ensures ComesBack(order, reverse, i) {
      forall j | i < j < |order| ensures !Occurs(order[j], e.real_) {
        LaterIsNotInName(order, reverse, issued, e, i, j);
      }
      AbsentLeaveAlone(order[i + 1..], reverse, e.real_);
    }
  }

  lemma LaterIsNotInName(order: seq<string>, reverse: map<string, string>, issued: seq<Issue>, e: Issue, i: nat, j: nat)
    requires NamesClear(issued) && e in issued && LongestFirst(order, reverse)
    requires i < j < |order| && order[i] == e.Alias() && IsAlias(issued, order[j])
    ensures !Occurs(order[j], e.real_)
  {
    hide AliasText, Occurs;
    var f :| f in issued && f.Alias() == order[j];
  }

  /** An alias that does not come back: a namespace called like a workload's alias is restored to the
      workload's name. */
  lemma AliasLikeNameIsLost(name: string)
    requires name != ""
    ensures var w, n := AliasText("workload", 1), AliasText("namespace", 1);
      var issued := [Issue("workload", name, 1), Issue("namespace", w, 1)];
      var reverse, order := map[w := name, n := w], [n, w];
      && Proper(issued) && Reverses(reverse, issued) && LongestFirst(order, reverse)
      && n != "" && w != "" && RestoreIn(order, reverse, n) == name
  {
    var w, n := AliasText("workload", 1), AliasText("namespace", 1);
    TwoAliases(w, n, name);
    hide AliasText, RestoreIn;
    RestoreChains(w, n, name);
    var issued := [Issue("workload", name, 1), Issue("namespace", w, 1)];
    assert issued[0] in issued && issued[1] in issued;
  }

  lemma TwoAliases(w: string, n: string, name: string)
    requires w == AliasText("workload", 1) && n == AliasText("namespace", 1) && name != ""
    ensures w != "" && |w| < |n| && Proper([Issue("workload", name, 1), Issue("namespace", w, 1)])
  {
    AliasTextLength("workload");
    AliasTextLength("namespace");
    hide AliasText;
    var issued := [Issue("workload", name, 1), Issue("namespace", w, 1)];
    assert issued[..1] == [Issue("workload", name, 1)] && issued[..1][..0] == [] == issued[..0];
    KindsAreKinds();
    assert "workload"[0] != "namespace"[0];
    assert CountKind(issued[..0], "workload") == 0 && CountKind(issued[..1], "namespace") == 0;
    forall i | 0 <= i < |issued|
      ensures IsKind(issued[i].kind) && issued[i].n == CountKind(issued[..i], issued[i].kind) + 1
    {
      assert i == 0 || i == 1;
    }
  }

  lemma RestoreChains(w: string, n: string, name: string)
    requires w != "" && n != "" && w != n
    ensures RestoreIn([n, w], map[w := name, n := w], n) == name
  {
    hide ReplaceAll;
    var reverse := map[w := name, n := w];
    assert [n, w][..1] == [n] && [n][..0] == [];
    ReplaceWhole(n, w);
    ReplaceWhole(w, name);
    assert RestoreIn([n], reverse, n) == w;
  }

  lemma AliasTextLength(kind: string)
    ensures |AliasText(kind, 1)| == |kind| + 2
  {
    assert |Decimal(1)| == 1;
  }
}
