/** The sanitizer: aliasing identifiers and JSON values on the way out, restoring names on the way back. */
module Sanitizing {
  import opened Aliases
  import opened Restore
  import opened Text

  // ----- Identifiers -----

  datatype Shape = Bare | Halves(namespace: string, pod: string)

  /** "namespace/pod" with both halves present, or a bare name. Text with a slash is never an IP address. */
  function ShapeOf(name: string): (shape: Shape)
    ensures shape.Halves? ==>
              && name == shape.namespace + "/" + shape.pod
              && '/' !in shape.namespace && shape.namespace != "" && shape.pod != ""
  {
    var ns := Before(name, '/');
    if ns.1 && ns.0 != "" && name[|ns.0| + 1..] != "" then Halves(ns.0, name[|ns.0| + 1..]) else Bare
  }

  /** The alias list once an identifier has been seen. */
  ghost function Seen(issued: seq<Issue>, kind: string, name: string): seq<Issue> {
    if name == "" then issued
    else
      match ShapeOf(name)
      case Halves(namespace, pod) => WithAlias(WithAlias(issued, "namespace", namespace), "workload", pod)
      case Bare => WithAlias(issued, kind, name)
  }

  ghost predicate Known(issued: seq<Issue>, kind: string, name: string) {
    name != "" ==>
      match ShapeOf(name)
      case Halves(namespace, pod) => Recorded(issued, "namespace", namespace) && Recorded(issued, "workload", pod)
      case Bare => Recorded(issued, kind, name)
  }

  /** What a known identifier is sent as. */
  ghost function IdentifierText(issued: seq<Issue>, kind: string, name: string): string
    requires Known(issued, kind, name)
  {
    if name == "" then ""
    else
      match ShapeOf(name)
      case Halves(namespace, pod) => AliasOf(issued, "namespace", namespace) + "/" + AliasOf(issued, "workload", pod)
      case Bare => AliasOf(issued, kind, name)
  }

  lemma SeenIsKnown(issued: seq<Issue>, kind: string, name: string)
    requires Proper(issued) && IsKind(kind)
    ensures issued <= Seen(issued, kind, name)
    ensures Proper(Seen(issued, kind, name)) && Known(Seen(issued, kind, name), kind, name)
  {
    if name != "" {
      match ShapeOf(name)
      case Halves(namespace, pod) => BothHalvesRecorded(issued, namespace, pod);
      case Bare => IssueKeepsProper(issued, kind, name);
    }
  }

  lemma BothHalvesRecorded(issued: seq<Issue>, namespace: string, pod: string)
    requires Proper(issued) && namespace != "" && pod != ""
    ensures var between := WithAlias(issued, "namespace", namespace);
      var r := WithAlias(between, "workload", pod);
      && Proper(between) && Proper(r) && issued <= r && between <= r
      && Recorded(between, "namespace", namespace)
      && Recorded(r, "namespace", namespace) && Recorded(r, "workload", pod)
  {
    hide Proper, WithAlias, Recorded, AliasOf;
    var between := WithAlias(issued, "namespace", namespace);
    IssueKeepsProper(issued, "namespace", namespace);
    IssueKeepsProper(between, "workload", pod);
    AliasIsStable(between, WithAlias(between, "workload", pod), "namespace", namespace);
  }

  lemma KnownIsStable(issued: seq<Issue>, more: seq<Issue>, kind: string, name: string)
    requires Proper(more) && issued <= more && Known(issued, kind, name)
    ensures Known(more, kind, name) && IdentifierText(more, kind, name) == IdentifierText(issued, kind, name)
  {
    if name != "" {
      match ShapeOf(name)
      case Halves(namespace, pod) =>
        AliasIsStable(issued, more, "namespace", namespace);
        AliasIsStable(issued, more, "workload", pod);
      case Bare => AliasIsStable(issued, more, kind, name);
    }
  }

  lemma RecordedEntry(issued: seq<Issue>, kind: string, name: string) returns (e: Issue)
    requires Proper(issued) && Recorded(issued, kind, name) && name != ""
    ensures e in issued && e.kind == kind && e.real_ == name && AliasOf(issued, kind, name) == e.Alias()
    ensures e.Alias() != "" && '/' !in e.Alias()
  {
    e :| e in issued && e.kind == kind && e.real_ == name;
    AliasOfEntry(issued, e);
    AliasTextIsWordOf(issued, e);
  }

  lemma {:induction false} NoWordNoAlias(s: string, a: string)
    requires a != "" && (forall c | c in a :: IsWordChar(c)) && (forall c | c in s :: !IsWordChar(c))
    ensures !Occurs(a, s)
  {
    assert a[0] in a;
    if s != "" {
      NoWordNoAlias(s[1..], a);
    }
  }

  lemma SeparatorsAreAliasFree(s: string, issued: seq<Issue>)
    requires Proper(issued) && forall c | c in s :: !IsWordChar(c)
    ensures AliasFree(s, issued)
  {
    forall e | e in issued ensures !Occurs(e.Alias(), s) {
      AliasTextIsWordOf(issued, e);
      NoWordNoAlias(s, e.Alias());
    }
  }

  /** Both halves, as a clear text of aliases. */
  lemma HalvesAreSpoken(issued: seq<Issue>, namespace: string, pod: string) returns (text: Spoken)
    requires Proper(issued) && namespace != "" && pod != ""
    requires Recorded(issued, "namespace", namespace) && Recorded(issued, "workload", pod)
    ensures Clear(text, issued, true) && Names(text) == namespace + "/" + pod
    ensures text.Slot? && text.before == "" && text.rest.Slot? && text.rest.before == "/" && text.rest.rest == End("")
    ensures text.entry.Alias() == AliasOf(issued, "namespace", namespace)
    ensures text.rest.entry.Alias() == AliasOf(issued, "workload", pod)
    ensures Sent(text) == AliasOf(issued, "namespace", namespace) + "/" + AliasOf(issued, "workload", pod)
  {
    hide Proper, Recorded, AliasOf, AliasFree;
    SeparatorsAreAliasFree("", issued);
    SeparatorsAreAliasFree("/", issued);
    var a := RecordedEntry(issued, "namespace", namespace);
    var b := RecordedEntry(issued, "workload", pod);
    var rest := Slot("/", b, End(""));
    var end := End("");
    assert Sent(end) == "" && Names(end) == "" && Clear(end, issued, false);
    assert Sent(rest) == "/" + b.Alias() + "" == "/" + b.Alias();
    assert Names(rest) == "/" + pod + "" == "/" + pod;
    assert Clear(rest, issued, false);
    text := Slot("", a, rest);
    assert Names(text) == "" + namespace + ("/" + pod) == namespace + "/" + pod;
    assert Sent(text) == "" + a.Alias() + ("/" + b.Alias()) == a.Alias() + "/" + b.Alias();
  }

  lemma SlashSplits(x: string, y: string, x': string, y': string)
    requires '/' !in x && '/' !in x'
    requires x + "/" + y == x' + "/" + y'
    ensures x == x' && y == y'
  {
    BeforeAppended(x, '/', y);
    BeforeAppended(x', '/', y');
    assert y == (x + "/" + y)[|x| + 1..];
    assert y' == (x' + "/" + y')[|x'| + 1..];
  }

  lemma BareRestoredIff(issued: seq<Issue>, kind: string, name: string, order: seq<string>,
                        reverse: map<string, string>)
    requires Proper(issued) && Reverses(reverse, issued) && LongestFirst(order, reverse)
    requires name != "" && Recorded(issued, kind, name)
    ensures Replaceable(order, reverse)
    ensures RestoreIn(order, reverse, AliasOf(issued, kind, name)) == name
       <==> Returns(order, reverse, AliasOf(issued, kind, name))
  {
    hide RestoreIn, Returns;
    var e := RecordedEntry(issued, kind, name);
    EntryRestoredIff(order, reverse, issued, e);
  }

  lemma HalvesRestored(issued: seq<Issue>, namespace: string, pod: string, order: seq<string>,
                       reverse: map<string, string>)
    requires Proper(issued) && Reverses(reverse, issued) && LongestFirst(order, reverse)
    requires namespace != "" && pod != "" && Recorded(issued, "namespace", namespace)
             && Recorded(issued, "workload", pod)
    ensures Replaceable(order, reverse)
    ensures var a, b := AliasOf(issued, "namespace", namespace), AliasOf(issued, "workload", pod);
      RestoreIn(order, reverse, a + "/" + b) == RestoreIn(order, reverse, a) + "/" + RestoreIn(order, reverse, b)
  {
    hide RestoreIn, Clear;
    var text := HalvesAreSpoken(issued, namespace, pod);
    RestoreUndoes(order, reverse, issued, text);
    SlotsOfHalves(text.entry, text.rest.entry, order, reverse);
  }

  lemma SlotsOfHalves(a: Issue, b: Issue, order: seq<string>, reverse: map<string, string>)
    requires Replaceable(order, reverse)
    ensures SlotsRestored(Slot("", a, Slot("/", b, End(""))), order, reverse)
         == RestoreIn(order, reverse, a.Alias()) + "/" + RestoreIn(order, reverse, b.Alias())
  {
    hide RestoreIn;
    var rest := Slot("/", b, End(""));
    assert SlotsRestored(End(""), order, reverse) == "";
    assert SlotsRestored(rest, order, reverse) == "/" + RestoreIn(order, reverse, b.Alias());
    assert SlotsRestored(Slot("", a, rest), order, reverse)
        == "" + RestoreIn(order, reverse, a.Alias()) + SlotsRestored(rest, order, reverse);
  }

  /** The aliases an identifier is sent as, each of which is restored to its name. */
  ghost predicate IdentifierReturns(issued: seq<Issue>, kind: string, name: string, order: seq<string>,
                                    reverse: map<string, string>)
    requires Known(issued, kind, name) && Replaceable(order, reverse)
  {
    name == "" ||
      match ShapeOf(name)
      case Halves(namespace, pod) =>
        && Returns(order, reverse, AliasOf(issued, "namespace", namespace))
        && Returns(order, reverse, AliasOf(issued, "workload", pod))
      case Bare => Returns(order, reverse, AliasOf(issued, kind, name))
  }

  /** Restoring an identifier gives the name back, even after more aliases were issued, if its aliases return. A name
      sent whole comes back only then; so does one sent in halves, unless its first half is restored to something with
      a slash. */
  lemma IdentifierRoundTrip(issued: seq<Issue>, more: seq<Issue>, kind: string, name: string,
                            order: seq<string>, reverse: map<string, string>)
    requires Proper(issued) && Proper(more) && issued <= more && Known(issued, kind, name)
    requires Reverses(reverse, more) && LongestFirst(order, reverse)
    ensures Replaceable(order, reverse)
    ensures IdentifierReturns(issued, kind, name, order, reverse) ==>
              RestoreIn(order, reverse, IdentifierText(issued, kind, name)) == name
    ensures name != "" && (ShapeOf(name).Bare? ||
                '/' !in RestoreIn(order, reverse, AliasOf(issued, "namespace", ShapeOf(name).namespace))) ==>
              (RestoreIn(order, reverse, IdentifierText(issued, kind, name)) == name ==>
                 IdentifierReturns(issued, kind, name, order, reverse))
  {
    hide RestoreIn, Returns, LongestFirst, Reverses;
    KnownIsStable(issued, more, kind, name);
    OrderIsReplaceable(order, reverse, more);
    if name == "" {
      NothingRestored(order, reverse, more);
    } else {
      match ShapeOf(name)
      case Halves(namespace, pod) =>
        AliasIsStable(issued, more, "namespace", namespace);
        AliasIsStable(issued, more, "workload", pod);
        HalvesRestored(more, namespace, pod, order, reverse);
        BareRestoredIff(more, "namespace", namespace, order, reverse);
        BareRestoredIff(more, "workload", pod, order, reverse);
        HalvesCompare(RestoreIn(order, reverse, AliasOf(more, "namespace", namespace)),
                      RestoreIn(order, reverse, AliasOf(more, "workload", pod)), namespace, pod);
      case Bare =>
        AliasIsStable(issued, more, kind, name);
        BareRestoredIff(more, kind, name, order, reverse);
    }
  }

  lemma NothingRestored(order: seq<string>, reverse: map<string, string>, issued: seq<Issue>)
    requires Proper(issued) && Reverses(reverse, issued) && LongestFirst(order, reverse)
    ensures Replaceable(order, reverse) && RestoreIn(order, reverse, "") == ""
  {
    OrderIsReplaceable(order, reverse, issued);
    SeparatorsAreAliasFree("", issued);
    RestoreUndoes(order, reverse, issued, End(""));
  }

  lemma HalvesCompare(x: string, y: string, namespace: string, pod: string)
    requires '/' !in namespace
    ensures x == namespace && y == pod ==> x + "/" + y == namespace + "/" + pod
    ensures '/' !in x && x + "/" + y == namespace + "/" + pod ==> x == namespace && y == pod
  {
    if '/' !in x && x + "/" + y == namespace + "/" + pod {
      SlashSplits(x, y, namespace, pod);
    }
  }

  /** If no name contains another alias that may be replaced later, every identifier comes back. */
  lemma ClearIdentifiersReturn(issued: seq<Issue>, more: seq<Issue>, kind: string, name: string,
                               order: seq<string>, reverse: map<string, string>)
    requires Proper(issued) && Proper(more) && issued <= more && Known(issued, kind, name)
    requires NamesClear(more) && Reverses(reverse, more) && LongestFirst(order, reverse)
    ensures Replaceable(order, reverse) && RestoreIn(order, reverse, IdentifierText(issued, kind, name)) == name
  {
    hide RestoreIn, Returns, LongestFirst, Reverses, NamesClear;
    KnownIsStable(issued, more, kind, name);
    OrderIsReplaceable(order, reverse, more);
    if name != "" {
      match ShapeOf(name)
      case Halves(namespace, pod) =>
        ClearAliasReturns(issued, more, "namespace", namespace, order, reverse);
        ClearAliasReturns(issued, more, "workload", pod, order, reverse);
      case Bare => ClearAliasReturns(issued, more, kind, name, order, reverse);
    }
    IdentifierRoundTrip(issued, more, kind, name, order, reverse);
  }

  lemma ClearAliasReturns(issued: seq<Issue>, more: seq<Issue>, kind: string, name: string, order: seq<string>,
                          reverse: map<string, string>)
    requires Proper(more) && issued <= more && name != "" && Recorded(issued, kind, name)
    requires NamesClear(more) && Reverses(reverse, more) && LongestFirst(order, reverse)
    ensures Replaceable(order, reverse) && Returns(order, reverse, AliasOf(issued, kind, name))
  {
    hide RestoreIn, Returns;
    AliasIsStable(issued, more, kind, name);
    var e := RecordedEntry(more, kind, name);
    ClearNamesReturn(order, reverse, more, e);
  }

  /** Two identifiers of one kind are sent alike exactly when they are alike. */
  lemma IdentifiersStayDistinct(issued: seq<Issue>, kind: string, name: string, name': string)
    requires Proper(issued) && Known(issued, kind, name) && Known(issued, kind, name')
    ensures IdentifierText(issued, kind, name) == IdentifierText(issued, kind, name') <==> name == name'
  {
    IdentifierKeepsShape(issued, kind, name);
    IdentifierKeepsShape(issued, kind, name');
    if name != "" && name' != "" {
      match (ShapeOf(name), ShapeOf(name'))
      case (Halves(ns, pod), Halves(ns', pod')) => SharedNamespace(issued, ns, pod, ns', pod');
      case (Bare, Bare) => AliasOfInjective(issued, kind, name, kind, name');
      case _ =>
    }
  }

  /** Empty stays empty, and a slash is sent for a name of two halves only. */
  lemma IdentifierKeepsShape(issued: seq<Issue>, kind: string, name: string)
    requires Proper(issued) && Known(issued, kind, name)
    ensures IdentifierText(issued, kind, name) == "" <==> name == ""
    ensures '/' in IdentifierText(issued, kind, name) <==> name != "" && ShapeOf(name).Halves?
  {
    if name != "" && ShapeOf(name).Bare? {
      var e := RecordedEntry(issued, kind, name);
    }
  }

  /** Two "namespace/pod" names are sent with the same first half exactly when they share their namespace, and alike
      exactly when they share both halves. */
  lemma SharedNamespace(issued: seq<Issue>, namespace: string, pod: string, namespace': string, pod': string)
    requires Proper(issued) && namespace != "" && pod != "" && namespace' != "" && pod' != ""
    requires Recorded(issued, "namespace", namespace) && Recorded(issued, "workload", pod)
    requires Recorded(issued, "namespace", namespace') && Recorded(issued, "workload", pod')
    ensures AliasOf(issued, "namespace", namespace) == AliasOf(issued, "namespace", namespace')
       <==> namespace == namespace'
    ensures '/' !in AliasOf(issued, "namespace", namespace)
    ensures AliasOf(issued, "namespace", namespace) + "/" + AliasOf(issued, "workload", pod)
         == AliasOf(issued, "namespace", namespace') + "/" + AliasOf(issued, "workload", pod')
       <==> namespace == namespace' && pod == pod'
  {
    AliasOfInjective(issued, "namespace", namespace, "namespace", namespace');
    AliasOfInjective(issued, "workload", pod, "workload", pod');
    var a := RecordedEntry(issued, "namespace", namespace);
    var a' := RecordedEntry(issued, "namespace", namespace');
    var b, b' := AliasOf(issued, "workload", pod), AliasOf(issued, "workload", pod');
    if a.Alias() + "/" + b == a'.Alias() + "/" + b' {
      SlashSplits(a.Alias(), b, a'.Alias(), b');
    }
  }

  // ----- The tables -----

  function Key(kind: string, name: string): string {
    kind + ['\0'] + name
  }

  lemma KeyInjective(kind: string, name: string, kind': string, name': string)
    requires IsKind(kind) && IsKind(kind') && Key(kind, name) == Key(kind', name')
    ensures kind == kind' && name == name'
  {
    BeforeAppended(kind, '\0', name);
    BeforeAppended(kind', '\0', name');
    assert name == Key(kind, name)[|kind| + 1..];
    assert name' == Key(kind', name')[|kind'| + 1..];
  }

  function CountOf(counters: map<string, nat>, kind: string): nat {
    if kind in counters then counters[kind] else 0
  }

  ghost predicate Forwards(forward: map<string, string>, issued: seq<Issue>) {
    && (forall e | e in issued :: Key(e.kind, e.real_) in forward && forward[Key(e.kind, e.real_)] == e.Alias())
    && (forall k | k in forward :: exists e | e in issued :: Key(e.kind, e.real_) == k)
  }

  ghost predicate Counts(counters: map<string, nat>, issued: seq<Issue>) {
    forall kind :: CountOf(counters, kind) == CountKind(issued, kind)
  }

  /** The alias list as the three maps the sanitizer keeps. */
  ghost predicate Represents(forward: map<string, string>, reverse: map<string, string>, counters: map<string, nat>,
                             issued: seq<Issue>)
  {
    Proper(issued) && Forwards(forward, issued) && Reverses(reverse, issued) && Counts(counters, issued)
  }

  lemma KnownKeyIsRecorded(forward: map<string, string>, issued: seq<Issue>, kind: string, name: string)
    requires Proper(issued) && Forwards(forward, issued) && IsKind(kind) && name != ""
    ensures Key(kind, name) in forward <==> Recorded(issued, kind, name)
    ensures Key(kind, name) in forward ==> forward[Key(kind, name)] == AliasOf(issued, kind, name)
  {
    if Key(kind, name) in forward {
      var e :| e in issued && Key(e.kind, e.real_) == Key(kind, name);
      KeyInjective(e.kind, e.real_, kind, name);
      AliasOfEntry(issued, e);
    }
  }

  lemma RecordOne(forward: map<string, string>, reverse: map<string, string>, counters: map<string, nat>,
                  issued: seq<Issue>, kind: string, name: string, n: nat, a: string, more: seq<Issue>)
    requires Represents(forward, reverse, counters, issued) && IsKind(kind) && name != ""
    requires !Recorded(issued, kind, name) && n == CountOf(counters, kind) + 1 && a == AliasText(kind, n)
    requires more == issued + [Issue(kind, name, n)]
    ensures WithAlias(issued, kind, name) == more
    ensures Represents(forward[Key(kind, name) := a], reverse[a := name], counters[kind := n], more)
    ensures Recorded(more, kind, name) && AliasOf(more, kind, name) == a
  {
    var e := Issue(kind, name, n);
    RecordProper(issued, e);
    RecordForward(forward, issued, e);
    FreshAlias(issued, e);
    RecordReverse(reverse, issued, e);
    RecordCount(counters, issued, e);
  }

  lemma RecordProper(issued: seq<Issue>, e: Issue)
    requires Proper(issued) && IsKind(e.kind) && e.real_ != ""
    requires !Recorded(issued, e.kind, e.real_) && e.n == CountKind(issued, e.kind) + 1
    ensures WithAlias(issued, e.kind, e.real_) == issued + [e] && Proper(issued + [e])
    ensures Recorded(issued + [e], e.kind, e.real_) && AliasOf(issued + [e], e.kind, e.real_) == e.Alias()
  {
    hide Proper, CountKind, AliasText;
    IssueKeepsProper(issued, e.kind, e.real_);
    assert e in issued + [e];
    AliasOfEntry(issued + [e], e);
  }

  lemma RecordCount(counters: map<string, nat>, issued: seq<Issue>, e: Issue)
    requires Counts(counters, issued) && e.n == CountOf(counters, e.kind) + 1
    ensures Counts(counters[e.kind := e.n], issued + [e])
  {
    forall kind ensures CountKind(issued + [e], kind) == CountKind(issued, kind) + if kind == e.kind then 1 else 0 {
      assert (issued + [e])[..|issued|] == issued;
    }
  }

  lemma RecordForward(forward: map<string, string>, issued: seq<Issue>, e: Issue)
    requires Proper(issued) && IsKind(e.kind) && Forwards(forward, issued) && !Recorded(issued, e.kind, e.real_)
    ensures Forwards(forward[Key(e.kind, e.real_) := e.Alias()], issued + [e])
  {
    assert e in issued + [e];
    forall f | f in issued ensures Key(f.kind, f.real_) != Key(e.kind, e.real_) {
      if Key(f.kind, f.real_) == Key(e.kind, e.real_) {
        KeyInjective(f.kind, f.real_, e.kind, e.real_);
      }
    }
  }

  lemma FreshAlias(issued: seq<Issue>, e: Issue)
    requires Proper(issued + [e])
    ensures forall f | f in issued :: f.Alias() != e.Alias()
  {
    forall f | f in issued ensures f.Alias() != e.Alias() {
      var i :| 0 <= i < |issued| && issued[i] == f;
      AliasesDistinct(issued + [e], i, |issued|);
    }
  }

  lemma RecordReverse(reverse: map<string, string>, issued: seq<Issue>, e: Issue)
    requires Reverses(reverse, issued)
    requires forall f | f in issued :: f.Alias() != e.Alias()
    ensures Reverses(reverse[e.Alias() := e.real_], issued + [e])
  {
    assert e in issued + [e];
  }

  class Sanitizer {
    const enabled: bool
    var forward: map<string, string>
    var reverse: map<string, string>
    var counters: map<string, nat>
    ghost var issued: seq<Issue>

    ghost predicate Valid()
      reads this
    {
      Represents(forward, reverse, counters, issued)
    }

    constructor (sanitized: bool)
      ensures Valid() && enabled == sanitized && issued == []
    {
      enabled := sanitized;
      forward, reverse, counters, issued := map[], map[], map[], [];
    }

    method Alias(kind: string, name: string) returns (a: string)
      requires Valid() && IsKind(kind)
      modifies this
      ensures Valid() && issued == WithAlias(old(issued), kind, name)
      ensures name == "" || Recorded(issued, kind, name)
      ensures a == AliasOf(issued, kind, name)
    {
      if name == "" {
        return name;
      }
      KnownKeyIsRecorded(forward, issued, kind, name);
      if Key(kind, name) in forward {
        return forward[Key(kind, name)];
      }
      a := Number(kind, name);
    }

    /** Counts the kind up and enters the new alias in both directions. */
    method Number(kind: string, name: string) returns (a: string)
      requires Valid() && IsKind(kind) && name != "" && !Recorded(issued, kind, name)
      modifies this
      ensures Valid() && issued == WithAlias(old(issued), kind, name)
      ensures Recorded(issued, kind, name) && a == AliasOf(issued, kind, name)
    {
      var n := CountOf(counters, kind) + 1;
      a := AliasText(kind, n);
      counters := counters[kind := n];
      forward := forward[Key(kind, name) := a];
      reverse := reverse[a := name];
      issued := issued + [Issue(kind, name, n)];
      RecordOne(old(forward), old(reverse), old(counters), old(issued), kind, name, n, a, issued);
    }

    method Identifier(kind: string, name: string) returns (r: string)
      requires Valid() && IsKind(kind)
      modifies this
      ensures Valid()
      ensures !enabled ==> r == name && issued == old(issued)
      ensures enabled ==> issued == Seen(old(issued), kind, name) && Known(issued, kind, name)
                          && r == IdentifierText(issued, kind, name)
    {
      if !enabled || name == "" {
        return name;
      }
      match ShapeOf(name)
      case Halves(namespace, pod) =>
        BothHalvesRecorded(issued, namespace, pod);
        var a := Alias("namespace", namespace);
        ghost var between := issued;
        var b := Alias("workload", pod);
        AliasIsStable(between, issued, "namespace", namespace);
        r := a + "/" + b;
      case Bare => r := Alias(kind, name);
    }

    /** Collects the aliases, sorts them longest first and replaces each. */
    method Restore(text: string) returns (r: string)
      requires Valid()
      ensures !enabled || text == "" ==> r == text
      ensures enabled && text != "" ==> exists order ::
                && LongestFirst(order, reverse)
                && Replaceable(order, reverse)
                && r == RestoreIn(order, reverse, text)
    {
      if !enabled || text == "" {
        return text;
      }
      var aliases := Elements(reverse.Keys);
      LongerIsStrictWeakOrder();
      var order := SortSlice(aliases, Longer);
      SortedIsLongestFirst(order, reverse, issued);
      r := ReplaceInOrder(order, reverse, text);
    }
  }

  method ReplaceInOrder(order: seq<string>, reverse: map<string, string>, text: string) returns (r: string)
    requires Replaceable(order, reverse)
    ensures r == RestoreIn(order, reverse, text)
  {
    r := text;
    for i := 0 to |order|
      invariant r == RestoreIn(order[..i], reverse, text)
    {
      assert order[..i + 1][..i] == order[..i];
      r := ReplaceAll(r, order[i], reverse[order[i]]);
    }
    assert order[..|order|] == order;
  }

  predicate Longer(a: string, b: string) {
    |a| > |b|
  }

  lemma LongerIsStrictWeakOrder()
    ensures StrictWeakOrder(Longer)
  {
    forall x, y, z ensures OrderedTriple(Longer, x, y, z) {
    }
  }

  lemma SortedIsLongestFirst(order: seq<string>, reverse: map<string, string>, issued: seq<Issue>)
    requires multiset(order) == multiset(reverse.Keys) && NoInversion(order, Longer)
    requires Proper(issued) && Reverses(reverse, issued)
    ensures LongestFirst(order, reverse)
    ensures Replaceable(order, reverse)
  {
    ListingHasNoRepeats(order, reverse.Keys);
    forall i | 0 <= i < |order| ensures order[i] != "" && order[i] in reverse {
      assert order[i] in order;
      var e :| e in issued && e.Alias() == order[i];
      AliasTextIsWordOf(issued, e);
    }
    forall i, j | 0 <= i < j < |order| ensures |order[i]| >= |order[j]| {
      assert !Longer(order[j], order[i]);
    }
  }
}
