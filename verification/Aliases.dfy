/** The alias table of one sanitized request, as the list of aliases issued so far. */
module Aliases {
  import opened Text

  // ----- Alias texts -----

  /** Kinds are lower-case words; see `KINDS` for the ones in use. */
  predicate IsKind(kind: string) {
    forall c | c in kind :: 'a' <= c <= 'z'
  }

  const KINDS := {"workload", "endpoint", "cluster", "namespace", "resource", "team"}

  lemma KindsAreKinds()
    ensures forall kind | kind in KINDS :: IsKind(kind)
  {
  }

  function AliasText(kind: string, n: nat): string {
    kind + "_" + Decimal(n)
  }

  /** The characters an alias is made of. */
  predicate IsWordChar(c: char) {
    'a' <= c <= 'z' || '0' <= c <= '9' || c == '_'
  }

  lemma AliasTextIsWord(kind: string, n: nat)
    requires IsKind(kind)
    ensures AliasText(kind, n) != "" && forall c | c in AliasText(kind, n) :: IsWordChar(c)
  {
  }

  /** An alias determines its kind and its number. */
  lemma AliasTextInjective(kind: string, n: nat, kind': string, n': nat)
    requires IsKind(kind) && IsKind(kind') && AliasText(kind, n) == AliasText(kind', n')
    ensures kind == kind' && n == n'
  {
    BeforeAppended(kind, '_', Decimal(n));
    BeforeAppended(kind', '_', Decimal(n'));
    assert Decimal(n) == AliasText(kind, n)[|kind| + 1..];
    assert Decimal(n') == AliasText(kind', n')[|kind'| + 1..];
    DecimalInjective(n, n');
  }

  // ----- The list of issued aliases -----

  datatype Issue = Issue(kind: string, real_: string, n: nat) {
    function Alias(): string {
      AliasText(kind, n)
    }
  }

  function CountKind(issued: seq<Issue>, kind: string): nat {
    if issued == [] then 0
    else CountKind(issued[..|issued| - 1], kind) + if issued[|issued| - 1].kind == kind then 1 else 0
  }

  /** Each name of a kind was issued once, and the numbers of a kind count up from one. */
  ghost predicate Proper(issued: seq<Issue>) {
    && (forall i | 0 <= i < |issued| ::
         IsKind(issued[i].kind) && issued[i].real_ != "" && issued[i].n == CountKind(issued[..i], issued[i].kind) + 1)
    && (forall i, j | 0 <= i < j < |issued| :: issued[i].kind != issued[j].kind || issued[i].real_ != issued[j].real_)
  }

  ghost predicate Recorded(issued: seq<Issue>, kind: string, name: string) {
    exists e | e in issued :: e.kind == kind && e.real_ == name
  }

  lemma {:induction false} CountGrows(issued: seq<Issue>, i: nat, j: nat, kind: string)
    requires i <= j <= |issued|
    ensures CountKind(issued[..i], kind) <= CountKind(issued[..j], kind)
  {
    if i < j {
      CountGrows(issued, i, j - 1, kind);
      assert issued[..j][..j - 1] == issued[..j - 1];
    }
  }

  /** Different entries carry different aliases, across kinds too. */
  lemma AliasesDistinct(issued: seq<Issue>, i: nat, j: nat)
    requires Proper(issued) && i < j < |issued|
    ensures issued[i].Alias() != issued[j].Alias()
  {
    CountGrows(issued, i + 1, j, issued[i].kind);
    assert issued[..i + 1][..i] == issued[..i];
    if issued[i].Alias() == issued[j].Alias() {
      AliasTextInjective(issued[i].kind, issued[i].n, issued[j].kind, issued[j].n);
    }
  }

  lemma SameAliasSameEntry(issued: seq<Issue>, e: Issue, f: Issue)
    requires Proper(issued) && e in issued && f in issued && e.Alias() == f.Alias()
    ensures e == f
  {
    var i :| 0 <= i < |issued| && issued[i] == e;
    var j :| 0 <= j < |issued| && issued[j] == f;
    if i < j {
      AliasesDistinct(issued, i, j);
    } else if j < i {
      AliasesDistinct(issued, j, i);
    }
  }

  /** Issuing keeps the list proper and only appends. */
  function WithAlias(issued: seq<Issue>, kind: string, name: string): (r: seq<Issue>)
    ensures issued <= r
  {
    if name == "" || exists e | e in issued :: e.kind == kind && e.real_ == name then issued
    else issued + [Issue(kind, name, CountKind(issued, kind) + 1)]
  }

  lemma IssueKeepsProper(issued: seq<Issue>, kind: string, name: string)
    requires Proper(issued) && IsKind(kind)
    ensures Proper(WithAlias(issued, kind, name))
    ensures name != "" ==> Recorded(WithAlias(issued, kind, name), kind, name)
  {
    hide Proper, CountKind;
    if name != "" && !Recorded(issued, kind, name) {
      var e := Issue(kind, name, CountKind(issued, kind) + 1);
      assert (issued + [e])[|issued|] == e;
      OneMoreIsProper(issued, e);
    }
  }

  lemma OneMoreIsProper(issued: seq<Issue>, e: Issue)
    requires Proper(issued) && IsKind(e.kind) && e.real_ != "" && !Recorded(issued, e.kind, e.real_)
    requires e.n == CountKind(issued, e.kind) + 1
    ensures Proper(issued + [e])
  {
    hide CountKind;
    var more := issued + [e];
    forall i | 0 <= i < |more| ensures more[i].n == CountKind(more[..i], more[i].kind) + 1 {
      assert more[..i] == if i < |issued| then issued[..i] else issued;
    }
  }

  /** The alias of a recorded name; the empty name stands for itself. */
  ghost function AliasOf(issued: seq<Issue>, kind: string, name: string): string
    requires name == "" || Recorded(issued, kind, name)
  {
    if name == "" then ""
    else
      var e :| e in issued && e.kind == kind && e.real_ == name;
      e.Alias()
  }

  lemma AliasOfEntry(issued: seq<Issue>, e: Issue)
    requires Proper(issued) && e in issued
    ensures AliasOf(issued, e.kind, e.real_) == e.Alias()
  {
    var f :| f in issued && f.kind == e.kind && f.real_ == e.real_ && AliasOf(issued, e.kind, e.real_) == f.Alias();
    var i :| 0 <= i < |issued| && issued[i] == e;
    var j :| 0 <= j < |issued| && issued[j] == f;
  }

  /** Issuing more aliases changes no earlier one. */
  lemma AliasIsStable(issued: seq<Issue>, more: seq<Issue>, kind: string, name: string)
    requires Proper(more) && issued <= more && (name == "" || Recorded(issued, kind, name))
    ensures name == "" || Recorded(more, kind, name)
    ensures AliasOf(more, kind, name) == AliasOf(issued, kind, name)
  {
    if name != "" {
      var e :| e in issued && e.kind == kind && e.real_ == name && AliasOf(issued, kind, name) == e.Alias();
      assert e in more;
      AliasOfEntry(more, e);
    }
  }

  /** Two names of any kinds get the same alias exactly when they are the same name of the same kind. */
  lemma AliasOfInjective(issued: seq<Issue>, kind: string, name: string, kind': string, name': string)
    requires Proper(issued) && Recorded(issued, kind, name) && Recorded(issued, kind', name') && name != ""
             && name' != ""
    ensures AliasOf(issued, kind, name) == AliasOf(issued, kind', name') <==> kind == kind' && name == name'
  {
    var e :| e in issued && e.kind == kind && e.real_ == name;
    var f :| f in issued && f.kind == kind' && f.real_ == name';
    AliasOfEntry(issued, e);
    AliasOfEntry(issued, f);
    if e.Alias() == f.Alias() {
      SameAliasSameEntry(issued, e, f);
    }
  }
}
