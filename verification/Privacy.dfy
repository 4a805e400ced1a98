/** What a sent value gives away: its shape, its open leaves, and which identities are equal, but no name. */
module Privacy {
  import opened Aliases
  import opened SanitizedJson
  import opened Sanitizing
  import Text

  // ----- Renaming -----

  /** Another name for each name of a kind. */
  type Renaming = (string, string) -> string

  /** Different names stay different, and names in two halves and whole ones stay what they are. */
  ghost predicate Renames(r: Renaming) {
    && (forall kind, x, y | x != y :: r(kind, x) != r(kind, y))
    && (forall kind, x | x != "" :: r(kind, x) != "")
    && (forall x | '/' !in x :: '/' !in r("namespace", x))
    && (forall kind, x | x != "" && ShapeOf(x).Bare? :: ShapeOf(r(kind, x)).Bare?)
  }

  /** An identifier renamed part by part. */
  function MaskedName(r: Renaming, kind: string, name: string): string {
    if name == "" then ""
    else
      match ShapeOf(name)
      case Halves(namespace, pod) => r("namespace", namespace) + "/" + r("workload", pod)
      case Bare => r(kind, name)
  }

  function MaskedIssue(r: Renaming, e: Issue): Issue {
    Issue(e.kind, r(e.kind, e.real_), e.n)
  }

  function MaskedIssues(r: Renaming, issued: seq<Issue>): seq<Issue> {
    seq(|issued|, i requires 0 <= i < |issued| => MaskedIssue(r, issued[i]))
  }

  /** The value with every identity renamed and without its dropped fields. */
  function Masked(r: Renaming, v: Json): Json
    decreases v, 0
  {
    match v
    case Array(items) => Array(MaskedItems(r, items))
    case Object(fields) => Object(MaskedFields(r, fields))
    case _ => v
  }

  function MaskedItems(r: Renaming, items: seq<Json>): seq<Json>
    decreases items, 1
  {
    if items == [] then [] else MaskedItems(r, items[..|items| - 1]) + [Masked(r, items[|items| - 1])]
  }

  function MaskedFields(r: Renaming, fields: seq<Field>): seq<Field>
    decreases fields, 1
  {
    if fields == [] then []
    else
      var front, f := MaskedFields(r, fields[..|fields| - 1]), fields[|fields| - 1];
      if Dropped(f) then front else front + [Field(f.key, MaskedValue(r, f))]
  }

  function MaskedValue(r: Renaming, f: Field): Json
    decreases f, 1
  {
    if Identity(f) then Str(MaskedName(r, KindFor(f), f.value.s)) else Masked(r, f.value)
  }

  // ----- Renamed alias lists -----

  lemma RecordedMasked(r: Renaming, issued: seq<Issue>, kind: string, x: string)
    requires Renames(r)
    ensures Recorded(MaskedIssues(r, issued), kind, r(kind, x)) <==> Recorded(issued, kind, x)
  {
    var masked := MaskedIssues(r, issued);
    if Recorded(issued, kind, x) {
      var i :| 0 <= i < |issued| && issued[i].kind == kind && issued[i].real_ == x;
      assert masked[i] in masked;
    }
    if Recorded(masked, kind, r(kind, x)) {
      var i :| 0 <= i < |masked| && masked[i].kind == kind && masked[i].real_ == r(kind, x);
      assert issued[i] in issued;
    }
  }

  lemma {:induction false} CountMasked(r: Renaming, issued: seq<Issue>, kind: string)
    ensures CountKind(MaskedIssues(r, issued), kind) == CountKind(issued, kind)
  {
    if issued != [] {
      CountMasked(r, issued[..|issued| - 1], kind);
      assert MaskedIssues(r, issued)[..|issued| - 1] == MaskedIssues(r, issued[..|issued| - 1]);
    }
  }

  lemma AliasMasked(r: Renaming, issued: seq<Issue>, kind: string, x: string)
    requires Renames(r) && x != ""
    ensures WithAlias(MaskedIssues(r, issued), kind, r(kind, x)) == MaskedIssues(r, WithAlias(issued, kind, x))
  {
    hide ShapeOf;
    RecordedMasked(r, issued, kind, x);
    CountMasked(r, issued, kind);
    if !Recorded(issued, kind, x) {
      var e := Issue(kind, x, CountKind(issued, kind) + 1);
      assert MaskedIssues(r, issued + [e]) == MaskedIssues(r, issued) + [MaskedIssue(r, e)];
    }
  }

  lemma ProperMasked(r: Renaming, issued: seq<Issue>)
    requires Renames(r) && Proper(issued)
    ensures Proper(MaskedIssues(r, issued))
  {
    hide CountKind, ShapeOf;
    var masked := MaskedIssues(r, issued);
    forall i | 0 <= i < |masked|
      ensures IsKind(masked[i].kind) && masked[i].real_ != ""
              && masked[i].n == CountKind(masked[..i], masked[i].kind) + 1
    {
      CountMasked(r, issued[..i], issued[i].kind);
      assert masked[..i] == MaskedIssues(r, issued[..i]);
    }
  }

  lemma SameAlias(r: Renaming, issued: seq<Issue>, kind: string, x: string)
    requires Renames(r) && Proper(issued) && x != "" && Recorded(issued, kind, x)
    ensures Recorded(MaskedIssues(r, issued), kind, r(kind, x))
    ensures AliasOf(MaskedIssues(r, issued), kind, r(kind, x)) == AliasOf(issued, kind, x)
  {
    hide Proper, Renames, AliasText;
    var i :| 0 <= i < |issued| && issued[i].kind == kind && issued[i].real_ == x;
    var e, masked := issued[i], MaskedIssues(r, issued);
    ProperMasked(r, issued);
    assert masked[i] == MaskedIssue(r, e) && masked[i] in masked && e in issued;
    AliasOfEntry(issued, e);
    AliasOfEntry(masked, masked[i]);
  }

  // ----- Renamed identifiers -----

  lemma MaskedShape(r: Renaming, kind: string, name: string)
    requires Renames(r) && name != ""
    ensures MaskedName(r, kind, name) != ""
    ensures ShapeOf(MaskedName(r, kind, name)) == match ShapeOf(name)
                                                  case Halves(ns, pod) => Halves(r("namespace", ns), r("workload", pod))
                                                  case Bare => Bare
  {
    hide ShapeOf;
    match ShapeOf(name)
    case Halves(ns, pod) => HalvesShape(r("namespace", ns), r("workload", pod));
    case Bare =>
  }

  lemma HalvesShape(ns: string, pod: string)
    requires '/' !in ns && ns != "" && pod != ""
    ensures ShapeOf(ns + "/" + pod) == Halves(ns, pod)
  {
    var name := ns + "/" + pod;
    assert name[|ns|] == '/';
    SlashSplits(Text.Before(name, '/').0, name[|Text.Before(name, '/').0| + 1..], ns, pod);
  }

  lemma SeenMasked(r: Renaming, issued: seq<Issue>, kind: string, name: string)
    requires Renames(r)
    ensures Seen(MaskedIssues(r, issued), kind, MaskedName(r, kind, name)) == MaskedIssues(r, Seen(issued, kind, name))
  {
    if name != "" {
      MaskedShape(r, kind, name);
      hide ShapeOf, WithAlias, MaskedIssues;
      match ShapeOf(name)
      case Halves(ns, pod) =>
        AliasMasked(r, issued, "namespace", ns);
        AliasMasked(r, WithAlias(issued, "namespace", ns), "workload", pod);
      case Bare => AliasMasked(r, issued, kind, name);
    }
  }

  lemma TextMasked(r: Renaming, issued: seq<Issue>, kind: string, name: string)
    requires Renames(r) && Proper(issued) && Known(issued, kind, name)
    ensures Known(MaskedIssues(r, issued), kind, MaskedName(r, kind, name))
    ensures IdentifierText(MaskedIssues(r, issued), kind, MaskedName(r, kind, name))
         == IdentifierText(issued, kind, name)
  {
    if name != "" {
      MaskedShape(r, kind, name);
      hide ShapeOf, WithAlias, MaskedIssues, AliasOf, Recorded, Renames, Proper;
      match ShapeOf(name)
      case Halves(ns, pod) =>
        SameAlias(r, issued, "namespace", ns);
        SameAlias(r, issued, "workload", pod);
      case Bare => SameAlias(r, issued, kind, name);
    }
  }

  // ----- Renamed values -----

  lemma MaskedFieldIsAlike(r: Renaming, f: Field)
    ensures var masked := Field(f.key, MaskedValue(r, f));
      && (Dropped(masked) <==> Dropped(f)) && (Identity(masked) <==> Identity(f))
      && (Identity(f) ==> KindFor(masked) == KindFor(f) && masked.value.s == MaskedName(r, KindFor(f), f.value.s))
      && (!Identity(f) ==> masked.value == Masked(r, f.value))
  {
    hide NormalizeKey, MaskedName;
  }

  lemma {:induction false} SeenInMasked(r: Renaming, v: Json, issued: seq<Issue>)
    requires Renames(r)
    ensures SeenIn(Masked(r, v), MaskedIssues(r, issued)) == MaskedIssues(r, SeenIn(v, issued))
    decreases v, 0
  {
    hide Renames, MaskedIssues;
    match v
    case Array(items) => SeenInMaskedItems(r, items, issued);
    case Object(fields) => SeenInMaskedFields(r, fields, issued);
    case _ =>
  }

  lemma {:induction false} SeenInMaskedItems(r: Renaming, items: seq<Json>, issued: seq<Issue>)
    requires Renames(r)
    ensures SeenInItems(MaskedItems(r, items), MaskedIssues(r, issued)) == MaskedIssues(r, SeenInItems(items, issued))
    decreases items, 1
  {
    hide Renames, MaskedIssues, SeenIn, Masked;
    if items != [] {
      var front, v := items[..|items| - 1], items[|items| - 1];
      SeenInMaskedItems(r, front, issued);
      SeenInMasked(r, v, SeenInItems(front, issued));
      var masked := MaskedItems(r, front);
      assert (masked + [Masked(r, v)])[..|masked|] == masked;
    }
  }

  lemma {:induction false} SeenInMaskedFields(r: Renaming, fields: seq<Field>, issued: seq<Issue>)
    requires Renames(r)
    ensures SeenInFields(MaskedFields(r, fields), MaskedIssues(r, issued))
         == MaskedIssues(r, SeenInFields(fields, issued))
    decreases fields, 1
  {
    hide Renames, MaskedIssues, SeenInValue, MaskedValue, Dropped;
    if fields != [] {
      var front, f := fields[..|fields| - 1], fields[|fields| - 1];
      SeenInMaskedFields(r, front, issued);
      if !Dropped(f) {
        MaskedFieldIsAlike(r, f);
        SeenInMaskedValue(r, f, SeenInFields(front, issued));
        var masked := MaskedFields(r, front);
        assert (masked + [Field(f.key, MaskedValue(r, f))])[..|masked|] == masked;
      }
    }
  }

  lemma {:induction false} SeenInMaskedValue(r: Renaming, f: Field, issued: seq<Issue>)
    requires Renames(r)
    ensures SeenInValue(Field(f.key, MaskedValue(r, f)), MaskedIssues(r, issued))
         == MaskedIssues(r, SeenInValue(f, issued))
    decreases f, 1
  {
    hide Renames, MaskedIssues, Seen, SeenIn, MaskedName, Masked, MaskedValue, NormalizeKey;
    MaskedFieldIsAlike(r, f);
    if Identity(f) {
      SeenMasked(r, issued, KindFor(f), f.value.s);
    } else {
      SeenInMasked(r, f.value, issued);
    }
  }

  lemma {:induction false} SanitizedMasked(r: Renaming, v: Json, w: Json, issued: seq<Issue>)
    requires Renames(r) && Proper(issued) && Sanitized(v, w, issued)
    ensures Sanitized(Masked(r, v), w, MaskedIssues(r, issued))
    decreases v, 0
  {
    hide Renames, MaskedIssues, Proper;
    match v
    case Array(items) => SanitizedMaskedItems(r, items, w.items, issued);
    case Object(fields) => SanitizedMaskedFields(r, fields, w.fields, issued);
    case _ =>
  }

  lemma {:induction false} SanitizedMaskedItems(r: Renaming, items: seq<Json>, out: seq<Json>, issued: seq<Issue>)
    requires Renames(r) && Proper(issued) && ItemsSanitized(items, out, issued)
    ensures ItemsSanitized(MaskedItems(r, items), out, MaskedIssues(r, issued))
    decreases items, 1
  {
    hide Renames, MaskedIssues, Proper, Sanitized, Masked;
    if items != [] {
      var n := |items| - 1;
      SanitizedMasked(r, items[n], out[n], issued);
      SanitizedMaskedItems(r, items[..n], out[..n], issued);
      AppendItem(MaskedItems(r, items[..n]), out[..n], Masked(r, items[n]), out[n], MaskedIssues(r, issued));
      assert out == out[..n] + [out[n]];
    }
  }

  lemma {:induction false} SanitizedMaskedFields(r: Renaming, fields: seq<Field>, out: seq<Field>, issued: seq<Issue>)
    requires Renames(r) && Proper(issued) && FieldsSanitized(fields, out, issued)
    ensures FieldsSanitized(MaskedFields(r, fields), out, MaskedIssues(r, issued))
    decreases fields, 1
  {
    hide Renames, MaskedIssues, Proper, ValueSanitized, MaskedValue, Dropped;
    if fields != [] {
      var front, f := fields[..|fields| - 1], fields[|fields| - 1];
      if Dropped(f) {
        SanitizedMaskedFields(r, front, out, issued);
      } else {
        var n := |out| - 1;
        SanitizedMaskedFields(r, front, out[..n], issued);
        SanitizedMaskedValue(r, f, out[n].value, issued);
        var masked := Field(f.key, MaskedValue(r, f));
        MaskedFieldIsAlike(r, f);
        AppendField(MaskedFields(r, front), out[..n], masked, out[n].value, MaskedIssues(r, issued));
        assert out == out[..n] + [Field(masked.key, out[n].value)];
      }
    }
  }

  lemma {:induction false} SanitizedMaskedValue(r: Renaming, f: Field, w: Json, issued: seq<Issue>)
    requires Renames(r) && Proper(issued) && ValueSanitized(f, w, issued)
    ensures ValueSanitized(Field(f.key, MaskedValue(r, f)), w, MaskedIssues(r, issued))
    decreases f, 1
  {
    hide Renames, MaskedIssues, Proper, MaskedName, Masked, MaskedValue, NormalizeKey, Sanitized, Known, IdentifierText;
    MaskedFieldIsAlike(r, f);
    if Identity(f) {
      TextMasked(r, issued, KindFor(f), f.value.s);
    } else {
      SanitizedMasked(r, f.value, w, issued);
    }
  }

  // ----- A value is sent in one way -----

  lemma {:induction false} SentOnce(v: Json, w: Json, w': Json, issued: seq<Issue>)
    requires Sanitized(v, w, issued) && Sanitized(v, w', issued)
    ensures w == w'
    decreases v, 0
  {
    match v
    case Array(items) => ItemsSentOnce(items, w.items, w'.items, issued);
    case Object(fields) => FieldsSentOnce(fields, w.fields, w'.fields, issued);
    case _ =>
  }

  lemma SameToTheLast<T>(a: seq<T>, b: seq<T>, n: nat)
    requires |a| == |b| == n + 1 && a[..n] == b[..n] && a[n] == b[n]
    ensures a == b
  {
    assert a == a[..n] + [a[n]] && b == b[..n] + [b[n]];
  }

  lemma {:induction false} ItemsSentOnce(items: seq<Json>, out: seq<Json>, out': seq<Json>, issued: seq<Issue>)
    requires ItemsSanitized(items, out, issued) && ItemsSanitized(items, out', issued)
    ensures out == out'
    decreases items, 1
  {
    hide Sanitized;
    if items != [] {
      var n := |items| - 1;
      SentOnce(items[n], out[n], out'[n], issued);
      ItemsSentOnce(items[..n], out[..n], out'[..n], issued);
      SameToTheLast(out, out', n);
    }
  }

  lemma {:induction false} FieldsSentOnce(fields: seq<Field>, out: seq<Field>, out': seq<Field>, issued: seq<Issue>)
    requires FieldsSanitized(fields, out, issued) && FieldsSanitized(fields, out', issued)
    ensures out == out'
    decreases fields, 1
  {
    hide Sanitized, Dropped, NormalizeKey, Known, IdentifierText;
    if fields != [] {
      var f, front := fields[|fields| - 1], fields[..|fields| - 1];
      if Dropped(f) {
        FieldsSentOnce(front, out, out', issued);
      } else {
        var n, n' := |out| - 1, |out'| - 1;
        FieldsSentOnce(front, out[..n], out'[..n'], issued);
        if !Identity(f) {
          SentOnce(f.value, out[n].value, out'[n'].value, issued);
        }
        assert n == |out[..n]| == |out'[..n']| == n';
        SameToTheLast(out, out', n);
      }
    }
  }

  // ----- What is given away -----

  /** Two values that become one by renaming their identities, whatever stands in their dropped fields, are sent alike;
      and their sanitizers stay alike up to the renaming, so this goes on for all values sent later. */
  lemma SentAlike(r: Renaming, r': Renaming, v: Json, v': Json, w: Json, w': Json, issued: seq<Issue>,
                  issued': seq<Issue>)
    requires Renames(r) && Renames(r')
    requires Masked(r, v) == Masked(r', v') && MaskedIssues(r, issued) == MaskedIssues(r', issued')
    requires Proper(SeenIn(v, issued)) && Sanitized(v, w, SeenIn(v, issued))
    requires Proper(SeenIn(v', issued')) && Sanitized(v', w', SeenIn(v', issued'))
    ensures w == w'
    ensures MaskedIssues(r, SeenIn(v, issued)) == MaskedIssues(r', SeenIn(v', issued'))
  {
    hide Renames, MaskedIssues, Masked, Sanitized, SeenIn, Proper;
    SeenInMasked(r, v, issued);
    SeenInMasked(r', v', issued');
    SanitizedMasked(r, v, w, SeenIn(v, issued));
    SanitizedMasked(r', v', w', SeenIn(v', issued'));
    SentOnce(Masked(r, v), w, w', MaskedIssues(r, SeenIn(v, issued)));
  }
}
