/** What is hidden and what is not, by the key texts themselves. */
module HiddenNames {
  import opened Aliases
  import opened Privacy
  import opened SanitizedJson
  import opened Sanitizing
  import Text

  // ----- The keys -----

  /** A string under a key of this normalized form is replaced by an alias of this kind. */
  predicate HiddenAs(key: string, kind: string) {
    || (kind == "workload" && (key == "source" || key == "srcworkload" || key == "workload"))
    || (kind == "endpoint" && (key == "destination" || key == "dstworkloadorendpoint"))
    || (kind == "cluster" && key == "clusterid")
    || (kind == "namespace" && key == "namespace")
    || (kind == "resource" && key == "name")
    || (kind == "team" && key == "team")
  }

  lemma KeyIsListed(key: string, kind: string)
    ensures HiddenAs(key, kind) <==> key in SANITIZED_KEYS && SANITIZED_KEYS[key] == kind
  {
  }

  predicate Plain(key: string) {
    forall i | 0 <= i < |key| :: key[i] != '_' && !('A' <= key[i] <= 'Z')
  }

  /** A key without underscores and upper case is its own normal form; with `UnderscoresVanish` and `CaseVanishes`
      this says what the normal form of every key is. */
  lemma {:induction false} PlainKeysStand(key: string)
    requires Plain(key)
    ensures NormalizeKey(key) == key
  {
    if key != "" {
      PlainKeysStand(key[1..]);
      assert key == [key[0]] + key[1..];
    }
  }

  lemma SnakeCase(a: string, b: string, whole: string, plain: string)
    requires whole == a + "_" + b && plain == a + b
    ensures NormalizeKey(whole) == NormalizeKey(plain)
  {
    UnderscoresVanish(a, b);
  }

  lemma ThreeUnderscores(a: string, b: string, c: string, d: string, whole: string, plain: string)
    requires whole == a + "_" + b + "_" + c + "_" + d && plain == a + b + c + d
    ensures NormalizeKey(whole) == NormalizeKey(plain)
  {
    hide NormalizeKey, LowerChar;
    SnakeCase(a + "_" + b + "_" + c, d, whole, a + "_" + b + "_" + c + d);
    assert a + "_" + b + "_" + c + d == a + "_" + b + "_" + (c + d);
    SnakeCase(a + "_" + b, c + d, a + "_" + b + "_" + c + d, a + "_" + b + (c + d));
    assert a + "_" + b + (c + d) == a + "_" + (b + (c + d));
    SnakeCase(a, b + (c + d), a + "_" + b + (c + d), plain);
  }

  lemma ThreeCapitals(a: string, c: char, c': char, c'': char, whole: string, plain: string)
    requires 'A' <= c <= 'Z' && 'A' <= c' <= 'Z' && 'A' <= c'' <= 'Z'
    requires whole == [c] + a + [c'] + [c'']
    requires plain == [LowerChar(c)] + a + [LowerChar(c')] + [LowerChar(c'')]
    ensures NormalizeKey(whole) == NormalizeKey(plain)
  {
    hide NormalizeKey, LowerChar;
    var x, y, z := [LowerChar(c)], [LowerChar(c')], [LowerChar(c'')];
    assert whole == [] + [c] + (a + [c'] + [c'']) && [] + x + (a + [c'] + [c'']) == x + a + [c'] + [c''];
    CaseVanishes([], c, a + [c'] + [c'']);
    CaseVanishes(x + a, c', [c'']);
    assert x + a + y + [c''] + [] == x + a + y + [c''] && x + a + y + z + [] == plain;
    CaseVanishes(x + a + y, c'', []);
  }

  // ----- Names -----

  /** The name has a first slash at `k` with something on both sides. */
  predicate CutAt(name: string, k: nat) {
    0 < k < |name| - 1 && name[k] == '/' && forall i | 0 <= i < k :: name[i] != '/'
  }

  ghost predicate InTwoParts(name: string) {
    exists k :: CutAt(name, k)
  }

  ghost predicate IsAlias(kind: string, text: string) {
    exists n: nat | n > 0 :: text == kind + "_" + Text.Decimal(n)
  }

  ghost predicate AreAliases(text: string) {
    exists a, b | IsAlias("namespace", a) && IsAlias("workload", b) :: text == a + "/" + b
  }

  /** A name is sent as an alias of the kind, one in two parts as "namespace_i/workload_j", and the empty name as is. */
  ghost predicate Hides(kind: string, name: string, text: string) {
    if name == "" then text == ""
    else if InTwoParts(name) then AreAliases(text)
    else IsAlias(kind, text)
  }

  lemma ShapeIsCut(name: string)
    ensures InTwoParts(name) <==> ShapeOf(name).Halves?
    ensures forall k: nat | CutAt(name, k) :: ShapeOf(name) == Halves(name[..k], name[k + 1..])
  {
    forall k: nat | CutAt(name, k) ensures ShapeOf(name) == Halves(name[..k], name[k + 1..]) {
      CutIsFirst(name, k);
    }
    if ShapeOf(name).Halves? {
      assert CutAt(name, |ShapeOf(name).namespace|);
    }
  }

  lemma CutIsFirst(name: string, k: nat)
    requires CutAt(name, k)
    ensures Text.Before(name, '/') == (name[..k], true)
  {
    assert name == name[..k] + ['/'] + name[k + 1..];
    Text.BeforeAppended(name[..k], '/', name[k + 1..]);
  }

  lemma AliasIsAlias(issued: seq<Issue>, kind: string, name: string)
    requires Proper(issued) && Recorded(issued, kind, name) && name != ""
    ensures IsAlias(kind, AliasOf(issued, kind, name))
  {
    hide CountKind, AliasOf, Text.Decimal;
    var e := RecordedEntry(issued, kind, name);
    assert e.n > 0;
  }

  lemma IdentifierHides(issued: seq<Issue>, kind: string, name: string)
    requires Proper(issued) && Known(issued, kind, name)
    ensures Hides(kind, name, IdentifierText(issued, kind, name))
  {
    hide Proper, Recorded, AliasOf, ShapeOf, InTwoParts, IsAlias;
    ShapeIsCut(name);
    if name != "" {
      match ShapeOf(name)
      case Halves(namespace, pod) =>
        AliasIsAlias(issued, "namespace", namespace);
        AliasIsAlias(issued, "workload", pod);
      case Bare => AliasIsAlias(issued, kind, name);
    }
  }

  // ----- Values -----

  /** The fields that are sent at all. */
  function Kept(fields: seq<Field>): (kept: seq<Field>)
    ensures forall f | f in kept :: f in fields
  {
    if fields == [] then []
    else
      var f, front := fields[|fields| - 1], Kept(fields[..|fields| - 1]);
      if NormalizeKey(f.key) == "fixmanifest" then front else front + [f]
  }

  /** `w` is `v` with the string under each hidden key rewritten as `names` says, all else as it was, and without any
      field called "fixmanifest". */
  ghost predicate Rewritten(names: (string, string, string) -> bool, v: Json, w: Json)
    decreases v, 0
  {
    match v
    case Array(items) => w.Array? && |w.items| == |items| &&
      forall i | 0 <= i < |items| :: Rewritten(names, items[i], w.items[i])
    case Object(fields) => w.Object? && |w.fields| == |Kept(fields)| &&
      forall i | 0 <= i < |w.fields| ::
        var f := Kept(fields)[i];
        assert f in fields;
        w.fields[i].key == f.key && FieldRewritten(names, f, w.fields[i].value)
    case _ => w == v
  }

  predicate IsHidden(f: Field, kind: string) {
    f.value.Str? && HiddenAs(NormalizeKey(f.key), kind)
  }

  ghost predicate FieldRewritten(names: (string, string, string) -> bool, f: Field, w: Json)
    decreases f, 1
  {
    if exists kind :: IsHidden(f, kind) then w.Str? && forall kind | IsHidden(f, kind) :: names(kind, f.value.s, w.s)
    else Rewritten(names, f.value, w)
  }

  /** No field called "fixmanifest" at any depth. */
  predicate NoManifest(w: Json) {
    match w
    case Array(items) => forall i | 0 <= i < |items| :: NoManifest(items[i])
    case Object(fields) =>
      forall i | 0 <= i < |fields| :: NormalizeKey(fields[i].key) != "fixmanifest" && NoManifest(fields[i].value)
    case _ => true
  }

  // ----- The fields in use -----

  lemma ClusterSpelled()
    ensures NormalizeKey("cluster_id") == "clusterid"
    ensures NormalizeKey("ClusterID") == "clusterid"
  {
    hide NormalizeKey;
    SnakeCase("cluster", "id", "cluster_id", "clusterid");
    ThreeCapitals("luster", 'C', 'I', 'D', "ClusterID", "clusterid");
    PlainKeysStand("clusterid");
  }

  lemma SourceSpelled()
    ensures NormalizeKey("src_workload") == "srcworkload"
  {
    hide NormalizeKey, LowerChar;
    SnakeCase("src", "workload", "src_workload", "srcworkload");
    PlainKeysStand("srcworkload");
  }

  lemma DestinationSpelled()
    ensures NormalizeKey("dst_workload_or_endpoint") == "dstworkloadorendpoint"
  {
    hide NormalizeKey, LowerChar;
    ThreeUnderscores("dst", "workload", "or", "endpoint", "dst_workload_or_endpoint", "dstworkloadorendpoint");
    PlainKeysStand("dstworkloadorendpoint");
  }

  lemma ManifestSpelled()
    ensures NormalizeKey("fix_manifest") == "fixmanifest"
  {
    hide NormalizeKey, LowerChar;
    SnakeCase("fix", "manifest", "fix_manifest", "fixmanifest");
    PlainKeysStand("fixmanifest");
  }

  /** The fields of the tool results, in Go's spelling or the database's, are hidden ones, and the manifest is not
      sent. */
  lemma FieldsInUseAreHidden(s: string)
    ensures IsHidden(Field("ClusterID", Str(s)), "cluster") && IsHidden(Field("cluster_id", Str(s)), "cluster")
    ensures IsHidden(Field("src_workload", Str(s)), "workload")
    ensures IsHidden(Field("dst_workload_or_endpoint", Str(s)), "endpoint")
    ensures Kept([Field("fix_manifest", Str(s))]) == []
  {
    hide NormalizeKey;
    ClusterSpelled();
    SourceSpelled();
    DestinationSpelled();
    ManifestSpelled();
    var f := Field("fix_manifest", Str(s));
    assert [f][..0] == [] && Kept([]) == [];
  }

  // ----- What is sent -----

  lemma IdentityByKey(f: Field)
    ensures forall kind :: IsHidden(f, kind) <==> Identity(f) && kind == KindFor(f)
    ensures Identity(f) ==> IsHidden(f, KindFor(f))
  {
    hide HiddenAs;
    forall kind ensures IsHidden(f, kind) <==> Identity(f) && kind == KindFor(f) {
      KeyIsListed(NormalizeKey(f.key), kind);
    }
  }

  /** A sent value hides every name under a hidden key behind an alias of its kind, changes nothing else, and holds no
      manifest. */
  lemma {:induction false} SentValuesHide(v: Json, w: Json, issued: seq<Issue>)
    requires Proper(issued) && Sanitized(v, w, issued)
    ensures Rewritten(Hides, v, w) && NoManifest(w)
    decreases v, 0
  {
    hide Proper, FieldRewritten;
    match v
    case Array(items) => SentItemsHide(items, w.items, issued);
    case Object(fields) => SentFieldsHide(fields, w.fields, issued);
    case _ =>
  }

  lemma {:induction false} SentItemsHide(items: seq<Json>, out: seq<Json>, issued: seq<Issue>)
    requires Proper(issued) && ItemsSanitized(items, out, issued)
    ensures |out| == |items|
    ensures forall i | 0 <= i < |items| :: Rewritten(Hides, items[i], out[i]) && NoManifest(out[i])
    decreases items, 1
  {
    hide Proper, Rewritten, NoManifest, Sanitized;
    if items != [] {
      var n := |items| - 1;
      SentValuesHide(items[n], out[n], issued);
      SentItemsHide(items[..n], out[..n], issued);
      forall i | 0 <= i < |items| ensures Rewritten(Hides, items[i], out[i]) && NoManifest(out[i]) {
        if i < n {
          assert items[..n][i] == items[i] && out[..n][i] == out[i];
        }
      }
    }
  }

  lemma {:induction false} SentFieldsHide(fields: seq<Field>, out: seq<Field>, issued: seq<Issue>)
    requires Proper(issued) && FieldsSanitized(fields, out, issued)
    ensures |out| == |Kept(fields)|
    ensures forall i | 0 <= i < |out| ::
      out[i].key == Kept(fields)[i].key && FieldRewritten(Hides, Kept(fields)[i], out[i].value)
    ensures forall i | 0 <= i < |out| :: NormalizeKey(out[i].key) != "fixmanifest" && NoManifest(out[i].value)
    decreases fields, 1
  {
    hide Proper, FieldRewritten, NoManifest, ValueSanitized, NormalizeKey;
    if fields != [] {
      var f, front := fields[|fields| - 1], fields[..|fields| - 1];
      if Dropped(f) {
        SentFieldsHide(front, out, issued);
      } else {
        var n := |out| - 1;
        SentFieldsHide(front, out[..n], issued);
        SentFieldHides(f, out[n].value, issued);
        assert Kept(fields) == Kept(front) + [f] && n == |Kept(front)|;
        forall i | 0 <= i < n ensures out[i] == out[..n][i] && Kept(fields)[i] == Kept(front)[i] {
        }
      }
    }
  }

  lemma {:induction false} SentFieldHides(f: Field, w: Json, issued: seq<Issue>)
    requires Proper(issued) && ValueSanitized(f, w, issued)
    ensures FieldRewritten(Hides, f, w) && NoManifest(w)
    decreases f, 1
  {
    hide Proper, IsHidden, Hides;
    IdentityByKey(f);
    if Identity(f) {
      IdentifierHides(issued, KindFor(f), f.value.s);
    } else {
      SentValuesHide(f.value, w, issued);
    }
  }

  // ----- Other names, same output -----

  /** `text` is `name` renamed part by part. */
  ghost predicate RenamedTo(r: Renaming, kind: string, name: string, text: string) {
    if name == "" then text == ""
    else if InTwoParts(name) then
      forall k: nat | CutAt(name, k) :: text == r("namespace", name[..k]) + "/" + r("workload", name[k + 1..])
    else text == r(kind, name)
  }

  /** `u` is `v` with every hidden name renamed, and without its manifests. */
  ghost predicate RenamedValue(r: Renaming, v: Json, u: Json) {
    Rewritten((kind, name, text) => RenamedTo(r, kind, name, text), v, u)
  }

  lemma MaskedIsRenamed(r: Renaming, kind: string, name: string)
    ensures RenamedTo(r, kind, name, MaskedName(r, kind, name))
    ensures forall text :: RenamedTo(r, kind, name, text) ==> text == MaskedName(r, kind, name)
  {
    hide ShapeOf, InTwoParts;
    ShapeIsCut(name);
    if name != "" && ShapeOf(name).Halves? {
      CutExists(name);
    }
  }

  lemma CutExists(name: string)
    requires InTwoParts(name)
    ensures exists k: nat :: CutAt(name, k)
  {
  }

  lemma {:induction false} RenamedIsMasked(r: Renaming, v: Json, u: Json)
    requires RenamedValue(r, v, u)
    ensures u == Masked(r, v)
    decreases v, 0
  {
    match v
    case Array(items) => RenamedItemsAreMasked(r, items, u.items);
    case Object(fields) => RenamedFieldsAreMasked(r, fields, u.fields);
    case _ =>
  }

  lemma {:induction false} RenamedItemsAreMasked(r: Renaming, items: seq<Json>, out: seq<Json>)
    requires |out| == |items| && forall i | 0 <= i < |items| :: RenamedValue(r, items[i], out[i])
    ensures out == MaskedItems(r, items)
    decreases items, 1
  {
    hide RenamedValue, Masked;
    if items != [] {
      var n := |items| - 1;
      RenamedIsMasked(r, items[n], out[n]);
      RenamedItemsAreMasked(r, items[..n], out[..n]);
      assert out == out[..n] + [out[n]];
    }
  }

  ghost predicate RenamedField(r: Renaming, f: Field, u: Json) {
    FieldRewritten((kind, name, text) => RenamedTo(r, kind, name, text), f, u)
  }

  lemma {:induction false} RenamedFieldsAreMasked(r: Renaming, fields: seq<Field>, out: seq<Field>)
    requires |out| == |Kept(fields)|
    requires forall i | 0 <= i < |out| ::
      out[i].key == Kept(fields)[i].key && RenamedField(r, Kept(fields)[i], out[i].value)
    ensures out == MaskedFields(r, fields)
    decreases fields, 1
  {
    hide RenamedField, MaskedValue, NormalizeKey;
    if fields != [] {
      var f, front := fields[|fields| - 1], fields[..|fields| - 1];
      if Dropped(f) {
        RenamedFieldsAreMasked(r, front, out);
      } else {
        var n := |out| - 1;
        assert Kept(fields) == Kept(front) + [f] && n == |Kept(front)|;
        forall i | 0 <= i < n ensures out[i] == out[..n][i] && Kept(fields)[i] == Kept(front)[i] {
        }
        RenamedFieldsAreMasked(r, front, out[..n]);
        RenamedFieldIsMasked(r, f, out[n].value);
        assert out == out[..n] + [Field(f.key, MaskedValue(r, f))];
      }
    }
  }

  lemma {:induction false} RenamedFieldIsMasked(r: Renaming, f: Field, u: Json)
    requires RenamedField(r, f, u)
    ensures u == MaskedValue(r, f)
    decreases f, 1
  {
    hide IsHidden, RenamedTo, MaskedName;
    IdentityByKey(f);
    if Identity(f) {
      MaskedIsRenamed(r, KindFor(f), f.value.s);
    } else {
      RenamedIsMasked(r, f.value, u);
    }
  }

  /** Two values that become one by renaming the strings under the hidden keys, whatever stands in their manifests, are
      sent alike, and so is whatever is sent later. */
  lemma NamesStayHidden(r: Renaming, r': Renaming, v: Json, v': Json, u: Json, w: Json, w': Json, issued: seq<Issue>,
                        issued': seq<Issue>)
    requires Renames(r) && Renames(r')
    requires RenamedValue(r, v, u) && RenamedValue(r', v', u)
    requires MaskedIssues(r, issued) == MaskedIssues(r', issued')
    requires Proper(SeenIn(v, issued)) && Sanitized(v, w, SeenIn(v, issued))
    requires Proper(SeenIn(v', issued')) && Sanitized(v', w', SeenIn(v', issued'))
    ensures w == w'
    ensures MaskedIssues(r, SeenIn(v, issued)) == MaskedIssues(r', SeenIn(v', issued'))
  {
    hide Renames, MaskedIssues, Masked, Sanitized, SeenIn, Proper, RenamedValue;
    RenamedIsMasked(r, v, u);
    RenamedIsMasked(r', v', u);
    SentAlike(r, r', v, v', w, w', issued, issued');
  }
}
