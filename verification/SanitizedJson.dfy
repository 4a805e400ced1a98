/** Walking a decoded JSON value: identity-bearing strings are aliased, manifests dropped, all else kept. */
module SanitizedJson {
  import opened Aliases
  import opened Restore
  import opened Sanitizing

  /** A decoded value; an object lists its fields in the order they are visited. */
  datatype Json =
    | Null
    | Bool(b: bool)
    | Number(x: real)
    | Str(s: string)
    | Array(items: seq<Json>)
    | Object(fields: seq<Field>)

  datatype Field = Field(key: string, value: Json)

  function LowerChar(c: char): char {
    if 'A' <= c <= 'Z' then c - 'A' + 'a' else c
  }

  /** Lower case without underscores, so `ClusterID` and `cluster_id` meet. */
  function NormalizeKey(k: string): string {
    if k == "" then ""
    else if k[0] == '_' then NormalizeKey(k[1..])
    else [LowerChar(k[0])] + NormalizeKey(k[1..])
  }

  lemma {:induction false} NormalizeJoins(a: string, b: string)
    ensures NormalizeKey(a + b) == NormalizeKey(a) + NormalizeKey(b)
  {
    if a == "" {
      assert a + b == b;
    } else {
      hide NormalizeKey, LowerChar;
      NormalizeJoins(a[1..], b);
      JoinsNext(a, b, a + b, a[1..], a[1..] + b);
    }
  }

  lemma JoinsNext(a: string, b: string, whole: string, rest: string, restWhole: string)
    requires a != "" && rest == a[1..] && restWhole == rest + b && whole == a + b
    requires NormalizeKey(restWhole) == NormalizeKey(rest) + NormalizeKey(b)
    ensures NormalizeKey(whole) == NormalizeKey(a) + NormalizeKey(b)
  {
    hide NormalizeKey, LowerChar;
    assert whole[0] == a[0] && whole[1..] == restWhole;
    NormalizeNext(a, rest);
    NormalizeNext(whole, restWhole);
    if a[0] != '_' {
      Cons(LowerChar(a[0]), NormalizeKey(rest), NormalizeKey(b));
    }
  }

  lemma Cons(c: char, x: string, y: string)
    ensures [c] + (x + y) == [c] + x + y
  {
  }

  lemma NormalizeNext(k: string, rest: string)
    requires k != "" && rest == k[1..]
    ensures NormalizeKey(k) == if k[0] == '_' then NormalizeKey(rest) else [LowerChar(k[0])] + NormalizeKey(rest)
  {
  }

  /** Underscores do not matter, wherever they stand, and a normalized key has none and no upper case. */
  lemma {:induction false} UnderscoresVanish(a: string, b: string)
    ensures NormalizeKey(a + "_" + b) == NormalizeKey(a + b)
    ensures forall c | c in NormalizeKey(a) :: c != '_' && !('A' <= c <= 'Z')
    decreases |a|
  {
    if a == "" {
      assert a + "_" + b == "_" + b && a + b == b;
      assert ("_" + b)[1..] == b;
    } else {
      UnderscoresVanish(a[1..], b);
      assert (a + "_" + b)[1..] == a[1..] + "_" + b && (a + b)[1..] == a[1..] + b;
    }
  }

  /** Nor does the case of any letter. */
  lemma CaseVanishes(a: string, c: char, b: string)
    requires 'A' <= c <= 'Z'
    ensures NormalizeKey(a + [c] + b) == NormalizeKey(a + [LowerChar(c)] + b)
  {
    NormalizeJoins(a + [c], b);
    NormalizeJoins(a, [c]);
    NormalizeJoins(a + [LowerChar(c)], b);
    NormalizeJoins(a, [LowerChar(c)]);
    assert [c][1..] == "" && [LowerChar(c)][1..] == "";
  }

  const SANITIZED_KEYS: map<string, string> := map[
    "source" := "workload", "destination" := "endpoint", "srcworkload" := "workload",
    "dstworkloadorendpoint" := "endpoint", "workload" := "workload", "clusterid" := "cluster",
    "namespace" := "namespace", "name" := "resource", "team" := "team"]

  predicate Dropped(f: Field) {
    NormalizeKey(f.key) == "fixmanifest"
  }

  /** A string under a listed key, and the kind its alias has. */
  predicate Identity(f: Field) {
    NormalizeKey(f.key) in SANITIZED_KEYS && f.value.Str?
  }

  function KindFor(f: Field): (kind: string)
    requires Identity(f)
    ensures kind in KINDS && IsKind(kind)
  {
    KindsAreKinds();
    SANITIZED_KEYS[NormalizeKey(f.key)]
  }

  // ----- What a sanitized value looks like -----

  /** `w` is `v` as sent, given the aliases issued: same shape, same leaves, aliases for identities, no manifests. */
  ghost predicate Sanitized(v: Json, w: Json, issued: seq<Issue>)
    decreases v, 0
  {
    match v
    case Array(items) => w.Array? && ItemsSanitized(items, w.items, issued)
    case Object(fields) => w.Object? && FieldsSanitized(fields, w.fields, issued)
    case _ => w == v
  }

  ghost predicate ItemsSanitized(items: seq<Json>, out: seq<Json>, issued: seq<Issue>)
    decreases items, 1
  {
    if items == [] then out == []
    else
      var n := |items| - 1;
      |out| == |items| && Sanitized(items[n], out[n], issued) && ItemsSanitized(items[..n], out[..n], issued)
  }

  ghost predicate FieldsSanitized(fields: seq<Field>, out: seq<Field>, issued: seq<Issue>)
    decreases fields, 1
  {
    if fields == [] then out == []
    else
      var f, front := fields[|fields| - 1], fields[..|fields| - 1];
      if Dropped(f) then FieldsSanitized(front, out, issued)
      else
        && out != []
        && out[|out| - 1].key == f.key
        && ValueSanitized(f, out[|out| - 1].value, issued)
        && FieldsSanitized(front, out[..|out| - 1], issued)
  }

  ghost predicate ValueSanitized(f: Field, w: Json, issued: seq<Issue>)
    decreases f, 1
  {
    if Identity(f) then
      Known(issued, KindFor(f), f.value.s) && w == Str(IdentifierText(issued, KindFor(f), f.value.s))
    else Sanitized(f.value, w, issued)
  }

  // Later aliases leave what was sent as it was.

  lemma {:induction false} SanitizedIsStable(v: Json, w: Json, issued: seq<Issue>, more: seq<Issue>)
    requires Proper(more) && issued <= more && Sanitized(v, w, issued)
    ensures Sanitized(v, w, more)
    decreases v, 0
  {
    match v
    case Array(items) => ItemsAreStable(items, w.items, issued, more);
    case Object(fields) => FieldsAreStable(fields, w.fields, issued, more);
    case _ =>
  }

  lemma {:induction false} ItemsAreStable(items: seq<Json>, out: seq<Json>, issued: seq<Issue>, more: seq<Issue>)
    requires Proper(more) && issued <= more && ItemsSanitized(items, out, issued)
    ensures ItemsSanitized(items, out, more)
    decreases items, 1
  {
    if items != [] {
      var n := |items| - 1;
      SanitizedIsStable(items[n], out[n], issued, more);
      ItemsAreStable(items[..n], out[..n], issued, more);
    }
  }

  lemma {:induction false} FieldsAreStable(fields: seq<Field>, out: seq<Field>, issued: seq<Issue>, more: seq<Issue>)
    requires Proper(more) && issued <= more && FieldsSanitized(fields, out, issued)
    ensures FieldsSanitized(fields, out, more)
    decreases fields, 1
  {
    if fields != [] {
      var f, front := fields[|fields| - 1], fields[..|fields| - 1];
      if Dropped(f) {
        FieldsAreStable(front, out, issued, more);
      } else {
        FieldsAreStable(front, out[..|out| - 1], issued, more);
        ValueIsStable(f, out[|out| - 1].value, issued, more);
      }
    }
  }

  lemma {:induction false} ValueIsStable(f: Field, w: Json, issued: seq<Issue>, more: seq<Issue>)
    requires Proper(more) && issued <= more && ValueSanitized(f, w, issued)
    ensures ValueSanitized(f, w, more)
    decreases f, 1
  {
    if Identity(f) {
      KnownIsStable(issued, more, KindFor(f), f.value.s);
    } else {
      SanitizedIsStable(f.value, w, issued, more);
    }
  }

  // ----- The aliases a walk issues -----

  /** The alias list once a value has been walked: its identities in order, outside dropped fields, and nothing else. */
  ghost function SeenIn(v: Json, issued: seq<Issue>): seq<Issue>
    decreases v, 0
  {
    match v
    case Array(items) => SeenInItems(items, issued)
    case Object(fields) => SeenInFields(fields, issued)
    case _ => issued
  }

  ghost function SeenInItems(items: seq<Json>, issued: seq<Issue>): seq<Issue>
    decreases items, 1
  {
    if items == [] then issued
    else SeenIn(items[|items| - 1], SeenInItems(items[..|items| - 1], issued))
  }

  ghost function SeenInFields(fields: seq<Field>, issued: seq<Issue>): seq<Issue>
    decreases fields, 1
  {
    if fields == [] then issued
    else
      var f, before := fields[|fields| - 1], SeenInFields(fields[..|fields| - 1], issued);
      if Dropped(f) then before else SeenInValue(f, before)
  }

  ghost function SeenInValue(f: Field, issued: seq<Issue>): seq<Issue>
    decreases f, 1
  {
    if Identity(f) then Seen(issued, KindFor(f), f.value.s) else SeenIn(f.value, issued)
  }

  // ----- The walk -----

  method Walk(s: Sanitizer, v: Json) returns (w: Json)
    requires s.Valid() && s.enabled
    modifies s
    ensures s.Valid() && old(s.issued) <= s.issued == SeenIn(v, old(s.issued))
    ensures Sanitized(v, w, s.issued)
    decreases v, 0
  {
    match v
    case Object(fields) =>
      var out := WalkFields(s, fields);
      w := Object(out);
    case Array(items) =>
      var out := WalkItems(s, items);
      w := Array(out);
    case _ => w := v;
  }

  method WalkItems(s: Sanitizer, items: seq<Json>) returns (out: seq<Json>)
    requires s.Valid() && s.enabled
    modifies s
    ensures s.Valid() && old(s.issued) <= s.issued == SeenInItems(items, old(s.issued))
    ensures ItemsSanitized(items, out, s.issued)
    decreases items, 1
  {
    out := [];
    for i := 0 to |items|
      invariant s.Valid() && old(s.issued) <= s.issued == SeenInItems(items[..i], old(s.issued))
      invariant ItemsSanitized(items[..i], out, s.issued)
    {
      ghost var before := s.issued;
      var w := Walk(s, items[i]);
      ItemsAreStable(items[..i], out, before, s.issued);
      AppendItem(items[..i], out, items[i], w, s.issued);
      assert items[..i + 1] == items[..i] + [items[i]];
      ItemsSeenNext(items, i, old(s.issued));
      out := out + [w];
    }
    assert items[..|items|] == items;
  }

  method WalkFields(s: Sanitizer, fields: seq<Field>) returns (out: seq<Field>)
    requires s.Valid() && s.enabled
    modifies s
    ensures s.Valid() && old(s.issued) <= s.issued == SeenInFields(fields, old(s.issued))
    ensures FieldsSanitized(fields, out, s.issued)
    decreases fields, 1
  {
    out := [];
    for i := 0 to |fields|
      invariant s.Valid() && old(s.issued) <= s.issued == SeenInFields(fields[..i], old(s.issued))
      invariant FieldsSanitized(fields[..i], out, s.issued)
    {
      var f := fields[i];
      assert fields[..i + 1] == fields[..i] + [f];
      FieldsSeenNext(fields, i, old(s.issued));
      if Dropped(f) {
        assert (fields[..i] + [f])[..i] == fields[..i];
        continue;
      }
      ghost var before := s.issued;
      var w := WalkValue(s, f);
      FieldsAreStable(fields[..i], out, before, s.issued);
      AppendField(fields[..i], out, f, w, s.issued);
      out := out + [Field(f.key, w)];
    }
    assert fields[..|fields|] == fields;
  }

  method WalkValue(s: Sanitizer, f: Field) returns (w: Json)
    requires s.Valid() && s.enabled
    modifies s
    ensures s.Valid() && old(s.issued) <= s.issued == SeenInValue(f, old(s.issued))
    ensures ValueSanitized(f, w, s.issued)
    decreases f, 1
  {
    if Identity(f) {
      SeenIsKnown(s.issued, KindFor(f), f.value.s);
      var text := s.Identifier(KindFor(f), f.value.s);
      return Str(text);
    }
    w := Walk(s, f.value);
  }

  lemma ItemsSeenNext(items: seq<Json>, i: nat, issued: seq<Issue>)
    requires i < |items|
    ensures SeenInItems(items[..i + 1], issued) == SeenIn(items[i], SeenInItems(items[..i], issued))
  {
    hide SeenIn;
    assert items[..i + 1][..i] == items[..i];
  }

  lemma FieldsSeenNext(fields: seq<Field>, i: nat, issued: seq<Issue>)
    requires i < |fields|
    ensures SeenInFields(fields[..i + 1], issued)
         == if Dropped(fields[i]) then SeenInFields(fields[..i], issued)
            else SeenInValue(fields[i], SeenInFields(fields[..i], issued))
  {
    hide SeenInValue, Dropped;
    assert fields[..i + 1][..i] == fields[..i];
  }

  lemma AppendItem(items: seq<Json>, out: seq<Json>, v: Json, w: Json, issued: seq<Issue>)
    requires ItemsSanitized(items, out, issued) && Sanitized(v, w, issued)
    ensures ItemsSanitized(items + [v], out + [w], issued)
  {
    assert (items + [v])[..|items|] == items;
    assert |items| == |out|;
    assert (out + [w])[..|out|] == out;
  }

  lemma AppendField(fields: seq<Field>, out: seq<Field>, f: Field, w: Json, issued: seq<Issue>)
    requires FieldsSanitized(fields, out, issued) && ValueSanitized(f, w, issued) && !Dropped(f)
    ensures FieldsSanitized(fields + [f], out + [Field(f.key, w)], issued)
  {
    assert (fields + [f])[..|fields|] == fields;
    assert (out + [Field(f.key, w)])[..|out|] == out;
  }

  // ----- Undoing the walk -----

  /** A value without its dropped fields. */
  function WithoutDropped(v: Json): Json
    decreases v, 0
  {
    match v
    case Array(items) => Array(ItemsWithoutDropped(items))
    case Object(fields) => Object(FieldsWithoutDropped(fields))
    case _ => v
  }

  function ItemsWithoutDropped(items: seq<Json>): seq<Json>
    decreases items, 1
  {
    if items == [] then []
    else ItemsWithoutDropped(items[..|items| - 1]) + [WithoutDropped(items[|items| - 1])]
  }

  function FieldsWithoutDropped(fields: seq<Field>): seq<Field>
    decreases fields, 1
  {
    if fields == [] then []
    else
      var f := fields[|fields| - 1];
      FieldsWithoutDropped(fields[..|fields| - 1]) + if Dropped(f) then [] else [Field(f.key, WithoutDropped(f.value))]
  }

  /** A sent value with the text of every identity restored. */
  ghost function Restored(w: Json, order: seq<string>, reverse: map<string, string>): Json
    requires Replaceable(order, reverse)
    decreases w, 0
  {
    match w
    case Array(items) => Array(ItemsRestored(items, order, reverse))
    case Object(fields) => Object(FieldsRestored(fields, order, reverse))
    case _ => w
  }

  ghost function ItemsRestored(items: seq<Json>, order: seq<string>, reverse: map<string, string>): seq<Json>
    requires Replaceable(order, reverse)
    decreases items, 1
  {
    if items == [] then []
    else ItemsRestored(items[..|items| - 1], order, reverse) + [Restored(items[|items| - 1], order, reverse)]
  }

  ghost function FieldsRestored(fields: seq<Field>, order: seq<string>, reverse: map<string, string>): seq<Field>
    requires Replaceable(order, reverse)
    decreases fields, 1
  {
    if fields == [] then []
    else
      var f := fields[|fields| - 1];
      FieldsRestored(fields[..|fields| - 1], order, reverse)
      + [Field(f.key, ValueRestored(f, order, reverse))]
  }

  ghost function ValueRestored(f: Field, order: seq<string>, reverse: map<string, string>): Json
    requires Replaceable(order, reverse)
    decreases f, 1
  {
    if Identity(f) then Str(RestoreIn(order, reverse, f.value.s)) else Restored(f.value, order, reverse)
  }

  /** Every identity of the value is restored to what it was. */
  ghost predicate IdentitiesReturn(v: Json, issued: seq<Issue>, order: seq<string>, reverse: map<string, string>)
    requires Replaceable(order, reverse)
    decreases v, 0
  {
    match v
    case Array(items) => ItemsReturn(items, issued, order, reverse)
    case Object(fields) => FieldsReturn(fields, issued, order, reverse)
    case _ => true
  }

  ghost predicate ItemsReturn(items: seq<Json>, issued: seq<Issue>, order: seq<string>, reverse: map<string, string>)
    requires Replaceable(order, reverse)
    decreases items, 1
  {
    items == [] ||
      (IdentitiesReturn(items[|items| - 1], issued, order, reverse)
       && ItemsReturn(items[..|items| - 1], issued, order, reverse))
  }

  ghost predicate FieldsReturn(fields: seq<Field>, issued: seq<Issue>, order: seq<string>, reverse: map<string, string>)
    requires Replaceable(order, reverse)
    decreases fields, 1
  {
    fields == [] ||
      var f := fields[|fields| - 1];
      && (Dropped(f) || ValueReturns(f, issued, order, reverse))
      && FieldsReturn(fields[..|fields| - 1], issued, order, reverse)
  }

  /** See `Sanitizing.IdentifierRoundTrip` for when an identity is. */
  ghost predicate ValueReturns(f: Field, issued: seq<Issue>, order: seq<string>, reverse: map<string, string>)
    requires Replaceable(order, reverse)
    decreases f, 1
  {
    if Identity(f) then
      Known(issued, KindFor(f), f.value.s) ==>
        RestoreIn(order, reverse, IdentifierText(issued, KindFor(f), f.value.s)) == f.value.s
    else IdentitiesReturn(f.value, issued, order, reverse)
  }

  lemma OneMoreAlike<T>(a: seq<T>, x: T, b: seq<T>, y: T)
    ensures a + [x] == b + [y] <==> a == b && x == y
  {
    if a + [x] == b + [y] {
      assert |a| == |a + [x]| - 1 == |b|;
      assert (a + [x])[..|a|] == a && (b + [y])[..|b|] == b;
      assert (a + [x])[|a|] == x && (b + [y])[|b|] == y;
    }
  }

  /** Restoring the identities of a sent value gives the original without its manifests exactly when each of them
      returns. */
  lemma {:induction false} WalkRoundTrip(v: Json, w: Json, issued: seq<Issue>, order: seq<string>,
                                         reverse: map<string, string>)
    requires Replaceable(order, reverse) && Sanitized(v, w, issued)
    ensures Restored(w, order, reverse) == WithoutDropped(v) <==> IdentitiesReturn(v, issued, order, reverse)
    decreases v, 0
  {
    match v
    case Array(items) => ItemsRoundTrip(items, w.items, issued, order, reverse);
    case Object(fields) => FieldsRoundTrip(fields, w.fields, issued, order, reverse);
    case _ =>
  }

  lemma {:induction false} ItemsRoundTrip(items: seq<Json>, out: seq<Json>, issued: seq<Issue>, order: seq<string>,
                                          reverse: map<string, string>)
    requires Replaceable(order, reverse) && ItemsSanitized(items, out, issued)
    ensures ItemsRestored(out, order, reverse) == ItemsWithoutDropped(items)
       <==> ItemsReturn(items, issued, order, reverse)
    decreases items, 1
  {
    if items != [] {
      var n := |items| - 1;
      WalkRoundTrip(items[n], out[n], issued, order, reverse);
      ItemsRoundTrip(items[..n], out[..n], issued, order, reverse);
      OneMoreAlike(ItemsRestored(out[..n], order, reverse), Restored(out[n], order, reverse),
                   ItemsWithoutDropped(items[..n]), WithoutDropped(items[n]));
    }
  }

  lemma {:induction false} FieldsRoundTrip(fields: seq<Field>, out: seq<Field>, issued: seq<Issue>, order: seq<string>,
                                           reverse: map<string, string>)
    requires Replaceable(order, reverse) && FieldsSanitized(fields, out, issued)
    ensures FieldsRestored(out, order, reverse) == FieldsWithoutDropped(fields)
       <==> FieldsReturn(fields, issued, order, reverse)
    decreases fields, 1
  {
    if fields != [] {
      var f, front := fields[|fields| - 1], fields[..|fields| - 1];
      if Dropped(f) {
        FieldsRoundTrip(front, out, issued, order, reverse);
      } else {
        var g := out[|out| - 1];
        FieldsRoundTrip(front, out[..|out| - 1], issued, order, reverse);
        ValueRoundTrip(f, g.value, issued, order, reverse);
        OneMoreAlike(FieldsRestored(out[..|out| - 1], order, reverse), Field(g.key, ValueRestored(g, order, reverse)),
                     FieldsWithoutDropped(front), Field(f.key, WithoutDropped(f.value)));
      }
    }
  }

  lemma {:induction false} ValueRoundTrip(f: Field, w: Json, issued: seq<Issue>, order: seq<string>,
                                          reverse: map<string, string>)
    requires Replaceable(order, reverse) && ValueSanitized(f, w, issued)
    ensures ValueRestored(Field(f.key, w), order, reverse) == WithoutDropped(f.value)
       <==> ValueReturns(f, issued, order, reverse)
    decreases f, 1
  {
    if !Identity(f) {
      WalkRoundTrip(f.value, w, issued, order, reverse);
      assert !Identity(Field(f.key, w));
    }
  }

  /** If no name contains another alias that may be replaced later, every value comes back. */
  lemma {:induction false} ClearValuesReturn(v: Json, w: Json, issued: seq<Issue>, order: seq<string>,
                                             reverse: map<string, string>)
    requires Proper(issued) && NamesClear(issued) && Reverses(reverse, issued) && LongestFirst(order, reverse)
    requires Replaceable(order, reverse) && Sanitized(v, w, issued)
    ensures Restored(w, order, reverse) == WithoutDropped(v)
  {
    IdentitiesOfClear(v, issued, order, reverse);
    WalkRoundTrip(v, w, issued, order, reverse);
  }

  lemma {:induction false} IdentitiesOfClear(v: Json, issued: seq<Issue>, order: seq<string>,
                                             reverse: map<string, string>)
    requires Proper(issued) && NamesClear(issued) && Reverses(reverse, issued) && LongestFirst(order, reverse)
    requires Replaceable(order, reverse)
    ensures IdentitiesReturn(v, issued, order, reverse)
    decreases v, 0
  {
    match v
    case Array(items) => ItemsOfClear(items, issued, order, reverse);
    case Object(fields) => FieldsOfClear(fields, issued, order, reverse);
    case _ =>
  }

  lemma {:induction false} ItemsOfClear(items: seq<Json>, issued: seq<Issue>, order: seq<string>,
                                        reverse: map<string, string>)
    requires Proper(issued) && NamesClear(issued) && Reverses(reverse, issued) && LongestFirst(order, reverse)
    requires Replaceable(order, reverse)
    ensures ItemsReturn(items, issued, order, reverse)
    decreases items, 1
  {
    if items != [] {
      IdentitiesOfClear(items[|items| - 1], issued, order, reverse);
      ItemsOfClear(items[..|items| - 1], issued, order, reverse);
    }
  }

  lemma {:induction false} FieldsOfClear(fields: seq<Field>, issued: seq<Issue>, order: seq<string>,
                                         reverse: map<string, string>)
    requires Proper(issued) && NamesClear(issued) && Reverses(reverse, issued) && LongestFirst(order, reverse)
    requires Replaceable(order, reverse)
    ensures FieldsReturn(fields, issued, order, reverse)
    decreases fields, 1
  {
    if fields != [] {
      var f := fields[|fields| - 1];
      FieldsOfClear(fields[..|fields| - 1], issued, order, reverse);
      if Identity(f) {
        if Known(issued, KindFor(f), f.value.s) {
          ClearIdentifiersReturn(issued, issued, KindFor(f), f.value.s, order, reverse);
        }
      } else {
        IdentitiesOfClear(f.value, issued, order, reverse);
      }
    }
  }
}
