/** Byte-order string comparison, cutting, decimal numerals and slice sorting:
    the parts of Go's `strings`, `strconv` and `sort` packages the program relies on. */
module Text {

  /** Go's `<` on strings. */
  predicate Less(a: string, b: string) {
    if b == "" then false
    else if a == "" then true
    else if a[0] != b[0] then a[0] < b[0]
    else Less(a[1..], b[1..])
  }

  lemma {:induction false} LessTrichotomy(a: string, b: string)
    ensures a == b || Less(a, b) || Less(b, a)
    ensures !(Less(a, b) && Less(b, a))
    ensures a == b ==> !Less(a, b)
  {
    if a != "" && b != "" {
      LessTrichotomy(a[1..], b[1..]);
      assert a == [a[0]] + a[1..] && b == [b[0]] + b[1..];
    }
  }

  lemma {:induction false} LessTransitive(a: string, b: string, c: string)
    requires Less(a, b) && Less(b, c)
    ensures Less(a, c)
  {
    if a != "" && a[0] == b[0] == c[0] {
      LessTransitive(a[1..], b[1..], c[1..]);
    }
  }

  /** What `sort.Slice` needs of its comparison: a strict weak order. */
  ghost predicate StrictWeakOrder<T(!new)>(less: (T, T) -> bool) {
    forall x, y, z :: OrderedTriple(less, x, y, z)
  }

  ghost predicate OrderedTriple<T>(less: (T, T) -> bool, x: T, y: T, z: T) {
    less(x, z) ==> !less(z, x) && (less(x, y) || less(y, z))
  }

  ghost predicate NoInversion<T>(s: seq<T>, less: (T, T) -> bool) {
    forall i, j | 0 <= i < j < |s| :: !less(s[j], s[i])
  }

  method InsertInOrder<T(==, !new)>(s: seq<T>, x: T, less: (T, T) -> bool) returns (r: seq<T>)
    requires StrictWeakOrder(less) && NoInversion(s, less)
    ensures multiset(r) == multiset(s) + multiset{x}
    ensures NoInversion(r, less)
  {
    var i := |s|;
    while i > 0 && less(x, s[i - 1])
      invariant 0 <= i <= |s|
      invariant forall j | i <= j < |s| :: less(x, s[j])
    {
      i := i - 1;
    }
    forall j | 0 <= j < i ensures !less(x, s[j]) {
      assert OrderedTriple(less, x, s[i - 1], s[j]);
    }
    forall j | i <= j < |s| ensures !less(s[j], x) {
      assert OrderedTriple(less, x, x, s[j]);
    }
    InsertKeepsOrder(s, i, x, less);
    r := s[..i] + [x] + s[i..];
  }

  lemma InsertKeepsOrder<T(!new)>(s: seq<T>, i: nat, x: T, less: (T, T) -> bool)
    requires i <= |s| && NoInversion(s, less)
    requires forall j | 0 <= j < i :: !less(x, s[j])
    requires forall j | i <= j < |s| :: !less(s[j], x)
    ensures NoInversion(s[..i] + [x] + s[i..], less)
    ensures multiset(s[..i] + [x] + s[i..]) == multiset(s) + multiset{x}
  {
    var r := s[..i] + [x] + s[i..];
    forall k, l | 0 <= k < l < |r| ensures !less(r[l], r[k]) {
      if l < i {
        assert r[l] == s[l] && r[k] == s[k];
      } else if l == i {
        assert r[l] == x && r[k] == s[k];
      } else if k < i {
        assert r[l] == s[l - 1] && r[k] == s[k];
      } else if k == i {
        assert r[l] == s[l - 1] && r[k] == x;
      } else {
        assert r[l] == s[l - 1] && r[k] == s[k - 1];
      }
    }
    assert s == s[..i] + s[i..];
  }

  /** Sorts by insertion; equal elements may end up in any order, as with `sort.Slice`. */
  method SortSlice<T(==, !new)>(s: seq<T>, less: (T, T) -> bool) returns (sorted: seq<T>)
    requires StrictWeakOrder(less)
    ensures multiset(sorted) == multiset(s)
    ensures NoInversion(sorted, less)
  {
    sorted := [];
    for k := 0 to |s|
      invariant multiset(sorted) == multiset(s[..k])
      invariant NoInversion(sorted, less)
    {
      assert s[..k + 1] == s[..k] + [s[k]];
      sorted := InsertInOrder(sorted, s[k], less);
    }
    assert s[..|s|] == s;
  }

  /** The elements of a set in no particular order: ranging over a Go map's keys. */
  method Elements<T(==)>(s: set<T>) returns (elements: seq<T>)
    ensures multiset(elements) == multiset(s)
  {
    elements := [];
    var rest := s;
    while rest != {}
      invariant rest <= s
      invariant multiset(elements) == multiset(s - rest)
      decreases |rest|
    {
      var x :| x in rest;
      assert s - (rest - {x}) == (s - rest) + {x};
      elements, rest := elements + [x], rest - {x};
    }
    assert s - rest == s;
  }

  ghost predicate Ascending(s: seq<string>) {
    forall i, j | 0 <= i < j < |s| :: Less(s[i], s[j])
  }

  /** Sorting the keys of a string set gives its one ascending listing. */
  method SortedStrings(s: set<string>) returns (sorted: seq<string>)
    ensures Ascending(sorted)
    ensures forall x :: x in sorted <==> x in s
    ensures |sorted| == |s|
  {
    var elements := Elements(s);
    LessIsStrictWeakOrder();
    sorted := SortSlice(elements, Less);
    ListingHasNoRepeats(sorted, s);
    forall i, j | 0 <= i < j < |sorted| ensures Less(sorted[i], sorted[j]) {
      LessTrichotomy(sorted[i], sorted[j]);
    }
  }

  /** A listing of a set has no element twice. */
  lemma ListingHasNoRepeats<T>(listing: seq<T>, s: set<T>)
    requires multiset(listing) == multiset(s)
    ensures |listing| == |s|
    ensures forall x :: x in listing <==> x in s
    ensures forall i, j | 0 <= i < j < |listing| :: listing[i] != listing[j]
  {
    ghost var bag := multiset(s);
    assert multiset(listing) == bag;
    assert |listing| == |multiset(listing)|;
    forall x ensures x in listing <==> x in s {
      assert x in listing <==> x in multiset(listing);
    }
    forall i, j | 0 <= i < j < |listing| ensures listing[i] != listing[j] {
      if listing[i] == listing[j] {
        TwiceInBag(listing, i, j);
      }
    }
  }

  lemma SplitAt<T>(s: seq<T>, i: nat)
    requires i < |s|
    ensures s == s[..i] + ([s[i]] + s[i + 1..])
  {
  }

  lemma TwiceInBag<T>(s: seq<T>, i: nat, j: nat)
    requires i < j < |s| && s[i] == s[j]
    ensures multiset(s)[s[i]] >= 2
  {
    assert s == s[..j] + [s[j]] + s[j + 1..];
    assert s[i] in s[..j];
  }

  lemma LessIsStrictWeakOrder()
    ensures StrictWeakOrder(Less)
  {
    forall x, y, z ensures OrderedTriple(Less, x, y, z) {
      LessTrichotomy(x, y);
      LessTrichotomy(x, z);
      if Less(x, z) && Less(y, x) {
        LessTransitive(y, x, z);
      }
    }
  }

  lemma AscendingIsDistinct(s: seq<string>)
    requires Ascending(s)
    ensures forall i, j | 0 <= i < j < |s| :: s[i] != s[j]
  {
    forall i, j | 0 <= i < j < |s| ensures s[i] != s[j] {
      LessTrichotomy(s[i], s[j]);
    }
  }

  lemma {:induction false} NoRepeatsAreASet<T>(listing: seq<T>, s: set<T>)
    requires forall i, j | 0 <= i < j < |listing| :: listing[i] != listing[j]
    requires forall x :: x in listing <==> x in s
    ensures multiset(listing) == multiset(s)
  {
    if listing == [] {
      assert s == {};
    } else {
      var x := listing[|listing| - 1];
      assert listing == listing[..|listing| - 1] + [x];
      NoRepeatsAreASet(listing[..|listing| - 1], s - {x});
      assert s == s - {x} + {x};
    }
  }

  /** The text before the first `c`, and whether there is one: the first half of `strings.Cut`. */
  function Before(s: string, c: char): (r: (string, bool))
    ensures c !in r.0 && r.0 <= s
    ensures r.1 <==> c in s
    ensures if r.1 then |r.0| < |s| && s[|r.0|] == c else r.0 == s
  {
    if s == "" then ("", false)
    else if s[0] == c then ("", true)
    else
      var rest := Before(s[1..], c);
      ([s[0]] + rest.0, rest.1)
  }

  lemma BeforeAppended(prefix: string, c: char, rest: string)
    requires c !in prefix
    ensures Before(prefix + [c] + rest, c).0 == prefix
  {
    var s := prefix + [c] + rest;
    var b := Before(s, c).0;
    assert s[|prefix|] == c;
    forall k | 0 <= k < |prefix| ensures s[k] != c {
      assert s[k] == prefix[k];
    }
    forall k | 0 <= k < |b| ensures s[k] != c {
      assert s[k] == b[k];
    }
  }

  // ----- Decimal numerals -----

  function Digit(d: nat): char
    requires d < 10
  {
    ['0', '1', '2', '3', '4', '5', '6', '7', '8', '9'][d]
  }

  function Decimal(n: nat): (s: string)
    ensures s != ""
    ensures forall c | c in s :: '0' <= c <= '9'
  {
    if n < 10 then [Digit(n)] else Decimal(n / 10) + [Digit(n % 10)]
  }

  lemma {:induction false} DecimalInjective(m: nat, n: nat)
    requires Decimal(m) == Decimal(n)
    ensures m == n
  {
    var s := Decimal(m);
    assert s[|s| - 1] == Digit(m % 10) == Digit(n % 10);
    assert |Decimal(m)| > 1 <==> m >= 10;
    assert |Decimal(n)| > 1 <==> n >= 10;
    if m >= 10 {
      assert Decimal(m / 10) == s[..|s| - 1] == Decimal(n / 10);
      DecimalInjective(m / 10, n / 10);
    }
  }

  /** What a numeral says, digit by digit. */
  function NumeralValue(s: string): int {
    if s == "" then 0 else 10 * NumeralValue(s[..|s| - 1]) + (s[|s| - 1] as int - '0' as int)
  }

  /** Numerals read back, and have no leading zeros. */
  lemma {:induction false} DecimalReadsBack(n: nat)
    ensures NumeralValue(Decimal(n)) == n
    ensures n > 0 ==> Decimal(n)[0] != '0'
  {
    var s := Decimal(n);
    assert s[|s| - 1] as int == '0' as int + n % 10;
    if n >= 10 {
      DecimalReadsBack(n / 10);
      assert s[..|s| - 1] == Decimal(n / 10);
    } else {
      assert s[..0] == "";
    }
  }
}
