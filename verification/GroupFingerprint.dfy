/** The data provider's fingerprint of the set of price groups: the ids sorted and joined by a separator. */
module GroupFingerprint {

  const SEPARATOR: char := '\U{001C}'

  // ---------------------------------------------------------------- the order of strings

  predicate Leq(a: string, b: string) {
    a == "" || (b != "" && (a[0] < b[0] || (a[0] == b[0] && Leq(a[1..], b[1..]))))
  }

  lemma {:induction false} LeqTotal(a: string, b: string)
    ensures Leq(a, b) || Leq(b, a)
    ensures Leq(a, b) && Leq(b, a) ==> a == b
  {
    if a != "" && b != "" && a[0] == b[0] {
      LeqTotal(a[1..], b[1..]);
      assert a == [a[0]] + a[1..] && b == [b[0]] + b[1..];
    }
  }

  lemma {:induction false} LeqTransitive(a: string, b: string, c: string)
    requires Leq(a, b) && Leq(b, c)
    ensures Leq(a, c)
  {
    if a != "" && b != "" && c != "" && a[0] == b[0] == c[0] { LeqTransitive(a[1..], b[1..], c[1..]); }
  }

  predicate Sorted(s: seq<string>) {
    forall i, j :: 0 <= i < j < |s| ==> Leq(s[i], s[j])
  }

  function Insert(x: string, s: seq<string>): seq<string> {
    if s == [] || Leq(x, s[0]) then [x] + s else [s[0]] + Insert(x, s[1..])
  }

  /** Stands for the library sort. */
  function Sort(s: seq<string>): seq<string> {
    if s == [] then [] else Insert(s[0], Sort(s[1..]))
  }

  lemma {:induction false} InsertBag(x: string, s: seq<string>)
    ensures multiset(Insert(x, s)) == multiset(s) + multiset{x}
  {
    if s != [] {
      assert s == [s[0]] + s[1..];
      InsertBag(x, s[1..]);
    }
  }

  lemma AheadOfAll(x: string, s: seq<string>)
    requires Sorted(s) && s != [] && Leq(x, s[0])
    ensures Sorted([x] + s)
  {
    forall j | 0 <= j < |s| ensures Leq(x, s[j]) {
      if j > 0 { LeqTransitive(x, s[0], s[j]); }
    }
  }

  lemma {:induction false} InsertSorts(x: string, s: seq<string>)
    requires Sorted(s)
    ensures Sorted(Insert(x, s))
  {
    if s != [] {
      LeqTotal(x, s[0]);
      if Leq(x, s[0]) {
        AheadOfAll(x, s);
      } else {
        InsertSorts(x, s[1..]);
        InsertBag(x, s[1..]);
        var t := Insert(x, s[1..]);
        forall j | 0 <= j < |t| ensures Leq(s[0], t[j]) {
          assert t[j] in multiset(t);
          assert t[j] == x || t[j] in s[1..];
        }
      }
    }
  }

  lemma {:induction false} SortSorts(s: seq<string>)
    ensures Sorted(Sort(s)) && multiset(Sort(s)) == multiset(s)
  {
    if s != [] {
      SortSorts(s[1..]);
      InsertSorts(s[0], Sort(s[1..]));
      InsertBag(s[0], Sort(s[1..]));
      assert s == [s[0]] + s[1..];
    }
  }

  /** `s` lists the members of `g`, each once, in some order. */
  ghost predicate Lists(s: seq<string>, g: set<string>) {
    && (forall x :: x in g <==> x in s)
    && (forall i, j :: 0 <= i < j < |s| ==> s[i] != s[j])
  }

  lemma SortLists(s: seq<string>, g: set<string>)
    requires Lists(s, g)
    ensures Lists(Sort(s), g)
  {
    SortSorts(s);
    forall x ensures x in s <==> x in Sort(s) {
      assert x in s <==> x in multiset(s);
      assert x in Sort(s) <==> x in multiset(Sort(s));
    }
    DistinctIsOnce(s);
    OnceIsDistinct(Sort(s));
  }

  lemma {:induction false} DistinctIsOnce(s: seq<string>)
    requires forall i, j :: 0 <= i < j < |s| ==> s[i] != s[j]
    ensures forall x :: multiset(s)[x] <= 1
  {
    if s != [] {
      DistinctIsOnce(s[1..]);
      assert s == [s[0]] + s[1..];
      assert multiset(s[1..])[s[0]] == 0;
    }
  }

  lemma OnceIsDistinct(s: seq<string>)
    requires forall x :: multiset(s)[x] <= 1
    ensures forall i, j :: 0 <= i < j < |s| ==> s[i] != s[j]
  {
    forall i, j | 0 <= i < j < |s| ensures s[i] != s[j] {
      var x := s[j];
      assert s == s[..j] + [x] + s[j + 1..];
      assert multiset(s)[x] == multiset(s[..j])[x] + 1 + multiset(s[j + 1..])[x];
      assert x !in multiset(s[..j]);
      assert s[i] == s[..j][i];
    }
  }

  lemma EmptyListing(s: seq<string>, g: set<string>)
    requires Lists(s, g)
    ensures s == [] <==> g == {}
  {
    if s != [] { assert s[0] in g; }
  }

  /** A set has one sorted listing. */
  lemma {:induction false} SortedListingUnique(a: seq<string>, b: seq<string>, g: set<string>)
    requires Lists(a, g) && Lists(b, g) && Sorted(a) && Sorted(b)
    ensures a == b
    decreases |a|
  {
    EmptyListing(a, g);
    EmptyListing(b, g);
    if a == [] {
    } else {
      assert a[0] in g && b != [];
      assert b[0] in g;
      var i :| 0 <= i < |b| && b[i] == a[0];
      var j :| 0 <= j < |a| && a[j] == b[0];
      LeqTotal(a[0], b[0]);
      assert a[0] == b[0];
      TailLists(a, g);
      TailLists(b, g);
      SortedListingUnique(a[1..], b[1..], g - {a[0]});
      assert a == [a[0]] + a[1..] && b == [b[0]] + b[1..];
    }
  }

  lemma TailLists(s: seq<string>, g: set<string>)
    requires s != [] && Lists(s, g)
    ensures Lists(s[1..], g - {s[0]})
  {
    forall x ensures x in g - {s[0]} <==> x in s[1..] {
      if x in s && x != s[0] {
        var i :| 0 <= i < |s| && s[i] == x;
        assert s[1..][i - 1] == x;
      }
    }
  }

  // ---------------------------------------------------------------- joining

  function Join(parts: seq<string>): string {
    if parts == [] then ""
    else if |parts| == 1 then parts[0]
    else parts[0] + [SEPARATOR] + Join(parts[1..])
  }

  /** Position of the first separator, or the length if there is none. */
  function FirstSeparator(s: string): (k: nat)
    ensures k <= |s|
    ensures forall i :: 0 <= i < k ==> s[i] != SEPARATOR
    ensures k < |s| ==> s[k] == SEPARATOR
  {
    if s == "" || s[0] == SEPARATOR then 0 else FirstSeparator(s[1..]) + 1
  }

  predicate Plain(id: string) {
    id != "" && SEPARATOR !in id
  }

  lemma JoinSplits(parts: seq<string>)
    requires parts != [] && SEPARATOR !in parts[0]
    ensures
      var k := FirstSeparator(Join(parts));
      k == |parts[0]| && Join(parts)[..k] == parts[0]
      && (k < |Join(parts)| <==> |parts| > 1)
      && (|parts| > 1 ==> Join(parts)[k + 1..] == Join(parts[1..]))
  {
    var k := FirstSeparator(Join(parts));
    assert Join(parts)[..|parts[0]|] == parts[0];
    assert forall i :: 0 <= i < |parts[0]| ==> Join(parts)[i] == parts[0][i];
    if |parts| > 1 { assert Join(parts)[|parts[0]|] == SEPARATOR; }
  }

  lemma {:induction false} JoinInjective(a: seq<string>, b: seq<string>)
    requires (forall i :: 0 <= i < |a| ==> Plain(a[i])) && (forall i :: 0 <= i < |b| ==> Plain(b[i]))
    requires Join(a) == Join(b)
    ensures a == b
    decreases |a|
  {
    if a != [] && b != [] {
      JoinSplits(a);
      JoinSplits(b);
      if |a| > 1 { JoinInjective(a[1..], b[1..]); }
      assert a == [a[0]] + a[1..] && b == [b[0]] + b[1..];
    }
  }

  function Fingerprint(listing: seq<string>): string {
    Join(Sort(listing))
  }

  /** The fingerprint does not depend on how the hash set lists the ids, and it tells any two sets of
      non-empty, separator-free ids apart. */
  lemma FingerprintExact(a: seq<string>, b: seq<string>, g: set<string>, h: set<string>)
    requires Lists(a, g) && Lists(b, h)
    requires forall x :: x in g || x in h ==> Plain(x)
    ensures Fingerprint(a) == Fingerprint(b) <==> g == h
  {
    SortLists(a, g);
    SortLists(b, h);
    SortSorts(a);
    SortSorts(b);
    if Fingerprint(a) == Fingerprint(b) {
      forall i | 0 <= i < |Sort(a)| ensures Plain(Sort(a)[i]) { assert Sort(a)[i] in g; }
      forall i | 0 <= i < |Sort(b)| ensures Plain(Sort(b)[i]) { assert Sort(b)[i] in h; }
      JoinInjective(Sort(a), Sort(b));
      assert g == h;
    }
    if g == h { SortedListingUnique(Sort(a), Sort(b), g); }
  }

  // ---------------------------------------------------------------- which sets collide

  /** The separator-free pieces of a string. */
  function Split(s: string): (r: seq<string>)
    ensures r != []
    decreases |s|
  {
    var k := FirstSeparator(s);
    if k == |s| then [s] else [s[..k]] + Split(s[k + 1..])
  }

  /** The pieces of all parts, one after the other; no parts look like one empty piece. */
  function Pieces(parts: seq<string>): seq<string> {
    if parts == [] then [""]
    else if |parts| == 1 then Split(parts[0])
    else Split(parts[0]) + Pieces(parts[1..])
  }

  lemma FirstSeparatorIs(s: string, k: nat)
    requires k <= |s| && (forall i :: 0 <= i < k ==> s[i] != SEPARATOR) && (k < |s| ==> s[k] == SEPARATOR)
    ensures FirstSeparator(s) == k
  {
    var j := FirstSeparator(s);
    assert j < |s| ==> s[j] == SEPARATOR;
  }

  lemma {:induction false} SplitAtSeparator(a: string, b: string)
    ensures Split(a + [SEPARATOR] + b) == Split(a) + Split(b)
    decreases |a|
  {
    var k, s := FirstSeparator(a), a + [SEPARATOR] + b;
    FirstSeparatorIs(s, k);
    assert s[..k] == a[..k];
    if k == |a| {
      assert a[..k] == a && s[k + 1..] == b;
    } else {
      assert s[k + 1..] == a[k + 1..] + [SEPARATOR] + b;
      SplitAtSeparator(a[k + 1..], b);
      assert [a[..k]] + (Split(a[k + 1..]) + Split(b)) == [a[..k]] + Split(a[k + 1..]) + Split(b);
    }
  }

  lemma {:induction false} SplitOfJoin(parts: seq<string>)
    ensures Split(Join(parts)) == Pieces(parts)
    decreases |parts|
  {
    if |parts| > 1 {
      SplitOfJoin(parts[1..]);
      SplitAtSeparator(parts[0], Join(parts[1..]));
    }
  }

  lemma {:induction false} JoinOfSplit(s: string)
    ensures Join(Split(s)) == s
    decreases |s|
  {
    var k := FirstSeparator(s);
    if k < |s| {
      JoinOfSplit(s[k + 1..]);
      var parts := Split(s);
      assert parts[1..] == Split(s[k + 1..]);
      assert s == s[..k] + [s[k]] + s[k + 1..];
    }
  }

  /** For all sets of ids whatever: two fingerprints are equal exactly when the sorted ids fall into the
      same pieces at the separators. */
  lemma FingerprintsEqualIff(a: seq<string>, b: seq<string>)
    ensures Fingerprint(a) == Fingerprint(b) <==> Pieces(Sort(a)) == Pieces(Sort(b))
  {
    SplitOfJoin(Sort(a));
    SplitOfJoin(Sort(b));
    JoinOfSplit(Fingerprint(a));
    JoinOfSplit(Fingerprint(b));
  }

  /** So an empty id looks like no ids, and an id with the separator in it looks like two. */
  lemma FingerprintCollides()
    ensures Fingerprint([""]) == Fingerprint([])
    ensures Fingerprint(["a" + [SEPARATOR] + "b"]) == Fingerprint(["a", "b"])
  {
    assert ["a", "b"][1..] == ["b"] && ["b"][1..] == [] && [""][1..] == [];
    assert Sort(["b"]) == ["b"];
    assert Sort(["a", "b"]) == Insert("a", ["b"]) == ["a", "b"];
    assert Join(["a", "b"]) == "a" + [SEPARATOR] + Join(["b"]);
    var one := "a" + [SEPARATOR] + "b";
    assert [one][1..] == [];
    assert Sort([one]) == [one];
    assert Sort([""]) == [""];
  }
}
