/** Orders and sorting: the byte order Go uses on strings, and what the library sorts promise. */
module Order {

  /** Go's `<` on strings: the first differing element decides, a proper prefix comes first. */
  predicate Less(a: string, b: string) {
    if |b| == 0 then false
    else if |a| == 0 then true
    else if a[0] != b[0] then a[0] < b[0]
    else Less(a[1..], b[1..])
  }

  lemma {:induction false} LessIrreflexive(a: string)
    ensures !Less(a, a)
  {
    if |a| > 0 { LessIrreflexive(a[1..]); }
  }

  lemma {:induction false} LessTransitive(a: string, b: string, c: string)
    requires Less(a, b) && Less(b, c)
    ensures Less(a, c)
  {
    if |a| > 0 && a[0] == b[0] && b[0] == c[0] { LessTransitive(a[1..], b[1..], c[1..]); }
  }

  lemma {:induction false} LessTotal(a: string, b: string)
    ensures Less(a, b) || Less(b, a) || a == b
  {
    if |a| > 0 && |b| > 0 && a[0] == b[0] {
      LessTotal(a[1..], b[1..]);
      if a[1..] == b[1..] { assert a == [a[0]] + a[1..] && b == [b[0]] + b[1..]; }
    }
  }

  /** The elements agree up to where one string ends, or up to where they first differ. */
  lemma {:induction false} LessIff(a: string, b: string)
    ensures Less(a, b) <==> exists k: nat :: DecidedAt(a, b, k)
  {
    if |a| > 0 && |b| > 0 && a[0] == b[0] {
      LessIff(a[1..], b[1..]);
      assert a == [a[0]] + a[1..] && b == [b[0]] + b[1..];
      if k: nat :| DecidedAt(a[1..], b[1..], k) {
        assert a[..k + 1] == [a[0]] + a[1..][..k] && b[..k + 1] == [b[0]] + b[1..][..k];
        assert DecidedAt(a, b, k + 1);
      }
      if k: nat :| DecidedAt(a, b, k) && k > 0 {
        assert a[1..][..k - 1] == a[..k][1..] && b[1..][..k - 1] == b[..k][1..];
        assert DecidedAt(a[1..], b[1..], k - 1);
      }
    } else {
      assert a[..0] == b[..0];
      assert |b| > 0 && (|a| == 0 || a[0] < b[0]) ==> DecidedAt(a, b, 0);
    }
  }

  predicate DecidedAt(a: string, b: string, k: nat) {
    k <= |a| && k < |b| && a[..k] == b[..k] && (k == |a| || a[k] < b[k])
  }

  lemma LessIsStrict()
    ensures StrictOrder(Less)
  {
    forall a: string ensures !Less(a, a) { LessIrreflexive(a); }
    forall a: string, b: string, c: string | Less(a, b) && Less(b, c) ensures Less(a, c) { LessTransitive(a, b, c); }
    forall a: string, b: string, c: string | Less(a, c) ensures Less(a, b) || Less(b, c) {
      LessTotal(a, b);
      if Less(b, a) { LessTransitive(b, a, c); }
    }
  }

  /** A strict order whose incomparability is transitive: what a Go `less` function must be. */
  ghost predicate StrictOrder<T(!new)>(lt: (T, T) -> bool) {
    && (forall a :: !lt(a, a))
    && (forall a, b, c :: lt(a, b) && lt(b, c) ==> lt(a, c))
    && (forall a, b, c :: lt(a, c) ==> lt(a, b) || lt(b, c))
  }

  ghost predicate Sorted<T>(s: seq<T>, lt: (T, T) -> bool) {
    forall i, j :: 0 <= i < j < |s| ==> !lt(s[j], s[i])
  }

  function Insert<T>(x: T, s: seq<T>, lt: (T, T) -> bool): seq<T> {
    if |s| == 0 || !lt(s[0], x) then [x] + s else [s[0]] + Insert(x, s[1..], lt)
  }

  /** The result of sort.SliceStable: equal elements keep their order. */
  function SortBy<T>(s: seq<T>, lt: (T, T) -> bool): seq<T> {
    if |s| == 0 then [] else Insert(s[0], SortBy(s[1..], lt), lt)
  }

  lemma {:induction false} InsertPermutes<T>(x: T, s: seq<T>, lt: (T, T) -> bool)
    ensures multiset(Insert(x, s, lt)) == multiset{x} + multiset(s)
  {
    if |s| == 0 || !lt(s[0], x) {
    } else {
      InsertPermutes(x, s[1..], lt);
      assert s == [s[0]] + s[1..];
    }
  }

  lemma {:induction false} InsertSorted<T(!new)>(x: T, s: seq<T>, lt: (T, T) -> bool)
    requires StrictOrder(lt) && Sorted(s, lt)
    ensures Sorted(Insert(x, s, lt), lt)
  {
    if |s| == 0 {
    } else if !lt(s[0], x) {
      var r := [x] + s;
      forall i, j | 0 <= i < j < |r| ensures !lt(r[j], r[i]) {
        if i == 0 && j > 1 { assert !lt(s[j - 1], s[0]); }
      }
    } else {
      InsertSorted(x, s[1..], lt);
      InsertPermutes(x, s[1..], lt);
      var t := Insert(x, s[1..], lt);
      var r := [s[0]] + t;
      forall i, j | 0 <= i < j < |r| ensures !lt(r[j], r[i]) {
        if i == 0 {
          assert t[j - 1] in multiset(t);
          assert t[j - 1] == x || t[j - 1] in s[1..];
        }
      }
    }
  }

  lemma {:induction false} SortByPermutes<T>(s: seq<T>, lt: (T, T) -> bool)
    ensures multiset(SortBy(s, lt)) == multiset(s)
    ensures |SortBy(s, lt)| == |s|
  {
    if |s| > 0 {
      SortByPermutes(s[1..], lt);
      InsertPermutes(s[0], SortBy(s[1..], lt), lt);
      assert s == [s[0]] + s[1..];
    }
    assert |multiset(SortBy(s, lt))| == |multiset(s)|;
  }

  /** What the order does not tell apart from x. */
  function Alike<T>(s: seq<T>, lt: (T, T) -> bool, x: T): seq<T> {
    if |s| == 0 then []
    else (if lt(s[0], x) || lt(x, s[0]) then [] else [s[0]]) + Alike(s[1..], lt, x)
  }

  lemma {:induction false} InsertStable<T(!new)>(x: T, s: seq<T>, lt: (T, T) -> bool, y: T)
    requires StrictOrder(lt)
    ensures Alike(Insert(x, s, lt), lt, y) == Alike([x], lt, y) + Alike(s, lt, y)
  {
    assert [x][1..] == [];
    if |s| == 0 || !lt(s[0], x) {
      assert ([x] + s)[1..] == s;
    } else {
      InsertStable(x, s[1..], lt, y);
      var t := Insert(x, s[1..], lt);
      assert ([s[0]] + t)[1..] == t;
    }
  }

  /** Sorting is stable: elements the order does not tell apart stay as they came. */
  lemma {:induction false} SortStable<T(!new)>(s: seq<T>, lt: (T, T) -> bool, y: T)
    requires StrictOrder(lt)
    ensures Alike(SortBy(s, lt), lt, y) == Alike(s, lt, y)
  {
    if |s| > 0 {
      SortStable(s[1..], lt, y);
      InsertStable(s[0], SortBy(s[1..], lt), lt, y);
      assert [s[0]][1..] == [];
    }
  }

  lemma {:induction false} SortBySorted<T(!new)>(s: seq<T>, lt: (T, T) -> bool)
    requires StrictOrder(lt)
    ensures Sorted(SortBy(s, lt), lt)
  {
    if |s| > 0 {
      SortBySorted(s[1..], lt);
      InsertSorted(s[0], SortBy(s[1..], lt), lt);
    }
  }

  /** Two sorted arrangements of the same elements agree when the order tells distinct elements apart. */
  lemma {:induction false} SortedUnique<T(!new)>(a: seq<T>, b: seq<T>, lt: (T, T) -> bool)
    requires Sorted(a, lt) && Sorted(b, lt)
    requires multiset(a) == multiset(b)
    requires forall x, y :: x in a && y in a && !lt(x, y) && !lt(y, x) ==> x == y
    ensures a == b
  {
    assert |multiset(a)| == |multiset(b)|;
    if |a| > 0 {
      assert a[0] in multiset(b) && b[0] in multiset(a);
      assert a[0] == b[0];
      assert a == [a[0]] + a[1..] && b == [b[0]] + b[1..];
      assert multiset(a[1..]) == multiset(a) - multiset{a[0]};
      assert multiset(b[1..]) == multiset(b) - multiset{b[0]};
      SortedUnique(a[1..], b[1..], lt);
    }
  }

  /** Sorting does not depend on the order the rows arrive in. */
  lemma SortIgnoresArrival<T(!new)>(a: seq<T>, b: seq<T>, lt: (T, T) -> bool)
    requires StrictOrder(lt)
    requires multiset(a) == multiset(b)
    requires forall x, y :: x in a && y in a && !lt(x, y) && !lt(y, x) ==> x == y
    ensures SortBy(a, lt) == SortBy(b, lt)
  {
    SortByPermutes(a, lt);
    SortByPermutes(b, lt);
    SortBySorted(a, lt);
    SortBySorted(b, lt);
    forall x | x in SortBy(a, lt) ensures x in a { assert x in multiset(SortBy(a, lt)); }
    SortedUnique(SortBy(a, lt), SortBy(b, lt), lt);
  }

  lemma SortByMembers<T>(s: seq<T>, lt: (T, T) -> bool)
    ensures forall x :: x in SortBy(s, lt) <==> x in s
  {
    SortByPermutes(s, lt);
    forall x ensures x in SortBy(s, lt) <==> x in s {
      assert x in SortBy(s, lt) <==> x in multiset(SortBy(s, lt));
      assert x in s <==> x in multiset(s);
    }
  }

  /** Strictly ascending strings, the shape of every canonical list in an Archive object. */
  ghost predicate Ascending(s: seq<string>) {
    forall i, j :: 0 <= i < j < |s| ==> Less(s[i], s[j])
  }

  ghost function Elements<T>(s: seq<T>): set<T> { set x | x in s }

  /** One set of strings has one ascending listing, so equal sets give equal bytes. */
  lemma {:induction false} AscendingUnique(a: seq<string>, b: seq<string>)
    requires Ascending(a) && Ascending(b) && Elements(a) == Elements(b)
    ensures a == b
  {
    if |a| == 0 {
      assert Elements(b) == {};
      NoElements(b);
    } else {
      assert a[0] in Elements(b);
      assert b[0] in Elements(a);
      var i :| 0 <= i < |b| && b[i] == a[0];
      var j :| 0 <= j < |a| && a[j] == b[0];
      if i > 0 && j > 0 { LessTransitive(a[0], a[j], a[0]); LessIrreflexive(a[0]); }
      assert a[0] == b[0];
      forall x ensures x in Elements(a[1..]) <==> x in Elements(b[1..]) {
        AscendingTail(a, x);
        AscendingTail(b, x);
      }
      AscendingUnique(a[1..], b[1..]);
    }
  }

  lemma NoElements<T>(s: seq<T>)
    ensures Elements(s) == {} <==> s == []
  {
    if s != [] { assert s[0] in Elements(s); }
  }

  lemma AscendingTail(a: seq<string>, x: string)
    requires Ascending(a) && |a| > 0
    ensures x in Elements(a[1..]) <==> x in Elements(a) && x != a[0]
  {
    LessIrreflexive(a[0]);
    assert forall k :: 1 <= k < |a| ==> a[k] == a[1..][k - 1];
  }
}
