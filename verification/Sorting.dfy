/** Stable sorting with respect to a strict order, and what it guarantees. */
module Sorting {

  /** Puts x in front of the first entry that is not smaller, so equal entries keep their order. */
  function Insert<T>(less: (T, T) -> bool, x: T, s: seq<T>): seq<T> {
    if s == [] || !less(s[0], x) then [x] + s else [s[0]] + Insert(less, x, s[1..])
  }

  function Sort<T>(less: (T, T) -> bool, s: seq<T>): seq<T> {
    if s == [] then [] else Insert(less, s[0], Sort(less, s[1..]))
  }

  /** A strict order whose incomparable entries are interchangeable (ties). */
  ghost predicate StrictWeakOrder<T(!new)>(less: (T, T) -> bool) {
    && (forall x, y :: less(x, y) ==> !less(y, x))
    && (forall x, y, z :: less(x, y) && less(y, z) ==> less(x, z))
    && (forall x, y, z :: !less(x, y) && !less(y, z) ==> !less(x, z))
  }

  ghost predicate Ordered<T>(less: (T, T) -> bool, s: seq<T>) {
    forall i, j :: 0 <= i < j < |s| ==> !less(s[j], s[i])
  }

  lemma {:induction false} InsertPermutes<T>(less: (T, T) -> bool, x: T, s: seq<T>)
    ensures multiset(Insert(less, x, s)) == multiset{x} + multiset(s)
  {
    if s != [] && less(s[0], x) {
      InsertPermutes(less, x, s[1..]);
      assert s == [s[0]] + s[1..];
    }
  }

  /** Sorting only rearranges. */
  lemma {:induction false} SortPermutes<T>(less: (T, T) -> bool, s: seq<T>)
    ensures multiset(Sort(less, s)) == multiset(s)
  {
    if s != [] {
      SortPermutes(less, s[1..]);
      InsertPermutes(less, s[0], Sort(less, s[1..]));
      assert s == [s[0]] + s[1..];
    }
  }

  lemma {:induction false} InsertOrders<T(!new)>(less: (T, T) -> bool, x: T, s: seq<T>)
    requires StrictWeakOrder(less) && Ordered(less, s)
    ensures Ordered(less, Insert(less, x, s))
  {
    if s != [] {
      var r := Insert(less, x, s);
      if less(s[0], x) {
        InsertOrders(less, x, s[1..]);
        InsertPermutes(less, x, s[1..]);
        forall j | 1 <= j < |r|
          ensures !less(r[j], r[0])
        {
          assert r[j] in multiset(r[1..]);
          assert r[j] == x || r[j] in s[1..];
        }
      } else {
        assert forall j :: 1 <= j < |r| ==> r[j] == s[j - 1];
      }
    }
  }

  /** Sorting orders. */
  lemma {:induction false} SortOrders<T(!new)>(less: (T, T) -> bool, s: seq<T>)
    requires StrictWeakOrder(less)
    ensures Ordered(less, Sort(less, s))
  {
    if s != [] {
      SortOrders(less, s[1..]);
      InsertOrders(less, s[0], Sort(less, s[1..]));
    }
  }

  /** An already ordered list is left as it is. */
  lemma {:induction false} SortOfOrdered<T>(less: (T, T) -> bool, s: seq<T>)
    requires Ordered(less, s)
    ensures Sort(less, s) == s
  {
    if s != [] {
      SortOfOrdered(less, s[1..]);
    }
  }

  lemma SortMembers<T>(less: (T, T) -> bool, s: seq<T>)
    ensures |Sort(less, s)| == |s|
    ensures forall x :: x in Sort(less, s) <==> x in s
  {
    SortPermutes(less, s);
    assert |multiset(Sort(less, s))| == |multiset(s)|;
    forall x
      ensures x in Sort(less, s) <==> x in s
    {
      assert x in Sort(less, s) <==> x in multiset(Sort(less, s));
    }
  }

  lemma SameHead<T(!new)>(less: (T, T) -> bool, a: seq<T>, b: seq<T>)
    requires Ordered(less, a) && Ordered(less, b) && StrictWeakOrder(less)
    requires a != [] && b != [] && multiset(a) == multiset(b)
    ensures !less(a[0], b[0]) && !less(b[0], a[0]) && b[0] in a
  {
    assert a[0] in multiset(b) && b[0] in multiset(a);
    var i :| 0 <= i < |b| && b[i] == a[0];
    var j :| 0 <= j < |a| && a[j] == b[0];
  }

  lemma SameTails<T>(a: seq<T>, b: seq<T>)
    requires a != [] && b != [] && a[0] == b[0] && multiset(a) == multiset(b)
    ensures multiset(a[1..]) == multiset(b[1..])
  {
    assert a == [a[0]] + a[1..] && b == [b[0]] + b[1..];
    assert multiset(a[1..]) == multiset(a) - multiset{a[0]};
    assert multiset(b[1..]) == multiset(b) - multiset{b[0]};
  }

  /** With no ties, a multiset has one ordering: the input order does not matter. */
  lemma {:induction false} OrderedUnique<T(!new)>(less: (T, T) -> bool, a: seq<T>, b: seq<T>)
    requires StrictWeakOrder(less) && Ordered(less, a) && Ordered(less, b)
    requires forall x, y :: x in a && y in a && !less(x, y) && !less(y, x) ==> x == y
    requires multiset(a) == multiset(b)
    ensures a == b
  {
    assert |multiset(a)| == |a| && |multiset(b)| == |b|;
    if a != [] {
      SameHead(less, a, b);
      SameTails(a, b);
      OrderedUnique(less, a[1..], b[1..]);
    }
  }
}
