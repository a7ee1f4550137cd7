/** The library sorts the services call (`Array.prototype.sort` with a comparator,
    and Prisma's `orderBy`), modelled as a stable insertion sort by a relation
    `le`: `le(a, b)` holds when `a` may stand before `b`. */
module Sorting {
  import opened Common


  ghost predicate TotalPreorder<T(!new)>(le: (T, T) -> bool)
  {
    && (forall a, b :: le(a, b) || le(b, a))
    && (forall a, b, c :: le(a, b) && le(b, c) ==> le(a, c))
  }

  ghost predicate SortedBy<T>(s: seq<T>, le: (T, T) -> bool)
  {
    forall i, j :: 0 <= i < j < |s| ==> le(s[i], s[j])
  }

  /** Inserts `x` after every leading element that may stand before it, so that
      equal elements keep their input order. */
  function Insert<T>(x: T, s: seq<T>, le: (T, T) -> bool): (r: seq<T>)
    ensures multiset(r) == multiset(s) + multiset{x}
    ensures |r| == |s| + 1
  {
    if |s| == 0 then [x]
    else if le(s[0], x) then
      assert s == [s[0]] + s[1..];
      [s[0]] + Insert(x, s[1..], le)
    else [x] + s
  }

  function SortBy<T>(s: seq<T>, le: (T, T) -> bool): (r: seq<T>)
    ensures multiset(r) == multiset(s)
    ensures |r| == |s|
  {
    if |s| == 0 then []
    else
      var rest := SortBy(s[..|s| - 1], le);
      assert s == s[..|s| - 1] + [s[|s| - 1]];
      Insert(s[|s| - 1], rest, le)
  }

  lemma {:induction false} InsertSorted<T(!new)>(x: T, s: seq<T>, le: (T, T) -> bool)
    requires TotalPreorder(le)
    requires SortedBy(s, le)
    ensures SortedBy(Insert(x, s, le), le)
  {
    if |s| > 0 && le(s[0], x) {
      InsertSorted(x, s[1..], le);
      var r := Insert(x, s[1..], le);
      forall j | 0 <= j < |r| ensures le(s[0], r[j]) {
        assert r[j] in multiset(r);
        assert r[j] in multiset(s[1..]) + multiset{x};
        if r[j] != x {
          assert r[j] in multiset(s[1..]);
          assert r[j] in s[1..];
        }
      }
    }
  }

  /** What the sort promises: the result is ordered by `le`. */
  lemma {:induction false} SortBySorted<T(!new)>(s: seq<T>, le: (T, T) -> bool)
    requires TotalPreorder(le)
    ensures SortedBy(SortBy(s, le), le)
  {
    if |s| > 0 {
      SortBySorted(s[..|s| - 1], le);
      InsertSorted(s[|s| - 1], SortBy(s[..|s| - 1], le), le);
    }
  }

  /** Sorting keeps exactly the elements it was given. */
  lemma SortBySameElements<T>(s: seq<T>, le: (T, T) -> bool)
    ensures forall x :: x in SortBy(s, le) <==> x in s
  {
    var r := SortBy(s, le);
    forall x ensures x in r <==> x in s {
      assert x in r <==> x in multiset(r);
      assert x in s <==> x in multiset(s);
    }
  }

  /** The first element of `s` sorted by `le` (Prisma `findFirst` with an
      `orderBy`): an element no other element may stand before. */
  function FirstBy<T(!new)>(s: seq<T>, le: (T, T) -> bool): (r: Option<T>)
    requires TotalPreorder(le)
    ensures r.None? <==> |s| == 0
    ensures r.Some? ==> r.value in s && forall x :: x in s ==> le(r.value, x)
  {
    var sorted := SortBy(s, le);
    SortBySorted(s, le);
    if |sorted| == 0 then None
    else
      assert sorted[0] in multiset(s);
      assert forall x :: x in s ==> x in sorted by {
        forall x | x in s ensures x in sorted {
          assert x in multiset(s);
        }
      }
      assert forall j :: 0 < j < |sorted| ==> le(sorted[0], sorted[j]);
      Some(sorted[0])
  }

  /** Two ascending integer sequences with the same elements are equal. */
  lemma {:induction false} SortedIntsUnique(a: seq<int>, b: seq<int>)
    requires forall i, j :: 0 <= i < j < |a| ==> a[i] <= a[j]
    requires forall i, j :: 0 <= i < j < |b| ==> b[i] <= b[j]
    requires multiset(a) == multiset(b)
    ensures a == b
  {
    if |a| > 0 && |b| > 0 {
      SameHeadsAndTails(a, b);
      SortedIntsUnique(a[1..], b[1..]);
      assert a == [a[0]] + a[1..];
      assert b == [b[0]] + b[1..];
    } else {
      assert |multiset(a)| == |multiset(b)|;
    }
  }

  /** Two ascending sequences with the same elements share their head, and
      their tails are again ascending with the same elements. */
  lemma SameHeadsAndTails(a: seq<int>, b: seq<int>)
    requires |a| > 0 && |b| > 0
    requires forall i, j :: 0 <= i < j < |a| ==> a[i] <= a[j]
    requires forall i, j :: 0 <= i < j < |b| ==> b[i] <= b[j]
    requires multiset(a) == multiset(b)
    ensures a[0] == b[0]
    ensures multiset(a[1..]) == multiset(b[1..])
    ensures forall i, j :: 0 <= i < j < |a[1..]| ==> a[1..][i] <= a[1..][j]
    ensures forall i, j :: 0 <= i < j < |b[1..]| ==> b[1..][i] <= b[1..][j]
  {
    assert b[0] in multiset(b) && a[0] in multiset(a);
    HeadIsLeast(a, b[0]);
    HeadIsLeast(b, a[0]);
    TailMultiset(a);
    TailMultiset(b);
    SortedTail(a);
    SortedTail(b);
  }

  /** The head of an ascending sequence is at most any of its elements. */
  lemma HeadIsLeast(a: seq<int>, x: int)
    requires forall i, j :: 0 <= i < j < |a| ==> a[i] <= a[j]
    requires x in multiset(a)
    ensures a[0] <= x
  {
    assert x in a;
    var k :| 0 <= k < |a| && a[k] == x;
    if k > 0 {
      assert a[0] <= a[k];
    }
  }

  lemma SortedTail(a: seq<int>)
    requires |a| > 0
    requires forall i, j :: 0 <= i < j < |a| ==> a[i] <= a[j]
    ensures forall i, j :: 0 <= i < j < |a[1..]| ==> a[1..][i] <= a[1..][j]
  {
    forall i, j | 0 <= i < j < |a[1..]| ensures a[1..][i] <= a[1..][j] {
      assert a[1..][i] == a[i + 1] && a[1..][j] == a[j + 1];
    }
  }

  lemma TailMultiset(a: seq<int>)
    requires |a| > 0
    ensures multiset(a[1..]) == multiset(a) - multiset{a[0]}
  {
    assert a == [a[0]] + a[1..];
  }

  function IntLe(a: int, b: int): bool { a <= b }

  lemma IntLeTotalPreorder()
    ensures TotalPreorder(IntLe)
  {
  }

  /** Ascending integer sort (Prisma `orderBy: { level: 'asc' }` on a column). */
  function SortInts(s: seq<int>): (r: seq<int>)
    ensures multiset(r) == multiset(s)
    ensures forall i, j :: 0 <= i < j < |r| ==> r[i] <= r[j]
  {
    IntLeTotalPreorder();
    SortBySorted(s, IntLe);
    SortBy(s, IntLe)
  }
}
