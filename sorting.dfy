/**
 * Array.prototype.sort with a comparator, as the reports screen uses it.
 * The sort is stable (ECMAScript 2019 requires it); with a consistent
 * comparator every stable sort returns the same order, and the model
 * computes it by insertion.
 */
module Sorting {
  import opened Seqs

  /**
   * Puts `x`, which came before every element of `s`, in front of the
   * first element it does not sort after.
   */
  function Insert<T>(x: T, s: seq<T>, cmp: (T, T) -> int): (r: seq<T>)
    ensures |r| == |s| + 1
    ensures multiset(r) == multiset(s) + multiset{x}
  {
    if s == [] || cmp(x, s[0]) <= 0 then [x] + s
    else
      assert s == [s[0]] + s[1..];
      [s[0]] + Insert(x, s[1..], cmp)
  }

  /** `data.sort(cmp)`: a permutation of `s` (see SortSorted for the order). */
  function Sort<T>(s: seq<T>, cmp: (T, T) -> int): (r: seq<T>)
    ensures |r| == |s|
    ensures multiset(r) == multiset(s)
  {
    if s == [] then []
    else
      assert s == [s[0]] + s[1..];
      Insert(s[0], Sort(s[1..], cmp), cmp)
  }

  /** Every element comes no later than it should by `cmp`. */
  ghost predicate SortedBy<T>(s: seq<T>, cmp: (T, T) -> int) {
    forall i, j :: 0 <= i < j < |s| ==> cmp(s[i], s[j]) <= 0
  }

  /** "a sorts no later than b" (`cmp(a, b) <= 0`) is total and transitive. */
  ghost predicate TotalPreorder<T(!new)>(cmp: (T, T) -> int) {
    && (forall a, b :: cmp(a, b) <= 0 || cmp(b, a) <= 0)
    && (forall a, b, c :: cmp(a, b) <= 0 && cmp(b, c) <= 0 ==> cmp(a, c) <= 0)
  }

  /** An element that sorts no later than the head of a sorted sequence can go in front. */
  lemma PrependSorted<T(!new)>(x: T, s: seq<T>, cmp: (T, T) -> int)
    requires TotalPreorder(cmp)
    requires SortedBy(s, cmp)
    requires s != [] ==> cmp(x, s[0]) <= 0
    ensures SortedBy([x] + s, cmp)
  {
    var r := [x] + s;
    forall i, j | 0 <= i < j < |r| ensures cmp(r[i], r[j]) <= 0 {
      if i == 0 && j > 1 {
        assert r[j] == s[j - 1];
        assert cmp(x, s[0]) <= 0 && cmp(s[0], s[j - 1]) <= 0;
      }
    }
  }

  /** Every element of a sorted sequence sorts no earlier than its head. */
  lemma HeadFirst<T>(s: seq<T>, cmp: (T, T) -> int, y: T)
    requires SortedBy(s, cmp)
    requires s != [] && y in s[1..]
    ensures cmp(s[0], y) <= 0
  {
    var m :| 0 <= m < |s[1..]| && s[1..][m] == y;
    assert s[m + 1] == y;
  }

  lemma {:induction false} InsertSorted<T(!new)>(x: T, s: seq<T>, cmp: (T, T) -> int)
    requires TotalPreorder(cmp)
    requires SortedBy(s, cmp)
    ensures SortedBy(Insert(x, s, cmp), cmp)
  {
    if s == [] || cmp(x, s[0]) <= 0 {
      PrependSorted(x, s, cmp);
    } else {
      assert SortedBy(s[1..], cmp) by {
        forall i, j | 0 <= i < j < |s[1..]| ensures cmp(s[1..][i], s[1..][j]) <= 0 {
          assert s[1..][i] == s[i + 1] && s[1..][j] == s[j + 1];
        }
      }
      var t := Insert(x, s[1..], cmp);
      InsertSorted(x, s[1..], cmp);
      assert cmp(s[0], x) <= 0;
      forall k | 0 <= k < |t| ensures cmp(s[0], t[k]) <= 0 {
        assert t[k] in multiset(t);
        if t[k] != x {
          assert t[k] in multiset(s[1..]);
          HeadFirst(s, cmp, t[k]);
        }
      }
      PrependSorted(s[0], t, cmp);
    }
  }

  /** With a consistent comparator the result is in comparator order. */
  lemma {:induction false} SortSorted<T(!new)>(s: seq<T>, cmp: (T, T) -> int)
    requires TotalPreorder(cmp)
    ensures SortedBy(Sort(s, cmp), cmp)
  {
    if s != [] {
      SortSorted(s[1..], cmp);
      InsertSorted(s[0], Sort(s[1..], cmp), cmp);
    }
  }

  /**
   * Stability: input that is already in order comes back unchanged. In
   * particular a comparator that always returns 0 keeps the input order.
   */
  lemma {:induction false} SortOfSorted<T>(s: seq<T>, cmp: (T, T) -> int)
    requires SortedBy(s, cmp)
    ensures Sort(s, cmp) == s
  {
    if s != [] {
      assert SortedBy(s[1..], cmp) by {
        forall i, j | 0 <= i < j < |s[1..]| ensures cmp(s[1..][i], s[1..][j]) <= 0 {
          assert s[1..][i] == s[i + 1] && s[1..][j] == s[j + 1];
        }
      }
      SortOfSorted(s[1..], cmp);
      assert s == [s[0]] + s[1..];
    }
  }

  /** Dropping the head of a sorted sequence leaves it sorted. */
  lemma TailSorted<T>(s: seq<T>, cmp: (T, T) -> int)
    requires s != [] && SortedBy(s, cmp)
    ensures SortedBy(s[1..], cmp)
  {
    forall i, j | 0 <= i < j < |s[1..]| ensures cmp(s[1..][i], s[1..][j]) <= 0 {
      assert s[1..][i] == s[i + 1] && s[1..][j] == s[j + 1];
    }
  }

  /** No two different elements of `s` are ordered both ways by `cmp`. */
  ghost predicate Antisymmetric<T>(s: seq<T>, cmp: (T, T) -> int) {
    forall x, y :: x in s && y in s && cmp(x, y) <= 0 && cmp(y, x) <= 0 ==> x == y
  }

  /** Two sorted arrangements of one collection without ties start alike. */
  lemma SameHead<T>(a: seq<T>, b: seq<T>, cmp: (T, T) -> int)
    requires SortedBy(a, cmp) && SortedBy(b, cmp)
    requires multiset(a) == multiset(b)
    requires Antisymmetric(a, cmp)
    requires a != []
    ensures b != [] && a[0] == b[0]
  {
    assert a[0] in multiset(b);
    assert b[0] in multiset(a);
    if a[0] != b[0] {
      assert false;
    }
  }

  /** Removing a common head from one collection leaves one collection. */
  lemma SameTailContents<T>(a: seq<T>, b: seq<T>)
    requires a != [] && b != [] && a[0] == b[0]
    requires multiset(a) == multiset(b)
    ensures multiset(a[1..]) == multiset(b[1..])
  {
    assert a == [a[0]] + a[1..];
    assert b == [b[0]] + b[1..];
    assert multiset(a[1..]) == multiset(a) - multiset{a[0]};
    assert multiset(b[1..]) == multiset(b) - multiset{b[0]};
  }

  lemma AntisymmetricTail<T>(s: seq<T>, cmp: (T, T) -> int)
    requires s != [] && Antisymmetric(s, cmp)
    ensures Antisymmetric(s[1..], cmp)
  {
    forall x | x in s[1..] ensures x in s {
    }
  }

  /**
   * When the comparator leaves no ties between different elements, there
   * is only one sorted arrangement of a collection.
   */
  lemma {:induction false} SortedUnique<T>(a: seq<T>, b: seq<T>, cmp: (T, T) -> int)
    requires SortedBy(a, cmp) && SortedBy(b, cmp)
    requires multiset(a) == multiset(b)
    requires Antisymmetric(a, cmp)
    ensures a == b
    decreases |a|
  {
    if a == [] {
      assert |multiset(b)| == 0;
    } else {
      SameHead(a, b, cmp);
      SameTailContents(a, b);
      TailSorted(a, cmp);
      TailSorted(b, cmp);
      AntisymmetricTail(a, cmp);
      SortedUnique(a[1..], b[1..], cmp);
      assert a == [a[0]] + a[1..];
      assert b == [b[0]] + b[1..];
    }
  }

  /** Read backwards, a sequence sorted by `cmp` is sorted by the opposite comparator. */
  lemma ReverseSorted<T>(s: seq<T>, cmp: (T, T) -> int, opposite: (T, T) -> int)
    requires SortedBy(s, cmp)
    requires forall a, b :: opposite(a, b) <= 0 <==> cmp(b, a) <= 0
    ensures SortedBy(Reverse(s), opposite)
  {
    var r := Reverse(s);
    forall i, j | 0 <= i < j < |r| ensures opposite(r[i], r[j]) <= 0 {
      assert cmp(s[|s| - 1 - j], s[|s| - 1 - i]) <= 0;
    }
  }
}
