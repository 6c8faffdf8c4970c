/**
 * The array operations the screens rely on: `filter`, `includes` on
 * strings, and removal by id.
 */
module Seqs {

  /** `a` is `b` with some elements left out, the rest in their order. */
  ghost predicate IsSubsequence<T>(a: seq<T>, b: seq<T>)
    decreases |b|
  {
    a == [] || (b != [] && ((a[0] == b[0] && IsSubsequence(a[1..], b[1..])) || IsSubsequence(a, b[1..])))
  }

  ghost predicate NoDuplicates<T>(s: seq<T>) {
    forall i, j :: 0 <= i < j < |s| ==> s[i] != s[j]
  }

  /** Array.prototype.filter: the elements of `s` that pass `p`, in order. */
  function Filter<T(!new)>(s: seq<T>, p: T -> bool): (r: seq<T>)
    ensures |r| <= |s|
    ensures forall x :: x in r <==> x in s && p(x)
  {
    if s == [] then []
    else if p(s[0]) then [s[0]] + Filter(s[1..], p)
    else Filter(s[1..], p)
  }

  /** Filter keeps every copy of a passing element and no copy of a failing one. */
  lemma {:induction false} FilterCount<T(!new)>(s: seq<T>, p: T -> bool, x: T)
    ensures multiset(Filter(s, p))[x] == if p(x) then multiset(s)[x] else 0
  {
    if s != [] {
      FilterCount(s[1..], p, x);
      assert s == [s[0]] + s[1..];
    }
  }

  /** Filter keeps the relative order of what it keeps. */
  lemma {:induction false} FilterSubsequence<T(!new)>(s: seq<T>, p: T -> bool)
    ensures IsSubsequence(Filter(s, p), s)
  {
    if s != [] {
      FilterSubsequence(s[1..], p);
      if p(s[0]) {
        assert Filter(s, p)[1..] == Filter(s[1..], p);
      }
    }
  }

  /** When every element passes, Filter returns its input. */
  lemma {:induction false} FilterAllPass<T(!new)>(s: seq<T>, p: T -> bool)
    requires forall x :: x in s ==> p(x)
    ensures Filter(s, p) == s
  {
    if s != [] {
      FilterAllPass(s[1..], p);
      assert s == [s[0]] + s[1..];
    }
  }

  /** Filter of a list without duplicates has none. */
  lemma {:induction false} FilterNoDuplicates<T(!new)>(s: seq<T>, p: T -> bool)
    requires NoDuplicates(s)
    ensures NoDuplicates(Filter(s, p))
  {
    if s != [] {
      FilterNoDuplicates(s[1..], p);
      assert s[0] !in s[1..];
    }
  }

  /** A failing last element leaves no trace in the result. */
  lemma {:induction false} FilterDropsFailingLast<T(!new)>(s: seq<T>, x: T, p: T -> bool)
    requires !p(x)
    ensures Filter(s + [x], p) == Filter(s, p)
  {
    if s != [] {
      assert (s + [x])[1..] == s[1..] + [x];
      FilterDropsFailingLast(s[1..], x, p);
    }
  }

  /** `text.includes(query)`: `query` occurs in `text` at some position. */
  predicate Contains(text: string, query: string)
    ensures Contains(text, query) ==> |query| <= |text|
    ensures query == [] ==> Contains(text, query)
    ensures query == text ==> Contains(text, query)
    decreases |text|
  {
    query <= text || (text != [] && Contains(text[1..], query))
  }

  /** `query` is the slice of `text` that starts at index `i`. */
  ghost predicate OccursAt(text: string, query: string, i: nat) {
    i + |query| <= |text| && text[i..i + |query|] == query
  }

  lemma {:induction false} ContainsAt(text: string, query: string, i: nat)
    requires OccursAt(text, query, i)
    ensures Contains(text, query)
  {
    if i > 0 {
      assert text[1..][i - 1..i - 1 + |query|] == text[i..i + |query|];
      ContainsAt(text[1..], query, i - 1);
    } else {
      assert query == text[..|query|];
    }
  }

  /** `includes` finds a match exactly when `query` is a slice of `text`. */
  lemma {:induction false} ContainsIsSlice(text: string, query: string)
    ensures Contains(text, query) <==> exists i: nat :: OccursAt(text, query, i)
  {
    if Contains(text, query) {
      if query <= text {
        assert OccursAt(text, query, 0);
      } else {
        ContainsIsSlice(text[1..], query);
        var i: nat :| OccursAt(text[1..], query, i);
        assert text[i + 1..i + 1 + |query|] == text[1..][i..i + |query|];
        assert OccursAt(text, query, i + 1);
      }
    }
    if exists i: nat :: OccursAt(text, query, i) {
      var i: nat :| OccursAt(text, query, i);
      ContainsAt(text, query, i);
    }
  }

  function IdDiffers<T(!new)>(id: string, idOf: T -> string): T -> bool {
    x => idOf(x) != id
  }

  /** `items.filter(item => item.id !== id)`: the delete of every screen. */
  function WithoutId<T(!new)>(s: seq<T>, id: string, idOf: T -> string): (r: seq<T>)
    ensures forall x :: x in r <==> x in s && idOf(x) != id
  {
    Filter(s, IdDiffers(id, idOf))
  }

  /** Exactly the items with that id go; every other item stays, each copy of it. */
  lemma WithoutIdContents<T(!new)>(s: seq<T>, id: string, idOf: T -> string)
    ensures forall x :: multiset(WithoutId(s, id, idOf))[x] == if idOf(x) == id then 0 else multiset(s)[x]
  {
    forall x ensures multiset(WithoutId(s, id, idOf))[x] == if idOf(x) == id then 0 else multiset(s)[x] {
      FilterCount(s, IdDiffers(id, idOf), x);
    }
  }

  /** The items that stay keep their relative order. */
  lemma WithoutIdKeepsOrder<T(!new)>(s: seq<T>, id: string, idOf: T -> string)
    ensures IsSubsequence(WithoutId(s, id, idOf), s)
  {
    FilterSubsequence(s, IdDiffers(id, idOf));
  }

  /** Deleting an id that no item has leaves the list as it was. */
  lemma WithoutAbsentId<T(!new)>(s: seq<T>, id: string, idOf: T -> string)
    requires forall x :: x in s ==> idOf(x) != id
    ensures WithoutId(s, id, idOf) == s
  {
    FilterAllPass(s, IdDiffers(id, idOf));
  }

  /** Deleting the same id twice is deleting it once. */
  lemma WithoutIdIdempotent<T(!new)>(s: seq<T>, id: string, idOf: T -> string)
    ensures WithoutId(WithoutId(s, id, idOf), id, idOf) == WithoutId(s, id, idOf)
  {
    WithoutAbsentId(WithoutId(s, id, idOf), id, idOf);
  }

  function Reverse<T>(s: seq<T>): (r: seq<T>)
    ensures |r| == |s|
    ensures forall i :: 0 <= i < |s| ==> r[i] == s[|s| - 1 - i]
  {
    if s == [] then [] else Reverse(s[1..]) + [s[0]]
  }

  /** Reversing keeps every element, each as many times. */
  lemma {:induction false} ReverseMultiset<T>(s: seq<T>)
    ensures multiset(Reverse(s)) == multiset(s)
  {
    if s != [] {
      ReverseMultiset(s[1..]);
      assert s == [s[0]] + s[1..];
    }
  }
}
