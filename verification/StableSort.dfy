/** Stable insertion sort by any order, as `sorted` orders a list by a key. */
module StableSort {
  import opened Prelude

  /** Insert behind everything that does not have to come later. */
  function Insert<T>(before: (T, T) -> bool, sorted: seq<T>, x: T): seq<T> {
    if sorted == [] then [x]
    else if before(sorted[|sorted| - 1], x) then sorted + [x]
    else Insert(before, sorted[..|sorted| - 1], x) + [sorted[|sorted| - 1]]
  }

  function Sort<T>(before: (T, T) -> bool, s: seq<T>): seq<T> {
    if s == [] then [] else Insert(before, Sort(before, s[..|s| - 1]), s[|s| - 1])
  }

  predicate Sorted<T>(before: (T, T) -> bool, s: seq<T>) {
    forall i, j :: 0 <= i < j < |s| ==> before(s[i], s[j])
  }

  /** Any two elements compare, and comparison is transitive. */
  ghost predicate Preorder<T(!new)>(before: (T, T) -> bool) {
    && (forall a, b :: before(a, b) || before(b, a))
    && (forall a, b, c :: before(a, b) && before(b, c) ==> before(a, c))
  }

  predicate Distinct<T(==)>(s: seq<T>) { forall i, j :: 0 <= i < j < |s| ==> s[i] != s[j] }

  // ---------------------------------------------------------------- a permutation

  lemma {:induction false} InsertBag<T>(before: (T, T) -> bool, sorted: seq<T>, x: T)
    ensures multiset(Insert(before, sorted, x)) == multiset(sorted) + multiset{x}
  {
    if sorted != [] {
      SplitLast(sorted);
      if !before(sorted[|sorted| - 1], x) { InsertBag(before, sorted[..|sorted| - 1], x); }
    }
  }

  /** Sorting keeps the elements. */
  lemma {:induction false} SortBag<T>(before: (T, T) -> bool, s: seq<T>)
    ensures multiset(Sort(before, s)) == multiset(s) && |Sort(before, s)| == |s|
  {
    if s != [] {
      SortBag(before, s[..|s| - 1]);
      InsertBag(before, Sort(before, s[..|s| - 1]), s[|s| - 1]);
      SplitLast(s);
    }
    SameLength(Sort(before, s), s);
  }

  lemma SameLength<T>(a: seq<T>, b: seq<T>)
    requires multiset(a) == multiset(b)
    ensures |a| == |b|
  {
    assert |multiset(a)| == |a| && |multiset(b)| == |b|;
  }

  lemma SameElements<T>(a: seq<T>, b: seq<T>, x: T)
    requires multiset(a) == multiset(b)
    ensures x in a <==> x in b
  {
    assert x in a <==> x in multiset(a);
    assert x in b <==> x in multiset(b);
  }

  // ---------------------------------------------------------------- in order

  lemma {:induction false} InsertBelow<T>(before: (T, T) -> bool, sorted: seq<T>, x: T, top: T)
    requires before(x, top) && forall i :: 0 <= i < |sorted| ==> before(sorted[i], top)
    ensures forall i :: 0 <= i < |Insert(before, sorted, x)| ==> before(Insert(before, sorted, x)[i], top)
  {
    if sorted != [] && !before(sorted[|sorted| - 1], x) { InsertBelow(before, sorted[..|sorted| - 1], x, top); }
  }

  lemma {:induction false} InsertSorted<T(!new)>(before: (T, T) -> bool, sorted: seq<T>, x: T)
    requires Preorder(before) && Sorted(before, sorted)
    ensures Sorted(before, Insert(before, sorted, x))
  {
    if sorted != [] {
      var front, last := sorted[..|sorted| - 1], sorted[|sorted| - 1];
      if before(last, x) {
        forall i | 0 <= i < |sorted| ensures before(sorted[i], x) {
          if i < |front| { assert before(sorted[i], last); }
        }
      } else {
        InsertSorted(before, front, x);
        InsertBelow(before, front, x, last);
      }
    }
  }

  /** Sorting puts the elements in order. */
  lemma {:induction false} SortSorted<T(!new)>(before: (T, T) -> bool, s: seq<T>)
    requires Preorder(before)
    ensures Sorted(before, Sort(before, s))
  {
    if s != [] {
      SortSorted(before, s[..|s| - 1]);
      InsertSorted(before, Sort(before, s[..|s| - 1]), s[|s| - 1]);
    }
  }

  // ---------------------------------------------------------------- the only order

  function Without<T>(s: seq<T>, j: nat): seq<T>
    requires j < |s|
  {
    s[..j] + s[j + 1..]
  }

  lemma WithoutBag<T>(s: seq<T>, j: nat)
    requires j < |s|
    ensures multiset(s) == multiset(Without(s, j)) + multiset{s[j]}
  {
    assert s == s[..j] + [s[j]] + s[j + 1..];
  }

  lemma Cancel<T>(a: multiset<T>, b: multiset<T>, x: T)
    requires a + multiset{x} == b + multiset{x}
    ensures a == b
  {
    assert a == (a + multiset{x}) - multiset{x};
    assert b == (b + multiset{x}) - multiset{x};
  }

  lemma FirstComesFirst<T>(before: (T, T) -> bool, a: seq<T>, b: seq<T>)
    requires Sorted(before, a) && multiset(a) == multiset(b) && a != [] && b != []
    ensures before(a[0], b[0]) || a[0] == b[0]
  {
    SameElements(a, b, b[0]);
    var j :| 0 <= j < |a| && a[j] == b[0];
  }

  lemma TailBag<T>(s: seq<T>)
    requires s != []
    ensures s == [s[0]] + s[1..] && multiset(s) == multiset(s[1..]) + multiset{s[0]}
  {
    assert s == [s[0]] + s[1..];
  }

  /** Elements that no two of which compare both ways can be put in order in one way only. */
  lemma {:induction false} SortedUnique<T>(before: (T, T) -> bool, a: seq<T>, b: seq<T>)
    requires Sorted(before, a) && Sorted(before, b) && multiset(a) == multiset(b)
    requires forall x, y :: x in a && y in a && before(x, y) && before(y, x) ==> x == y
    ensures a == b
  {
    SameLength(a, b);
    if a != [] {
      FirstComesFirst(before, a, b);
      FirstComesFirst(before, b, a);
      SameElements(a, b, b[0]);
      TailBag(a);
      TailBag(b);
      Cancel(multiset(a[1..]), multiset(b[1..]), a[0]);
      SortedUnique(before, a[1..], b[1..]);
    }
  }

  // ---------------------------------------------------------------- distinct elements

  lemma CountAtMostOnce<T>(s: seq<T>, x: T)
    requires Distinct(s)
    ensures multiset(s)[x] <= 1
  {
    if x in s {
      var j :| 0 <= j < |s| && s[j] == x;
      WithoutBag(s, j);
      assert x !in Without(s, j);
    }
  }

  /** Permuting distinct elements keeps them distinct. */
  lemma PermutedDistinct<T>(a: seq<T>, b: seq<T>)
    requires multiset(a) == multiset(b) && Distinct(a)
    ensures Distinct(b)
  {
    forall i, j | 0 <= i < j < |b| ensures b[i] != b[j] {
      CountAtMostOnce(a, b[i]);
      WithoutBag(b, i);
      assert Without(b, i)[j - 1] == b[j];
    }
  }
}
