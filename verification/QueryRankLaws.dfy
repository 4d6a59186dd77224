/** The bounded heap refines sorting everything and taking the first rows. */
module QueryRankLaws {
  import opened Prelude
  import opened QueryRows
  import opened QueryHeap
  import opened QueryRank
  import opened StableSort

  // ---------------------------------------------------------------- keys of a permutation

  function Keys(s: seq<Entry>): seq<Key> { seq(|s|, i requires 0 <= i < |s| => s[i].key) }

  lemma {:induction false} PermutedKeys(a: seq<Entry>, b: seq<Entry>)
    requires multiset(a) == multiset(b)
    ensures multiset(Keys(a)) == multiset(Keys(b))
    decreases |a|
  {
    SameLength(a, b);
    if a != [] {
      SameElements(a, b, a[0]);
      var j :| 0 <= j < |b| && b[j] == a[0];
      WithoutBag(a, 0);
      WithoutBag(b, j);
      Cancel(multiset(Without(a, 0)), multiset(Without(b, j)), a[0]);
      PermutedKeys(Without(a, 0), Without(b, j));
      KeysWithout(a, 0);
      KeysWithout(b, j);
    }
  }

  lemma KeysWithout(s: seq<Entry>, j: nat)
    requires j < |s|
    ensures multiset(Keys(s)) == multiset(Keys(Without(s, j))) + multiset{s[j].key}
  {
    WithoutBag(Keys(s), j);
    assert Keys(Without(s, j)) == Without(Keys(s), j);
  }

  lemma OrdersAreOrders()
    ensures Preorder(ByKey) && Preorder(ByKeyThenOrder)
  {
    forall a: Entry, b: Entry ensures KeyLe(a.key, b.key) || KeyLe(b.key, a.key) { KeyTotal(a.key, b.key); }
    forall a: Entry, b: Entry, c: Entry | KeyLe(a.key, b.key) && KeyLe(b.key, c.key) ensures KeyLe(a.key, c.key) {
      KeyTransitive(a.key, b.key, c.key);
    }
    forall a: Entry, b: Entry, c: Entry | ByKeyThenOrder(a, b) && ByKeyThenOrder(b, c) ensures ByKeyThenOrder(a, c) {
      KeyThenOrderTransitive(a, b, c);
    }
  }

  lemma KeyThenOrderTransitive(a: Entry, b: Entry, c: Entry)
    requires ByKeyThenOrder(a, b) && ByKeyThenOrder(b, c)
    ensures ByKeyThenOrder(a, c)
  {
    if a.key != b.key && b.key != c.key {
      KeyTransitive(a.key, b.key, c.key);
      if a.key == c.key { KeyAntisymmetric(a.key, b.key); }
    }
  }

  /** Arrangements of the same entries that are in key order have the same keys. */
  lemma SortedAlike(a: seq<Entry>, b: seq<Entry>)
    requires Sorted(ByKey, a) && Sorted(ByKey, b) && multiset(a) == multiset(b)
    ensures |a| == |b| && forall i :: 0 <= i < |a| ==> a[i].key == b[i].key
  {
    SameLength(a, b);
    PermutedKeys(a, b);
    forall x, y | KeyLe(x, y) && KeyLe(y, x) ensures x == y { KeyAntisymmetric(x, y); }
    SortedUnique(KeyLe, Keys(a), Keys(b));
    forall i | 0 <= i < |a| ensures a[i].key == b[i].key { assert Keys(a)[i] == Keys(b)[i]; }
  }

  // ---------------------------------------------------------------- what the heap holds

  /** What the bounded heap holds after a prefix: some smallest entries, everything else having been dropped. */
  predicate Holds(s: RankState, dropped: seq<Entry>, entries: seq<Entry>, limit: int) {
    && IsHeap(s.heap) && |s.heap| <= limit
    && multiset(s.heap) + multiset(dropped) == multiset(entries)
    && (dropped != [] ==> |s.heap| == limit)
    && (forall d, h :: d in dropped && h in s.heap ==> KeyLe(h.key, d.key))
  }

  /** There is room: the entry joins the heap. */
  lemma RoomHolds(s: RankState, dropped: seq<Entry>, entries: seq<Entry>, e: Entry, limit: int, bytes: int)
    requires Holds(s, dropped, entries, limit) && |s.heap| < limit
    ensures Holds(RankState(Push(s.heap, e), bytes), dropped, entries + [e], limit)
  {
    PushHeap(s.heap, e);
    assert multiset(Push(s.heap, e)) == multiset(s.heap + [e]);
    SameLength(Push(s.heap, e), s.heap + [e]);
  }

  lemma RootBounds(s: RankState, dropped: seq<Entry>, entries: seq<Entry>, limit: int)
    requires limit >= 1 && Holds(s, dropped, entries, limit) && |s.heap| == limit
    ensures forall h :: h in s.heap ==> KeyLe(h.key, s.heap[0].key)
    ensures forall d :: d in dropped ==> KeyLe(s.heap[0].key, d.key)
  {
    forall h | h in s.heap ensures KeyLe(h.key, s.heap[0].key) {
      var i :| 0 <= i < |s.heap| && s.heap[i] == h;
      RootLargest(s.heap, i);
    }
    assert s.heap[0] in s.heap;
  }

  lemma ReplacedHeap(h: seq<Entry>, e: Entry)
    requires IsHeap(h) && h != []
    ensures IsHeap(Replace(h, e)) && |Replace(h, e)| == |h|
    ensures multiset(Replace(h, e)) + multiset{h[0]} == multiset(h) + multiset{e}
    ensures forall x :: x in Replace(h, e) ==> x == e || x in h
  {
    ReplaceHeap(h, e);
    var grown := [e] + h[1..];
    SameLength(Replace(h, e), grown);
    TailBag(h);
    TailBag(grown);
    assert grown[1..] == h[1..];
    forall x | x in Replace(h, e) ensures x == e || x in h { SameElements(Replace(h, e), grown, x); }
  }

  lemma Exchange<T>(kept: multiset<T>, held: multiset<T>, rest: multiset<T>, x: T, y: T)
    requires kept + multiset{x} == held + multiset{y}
    ensures kept + (rest + multiset{x}) == (held + rest) + multiset{y}
  {
    assert kept + (rest + multiset{x}) == (kept + multiset{x}) + rest;
    assert (held + rest) + multiset{y} == (held + multiset{y}) + rest;
  }

  /** The entry is smaller than the root, which is dropped for it. */
  lemma ReplaceHolds(s: RankState, dropped: seq<Entry>, entries: seq<Entry>, e: Entry, limit: int, bytes: int)
    requires limit >= 1 && Holds(s, dropped, entries, limit) && |s.heap| == limit && KeyLt(e.key, s.heap[0].key)
    ensures Holds(RankState(Replace(s.heap, e), bytes), dropped + [s.heap[0]], entries + [e], limit)
  {
    var root := s.heap[0];
    RootBounds(s, dropped, entries, limit);
    KeyTotal(e.key, root.key);
    ReplacedHeap(s.heap, e);
    Exchange(multiset(Replace(s.heap, e)), multiset(s.heap), multiset(dropped), root, e);
    forall d, h | d in dropped + [root] && h in Replace(s.heap, e) ensures KeyLe(h.key, d.key) {
      if h == e && d in dropped { KeyTransitive(e.key, root.key, d.key); }
    }
  }

  /** The entry is no smaller than the root: it is dropped. */
  lemma PassHolds(s: RankState, dropped: seq<Entry>, entries: seq<Entry>, e: Entry, limit: int)
    requires limit >= 1 && Holds(s, dropped, entries, limit) && |s.heap| == limit && !KeyLt(e.key, s.heap[0].key)
    ensures Holds(s, dropped + [e], entries + [e], limit)
  {
    RootBounds(s, dropped, entries, limit);
    forall d, h | d in dropped + [e] && h in s.heap ensures KeyLe(h.key, d.key) {
      if d == e { KeyTransitive(h.key, s.heap[0].key, e.key); }
    }
  }

  lemma OfferHolds(s: RankState, dropped: seq<Entry>, entries: seq<Entry>, e: Entry, limit: int, remaining: Option<int>)
      returns (after: seq<Entry>)
    requires limit >= 1 && Holds(s, dropped, entries, limit) && Offer(s, e, limit, remaining).Ok?
    ensures Holds(Offer(s, e, limit, remaining).value, after, entries + [e], limit)
  {
    var bytes := Offer(s, e, limit, remaining).value.bytes;
    if |s.heap| < limit {
      RoomHolds(s, dropped, entries, e, limit, bytes);
      after := dropped;
    } else if KeyLt(e.key, s.heap[0].key) {
      ReplaceHolds(s, dropped, entries, e, limit, bytes);
      after := dropped + [s.heap[0]];
    } else {
      PassHolds(s, dropped, entries, e, limit);
      after := dropped + [e];
    }
  }

  lemma {:induction false} OfferAllHolds(entries: seq<Entry>, limit: int, remaining: Option<int>)
      returns (dropped: seq<Entry>)
    requires limit >= 1 && OfferAll(entries, limit, remaining).Ok?
    ensures Holds(OfferAll(entries, limit, remaining).value, dropped, entries, limit)
  {
    if entries == [] { dropped := []; }
    else {
      var front := entries[..|entries| - 1];
      var before := OfferAllHolds(front, limit, remaining);
      dropped :=
        OfferHolds(OfferAll(front, limit, remaining).value, before, front, entries[|entries| - 1], limit, remaining);
      SplitLast(entries);
    }
  }

  // ---------------------------------------------------------------- kept and dropped

  lemma FinerIsByKey(s: seq<Entry>)
    requires Sorted(ByKeyThenOrder, s)
    ensures Sorted(ByKey, s)
  {
    forall i, j | 0 <= i < j < |s| ensures ByKey(s[i], s[j]) {
      assert ByKeyThenOrder(s[i], s[j]);
      KeyTotal(s[i].key, s[j].key);
    }
  }

  /** Kept and dropped entries, each in order, are together in key order. */
  lemma KeptThenDropped(s: RankState, dropped: seq<Entry>, entries: seq<Entry>, limit: int)
    requires Holds(s, dropped, entries, limit)
    ensures var kept, rest := Sort(ByKeyThenOrder, s.heap), Sort(ByKeyThenOrder, dropped);
            && Sorted(ByKey, kept + rest) && multiset(kept + rest) == multiset(entries)
            && |kept| == |s.heap| && |rest| == |dropped|
            && Sorted(ByKeyThenOrder, kept)
  {
    OrdersAreOrders();
    var kept, rest := Sort(ByKeyThenOrder, s.heap), Sort(ByKeyThenOrder, dropped);
    SortSorted(ByKeyThenOrder, s.heap);
    SortBag(ByKeyThenOrder, s.heap);
    SortSorted(ByKeyThenOrder, dropped);
    SortBag(ByKeyThenOrder, dropped);
    FinerIsByKey(kept);
    FinerIsByKey(rest);
    forall i, j | 0 <= i < |kept| && 0 <= j < |rest| ensures KeyLe(kept[i].key, rest[j].key) {
      SameElements(kept, s.heap, kept[i]);
      SameElements(rest, dropped, rest[j]);
    }
    Joined(kept, rest);
  }

  lemma Joined(a: seq<Entry>, b: seq<Entry>)
    requires Sorted(ByKey, a) && Sorted(ByKey, b)
    requires forall i, j :: 0 <= i < |a| && 0 <= j < |b| ==> KeyLe(a[i].key, b[j].key)
    ensures Sorted(ByKey, a + b)
  {
    var s := a + b;
    forall i, j | 0 <= i < j < |s| ensures ByKey(s[i], s[j]) {
      if j < |a| { assert ByKey(a[i], a[j]); }
      else if i >= |a| { assert ByKey(b[i - |a|], b[j - |a|]); }
    }
  }

  // ---------------------------------------------------------------- ties

  /** Reading orders ascend. */
  predicate Numbered(s: seq<Entry>) { forall i :: 0 <= i < |s| ==> s[i].order == i }

  lemma {:induction false} InsertLast(sorted: seq<Entry>, e: Entry)
    requires forall i :: 0 <= i < |sorted| ==> sorted[i].order < e.order
    ensures Insert(ByKey, sorted, e) == Insert(ByKeyThenOrder, sorted, e)
  {
    if sorted != [] {
      KeyTotal(e.key, e.key);
      InsertLast(sorted[..|sorted| - 1], e);
    }
  }

  /** A stable sort by key is the sort by key and reading order. */
  lemma {:induction false} StableByOrder(s: seq<Entry>)
    requires Numbered(s)
    ensures Sort(ByKey, s) == Sort(ByKeyThenOrder, s)
  {
    if s != [] {
      var front := s[..|s| - 1];
      StableByOrder(front);
      SortBag(ByKey, front);
      var sorted := Sort(ByKey, front);
      forall i | 0 <= i < |sorted| ensures sorted[i].order < |s| - 1 {
        SameElements(sorted, front, sorted[i]);
        var j :| 0 <= j < |front| && front[j] == sorted[i];
      }
      InsertLast(sorted, s[|s| - 1]);
    }
  }

  /** In what was read one after the other, equal key and order mean the same entry. */
  lemma OrderDecides(entries: seq<Entry>, s: seq<Entry>)
    requires Numbered(entries) && forall x :: x in s ==> x in entries
    ensures forall x, y :: x in s && y in s && ByKeyThenOrder(x, y) && ByKeyThenOrder(y, x) ==> x == y
  {
    forall x, y | x in s && y in s && ByKeyThenOrder(x, y) && ByKeyThenOrder(y, x) ensures x == y {
      if x.key != y.key { KeyAntisymmetric(x.key, y.key); }
      var i :| 0 <= i < |entries| && entries[i] == x;
      var j :| 0 <= j < |entries| && entries[j] == y;
    }
  }

  predicate Below(x: Entry, cut: Key) { KeyLt(x.key, cut) }

  /** The entries below a cut, in a key-sorted list that passes the cut at `m`. */
  lemma BagBelow(s: seq<Entry>, m: nat, cut: Key, x: Entry)
    requires m <= |s| && (forall i :: 0 <= i < m ==> Below(s[i], cut))
    requires (forall i :: m <= i < |s| ==> !Below(s[i], cut))
    ensures multiset(s[..m])[x] == if Below(x, cut) then multiset(s)[x] else 0
  {
    assert s == s[..m] + s[m..];
    if Below(x, cut) { assert x !in s[m..]; } else { assert x !in s[..m]; }
  }

  /** Lists of the same entries that pass a cut at the same place hold the same entries before it. */
  lemma BelowAlike(a: seq<Entry>, b: seq<Entry>, m: nat, cut: Key)
    requires multiset(a) == multiset(b) && m <= |a| && m <= |b|
    requires (forall i :: 0 <= i < m ==> Below(a[i], cut)) && (forall i :: m <= i < |a| ==> !Below(a[i], cut))
    requires (forall i :: 0 <= i < m ==> Below(b[i], cut)) && (forall i :: m <= i < |b| ==> !Below(b[i], cut))
    ensures multiset(a[..m]) == multiset(b[..m])
  {
    forall x ensures multiset(a[..m])[x] == multiset(b[..m])[x] {
      BagBelow(a, m, cut, x);
      BagBelow(b, m, cut, x);
    }
  }

  /** The place where a key-sorted list reaches the key it has at `limit`. */
  lemma CutPlace(s: seq<Entry>, limit: nat) returns (m: nat)
    requires Sorted(ByKey, s) && limit < |s|
    ensures m <= limit
    ensures forall i :: 0 <= i < m ==> Below(s[i], s[limit].key)
    ensures forall i :: m <= i < |s| ==> !Below(s[i], s[limit].key)
    ensures forall i :: m <= i <= limit ==> s[i].key == s[limit].key
  {
    m := limit;
    KeyTotal(s[limit].key, s[limit].key);
    forall i | limit <= i < |s| ensures !Below(s[i], s[limit].key) { if i > limit { assert ByKey(s[limit], s[i]); } }
    while m > 0 && s[m - 1].key == s[limit].key
      invariant m <= limit && forall i :: m <= i <= limit ==> s[i].key == s[limit].key
    {
      m := m - 1;
    }
    forall i | 0 <= i < m ensures Below(s[i], s[limit].key) { BeforeCut(s, limit, m, i); }
  }

  lemma BeforeCut(s: seq<Entry>, limit: nat, m: nat, i: nat)
    requires Sorted(ByKey, s) && i < m <= limit < |s| && s[m - 1].key != s[limit].key
    ensures Below(s[i], s[limit].key)
  {
    assert ByKey(s[m - 1], s[limit]);
    if i < m - 1 { assert ByKey(s[i], s[m - 1]); }
    if KeyLe(s[limit].key, s[i].key) {
      if i < m - 1 { KeyTransitive(s[limit].key, s[i].key, s[m - 1].key); }
      KeyAntisymmetric(s[m - 1].key, s[limit].key);
    }
  }

  /** No entry beyond the limit has the key of the entry at `i`. */
  predicate Untied(all: seq<Entry>, limit: int, i: int)
    requires 0 <= i < |all| && limit >= 0
  {
    |all| <= limit || all[i].key != all[limit].key
  }

  /** Kept entries in order are the first of all entries in order, but for ties with what was dropped. */
  lemma KeptAreFirst(s: RankState, dropped: seq<Entry>, entries: seq<Entry>, limit: int)
    requires limit >= 1 && Numbered(entries) && Holds(s, dropped, entries, limit)
    ensures var kept, all := Sort(ByKeyThenOrder, s.heap), Sort(ByKey, entries);
            && |Take(limit, all)| == |kept| && |all| == |entries| && Sorted(ByKey, all)
            && (forall i :: 0 <= i < |kept| ==> kept[i].key == all[i].key)
            && (forall i :: 0 <= i < |kept| && Untied(all, limit, i) ==> kept[i] == all[i])
  {
    var kept, rest, all := Sort(ByKeyThenOrder, s.heap), Sort(ByKeyThenOrder, dropped), Sort(ByKey, entries);
    KeptThenDropped(s, dropped, entries, limit);
    StableByOrder(entries);
    OrdersAreOrders();
    SortSorted(ByKeyThenOrder, entries);
    SortBag(ByKeyThenOrder, entries);
    FinerIsByKey(all);
    SortedAlike(kept + rest, all);
    forall i | 0 <= i < |kept| ensures kept[i].key == all[i].key { assert (kept + rest)[i] == kept[i]; }
    AgreeUntied(kept, rest, all, entries, limit);
  }

  lemma AgreeUntied(kept: seq<Entry>, rest: seq<Entry>, all: seq<Entry>, entries: seq<Entry>, limit: int)
    requires limit >= 1 && Numbered(entries) && |kept| <= limit && (rest != [] ==> |kept| == limit)
    requires Sorted(ByKeyThenOrder, kept) && Sorted(ByKeyThenOrder, all) && Sorted(ByKey, all)
    requires multiset(kept + rest) == multiset(all) == multiset(entries)
    requires |kept + rest| == |all| && forall i :: 0 <= i < |all| ==> (kept + rest)[i].key == all[i].key
    ensures forall i :: 0 <= i < |kept| && Untied(all, limit, i) ==> kept[i] == all[i]
  {
    forall x | x in all ensures x in entries { SameElements(all, entries, x); }
    OrderDecides(entries, all);
    if rest == [] {
      assert kept + rest == kept;
      SortedUnique(ByKeyThenOrder, all, kept);
    } else {
      var m := CutPlace(all, limit);
      var cut, both := all[limit].key, kept + rest;
      forall i | 0 <= i < |all| ensures Below(both[i], cut) == Below(all[i], cut) { assert both[i].key == all[i].key; }
      BelowAlike(all, both, m, cut);
      assert both[..m] == kept[..m];
      SortedUnique(ByKeyThenOrder, all[..m], kept[..m]);
      forall i | 0 <= i < |kept| && Untied(all, limit, i) ensures kept[i] == all[i] {
        assert i < m;
        assert kept[..m][i] == all[..m][i];
      }
    }
  }

  // ---------------------------------------------------------------- the two results

  predicate Keyed(rt: Runtime, q: RankQuery, s: seq<Entry>) {
    forall i :: 0 <= i < |s| ==> Rankable(rt, q, s[i].row) && s[i].key == KeyOf(rt, q, s[i].row)
  }

  predicate SameKeys(rt: Runtime, q: RankQuery, a: seq<Row>, b: seq<Row>) {
    && |a| == |b|
    && forall i :: 0 <= i < |a| ==>
      Rankable(rt, q, a[i]) && Rankable(rt, q, b[i]) && KeyOf(rt, q, a[i]) == KeyOf(rt, q, b[i])
  }

  lemma RankedAgree(rt: Runtime, q: RankQuery, a: seq<Entry>, b: seq<Entry>)
    requires Keyed(rt, q, a) && Keyed(rt, q, b) && |a| == |b| && forall i :: 0 <= i < |a| ==> a[i].key == b[i].key
    ensures SameKeys(rt, q, RankedRows(a), RankedRows(b))
  {
    forall i | 0 <= i < |a|
      ensures Rankable(rt, q, Ranked(a[i].row, i)) && Rankable(rt, q, Ranked(b[i].row, i))
      ensures KeyOf(rt, q, Ranked(a[i].row, i)) == KeyOf(rt, q, Ranked(b[i].row, i))
    {
      RankedKey(rt, q, a[i].row, i);
      RankedKey(rt, q, b[i].row, i);
    }
  }

  lemma KeyedFrom(rt: Runtime, q: RankQuery, rows: seq<Row>, s: seq<Entry>)
    requires forall x :: x in s ==> x in Entries(rt, q, rows)
    ensures Keyed(rt, q, s)
  {
    forall i | 0 <= i < |s| ensures Rankable(rt, q, s[i].row) && s[i].key == KeyOf(rt, q, s[i].row) {
      var es := Entries(rt, q, rows);
      assert s[i] in es;
      var j :| 0 <= j < |es| && es[j] == s[i];
    }
  }

  lemma KeptKeyed(rt: Runtime, q: RankQuery, rows: seq<Row>, s: RankState, dropped: seq<Entry>)
    requires Holds(s, dropped, Entries(rt, q, rows), q.limit)
    ensures Keyed(rt, q, Sort(ByKeyThenOrder, s.heap))
  {
    var kept := Sort(ByKeyThenOrder, s.heap);
    SortBag(ByKeyThenOrder, s.heap);
    forall x | x in kept ensures x in Entries(rt, q, rows) { SameElements(kept + dropped, Entries(rt, q, rows), x); }
    KeyedFrom(rt, q, rows, kept);
  }

  lemma FirstKeyed(rt: Runtime, q: RankQuery, rows: seq<Row>)
    requires q.limit >= 0
    ensures Keyed(rt, q, Take(q.limit, Sort(ByKey, Entries(rt, q, rows))))
  {
    var all := Sort(ByKey, Entries(rt, q, rows));
    SortBag(ByKey, Entries(rt, q, rows));
    forall x | x in Take(q.limit, all) ensures x in Entries(rt, q, rows) { SameElements(all, Entries(rt, q, rows), x); }
    KeyedFrom(rt, q, rows, Take(q.limit, all));
  }

  /** Numbering a row does not change its key. */
  lemma RankedKey(rt: Runtime, q: RankQuery, row: Row, i: nat)
    requires Rankable(rt, q, row)
    ensures Rankable(rt, q, Ranked(row, i)) && KeyOf(rt, q, Ranked(row, i)) == KeyOf(rt, q, row)
  {
    assert q.field in row;
    assert Get(Ranked(row, i), q.field) == Get(row, q.field);
  }

  /** All candidates in the order of the simple form. */
  function AllRanked(rt: Runtime, q: RankQuery, rows: seq<Row>): seq<Entry> { Sort(ByKey, Entries(rt, q, rows)) }

  /** Whenever the bounded pass returns, it returns as many rows as sorting and taking the first, with the same keys
      in the same order, and the very same row wherever the key is not also that of the first row left out. */
  lemma RankRefines(rt: Runtime, q: RankQuery, rows: seq<Row>, remainingRows: Option<int>, remainingBytes: Option<int>)
    requires StreamRankOf(rt, q, rows, remainingRows, remainingBytes).Ok?
    ensures MemoryRank(rt, q, rows).Ok?
    ensures var fast := StreamRankOf(rt, q, rows, remainingRows, remainingBytes).value;
            var simple := MemoryRank(rt, q, rows).value;
            && SameKeys(rt, q, fast, simple) && |fast| <= |AllRanked(rt, q, rows)|
            && forall i :: 0 <= i < |fast| && Untied(AllRanked(rt, q, rows), q.limit, i) ==> fast[i] == simple[i]
  {
    var kept := Sort(ByKeyThenOrder, OfferAll(Entries(rt, q, rows), q.limit, remainingBytes).value.heap);
    KeptRefines(rt, q, rows, remainingBytes);
    RankedAgree(rt, q, kept, Take(q.limit, AllRanked(rt, q, rows)));
    RankedAlike(kept, AllRanked(rt, q, rows), q.limit);
  }

  lemma KeptRefines(rt: Runtime, q: RankQuery, rows: seq<Row>, remaining: Option<int>)
    requires q.limit >= 1 && OfferAll(Entries(rt, q, rows), q.limit, remaining).Ok?
    ensures var s, all := OfferAll(Entries(rt, q, rows), q.limit, remaining).value, AllRanked(rt, q, rows);
            var kept, first := Sort(ByKeyThenOrder, s.heap), Take(q.limit, all);
            && Keyed(rt, q, kept) && Keyed(rt, q, first) && |kept| == |first|
            && (forall i :: 0 <= i < |kept| ==> kept[i].key == first[i].key)
            && (forall i :: 0 <= i < |kept| && Untied(all, q.limit, i) ==> kept[i] == all[i])
  {
    var es := Entries(rt, q, rows);
    var s := OfferAll(es, q.limit, remaining).value;
    var dropped := OfferAllHolds(es, q.limit, remaining);
    KeptAreFirst(s, dropped, es, q.limit);
    KeptKeyed(rt, q, rows, s, dropped);
    FirstKeyed(rt, q, rows);
  }

  lemma RankedAlike(kept: seq<Entry>, all: seq<Entry>, limit: int)
    requires limit >= 1 && |kept| == |Take(limit, all)|
    requires forall i :: 0 <= i < |kept| && Untied(all, limit, i) ==> kept[i] == all[i]
    ensures var fast, simple := RankedRows(kept), RankedRows(Take(limit, all));
            |fast| == |simple| <= |all| && forall i :: 0 <= i < |fast| && Untied(all, limit, i) ==> fast[i] == simple[i]
  {}

  /** Without a tie across the limit the two results are the same, row for row. */
  lemma NoTieAgrees(rt: Runtime, q: RankQuery, rows: seq<Row>, remainingRows: Option<int>, remainingBytes: Option<int>)
    requires StreamRankOf(rt, q, rows, remainingRows, remainingBytes).Ok?
    requires var all := AllRanked(rt, q, rows); |all| <= q.limit || all[q.limit - 1].key != all[q.limit].key
    ensures StreamRankOf(rt, q, rows, remainingRows, remainingBytes) == MemoryRank(rt, q, rows)
  {
    var all := AllRanked(rt, q, rows);
    RankRefines(rt, q, rows, remainingRows, remainingBytes);
    OrdersAreOrders();
    SortSorted(ByKey, Entries(rt, q, rows));
    SortBag(ByKey, Entries(rt, q, rows));
    var fast, simple := StreamRankOf(rt, q, rows, remainingRows, remainingBytes).value, MemoryRank(rt, q, rows).value;
    forall i | 0 <= i < |fast| ensures fast[i] == simple[i] {
      if |all| > q.limit { BeforeCut(all, q.limit, q.limit, i); }
      KeyTotal(all[i].key, all[i].key);
      assert Untied(all, q.limit, i);
    }
    assert fast == simple;
  }

  lemma SortedDistinct(s: seq<Entry>)
    requires Distinct(Keys(s))
    ensures Distinct(Keys(Sort(ByKey, s)))
  {
    SortBag(ByKey, s);
    PermutedKeys(s, Sort(ByKey, s));
    PermutedDistinct(Keys(s), Keys(Sort(ByKey, s)));
  }

  /** In particular when no two candidates have the same key. */
  lemma DistinctKeysAgree(rt: Runtime, q: RankQuery, rows: seq<Row>, remainingRows: Option<int>,
      remainingBytes: Option<int>)
    requires StreamRankOf(rt, q, rows, remainingRows, remainingBytes).Ok? && Distinct(Keys(Entries(rt, q, rows)))
    ensures StreamRankOf(rt, q, rows, remainingRows, remainingBytes) == MemoryRank(rt, q, rows)
  {
    var es, all := Entries(rt, q, rows), AllRanked(rt, q, rows);
    SortedDistinct(es);
    if |all| > q.limit { assert Keys(all)[q.limit - 1] != Keys(all)[q.limit]; }
    NoTieAgrees(rt, q, rows, remainingRows, remainingBytes);
  }

  // ---------------------------------------------------------------- bytes

  function TotalBytes(s: seq<Entry>): nat { if s == [] then 0 else s[0].bytes + TotalBytes(s[1..]) }

  lemma {:induction false} BytesWithout(s: seq<Entry>, j: nat)
    requires j < |s|
    ensures TotalBytes(s) == TotalBytes(Without(s, j)) + s[j].bytes
  {
    if j == 0 { assert Without(s, 0) == s[1..]; }
    else {
      BytesWithout(s[1..], j - 1);
      assert Without(s, j)[1..] == Without(s[1..], j - 1);
    }
  }

  lemma {:induction false} PermutedBytes(a: seq<Entry>, b: seq<Entry>)
    requires multiset(a) == multiset(b)
    ensures TotalBytes(a) == TotalBytes(b)
    decreases |a|
  {
    SameLength(a, b);
    if a != [] {
      assert a[0] in multiset(b);
      var j :| 0 <= j < |b| && b[j] == a[0];
      WithoutBag(a, 0);
      WithoutBag(b, j);
      Cancel(multiset(Without(a, 0)), multiset(Without(b, j)), a[0]);
      PermutedBytes(Without(a, 0), Without(b, j));
      BytesWithout(a, 0);
      BytesWithout(b, j);
    }
  }

  /** The running total is that of the entries held, and it fits. */
  predicate Accounted(s: RankState, remaining: Option<int>) {
    && IsHeap(s.heap)
    && s.bytes == 2 + TotalBytes(s.heap) + (if s.heap == [] then 0 else |s.heap| - 1)
    && (s.heap != [] ==> !Exceeds(s.bytes, remaining))
  }

  lemma PushBytes(h: seq<Entry>, e: Entry)
    requires IsHeap(h)
    ensures IsHeap(Push(h, e)) && |Push(h, e)| == |h| + 1 && TotalBytes(Push(h, e)) == TotalBytes(h) + e.bytes
  {
    PushHeap(h, e);
    var grown := [e] + h;
    assert multiset(Push(h, e)) == multiset(grown);
    SameLength(Push(h, e), grown);
    PermutedBytes(Push(h, e), grown);
  }

  lemma ReplaceBytes(h: seq<Entry>, e: Entry)
    requires IsHeap(h) && h != []
    ensures TotalBytes(Replace(h, e)) == TotalBytes(h) - h[0].bytes + e.bytes
  {
    ReplaceHeap(h, e);
    PermutedBytes(Replace(h, e), [e] + h[1..]);
  }

  lemma OfferAccounted(s: RankState, e: Entry, limit: int, remaining: Option<int>)
    requires limit >= 1 && Accounted(s, remaining) && |s.heap| <= limit && Offer(s, e, limit, remaining).Ok?
    ensures Accounted(Offer(s, e, limit, remaining).value, remaining)
    ensures |Offer(s, e, limit, remaining).value.heap| <= limit
  {
    if |s.heap| < limit { PushBytes(s.heap, e); }
    else if KeyLt(e.key, s.heap[0].key) {
      ReplacedHeap(s.heap, e);
      ReplaceBytes(s.heap, e);
    }
  }

  lemma {:induction false} OfferAllAccounted(entries: seq<Entry>, limit: int, remaining: Option<int>)
    requires limit >= 1 && OfferAll(entries, limit, remaining).Ok?
    ensures var s := OfferAll(entries, limit, remaining).value; Accounted(s, remaining) && |s.heap| <= limit
  {
    if entries != [] {
      OfferAllAccounted(entries[..|entries| - 1], limit, remaining);
      var s := OfferAll(entries[..|entries| - 1], limit, remaining).value;
      OfferAccounted(s, entries[|entries| - 1], limit, remaining);
    }
  }

  /** The 32 bytes charged per row cover its rank field. */
  ghost predicate RankFieldFits(rt: Runtime, limit: int) {
    forall row, i: nat :: i < limit ==> rt.size(Ranked(row, i)) <= rt.size(row) + 32
  }

  lemma {:induction false} EncodedBound(rt: Runtime, s: seq<Entry>, limit: int)
    requires RankFieldFits(rt, limit) && |s| <= limit
    requires forall i :: 0 <= i < |s| ==> s[i].bytes == rt.size(s[i].row) + 32
    ensures EncodedRows(rt, RankedRows(s)) <= 2 + TotalBytes(s) + (if s == [] then 0 else |s| - 1)
  {
    if s != [] {
      var front, last := s[..|s| - 1], s[|s| - 1];
      EncodedBound(rt, front, limit);
      assert RankedRows(s)[..|s| - 1] == RankedRows(front);
      BytesWithout(s, |s| - 1);
      assert Without(s, |s| - 1) == front;
      assert rt.size(Ranked(last.row, |s| - 1)) <= last.bytes;
    }
  }

  lemma {:induction false} EntriesCharged(rt: Runtime, q: RankQuery, rows: seq<Row>)
    ensures forall e :: e in Entries(rt, q, rows) ==> e.bytes == rt.size(e.row) + 32
  {
    if rows != [] { EntriesCharged(rt, q, rows[..|rows| - 1]); }
  }

  /** A ranking the stream returns passes the byte check made on the finished result. */
  lemma RankWithinBytes(rt: Runtime, q: RankQuery, rows: seq<Row>, remainingRows: Option<int>,
      remainingBytes: Option<int>)
    requires RankFieldFits(rt, q.limit) && StreamRankOf(rt, q, rows, remainingRows, remainingBytes).Ok?
    ensures var result := StreamRankOf(rt, q, rows, remainingRows, remainingBytes).value;
            && !Exceeds(|result|, remainingRows)
            && (result != [] ==> !Exceeds(EncodedRows(rt, result), remainingBytes))
  {
    var es := Entries(rt, q, rows);
    var s := OfferAll(es, q.limit, remainingBytes).value;
    OfferAllAccounted(es, q.limit, remainingBytes);
    var dropped := OfferAllHolds(es, q.limit, remainingBytes);
    SortBag(ByKeyThenOrder, s.heap);
    var kept := Sort(ByKeyThenOrder, s.heap);
    PermutedBytes(kept, s.heap);
    EntriesCharged(rt, q, rows);
    forall i | 0 <= i < |kept| ensures kept[i].bytes == rt.size(kept[i].row) + 32 {
      SameElements(kept + dropped, es, kept[i]);
    }
    EncodedBound(rt, kept, q.limit);
  }
}
