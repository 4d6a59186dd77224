/** What a ranking returns, in terms of the rows alone. */
module QueryRankOrder {
  import opened Prelude
  import opened TextOrder
  import opened QueryRows
  import opened QueryHeap
  import opened QueryRank
  import opened QueryRankLaws
  import opened StableSort
  import QueryMeaning

  /** The matching rows that have a number to rank by, in the order they are read. */
  function Candidates(rt: Runtime, q: RankQuery, rows: seq<Row>): seq<Row> {
    if rows == [] then []
    else
      var front, row := Candidates(rt, q, rows[..|rows| - 1]), rows[|rows| - 1];
      if QueryMeaning.Asked(q.filter, row) && Numeric(rt, Get(row, q.field)).Some? then front + [row] else front
  }

  function Shown(rt: Runtime, row: Row, field: string): string { if field in row then rt.str(row[field]) else "" }

  /** Row `a` may stand before row `b`: larger numbers first, or smaller ones; then by code, then by trade date. */
  predicate MayPrecede(rt: Runtime, q: RankQuery, a: Row, b: Row) {
    var m, n := Numeric(rt, Get(a, q.field)), Numeric(rt, Get(b, q.field));
    && m.Some? && n.Some?
    && (if m.value != n.value then (if q.ascending then m.value < n.value else m.value > n.value)
        else if Shown(rt, a, "code") != Shown(rt, b, "code") then StrLe(Shown(rt, a, "code"), Shown(rt, b, "code"))
        else StrLe(Shown(rt, a, "trade_date"), Shown(rt, b, "trade_date")))
  }

  ghost predicate InOrder(rt: Runtime, q: RankQuery, rows: seq<Row>) {
    forall i, j :: 0 <= i < j < |rows| ==> MayPrecede(rt, q, rows[i], rows[j])
  }

  /** Each row with its place, unless it has a field of that name. */
  predicate Placed(picked: seq<Row>, result: seq<Row>) {
    && |result| == |picked|
    && forall i :: 0 <= i < |result| ==> result[i] == map["rank" := Number((i + 1) as real)] + picked[i]
  }

  /** As many candidates as the limit allows, in order, and none left out that must stand before one of them. */
  ghost predicate Picked(rt: Runtime, q: RankQuery, rows: seq<Row>, picked: seq<Row>, rest: seq<Row>) {
    && multiset(picked) + multiset(rest) == multiset(Candidates(rt, q, rows))
    && |picked| == Min(q.limit, |Candidates(rt, q, rows)|)
    && InOrder(rt, q, picked)
    && forall p, r :: p in picked && r in rest ==> MayPrecede(rt, q, p, r)
  }

  /** What either form returns. */
  ghost predicate RankedRight(rt: Runtime, q: RankQuery, rows: seq<Row>, result: seq<Row>) {
    exists picked, rest :: Picked(rt, q, rows, picked, rest) && Placed(picked, result)
  }

  // ---------------------------------------------------------------- entries and their rows

  function RowsOf(s: seq<Entry>): seq<Row> { seq(|s|, i requires 0 <= i < |s| => s[i].row) }

  lemma {:induction false} PermutedRows(a: seq<Entry>, b: seq<Entry>)
    requires multiset(a) == multiset(b)
    ensures multiset(RowsOf(a)) == multiset(RowsOf(b))
    decreases |a|
  {
    SameLength(a, b);
    if a != [] {
      SameElements(a, b, a[0]);
      var j :| 0 <= j < |b| && b[j] == a[0];
      WithoutBag(a, 0);
      WithoutBag(b, j);
      Cancel(multiset(Without(a, 0)), multiset(Without(b, j)), a[0]);
      PermutedRows(Without(a, 0), Without(b, j));
      RowsWithout(a, 0);
      RowsWithout(b, j);
    }
  }

  lemma RowsWithout(s: seq<Entry>, j: nat)
    requires j < |s|
    ensures multiset(RowsOf(s)) == multiset(RowsOf(Without(s, j))) + multiset{s[j].row}
  {
    WithoutBag(RowsOf(s), j);
    assert RowsOf(Without(s, j)) == Without(RowsOf(s), j);
  }

  lemma {:induction false} EntriesAreCandidates(rt: Runtime, q: RankQuery, rows: seq<Row>)
    ensures RowsOf(Entries(rt, q, rows)) == Candidates(rt, q, rows)
  {
    if rows != [] { EntriesAreCandidates(rt, q, rows[..|rows| - 1]); }
  }

  /** Keys are ordered as their rows are. */
  lemma KeysOrderRows(rt: Runtime, q: RankQuery, a: Row, b: Row)
    requires Rankable(rt, q, a) && Rankable(rt, q, b)
    ensures KeyLe(KeyOf(rt, q, a), KeyOf(rt, q, b)) <==> MayPrecede(rt, q, a, b)
  {}

  lemma KeyedInOrder(rt: Runtime, q: RankQuery, s: seq<Entry>)
    requires Keyed(rt, q, s) && Sorted(ByKey, s)
    ensures InOrder(rt, q, RowsOf(s))
  {
    forall i, j | 0 <= i < j < |s| ensures MayPrecede(rt, q, RowsOf(s)[i], RowsOf(s)[j]) {
      assert ByKey(s[i], s[j]);
      KeysOrderRows(rt, q, s[i].row, s[j].row);
    }
  }

  lemma KeyedApart(rt: Runtime, q: RankQuery, kept: seq<Entry>, rest: seq<Entry>)
    requires Keyed(rt, q, kept) && Keyed(rt, q, rest)
    requires forall i, j :: 0 <= i < |kept| && 0 <= j < |rest| ==> KeyLe(kept[i].key, rest[j].key)
    ensures forall p, r :: p in RowsOf(kept) && r in RowsOf(rest) ==> MayPrecede(rt, q, p, r)
  {
    forall p, r | p in RowsOf(kept) && r in RowsOf(rest) ensures MayPrecede(rt, q, p, r) {
      var i :| 0 <= i < |kept| && RowsOf(kept)[i] == p;
      var j :| 0 <= j < |rest| && RowsOf(rest)[j] == r;
      KeysOrderRows(rt, q, kept[i].row, rest[j].row);
    }
  }

  /** Entries in key order, the first of them taken: their rows are picked right. */
  lemma TakenArePicked(rt: Runtime, q: RankQuery, rows: seq<Row>, kept: seq<Entry>, rest: seq<Entry>)
    requires multiset(kept + rest) == multiset(Entries(rt, q, rows)) && Sorted(ByKey, kept + rest)
    requires |kept| == Min(q.limit, |Entries(rt, q, rows)|)
    ensures Picked(rt, q, rows, RowsOf(kept), RowsOf(rest))
  {
    AllKeyed(rt, q, rows, kept, rest);
    SplitSorted(kept, rest);
    KeyedInOrder(rt, q, kept);
    KeyedApart(rt, q, kept, rest);
    RowsTogether(rt, q, rows, kept, rest);
  }

  lemma AllKeyed(rt: Runtime, q: RankQuery, rows: seq<Row>, kept: seq<Entry>, rest: seq<Entry>)
    requires multiset(kept + rest) == multiset(Entries(rt, q, rows))
    ensures Keyed(rt, q, kept) && Keyed(rt, q, rest)
  {
    var es := Entries(rt, q, rows);
    forall x | x in kept + rest ensures x in es { SameElements(kept + rest, es, x); }
    KeyedFrom(rt, q, rows, kept);
    KeyedFrom(rt, q, rows, rest);
  }

  lemma SplitSorted(kept: seq<Entry>, rest: seq<Entry>)
    requires Sorted(ByKey, kept + rest)
    ensures Sorted(ByKey, kept)
    ensures forall i, j :: 0 <= i < |kept| && 0 <= j < |rest| ==> KeyLe(kept[i].key, rest[j].key)
  {
    var all := kept + rest;
    forall i, j | 0 <= i < j < |kept| ensures ByKey(kept[i], kept[j]) { assert ByKey(all[i], all[j]); }
    forall i, j | 0 <= i < |kept| && 0 <= j < |rest| ensures KeyLe(kept[i].key, rest[j].key) {
      assert ByKey(all[i], all[|kept| + j]);
    }
  }

  lemma RowsTogether(rt: Runtime, q: RankQuery, rows: seq<Row>, kept: seq<Entry>, rest: seq<Entry>)
    requires multiset(kept + rest) == multiset(Entries(rt, q, rows))
    ensures multiset(RowsOf(kept)) + multiset(RowsOf(rest)) == multiset(Candidates(rt, q, rows))
    ensures |Candidates(rt, q, rows)| == |Entries(rt, q, rows)|
  {
    PermutedRows(kept + rest, Entries(rt, q, rows));
    EntriesAreCandidates(rt, q, rows);
    RowsOfBoth(kept, rest);
    assert |RowsOf(Entries(rt, q, rows))| == |Entries(rt, q, rows)|;
  }

  lemma RowsOfBoth(a: seq<Entry>, b: seq<Entry>)
    ensures multiset(RowsOf(a + b)) == multiset(RowsOf(a)) + multiset(RowsOf(b))
  {
    assert RowsOf(a + b) == RowsOf(a) + RowsOf(b);
  }

  lemma RankedArePlaced(s: seq<Entry>)
    ensures Placed(RowsOf(s), RankedRows(s))
  {}

  // ---------------------------------------------------------------- the two forms

  /** The bounded pass returns the right rows in the right order. */
  lemma StreamRanksRight(rt: Runtime, q: RankQuery, rows: seq<Row>, remainingRows: Option<int>,
      remainingBytes: Option<int>)
    requires StreamRankOf(rt, q, rows, remainingRows, remainingBytes).Ok?
    ensures RankedRight(rt, q, rows, StreamRankOf(rt, q, rows, remainingRows, remainingBytes).value)
  {
    var es := Entries(rt, q, rows);
    var s := OfferAll(es, q.limit, remainingBytes).value;
    var dropped := OfferAllHolds(es, q.limit, remainingBytes);
    var kept, rest := Sort(ByKeyThenOrder, s.heap), Sort(ByKeyThenOrder, dropped);
    KeptThenDropped(s, dropped, es, q.limit);
    SameLength(kept + rest, es);
    TakenArePicked(rt, q, rows, kept, rest);
    RankedArePlaced(kept);
  }

  /** And so does sorting everything and taking the first rows. */
  lemma MemoryRanksRight(rt: Runtime, q: RankQuery, rows: seq<Row>)
    requires MemoryRank(rt, q, rows).Ok?
    ensures RankedRight(rt, q, rows, MemoryRank(rt, q, rows).value)
  {
    var es, all := Entries(rt, q, rows), AllRanked(rt, q, rows);
    OrdersAreOrders();
    SortSorted(ByKey, es);
    SortBag(ByKey, es);
    SameLength(all, es);
    var kept := Take(q.limit, all);
    var rest := all[|kept|..];
    assert all == kept + rest;
    TakenArePicked(rt, q, rows, kept, rest);
    RankedArePlaced(kept);
  }

  // ---------------------------------------------------------------- when the pass refuses

  /** After some prefix of the candidates the smallest of them, as many as the limit allows, take too many bytes. */
  ghost predicate HeldTooLong(entries: seq<Entry>, limit: int, remaining: Option<int>)
    requires limit >= 1
  {
    exists n :: 0 < n <= |entries| && Exceeds(HeldBytes(entries[..n], limit), remaining)
  }

  /** The bytes of what is held when nothing limits them. */
  function HeldBytes(entries: seq<Entry>, limit: int): int {
    var s := OfferAll(entries, limit, None);
    if s.Ok? then s.value.bytes else 0
  }

  lemma {:induction false} UnlimitedOffers(entries: seq<Entry>, limit: int)
    requires limit >= 1
    ensures OfferAll(entries, limit, None).Ok?
  {
    if entries != [] { UnlimitedOffers(entries[..|entries| - 1], limit); }
  }

  lemma TooLongNext(entries: seq<Entry>, limit: int, remaining: Option<int>)
    requires limit >= 1 && entries != []
    ensures HeldTooLong(entries, limit, remaining) <==>
            || HeldTooLong(entries[..|entries| - 1], limit, remaining)
            || Exceeds(HeldBytes(entries, limit), remaining)
  {
    var front := entries[..|entries| - 1];
    assert entries[..|entries|] == entries;
    if n :| 0 < n <= |front| && Exceeds(HeldBytes(front[..n], limit), remaining) { assert front[..n] == entries[..n]; }
    if n :| 0 < n <= |entries| && Exceeds(HeldBytes(entries[..n], limit), remaining) {
      if n < |entries| { assert front[..n] == entries[..n]; }
    }
  }

  lemma HeldWithin(entries: seq<Entry>, limit: int, remaining: Option<int>)
    requires limit >= 1 && entries != [] && !HeldTooLong(entries, limit, remaining)
    ensures !Exceeds(HeldBytes(entries, limit), remaining)
  {
    assert entries[..|entries|] == entries;
  }

  lemma {:induction false} OffersRefused(entries: seq<Entry>, limit: int, remaining: Option<int>)
    requires limit >= 1
    ensures OfferAll(entries, limit, remaining).Err? <==> HeldTooLong(entries, limit, remaining)
    ensures OfferAll(entries, limit, remaining).Ok? ==>
              OfferAll(entries, limit, remaining) == OfferAll(entries, limit, None)
    ensures OfferAll(entries, limit, remaining).Err? ==> OfferAll(entries, limit, remaining).error == ByteBudget
  {
    UnlimitedOffers(entries, limit);
    if entries != [] {
      var front := entries[..|entries| - 1];
      UnlimitedOffers(front, limit);
      OffersRefused(front, limit, remaining);
      TooLongNext(entries, limit, remaining);
      if front != [] && !HeldTooLong(front, limit, remaining) { HeldWithin(front, limit, remaining); }
    }
  }

  /** The pass refuses exactly a malformed filter, a limit below one or over the rows left, or too many bytes held. */
  lemma RankRefusal(rt: Runtime, q: RankQuery, rows: seq<Row>, remainingRows: Option<int>, remainingBytes: Option<int>)
    ensures StreamRankOf(rt, q, rows, remainingRows, remainingBytes).Err? <==>
            || !ValidFilter(q.filter) || q.limit < 1 || Exceeds(q.limit, remainingRows)
            || HeldTooLong(Entries(rt, q, rows), q.limit, remainingBytes)
  {
    if q.limit >= 1 { OffersRefused(Entries(rt, q, rows), q.limit, remainingBytes); }
  }
}
