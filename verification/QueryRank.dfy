/** Ranking: one pass with a bounded heap against sorting everything and taking the first rows. */
module QueryRank {
  import opened Prelude
  import opened QueryRows
  import opened QueryHeap
  import opened StableSort

  datatype RankQuery = RankQuery(filter: Filter, field: string, ascending: bool, limit: int)

  function TextOf(rt: Runtime, row: Row, field: string): string { if field in row then rt.str(row[field]) else "" }

  function KeyOf(rt: Runtime, q: RankQuery, row: Row): Key
    requires Numeric(rt, Get(row, q.field)).Some?
  {
    var n := Numeric(rt, Get(row, q.field)).value;
    Key(if q.ascending then n else -n, TextOf(rt, row, "code"), TextOf(rt, row, "trade_date"))
  }

  predicate Rankable(rt: Runtime, q: RankQuery, row: Row) { Numeric(rt, Get(row, q.field)).Some? }

  function EntryOf(rt: Runtime, q: RankQuery, row: Row, order: nat): Entry
    requires Rankable(rt, q, row)
  {
    Entry(KeyOf(rt, q, row), order, row, rt.size(row) + 32)
  }

  /** The matching rows with a number to rank by, in the order they are read. */
  function Entries(rt: Runtime, q: RankQuery, rows: seq<Row>): (es: seq<Entry>)
    ensures forall i :: 0 <= i < |es| ==>
              Rankable(rt, q, es[i].row) && es[i].key == KeyOf(rt, q, es[i].row) && es[i].order == i
  {
    if rows == [] then []
    else
      var front, row := Entries(rt, q, rows[..|rows| - 1]), rows[|rows| - 1];
      if Matches(q.filter, row) && Rankable(rt, q, row) then front + [EntryOf(rt, q, row, |front|)] else front
  }

  // ---------------------------------------------------------------- orders

  predicate ByKey(a: Entry, b: Entry) { KeyLe(a.key, b.key) }

  /** By key, and among equal keys in reading order. */
  predicate ByKeyThenOrder(a: Entry, b: Entry) { if a.key == b.key then a.order <= b.order else KeyLe(a.key, b.key) }

  // ---------------------------------------------------------------- the two forms

  /** `{"rank": i + 1, **row}`: a row's own rank field wins. */
  function Ranked(row: Row, i: nat): Row { map["rank" := Number((i + 1) as real)] + row }

  function RankedRows(s: seq<Entry>): seq<Row> { seq(|s|, i requires 0 <= i < |s| => Ranked(s[i].row, i)) }

  function Take<T>(limit: int, s: seq<T>): seq<T>
    requires limit >= 0
  {
    if |s| <= limit then s else s[..limit]
  }

  /** `_rank`. */
  function MemoryRank(rt: Runtime, q: RankQuery, rows: seq<Row>): Result<seq<Row>, Denied> {
    if !ValidFilter(q.filter) then Err(InvalidWindow)
    else if q.limit < 1 then Err(InvalidLimit)
    else Ok(RankedRows(Take(q.limit, Sort(ByKey, Entries(rt, q, rows)))))
  }

  datatype RankState = RankState(heap: seq<Entry>, bytes: int)

  /** One entry offered to the bounded heap. */
  function Offer(s: RankState, e: Entry, limit: int, remaining: Option<int>): Result<RankState, Denied> {
    if |s.heap| < limit then
      var projected := s.bytes + e.bytes + (if s.heap != [] then 1 else 0);
      if Exceeds(projected, remaining) then Err(ByteBudget) else Ok(RankState(Push(s.heap, e), projected))
    else if s.heap != [] && KeyLt(e.key, s.heap[0].key) then
      var projected := s.bytes - s.heap[0].bytes + e.bytes;
      if Exceeds(projected, remaining) then Err(ByteBudget) else Ok(RankState(Replace(s.heap, e), projected))
    else Ok(s)
  }

  function OfferAll(entries: seq<Entry>, limit: int, remaining: Option<int>): Result<RankState, Denied> {
    if entries == [] then Ok(RankState([], 2))
    else
      var s := OfferAll(entries[..|entries| - 1], limit, remaining);
      if s.Err? then s else Offer(s.value, entries[|entries| - 1], limit, remaining)
  }

  /** `_stream_rank` as a function of the rows it reads. */
  function StreamRankOf(rt: Runtime, q: RankQuery, rows: seq<Row>, remainingRows: Option<int>,
      remainingBytes: Option<int>): Result<seq<Row>, Denied>
  {
    if !ValidFilter(q.filter) then Err(InvalidWindow)
    else if q.limit < 1 then Err(InvalidLimit)
    else if Exceeds(q.limit, remainingRows) then Err(RowBudget)
    else
      var s := OfferAll(Entries(rt, q, rows), q.limit, remainingBytes);
      if s.Err? then Err(s.error) else Ok(RankedRows(Sort(ByKeyThenOrder, s.value.heap)))
  }

  method StreamRank(rt: Runtime, q: RankQuery, rows: seq<Row>, remainingRows: Option<int>, remainingBytes: Option<int>)
      returns (r: Result<seq<Row>, Denied>)
    ensures r == StreamRankOf(rt, q, rows, remainingRows, remainingBytes)
  {
    if !ValidFilter(q.filter) { return Err(InvalidWindow); }
    if q.limit < 1 { return Err(InvalidLimit); }
    if Exceeds(q.limit, remainingRows) { return Err(RowBudget); }
    var state := RankState([], 2);
    var sequence := 0;
    for n := 0 to |rows|
      invariant sequence == |Entries(rt, q, rows[..n])|
      invariant OfferAll(Entries(rt, q, rows[..n]), q.limit, remainingBytes) == Ok(state)
    {
      EntriesNext(rt, q, rows, n);
      OfferAllNext(rt, q, rows, n, remainingBytes);
      if Matches(q.filter, rows[n]) && Rankable(rt, q, rows[n]) {
        var offered := OfferEntry(state, EntryOf(rt, q, rows[n], sequence), q.limit, remainingBytes);
        sequence := sequence + 1;
        if offered.Err? {
          RefusalStays(rt, q, rows, n + 1, remainingBytes);
          return Err(offered.error);
        }
        state := offered.value;
      }
    }
    assert rows[..|rows|] == rows;
    return Ok(RankedRows(Sort(ByKeyThenOrder, state.heap)));
  }

  /** Push while there is room, replace the root by a smaller entry, pass over the rest; bytes are checked first. */
  method OfferEntry(s: RankState, e: Entry, limit: int, remaining: Option<int>) returns (r: Result<RankState, Denied>)
    ensures r == Offer(s, e, limit, remaining)
  {
    if |s.heap| < limit {
      var projected := s.bytes + e.bytes + if s.heap != [] then 1 else 0;
      if Exceeds(projected, remaining) { return Err(ByteBudget); }
      return Ok(RankState(Push(s.heap, e), projected));
    }
    if s.heap == [] || !KeyLt(e.key, s.heap[0].key) { return Ok(s); }
    var projected := s.bytes - s.heap[0].bytes + e.bytes;
    if Exceeds(projected, remaining) { return Err(ByteBudget); }
    return Ok(RankState(Replace(s.heap, e), projected));
  }

  lemma OfferAllNext(rt: Runtime, q: RankQuery, rows: seq<Row>, n: nat, remaining: Option<int>)
    requires n < |rows|
    ensures var front := Entries(rt, q, rows[..n]);
            var s := OfferAll(front, q.limit, remaining);
            OfferAll(Entries(rt, q, rows[..n + 1]), q.limit, remaining) ==
              if s.Err? || !Matches(q.filter, rows[n]) || !Rankable(rt, q, rows[n]) then s
              else Offer(s.value, EntryOf(rt, q, rows[n], |front|), q.limit, remaining)
  {
    EntriesNext(rt, q, rows, n);
    var front, all := Entries(rt, q, rows[..n]), Entries(rt, q, rows[..n + 1]);
    if |all| > |front| { assert all[..|front|] == front; }
  }

  lemma EntriesNext(rt: Runtime, q: RankQuery, rows: seq<Row>, n: nat)
    requires n < |rows|
    ensures var front := Entries(rt, q, rows[..n]);
            Entries(rt, q, rows[..n + 1]) == (if Matches(q.filter, rows[n]) && Rankable(rt, q, rows[n])
                                             then front + [EntryOf(rt, q, rows[n], |front|)] else front)
  {
    assert rows[..n + 1][..n] == rows[..n];
  }

  lemma {:induction false} RefusalStays(rt: Runtime, q: RankQuery, rows: seq<Row>, n: nat, remaining: Option<int>)
    requires n <= |rows| && OfferAll(Entries(rt, q, rows[..n]), q.limit, remaining).Err?
    ensures OfferAll(Entries(rt, q, rows), q.limit, remaining)
            == OfferAll(Entries(rt, q, rows[..n]), q.limit, remaining)
    decreases |rows| - n
  {
    if n == |rows| { assert rows[..n] == rows; }
    else {
      OfferAllNext(rt, q, rows, n, remaining);
      RefusalStays(rt, q, rows, n + 1, remaining);
    }
  }
}
