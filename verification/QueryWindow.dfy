/** Market breadth and window comparison: one pass against filter-then-fold. */
module QueryWindow {
  import opened Prelude
  import opened TextOrder
  import opened QueryRows
  import opened QueryMetrics
  import opened QueryAggregateStream

  // ---------------------------------------------------------------- breadth

  datatype Breadth = Breadth(
    count: nat, positive: nat, negative: nat, flat: nat, missing: nat, advance: Option<real>, decline: Option<real>)

  datatype Move = Up | Down | Still | Unknown

  const CHANGE := "change_pct"

  function MoveOf(rt: Runtime, row: Row): Move {
    var n := Numeric(rt, Get(row, CHANGE));
    if n.None? then Unknown else if n.value > 0.0 then Up else if n.value < 0.0 then Down else Still
  }

  /** The positions at which the rows move a given way. */
  function Moving(rt: Runtime, rows: seq<Row>, m: Move): set<int> {
    set i | 0 <= i < |rows| && MoveOf(rt, rows[i]) == m
  }

  /** How many rows move a given way. */
  function Movers(rt: Runtime, rows: seq<Row>, m: Move): nat { |Moving(rt, rows, m)| }

  function Ratio(part: nat, usable: nat): Option<real> {
    if usable == 0 then None else Some(part as real / usable as real)
  }

  /** `_breadth`: how many matching rows rose, fell, stood still or had no number, and what share of those with a
      number rose and fell. */
  function BreadthOf(rt: Runtime, matched: seq<Row>): Breadth {
    var positive, negative, flat := Movers(rt, matched, Up), Movers(rt, matched, Down), Movers(rt, matched, Still);
    var usable := positive + negative + flat;
    Breadth(|matched|, positive, negative, flat, Movers(rt, matched, Unknown),
            Ratio(positive, usable), Ratio(negative, usable))
  }

  lemma MoversNext(rt: Runtime, rows: seq<Row>, row: Row, m: Move)
    ensures Movers(rt, rows + [row], m) == Movers(rt, rows, m) + if MoveOf(rt, row) == m then 1 else 0
  {
    var all := rows + [row];
    if MoveOf(rt, row) == m { assert Moving(rt, all, m) == Moving(rt, rows, m) + {|rows|}; }
    else { assert Moving(rt, all, m) == Moving(rt, rows, m); }
  }

  lemma EveryMoverNext(rt: Runtime, filter: Filter, rows: seq<Row>, n: nat)
    requires n < |rows|
    ensures forall m :: Movers(rt, Filtered(filter, rows[..n + 1]), m) == Movers(rt, Filtered(filter, rows[..n]), m)
                        + if Matches(filter, rows[n]) && MoveOf(rt, rows[n]) == m then 1 else 0
  {
    FilteredNext(filter, rows, n);
    forall m { MoversNext(rt, Filtered(filter, rows[..n]), rows[n], m); }
  }

  /** `_stream_breadth`. */
  method StreamBreadth(rt: Runtime, filter: Filter, rows: seq<Row>) returns (r: Result<Breadth, Denied>)
    ensures r == if ValidFilter(filter) then Ok(BreadthOf(rt, Filtered(filter, rows))) else Err(InvalidWindow)
  {
    if !ValidFilter(filter) { return Err(InvalidWindow); }
    var positive, negative, flat, missing, count := 0, 0, 0, 0, 0;
    for n := 0 to |rows|
      invariant count == |Filtered(filter, rows[..n])|
      invariant positive == Movers(rt, Filtered(filter, rows[..n]), Up)
      invariant negative == Movers(rt, Filtered(filter, rows[..n]), Down)
      invariant flat == Movers(rt, Filtered(filter, rows[..n]), Still)
      invariant missing == Movers(rt, Filtered(filter, rows[..n]), Unknown)
    {
      FilteredNext(filter, rows, n);
      EveryMoverNext(rt, filter, rows, n);
      if Matches(filter, rows[n]) {
        count := count + 1;
        var number := Numeric(rt, Get(rows[n], CHANGE));
        if number.None? { missing := missing + 1; }
        else if number.value > 0.0 { positive := positive + 1; }
        else if number.value < 0.0 { negative := negative + 1; }
        else { flat := flat + 1; }
      }
    }
    assert rows[..|rows|] == rows;
    var usable := positive + negative + flat;
    return Ok(Breadth(count, positive, negative, flat, missing,
      if usable > 0 then Some(positive as real / usable as real) else None,
      if usable > 0 then Some(negative as real / usable as real) else None));
  }

  /** Every matching row is counted once, and the two shares together never exceed the whole. */
  lemma {:induction false} BreadthAdds(rt: Runtime, matched: seq<Row>)
    ensures var b := BreadthOf(rt, matched);
            && b.positive + b.negative + b.flat + b.missing == b.count
            && (b.advance.Some? <==> b.missing < b.count) && (b.decline.Some? <==> b.missing < b.count)
            && (b.advance.Some? ==>
                  0.0 <= b.advance.value && 0.0 <= b.decline.value && b.advance.value + b.decline.value <= 1.0)
  {
    MoversAdd(rt, matched);
    var b := BreadthOf(rt, matched);
    if b.missing < b.count { SharesAdd(b.positive, b.negative, b.positive + b.negative + b.flat); }
  }

  lemma SharesAdd(a: nat, b: nat, whole: nat)
    requires 0 < whole && a + b <= whole
    ensures 0.0 <= a as real / whole as real && 0.0 <= b as real / whole as real
    ensures a as real / whole as real + b as real / whole as real <= 1.0
  {
    var x, y, w := a as real / whole as real, b as real / whole as real, whole as real;
    assert x * w == a as real && y * w == b as real;
    Distributes(x, y, w);
    if x + y > 1.0 { ScaledUp(x + y, w); }
  }

  lemma Distributes(x: real, y: real, w: real)
    ensures (x + y) * w == x * w + y * w
  {}

  lemma {:induction false} MoversAdd(rt: Runtime, rows: seq<Row>)
    ensures Movers(rt, rows, Up) + Movers(rt, rows, Down) + Movers(rt, rows, Still) + Movers(rt, rows, Unknown)
            == |rows|
  {
    if rows == [] {
      assert forall m :: Moving(rt, [], m) == {};
    } else {
      var front, row := rows[..|rows| - 1], rows[|rows| - 1];
      MoversAdd(rt, front);
      assert rows == front + [row];
      MoversNext(rt, front, row, Up);
      MoversNext(rt, front, row, Down);
      MoversNext(rt, front, row, Still);
      MoversNext(rt, front, row, Unknown);
    }
  }

  // ---------------------------------------------------------------- window comparison

  datatype WindowQuery = WindowQuery(
    base: Filter, field: string, metric: Metric,
    currentStart: string, currentEnd: string, previousStart: string, previousEnd: string)

  datatype Side = Side(cell: Cell, sessions: nat, first: Option<string>, last: Option<string>)

  datatype Issue = NoIssue | MissingNumbers | UnequalSessions

  datatype Comparison = Comparison(current: Side, previous: Side, delta: Option<real>, issue: Issue)

  predicate ValidWindows(q: WindowQuery) {
    && IsDate(q.currentStart) && IsDate(q.currentEnd) && IsDate(q.previousStart) && IsDate(q.previousEnd)
    && StrLe(q.currentStart, q.currentEnd) && StrLe(q.previousStart, q.previousEnd)
  }

  predicate Dated(row: Row) { Get(row, "trade_date").Text? && IsDate(Get(row, "trade_date").text) }

  function DatesIn(rows: seq<Row>): set<string> {
    set i | 0 <= i < |rows| && Get(rows[i], "trade_date").Text? :: Get(rows[i], "trade_date").text
  }

  function FieldValues(field: string, rows: seq<Row>): seq<Value> {
    seq(|rows|, i requires 0 <= i < |rows| => Get(rows[i], field))
  }

  /** A window's cell with its observed sessions: how many, the first and the last. */
  ghost function Observed(cell: Cell, dates: set<string>): Side {
    var keys := SortedKeys(dates);
    if keys == [] then Side(cell, |dates|, None, None) else Side(cell, |dates|, Some(keys[0]), Some(keys[|keys| - 1]))
  }

  ghost function SideOf(rt: Runtime, q: WindowQuery, rows: seq<Row>): Side {
    Observed(CellOf(rt, FieldValues(q.field, rows), q.metric), DatesIn(rows))
  }

  /** `_window_comparison`: no difference is claimed for missing numbers, nor for sums over unequal sessions. */
  function Compare(metric: Metric, current: Side, previous: Side): Comparison {
    if current.cell.value.None? || previous.cell.value.None? then Comparison(current, previous, None, MissingNumbers)
    else if metric.Sum? && current.sessions != previous.sessions
    then Comparison(current, previous, None, UnequalSessions)
    else Comparison(current, previous, Some(current.cell.value.value - previous.cell.value.value), NoIssue)
  }

  function Windowed(base: Filter, start: string, end: string): Filter { base.(start := Some(start), end := Some(end)) }

  /** `_window_compare`: each window replaces whatever dates the request filters by. */
  ghost function MemoryWindow(rt: Runtime, q: WindowQuery, rows: seq<Row>): Result<Comparison, Denied> {
    if !ValidWindows(q) then Err(InvalidWindow)
    else
      Ok(Compare(q.metric,
        SideOf(rt, q, Filtered(Windowed(q.base, q.currentStart, q.currentEnd), rows)),
        SideOf(rt, q, Filtered(Windowed(q.base, q.previousStart, q.previousEnd), rows))))
  }

  predicate Falls(base: Filter, start: string, end: string, row: Row) {
    Matches(base, row) && Dated(row) && InWindow(Get(row, "trade_date").text, start, end)
  }

  /** The rows a pass adds to one window: matching the request's own filter, dated, and inside the window. */
  function Seen(base: Filter, start: string, end: string, rows: seq<Row>): seq<Row> {
    if rows == [] then []
    else
      var front, row := Seen(base, start, end, rows[..|rows| - 1]), rows[|rows| - 1];
      if Falls(base, start, end, row) then front + [row] else front
  }

  /** `_stream_window_compare` as a function of the rows it reads. */
  ghost function StreamWindowOf(rt: Runtime, q: WindowQuery, rows: seq<Row>): Result<Comparison, Denied> {
    if !ValidWindows(q) || !ValidFilter(q.base) then Err(InvalidWindow)
    else
      Ok(Compare(q.metric,
        SideOf(rt, q, Seen(q.base, q.currentStart, q.currentEnd, rows)),
        SideOf(rt, q, Seen(q.base, q.previousStart, q.previousEnd, rows))))
  }

  /** What one window of the pass has accumulated. */
  predicate WindowTracks(rt: Runtime, q: WindowQuery, state: MetricState, dates: set<string>, seen: seq<Row>)
    reads state
  {
    state.Shows(rt, FieldValues(q.field, seen), !q.metric.Count?) && dates == DatesIn(seen)
  }

  predicate SpoolHolds(rt: Runtime, q: WindowQuery, table: seq<(string, real)>, key: string, seen: seq<Row>) {
    q.metric.Median? ==> Under(table, key) == Numbers(rt, FieldValues(q.field, seen))
  }

  lemma SeenNext(base: Filter, start: string, end: string, rows: seq<Row>, n: nat)
    requires n < |rows|
    ensures Seen(base, start, end, rows[..n + 1])
            == if Falls(base, start, end, rows[n])
               then Seen(base, start, end, rows[..n]) + [rows[n]] else Seen(base, start, end, rows[..n])
  {
    assert rows[..n + 1][..n] == rows[..n];
  }

  lemma DatesNext(seen: seq<Row>, row: Row)
    requires Dated(row)
    ensures DatesIn(seen + [row]) == DatesIn(seen) + {Get(row, "trade_date").text}
  {
    var all := seen + [row];
    forall d | d in DatesIn(all) ensures d in DatesIn(seen) + {Get(row, "trade_date").text} {
      var i :| 0 <= i < |all| && Get(all[i], "trade_date") == Text(d);
      if i < |seen| { assert seen[i] == all[i]; }
    }
    forall d | d in DatesIn(seen) ensures d in DatesIn(all) {
      var i :| 0 <= i < |seen| && Get(seen[i], "trade_date") == Text(d);
      assert all[i] == seen[i];
    }
    assert all[|seen|] == row;
  }

  /** Add one row to one window. */
  method AddToWindow(rt: Runtime, q: WindowQuery, state: MetricState, spool: MedianSpool, key: string, row: Row,
      dates: set<string>, ghost seen: seq<Row>)
      returns (grown: set<string>)
    requires Dated(row) && WindowTracks(rt, q, state, dates, seen) && SpoolHolds(rt, q, spool.table, key, seen)
    modifies state, spool
    ensures WindowTracks(rt, q, state, grown, seen + [row]) && SpoolHolds(rt, q, spool.table, key, seen + [row])
    ensures forall other :: other != key ==> Under(spool.table, other) == Under(old(spool.table), other)
  {
    DatesNext(seen, row);
    assert FieldValues(q.field, seen + [row]) == FieldValues(q.field, seen) + [Get(row, q.field)];
    grown := dates + {Get(row, "trade_date").text};
    var number := state.Add(rt, Get(row, q.field), !q.metric.Count?, FieldValues(q.field, seen));
    NumbersNext(rt, FieldValues(q.field, seen), Get(row, q.field));
    if q.metric.Median? && number.Some? {
      ghost var table := spool.table;
      spool.Add(key, number.value);
      assert spool.table[..|spool.table| - 1] == table;
    }
  }

  /** Offer the row at position `n` to one window. */
  method OfferToWindow(rt: Runtime, q: WindowQuery, start: string, end: string, state: MetricState,
      spool: MedianSpool, key: string,
      dates: set<string>, rows: seq<Row>, n: nat)
      returns (grown: set<string>)
    requires n < |rows|
    requires WindowTracks(rt, q, state, dates, Seen(q.base, start, end, rows[..n]))
    requires SpoolHolds(rt, q, spool.table, key, Seen(q.base, start, end, rows[..n]))
    modifies state, spool
    ensures WindowTracks(rt, q, state, grown, Seen(q.base, start, end, rows[..n + 1]))
    ensures SpoolHolds(rt, q, spool.table, key, Seen(q.base, start, end, rows[..n + 1]))
    ensures forall other :: other != key ==> Under(spool.table, other) == Under(old(spool.table), other)
  {
    SeenNext(q.base, start, end, rows, n);
    if !Falls(q.base, start, end, rows[n]) { return dates; }
    grown := AddToWindow(rt, q, state, spool, key, rows[n], dates, Seen(q.base, start, end, rows[..n]));
  }

  method Summarize(rt: Runtime, q: WindowQuery, state: MetricState, spool: MedianSpool, key: string,
      dates: set<string>, ghost seen: seq<Row>)
      returns (side: Side)
    requires WindowTracks(rt, q, state, dates, seen) && SpoolHolds(rt, q, spool.table, key, seen)
    ensures side == SideOf(rt, q, seen)
  {
    var cell := CellFrom(rt, q.metric, state, spool, key, FieldValues(q.field, seen));
    var keys := SortKeys(dates);
    return if keys == [] then Side(cell, |dates|, None, None)
           else Side(cell, |dates|, Some(keys[0]), Some(keys[|keys| - 1]));
  }

  /** One pass over the rows; a row may fall into both windows. */
  method ScanWindows(rt: Runtime, q: WindowQuery, rows: seq<Row>, current: MetricState, previous: MetricState,
      spool: MedianSpool)
      returns (currentDates: set<string>, previousDates: set<string>)
    requires current != previous && spool.table == []
    requires current.Shows(rt, [], !q.metric.Count?) && previous.Shows(rt, [], !q.metric.Count?)
    modifies current, previous, spool
    ensures WindowTracks(rt, q, current, currentDates, Seen(q.base, q.currentStart, q.currentEnd, rows))
    ensures SpoolHolds(rt, q, spool.table, "current", Seen(q.base, q.currentStart, q.currentEnd, rows))
    ensures WindowTracks(rt, q, previous, previousDates, Seen(q.base, q.previousStart, q.previousEnd, rows))
    ensures SpoolHolds(rt, q, spool.table, "previous", Seen(q.base, q.previousStart, q.previousEnd, rows))
  {
    currentDates, previousDates := {}, {};
    for n := 0 to |rows|
      invariant WindowTracks(rt, q, current, currentDates, Seen(q.base, q.currentStart, q.currentEnd, rows[..n]))
      invariant SpoolHolds(rt, q, spool.table, "current", Seen(q.base, q.currentStart, q.currentEnd, rows[..n]))
      invariant WindowTracks(rt, q, previous, previousDates, Seen(q.base, q.previousStart, q.previousEnd, rows[..n]))
      invariant SpoolHolds(rt, q, spool.table, "previous", Seen(q.base, q.previousStart, q.previousEnd, rows[..n]))
    {
      currentDates :=
        OfferToWindow(rt, q, q.currentStart, q.currentEnd, current, spool, "current", currentDates, rows, n);
      previousDates :=
        OfferToWindow(rt, q, q.previousStart, q.previousEnd, previous, spool, "previous", previousDates, rows, n);
    }
    assert rows[..|rows|] == rows;
  }

  /** `_stream_window_compare`. */
  method StreamWindowCompare(rt: Runtime, q: WindowQuery, rows: seq<Row>) returns (r: Result<Comparison, Denied>)
    ensures r == StreamWindowOf(rt, q, rows)
  {
    if !ValidWindows(q) || !ValidFilter(q.base) { return Err(InvalidWindow); }
    var current := new MetricState();
    var previous := new MetricState();
    var spool := new MedianSpool();
    var currentDates, previousDates := ScanWindows(rt, q, rows, current, previous, spool);
    ghost var seen := Seen(q.base, q.currentStart, q.currentEnd, rows);
    ghost var before := Seen(q.base, q.previousStart, q.previousEnd, rows);
    var currentSide := Summarize(rt, q, current, spool, "current", currentDates, seen);
    var previousSide := Summarize(rt, q, previous, spool, "previous", previousDates, before);
    return Ok(Compare(q.metric, currentSide, previousSide));
  }

  // ---------------------------------------------------------------- when the two forms agree

  /** The request's own dates, if any, contain both windows. */
  predicate Covers(q: WindowQuery) {
    && (q.base.start.Some? ==> StrLe(q.base.start.value, q.currentStart) && StrLe(q.base.start.value, q.previousStart))
    && (q.base.end.Some? ==> StrLe(q.currentEnd, q.base.end.value) && StrLe(q.previousEnd, q.base.end.value))
  }

  lemma {:induction false} SeenIsFiltered(base: Filter, start: string, end: string, rows: seq<Row>)
    requires base.codes == Some({}) ||
             ((base.start.Some? ==> StrLe(base.start.value, start)) && (base.end.Some? ==> StrLe(end, base.end.value)))
    ensures Seen(base, start, end, rows) == Filtered(Windowed(base, start, end), rows)
  {
    if rows != [] {
      SeenIsFiltered(base, start, end, rows[..|rows| - 1]);
      var row := rows[|rows| - 1];
      if Dated(row) && InWindow(Get(row, "trade_date").text, start, end) {
        if base.start.Some? && StrLe(base.start.value, start) {
          StrLeTransitive(base.start.value, start, Get(row, "trade_date").text);
        }
        if base.end.Some? && StrLe(end, base.end.value) {
          StrLeTransitive(Get(row, "trade_date").text, end, base.end.value);
        }
      }
    }
  }

  /** A row on an edge of a window that the request's own dates shut out: one form sees it, the other does not. */
  lemma ShutOut(base: Filter, start: string, end: string, d: string, code: string) returns (w: Row)
    requires base.field.None? && (base.codes.Some? ==> code in base.codes.value)
    requires IsDate(d) && InWindow(d, start, end)
    requires (base.start.Some? && !StrLe(base.start.value, d)) || (base.end.Some? && !StrLe(d, base.end.value))
    ensures Seen(base, start, end, [w]) == [] && Filtered(Windowed(base, start, end), [w]) == [w]
  {
    w := map["trade_date" := Text(d), "code" := Text(code)];
    assert !Matches(base, w) && Matches(Windowed(base, start, end), w);
    assert [w][..0] == [];
  }

  ghost predicate AlwaysAgree(rt: Runtime, q: WindowQuery) {
    forall rows :: StreamWindowOf(rt, q, rows) == MemoryWindow(rt, q, rows)
  }

  lemma CountsTell(rt: Runtime, q: WindowQuery, rows: seq<Row>)
    requires ValidWindows(q) && ValidFilter(q.base)
    requires StreamWindowOf(rt, q, rows) == MemoryWindow(rt, q, rows)
    ensures |Seen(q.base, q.currentStart, q.currentEnd, rows)|
            == |Filtered(Windowed(q.base, q.currentStart, q.currentEnd), rows)|
    ensures |Seen(q.base, q.previousStart, q.previousEnd, rows)|
            == |Filtered(Windowed(q.base, q.previousStart, q.previousEnd), rows)|
  {
    SidesCompared(q.metric,
      SideOf(rt, q, Seen(q.base, q.currentStart, q.currentEnd, rows)),
      SideOf(rt, q, Seen(q.base, q.previousStart, q.previousEnd, rows)));
    SidesCompared(q.metric,
      SideOf(rt, q, Filtered(Windowed(q.base, q.currentStart, q.currentEnd), rows)),
      SideOf(rt, q, Filtered(Windowed(q.base, q.previousStart, q.previousEnd), rows)));
    SideCount(rt, q, Seen(q.base, q.currentStart, q.currentEnd, rows));
    SideCount(rt, q, Seen(q.base, q.previousStart, q.previousEnd, rows));
    SideCount(rt, q, Filtered(Windowed(q.base, q.currentStart, q.currentEnd), rows));
    SideCount(rt, q, Filtered(Windowed(q.base, q.previousStart, q.previousEnd), rows));
  }

  lemma SidesCompared(metric: Metric, current: Side, previous: Side)
    ensures Compare(metric, current, previous).current == current
    ensures Compare(metric, current, previous).previous == previous
  {}

  lemma SideCount(rt: Runtime, q: WindowQuery, rows: seq<Row>)
    ensures SideOf(rt, q, rows).cell.count == |rows|
  {}

  /** Some row tells the two forms apart when the request's own dates do not contain both windows. */
  lemma DisagreeSomewhere(rt: Runtime, q: WindowQuery)
    requires q.base.field.None? && ValidWindows(q) && ValidFilter(q.base) && q.base.codes != Some({}) && !Covers(q)
    ensures !AlwaysAgree(rt, q)
  {
    var code: string := "";
    if q.base.codes.Some? && q.base.codes.value != {} { code :| code in q.base.codes.value; }
    StrLeTotal(q.currentStart, q.currentStart);
    StrLeTotal(q.currentEnd, q.currentEnd);
    StrLeTotal(q.previousStart, q.previousStart);
    StrLeTotal(q.previousEnd, q.previousEnd);
    var w: Row;
    if q.base.start.Some? && !StrLe(q.base.start.value, q.currentStart) {
      w := ShutOut(q.base, q.currentStart, q.currentEnd, q.currentStart, code);
    } else if q.base.end.Some? && !StrLe(q.currentEnd, q.base.end.value) {
      w := ShutOut(q.base, q.currentStart, q.currentEnd, q.currentEnd, code);
    } else if q.base.start.Some? && !StrLe(q.base.start.value, q.previousStart) {
      w := ShutOut(q.base, q.previousStart, q.previousEnd, q.previousStart, code);
    } else {
      w := ShutOut(q.base, q.previousStart, q.previousEnd, q.previousEnd, code);
    }
    if StreamWindowOf(rt, q, [w]) == MemoryWindow(rt, q, [w]) { CountsTell(rt, q, [w]); }
  }

  /** A malformed date of the request's own refuses every streamed comparison; the in-memory form never reads it. */
  lemma MalformedDateRefused(rt: Runtime, q: WindowQuery, rows: seq<Row>)
    requires ValidWindows(q)
    requires (q.base.start.Some? && !IsDate(q.base.start.value)) || (q.base.end.Some? && !IsDate(q.base.end.value))
    ensures StreamWindowOf(rt, q, rows).Err? && MemoryWindow(rt, q, rows).Ok?
  {}

  /** A concrete one: the empty text comes before every date, so it contains both windows and still is no date. */
  lemma EmptyStartDisagrees(rt: Runtime, q: WindowQuery)
    requires ValidWindows(q) && q.base.start == Some("") && q.base.end.None?
    ensures Covers(q) && !AlwaysAgree(rt, q)
  {
    assert StreamWindowOf(rt, q, []) != MemoryWindow(rt, q, []);
  }

  /** The two forms of a window comparison agree on every product exactly when the request's own dates are dates, in
      order, and contain both windows, or its code list is empty and they are dates in order. */
  lemma WindowsAgree(rt: Runtime, q: WindowQuery)
    requires q.base.field.None?
    ensures AlwaysAgree(rt, q) <==>
            !ValidWindows(q) || (ValidFilter(q.base) && (q.base.codes == Some({}) || Covers(q)))
  {
    if ValidWindows(q) {
      if !ValidFilter(q.base) { assert StreamWindowOf(rt, q, []) != MemoryWindow(rt, q, []); }
      else if q.base.codes == Some({}) || Covers(q) {
        forall rows ensures StreamWindowOf(rt, q, rows) == MemoryWindow(rt, q, rows) {
          SeenIsFiltered(q.base, q.currentStart, q.currentEnd, rows);
          SeenIsFiltered(q.base, q.previousStart, q.previousEnd, rows);
        }
      } else {
        DisagreeSomewhere(rt, q);
      }
    }
  }
}
