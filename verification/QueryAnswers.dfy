/** What each query operation answers, told of the rows of the product alone. */
module QueryAnswers {
  import opened Prelude
  import opened TextOrder
  import opened QueryRows
  import opened QueryMetrics
  import opened QueryAggregate
  import opened QueryWindow
  import opened QueryBudget
  import opened QueryMeaning
  import opened QueryScalars

  // ---------------------------------------------------------------- picking rows

  ghost predicate PickedAt(rows: seq<Row>, places: set<int>, picked: seq<Row>, at: seq<int>) {
    && |at| == |picked|
    && (forall i, j :: 0 <= i < j < |at| ==> at[i] < at[j])
    && (forall i :: 0 <= i < |at| ==> 0 <= at[i] < |rows| && picked[i] == rows[at[i]])
    && (forall k :: k in at <==> k in places)
  }

  /** The rows at these places, in their order. */
  ghost predicate Picks(rows: seq<Row>, places: set<int>, picked: seq<Row>) {
    exists at :: PickedAt(rows, places, picked, at)
  }

  lemma PicksNext(rows: seq<Row>, places: set<int>, picked: seq<Row>)
    requires rows != [] && Picks(rows[..|rows| - 1], places - {|rows| - 1}, picked)
    ensures Picks(rows, places, if |rows| - 1 in places then picked + [rows[|rows| - 1]] else picked)
  {
    var n := |rows| - 1;
    var at :| PickedAt(rows[..n], places - {n}, picked, at);
    if n in places {
      assert PickedAt(rows, places, picked + [rows[n]], at + [n]);
    } else {
      assert places - {n} == places;
      assert PickedAt(rows, places, picked, at);
    }
  }

  lemma PicksNothing()
    ensures Picks([], {}, [])
  {
    assert PickedAt([], {}, [], []);
  }

  /** The places of the rows that are asked for. */
  function AskedPlaces(f: Filter, rows: seq<Row>): set<int> { set k | 0 <= k < |rows| && Asked(f, rows[k]) }

  lemma AskedFront(f: Filter, rows: seq<Row>)
    requires rows != []
    ensures AskedPlaces(f, rows[..|rows| - 1]) == AskedPlaces(f, rows) - {|rows| - 1}
    ensures |rows| - 1 in AskedPlaces(f, rows) <==> Matches(f, rows[|rows| - 1])
  {}

  /** Filtering picks exactly the rows that are asked for. */
  lemma {:induction false} FilterPicks(f: Filter, rows: seq<Row>)
    ensures Picks(rows, AskedPlaces(f, rows), Filtered(f, rows))
  {
    if rows == [] { PicksNothing(); assert AskedPlaces(f, rows) == {}; }
    else {
      var front := rows[..|rows| - 1];
      FilterPicks(f, front);
      AskedFront(f, rows);
      PicksNext(rows, AskedPlaces(f, rows), Filtered(f, front));
    }
  }

  /** The row's group: the text of a key that is neither missing nor a list or an object. */
  predicate HasKey(rt: Runtime, field: string, row: Row, key: string) {
    field in row && !row[field].Null? && !row[field].Composite? && rt.str(row[field]) == key
  }

  function KeyPlaces(rt: Runtime, field: string, rows: seq<Row>, key: string): set<int> {
    set k | 0 <= k < |rows| && HasKey(rt, field, rows[k], key)
  }

  lemma KeyFront(rt: Runtime, q: AggregateQuery, rows: seq<Row>, key: string)
    requires q.groupBy.Some? && rows != []
    ensures var field := q.groupBy.value;
            && KeyPlaces(rt, field, rows[..|rows| - 1], key) == KeyPlaces(rt, field, rows, key) - {|rows| - 1}
            && (|rows| - 1 in KeyPlaces(rt, field, rows, key) <==> GroupKey(rt, q, rows[|rows| - 1]) == Some(key))
  {}

  lemma {:induction false} GroupPicks(rt: Runtime, q: AggregateQuery, rows: seq<Row>, key: string)
    requires q.groupBy.Some?
    ensures Picks(rows, KeyPlaces(rt, q.groupBy.value, rows, key), InGroup(rt, q, rows, key))
  {
    var field := q.groupBy.value;
    if rows == [] { PicksNothing(); assert KeyPlaces(rt, field, rows, key) == {}; }
    else {
      var front := rows[..|rows| - 1];
      GroupPicks(rt, q, front, key);
      KeyFront(rt, q, rows, key);
      PicksNext(rows, KeyPlaces(rt, field, rows, key), InGroup(rt, q, front, key));
    }
  }

  /** The row has a well-formed date inside the window. */
  predicate Inside(start: string, end: string, row: Row) {
    && "trade_date" in row && row["trade_date"].Text? && IsDate(row["trade_date"].text)
    && StrLe(start, row["trade_date"].text) && StrLe(row["trade_date"].text, end)
  }

  function WindowPlaces(f: Filter, start: string, end: string, rows: seq<Row>): set<int> {
    set k | 0 <= k < |rows| && Asked(f, rows[k]) && Inside(start, end, rows[k])
  }

  lemma WindowFront(f: Filter, start: string, end: string, rows: seq<Row>)
    requires rows != []
    ensures WindowPlaces(f, start, end, rows[..|rows| - 1]) == WindowPlaces(f, start, end, rows) - {|rows| - 1}
    ensures |rows| - 1 in WindowPlaces(f, start, end, rows) <==> Falls(f, start, end, rows[|rows| - 1])
  {}

  /** A window of the pass sees exactly the rows inside it that are asked for. */
  lemma {:induction false} WindowPicks(f: Filter, start: string, end: string, rows: seq<Row>)
    ensures Picks(rows, WindowPlaces(f, start, end, rows), Seen(f, start, end, rows))
  {
    if rows == [] { PicksNothing(); assert WindowPlaces(f, start, end, rows) == {}; }
    else {
      var front := rows[..|rows| - 1];
      WindowPicks(f, start, end, front);
      WindowFront(f, start, end, rows);
      PicksNext(rows, WindowPlaces(f, start, end, rows), Seen(f, start, end, front));
    }
  }

  // ---------------------------------------------------------------- row operations

  /** Some row operations filter; the others take every row. */
  function Offered(q: RowsQuery, rows: seq<Row>): set<int> {
    set k | 0 <= k < |rows| && (q.filtered ==> Asked(q.filter, rows[k]))
  }

  /** An answered row operation skips the offset among the rows asked for and returns the rest up to the limit. */
  lemma RowsAnswered(rt: Runtime, q: RowsQuery, rows: seq<Row>, remainingRows: Option<int>, remainingBytes: Option<int>)
    requires StreamRowsOf(rt, q, rows, remainingRows, remainingBytes).Ok?
    ensures var answer := StreamRowsOf(rt, q, rows, remainingRows, remainingBytes).value;
            exists picked ::
              && Picks(rows, Offered(q, rows), picked)
              && |answer| == (var left := if |picked| <= q.offset then 0 else |picked| - q.offset;
                              if q.limit.Some? then Prelude.Min(q.limit.value, left) else left)
              && forall i :: 0 <= i < |answer| ==> q.offset + i < |picked| && answer[i] == picked[q.offset + i]
  {
    var picked := Filtered(Effective(q), rows);
    FilterPicks(Effective(q), rows);
    assert AskedPlaces(Effective(q), rows) == Offered(q, rows);
    EarlyRefusal(rt, q, rows, remainingRows, remainingBytes);
    SliceTakes(picked, q.offset, q.limit);
    assert Picks(rows, Offered(q, rows), picked);
  }

  // ---------------------------------------------------------------- cells

  /** The number a row has in the field, if any. */
  function Reading(rt: Runtime, field: Option<string>, row: Row): Option<real> {
    if field.Some? && field.value in row then Numeric(rt, row[field.value]) else None
  }

  predicate AllRead(rt: Runtime, field: Option<string>, rows: seq<Row>) {
    forall i :: 0 <= i < |rows| ==> Reading(rt, field, rows[i]).Some?
  }

  ghost predicate Readings(rt: Runtime, field: Option<string>, rows: seq<Row>, numbers: seq<real>) {
    |numbers| == |rows| && forall i :: 0 <= i < |rows| ==> Reading(rt, field, rows[i]) == Some(numbers[i])
  }

  function ReadPlaces(rt: Runtime, field: Option<string>, rows: seq<Row>): set<int> {
    set i | 0 <= i < |rows| && Reading(rt, field, rows[i]).Some?
  }

  /** A cell says of its rows how many they are, how many have a number when some have none, and the metric. */
  ghost predicate CellRight(rt: Runtime, metric: Metric, field: Option<string>, rows: seq<Row>, cell: Cell) {
    && cell.count == |rows|
    && (cell.coverage.None? <==> metric.Count? || AllRead(rt, field, rows))
    && (cell.coverage.Some? ==>
          && cell.coverage.value.0 == |ReadPlaces(rt, field, rows)|
          && cell.coverage.value.0 + cell.coverage.value.1 == |rows|)
    && (cell.value.Some? <==> metric.Count? || (rows != [] && AllRead(rt, field, rows)))
    && (metric.Count? ==> cell.value == Some(|rows| as real))
    && (cell.value.Some? && !metric.Count? ==>
          exists numbers :: Readings(rt, field, rows, numbers) && Measures(metric, |rows|, numbers, cell.value.value))
  }

  /** The values of a field over rows. */
  predicate Lists(field: Option<string>, rows: seq<Row>, values: seq<Value>) {
    && |values| == |rows|
    && forall i :: 0 <= i < |rows| ==>
         values[i] == if field.Some? && field.value in rows[i] then rows[i][field.value] else Null
  }

  lemma CellMeans(rt: Runtime, metric: Metric, field: Option<string>, rows: seq<Row>, values: seq<Value>)
    requires Lists(field, rows, values)
    ensures CellRight(rt, metric, field, rows, CellOf(rt, values, metric))
  {
    MetricMeans(rt, values, metric);
    CoverageMeans(rt, values, metric);
    assert forall i :: 0 <= i < |rows| ==> Numeric(rt, values[i]) == Reading(rt, field, rows[i]);
    assert (set i | 0 <= i < |values| && Numeric(rt, values[i]).Some?) == ReadPlaces(rt, field, rows);
    NumbersOf(rt, values);
    NumbersCounted(rt, values);
    if AllRead(rt, field, rows) { assert Readings(rt, field, rows, Numbers(rt, values)); }
  }

  // ---------------------------------------------------------------- aggregation

  /** The groups in ascending order of their keys, one for each key of the rows, each with the cell of its own rows. */
  ghost predicate GroupsRight(rt: Runtime, q: AggregateQuery, matched: seq<Row>, groups: seq<(string, Cell)>)
    requires q.groupBy.Some?
  {
    var field := q.groupBy.value;
    && (forall i, j :: 0 <= i < j < |groups| ==> StrLe(groups[i].0, groups[j].0) && groups[i].0 != groups[j].0)
    && (forall row, key :: row in matched && HasKey(rt, field, row, key) ==> HasGroup(groups, key))
    && (forall i :: 0 <= i < |groups| ==> GroupRight(rt, q, matched, groups[i]))
  }

  predicate HasGroup(groups: seq<(string, Cell)>, key: string) {
    exists i :: 0 <= i < |groups| && groups[i].0 == key
  }

  ghost predicate GroupRight(rt: Runtime, q: AggregateQuery, matched: seq<Row>, group: (string, Cell))
    requires q.groupBy.Some?
  {
    exists members :: MadeOf(rt, q, matched, group, members)
  }

  /** The group consists of these rows, and its cell is right for them. */
  ghost predicate MadeOf(rt: Runtime, q: AggregateQuery, matched: seq<Row>, group: (string, Cell), members: seq<Row>)
    requires q.groupBy.Some?
  {
    && members != [] && Picks(matched, KeyPlaces(rt, q.groupBy.value, matched, group.0), members)
    && CellRight(rt, q.metric, q.valueField, members, group.1)
  }

  /** One cell for all rows asked for, or one for each of their groups. */
  ghost predicate AggregateRight(rt: Runtime, q: AggregateQuery, rows: seq<Row>, matched: seq<Row>, answer: Answer) {
    && Picks(rows, AskedPlaces(q.filter, rows), matched)
    && match answer
       case Single(cell) => q.groupBy.None? && CellRight(rt, q.metric, q.valueField, matched, cell)
       case Groups(groups) => q.groupBy.Some? && GroupsRight(rt, q, matched, groups)
  }

  lemma InGroupSome(rt: Runtime, q: AggregateQuery, rows: seq<Row>, key: string)
    requires q.groupBy.Some? && key in KeysIn(rt, q, rows)
    ensures InGroup(rt, q, rows, key) != []
  {
    var k :| 0 <= k < |rows| && GroupKey(rt, q, rows[k]) == Some(key);
    GroupPicks(rt, q, rows, key);
    var at :| PickedAt(rows, KeyPlaces(rt, q.groupBy.value, rows, key), InGroup(rt, q, rows, key), at);
    assert k in KeyPlaces(rt, q.groupBy.value, rows, key);
    assert k in at;
  }

  lemma EveryKeyGrouped(rt: Runtime, q: AggregateQuery, matched: seq<Row>, row: Row, key: string)
    requires q.groupBy.Some? && row in matched && HasKey(rt, q.groupBy.value, row, key)
    ensures HasGroup(AllCells(rt, q, matched), key)
  {
    var keys := SortedKeys(KeysIn(rt, q, matched));
    SortedKeysMeans(KeysIn(rt, q, matched));
    var k :| 0 <= k < |matched| && matched[k] == row;
    assert GroupKey(rt, q, matched[k]) == Some(key);
    assert key in keys;
    var i :| 0 <= i < |keys| && keys[i] == key;
    assert AllCells(rt, q, matched)[i].0 == key;
  }

  lemma EveryGroupRight(rt: Runtime, q: AggregateQuery, matched: seq<Row>, key: string)
    requires q.groupBy.Some? && key in KeysIn(rt, q, matched)
    ensures GroupRight(rt, q, matched, GroupCell(rt, q, matched, key))
  {
    var members := InGroup(rt, q, matched, key);
    InGroupSome(rt, q, matched, key);
    GroupPicks(rt, q, matched, key);
    CellMeans(rt, q.metric, q.valueField, members, ValuesOf(q, members));
    assert MadeOf(rt, q, matched, GroupCell(rt, q, matched, key), members);
  }

  lemma KeyOrder(rt: Runtime, q: AggregateQuery, matched: seq<Row>)
    ensures var groups := AllCells(rt, q, matched);
            && (forall i, j :: 0 <= i < j < |groups| ==> StrLe(groups[i].0, groups[j].0) && groups[i].0 != groups[j].0)
            && (forall i :: 0 <= i < |groups| ==>
                  groups[i].0 in KeysIn(rt, q, matched) && groups[i] == GroupCell(rt, q, matched, groups[i].0))
  {
    var keys, groups := SortedKeys(KeysIn(rt, q, matched)), AllCells(rt, q, matched);
    SortedKeysMeans(KeysIn(rt, q, matched));
    forall i | 0 <= i < |groups| ensures groups[i].0 == keys[i] && keys[i] in KeysIn(rt, q, matched) {
      assert keys[i] in keys;
    }
  }

  lemma CellsRight(rt: Runtime, q: AggregateQuery, matched: seq<Row>)
    requires q.groupBy.Some?
    ensures GroupsRight(rt, q, matched, AllCells(rt, q, matched))
  {
    var groups := AllCells(rt, q, matched);
    KeyOrder(rt, q, matched);
    forall row, key | row in matched && HasKey(rt, q.groupBy.value, row, key) ensures HasGroup(groups, key) {
      EveryKeyGrouped(rt, q, matched, row, key);
    }
    forall i | 0 <= i < |groups| ensures GroupRight(rt, q, matched, groups[i]) {
      EveryGroupRight(rt, q, matched, groups[i].0);
    }
  }

  /** An answered aggregation is right, in the list form and therefore in one pass. */
  lemma AggregateAnswered(rt: Runtime, q: AggregateQuery, rows: seq<Row>, b: Budget, sizes: Sizes)
    ensures MemoryAggregate(rt, q, rows).Ok? ==>
              exists matched :: AggregateRight(rt, q, rows, matched, MemoryAggregate(rt, q, rows).value)
    ensures StreamAggregateOf(rt, q, rows, b, sizes).Ok? ==>
              exists matched :: AggregateRight(rt, q, rows, matched, StreamAggregateOf(rt, q, rows, b, sizes).value)
  {
    if MemoryAggregate(rt, q, rows).Ok? {
      var matched := Filtered(q.filter, rows);
      FilterPicks(q.filter, rows);
      if q.groupBy.None? { CellMeans(rt, q.metric, q.valueField, matched, ValuesOf(q, matched)); }
      else { CellsRight(rt, q, matched); }
      assert AggregateRight(rt, q, rows, matched, MemoryAggregate(rt, q, rows).value);
    }
    if StreamAggregateOf(rt, q, rows, b, sizes).Ok? { AggregateRefines(rt, q, rows, b, sizes); }
  }

  /** The encoded length of groups is that of the surrounding text and of their texts with commas between. */
  lemma {:induction false} GroupsAsList(sizes: Sizes, groups: seq<(string, Cell)>, texts: seq<string>)
    requires |texts| == |groups|
    requires forall i :: 0 <= i < |groups| ==> |texts[i]| == sizes.group(groups[i].0, groups[i].1)
    ensures EncodedGroups(sizes, groups) == sizes.header + |Joined(texts)|
  {
    if groups != [] { GroupsAsList(sizes, groups[..|groups| - 1], texts[..|texts| - 1]); }
  }

  // ---------------------------------------------------------------- window comparison

  /** The trade dates of rows, as texts. */
  function Days(rows: seq<Row>): set<string> {
    set i | 0 <= i < |rows| && "trade_date" in rows[i] && rows[i]["trade_date"].Text? :: rows[i]["trade_date"].text
  }

  ghost predicate SideRight(rt: Runtime, q: WindowQuery, rows: seq<Row>, side: Side) {
    && CellRight(rt, q.metric, Some(q.field), rows, side.cell) && side.sessions == |Days(rows)|
    && (side.first.Some? <==> Days(rows) != {}) && (side.last.Some? <==> Days(rows) != {})
    && (side.first.Some? && side.last.Some? ==>
          && side.first.value in Days(rows) && side.last.value in Days(rows)
          && forall d :: d in Days(rows) ==> StrLe(side.first.value, d) && StrLe(d, side.last.value))
  }

  /** The difference leads from the earlier number to the later one; sums need equally many sessions. */
  predicate DifferenceRight(metric: Metric, c: Comparison) {
    && (c.delta.Some? <==>
          && c.current.cell.value.Some? && c.previous.cell.value.Some?
          && (metric.Sum? ==> c.current.sessions == c.previous.sessions))
    && (c.delta.Some? ==> c.previous.cell.value.value + c.delta.value == c.current.cell.value.value)
    && (c.issue.NoIssue? <==> c.delta.Some?)
    && (c.issue.MissingNumbers? <==> c.current.cell.value.None? || c.previous.cell.value.None?)
  }

  /** The comparison of the rows asked for by `current` inside the one window with those of `previous` in the other. */
  ghost predicate ComparisonRight(rt: Runtime, q: WindowQuery, base: Filter, rows: seq<Row>, current: seq<Row>,
      previous: seq<Row>, c: Comparison)
  {
    && Picks(rows, WindowPlaces(base, q.currentStart, q.currentEnd, rows), current)
    && Picks(rows, WindowPlaces(base, q.previousStart, q.previousEnd, rows), previous)
    && SideRight(rt, q, current, c.current) && SideRight(rt, q, previous, c.previous)
    && DifferenceRight(q.metric, c)
  }

  lemma SideAnswered(rt: Runtime, q: WindowQuery, rows: seq<Row>)
    ensures SideRight(rt, q, rows, SideOf(rt, q, rows))
  {
    SideMeans(rt, q, rows);
    CellMeans(rt, q.metric, Some(q.field), rows, FieldValues(q.field, rows));
    assert Days(rows) == DatesIn(rows);
  }

  /** The one pass compares the rows that the request's own filter lets through. */
  lemma StreamWindowAnswered(rt: Runtime, q: WindowQuery, rows: seq<Row>)
    requires StreamWindowOf(rt, q, rows).Ok?
    ensures exists current, previous ::
              ComparisonRight(rt, q, q.base, rows, current, previous, StreamWindowOf(rt, q, rows).value)
  {
    var current := Seen(q.base, q.currentStart, q.currentEnd, rows);
    var previous := Seen(q.base, q.previousStart, q.previousEnd, rows);
    WindowPicks(q.base, q.currentStart, q.currentEnd, rows);
    WindowPicks(q.base, q.previousStart, q.previousEnd, rows);
    SideAnswered(rt, q, current);
    SideAnswered(rt, q, previous);
    CompareMeans(q.metric, SideOf(rt, q, current), SideOf(rt, q, previous));
    assert ComparisonRight(rt, q, q.base, rows, current, previous, StreamWindowOf(rt, q, rows).value);
  }

  function Undated(f: Filter): Filter { f.(start := None, end := None) }

  lemma WindowedPlaces(base: Filter, start: string, end: string, rows: seq<Row>)
    ensures AskedPlaces(Windowed(base, start, end), rows) == WindowPlaces(Undated(base), start, end, rows)
  {}

  /** The in-memory form compares the rows of the windows whatever dates the request has besides. */
  lemma MemoryWindowAnswered(rt: Runtime, q: WindowQuery, rows: seq<Row>)
    requires MemoryWindow(rt, q, rows).Ok?
    ensures exists current, previous ::
              ComparisonRight(rt, q, Undated(q.base), rows, current, previous, MemoryWindow(rt, q, rows).value)
  {
    var current := Filtered(Windowed(q.base, q.currentStart, q.currentEnd), rows);
    var previous := Filtered(Windowed(q.base, q.previousStart, q.previousEnd), rows);
    FilterPicks(Windowed(q.base, q.currentStart, q.currentEnd), rows);
    FilterPicks(Windowed(q.base, q.previousStart, q.previousEnd), rows);
    WindowedPlaces(q.base, q.currentStart, q.currentEnd, rows);
    WindowedPlaces(q.base, q.previousStart, q.previousEnd, rows);
    SideAnswered(rt, q, current);
    SideAnswered(rt, q, previous);
    CompareMeans(q.metric, SideOf(rt, q, current), SideOf(rt, q, previous));
    assert ComparisonRight(rt, q, Undated(q.base), rows, current, previous, MemoryWindow(rt, q, rows).value);
  }
}
