/** The one-pass aggregation as it runs: a dictionary of metric states, a value spool and two byte counters. */
module QueryAggregateStream {
  import opened Prelude
  import opened QueryRows
  import opened QueryMetrics
  import opened QueryAggregate

  /** Every group has its state, in an object of its own. */
  predicate StatesTrack(rt: Runtime, numeric: bool, groups: map<string, MetricState>, seen: map<string, seq<Value>>)
    reads groups.Values
  {
    && groups.Keys == seen.Keys
    && (forall k :: k in groups ==> groups[k].Shows(rt, seen[k], numeric))
    && (forall k, l :: k in groups && l in groups && k != l ==> groups[k] != groups[l])
  }

  /** The spool holds the numbers of every group and of nothing else. */
  predicate SpoolTracks(rt: Runtime, table: seq<(string, real)>, seen: map<string, seq<Value>>) {
    && (forall k :: k in seen ==> Under(table, k) == Numbers(rt, seen[k]))
    && (forall k :: k in UsedKeys(table) ==> k in seen)
  }

  /** For medians the spool is kept. */
  predicate SpoolKept(rt: Runtime, metric: Metric, table: seq<(string, real)>, seen: map<string, seq<Value>>) {
    metric.Median? ==> SpoolTracks(rt, table, seen)
  }

  function UsedKeys(table: seq<(string, real)>): set<string> { set i | 0 <= i < |table| :: table[i].0 }

  lemma {:induction false} UnusedEmpty(table: seq<(string, real)>, key: string)
    requires key !in UsedKeys(table)
    ensures Under(table, key) == []
  {
    if table != [] {
      assert table[|table| - 1].0 in UsedKeys(table);
      forall k | k in UsedKeys(table[..|table| - 1]) ensures k in UsedKeys(table) {
        var i :| 0 <= i < |table| - 1 && table[..|table| - 1][i].0 == k;
        assert table[i].0 == k;
      }
      UnusedEmpty(table[..|table| - 1], key);
    }
  }

  lemma TakeAllAppend(rt: Runtime, q: AggregateQuery, front: seq<Row>, row: Row, b: Budget)
    ensures var s := TakeAll(rt, q, front, b);
            TakeAll(rt, q, front + [row], b) == if s.Err? then s else TakeIn(rt, q, s.value, row, b)
  {
    assert (front + [row])[..|front|] == front;
  }

  lemma TakeAllNext(rt: Runtime, q: AggregateQuery, rows: seq<Row>, n: nat, b: Budget)
    requires n < |rows|
    ensures var s := TakeAll(rt, q, Filtered(q.filter, rows[..n]), b);
            TakeAll(rt, q, Filtered(q.filter, rows[..n + 1]), b)
            == if s.Ok? && Matches(q.filter, rows[n]) then TakeIn(rt, q, s.value, rows[n], b) else s
  {
    FilteredNext(q.filter, rows, n);
    if Matches(q.filter, rows[n]) { TakeAllAppend(rt, q, Filtered(q.filter, rows[..n]), rows[n], b); }
  }

  lemma {:induction false} RefusalStays(rt: Runtime, q: AggregateQuery, rows: seq<Row>, n: nat, b: Budget)
    requires n <= |rows| && TakeAll(rt, q, Filtered(q.filter, rows[..n]), b).Err?
    ensures TakeAll(rt, q, Filtered(q.filter, rows), b) == TakeAll(rt, q, Filtered(q.filter, rows[..n]), b)
    decreases |rows| - n
  {
    if n == |rows| { assert rows[..n] == rows; }
    else {
      TakeAllNext(rt, q, rows, n, b);
      RefusalStays(rt, q, rows, n + 1, b);
    }
  }

  /** Open a group: a fresh state that has seen nothing. */
  method OpenGroup(rt: Runtime, metric: Metric, groups: map<string, MetricState>, key: string,
      ghost seen: map<string, seq<Value>>)
      returns (states: map<string, MetricState>)
    requires StatesTrack(rt, !metric.Count?, groups, seen) && key !in groups
    ensures StatesTrack(rt, !metric.Count?, states, seen[key := []])
    ensures states.Keys == groups.Keys + {key}
    ensures forall k :: k in states ==> states[k] in groups.Values || fresh(states[k])
  {
    var state := new MetricState();
    states := groups[key := state];
  }

  lemma SpoolOpens(rt: Runtime, metric: Metric, table: seq<(string, real)>, key: string, seen: map<string, seq<Value>>)
    requires SpoolKept(rt, metric, table, seen) && key !in seen
    ensures SpoolKept(rt, metric, table, seen[key := []])
  {
    if metric.Median? { UnusedEmpty(table, key); }
  }

  method AddToState(rt: Runtime, numeric: bool, groups: map<string, MetricState>, key: string, value: Value,
      ghost seen: map<string, seq<Value>>)
      returns (number: Option<real>)
    requires StatesTrack(rt, numeric, groups, seen) && key in groups
    modifies groups[key]
    ensures StatesTrack(rt, numeric, groups, seen[key := seen[key] + [value]])
    ensures number == if numeric then Numeric(rt, value) else None
  {
    number := groups[key].Add(rt, value, numeric, seen[key]);
  }

  lemma SpoolGrows(rt: Runtime, table: seq<(string, real)>, grown: seq<(string, real)>, key: string, value: Value,
      seen: map<string, seq<Value>>)
    requires SpoolTracks(rt, table, seen) && key in seen
    requires grown == if Numeric(rt, value).Some? then table + [(key, Numeric(rt, value).value)] else table
    ensures SpoolTracks(rt, grown, seen[key := seen[key] + [value]])
  {
    SpoolKeys(table, grown, key);
    NumbersNext(rt, seen[key], value);
    if Numeric(rt, value).Some? {
      forall k | k in seen ensures Under(grown, k) == Numbers(rt, seen[key := seen[key] + [value]][k]) {
        UnderNext(table, key, Numeric(rt, value).value, k);
      }
    }
  }

  lemma UnderNext(table: seq<(string, real)>, key: string, number: real, k: string)
    ensures Under(table + [(key, number)], k) == if k == key then Under(table, k) + [number] else Under(table, k)
  {
    assert (table + [(key, number)])[..|table|] == table;
  }

  /** Add one value to the state of its group and, for medians, its number to the spool. */
  method AddValue(rt: Runtime, metric: Metric, groups: map<string, MetricState>, spool: MedianSpool, key: string,
      value: Value,
      ghost seen: map<string, seq<Value>>)
    requires key in groups && StatesTrack(rt, !metric.Count?, groups, seen) && SpoolKept(rt, metric, spool.table, seen)
    modifies groups[key], spool
    ensures StatesTrack(rt, !metric.Count?, groups, seen[key := seen[key] + [value]])
    ensures SpoolKept(rt, metric, spool.table, seen[key := seen[key] + [value]])
  {
    var number := AddToState(rt, !metric.Count?, groups, key, value, seen);
    AddToSpool(rt, metric, spool, key, value, number, seen);
  }

  method AddToSpool(rt: Runtime, metric: Metric, spool: MedianSpool, key: string, value: Value, number: Option<real>,
      ghost seen: map<string, seq<Value>>)
    requires key in seen && SpoolKept(rt, metric, spool.table, seen)
    requires number == if metric.Count? then None else Numeric(rt, value)
    modifies spool
    ensures SpoolKept(rt, metric, spool.table, seen[key := seen[key] + [value]])
  {
    if metric.Median? {
      ghost var table := spool.table;
      if number.Some? { spool.Add(key, number.value); }
      SpoolGrows(rt, table, spool.table, key, value, seen);
    }
  }

  /** The first value of a group. */
  method AddFirst(rt: Runtime, metric: Metric, groups: map<string, MetricState>, spool: MedianSpool, key: string,
      value: Value,
      ghost seen: map<string, seq<Value>>)
      returns (states: map<string, MetricState>)
    requires key !in groups && StatesTrack(rt, !metric.Count?, groups, seen) && SpoolKept(rt, metric, spool.table, seen)
    modifies groups.Values, spool
    ensures StatesTrack(rt, !metric.Count?, states, seen[key := [value]])
    ensures SpoolKept(rt, metric, spool.table, seen[key := [value]])
    ensures forall k :: k in states ==> states[k] in groups.Values || fresh(states[k])
  {
    states := OpenGroup(rt, metric, groups, key, seen);
    SpoolOpens(rt, metric, spool.table, key, seen);
    AddValue(rt, metric, states, spool, key, value, seen[key := []]);
    FirstValue(seen, key, value);
  }

  lemma FirstValue(seen: map<string, seq<Value>>, key: string, value: Value)
    ensures var begun := seen[key := []]; begun[key := begun[key] + [value]] == seen[key := [value]]
  {
    assert [] + [value] == [value];
  }

  /** One matched row: find or open its group, then add its value. */
  method TakeRow(rt: Runtime, q: AggregateQuery, groups: map<string, MetricState>, bytes: nat, spool: MedianSpool,
      row: Row,
      b: Budget, ghost s: Intake)
      returns (r: Result<(map<string, MetricState>, nat), Denied>)
    requires StatesTrack(rt, !q.metric.Count?, groups, s.groups) && SpoolKept(rt, q.metric, spool.table, s.groups)
    requires bytes == s.bytes
    modifies groups.Values, spool
    ensures r.Err? ==> TakeIn(rt, q, s, row, b) == Err(r.error)
    ensures r.Ok? ==>
      && TakeIn(rt, q, s, row, b).Ok? && r.value.1 == TakeIn(rt, q, s, row, b).value.bytes
      && StatesTrack(rt, !q.metric.Count?, r.value.0, TakeIn(rt, q, s, row, b).value.groups)
      && SpoolKept(rt, q.metric, spool.table, TakeIn(rt, q, s, row, b).value.groups)
      && forall k :: k in r.value.0 ==> r.value.0[k] in groups.Values || fresh(r.value.0[k])
  {
    var key := GroupKey(rt, q, row);
    if key.None? { return Ok((groups, bytes)); }
    if q.groupBy.Some? && rt.bytes(key.value) > 256 { return Err(LongKey); }
    if key.value in groups {
      AddValue(rt, q.metric, groups, spool, key.value, ValueOf(q, row), s.groups);
      return Ok((groups, bytes));
    }
    assert |groups| == |groups.Keys| == |s.groups.Keys| == |s.groups|;
    if q.groupBy.Some? && Exceeds(|groups| + 1, b.maxGroups) { return Err(RowBudget); }
    var projected := bytes + rt.bytes(key.value) + 512;
    if q.groupBy.Some? && Exceeds(projected, b.remainingBytes) { return Err(ByteBudget); }
    var states := AddFirst(rt, q.metric, groups, spool, key.value, ValueOf(q, row), s.groups);
    return Ok((states, projected));
  }

  lemma SpoolKeys(table: seq<(string, real)>, grown: seq<(string, real)>, key: string)
    requires grown == table || (|grown| == |table| + 1 && grown[..|table|] == table && grown[|table|].0 == key)
    ensures forall k :: k in UsedKeys(grown) ==> k in UsedKeys(table) || k == key
  {
    forall k | k in UsedKeys(grown) ensures k in UsedKeys(table) || k == key {
      var i :| 0 <= i < |grown| && grown[i].0 == k;
      if i < |table| { assert table[i] == grown[..|table|][i]; }
    }
  }

  /** `sorted(keys)`: take the least key until none is left. */
  method SortKeys(s: set<string>) returns (keys: seq<string>)
    ensures keys == SortedKeys(s)
  {
    keys := [];
    var rest := s;
    while rest != {}
      invariant keys + SortedKeys(rest) == SortedKeys(s)
      decreases rest
    {
      LeastExists(rest);
      var m :| m in rest && Least(rest, m);
      ghost var first :| Least(rest, first) && SortedKeys(rest) == [first] + SortedKeys(rest - {first});
      LeastUnique(rest, m, first);
      keys := keys + [m];
      rest := rest - {m};
    }
  }

  /** `_stream_aggregate`. */
  method StreamAggregate(rt: Runtime, q: AggregateQuery, rows: seq<Row>, b: Budget, sizes: Sizes)
      returns (r: Result<Answer, Denied>)
    ensures r == StreamAggregateOf(rt, q, rows, b, sizes)
  {
    if !q.metric.Count? && q.valueField.None? { return Err(NoValueField); }
    if !ValidFilter(q.filter) { return Err(InvalidWindow); }
    var groups: map<string, MetricState> := map[];
    var bytes := 0;
    var spool := new MedianSpool();
    ghost var s := Intake(map[], 0);
    for n := 0 to |rows|
      invariant TakeAll(rt, q, Filtered(q.filter, rows[..n]), b) == Ok(s) && bytes == s.bytes
      invariant StatesTrack(rt, !q.metric.Count?, groups, s.groups) && SpoolKept(rt, q.metric, spool.table, s.groups)
      invariant fresh(spool) && forall k :: k in groups ==> fresh(groups[k])
    {
      TakeAllNext(rt, q, rows, n, b);
      if Matches(q.filter, rows[n]) {
        var taken := TakeRow(rt, q, groups, bytes, spool, rows[n], b, s);
        if taken.Err? {
          RefusalStays(rt, q, rows, n + 1, b);
          return Err(taken.error);
        }
        groups, bytes := taken.value.0, taken.value.1;
        s := TakeIn(rt, q, s, rows[n], b).value;
      }
    }
    assert rows[..|rows|] == rows;
    r := Finish(rt, q, groups, spool, b, sizes, s);
  }

  /** What the pass returns once every row is taken in. */
  method Finish(rt: Runtime, q: AggregateQuery, groups: map<string, MetricState>, spool: MedianSpool, b: Budget,
      sizes: Sizes, ghost s: Intake)
      returns (r: Result<Answer, Denied>)
    requires StatesTrack(rt, !q.metric.Count?, groups, s.groups) && SpoolKept(rt, q.metric, spool.table, s.groups)
    ensures r == Concluded(rt, q, s, b, sizes)
  {
    if q.groupBy.None? {
      if "" !in groups { return Ok(Single(CellOf(rt, [], q.metric))); }
      var cell := CellAt(rt, q.metric, groups, spool, "", s.groups);
      return Ok(Single(cell));
    }
    SortedKeysMeans(s.groups.Keys);
    var keys := SortKeys(groups.Keys);
    r := Output(rt, q, groups, spool, b, sizes, keys, s);
  }

  /** The finished cell of one state. */
  method CellFrom(rt: Runtime, metric: Metric, state: MetricState, spool: MedianSpool, key: string,
      ghost values: seq<Value>)
      returns (cell: Cell)
    requires state.Shows(rt, values, !metric.Count?)
    requires (metric.Median? ==> Under(spool.table, key) == Numbers(rt, values))
    ensures cell == CellOf(rt, values, metric)
  {
    var median := if metric.Median? then spool.Median(key, state.numericCount) else None;
    spool.MedianIsMedian(key);
    StateMatches(state, rt, values, metric, median);
    return Cell(state.count, state.Coverage(metric), state.Value(metric, median));
  }

  method CellAt(rt: Runtime, metric: Metric, groups: map<string, MetricState>, spool: MedianSpool, key: string,
      ghost seen: map<string, seq<Value>>)
      returns (cell: Cell)
    requires key in groups && StatesTrack(rt, !metric.Count?, groups, seen) && SpoolKept(rt, metric, spool.table, seen)
    ensures cell == CellOf(rt, seen[key], metric)
  {
    cell := CellFrom(rt, metric, groups[key], spool, key, seen[key]);
  }

  /** The groups in key order, each counted against the byte budget before it is added. */
  method Output(rt: Runtime, q: AggregateQuery, groups: map<string, MetricState>, spool: MedianSpool, b: Budget,
      sizes: Sizes,
      keys: seq<string>, ghost s: Intake)
      returns (r: Result<Answer, Denied>)
    requires StatesTrack(rt, !q.metric.Count?, groups, s.groups) && SpoolKept(rt, q.metric, spool.table, s.groups)
    requires forall k :: k in keys ==> k in groups
    ensures r == Finished(sizes, b, Cells(rt, q, s.groups, keys))
  {
    ghost var cells := Cells(rt, q, s.groups, keys);
    var output: seq<(string, Cell)> := [];
    var encoded := sizes.header;
    for n := 0 to |keys|
      invariant output == cells[..n] && encoded == EncodedGroups(sizes, output)
      invariant output != [] ==> !Exceeds(encoded, b.remainingBytes)
    {
      var cell := CellAt(rt, q.metric, groups, spool, keys[n], s.groups);
      EncodedNext(sizes, cells, n);
      encoded := encoded + sizes.group(keys[n], cell) + if output != [] then 1 else 0;
      if Exceeds(encoded, b.remainingBytes) {
        EncodedGrows(sizes, cells, n + 1);
        return Err(ByteBudget);
      }
      output := output + [(keys[n], cell)];
    }
    assert cells[..|keys|] == cells;
    return Ok(Groups(output));
  }

  lemma EncodedNext(sizes: Sizes, cells: seq<(string, Cell)>, n: nat)
    requires n < |cells|
    ensures cells[..n + 1] == cells[..n] + [cells[n]]
    ensures EncodedGroups(sizes, cells[..n + 1])
            == EncodedGroups(sizes, cells[..n]) + sizes.group(cells[n].0, cells[n].1) + if n > 0 then 1 else 0
  {
    assert cells[..n + 1][..n] == cells[..n];
  }

  lemma {:induction false} EncodedGrows(sizes: Sizes, cells: seq<(string, Cell)>, n: nat)
    requires n <= |cells|
    ensures EncodedGroups(sizes, cells[..n]) <= EncodedGroups(sizes, cells)
  {
    if n == |cells| { assert cells[..n] == cells; }
    else {
      EncodedGrows(sizes, cells[..|cells| - 1], n);
      assert cells[..|cells| - 1][..n] == cells[..n];
    }
  }
}
