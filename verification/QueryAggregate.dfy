/** Aggregation and grouping in one pass against filter, group and fold. */
module QueryAggregate {
  import opened Prelude
  import opened QueryRows
  import opened QueryMetrics

  datatype AggregateQuery = AggregateQuery(
    filter: Filter, metric: Metric, valueField: Option<string>, groupBy: Option<string>)

  datatype Answer = Single(cell: Cell) | Groups(groups: seq<(string, Cell)>)

  /** Encoded lengths of one group and of the answer without groups. */
  datatype Sizes = Sizes(group: (string, Cell) -> nat, header: nat)

  datatype Budget = Budget(maxGroups: Option<int>, remainingBytes: Option<int>)

  /** The group of a row: a missing, list or object key belongs to none. */
  function GroupKey(rt: Runtime, q: AggregateQuery, row: Row): Option<string> {
    if q.groupBy.None? then Some("")
    else
      var raw := Get(row, q.groupBy.value);
      if raw.Null? || raw.Composite? then None else Some(rt.str(raw))
  }

  function ValueOf(q: AggregateQuery, row: Row): Value {
    if q.valueField.Some? then Get(row, q.valueField.value) else Null
  }

  // ---------------------------------------------------------------- the list form

  function InGroup(rt: Runtime, q: AggregateQuery, rows: seq<Row>, key: string): seq<Row> {
    if rows == [] then []
    else
      var front, row := InGroup(rt, q, rows[..|rows| - 1], key), rows[|rows| - 1];
      if GroupKey(rt, q, row) == Some(key) then front + [row] else front
  }

  function ValuesOf(q: AggregateQuery, rows: seq<Row>): seq<Value> {
    seq(|rows|, i requires 0 <= i < |rows| => ValueOf(q, rows[i]))
  }

  function KeysIn(rt: Runtime, q: AggregateQuery, rows: seq<Row>): set<string> {
    set i | 0 <= i < |rows| && GroupKey(rt, q, rows[i]).Some? :: GroupKey(rt, q, rows[i]).value
  }

  function GroupCell(rt: Runtime, q: AggregateQuery, rows: seq<Row>, key: string): (string, Cell) {
    (key, CellOf(rt, ValuesOf(q, InGroup(rt, q, rows, key)), q.metric))
  }

  /** The groups of the matched rows, in key order. */
  ghost function AllCells(rt: Runtime, q: AggregateQuery, matched: seq<Row>): seq<(string, Cell)> {
    var keys := SortedKeys(KeysIn(rt, q, matched));
    seq(|keys|, i requires 0 <= i < |keys| => GroupCell(rt, q, matched, keys[i]))
  }

  /** `_aggregate`: filter, then one cell for everything or one per group in key order. */
  ghost function MemoryAggregate(rt: Runtime, q: AggregateQuery, rows: seq<Row>): Result<Answer, Denied> {
    if !ValidFilter(q.filter) then Err(InvalidWindow)
    else
      var matched := Filtered(q.filter, rows);
      if !q.metric.Count? && q.valueField.None? && (q.groupBy.None? || KeysIn(rt, q, matched) != {})
      then Err(NoValueField)
      else if q.groupBy.None? then Ok(Single(CellOf(rt, ValuesOf(q, matched), q.metric)))
      else Ok(Groups(AllCells(rt, q, matched)))
  }

  // ---------------------------------------------------------------- the one-pass form, as a function of the rows

  /** What the pass has taken in: the values of every group so far, and the bytes charged for group state. */
  datatype Intake = Intake(groups: map<string, seq<Value>>, bytes: nat)

  function TakeIn(rt: Runtime, q: AggregateQuery, s: Intake, row: Row, b: Budget): Result<Intake, Denied> {
    var key := GroupKey(rt, q, row);
    if key.None? then Ok(s)
    else if q.groupBy.Some? && rt.bytes(key.value) > 256 then Err(LongKey)
    else if key.value in s.groups
    then Ok(s.(groups := s.groups[key.value := s.groups[key.value] + [ValueOf(q, row)]]))
    else if q.groupBy.Some? && Exceeds(|s.groups| + 1, b.maxGroups) then Err(RowBudget)
    else
      var projected := s.bytes + rt.bytes(key.value) + 512;
      if q.groupBy.Some? && Exceeds(projected, b.remainingBytes) then Err(ByteBudget)
      else Ok(Intake(s.groups[key.value := [ValueOf(q, row)]], projected))
  }

  function TakeAll(rt: Runtime, q: AggregateQuery, matched: seq<Row>, b: Budget): Result<Intake, Denied> {
    if matched == [] then Ok(Intake(map[], 0))
    else
      var s := TakeAll(rt, q, matched[..|matched| - 1], b);
      if s.Err? then s else TakeIn(rt, q, s.value, matched[|matched| - 1], b)
  }

  /** Encoded length of a grouped answer. */
  function EncodedGroups(sizes: Sizes, groups: seq<(string, Cell)>): nat {
    if groups == [] then sizes.header
    else
      var last := groups[|groups| - 1];
      EncodedGroups(sizes, groups[..|groups| - 1]) + sizes.group(last.0, last.1) + (if |groups| > 1 then 1 else 0)
  }

  function Cells(rt: Runtime, q: AggregateQuery, groups: map<string, seq<Value>>,
      keys: seq<string>): seq<(string, Cell)>
    requires forall k :: k in keys ==> k in groups
  {
    seq(|keys|, i requires 0 <= i < |keys| => (keys[i], CellOf(rt, groups[keys[i]], q.metric)))
  }

  /** The grouped answer, refused when it does not fit the bytes left. */
  function Finished(sizes: Sizes, b: Budget, cells: seq<(string, Cell)>): Result<Answer, Denied> {
    if cells != [] && Exceeds(EncodedGroups(sizes, cells), b.remainingBytes) then Err(ByteBudget) else Ok(Groups(cells))
  }

  /** The answer once every row is taken in. */
  ghost function Concluded(rt: Runtime, q: AggregateQuery, s: Intake, b: Budget, sizes: Sizes): Result<Answer, Denied> {
    if q.groupBy.None? then Ok(Single(CellOf(rt, if "" in s.groups then s.groups[""] else [], q.metric)))
    else
      var keys := SortedKeys(s.groups.Keys);
      SortedKeysMeans(s.groups.Keys);
      Finished(sizes, b, Cells(rt, q, s.groups, keys))
  }

  /** `_stream_aggregate` as a function of the rows it reads. */
  ghost function StreamAggregateOf(rt: Runtime, q: AggregateQuery, rows: seq<Row>, b: Budget,
      sizes: Sizes): Result<Answer, Denied>
  {
    if !q.metric.Count? && q.valueField.None? then Err(NoValueField)
    else if !ValidFilter(q.filter) then Err(InvalidWindow)
    else
      var s := TakeAll(rt, q, Filtered(q.filter, rows), b);
      if s.Err? then Err(s.error) else Concluded(rt, q, s.value, b, sizes)
  }

  // ---------------------------------------------------------------- the two forms agree

  lemma InGroupNext(rt: Runtime, q: AggregateQuery, matched: seq<Row>, key: string)
    requires matched != []
    ensures var front, row := matched[..|matched| - 1], matched[|matched| - 1];
            ValuesOf(q, InGroup(rt, q, matched, key))
            == ValuesOf(q, InGroup(rt, q, front, key))
               + (if GroupKey(rt, q, row) == Some(key) then [ValueOf(q, row)] else [])
  {}

  lemma KeysNext(rt: Runtime, q: AggregateQuery, matched: seq<Row>)
    requires matched != []
    ensures var front, key := matched[..|matched| - 1], GroupKey(rt, q, matched[|matched| - 1]);
            KeysIn(rt, q, matched) == KeysIn(rt, q, front) + (if key.Some? then {key.value} else {})
  {
    var front, row := matched[..|matched| - 1], matched[|matched| - 1];
    var all := KeysIn(rt, q, matched);
    forall k | k in all ensures k in KeysIn(rt, q, front) || GroupKey(rt, q, row) == Some(k) {
      var i :| 0 <= i < |matched| && GroupKey(rt, q, matched[i]) == Some(k);
      if i < |front| { assert front[i] == matched[i]; }
    }
    forall k | k in KeysIn(rt, q, front) ensures k in all {
      var i :| 0 <= i < |front| && GroupKey(rt, q, front[i]) == Some(k);
      assert matched[i] == front[i];
    }
    if GroupKey(rt, q, row).Some? { assert matched[|matched| - 1] == row; }
  }

  /** A row taken in adds its value to its group and to no other. */
  lemma TakenIn(rt: Runtime, q: AggregateQuery, s: Intake, row: Row, b: Budget)
    requires TakeIn(rt, q, s, row, b).Ok?
    ensures var key, groups := GroupKey(rt, q, row), TakeIn(rt, q, s, row, b).value.groups;
            && groups.Keys == s.groups.Keys + (if key.Some? then {key.value} else {})
            && forall k :: k in groups ==>
                 groups[k] == (if k in s.groups then s.groups[k] else [])
                              + (if key == Some(k) then [ValueOf(q, row)] else [])
  {}

  /** An intake that was not refused holds exactly the groups of the matched rows. */
  lemma {:induction false} IntakeGroups(rt: Runtime, q: AggregateQuery, matched: seq<Row>, b: Budget)
    requires TakeAll(rt, q, matched, b).Ok?
    ensures var s := TakeAll(rt, q, matched, b).value;
            && s.groups.Keys == KeysIn(rt, q, matched)
            && forall k :: k in s.groups ==> s.groups[k] == ValuesOf(q, InGroup(rt, q, matched, k))
  {
    if matched != [] {
      var front, row := matched[..|matched| - 1], matched[|matched| - 1];
      IntakeGroups(rt, q, front, b);
      KeysNext(rt, q, matched);
      TakenIn(rt, q, TakeAll(rt, q, front, b).value, row, b);
      var s := TakeAll(rt, q, matched, b).value;
      forall k | k in s.groups ensures s.groups[k] == ValuesOf(q, InGroup(rt, q, matched, k)) {
        InGroupNext(rt, q, matched, k);
        if k !in KeysIn(rt, q, front) { NoneInGroup(rt, q, front, k); }
      }
    }
  }

  lemma {:induction false} NoneInGroup(rt: Runtime, q: AggregateQuery, rows: seq<Row>, key: string)
    requires key !in KeysIn(rt, q, rows)
    ensures InGroup(rt, q, rows, key) == []
  {
    if rows != [] {
      KeysNext(rt, q, rows);
      NoneInGroup(rt, q, rows[..|rows| - 1], key);
    }
  }

  lemma {:induction false} AllInGroup(rt: Runtime, q: AggregateQuery, rows: seq<Row>)
    requires q.groupBy.None?
    ensures InGroup(rt, q, rows, "") == rows
  {
    if rows != [] { AllInGroup(rt, q, rows[..|rows| - 1]); }
  }

  /** Whenever the one pass is not refused, it answers what filtering, grouping and folding answers. */
  lemma AggregateRefines(rt: Runtime, q: AggregateQuery, rows: seq<Row>, b: Budget, sizes: Sizes)
    requires StreamAggregateOf(rt, q, rows, b, sizes).Ok?
    ensures StreamAggregateOf(rt, q, rows, b, sizes) == MemoryAggregate(rt, q, rows)
  {
    var matched := Filtered(q.filter, rows);
    var s := TakeAll(rt, q, matched, b).value;
    IntakeGroups(rt, q, matched, b);
    if q.groupBy.None? {
      AllInGroup(rt, q, matched);
      if "" !in s.groups { NoneInGroup(rt, q, matched, ""); }
    } else {
      SortedKeysMeans(s.groups.Keys);
      CellsOfGroups(rt, q, matched, s.groups, SortedKeys(s.groups.Keys));
    }
  }

  lemma CellsOfGroups(rt: Runtime, q: AggregateQuery, matched: seq<Row>, groups: map<string, seq<Value>>,
      keys: seq<string>)
    requires forall k :: k in keys ==> k in groups && groups[k] == ValuesOf(q, InGroup(rt, q, matched, k))
    ensures Cells(rt, q, groups, keys) == seq(|keys|, i requires 0 <= i < |keys| => GroupCell(rt, q, matched, keys[i]))
  {}

  predicate ShortKey(rt: Runtime, key: Option<string>) { key.Some? ==> rt.bytes(key.value) <= 256 }

  /** Without limits only a key too long for group state, or a missing value field, is refused. */
  lemma {:induction false} IntakeUnlimited(rt: Runtime, q: AggregateQuery, matched: seq<Row>)
    requires q.groupBy.Some? ==> forall i :: 0 <= i < |matched| ==> ShortKey(rt, GroupKey(rt, q, matched[i]))
    ensures TakeAll(rt, q, matched, Budget(None, None)).Ok?
  {
    if matched != [] {
      var front := matched[..|matched| - 1];
      if q.groupBy.Some? {
        forall i | 0 <= i < |front| ensures ShortKey(rt, GroupKey(rt, q, front[i])) { assert matched[i] == front[i]; }
      }
      IntakeUnlimited(rt, q, front);
    }
  }

  // ---------------------------------------------------------------- when the pass refuses

  /** What group state is charged for a set of keys. */
  ghost function StateBytes(rt: Runtime, keys: set<string>): nat {
    if keys == {} then 0
    else
      var k :| k in keys;
      rt.bytes(k) + 512 + StateBytes(rt, keys - {k})
  }

  lemma {:induction false} StateBytesWithout(rt: Runtime, keys: set<string>, k: string)
    requires k in keys
    ensures StateBytes(rt, keys) == rt.bytes(k) + 512 + StateBytes(rt, keys - {k})
    decreases |keys|
  {
    var c :| c in keys && StateBytes(rt, keys) == rt.bytes(c) + 512 + StateBytes(rt, keys - {c});
    if c != k {
      StateBytesWithout(rt, keys - {c}, k);
      StateBytesWithout(rt, keys - {k}, c);
      assert keys - {c} - {k} == keys - {k} - {c};
    }
  }

  /** Some matched row has a key too long for group state. */
  predicate LongKeyIn(rt: Runtime, q: AggregateQuery, matched: seq<Row>) {
    exists i :: 0 <= i < |matched| && !ShortKey(rt, GroupKey(rt, q, matched[i]))
  }

  /** The groups are too many, or their state is too large. */
  ghost predicate StateExceeds(rt: Runtime, keys: set<string>, b: Budget) {
    keys != {} && (Exceeds(|keys|, b.maxGroups) || Exceeds(StateBytes(rt, keys), b.remainingBytes))
  }

  lemma StateGrows(rt: Runtime, keys: set<string>, k: string, b: Budget)
    ensures |keys + {k}| == |keys| + (if k in keys then 0 else 1)
    ensures StateBytes(rt, keys + {k}) == StateBytes(rt, keys) + (if k in keys then 0 else rt.bytes(k) + 512)
    ensures StateExceeds(rt, keys, b) ==> StateExceeds(rt, keys + {k}, b)
  {
    if k in keys { assert keys + {k} == keys; } else { NewKeyCharged(rt, keys, k); }
  }

  lemma NewKeyCharged(rt: Runtime, keys: set<string>, k: string)
    requires k !in keys
    ensures |keys + {k}| == |keys| + 1 && StateBytes(rt, keys + {k}) == StateBytes(rt, keys) + rt.bytes(k) + 512
  {
    StateBytesWithout(rt, keys + {k}, k);
    assert keys + {k} - {k} == keys;
  }

  /** An intake that was not refused is charged the state of its groups. */
  lemma {:induction false} IntakeCharged(rt: Runtime, q: AggregateQuery, matched: seq<Row>, b: Budget)
    requires TakeAll(rt, q, matched, b).Ok?
    ensures var s := TakeAll(rt, q, matched, b).value;
            s.groups.Keys == KeysIn(rt, q, matched) && |s.groups| == |s.groups.Keys|
            && s.bytes == StateBytes(rt, s.groups.Keys)
  {
    IntakeGroups(rt, q, matched, b);
    if matched != [] {
      var front, key := matched[..|matched| - 1], GroupKey(rt, q, matched[|matched| - 1]);
      IntakeCharged(rt, q, front, b);
      KeysNext(rt, q, matched);
      if key.Some? { StateGrows(rt, KeysIn(rt, q, front), key.value, b); }
    }
  }

  lemma LongKeyNext(rt: Runtime, q: AggregateQuery, matched: seq<Row>)
    requires matched != []
    ensures LongKeyIn(rt, q, matched) <==>
            || LongKeyIn(rt, q, matched[..|matched| - 1])
            || !ShortKey(rt, GroupKey(rt, q, matched[|matched| - 1]))
  {
    var front := matched[..|matched| - 1];
    if i :| 0 <= i < |front| && !ShortKey(rt, GroupKey(rt, q, front[i])) { assert matched[i] == front[i]; }
    if i :| 0 <= i < |matched| && !ShortKey(rt, GroupKey(rt, q, matched[i])) {
      if i < |front| { assert front[i] == matched[i]; }
    }
  }

  /** One row is refused exactly when its key is too long, or opens a group that does not fit any more. */
  lemma RowRefusal(rt: Runtime, q: AggregateQuery, s: Intake, row: Row, b: Budget)
    requires q.groupBy.Some? && s.bytes == StateBytes(rt, s.groups.Keys) && !StateExceeds(rt, s.groups.Keys, b)
    ensures var key := GroupKey(rt, q, row);
            TakeIn(rt, q, s, row, b).Err? <==>
            !ShortKey(rt, key) || (key.Some? && StateExceeds(rt, s.groups.Keys + {key.value}, b))
  {
    var key := GroupKey(rt, q, row);
    if key.Some? {
      StateGrows(rt, s.groups.Keys, key.value, b);
      if key.value in s.groups { assert s.groups.Keys + {key.value} == s.groups.Keys; }
      assert |s.groups| == |s.groups.Keys|;
    }
  }

  /** The intake refuses exactly for a key that is too long, too many groups or too much group state. */
  lemma {:induction false} IntakeRefusal(rt: Runtime, q: AggregateQuery, matched: seq<Row>, b: Budget)
    requires q.groupBy.Some?
    ensures TakeAll(rt, q, matched, b).Err? <==>
            LongKeyIn(rt, q, matched) || StateExceeds(rt, KeysIn(rt, q, matched), b)
  {
    if matched != [] {
      var front, row := matched[..|matched| - 1], matched[|matched| - 1];
      var key := GroupKey(rt, q, row);
      IntakeRefusal(rt, q, front, b);
      LongKeyNext(rt, q, matched);
      KeysNext(rt, q, matched);
      if key.Some? { StateGrows(rt, KeysIn(rt, q, front), key.value, b); }
      if TakeAll(rt, q, front, b).Ok? {
        IntakeCharged(rt, q, front, b);
        RowRefusal(rt, q, TakeAll(rt, q, front, b).value, row, b);
      }
    }
  }

  lemma {:induction false} SingleNeverRefused(rt: Runtime, q: AggregateQuery, matched: seq<Row>, b: Budget)
    requires q.groupBy.None?
    ensures TakeAll(rt, q, matched, b).Ok?
  {
    if matched != [] { SingleNeverRefused(rt, q, matched[..|matched| - 1], b); }
  }

  /** A grouped pass over the matched rows goes over some limit. */
  ghost predicate GroupsExceed(rt: Runtime, q: AggregateQuery, matched: seq<Row>, b: Budget, sizes: Sizes) {
    || LongKeyIn(rt, q, matched)
    || StateExceeds(rt, KeysIn(rt, q, matched), b)
    || (KeysIn(rt, q, matched) != {} && Exceeds(EncodedGroups(sizes, AllCells(rt, q, matched)), b.remainingBytes))
  }

  /** The one pass refuses exactly a missing value field, a malformed filter, or a grouped answer with a key over
      256 bytes, too many groups, too much group state or too long an encoding. */
  lemma AggregateRefusal(rt: Runtime, q: AggregateQuery, rows: seq<Row>, b: Budget, sizes: Sizes)
    ensures StreamAggregateOf(rt, q, rows, b, sizes).Err? <==>
            || (!q.metric.Count? && q.valueField.None?)
            || !ValidFilter(q.filter)
            || (q.groupBy.Some? && GroupsExceed(rt, q, Filtered(q.filter, rows), b, sizes))
  {
    var matched := Filtered(q.filter, rows);
    if q.groupBy.None? { SingleNeverRefused(rt, q, matched, b); }
    else {
      IntakeRefusal(rt, q, matched, b);
      if TakeAll(rt, q, matched, b).Ok? { ConcludedCells(rt, q, matched, b, sizes); }
    }
  }

  lemma ConcludedCells(rt: Runtime, q: AggregateQuery, matched: seq<Row>, b: Budget, sizes: Sizes)
    requires q.groupBy.Some? && TakeAll(rt, q, matched, b).Ok?
    ensures Concluded(rt, q, TakeAll(rt, q, matched, b).value, b, sizes) == Finished(sizes, b, AllCells(rt, q, matched))
    ensures AllCells(rt, q, matched) == [] <==> KeysIn(rt, q, matched) == {}
  {
    var s := TakeAll(rt, q, matched, b).value;
    IntakeGroups(rt, q, matched, b);
    SortedKeysMeans(s.groups.Keys);
    SortedKeysLength(s.groups.Keys);
    CellsOfGroups(rt, q, matched, s.groups, SortedKeys(s.groups.Keys));
  }

  /** A grouped answer that is returned fits the byte budget. */
  lemma AggregateWithinBytes(rt: Runtime, q: AggregateQuery, rows: seq<Row>, b: Budget, sizes: Sizes)
    requires q.groupBy.Some? && StreamAggregateOf(rt, q, rows, b, sizes).Ok?
    ensures var groups := StreamAggregateOf(rt, q, rows, b, sizes).value.groups;
            && (groups != [] ==> !Exceeds(EncodedGroups(sizes, groups), b.remainingBytes))
            && !Exceeds(|groups|, if b.maxGroups.Some? && b.maxGroups.value < 0 then Some(0) else b.maxGroups)
  {
    IntakeCounted(rt, q, Filtered(q.filter, rows), b);
    var s := TakeAll(rt, q, Filtered(q.filter, rows), b).value;
    SortedKeysLength(s.groups.Keys);
  }

  lemma {:induction false} SortedKeysLength(s: set<string>)
    ensures |SortedKeys(s)| == |s|
    decreases |s|
  {
    if s != {} {
      LeastExists(s);
      var m :| Least(s, m) && SortedKeys(s) == [m] + SortedKeys(s - {m});
      SortedKeysLength(s - {m});
    }
  }

  lemma {:induction false} IntakeCounted(rt: Runtime, q: AggregateQuery, matched: seq<Row>, b: Budget)
    requires q.groupBy.Some? && TakeAll(rt, q, matched, b).Ok?
    ensures var n := |TakeAll(rt, q, matched, b).value.groups|; n > 0 ==> !Exceeds(n, b.maxGroups)
  {
    if matched != [] {
      var front := TakeAll(rt, q, matched[..|matched| - 1], b).value;
      IntakeCounted(rt, q, matched[..|matched| - 1], b);
      var key := GroupKey(rt, q, matched[|matched| - 1]);
      if key.Some? {
        var grown := TakeAll(rt, q, matched, b).value.groups;
        assert grown.Keys == front.groups.Keys + {key.value};
        assert |grown| == |grown.Keys| && |front.groups| == |front.groups.Keys|;
      }
    }
  }
}
