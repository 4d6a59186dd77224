/** What slices, metrics, counts, sides and comparisons mean, in terms of the rows and numbers alone. */
module QueryMeaning {
  import opened Prelude
  import opened TextOrder
  import opened StableSort
  import opened QueryRows
  import opened QueryMetrics
  import opened QueryWindow
  import opened QueryBudget

  // ---------------------------------------------------------------- filters and slices

  /** The row has the field's value, one of the codes, and a date inside the window, as far as they are asked for. */
  predicate Asked(f: Filter, row: Row) {
    && (f.field.Some? ==> Same(if f.field.value.0 in row then row[f.field.value.0] else Null, f.field.value.1))
    && (f.codes.Some? ==> "code" in row && row["code"].Text? && row["code"].text in f.codes.value)
    && (f.start.Some? || f.end.Some? ==>
          "trade_date" in row && row["trade_date"].Text? && IsDate(row["trade_date"].text))
    && (f.start.Some? ==> StrLe(f.start.value, row["trade_date"].text))
    && (f.end.Some? ==> StrLe(row["trade_date"].text, f.end.value))
  }

  /** A slice skips the offset and then takes rows up to the limit. */
  lemma SliceTakes(rows: seq<Row>, offset: nat, limit: Option<nat>)
    ensures var s := Slice(rows, offset, limit);
            && |s| == (if |rows| <= offset then 0
                       else if limit.Some? then Prelude.Min(limit.value, |rows| - offset) else |rows| - offset)
            && forall i :: 0 <= i < |s| ==> offset + i < |rows| && s[i] == rows[offset + i]
  {}

  // ---------------------------------------------------------------- metrics

  predicate AllNumeric(rt: Runtime, values: seq<Value>) {
    forall i :: 0 <= i < |values| ==> Numeric(rt, values[i]).Some?
  }

  lemma {:induction false} NumbersOf(rt: Runtime, values: seq<Value>)
    ensures |Numbers(rt, values)| <= |values|
    ensures |Numbers(rt, values)| == |values| <==> AllNumeric(rt, values)
    ensures AllNumeric(rt, values) ==>
              forall i :: 0 <= i < |values| ==> Numeric(rt, values[i]) == Some(Numbers(rt, values)[i])
  {
    if values != [] {
      var front := values[..|values| - 1];
      NumbersOf(rt, front);
      if AllNumeric(rt, values) {
        forall i | 0 <= i < |front| ensures Numeric(rt, front[i]).Some? { assert front[i] == values[i]; }
      } else if AllNumeric(rt, front) {
        forall i | 0 <= i < |front| ensures Numeric(rt, values[i]).Some? { assert front[i] == values[i]; }
      }
    }
  }

  lemma {:induction false} TotalAdds(a: seq<real>, b: seq<real>)
    ensures Total(a + b) == Total(a) + Total(b)
    ensures forall x: real :: Total([x]) == x
  {
    forall x: real ensures Total([x]) == x { assert [x][..0] == []; }
    if b == [] { assert a + b == a; }
    else {
      assert (a + b)[..|a + b| - 1] == a + b[..|b| - 1];
      TotalAdds(a, b[..|b| - 1]);
    }
  }

  /** The sum of numbers, starting from the first. */
  function SumOf(s: seq<real>): real { if s == [] then 0.0 else s[0] + SumOf(s[1..]) }

  lemma {:induction false} TotalIsSum(s: seq<real>)
    ensures Total(s) == SumOf(s)
  {
    if s != [] {
      TotalIsSum(s[1..]);
      TotalAdds([s[0]], s[1..]);
      assert s == [s[0]] + s[1..];
    }
  }

  /** `r` lists the same numbers from the lowest to the highest. */
  ghost predicate Ordered(s: seq<real>, r: seq<real>) {
    multiset(r) == multiset(s) && forall i, j :: 0 <= i < j < |r| ==> r[i] <= r[j]
  }

  /** The middle number of an odd count, and halfway between the two middle ones of an even count. */
  predicate Halfway(r: seq<real>, m: real) {
    r != [] && if |r| % 2 == 1 then m == r[|r| / 2] else 2.0 * m == r[|r| / 2 - 1] + r[|r| / 2]
  }

  ghost predicate IsMedian(s: seq<real>, m: real) { exists r :: Ordered(s, r) && Halfway(r, m) }

  lemma MedianIs(s: seq<real>)
    requires s != []
    ensures MedianOf(s).Some? && IsMedian(s, MedianOf(s).value)
  {
    SortOrders(s);
    MiddleIsHalfway(SortReals(s));
    assert Ordered(s, SortReals(s));
  }

  lemma SortOrders(s: seq<real>)
    ensures Ordered(s, SortReals(s))
  {
    SortBag(NotAbove, s);
    SortSorted(NotAbove, s);
    forall i, j | 0 <= i < j < |SortReals(s)| ensures SortReals(s)[i] <= SortReals(s)[j] {
      assert NotAbove(SortReals(s)[i], SortReals(s)[j]);
    }
  }

  lemma MiddleIsHalfway(r: seq<real>)
    requires r != []
    ensures Halfway(r, Middle(r))
  {}

  /** What a metric's number is, for the numbers of the values. */
  ghost predicate Measures(metric: Metric, count: nat, numbers: seq<real>, value: real) {
    match metric
    case Count => value == count as real
    case Sum => value == SumOf(numbers)
    case Mean => value * |numbers| as real == SumOf(numbers)
    case Median => IsMedian(numbers, value)
    case Min => value in numbers && forall x :: x in numbers ==> value <= x
    case Max => value in numbers && forall x :: x in numbers ==> x <= value
  }

  /** A metric has a number exactly when it counts, or there are values and all have numbers; it is the right one. */
  lemma MetricMeans(rt: Runtime, values: seq<Value>, metric: Metric)
    ensures MetricOf(rt, values, metric).Some? <==> metric.Count? || (values != [] && AllNumeric(rt, values))
    ensures MetricOf(rt, values, metric).Some? ==>
              Measures(metric, |values|, Numbers(rt, values), MetricOf(rt, values, metric).value)
    ensures AllNumeric(rt, values) ==>
              |Numbers(rt, values)| == |values|
              && forall i :: 0 <= i < |values| ==> Numeric(rt, values[i]) == Some(Numbers(rt, values)[i])
  {
    NumbersOf(rt, values);
    if values != [] && AllNumeric(rt, values) && !metric.Count? {
      NumberMeasures(Numbers(rt, values), |values|, metric);
    }
  }

  /** The number a metric gives to a list of numbers. */
  function NumberOf(numbers: seq<real>, metric: Metric): Option<real>
    requires numbers != [] && !metric.Count?
  {
    match metric
    case Sum => Some(Total(numbers))
    case Mean => Some(Total(numbers) / |numbers| as real)
    case Median => MedianOf(numbers)
    case Min => Lowest(numbers)
    case Max => Highest(numbers)
  }

  lemma NumberMeasures(numbers: seq<real>, count: nat, metric: Metric)
    requires numbers != [] && !metric.Count?
    ensures NumberOf(numbers, metric).Some? && Measures(metric, count, numbers, NumberOf(numbers, metric).value)
  {
    match metric
    case Sum => TotalIsSum(numbers);
    case Mean =>
      TotalIsSum(numbers);
      MeanTimes(SumOf(numbers), |numbers|);
    case Median => MedianIs(numbers);
    case _ => ExtremesMean(numbers);
  }

  lemma MeanTimes(total: real, count: nat)
    requires count > 0
    ensures total / count as real * count as real == total
  {}

  lemma {:induction false} NumbersCounted(rt: Runtime, values: seq<Value>)
    ensures |Numbers(rt, values)| == |set i | 0 <= i < |values| && Numeric(rt, values[i]).Some?|
  {
    var numeric := set i | 0 <= i < |values| && Numeric(rt, values[i]).Some?;
    if values != [] {
      var front, n := values[..|values| - 1], |values| - 1;
      var before := set i | 0 <= i < |front| && Numeric(rt, front[i]).Some?;
      NumbersCounted(rt, front);
      if Numeric(rt, values[n]).Some? { assert numeric == before + {n}; } else { assert numeric == before; }
    } else {
      assert numeric == {};
    }
  }

  /** How many values have a number and how many have none is told exactly when some have none and that matters. */
  lemma CoverageMeans(rt: Runtime, values: seq<Value>, metric: Metric)
    ensures var c := CoverageOf(rt, values, metric);
            var numeric := |set i | 0 <= i < |values| && Numeric(rt, values[i]).Some?|;
            && (c.None? <==> metric.Count? || numeric == |values|)
            && (c.Some? ==> c.value.0 == numeric && c.value.0 + c.value.1 == |values|)
  {
    NumbersCounted(rt, values);
  }

  // ---------------------------------------------------------------- breadth and windows

  /** The counters are the numbers of rows whose change is above, below or exactly zero, or no number. */
  lemma BreadthMeans(rt: Runtime, rows: seq<Row>)
    ensures var b := BreadthOf(rt, rows);
            && b.count == |rows|
            && b.positive == |set i | 0 <= i < |rows| && ChangeIs(rt, rows[i], 1)|
            && b.negative == |set i | 0 <= i < |rows| && ChangeIs(rt, rows[i], -1)|
            && b.flat == |set i | 0 <= i < |rows| && ChangeIs(rt, rows[i], 0)|
  {
    assert (set i | 0 <= i < |rows| && ChangeIs(rt, rows[i], 1)) == Moving(rt, rows, Up);
    assert (set i | 0 <= i < |rows| && ChangeIs(rt, rows[i], -1)) == Moving(rt, rows, Down);
    assert (set i | 0 <= i < |rows| && ChangeIs(rt, rows[i], 0)) == Moving(rt, rows, Still);
  }

  /** The ratios are the shares of risers and fallers among the rows with a number, if there are any. */
  lemma RatiosMean(rt: Runtime, rows: seq<Row>)
    ensures var b := BreadthOf(rt, rows); var usable := b.positive + b.negative + b.flat;
            && (b.advance.Some? <==> usable > 0) && (b.decline.Some? <==> usable > 0)
            && (usable > 0 ==>
                  && b.advance.value * usable as real == b.positive as real
                  && b.decline.value * usable as real == b.negative as real)
  {
    var b := BreadthOf(rt, rows);
    RatioTimes(b.positive, b.positive + b.negative + b.flat);
    RatioTimes(b.negative, b.positive + b.negative + b.flat);
  }

  lemma RatioTimes(part: nat, usable: nat)
    ensures Ratio(part, usable).Some? <==> usable > 0
    ensures usable > 0 ==> Ratio(part, usable).value * usable as real == part as real
  {
    if usable > 0 { MeanTimes(part as real, usable); }
  }

  /** The sign of a row's change. */
  predicate ChangeIs(rt: Runtime, row: Row, sign: int) {
    "change_pct" in row && Numeric(rt, row["change_pct"]).Some?
    && var n := Numeric(rt, row["change_pct"]).value;
       if sign > 0 then n > 0.0 else if sign < 0 then n < 0.0 else n == 0.0
  }

  /** Later less earlier, exactly when both numbers are there and sums cover equally many sessions. */
  lemma CompareMeans(metric: Metric, current: Side, previous: Side)
    ensures var c := Compare(metric, current, previous);
            && c.current == current && c.previous == previous
            && (c.delta.Some? <==>
                  && current.cell.value.Some? && previous.cell.value.Some?
                  && (metric.Sum? ==> current.sessions == previous.sessions))
            && (c.delta.Some? ==> previous.cell.value.value + c.delta.value == current.cell.value.value)
            && (c.issue.NoIssue? <==> c.delta.Some?)
            && (c.issue.MissingNumbers? <==> current.cell.value.None? || previous.cell.value.None?)
  {}

  /** A side counts the distinct dates of its rows and names the first and the last. */
  lemma SideMeans(rt: Runtime, q: WindowQuery, rows: seq<Row>)
    ensures var side, dates := SideOf(rt, q, rows), DatesIn(rows);
            && side.cell.count == |rows| && side.sessions == |dates|
            && (side.first.Some? <==> dates != {}) && (side.last.Some? <==> dates != {})
            && (dates != {} ==>
                  && side.first.value in dates && side.last.value in dates
                  && forall d :: d in dates ==> StrLe(side.first.value, d) && StrLe(d, side.last.value))
            && (forall d :: d in dates <==>
                  exists row :: row in rows && "trade_date" in row && row["trade_date"] == Text(d))
  {
    var dates := DatesIn(rows);
    var keys := SortedKeys(dates);
    SortedKeysMeans(dates);
    if keys == [] { assert forall d :: d in dates ==> d in keys; }
    forall d | d in dates && keys != [] ensures StrLe(keys[0], d) && StrLe(d, keys[|keys| - 1]) {
      var i :| 0 <= i < |keys| && keys[i] == d;
      StrLeTotal(d, d);
    }
    forall d ensures d in dates <==> exists row :: row in rows && "trade_date" in row && row["trade_date"] == Text(d) {
      if d in dates {
        var i :| 0 <= i < |rows| && Get(rows[i], "trade_date") == Text(d);
        assert rows[i] in rows;
      }
      if row :| row in rows && "trade_date" in row && row["trade_date"] == Text(d) {
        var i :| 0 <= i < |rows| && rows[i] == row;
      }
    }
  }
}
