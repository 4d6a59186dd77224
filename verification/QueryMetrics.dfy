/** Metrics over one field: running state and value spool against the list of values. */
module QueryMetrics {
  import opened Prelude
  import opened QueryRows
  import opened StableSort

  datatype Metric = Count | Sum | Mean | Median | Min | Max

  /** Counted values, and how many of them had no number: reported only when some had none. */
  type Coverage = Option<(nat, nat)>

  datatype Cell = Cell(count: nat, coverage: Coverage, value: Option<real>)

  // ---------------------------------------------------------------- over a list of values

  function Numbers(rt: Runtime, values: seq<Value>): seq<real> {
    if values == [] then []
    else
      var front, n := Numbers(rt, values[..|values| - 1]), Numeric(rt, values[|values| - 1]);
      if n.Some? then front + [n.value] else front
  }

  function Total(s: seq<real>): real { if s == [] then 0.0 else Total(s[..|s| - 1]) + s[|s| - 1] }

  function Lowest(s: seq<real>): Option<real> {
    if s == [] then None
    else
      var front, n := Lowest(s[..|s| - 1]), s[|s| - 1];
      if front.None? || n < front.value then Some(n) else front
  }

  function Highest(s: seq<real>): Option<real> {
    if s == [] then None
    else
      var front, n := Highest(s[..|s| - 1]), s[|s| - 1];
      if front.None? || n > front.value then Some(n) else front
  }

  predicate NotAbove(a: real, b: real) { a <= b }

  function SortReals(s: seq<real>): (r: seq<real>)
    ensures |r| == |s|
  {
    SortBag(NotAbove, s);
    Sort(NotAbove, s)
  }

  /** The middle of a sorted list, or the mean of its two middle values. */
  function Middle(sorted: seq<real>): real
    requires sorted != []
  {
    var n := |sorted|;
    if n % 2 == 1 then sorted[n / 2] else (sorted[n / 2 - 1] + sorted[n / 2]) / 2.0
  }

  /** `statistics.median`. */
  function MedianOf(s: seq<real>): Option<real> { if s == [] then None else Some(Middle(SortReals(s))) }

  /** `_metric`: nothing unless every value has a number; counting needs none. */
  function MetricOf(rt: Runtime, values: seq<Value>, metric: Metric): Option<real> {
    var numbers := Numbers(rt, values);
    if metric.Count? then Some(|values| as real)
    else if numbers == [] || |numbers| != |values| then None
    else
      match metric
      case Sum => Some(Total(numbers))
      case Mean => Some(Total(numbers) / |numbers| as real)
      case Median => MedianOf(numbers)
      case Min => Lowest(numbers)
      case Max => Highest(numbers)
  }

  /** `_coverage`. */
  function CoverageOf(rt: Runtime, values: seq<Value>, metric: Metric): Coverage {
    NumbersAtMost(rt, values);
    var n := |Numbers(rt, values)|;
    if metric.Count? || n == |values| then None else Some((n, |values| - n))
  }

  lemma {:induction false} NumbersAtMost(rt: Runtime, values: seq<Value>)
    ensures |Numbers(rt, values)| <= |values|
  {
    if values != [] { NumbersAtMost(rt, values[..|values| - 1]); }
  }

  function CellOf(rt: Runtime, values: seq<Value>, metric: Metric): Cell {
    Cell(|values|, CoverageOf(rt, values, metric), MetricOf(rt, values, metric))
  }

  // ---------------------------------------------------------------- what the median is

  function AtMost(s: seq<real>, m: real): nat {
    if s == [] then 0 else AtMost(s[..|s| - 1], m) + if s[|s| - 1] <= m then 1 else 0
  }

  function AtLeast(s: seq<real>, m: real): nat {
    if s == [] then 0 else AtLeast(s[..|s| - 1], m) + if s[|s| - 1] >= m then 1 else 0
  }

  lemma CountsNext(s: seq<real>, x: real, m: real)
    ensures AtMost(s + [x], m) == AtMost(s, m) + if x <= m then 1 else 0
    ensures AtLeast(s + [x], m) == AtLeast(s, m) + if x >= m then 1 else 0
  {
    assert (s + [x])[..|s|] == s;
  }

  lemma {:induction false} InsertCounts(s: seq<real>, x: real, m: real)
    ensures AtMost(Insert(NotAbove, s, x), m) == AtMost(s, m) + if x <= m then 1 else 0
    ensures AtLeast(Insert(NotAbove, s, x), m) == AtLeast(s, m) + if x >= m then 1 else 0
  {
    CountsNext(s, x, m);
    if s == [] { assert s + [x] == [x]; }
    else if s[|s| - 1] > x {
      InsertCounts(s[..|s| - 1], x, m);
      CountsNext(Insert(NotAbove, s[..|s| - 1], x), s[|s| - 1], m);
    }
  }

  lemma {:induction false} SortCounts(s: seq<real>, m: real)
    ensures AtMost(Sort(NotAbove, s), m) == AtMost(s, m) && AtLeast(Sort(NotAbove, s), m) == AtLeast(s, m)
  {
    if s != [] {
      SortCounts(s[..|s| - 1], m);
      InsertCounts(Sort(NotAbove, s[..|s| - 1]), s[|s| - 1], m);
    }
  }

  lemma {:induction false} LowHalf(s: seq<real>, k: nat, m: real)
    requires Sorted(NotAbove, s) && k <= |s| && forall i :: 0 <= i < k ==> s[i] <= m
    ensures AtMost(s, m) >= k
  {
    if k > 0 {
      if k == |s| { LowHalf(s[..|s| - 1], k - 1, m); } else { LowHalf(s[..|s| - 1], k, m); }
    }
  }

  lemma {:induction false} HighHalf(s: seq<real>, k: nat, m: real)
    requires Sorted(NotAbove, s) && k <= |s| && forall i :: k <= i < |s| ==> s[i] >= m
    ensures AtLeast(s, m) >= |s| - k
  {
    if k < |s| { HighHalf(s[..|s| - 1], k, m); }
  }

  /** At least half the values are at or below the median, and at least half at or above. */
  lemma MedianSplits(s: seq<real>)
    requires s != []
    ensures MedianOf(s).Some?
    ensures 2 * AtMost(s, MedianOf(s).value) >= |s| && 2 * AtLeast(s, MedianOf(s).value) >= |s|
  {
    var m, sorted := MedianOf(s).value, SortReals(s);
    SortCounts(s, m);
    SortSorted(NotAbove, s);
    SortedSplits(sorted, m);
  }

  lemma SortedSplits(sorted: seq<real>, m: real)
    requires sorted != [] && Sorted(NotAbove, sorted)
    requires m == Middle(sorted)
    ensures 2 * AtMost(sorted, m) >= |sorted| && 2 * AtLeast(sorted, m) >= |sorted|
  {
    var n := |sorted|;
    var k := n / 2;
    if n % 2 == 0 { assert sorted[k - 1] <= m <= sorted[k]; }
    forall i | 0 <= i < n - k ensures sorted[i] <= m { if i < n - k - 1 { assert sorted[i] <= sorted[n - k - 1]; } }
    forall i | k <= i < n ensures sorted[i] >= m { if i > k { assert sorted[k] <= sorted[i]; } }
    LowHalf(sorted, n - k, m);
    HighHalf(sorted, k, m);
  }

  /** The lowest and highest values bound the rest and occur. */
  lemma {:induction false} ExtremesMean(s: seq<real>)
    requires s != []
    ensures Lowest(s).Some? && Lowest(s).value in s && forall x :: x in s ==> Lowest(s).value <= x
    ensures Highest(s).Some? && Highest(s).value in s && forall x :: x in s ==> x <= Highest(s).value
  {
    assert s == s[..|s| - 1] + [s[|s| - 1]];
    if |s| > 1 { ExtremesMean(s[..|s| - 1]); }
  }

  // ---------------------------------------------------------------- one pass

  class MetricState {
    var count: nat
    var numericCount: nat
    var total: real
    var minimum: Option<real>
    var maximum: Option<real>

    constructor ()
      ensures count == 0 && numericCount == 0 && total == 0.0 && minimum == None && maximum == None
    {
      count, numericCount, total, minimum, maximum := 0, 0, 0.0, None, None;
    }

    /** The state summarises these values; a state that only counts says nothing about numbers. */
    predicate Shows(rt: Runtime, values: seq<Value>, numeric: bool)
      reads this
    {
      && count == |values| && numericCount <= count && (!numeric ==> numericCount == 0)
      && (numeric ==>
            && numericCount == |Numbers(rt, values)| && total == Total(Numbers(rt, values))
            && minimum == Lowest(Numbers(rt, values)) && maximum == Highest(Numbers(rt, values)))
    }

    method Add(rt: Runtime, value: Value, numeric: bool, ghost seen: seq<Value>) returns (number: Option<real>)
      requires Shows(rt, seen, numeric)
      modifies this
      ensures Shows(rt, seen + [value], numeric)
      ensures number == if numeric then Numeric(rt, value) else None
    {
      NumbersNext(rt, seen, value);
      NumbersAtMost(rt, seen + [value]);
      count := count + 1;
      if !numeric { return None; }
      number := Numeric(rt, value);
      if number.None? { return; }
      FoldsNext(Numbers(rt, seen), number.value);
      numericCount := numericCount + 1;
      total := total + number.value;
      minimum := if minimum.None? || number.value < minimum.value then number else minimum;
      maximum := if maximum.None? || number.value > maximum.value then number else maximum;
    }

    function Value(metric: Metric, median: Option<real>): Option<real>
      reads this
    {
      if metric.Count? then Some(count as real)
      else if numericCount == 0 || numericCount != count then None
      else
        match metric
        case Sum => Some(total)
        case Mean => Some(total / numericCount as real)
        case Median => median
        case Min => minimum
        case Max => maximum
    }

    function Coverage(metric: Metric): Coverage
      requires numericCount <= count
      reads this
    {
      if metric.Count? || count == numericCount then None else Some((numericCount, count - numericCount))
    }
  }

  /** Sum, lowest and highest of one more number. */
  lemma FoldsNext(s: seq<real>, x: real)
    ensures Total(s + [x]) == Total(s) + x
    ensures Lowest(s + [x]) == if Lowest(s).None? || x < Lowest(s).value then Some(x) else Lowest(s)
    ensures Highest(s + [x]) == if Highest(s).None? || x > Highest(s).value then Some(x) else Highest(s)
  {
    assert (s + [x])[..|s|] == s;
  }

  lemma NumbersNext(rt: Runtime, seen: seq<QueryRows.Value>, value: QueryRows.Value)
    ensures Numbers(rt, seen + [value]) ==
            Numbers(rt, seen) + (if Numeric(rt, value).Some? then [Numeric(rt, value).value] else [])
  {
    assert (seen + [value])[..|seen|] == seen;
  }

  /** The values of one key, in the order they were put in. */
  function Under(table: seq<(string, real)>, key: string): seq<real> {
    if table == [] then []
    else
      var front, row := Under(table[..|table| - 1], key), table[|table| - 1];
      if row.0 == key then front + [row.1] else front
  }

  /** The spool table behind medians. */
  class MedianSpool {
    var table: seq<(string, real)>

    constructor ()
      ensures table == []
    {
      table := [];
    }

    method Add(key: string, value: real)
      modifies this
      ensures table == old(table) + [(key, value)]
    {
      table := table + [(key, value)];
    }

    /** `SELECT value ... WHERE group_key = ? ORDER BY value LIMIT ? OFFSET ?`, then the mean of what comes back. */
    function Median(key: string, count: nat): Option<real>
      reads this
    {
      if count == 0 then None
      else
        var rows := Page(SortReals(Under(table, key)), (count - 1) / 2, if count % 2 == 0 then 2 else 1);
        if rows == [] then None else Some(Total(rows) / |rows| as real)
    }

    /** Asked for as many values as it holds, the spool answers the median. */
    lemma MedianIsMedian(key: string)
      ensures Median(key, |Under(table, key)|) == MedianOf(Under(table, key))
    {
      if Under(table, key) != [] { MiddlePage(SortReals(Under(table, key))); }
    }
  }

  /** `LIMIT limit OFFSET offset`. */
  function Page(s: seq<real>, offset: nat, limit: nat): seq<real> {
    if offset >= |s| then [] else if offset + limit > |s| then s[offset..] else s[offset..offset + limit]
  }

  lemma MiddlePage(sorted: seq<real>)
    requires sorted != []
    ensures var n := |sorted|;
            var rows := Page(sorted, (n - 1) / 2, if n % 2 == 0 then 2 else 1);
            rows != [] && Total(rows) / |rows| as real == Middle(sorted)
  {
    var n := |sorted|;
    var k := n / 2;
    if n % 2 == 1 {
      assert Page(sorted, (n - 1) / 2, 1) == [sorted[k]];
      assert [sorted[k]][..0] == [];
      assert Total([sorted[k]]) == sorted[k];
    } else {
      var rows := Page(sorted, (n - 1) / 2, 2);
      assert rows == [sorted[k - 1], sorted[k]];
      assert rows[..1] == [sorted[k - 1]] && [sorted[k - 1]][..0] == [];
      assert Total(rows[..1]) == sorted[k - 1];
      assert Total(rows) == sorted[k - 1] + sorted[k];
    }
  }

  /** A state with the spooled median tells about its values what the list form tells. */
  lemma StateMatches(state: MetricState, rt: Runtime, values: seq<QueryRows.Value>, metric: Metric,
      median: Option<real>)
    requires state.Shows(rt, values, !metric.Count?)
    requires metric.Median? ==> median == MedianOf(Numbers(rt, values))
    ensures state.Value(metric, median) == MetricOf(rt, values, metric)
    ensures state.Coverage(metric) == CoverageOf(rt, values, metric)
  {}
}
