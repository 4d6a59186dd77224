/** Prepared date views: which requests may run on a view of the product instead of the product. */
module QueryViews {
  import opened Prelude
  import opened TextOrder
  import opened QueryRows
  import opened QueryAggregate
  import opened QueryHeap
  import opened QueryRank
  import opened QueryWindow
  import opened QueryBudget
  import opened QueryScalars

  datatype Request =
    | RowsRequest(rows: RowsQuery)
    | AggregateRequest(aggregate: AggregateQuery, sizes: Sizes)
    | BreadthRequest(filter: Filter)
    | RankRequest(rank: RankQuery)
    | WindowRequest(window: WindowQuery)

  datatype StreamAnswer =
    | RowsAnswer(rows: Result<seq<Row>, Denied>)
    | AggregateAnswer(aggregate: Result<Answer, Denied>)
    | BreadthAnswer(breadth: Result<Breadth, Denied>)
    | WindowAnswer(window: Result<Comparison, Denied>)

  function OfKind(records: seq<Record>, kind: Kind): seq<Row> {
    if records == [] then []
    else
      var front, r := OfKind(records[..|records| - 1], kind), records[|records| - 1];
      if r.kind == kind then front + [r.row] else front
  }

  /** `_stream_operation`: the answer, or the refusal, of a request over the records of a product. */
  ghost function StreamOperation(rt: Runtime, records: seq<Record>, r: Request, remainingRows: Option<int>,
      remainingBytes: Option<int>): StreamAnswer
  {
    match r
    case RowsRequest(q) => RowsAnswer(StreamRowsOf(rt, q, OfKind(records, q.kind), remainingRows, remainingBytes))
    case AggregateRequest(q, sizes) =>
      var groups := if remainingRows.Some? && remainingRows.value < 0 then Some(0) else remainingRows;
      AggregateAnswer(StreamAggregateOf(rt, q, OfKind(records, Bar), Budget(groups, remainingBytes), sizes))
    case BreadthRequest(f) =>
      BreadthAnswer(if ValidFilter(f) then Ok(BreadthOf(rt, Filtered(f, OfKind(records, Bar)))) else Err(InvalidWindow))
    case RankRequest(q) => RowsAnswer(StreamRankOf(rt, q, OfKind(records, Bar), remainingRows, remainingBytes))
    case WindowRequest(q) => WindowAnswer(StreamWindowOf(rt, q, OfKind(records, Bar)))
  }

  // ---------------------------------------------------------------- refused dates

  /** Both are dates, the second not before the first. */
  predicate Runs(start: string, end: string) { IsDate(start) && IsDate(end) && NotLater(start, end) }

  /** One of the filter's dates is none, or its last day lies before its first. */
  predicate Malformed(f: Filter) {
    if f.start.Some? && f.end.Some? then !Runs(f.start.value, f.end.value)
    else (f.start.Some? && !IsDate(f.start.value)) || (f.end.Some? && !IsDate(f.end.value))
  }

  /** The request filters by malformed dates, or compares malformed windows. */
  predicate MalformedDates(r: Request) {
    match r
    case RowsRequest(q) => q.filtered && Malformed(q.filter)
    case AggregateRequest(q, _) => (q.metric.Count? || q.valueField.Some?) && Malformed(q.filter)
    case BreadthRequest(f) => Malformed(f)
    case RankRequest(q) => Malformed(q.filter)
    case WindowRequest(q) =>
      !Runs(q.currentStart, q.currentEnd) || !Runs(q.previousStart, q.previousEnd) || Malformed(q.base)
  }

  function Refusal(a: StreamAnswer): Option<Denied> {
    match a
    case RowsAnswer(r) => if r.Err? then Some(r.error) else None
    case AggregateAnswer(r) => if r.Err? then Some(r.error) else None
    case BreadthAnswer(r) => if r.Err? then Some(r.error) else None
    case WindowAnswer(r) => if r.Err? then Some(r.error) else None
  }

  lemma MalformedFilter(f: Filter)
    ensures !ValidFilter(f) <==> Malformed(f)
  {
    if f.start.Some? && f.end.Some? && IsDate(f.start.value) && IsDate(f.end.value) {
      DatesInOrder(f.start.value, f.end.value);
    }
  }

  lemma MalformedWindows(q: WindowQuery)
    ensures !ValidWindows(q) <==> !Runs(q.currentStart, q.currentEnd) || !Runs(q.previousStart, q.previousEnd)
  {
    if IsDate(q.currentStart) && IsDate(q.currentEnd) { DatesInOrder(q.currentStart, q.currentEnd); }
    if IsDate(q.previousStart) && IsDate(q.previousEnd) { DatesInOrder(q.previousStart, q.previousEnd); }
  }

  lemma {:induction false} EmitDenials(rt: Runtime, rows: seq<Row>, remainingRows: Option<int>,
      remainingBytes: Option<int>)
    ensures EmitAll(rt, rows, remainingRows, remainingBytes) != Err(InvalidWindow)
  {
    if rows != [] { EmitDenials(rt, rows[..|rows| - 1], remainingRows, remainingBytes); }
  }

  lemma {:induction false} OfferDenials(entries: seq<Entry>, limit: int, remaining: Option<int>)
    requires limit >= 1
    ensures OfferAll(entries, limit, remaining) != Err(InvalidWindow)
  {
    if entries != [] { OfferDenials(entries[..|entries| - 1], limit, remaining); }
  }

  lemma {:induction false} TakeDenials(rt: Runtime, q: AggregateQuery, matched: seq<Row>, b: Budget)
    ensures TakeAll(rt, q, matched, b) != Err(InvalidWindow)
  {
    if matched != [] { TakeDenials(rt, q, matched[..|matched| - 1], b); }
  }

  lemma AggregateDates(rt: Runtime, q: AggregateQuery, rows: seq<Row>, b: Budget, sizes: Sizes)
    ensures StreamAggregateOf(rt, q, rows, b, sizes) == Err(InvalidWindow)
            <==> (q.metric.Count? || q.valueField.Some?) && Malformed(q.filter)
  {
    MalformedFilter(q.filter);
    TakeDenials(rt, q, Filtered(q.filter, rows), b);
  }

  lemma RankDates(rt: Runtime, q: RankQuery, rows: seq<Row>, remainingRows: Option<int>, remainingBytes: Option<int>)
    ensures StreamRankOf(rt, q, rows, remainingRows, remainingBytes) == Err(InvalidWindow) <==> Malformed(q.filter)
  {
    MalformedFilter(q.filter);
    if q.limit >= 1 { OfferDenials(Entries(rt, q, rows), q.limit, remainingBytes); }
  }

  /** A request is refused for its dates exactly when they are malformed, whatever the product holds. */
  lemma DatesRefused(rt: Runtime, records: seq<Record>, r: Request, remainingRows: Option<int>,
      remainingBytes: Option<int>)
    ensures Refusal(StreamOperation(rt, records, r, remainingRows, remainingBytes)) == Some(InvalidWindow)
            <==> MalformedDates(r)
  {
    match r
    case RowsRequest(q) =>
      MalformedFilter(q.filter);
      EmitDenials(rt, FullRows(q, OfKind(records, q.kind)), remainingRows, remainingBytes);
    case AggregateRequest(q, sizes) =>
      forall b { AggregateDates(rt, q, OfKind(records, Bar), b, sizes); }
    case BreadthRequest(f) => MalformedFilter(f);
    case RankRequest(q) => RankDates(rt, q, OfKind(records, Bar), remainingRows, remainingBytes);
    case WindowRequest(q) =>
      MalformedFilter(q.base);
      MalformedWindows(q);
  }

  // ---------------------------------------------------------------- views

  function Earlier(a: string, b: string): string { if StrLe(a, b) then a else b }

  function Later(a: string, b: string): string { if StrLe(a, b) then b else a }

  /** `_request_window`: the dates a request names, whether or not its operation filters by them. */
  function RequestWindow(r: Request): Option<(string, string)> {
    match r
    case WindowRequest(q) =>
      if IsDate(q.currentStart) && IsDate(q.previousStart) && IsDate(q.currentEnd) && IsDate(q.previousEnd)
      then Some((Earlier(q.currentStart, q.previousStart), Later(q.currentEnd, q.previousEnd))) else None
    case RowsRequest(q) => FilterWindow(q.filter)
    case AggregateRequest(q, _) => FilterWindow(q.filter)
    case BreadthRequest(f) => FilterWindow(f)
    case RankRequest(q) => FilterWindow(q.filter)
  }

  function FilterWindow(f: Filter): Option<(string, string)> {
    if f.start.Some? && f.end.Some? && IsDate(f.start.value) && IsDate(f.end.value)
    then Some((f.start.value, f.end.value)) else None
  }

  /** The least start and the greatest end of a group of requests. */
  function PlanWindow(group: seq<Request>): Option<(string, string)> {
    if group == [] then None
    else
      var w := RequestWindow(group[|group| - 1]);
      if w.None? || |group| == 1 then w
      else
        var before := PlanWindow(group[..|group| - 1]);
        if before.None? then None
        else Some((Earlier(before.value.0, w.value.0), Later(before.value.1, w.value.1)))
  }

  predicate InView(r: Record, start: string, end: string) {
    Get(r.row, "trade_date").Text? && InWindow(Get(r.row, "trade_date").text, start, end)
  }

  /** The private view: records of every kind whose date text lies in the window. */
  function View(records: seq<Record>, start: string, end: string): seq<Record> {
    if records == [] then []
    else
      var front, r := View(records[..|records| - 1], start, end), records[|records| - 1];
      if InView(r, start, end) then front + [r] else front
  }

  predicate Contains(outer: (string, string), inner: (string, string)) {
    StrLe(outer.0, inner.0) && StrLe(inner.1, outer.1)
  }

  lemma ContainsTransitive(a: (string, string), b: (string, string), c: (string, string))
    requires Contains(a, b) && Contains(b, c)
    ensures Contains(a, c)
  {
    StrLeTransitive(a.0, b.0, c.0);
    StrLeTransitive(c.1, b.1, a.1);
  }

  lemma UnionContains(a: (string, string), b: (string, string))
    ensures Contains((Earlier(a.0, b.0), Later(a.1, b.1)), a) && Contains((Earlier(a.0, b.0), Later(a.1, b.1)), b)
  {
    StrLeTotal(a.0, b.0);
    StrLeTotal(a.1, b.1);
    StrLeTotal(a.0, a.0);
    StrLeTotal(a.1, a.1);
    StrLeTotal(b.0, b.0);
    StrLeTotal(b.1, b.1);
  }

  /** The rows of one kind are those of its records, as often as they occur. */
  lemma {:induction false} KindKeeps(records: seq<Record>, kind: Kind, row: Row)
    ensures multiset(OfKind(records, kind))[row] == multiset(records)[Record(kind, row)]
  {
    if records != [] {
      KindKeeps(records[..|records| - 1], kind, row);
      SplitLast(records);
    }
  }

  /** The request's operation works from this start to this end, both well-formed dates. */
  predicate Spans(r: Request, start: string, end: string) {
    && IsDate(start) && IsDate(end)
    && match r
       case WindowRequest(q) =>
         && IsDate(q.currentStart) && IsDate(q.currentEnd) && IsDate(q.previousStart) && IsDate(q.previousEnd)
         && start in {q.currentStart, q.previousStart} && end in {q.currentEnd, q.previousEnd}
         && StrLe(start, q.currentStart) && StrLe(start, q.previousStart)
         && StrLe(q.currentEnd, end) && StrLe(q.previousEnd, end)
       case RowsRequest(q) => q.filter.start == Some(start) && q.filter.end == Some(end)
       case AggregateRequest(q, _) => q.filter.start == Some(start) && q.filter.end == Some(end)
       case BreadthRequest(f) => f.start == Some(start) && f.end == Some(end)
       case RankRequest(q) => q.filter.start == Some(start) && q.filter.end == Some(end)
  }

  /** A request has a window exactly when it names well-formed dates. */
  lemma WindowSpans(r: Request, start: string, end: string)
    ensures RequestWindow(r) == Some((start, end)) <==> Spans(r, start, end)
  {
    match r
    case WindowRequest(q) =>
      EarlierOf(q.currentStart, q.previousStart, start);
      LaterOf(q.currentEnd, q.previousEnd, end);
    case _ =>
  }

  lemma EarlierOf(a: string, b: string, x: string)
    ensures x == Earlier(a, b) <==> x in {a, b} && StrLe(x, a) && StrLe(x, b)
  {
    StrLeTotal(a, b);
    StrLeTotal(a, a);
    StrLeTotal(b, b);
    if StrLe(a, b) && StrLe(b, a) { StrLeAntisymmetric(a, b); }
  }

  lemma LaterOf(a: string, b: string, x: string)
    ensures x == Later(a, b) <==> x in {a, b} && StrLe(a, x) && StrLe(b, x)
  {
    StrLeTotal(a, b);
    StrLeTotal(a, a);
    StrLeTotal(b, b);
    if StrLe(a, b) && StrLe(b, a) { StrLeAntisymmetric(a, b); }
  }

  predicate AllSpan(group: seq<Request>) { forall i :: 0 <= i < |group| ==> RequestWindow(group[i]).Some? }

  lemma AllSpanNext(group: seq<Request>)
    requires group != []
    ensures AllSpan(group) <==> AllSpan(group[..|group| - 1]) && RequestWindow(group[|group| - 1]).Some?
  {
    var front := group[..|group| - 1];
    if AllSpan(front) && RequestWindow(group[|group| - 1]).Some? {
      forall i | 0 <= i < |group| ensures RequestWindow(group[i]).Some? {
        if i < |front| { assert group[i] == front[i]; }
      }
    }
  }

  /** A group has a common window exactly when it is not empty and each of its requests has one. */
  lemma {:induction false} PlanExists(group: seq<Request>)
    ensures PlanWindow(group).Some? <==> group != [] && AllSpan(group)
  {
    if group != [] {
      AllSpanNext(group);
      PlanExists(group[..|group| - 1]);
    }
  }

  /** The view keeps exactly the records with a date text inside the window. */
  lemma {:induction false} ViewKeeps(records: seq<Record>, start: string, end: string, r: Record)
    ensures multiset(View(records, start, end))[r] ==
            if && "trade_date" in r.row && r.row["trade_date"].Text?
               && StrLe(start, r.row["trade_date"].text) && StrLe(r.row["trade_date"].text, end)
            then multiset(records)[r] else 0
  {
    if records != [] {
      ViewKeeps(records[..|records| - 1], start, end, r);
      SplitLast(records);
    }
  }

  /** The window of a group is no wider than needed: it starts and ends with the window of some request. */
  lemma {:induction false} PlanIsTight(group: seq<Request>)
    requires PlanWindow(group).Some?
    ensures exists i, j :: 0 <= i < |group| && 0 <= j < |group|
              && RequestWindow(group[i]).Some? && RequestWindow(group[i]).value.0 == PlanWindow(group).value.0
              && RequestWindow(group[j]).Some? && RequestWindow(group[j]).value.1 == PlanWindow(group).value.1
  {
    var front, n := group[..|group| - 1], |group| - 1;
    if n == 0 { assert RequestWindow(group[0]).value == PlanWindow(group).value; }
    else {
      PlanIsTight(front);
      var i, j :| && 0 <= i < |front| && 0 <= j < |front|
                  && RequestWindow(front[i]).Some? && RequestWindow(front[i]).value.0 == PlanWindow(front).value.0
                  && RequestWindow(front[j]).Some? && RequestWindow(front[j]).value.1 == PlanWindow(front).value.1;
      assert group[i] == front[i] && group[j] == front[j];
      var w := RequestWindow(group[n]).value;
      var plan := PlanWindow(group).value;
      var i', j' := if plan.0 == w.0 then n else i, if plan.1 == w.1 then n else j;
      assert RequestWindow(group[i']).value.0 == PlanWindow(group).value.0;
      assert RequestWindow(group[j']).value.1 == PlanWindow(group).value.1;
    }
  }

  /** The window of a group contains the window of every request in it. */
  lemma {:induction false} PlanContains(group: seq<Request>, i: nat)
    requires PlanWindow(group).Some? && i < |group|
    ensures RequestWindow(group[i]).Some? && Contains(PlanWindow(group).value, RequestWindow(group[i]).value)
  {
    var w := RequestWindow(group[|group| - 1]).value;
    UnionContains(w, w);
    if |group| > 1 {
      var before := PlanWindow(group[..|group| - 1]).value;
      UnionContains(before, w);
      if i < |group| - 1 {
        PlanContains(group[..|group| - 1], i);
        ContainsTransitive(PlanWindow(group).value, before, RequestWindow(group[i]).value);
      }
    }
  }

  // ---------------------------------------------------------------- what a view keeps

  lemma {:induction false} ViewFiltered(records: seq<Record>, kind: Kind, f: Filter, view: (string, string))
    requires f.start.Some? && f.end.Some? && Contains(view, (f.start.value, f.end.value))
    ensures Filtered(f, OfKind(View(records, view.0, view.1), kind)) == Filtered(f, OfKind(records, kind))
  {
    if records != [] {
      var front, r := records[..|records| - 1], records[|records| - 1];
      ViewFiltered(front, kind, f, view);
      if Matches(f, r.row) {
        StrLeTransitive(view.0, f.start.value, Get(r.row, "trade_date").text);
        StrLeTransitive(Get(r.row, "trade_date").text, f.end.value, view.1);
        assert InView(r, view.0, view.1);
      }
      ViewNext(records, kind, view);
      if r.kind == kind {
        FilteredAppend(f, OfKind(front, kind), r.row);
        FilteredAppend(f, OfKind(View(front, view.0, view.1), kind), r.row);
      }
    }
  }

  lemma ViewNext(records: seq<Record>, kind: Kind, view: (string, string))
    requires records != []
    ensures var front, r := records[..|records| - 1], records[|records| - 1];
            OfKind(View(records, view.0, view.1), kind)
            == (if InView(r, view.0, view.1) && r.kind == kind then OfKind(View(front, view.0, view.1), kind) + [r.row]
                else OfKind(View(front, view.0, view.1), kind))
  {
    var front, r := records[..|records| - 1], records[|records| - 1];
    var kept := View(front, view.0, view.1);
    assert (kept + [r])[..|kept|] == kept;
  }

  lemma FilteredAppend(f: Filter, rows: seq<Row>, row: Row)
    ensures Filtered(f, rows + [row]) == if Matches(f, row) then Filtered(f, rows) + [row] else Filtered(f, rows)
  {
    assert (rows + [row])[..|rows|] == rows;
  }

  lemma SeenAppend(base: Filter, start: string, end: string, rows: seq<Row>, row: Row)
    ensures Seen(base, start, end, rows + [row])
            == if Falls(base, start, end, row)
               then Seen(base, start, end, rows) + [row] else Seen(base, start, end, rows)
  {
    assert (rows + [row])[..|rows|] == rows;
  }

  lemma {:induction false} ViewSeen(records: seq<Record>, base: Filter, window: (string, string),
      view: (string, string))
    requires Contains(view, window)
    ensures Seen(base, window.0, window.1, OfKind(View(records, view.0, view.1), Bar))
            == Seen(base, window.0, window.1, OfKind(records, Bar))
  {
    if records != [] {
      var front, r := records[..|records| - 1], records[|records| - 1];
      ViewSeen(front, base, window, view);
      if Falls(base, window.0, window.1, r.row) {
        StrLeTransitive(view.0, window.0, Get(r.row, "trade_date").text);
        StrLeTransitive(Get(r.row, "trade_date").text, window.1, view.1);
        assert InView(r, view.0, view.1);
      }
      ViewNext(records, Bar, view);
      if r.kind.Bar? {
        SeenAppend(base, window.0, window.1, OfKind(front, Bar), r.row);
        SeenAppend(base, window.0, window.1, OfKind(View(front, view.0, view.1), Bar), r.row);
      }
    }
  }

  /** Ranking looks at matching rows only. */
  lemma {:induction false} EntriesOfMatched(rt: Runtime, q: RankQuery, rows: seq<Row>)
    ensures Entries(rt, q, rows) == Entries(rt, q, Filtered(q.filter, rows))
  {
    if rows != [] {
      var front, row := rows[..|rows| - 1], rows[|rows| - 1];
      EntriesOfMatched(rt, q, front);
      if Matches(q.filter, row) {
        var matched := Filtered(q.filter, front);
        assert (matched + [row])[..|matched|] == matched;
      }
    }
  }

  // ---------------------------------------------------------------- transparency

  /** Every operation but the unfiltered row operations. */
  predicate DateFiltered(r: Request) { r.RowsRequest? ==> r.rows.filtered }

  /** On the view of its group a date-filtered request gets the answer, or the refusal, it gets on the product. */
  lemma ViewTransparent(rt: Runtime, records: seq<Record>, group: seq<Request>, i: nat, remainingRows: Option<int>,
      remainingBytes: Option<int>)
    requires PlanWindow(group).Some? && i < |group| && DateFiltered(group[i])
    ensures var w := PlanWindow(group).value;
            StreamOperation(rt, View(records, w.0, w.1), group[i], remainingRows, remainingBytes)
            == StreamOperation(rt, records, group[i], remainingRows, remainingBytes)
  {
    PlanContains(group, i);
    RequestTransparent(rt, records, group[i], PlanWindow(group).value, remainingRows, remainingBytes);
  }

  lemma RowsSee(rt: Runtime, q: RowsQuery, a: seq<Row>, b: seq<Row>, remainingRows: Option<int>,
      remainingBytes: Option<int>)
    requires q.filtered && Filtered(q.filter, a) == Filtered(q.filter, b)
    ensures StreamRowsOf(rt, q, a, remainingRows, remainingBytes)
            == StreamRowsOf(rt, q, b, remainingRows, remainingBytes)
  {}

  lemma AggregateSees(rt: Runtime, q: AggregateQuery, a: seq<Row>, b: seq<Row>, budget: Budget, sizes: Sizes)
    requires Filtered(q.filter, a) == Filtered(q.filter, b)
    ensures StreamAggregateOf(rt, q, a, budget, sizes) == StreamAggregateOf(rt, q, b, budget, sizes)
  {}

  lemma RankSees(rt: Runtime, q: RankQuery, a: seq<Row>, b: seq<Row>, remainingRows: Option<int>,
      remainingBytes: Option<int>)
    requires Filtered(q.filter, a) == Filtered(q.filter, b)
    ensures StreamRankOf(rt, q, a, remainingRows, remainingBytes)
            == StreamRankOf(rt, q, b, remainingRows, remainingBytes)
  {
    EntriesOfMatched(rt, q, a);
    EntriesOfMatched(rt, q, b);
  }

  lemma WindowSees(rt: Runtime, q: WindowQuery, records: seq<Record>, view: (string, string))
    requires Contains(view, (q.currentStart, q.currentEnd)) && Contains(view, (q.previousStart, q.previousEnd))
    ensures StreamWindowOf(rt, q, OfKind(View(records, view.0, view.1), Bar))
            == StreamWindowOf(rt, q, OfKind(records, Bar))
  {
    ViewSeen(records, q.base, (q.currentStart, q.currentEnd), view);
    ViewSeen(records, q.base, (q.previousStart, q.previousEnd), view);
  }

  lemma RequestTransparent(rt: Runtime, records: seq<Record>, r: Request, view: (string, string),
      remainingRows: Option<int>, remainingBytes: Option<int>)
    requires DateFiltered(r) && RequestWindow(r).Some? && Contains(view, RequestWindow(r).value)
    ensures StreamOperation(rt, View(records, view.0, view.1), r, remainingRows, remainingBytes)
            == StreamOperation(rt, records, r, remainingRows, remainingBytes)
  {
    var small := View(records, view.0, view.1);
    match r
    case RowsRequest(q) =>
      ViewFiltered(records, q.kind, q.filter, view);
      RowsSee(rt, q, OfKind(small, q.kind), OfKind(records, q.kind), remainingRows, remainingBytes);
    case AggregateRequest(q, sizes) =>
      ViewFiltered(records, Bar, q.filter, view);
      forall budget { AggregateSees(rt, q, OfKind(small, Bar), OfKind(records, Bar), budget, sizes); }
    case BreadthRequest(f) => ViewFiltered(records, Bar, f, view);
    case RankRequest(q) =>
      ViewFiltered(records, Bar, q.filter, view);
      RankSees(rt, q, OfKind(small, Bar), OfKind(records, Bar), remainingRows, remainingBytes);
    case WindowRequest(q) =>
      UnionContains((q.currentStart, q.currentEnd), (q.previousStart, q.previousEnd));
      ContainsTransitive(view, RequestWindow(r).value, (q.currentStart, q.currentEnd));
      ContainsTransitive(view, RequestWindow(r).value, (q.previousStart, q.previousEnd));
      WindowSees(rt, q, records, view);
  }

  // ---------------------------------------------------------------- the exception

  function Undated(kind: Kind, n: nat): (rs: seq<Record>)
    ensures |rs| == n && forall i :: 0 <= i < n ==> rs[i] == Record(kind, map[])
  {
    if n == 0 then [] else Undated(kind, n - 1) + [Record(kind, map[])]
  }

  lemma {:induction false} UndatedRows(kind: Kind, n: nat, view: (string, string))
    ensures OfKind(View(Undated(kind, n), view.0, view.1), kind) == []
    ensures |Filtered(ANY, OfKind(Undated(kind, n), kind))| == n
  {
    if n > 0 {
      UndatedRows(kind, n - 1, view);
      var rs := Undated(kind, n);
      assert rs[..n - 1] == Undated(kind, n - 1) && rs[n - 1].row == map[];
      ViewNext(rs, kind, view);
      FilteredAppend(ANY, OfKind(rs[..n - 1], kind), rs[n - 1].row);
    }
  }

  ghost predicate SameOnView(rt: Runtime, q: RowsQuery, view: (string, string), records: seq<Record>) {
    StreamOperation(rt, View(records, view.0, view.1), RowsRequest(q), None, None)
    == StreamOperation(rt, records, RowsRequest(q), None, None)
  }

  ghost predicate AlwaysTransparent(rt: Runtime, q: RowsQuery, view: (string, string)) {
    forall records :: SameOnView(rt, q, view, records)
  }

  /** A row operation that names dates is indifferent to the view exactly when it filters by them, or asks for no rows:
      `rows`, `items` and `slice` with dates lose the rows the view leaves out. */
  lemma UnfilteredOpaque(rt: Runtime, q: RowsQuery, view: (string, string))
    requires RequestWindow(RowsRequest(q)).Some? && Contains(view, RequestWindow(RowsRequest(q)).value)
    ensures AlwaysTransparent(rt, q, view) <==> q.filtered || q.limit == Some(0)
  {
    if q.filtered {
      forall records ensures SameOnView(rt, q, view, records) {
        RequestTransparent(rt, records, RowsRequest(q), view, None, None);
      }
    } else {
      forall records: seq<Record>
        ensures StreamOperation(rt, records, RowsRequest(q), None, None)
                == RowsAnswer(Ok(FullRows(q, OfKind(records, q.kind))))
      {
        EmitRefusesIff(rt, FullRows(q, OfKind(records, q.kind)), None, None);
      }
      if q.limit != Some(0) {
        var records := Undated(q.kind, q.offset + 1);
        UndatedRows(q.kind, q.offset + 1, view);
        assert FullRows(q, OfKind(View(records, view.0, view.1), q.kind)) == [];
        assert FullRows(q, OfKind(records, q.kind)) != [];
        assert !SameOnView(rt, q, view, records);
      }
    }
  }
}
