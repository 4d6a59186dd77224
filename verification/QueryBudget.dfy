/** Row operations that stop early, and the audited budget every query is charged to. */
module QueryBudget {
  import opened Prelude
  import opened QueryRows

  // ---------------------------------------------------------------- row operations

  /** `rows`, `items`, `filter`, `slice`, `absences`, `securities` and `sessions`: only some of them filter. */
  datatype RowsQuery = RowsQuery(kind: Kind, filter: Filter, filtered: bool, offset: nat, limit: Option<nat>)

  function Effective(q: RowsQuery): Filter { if q.filtered then q.filter else ANY }

  function Slice(rows: seq<Row>, offset: nat, limit: Option<nat>): seq<Row> {
    var tail := if |rows| <= offset then [] else rows[offset..];
    if limit.Some? && |tail| > limit.value then tail[..limit.value] else tail
  }

  /** The whole result, whatever the budget. */
  function FullRows(q: RowsQuery, rows: seq<Row>): seq<Row> { Slice(Filtered(Effective(q), rows), q.offset, q.limit) }

  /** Emit rows one by one, each checked against what is left. */
  function EmitAll(rt: Runtime, rows: seq<Row>, remainingRows: Option<int>,
      remainingBytes: Option<int>): Result<seq<Row>, Denied>
  {
    if rows == [] then Ok([])
    else
      var before := EmitAll(rt, rows[..|rows| - 1], remainingRows, remainingBytes);
      if before.Err? then before
      else if remainingRows.Some? && |rows| - 1 >= remainingRows.value then Err(RowBudget)
      else if Exceeds(EncodedRows(rt, rows), remainingBytes) then Err(ByteBudget)
      else Ok(rows)
  }

  /** `_stream_rows` as a function of the rows it reads. */
  function StreamRowsOf(rt: Runtime, q: RowsQuery, rows: seq<Row>, remainingRows: Option<int>,
      remainingBytes: Option<int>): Result<seq<Row>, Denied>
  {
    if !ValidFilter(Effective(q)) then Err(InvalidWindow)
    else EmitAll(rt, FullRows(q, rows), remainingRows, remainingBytes)
  }

  lemma {:induction false} EmitStays(rt: Runtime, front: seq<Row>, more: seq<Row>, remainingRows: Option<int>,
      remainingBytes: Option<int>)
    requires EmitAll(rt, front, remainingRows, remainingBytes).Err?
    ensures EmitAll(rt, front + more, remainingRows, remainingBytes)
            == EmitAll(rt, front, remainingRows, remainingBytes)
  {
    if more == [] { assert front + more == front; }
    else {
      assert (front + more)[..|front + more| - 1] == front + more[..|more| - 1];
      EmitStays(rt, front, more[..|more| - 1], remainingRows, remainingBytes);
    }
  }

  lemma {:induction false} FilteredExtends(f: Filter, rows: seq<Row>, n: nat) returns (more: seq<Row>)
    requires n <= |rows|
    ensures Filtered(f, rows) == Filtered(f, rows[..n]) + more
    decreases |rows| - n
  {
    if n == |rows| { assert rows[..n] == rows; more := []; }
    else {
      FilteredNext(f, rows, n);
      more := FilteredExtends(f, rows, n + 1);
      more := (if Matches(f, rows[n]) then [rows[n]] else []) + more;
    }
  }

  /** A longer list has a longer slice, up to the limit. */
  lemma SliceExtends(rows: seq<Row>, more: seq<Row>, offset: nat, limit: Option<nat>) returns (tail: seq<Row>)
    ensures Slice(rows + more, offset, limit) == Slice(rows, offset, limit) + tail
    ensures limit.Some? && |Slice(rows, offset, limit)| >= limit.value ==> tail == []
  {
    var a, b := Slice(rows, offset, limit), Slice(rows + more, offset, limit);
    assert |a| <= |b| && a == b[..|a|];
    tail := b[|a|..];
  }

  /** The result so far: the slice of the rows matched among the first `n`. */
  function Upto(q: RowsQuery, rows: seq<Row>, n: nat): seq<Row>
    requires n <= |rows|
  {
    Slice(Filtered(Effective(q), rows[..n]), q.offset, q.limit)
  }

  /** How many matches among the first `n` rows were skipped for the offset. */
  function Skipped(q: RowsQuery, rows: seq<Row>, n: nat): int
    requires n <= |rows|
  {
    Min(|Filtered(Effective(q), rows[..n])|, q.offset)
  }

  /** One more match is skipped, or ignored behind the limit, or appended. */
  lemma UptoNext(q: RowsQuery, rows: seq<Row>, n: nat)
    requires n < |rows|
    ensures Skipped(q, rows, n + 1) ==
            Skipped(q, rows, n) + if Matches(Effective(q), rows[n]) && Skipped(q, rows, n) < q.offset then 1 else 0
    ensures Upto(q, rows, n + 1) ==
            if !Matches(Effective(q), rows[n]) || Skipped(q, rows, n) < q.offset
               || (q.limit.Some? && |Upto(q, rows, n)| >= q.limit.value)
            then Upto(q, rows, n) else Upto(q, rows, n) + [rows[n]]
  {
    FilteredNext(Effective(q), rows, n);
  }

  lemma UptoExtends(q: RowsQuery, rows: seq<Row>, n: nat) returns (tail: seq<Row>)
    requires n <= |rows|
    ensures FullRows(q, rows) == Upto(q, rows, n) + tail
    ensures q.limit.Some? && |Upto(q, rows, n)| >= q.limit.value ==> FullRows(q, rows) == Upto(q, rows, n)
  {
    var more := FilteredExtends(Effective(q), rows, n);
    tail := SliceExtends(Filtered(Effective(q), rows[..n]), more, q.offset, q.limit);
    assert Upto(q, rows, n) + [] == Upto(q, rows, n);
  }

  /** A refusal on the way is the refusal of the whole. */
  lemma RefusedHere(rt: Runtime, q: RowsQuery, rows: seq<Row>, n: nat, remainingRows: Option<int>,
      remainingBytes: Option<int>)
    requires n <= |rows| && EmitAll(rt, Upto(q, rows, n), remainingRows, remainingBytes).Err?
    ensures EmitAll(rt, FullRows(q, rows), remainingRows, remainingBytes)
            == EmitAll(rt, Upto(q, rows, n), remainingRows, remainingBytes)
  {
    var tail := UptoExtends(q, rows, n);
    EmitStays(rt, Upto(q, rows, n), tail, remainingRows, remainingBytes);
  }

  /** One more row: counted, then weighed, then kept. */
  lemma EmitNext(rt: Runtime, rows: seq<Row>, row: Row, remainingRows: Option<int>, remainingBytes: Option<int>)
    requires EmitAll(rt, rows, remainingRows, remainingBytes) == Ok(rows)
    ensures EncodedRows(rt, rows + [row]) == EncodedRows(rt, rows) + rt.size(row) + if rows != [] then 1 else 0
    ensures EmitAll(rt, rows + [row], remainingRows, remainingBytes) ==
            if remainingRows.Some? && |rows| >= remainingRows.value then Err(RowBudget)
            else if Exceeds(EncodedRows(rt, rows + [row]), remainingBytes) then Err(ByteBudget)
            else Ok(rows + [row])
  {
    assert (rows + [row])[..|rows|] == rows;
  }

  /** The checks made before a row joins the result: the encoded length with it, or the refusal. */
  method ChargeRow(rt: Runtime, result: seq<Row>, encoded: int, row: Row, remainingRows: Option<int>,
      remainingBytes: Option<int>)
      returns (r: Result<int, Denied>)
    requires EmitAll(rt, result, remainingRows, remainingBytes) == Ok(result) && encoded == EncodedRows(rt, result)
    ensures EmitAll(rt, result + [row], remainingRows, remainingBytes)
            == if r.Ok? then Ok(result + [row]) else Err(r.error)
    ensures r.Ok? ==> r.value == EncodedRows(rt, result + [row])
  {
    EmitNext(rt, result, row, remainingRows, remainingBytes);
    if remainingRows.Some? && |result| >= remainingRows.value { return Err(RowBudget); }
    var projected := encoded + rt.size(row) + if result != [] then 1 else 0;
    return if Exceeds(projected, remainingBytes) then Err(ByteBudget) else Ok(projected);
  }

  /** `_stream_rows`. */
  method StreamRows(rt: Runtime, q: RowsQuery, rows: seq<Row>, remainingRows: Option<int>, remainingBytes: Option<int>)
      returns (r: Result<seq<Row>, Denied>)
    ensures r == StreamRowsOf(rt, q, rows, remainingRows, remainingBytes)
  {
    var spec := Effective(q);
    if !ValidFilter(spec) { return Err(InvalidWindow); }
    var result: seq<Row> := [];
    var encoded, seen := 2, 0;
    for n := 0 to |rows|
      invariant seen == Skipped(q, rows, n)
      invariant result == Upto(q, rows, n) && encoded == EncodedRows(rt, result)
      invariant EmitAll(rt, result, remainingRows, remainingBytes) == Ok(result)
    {
      var row := rows[n];
      UptoNext(q, rows, n);
      if !Matches(spec, row) { continue; }
      if seen < q.offset { seen := seen + 1; continue; }
      if q.limit.Some? && |result| >= q.limit.value {
        ghost var tail := UptoExtends(q, rows, n);
        return Ok(result);
      }
      var charged := ChargeRow(rt, result, encoded, row, remainingRows, remainingBytes);
      if charged.Err? {
        RefusedHere(rt, q, rows, n + 1, remainingRows, remainingBytes);
        return Err(charged.error);
      }
      encoded := charged.value;
      result := result + [row];
    }
    assert rows[..|rows|] == rows;
    return Ok(result);
  }

  /** The check made on a finished list. */
  predicate Fits(rt: Runtime, rows: seq<Row>, remainingRows: Option<int>, remainingBytes: Option<int>) {
    !Exceeds(|rows|, remainingRows) && !Exceeds(EncodedRows(rt, rows), remainingBytes)
  }

  lemma {:induction false} EncodedAtLeast(rt: Runtime, rows: seq<Row>)
    ensures EncodedRows(rt, rows) >= 2
  {
    if rows != [] { EncodedAtLeast(rt, rows[..|rows| - 1]); }
  }

  /** Emission is refused exactly when a nonempty result would fail the check on the whole; an empty one never is. */
  lemma {:induction false} EmitRefusesIff(rt: Runtime, rows: seq<Row>, remainingRows: Option<int>,
      remainingBytes: Option<int>)
    ensures EmitAll(rt, rows, remainingRows, remainingBytes).Err? <==>
              rows != [] && !Fits(rt, rows, remainingRows, remainingBytes)
    ensures EmitAll(rt, rows, remainingRows, remainingBytes).Ok? ==>
              EmitAll(rt, rows, remainingRows, remainingBytes).value == rows
  {
    if rows != [] {
      var front := rows[..|rows| - 1];
      EmitRefusesIff(rt, front, remainingRows, remainingBytes);
      EncodedAtLeast(rt, front);
    }
  }

  /** Stopping early refuses a row operation exactly when its full result is nonempty and would not fit. */
  lemma EarlyRefusal(rt: Runtime, q: RowsQuery, rows: seq<Row>, remainingRows: Option<int>, remainingBytes: Option<int>)
    requires ValidFilter(Effective(q))
    ensures var full, early := FullRows(q, rows), StreamRowsOf(rt, q, rows, remainingRows, remainingBytes);
            && (early.Err? <==> full != [] && !Fits(rt, full, remainingRows, remainingBytes))
            && (early.Ok? ==> early.value == full)
  {
    EmitRefusesIff(rt, FullRows(q, rows), remainingRows, remainingBytes);
  }

  // ---------------------------------------------------------------- the audited budget

  datatype LogRecord = LogRecord(rows: nat, bytes: nat)

  datatype Audit = Audit(queries: nat, rows: nat, bytes: nat)

  datatype Limits = Limits(queries: Option<int>, rows: Option<int>, bytes: Option<int>)

  /** A query result by its row count and encoded length. */
  datatype Outcome = Outcome(rows: nat, bytes: nat)

  /** What an operation yields when it is told what is left; operations over a loaded payload ignore that. */
  type Operation = (Option<int>, Option<int>) -> Result<Outcome, Denied>

  function Replay(log: seq<LogRecord>): Audit {
    if log == [] then Audit(0, 0, 0)
    else
      var a, r := Replay(log[..|log| - 1]), log[|log| - 1];
      Audit(a.queries + 1, a.rows + r.rows, a.bytes + r.bytes)
  }

  function Left(limit: Option<int>, used: nat): Option<int> { if limit.None? then None else Some(limit.value - used) }

  /** One query against a log: the outcome, or why it was refused. */
  function Charge(log: seq<LogRecord>, limits: Limits, operation: Operation): Result<Outcome, Denied> {
    var a := Replay(log);
    if limits.queries.Some? && a.queries >= limits.queries.value then Err(QueryBudget)
    else
      var r := operation(Left(limits.rows, a.rows), Left(limits.bytes, a.bytes));
      if r.Err? then r
      else if Exceeds(a.rows + r.value.rows, limits.rows) then Err(RowBudget)
      else if Exceeds(a.bytes + r.value.bytes, limits.bytes) then Err(ByteBudget)
      else r
  }

  function Logged(log: seq<LogRecord>, limits: Limits, operation: Operation): seq<LogRecord> {
    var r := Charge(log, limits, operation);
    if r.Ok? then log + [LogRecord(r.value.rows, r.value.bytes)] else log
  }

  function LoggedAll(limits: Limits, operations: seq<Operation>): seq<LogRecord> {
    if operations == [] then []
    else Logged(LoggedAll(limits, operations[..|operations| - 1]), limits, operations[|operations| - 1])
  }

  predicate WithinLimits(a: Audit, limits: Limits) {
    && (a.queries > 0 ==>
          && !Exceeds(a.queries, limits.queries)
          && !Exceeds(a.rows, limits.rows)
          && !Exceeds(a.bytes, limits.bytes))
  }

  /** Over any sequence of queries no limit is passed. */
  lemma {:induction false} BudgetHolds(limits: Limits, operations: seq<Operation>)
    ensures WithinLimits(Replay(LoggedAll(limits, operations)), limits)
  {
    if operations != [] {
      var front, last := operations[..|operations| - 1], operations[|operations| - 1];
      BudgetHolds(limits, front);
      var log := LoggedAll(limits, front);
      var r := Charge(log, limits, last);
      if r.Ok? { ReplayNext(log, LogRecord(r.value.rows, r.value.bytes)); }
    }
  }

  lemma ReplayNext(log: seq<LogRecord>, r: LogRecord)
    ensures Replay(log + [r]) == Audit(Replay(log).queries + 1, Replay(log).rows + r.rows, Replay(log).bytes + r.bytes)
  {
    assert (log + [r])[..|log|] == log;
  }

  /** The rows all logged queries returned. */
  function RowsIn(log: seq<LogRecord>): nat { if log == [] then 0 else log[0].rows + RowsIn(log[1..]) }

  function BytesIn(log: seq<LogRecord>): nat { if log == [] then 0 else log[0].bytes + BytesIn(log[1..]) }

  /** The totals are the number of records and the sums over them. */
  lemma {:induction false} ReplayTotals(log: seq<LogRecord>)
    ensures Replay(log) == Audit(|log|, RowsIn(log), BytesIn(log))
  {
    if log != [] {
      ReplayTotals(log[..|log| - 1]);
      InLast(log);
    }
  }

  lemma {:induction false} InLast(log: seq<LogRecord>)
    requires log != []
    ensures RowsIn(log) == RowsIn(log[..|log| - 1]) + log[|log| - 1].rows
    ensures BytesIn(log) == BytesIn(log[..|log| - 1]) + log[|log| - 1].bytes
  {
    if |log| > 1 {
      InLast(log[1..]);
      assert log[1..][..|log| - 2] == log[..|log| - 1][1..];
    }
  }

  /** What is left of a limit, none if there is none. */
  predicate IsLeft(left: Option<int>, limit: Option<int>, used: nat) {
    if limit.None? then left.None? else left == Some(limit.value - used)
  }

  /** A query is answered exactly when one more is allowed, the operation answers, and its rows and bytes still fit. */
  ghost predicate Answered(log: seq<LogRecord>, limits: Limits, outcome: Result<Outcome, Denied>) {
    && (limits.queries.Some? ==> |log| + 1 <= limits.queries.value)
    && outcome.Ok?
    && (limits.rows.Some? ==> RowsIn(log) + outcome.value.rows <= limits.rows.value)
    && (limits.bytes.Some? ==> BytesIn(log) + outcome.value.bytes <= limits.bytes.value)
  }

  /** The last query a budget permits is answered like any other, and what is answered is what is logged. */
  lemma ChargeAnswers(log: seq<LogRecord>, limits: Limits, operation: Operation, rowsLeft: Option<int>,
      bytesLeft: Option<int>)
    requires IsLeft(rowsLeft, limits.rows, RowsIn(log)) && IsLeft(bytesLeft, limits.bytes, BytesIn(log))
    ensures Charge(log, limits, operation).Ok? <==> Answered(log, limits, operation(rowsLeft, bytesLeft))
    ensures Charge(log, limits, operation).Ok? ==>
              var o := operation(rowsLeft, bytesLeft).value;
              && Charge(log, limits, operation) == Ok(o)
              && Logged(log, limits, operation) == log + [LogRecord(o.rows, o.bytes)]
    ensures Charge(log, limits, operation).Err? ==> Logged(log, limits, operation) == log
  {
    ReplayTotals(log);
  }

  class CapsuleQuery {
    const limits: Limits
    var audit: Audit
    var log: seq<LogRecord>

    constructor (limits: Limits)
      ensures this.limits == limits && log == [] && audit == Replay(log)
    {
      this.limits := limits;
      log, audit := [], Audit(0, 0, 0);
    }

    /** `_load_audit`: the totals come from the log and from nothing else. */
    method LoadAudit() returns (a: Audit)
      ensures a == Replay(log)
      ensures a == Audit(|log|, RowsIn(log), BytesIn(log))
    {
      ReplayTotals(log);
      a := Audit(0, 0, 0);
      for n := 0 to |log|
        invariant a == Replay(log[..n])
      {
        assert log[..n + 1][..n] == log[..n];
        a := Audit(a.queries + 1, a.rows + log[n].rows, a.bytes + log[n].bytes);
      }
      assert log[..|log|] == log;
    }

    /** `execute`: a refused query leaves the log as it was, and the totals always are those of the log. */
    method Execute(operation: Operation) returns (r: Result<Outcome, Denied>)
      modifies this
      ensures r == Charge(old(log), limits, operation)
      ensures log == Logged(old(log), limits, operation)
      ensures audit == Replay(log)
      ensures forall rowsLeft, bytesLeft | && IsLeft(rowsLeft, limits.rows, RowsIn(old(log)))
                                           && IsLeft(bytesLeft, limits.bytes, BytesIn(old(log))) ::
                && (r.Ok? <==> Answered(old(log), limits, operation(rowsLeft, bytesLeft)))
                && (r.Ok? ==> r == operation(rowsLeft, bytesLeft))
      ensures log == if r.Ok? then old(log) + [LogRecord(r.value.rows, r.value.bytes)] else old(log)
      ensures r.Ok? ==>
                && !Exceeds(audit.queries, limits.queries)
                && !Exceeds(audit.rows, limits.rows)
                && !Exceeds(audit.bytes, limits.bytes)
    {
      forall rowsLeft, bytesLeft | && IsLeft(rowsLeft, limits.rows, RowsIn(log))
                                   && IsLeft(bytesLeft, limits.bytes, BytesIn(log))
        ensures Charge(log, limits, operation).Ok? <==> Answered(log, limits, operation(rowsLeft, bytesLeft))
        ensures Charge(log, limits, operation).Ok? ==> Charge(log, limits, operation) == operation(rowsLeft, bytesLeft)
      {
        ChargeAnswers(log, limits, operation, rowsLeft, bytesLeft);
      }
      audit := LoadAudit();
      if limits.queries.Some? && audit.queries >= limits.queries.value { return Err(QueryBudget); }
      r := operation(Left(limits.rows, audit.rows), Left(limits.bytes, audit.bytes));
      if r.Err? { return; }
      if Exceeds(audit.rows + r.value.rows, limits.rows) { return Err(RowBudget); }
      if Exceeds(audit.bytes + r.value.bytes, limits.bytes) { return Err(ByteBudget); }
      ReplayNext(log, LogRecord(r.value.rows, r.value.bytes));
      audit := Audit(audit.queries + 1, audit.rows + r.value.rows, audit.bytes + r.value.bytes);
      log := log + [LogRecord(r.value.rows, r.value.bytes)];
    }
  }

  // ---------------------------------------------------------------- stopping early changes no account

  function Weighed(rt: Runtime, r: Result<seq<Row>, Denied>): Result<Outcome, Denied> {
    if r.Err? then Err(r.error) else Ok(Outcome(|r.value|, EncodedRows(rt, r.value)))
  }

  /** A row operation over the stream, told what is left. */
  function Streaming(rt: Runtime, q: RowsQuery, rows: seq<Row>): Operation {
    (remainingRows: Option<int>, remainingBytes: Option<int>) =>
      Weighed(rt, StreamRowsOf(rt, q, rows, remainingRows, remainingBytes))
  }

  /** The same operation over a loaded payload. */
  function Loaded(rt: Runtime, q: RowsQuery, rows: seq<Row>): Operation {
    (remainingRows: Option<int>, remainingBytes: Option<int>) =>
      if ValidFilter(Effective(q)) then Weighed(rt, Ok(FullRows(q, rows))) else Err(InvalidWindow)
  }

  /** Charged to the same log, the stream and the loaded payload are both refused, or both give the same outcome, and
      leave the same log. */
  lemma StreamChargesAlike(rt: Runtime, q: RowsQuery, rows: seq<Row>, log: seq<LogRecord>, limits: Limits)
    ensures var fast, simple := Charge(log, limits, Streaming(rt, q, rows)), Charge(log, limits, Loaded(rt, q, rows));
            && (fast.Ok? <==> simple.Ok?) && (fast.Ok? ==> fast == simple)
            && Logged(log, limits, Streaming(rt, q, rows)) == Logged(log, limits, Loaded(rt, q, rows))
  {
    var a := Replay(log);
    if ValidFilter(Effective(q)) { EarlyRefusal(rt, q, rows, Left(limits.rows, a.rows), Left(limits.bytes, a.bytes)); }
  }
}
