/** Rows of a query product, the filter every tabular operation applies, and the orders results are sorted by. */
module QueryRows {
  import opened Prelude
  import opened TextOrder

  datatype Value =
    | Null
    | Flag(on: bool)
    | Number(number: real)
    | Infinite(positive: bool)
    | NotANumber
    | Text(text: string)
    | Composite(json: string)   // a list or an object, known by its canonical text

  type Row = map<string, Value>

  datatype Kind = Bar | Absence | Security | Session

  datatype Record = Record(kind: Kind, row: Row)

  datatype Denied = RowBudget | ByteBudget | QueryBudget | InvalidWindow | InvalidLimit | LongKey | NoValueField

  /** What the host language does with a value: reading a number from text, `str`, and encoded lengths. */
  datatype Runtime = Runtime(
    parse: string -> Option<real>, str: Value -> string, size: Row -> nat, bytes: string -> nat)

  /** An amount is more than what is left of a budget; no budget is never exceeded. */
  predicate Exceeds(amount: int, remaining: Option<int>) { remaining.Some? && amount > remaining.value }

  /** Encoded length of a list: brackets, rows and commas. */
  function EncodedRows(rt: Runtime, rows: seq<Row>): nat {
    if rows == [] then 2
    else EncodedRows(rt, rows[..|rows| - 1]) + rt.size(rows[|rows| - 1]) + (if |rows| > 1 then 1 else 0)
  }

  /** Python's `==` on JSON values: a flag equals the number 1 or 0, and a NaN equals nothing. */
  predicate Same(a: Value, b: Value) {
    match (a, b)
    case (Flag(x), Number(y)) => y == if x then 1.0 else 0.0
    case (Number(x), Flag(y)) => x == if y then 1.0 else 0.0
    case (NotANumber, _) => false
    case _ => a == b
  }

  function Get(row: Row, field: string): Value { if field in row then row[field] else Null }

  /** `_numeric`: finite numbers and text that reads as one; flags do not count. */
  function Numeric(rt: Runtime, v: Value): Option<real> {
    match v
    case Number(n) => Some(n)
    case Text(s) => rt.parse(s)
    case _ => None
  }

  // ---------------------------------------------------------------- dates and filters

  predicate IsDigit(c: char) { '0' <= c <= '9' }

  /** `dddd-dd-dd`. */
  predicate IsDate(s: string) {
    && |s| == 10 && s[4] == '-' && s[7] == '-'
    && forall i :: 0 <= i < 10 && i != 4 && i != 7 ==> IsDigit(s[i])
  }

  datatype Filter = Filter(
    field: Option<(string, Value)>, codes: Option<set<string>>, start: Option<string>, end: Option<string>)

  const ANY := Filter(None, None, None, None)

  /** `_filter_spec` and `_filtered_rows` refuse a date that is not one, and a window that ends before it starts. */
  predicate ValidFilter(f: Filter) {
    && (f.start.Some? ==> IsDate(f.start.value))
    && (f.end.Some? ==> IsDate(f.end.value))
    && (f.start.Some? && f.end.Some? ==> StrLe(f.start.value, f.end.value))
  }

  predicate InWindow(d: string, start: string, end: string) { StrLe(start, d) && StrLe(d, end) }

  predicate CodeMatches(f: Filter, row: Row) {
    f.codes.Some? ==> Get(row, "code").Text? && Get(row, "code").text in f.codes.value
  }

  predicate FieldMatches(f: Filter, row: Row) {
    f.field.Some? ==> Same(Get(row, f.field.value.0), f.field.value.1)
  }

  predicate DateMatches(f: Filter, row: Row) {
    f.start.Some? || f.end.Some? ==>
      && Get(row, "trade_date").Text? && IsDate(Get(row, "trade_date").text)
      && (f.start.Some? ==> StrLe(f.start.value, Get(row, "trade_date").text))
      && (f.end.Some? ==> StrLe(Get(row, "trade_date").text, f.end.value))
  }

  /** `_matches_filter`. */
  predicate Matches(f: Filter, row: Row) { FieldMatches(f, row) && CodeMatches(f, row) && DateMatches(f, row) }

  /** `_filtered_rows`: the matching rows in their order. */
  function Filtered(f: Filter, rows: seq<Row>): seq<Row> {
    if rows == [] then []
    else
      var front, row := Filtered(f, rows[..|rows| - 1]), rows[|rows| - 1];
      if Matches(f, row) then front + [row] else front
  }

  lemma FilteredNext(f: Filter, rows: seq<Row>, n: nat)
    requires n < |rows|
    ensures Filtered(f, rows[..n + 1])
            == if Matches(f, rows[n]) then Filtered(f, rows[..n]) + [rows[n]] else Filtered(f, rows[..n])
  {
    assert rows[..n + 1][..n] == rows[..n];
  }

  // ---------------------------------------------------------------- sorted key lists

  /** The least text of a nonempty set. */
  predicate Least(s: set<string>, m: string) { m in s && forall k :: k in s ==> StrLe(m, k) }

  lemma {:induction false} LeastExists(s: set<string>)
    requires s != {}
    ensures exists m :: Least(s, m)
    decreases |s|
  {
    var k :| k in s;
    StrLeTotal(k, k);
    if forall x :: x in s ==> x == k { assert Least(s, k); }
    else {
      var rest := s - {k};
      LeastExists(rest);
      var m :| Least(rest, m);
      StrLeTotal(k, m);
      if StrLe(k, m) {
        forall x | x in s ensures StrLe(k, x) { if x != k { StrLeTransitive(k, m, x); } }
        assert Least(s, k);
      } else {
        assert Least(s, m);
      }
    }
  }

  lemma LeastUnique(s: set<string>, a: string, b: string)
    requires Least(s, a) && Least(s, b)
    ensures a == b
  {
    StrLeAntisymmetric(a, b);
  }

  /** `sorted(keys)`. */
  ghost function SortedKeys(s: set<string>): seq<string>
    decreases |s|
  {
    if s == {} then []
    else
      LeastExists(s);
      var m :| Least(s, m);
      [m] + SortedKeys(s - {m})
  }

  ghost predicate Listed(s: set<string>, keys: seq<string>) {
    && (forall k :: k in keys <==> k in s)
    && (forall i, j :: 0 <= i < j < |keys| ==> StrLe(keys[i], keys[j]) && keys[i] != keys[j])
  }

  lemma ListedFirst(s: set<string>, m: string, rest: seq<string>)
    requires Least(s, m) && Listed(s - {m}, rest)
    ensures Listed(s, [m] + rest)
  {
    var keys := [m] + rest;
    forall i, j | 0 <= i < j < |keys| ensures StrLe(keys[i], keys[j]) && keys[i] != keys[j] {
      assert keys[j] == rest[j - 1] && keys[j] in rest;
    }
  }

  /** Sorting lists every key once, in order. */
  lemma {:induction false} SortedKeysMeans(s: set<string>)
    ensures Listed(s, SortedKeys(s))
    decreases |s|
  {
    if s != {} {
      LeastExists(s);
      var m :| Least(s, m) && SortedKeys(s) == [m] + SortedKeys(s - {m});
      SortedKeysMeans(s - {m});
      ListedFirst(s, m, SortedKeys(s - {m}));
    }
  }
}
