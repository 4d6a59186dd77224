/** What values, encoded lists and dates mean: equality, numbers, lengths, and dates compared as texts. */
module QueryScalars {
  import opened Prelude
  import opened TextOrder
  import opened QueryRows

  // ---------------------------------------------------------------- values

  /** The number a value is equal to, if it is one: flags are one or zero. */
  function NumberView(v: Value): Option<real> {
    match v
    case Flag(on) => Some(if on then 1.0 else 0.0)
    case Number(n) => Some(n)
    case _ => None
  }

  /** Two values are equal when they are the same number, or the very same value; what is no number equals nothing. */
  lemma SameMeans(a: Value, b: Value)
    ensures Same(a, b) <==>
            if NumberView(a).Some? && NumberView(b).Some? then NumberView(a) == NumberView(b)
            else a == b && a != NotANumber
  {}

  /** The finite numbers and the texts that read as one have a number; flags have none. */
  lemma NumericMeans(rt: Runtime, v: Value, n: real)
    ensures Numeric(rt, v) == Some(n) <==> v == Number(n) || (v.Text? && rt.parse(v.text) == Some(n))
  {}

  // ---------------------------------------------------------------- lists as text

  /** Texts with commas between them. */
  function Joined(texts: seq<string>): string {
    if |texts| <= 1 then (if texts == [] then "" else texts[0])
    else Joined(texts[..|texts| - 1]) + "," + texts[|texts| - 1]
  }

  /** The encoded length of rows is that of the bracketed list of their texts. */
  lemma {:induction false} EncodedAsList(rt: Runtime, rows: seq<Row>, texts: seq<string>)
    requires |texts| == |rows| && forall i :: 0 <= i < |rows| ==> |texts[i]| == rt.size(rows[i])
    ensures EncodedRows(rt, rows) == |"[" + Joined(texts) + "]"|
  {
    if rows != [] { EncodedAsList(rt, rows[..|rows| - 1], texts[..|texts| - 1]); }
  }

  // ---------------------------------------------------------------- dates

  predicate AllDigits(s: string) { forall i :: 0 <= i < |s| ==> '0' <= s[i] <= '9' }

  predicate DateParts(s: string, year: string, month: string, day: string) {
    && |year| == 4 && |month| == 2 && |day| == 2 && AllDigits(year) && AllDigits(month) && AllDigits(day)
    && s == year + "-" + month + "-" + day
  }

  lemma PartsOf(s: string)
    requires IsDate(s)
    ensures DateParts(s, s[..4], s[5..7], s[8..])
  {
    assert s == s[..4] + [s[4]] + s[5..7] + [s[7]] + s[8..];
  }

  /** A date is four digits, two and two with hyphens between. */
  lemma DateText(s: string)
    ensures IsDate(s) <==> exists year, month, day :: DateParts(s, year, month, day)
  {
    if IsDate(s) { PartsOf(s); }
    if year, month, day :| DateParts(s, year, month, day) { JoinedIsDate(year, month, day); }
  }

  lemma JoinedIsDate(year: string, month: string, day: string)
    requires DateParts(year + "-" + month + "-" + day, year, month, day)
    ensures IsDate(year + "-" + month + "-" + day)
  {
    var s := year + "-" + month + "-" + day;
    assert s[..4] == year && s[5..7] == month && s[8..] == day;
    forall i | 0 <= i < 10 && i != 4 && i != 7 ensures IsDigit(s[i]) {
      assert s[i] == if i < 4 then year[i] else if i < 7 then month[i - 5] else day[i - 8];
    }
  }

  function PowerOfTen(k: nat): nat { if k == 0 then 1 else 10 * PowerOfTen(k - 1) }

  /** The number that digits spell. */
  function Spelled(s: string): nat
    requires AllDigits(s)
  {
    if s == [] then 0 else (s[0] - '0') as nat * PowerOfTen(|s| - 1) + Spelled(s[1..])
  }

  lemma {:induction false} SpelledBelow(s: string)
    requires AllDigits(s)
    ensures Spelled(s) < PowerOfTen(|s|)
  {
    if s != [] {
      SpelledBelow(s[1..]);
      Scaled((s[0] - '0') as nat, 9, PowerOfTen(|s| - 1));
    }
  }

  lemma Scaled(x: nat, y: nat, p: nat)
    requires x <= y
    ensures x * p <= y * p
  {}

  /** The leading digit decides. */
  lemma Leading(x: nat, y: nat, p: nat, u: nat, v: nat)
    requires u < p && v < p
    ensures x * p + u <= y * p + v <==> x < y || (x == y && u <= v)
  {
    if x < y {
      Scaled(x + 1, y, p);
      assert (x + 1) * p == x * p + p;
    } else if y < x {
      Scaled(y + 1, x, p);
      assert (y + 1) * p == y * p + p;
    }
  }

  /** Digits of equal length sort as the numbers they spell. */
  lemma {:induction false} DigitsInOrder(a: string, b: string)
    requires AllDigits(a) && AllDigits(b) && |a| == |b|
    ensures StrLe(a, b) <==> Spelled(a) <= Spelled(b)
  {
    if a != [] {
      var p := PowerOfTen(|a| - 1);
      var x, y := (a[0] - '0') as nat, (b[0] - '0') as nat;
      DigitsInOrder(a[1..], b[1..]);
      SpelledBelow(a[1..]);
      SpelledBelow(b[1..]);
      Leading(x, y, p, Spelled(a[1..]), Spelled(b[1..]));
    }
  }

  lemma {:induction false} LedBy(a: string, b: string, u: string, v: string)
    requires |a| == |b|
    ensures StrLe(a + u, b + v) <==> if a == b then StrLe(u, v) else StrLe(a, b)
  {
    if a == [] { assert a + u == u && b + v == v; }
    else {
      LedBy(a[1..], b[1..], u, v);
      assert (a + u)[1..] == a[1..] + u && (b + v)[1..] == b[1..] + v;
      assert a == [a[0]] + a[1..] && b == [b[0]] + b[1..];
    }
  }

  function Year(s: string): nat
    requires IsDate(s)
  {
    Spelled(s[..4])
  }

  function Month(s: string): nat
    requires IsDate(s)
  {
    Spelled(s[5..7])
  }

  function Day(s: string): nat
    requires IsDate(s)
  {
    Spelled(s[8..])
  }

  predicate NotLater(a: string, b: string)
    requires IsDate(a) && IsDate(b)
  {
    || Year(a) < Year(b)
    || (Year(a) == Year(b) && (Month(a) < Month(b) || (Month(a) == Month(b) && Day(a) <= Day(b))))
  }

  /** The same digits, or digits spelling different numbers. */
  lemma SameDigits(a: string, b: string)
    requires AllDigits(a) && AllDigits(b) && |a| == |b|
    ensures a == b <==> Spelled(a) == Spelled(b)
  {
    DigitsInOrder(a, b);
    DigitsInOrder(b, a);
    if Spelled(a) == Spelled(b) { StrLeAntisymmetric(a, b); }
  }

  /** Dates compared as texts stand in the order of year, month and day: what every date filter relies on. */
  lemma DatesInOrder(a: string, b: string)
    requires IsDate(a) && IsDate(b)
    ensures StrLe(a, b) <==> NotLater(a, b)
  {
    PartsOf(a);
    PartsOf(b);
    var restA, restB := a[5..7] + "-" + a[8..], b[5..7] + "-" + b[8..];
    assert a == a[..4] + ("-" + restA) && b == b[..4] + ("-" + restB);
    LedBy(a[..4], b[..4], "-" + restA, "-" + restB);
    LedBy("-", "-", restA, restB);
    MonthsInOrder(a, b);
    PartOrder(a[..4], b[..4]);
  }

  /** Within a year the months decide, and then the days. */
  lemma MonthsInOrder(a: string, b: string)
    requires IsDate(a) && IsDate(b)
    ensures StrLe(a[5..7] + "-" + a[8..], b[5..7] + "-" + b[8..]) <==>
            Month(a) < Month(b) || (Month(a) == Month(b) && Day(a) <= Day(b))
  {
    var restA, restB := a[5..7] + "-" + a[8..], b[5..7] + "-" + b[8..];
    assert restA == a[5..7] + ("-" + a[8..]) && restB == b[5..7] + ("-" + b[8..]);
    LedBy(a[5..7], b[5..7], "-" + a[8..], "-" + b[8..]);
    LedBy("-", "-", a[8..], b[8..]);
    PartOrder(a[5..7], b[5..7]);
    PartOrder(a[8..], b[8..]);
  }

  lemma PartOrder(a: string, b: string)
    requires AllDigits(a) && AllDigits(b) && |a| == |b|
    ensures StrLe(a, b) <==> Spelled(a) <= Spelled(b)
    ensures a == b <==> Spelled(a) == Spelled(b)
  {
    DigitsInOrder(a, b);
    SameDigits(a, b);
  }
}
