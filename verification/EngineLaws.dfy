/** End to end: a run sealed complete means every listed session of every item is covered. */
module EngineLaws {
  import opened Prelude
  import opened ControlModel
  import opened MarketFacts
  import opened StableSort
  import opened EngineModel

  // ---------------------------------------------------------------- sessions and batches

  lemma {:induction false} BetweenMeans(sessions: seq<Date>, lo: Date, hi: Date, d: Date)
    ensures d in Between(sessions, lo, hi) <==> d in sessions && lo <= d <= hi
  {
    if sessions != [] {
      BetweenMeans(sessions[..|sessions| - 1], lo, hi, d);
      assert sessions == sessions[..|sessions| - 1] + [sessions[|sessions| - 1]];
    }
  }

  lemma {:induction false} BetweenAscending(sessions: seq<Date>, lo: Date, hi: Date)
    requires Ascending(sessions)
    ensures Ascending(Between(sessions, lo, hi))
  {
    if sessions != [] {
      var front := sessions[..|sessions| - 1];
      BetweenAscending(front, lo, hi);
      forall i | 0 <= i < |Between(front, lo, hi)| ensures Between(front, lo, hi)[i] < sessions[|sessions| - 1] {
        BetweenMeans(front, lo, hi, Between(front, lo, hi)[i]);
      }
    }
  }

  lemma {:induction false} OnDatesMeans(batch: seq<Fact>, dates: set<Date>, b: Fact)
    ensures b in OnDates(batch, dates) <==> b in batch && b.date in dates
  {
    if batch != [] {
      OnDatesMeans(batch[..|batch| - 1], dates, b);
      assert batch == batch[..|batch| - 1] + [batch[|batch| - 1]];
    }
  }

  predicate DistinctDates(batch: seq<Fact>) { forall i, j :: 0 <= i < j < |batch| ==> batch[i].date != batch[j].date }

  predicate AscendingDates(batch: seq<Fact>) { forall i, j :: 0 <= i < j < |batch| ==> batch[i].date < batch[j].date }

  lemma InAt<T>(s: seq<T>, x: T) returns (i: nat)
    requires x in s
    ensures i < |s| && s[i] == x
  {
    i :| 0 <= i < |s| && s[i] == x;
  }

  /** Sorting facts with different dates puts each date after the one before. */
  lemma SortByDateAscends(batch: seq<Fact>)
    requires DistinctDates(batch)
    ensures AscendingDates(SortByDate(batch)) && multiset(SortByDate(batch)) == multiset(batch)
  {
    var s := SortByDate(batch);
    SortBag(ByDate, batch);
    SortSorted(ByDate, batch);
    PermutedDistinct(batch, s);
    forall i, j | 0 <= i < j < |s| ensures s[i].date < s[j].date {
      SameElements(s, batch, s[i]);
      SameElements(s, batch, s[j]);
      var k := InAt(batch, s[i]);
      var l := InAt(batch, s[j]);
      assert k != l && s[i].date <= s[j].date;
    }
  }

  lemma {:induction false} OnDatesDistinct(batch: seq<Fact>, dates: set<Date>)
    requires DistinctDates(batch)
    ensures DistinctDates(OnDates(batch, dates))
  {
    if batch != [] {
      var front, b := batch[..|batch| - 1], batch[|batch| - 1];
      OnDatesDistinct(front, dates);
      var kept := OnDates(front, dates);
      forall i | 0 <= i < |kept| ensures kept[i].date != b.date {
        OnDatesMeans(front, dates, kept[i]);
        var k := InAt(front, kept[i]);
      }
    }
  }

  /** An accepted answer is cut down to its bars on missing dates, in strictly ascending date order. */
  lemma SelectedBars(bars: seq<Fact>, code: Code, expected: set<Date>, missing: set<Date>)
    requires SelectBars(bars, code, expected, missing).Some?
    ensures var selected := SelectBars(bars, code, expected, missing).value;
            && AscendingDates(selected)
            && (forall b :: b in selected <==> b in bars && b.date in missing)
            && (forall b :: b in selected ==> b.code == code && b.date in missing)
  {
    var kept := OnDates(bars, missing);
    OnDatesDistinct(bars, missing);
    SortByDateAscends(kept);
    forall b ensures b in SortByDate(kept) <==> b in bars && b.date in missing {
      OnDatesMeans(bars, missing, b);
      SameElements(SortByDate(kept), kept, b);
    }
  }

  lemma SelectedAbsences(absences: seq<Fact>, code: Code, unresolved: set<Date>)
    requires SelectAbsences(absences, code, unresolved).Some?
    ensures var selected := SelectAbsences(absences, code, unresolved).value;
            && AscendingDates(selected)
            && (forall b :: b in selected <==> b in absences)
            && (forall b :: b in selected ==> b.code == code && b.date in unresolved)
  {
    SortByDateAscends(absences);
    forall b ensures b in SortByDate(absences) <==> b in absences { SameElements(SortByDate(absences), absences, b); }
  }

  lemma {:induction false} FactorAtMeans(received: seq<Fact>, code: Code, d: Date)
    ensures var f := FactorAt(received, code, d); f.Some? ==> f.value.code == code && f.value.date == d
    ensures FactorAt(received, code, d).Some? <==>
            exists i :: 0 <= i < |received| && received[i].code == code && received[i].date == d
  {
    if received != [] {
      var front := received[..|received| - 1];
      FactorAtMeans(front, code, d);
      if i :| 0 <= i < |front| && front[i].code == code && front[i].date == d { assert received[i] == front[i]; }
      if i :| 0 <= i < |received| && received[i].code == code && received[i].date == d && i < |front| {
        assert front[i] == received[i];
      }
    }
  }

  lemma {:induction false} FactorsForMeans(code: Code, bars: seq<Fact>, received: seq<Fact>)
    requires forall b :: b in bars ==> FactorAt(received, code, b.date).Some?
    ensures forall b :: b in bars ==> (code, b.date) in Keys(FactorsFor(code, bars, received))
  {
    if bars != [] {
      var front, last := bars[..|bars| - 1], bars[|bars| - 1];
      assert bars == front + [last];
      FactorsForMeans(code, front, received);
      FactorAtMeans(received, code, last.date);
      KeysSplit(FactorsFor(code, bars, received));
      var factors := FactorsFor(code, bars, received);
      assert factors[..|factors| - 1] == FactorsFor(code, front, received);
    }
  }

  /** Matched factors give every bar of the batch a factor. */
  lemma MatchedFactors(code: Code, bars: seq<Fact>, received: seq<Fact>)
    requires MatchFactors(code, bars, received).Some?
    ensures forall b :: b in bars ==> (code, b.date) in Keys(MatchFactors(code, bars, received).value)
  {
    forall b | b in bars ensures FactorAt(received, code, b.date).Some? {
      assert b.date in Dates(bars);
      var i :| 0 <= i < |received| && received[i].date == b.date;
      FactorAtMeans(received, code, b.date);
    }
    FactorsForMeans(code, bars, received);
  }

  // ---------------------------------------------------------------- one security

  /** No date is both traded and suspended, and every stored bar passed. */
  predicate FactsSound(f: Facts) {
    f.bars.Keys !! f.absences.Keys && forall k :: k in f.bars ==> f.bars[k].passed
  }

  predicate AllCovered(f: Facts, code: Code, expected: seq<Date>) {
    forall d :: d in expected ==> Covered(f, code, d)
  }

  predicate AllFactored(f: Facts, code: Code, expected: seq<Date>) {
    forall d :: d in expected && (code, d) in f.bars ==> (code, d) in f.factors
  }

  lemma DatesOf(batch: seq<Fact>, d: Date)
    ensures d in Dates(batch) <==> exists b :: b in batch && d == b.date
  {
    if d in Dates(batch) {
      var i :| 0 <= i < |batch| && batch[i].date == d;
      assert batch[i] in batch;
    }
    if b :| b in batch && d == b.date {
      var i :| 0 <= i < |batch| && batch[i] == b;
    }
  }

  /** Committing what was selected keeps traded and suspended dates apart, and covers every received date. */
  lemma CommitSelected(f: Facts, code: Code, missing: set<Date>, bars: seq<Fact>, factors: seq<Fact>,
      absences: seq<Fact>)
    requires FactsSound(f) && (forall d :: d in missing ==> !Covered(f, code, d))
    requires forall b :: b in bars ==> b.code == code && b.date in missing
    requires forall b :: b in absences ==> b.code == code && b.date in missing - Dates(bars)
    ensures var g := Commit(f, bars, factors, absences);
            && FactsSound(g) && Grows(f, g)
            && (forall d :: d in Dates(bars) + Dates(absences) ==> Covered(g, code, d))
  {
    var g := Commit(f, bars, factors, absences);
    CommitGrows(f, bars, factors, absences);
    forall k | k in g.bars ensures k !in g.absences && g.bars[k].passed {
      if k in g.absences {
        KeysOf(bars, k);
        KeysOf(absences, k);
        DatesOf(bars, k.1);
        if k in f.absences && k !in f.bars { assert Covered(f, code, k.1); }
      }
    }
    forall d | d in Dates(bars) + Dates(absences) ensures Covered(g, code, d) {
      DatesOf(bars, d);
      DatesOf(absences, d);
      KeysOf(bars, (code, d));
      KeysOf(absences, (code, d));
    }
  }

  /** Storing keeps the facts sound, and hands on to the factor check only when every missing date is covered. */
  lemma StoreLaw(f: Facts, code: Code, missing: set<Date>, bars: seq<Fact>, factors: seq<Fact>, absences: seq<Fact>)
    requires FactsSound(f) && (forall d :: d in missing ==> !Covered(f, code, d))
    requires forall b :: b in bars ==> b.code == code && b.date in missing
    requires forall b :: b in absences ==> b.code == code && b.date in missing - Dates(bars)
    ensures var (g, next) := Store(f, missing - Dates(bars), bars, factors, absences);
            && FactsSound(g) && Grows(f, g)
            && (next.ToFactors? ==> forall d :: d in missing ==> Covered(g, code, d))
            && (next.ToMark? ==> CountsFailed(next.status))
  {
    CommitSelected(f, code, missing, bars, factors, absences);
    var (g, next) := Store(f, missing - Dates(bars), bars, factors, absences);
    if next.ToFactors? {
      forall d | d in missing ensures d in Dates(bars) + Dates(absences) {
        assert d !in (missing - Dates(bars)) - Dates(absences);
      }
    }
  }

  /** One ingestion keeps the facts sound, and hands on to the factor check only when every session is covered. */
  lemma IngestLaw(f: Facts, code: Code, expected: seq<Date>, a: Answer)
    requires FactsSound(f)
    ensures var (g, next) := Ingest(f, code, expected, a);
            && FactsSound(g) && Grows(f, g)
            && (next.ToFactors? ==> AllCovered(g, code, expected))
            && (next.ToMark? ==> CountsFailed(next.status))
  {
    var missing := MissingDates(f, code, expected);
    var (g, next) := Ingest(f, code, expected, a);
    if missing != {} && a.renewed && a.bars.Some? {
      var bars := SelectBars(a.bars.value, code, (set d | d in expected), missing);
      if bars.Some? && a.absences.Some? {
        var absences := SelectAbsences(a.absences.value, code, missing - Dates(bars.value));
        SelectedBars(a.bars.value, code, (set d | d in expected), missing);
        if absences.Some? {
          SelectedAbsences(a.absences.value, code, missing - Dates(bars.value));
          var factors := if bars.value == [] then Some([])
                         else if a.factors.None? then None
                         else MatchFactors(code, bars.value, a.factors.value);
          if factors.Some? { StoreLaw(f, code, missing, bars.value, factors.value, absences.value); }
        }
      }
    }
    if next.ToFactors? { MissingCovered(f, g, code, expected); }
  }

  /** Once the missing dates are covered every expected date is. */
  lemma MissingCovered(f: Facts, g: Facts, code: Code, expected: seq<Date>)
    requires Grows(f, g) && forall d :: d in MissingDates(f, code, expected) ==> Covered(g, code, d)
    ensures AllCovered(g, code, expected)
  {
    forall d | d in expected ensures Covered(g, code, d) {
      if d !in MissingDates(f, code, expected) { CoverageStays(f, g, code, d); }
    }
  }

  /** Every given date with an answered factor has one among those chosen, and nothing else is chosen. */
  lemma {:induction false} FactorsOnMeans(received: seq<Fact>, code: Code, dates: set<Date>, first: Date, last: Date)
    ensures var chosen := FactorsOn(received, code, dates, first, last);
            && (forall b :: b in chosen ==> b.code == code && b.date in dates)
            && (forall d :: d in dates && first <= d <= last && FactorAt(received, code, d).Some? ==>
                  (code, d) in Keys(chosen))
    decreases last - first
  {
    if first <= last {
      FactorsOnMeans(received, code, dates, first, last - 1);
      FactorAtMeans(received, code, last);
      var chosen, front :=
        FactorsOn(received, code, dates, first, last), FactorsOn(received, code, dates, first, last - 1);
      if chosen != front {
        KeysSplit(chosen);
        assert chosen[..|chosen| - 1] == front;
      }
    }
  }

  /** The factor check declares an item done only when every bar of its sessions has a factor. */
  lemma FactorLaw(f: Facts, code: Code, expected: seq<Date>, a: Answer)
    requires FactsSound(f) && expected != [] && Ascending(expected)
    ensures var (g, next) := CoverFactors(f, code, expected, a);
            && g.bars == f.bars && g.absences == f.absences && f.factors.Keys <= g.factors.Keys
            && next.ToMark? && (next.status.Done? || CountsFailed(next.status))
            && (next.status.Done? ==> AllFactored(g, code, expected))
  {
    var missing := Unfactored(f, code, expected);
    var (g, next) := CoverFactors(f, code, expected, a);
    if missing != {} && next.status.Done? {
      var chosen := FactorsOn(a.factors.value, code, missing, expected[0], expected[|expected| - 1]);
      CommitGrows(f, [], chosen, []);
      FactorsOnMeans(a.factors.value, code, missing, expected[0], expected[|expected| - 1]);
    }
    if next.status.Done? {
      forall d | d in expected && (code, d) in f.bars ensures (code, d) in g.factors {
        var i :| 0 <= i < |expected| && expected[i] == d;
        assert expected[0] <= d <= expected[|expected| - 1];
        if (code, d) !in f.factors { assert d in missing; }
      }
    }
  }
}
