/** The ingestion of one security as the engine performs it, against the step functions of the model. */
module Engine {
  import opened Prelude
  import opened ControlModel
  import opened MarketFacts
  import opened EngineModel
  import opened EngineLaws
  import opened EngineMeaning

  lemma OnDatesAppend(batch: seq<Fact>, n: nat, dates: set<Date>)
    requires n < |batch|
    ensures OnDates(batch[..n + 1], dates)
            == OnDates(batch[..n], dates) + (if batch[n].date in dates then [batch[n]] else [])
  {
    assert batch[..n + 1][..n] == batch[..n];
  }

  /** One more bar is admissible when it is of the security, on an admissible date, and not seen before. */
  lemma AdmissibleAppend(batch: seq<Fact>, n: nat, code: Code, dates: set<Date>)
    requires n < |batch| && Admissible(batch[..n], code, dates)
    ensures Admissible(batch[..n + 1], code, dates) <==>
            batch[n].code == code && batch[n].date in dates && batch[n].date !in Dates(batch[..n])
  {
    var front, all := batch[..n], batch[..n + 1];
    if Admissible(all, code, dates) {
      assert all[n] == batch[n];
      forall i | 0 <= i < n ensures front[i].date != batch[n].date { assert all[i].date != all[n].date; }
    }
    if batch[n].code == code && batch[n].date in dates && batch[n].date !in Dates(front) {
      forall i, j | 0 <= i < j < |all| ensures all[i].date != all[j].date {
        if j == n { assert front[i].date in Dates(front); } else { assert front[i].date != front[j].date; }
      }
    }
  }

  lemma InadmissiblePrefix(batch: seq<Fact>, n: nat, code: Code, dates: set<Date>)
    requires n <= |batch| && !Admissible(batch[..n], code, dates)
    ensures !Admissible(batch, code, dates)
  {
    if Admissible(batch, code, dates) {
      forall i | 0 <= i < n ensures batch[..n][i].code == code && batch[..n][i].date in dates {
        assert batch[..n][i] == batch[i];
      }
    }
  }

  lemma DatesAppend(batch: seq<Fact>, n: nat)
    requires n < |batch|
    ensures Dates(batch[..n + 1]) == Dates(batch[..n]) + {batch[n].date}
  {
    var front, all := batch[..n], batch[..n + 1];
    forall d ensures d in Dates(all) <==> d in Dates(front) || d == batch[n].date {
      if d in Dates(all) {
        var i :| 0 <= i < |all| && all[i].date == d;
        if i < n { assert front[i].date == d; }
      }
      if d in Dates(front) {
        var i :| 0 <= i < |front| && front[i].date == d;
        assert all[i].date == d;
      }
      assert all[n] == batch[n];
    }
  }

  /**
  `_select_expected_bars`: the first bar of another security, off the calendar or repeated refuses the whole
  answer.
  */
  method SelectExpectedBars(bars: seq<Fact>, code: Code, expected: set<Date>, missing: set<Date>)
      returns (r: Option<seq<Fact>>)
    ensures r == SelectBars(bars, code, expected, missing)
  {
    var selected: seq<Fact> := [];
    var seen: set<Date> := {};
    for n := 0 to |bars|
      invariant Admissible(bars[..n], code, expected)
      invariant seen == Dates(bars[..n]) && selected == OnDates(bars[..n], missing)
    {
      var bar := bars[n];
      AdmissibleAppend(bars, n, code, expected);
      DatesAppend(bars, n);
      OnDatesAppend(bars, n, missing);
      if bar.code != code || bar.date !in expected || bar.date in seen {
        InadmissiblePrefix(bars, n + 1, code, expected);
        return None;
      }
      seen := seen + {bar.date};
      if bar.date in missing { selected := selected + [bar]; }
    }
    assert bars[..|bars|] == bars;
    return Some(SortByDate(selected));
  }

  /** `_validate_absences`. */
  method ValidateAbsences(absences: seq<Fact>, code: Code, unresolved: set<Date>) returns (r: Option<seq<Fact>>)
    ensures r == SelectAbsences(absences, code, unresolved)
  {
    var seen: set<Date> := {};
    for n := 0 to |absences|
      invariant Admissible(absences[..n], code, unresolved)
      invariant seen == Dates(absences[..n])
    {
      AdmissibleAppend(absences, n, code, unresolved);
      DatesAppend(absences, n);
      if absences[n].code != code || absences[n].date !in unresolved || absences[n].date in seen {
        InadmissiblePrefix(absences, n + 1, code, unresolved);
        return None;
      }
      seen := seen + {absences[n].date};
    }
    assert absences[..|absences|] == absences;
    return Some(SortByDate(absences));
  }

  /** The fetching half of `ingest_security_interval`: the stored facts change by one commit or not at all. */
  method IngestMissing(repository: MarketDailyRepository, code: Code, expected: seq<Date>, a: Answer)
      returns (next: Next)
    modifies repository
    ensures (repository.Stored(), next) == Ingest(old(repository.Stored()), code, expected, a)
    ensures Ingested(old(repository.Stored()), repository.Stored(), code, expected, a, next)
  {
    IngestMeans(repository.Stored(), code, expected, a);
    var missing := MissingDates(repository.Stored(), code, expected);
    if missing == {} { return ToFactors; }
    if !a.renewed || a.bars.None? { return ToMark(SourceMissing); }
    var bars := SelectExpectedBars(a.bars.value, code, (set d | d in expected), missing);
    if bars.None? || a.absences.None? { return ToMark(SourceMissing); }
    var unresolved := missing - Dates(bars.value);
    var absences := ValidateAbsences(a.absences.value, code, unresolved);
    var factors := if bars.value == [] then Some([])
                   else if a.factors.None? then None
                   else MatchFactors(code, bars.value, a.factors.value);
    if absences.None? || factors.None? { return ToMark(SourceMissing); }
    ghost var before := repository.Stored();
    var result := repository.CommitSecurityObservations(bars.value, factors.value, absences.value);
    if result.None? { return ToMark(SourceMissing); }
    ConflictsCounted(before, bars.value, absences.value);
    if result.value.conflictedBars > 0 || result.value.conflictedAbsences > 0 { return ToMark(Conflicted); }
    unresolved := unresolved - Dates(absences.value);
    return if unresolved != {} then ToMark(SourceMissing) else ToFactors;
  }

  /** The answered factors on the given dates, in date order. */
  method SelectFactors(received: seq<Fact>, code: Code, dates: set<Date>, first: Date, last: Date)
      returns (selected: seq<Fact>)
    requires first <= last && forall d :: d in dates ==> FactorAt(received, code, d).Some?
    ensures selected == FactorsOn(received, code, dates, first, last)
  {
    selected := [];
    for d := first to last + 1
      invariant selected == FactorsOn(received, code, dates, first, d - 1)
    {
      if d in dates { selected := selected + [FactorAt(received, code, d).value]; }
    }
  }

  /** Factors found for every one of some dates make a valid batch of their own. */
  lemma FactorBatch(received: seq<Fact>, code: Code, dates: set<Date>, first: Date, last: Date)
    requires dates != {} && forall d :: d in dates ==> first <= d <= last && FactorAt(received, code, d).Some?
    ensures ValidBatch([], FactorsOn(received, code, dates, first, last), [])
  {
    NoneChosen(received, code, dates, first, last);
    FactorsOnMeans(received, code, dates, first, last);
    AloneValid(FactorsOn(received, code, dates, first, last), code);
  }

  lemma NoneChosen(received: seq<Fact>, code: Code, dates: set<Date>, first: Date, last: Date)
    requires forall d :: d in dates ==> first <= d <= last && FactorAt(received, code, d).Some?
    ensures FactorsOn(received, code, dates, first, last) == [] ==> dates == {}
  {
    FactorsOnMeans(received, code, dates, first, last);
    forall d | d in dates ensures (code, d) in Keys(FactorsOn(received, code, dates, first, last)) {}
  }

  lemma AloneValid(factors: seq<Fact>, code: Code)
    requires factors != [] && forall b :: b in factors ==> b.code == code
    ensures ValidBatch([], factors, [])
  {
    assert [] + factors + [] == factors;
  }

  /** `_ensure_factor_coverage`: one commit of factors for all bars without one, or none at all. */
  method EnsureFactorCoverage(repository: MarketDailyRepository, code: Code, expected: seq<Date>, a: Answer)
      returns (next: Next)
    requires expected != [] && Ascending(expected)
    modifies repository
    ensures (repository.Stored(), next) == CoverFactors(old(repository.Stored()), code, expected, a)
    ensures FactorsChecked(old(repository.Stored()), repository.Stored(), code, expected, a, next)
  {
    FactorCheckMeans(repository.Stored(), code, expected, a);
    var missing := Unfactored(repository.Stored(), code, expected);
    if missing == {} { return ToMark(Done); }
    if !a.renewed || a.factors.None? { return ToMark(SourceMissing); }
    if exists d :: d in missing && FactorAt(a.factors.value, code, d).None? { return ToMark(SourceMissing); }
    var selected := SelectFactors(a.factors.value, code, missing, expected[0], expected[|expected| - 1]);
    FactorBatch(a.factors.value, code, missing, expected[0], expected[|expected| - 1]);
    var _ := repository.CommitSecurityObservations([], selected, []);
    return ToMark(Done);
  }
}
