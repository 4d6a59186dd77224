/**
What one ingestion means in terms of the stored facts and the answers alone:
which answers are accepted, what they add, and which status the item gets.
*/
module EngineMeaning {
  import opened Prelude
  import opened ControlModel
  import opened MarketFacts
  import opened EngineModel
  import opened EngineLaws
  import opened StableSort

  predicate OfCode(batch: seq<Fact>, code: Code) { forall b :: b in batch ==> b.code == code }

  predicate OnePerDate(batch: seq<Fact>) { forall i, j :: 0 <= i < j < |batch| ==> batch[i].date != batch[j].date }

  /** An answered bar whose date is still uncovered. */
  ghost predicate Wanted(f: Facts, code: Code, a: Answer, b: Fact) {
    a.bars.Some? && b in a.bars.value && !Covered(f, code, b.date)
  }

  ghost predicate BarAt(f: Facts, code: Code, a: Answer, d: Date) { exists b :: Wanted(f, code, a, b) && b.date == d }

  ghost predicate AbsenceAt(a: Answer, d: Date) {
    a.absences.Some? && exists b :: b in a.absences.value && b.date == d
  }

  /** Exactly one factor of the security for each wanted bar. */
  ghost predicate FactorsFit(f: Facts, code: Code, a: Answer) {
    && a.factors.Some? && OfCode(a.factors.value, code) && OnePerDate(a.factors.value)
    && (forall r :: r in a.factors.value ==> BarAt(f, code, a, r.date))
    && (forall b :: Wanted(f, code, a, b) ==> exists r :: r in a.factors.value && r.date == b.date)
  }

  /**
  An answer that is taken: the provider was in time; bars are of the security, on expected dates, one per date;
  absences are too, and only where there is neither coverage nor a wanted bar; wanted bars have their factors; and
  there is something to store.
  */
  ghost predicate Taken(f: Facts, code: Code, expected: seq<Date>, a: Answer) {
    && a.renewed && a.bars.Some? && a.absences.Some?
    && OfCode(a.bars.value, code) && OnePerDate(a.bars.value) && (forall b :: b in a.bars.value ==> b.date in expected)
    && OfCode(a.absences.value, code) && OnePerDate(a.absences.value)
    && (forall b :: b in a.absences.value ==>
          b.date in expected && !Covered(f, code, b.date) && !BarAt(f, code, a, b.date))
    && ((exists b :: Wanted(f, code, a, b)) ==> FactorsFit(f, code, a))
    && ((exists b :: Wanted(f, code, a, b)) || a.absences.value != [])
  }

  /** A wanted bar differs from one that is stored without having passed. */
  ghost predicate Contradicts(f: Facts, code: Code, a: Answer) {
    exists b :: Wanted(f, code, a, b) && (code, b.date) in f.bars && f.bars[(code, b.date)].hash != b.hash
  }

  /** Each wanted bar whose date was free is stored with its content, and no other bar changes. */
  ghost predicate BarsAdded(f: Facts, g: Facts, code: Code, a: Answer) {
    && (forall k :: k in g.bars <==> k in f.bars || (k.0 == code && BarAt(f, code, a, k.1)))
    && (forall k :: k in f.bars ==> k in g.bars && g.bars[k] == f.bars[k])
    && (forall b :: Wanted(f, code, a, b) && (code, b.date) !in f.bars ==>
          (code, b.date) in g.bars && g.bars[(code, b.date)] == StoredBar(b.hash, true))
  }

  /** Each absence is stored with its content, and no other absence changes. */
  ghost predicate AbsencesAdded(f: Facts, g: Facts, code: Code, a: Answer) {
    && (forall k :: k in g.absences <==> k in f.absences || (k.0 == code && AbsenceAt(a, k.1)))
    && (forall k :: k in f.absences ==> k in g.absences && g.absences[k] == f.absences[k])
    && (forall b :: a.absences.Some? && b in a.absences.value && (code, b.date) !in f.absences ==>
          (code, b.date) in g.absences && g.absences[(code, b.date)] == b.hash)
  }

  /** Each wanted bar has the factor that was answered, and no other factor changes. */
  ghost predicate FactorsAdded(f: Facts, g: Facts, code: Code, a: Answer) {
    && (forall k :: k in g.factors <==> k in f.factors || (k.0 == code && BarAt(f, code, a, k.1)))
    && (forall k :: k in f.factors && !(k.0 == code && BarAt(f, code, a, k.1)) ==>
          k in g.factors && g.factors[k] == f.factors[k])
    && (forall r :: a.factors.Some? && r in a.factors.value && BarAt(f, code, a, r.date) ==>
          (code, r.date) in g.factors && g.factors[(code, r.date)] == r.hash)
  }

  /** What taking the answer adds, and that nothing else changes. */
  ghost predicate Added(f: Facts, g: Facts, code: Code, a: Answer) {
    BarsAdded(f, g, code, a) && AbsencesAdded(f, g, code, a) && FactorsAdded(f, g, code, a)
  }

  /** Every expected date was covered, or the answer has a bar or an absence for it. */
  ghost predicate Resolved(f: Facts, code: Code, expected: seq<Date>, a: Answer) {
    forall d :: d in expected ==> Covered(f, code, d) || BarAt(f, code, a, d) || AbsenceAt(a, d)
  }

  /** One ingestion, from `f` to `g`. */
  ghost predicate Ingested(f: Facts, g: Facts, code: Code, expected: seq<Date>, a: Answer, next: Next) {
    && (if Taken(f, code, expected, a) then Added(f, g, code, a) else g == f)
    && (next == ToMark(Conflicted) <==> Taken(f, code, expected, a) && Contradicts(f, code, a))
    && (next == ToFactors <==>
          || AllCovered(f, code, expected)
          || (Taken(f, code, expected, a) && !Contradicts(f, code, a) && Resolved(f, code, expected, a)))
    && (next.ToMark? ==> next.status.Conflicted? || next.status.SourceMissing?)
  }

  // ---------------------------------------------------------------- what is taken

  predicate Accepted(f: Facts, code: Code, expected: seq<Date>, a: Answer) {
    && a.renewed && a.bars.Some? && a.absences.Some?
    && Admissible(a.bars.value, code, (set d | d in expected))
    && Admissible(a.absences.value, code, MissingDates(f, code, expected) - Dates(Kept(f, code, expected, a)))
    && Factors(f, code, expected, a).Some?
    && ValidBatch(Kept(f, code, expected, a), Factors(f, code, expected, a).value, SortByDate(a.absences.value))
  }

  /** The bars an accepted answer is cut down to. */
  function Kept(f: Facts, code: Code, expected: seq<Date>, a: Answer): seq<Fact>
    requires a.bars.Some?
  {
    SortByDate(OnDates(a.bars.value, MissingDates(f, code, expected)))
  }

  function Factors(f: Facts, code: Code, expected: seq<Date>, a: Answer): Option<seq<Fact>>
    requires a.bars.Some?
  {
    if Kept(f, code, expected, a) == [] then Some([])
    else if a.factors.None? then None
    else MatchFactors(code, Kept(f, code, expected, a), a.factors.value)
  }

  lemma AdmissibleMeans(batch: seq<Fact>, code: Code, dates: set<Date>)
    ensures Admissible(batch, code, dates) <==>
            OfCode(batch, code) && OnePerDate(batch) && forall b :: b in batch ==> b.date in dates
  {
    if Admissible(batch, code, dates) {
      forall b | b in batch ensures b.code == code && b.date in dates {
        var i :| 0 <= i < |batch| && batch[i] == b;
      }
    } else if OfCode(batch, code) && (forall b :: b in batch ==> b.date in dates) && OnePerDate(batch) {
      forall i | 0 <= i < |batch| ensures batch[i].code == code && batch[i].date in dates { assert batch[i] in batch; }
    }
  }

  /** The bars kept are the wanted ones. */
  lemma KeptAreWanted(f: Facts, code: Code, expected: seq<Date>, a: Answer)
    requires a.bars.Some? && Admissible(a.bars.value, code, (set d | d in expected))
    ensures forall b :: b in Kept(f, code, expected, a) <==> Wanted(f, code, a, b)
    ensures forall d :: d in Dates(Kept(f, code, expected, a)) <==> BarAt(f, code, a, d)
    ensures AscendingDates(Kept(f, code, expected, a)) && OfCode(Kept(f, code, expected, a), code)
  {
    var missing, kept := MissingDates(f, code, expected), Kept(f, code, expected, a);
    SelectedBars(a.bars.value, code, (set d | d in expected), missing);
    AdmissibleMeans(a.bars.value, code, (set d | d in expected));
    forall b ensures b in kept <==> Wanted(f, code, a, b) {}
    forall d ensures d in Dates(kept) <==> BarAt(f, code, a, d) { DatesOf(kept, d); }
  }

  lemma {:induction false} FactorFound(received: seq<Fact>, code: Code, r: Fact)
    requires OfCode(received, code) && OnePerDate(received) && r in received
    ensures FactorAt(received, code, r.date) == Some(r)
  {
    var front, last := received[..|received| - 1], received[|received| - 1];
    if r != last {
      var i :| 0 <= i < |received| && received[i] == r;
      assert received[i].date != received[|received| - 1].date;
      assert front[i] == r;
      FactorFound(front, code, r);
    }
  }

  lemma {:induction false} FactorsForMembers(code: Code, bars: seq<Fact>, received: seq<Fact>, r: Fact)
    requires OfCode(received, code) && OnePerDate(received)
    ensures r in FactorsFor(code, bars, received) <==> r in received && r.date in Dates(bars)
  {
    if bars == [] { assert Dates(bars) == {}; }
    else {
      var front, last := bars[..|bars| - 1], bars[|bars| - 1];
      FactorsForMembers(code, front, received, r);
      DatesMore(bars);
      FactorAtIn(received, code, last.date);
      if r in received { FactorFound(received, code, r); }
    }
  }

  lemma DatesMore(batch: seq<Fact>)
    requires batch != []
    ensures Dates(batch) == Dates(batch[..|batch| - 1]) + {batch[|batch| - 1].date}
  {
    var front := batch[..|batch| - 1];
    forall d ensures d in Dates(batch) <==> d in Dates(front) || d == batch[|batch| - 1].date {
      DatesOf(batch, d);
      DatesOf(front, d);
      SplitLast(batch);
    }
  }

  lemma {:induction false} FactorAtIn(received: seq<Fact>, code: Code, d: Date)
    ensures var f := FactorAt(received, code, d);
            f.Some? ==> f.value in received && f.value.code == code && f.value.date == d
  {
    if received != [] { FactorAtIn(received[..|received| - 1], code, d); }
  }

  /** The factors stored are those answered for the wanted bars. */
  lemma FactorsAreThose(f: Facts, code: Code, expected: seq<Date>, a: Answer)
    requires a.bars.Some? && Admissible(a.bars.value, code, (set d | d in expected))
    ensures Factors(f, code, expected, a).Some? <==> ((exists b :: Wanted(f, code, a, b)) ==> FactorsFit(f, code, a))
    ensures Factors(f, code, expected, a).Some? ==>
              forall r :: r in Factors(f, code, expected, a).value <==>
                a.factors.Some? && r in a.factors.value && BarAt(f, code, a, r.date)
    ensures Factors(f, code, expected, a).Some? ==> OfCode(Factors(f, code, expected, a).value, code)
  {
    var kept := Kept(f, code, expected, a);
    KeptAreWanted(f, code, expected, a);
    if kept == [] { NothingWanted(f, code, expected, a); }
    else {
      assert Wanted(f, code, a, kept[0]) && kept[0] in kept;
      if a.factors.Some? {
        var received := a.factors.value;
        AdmissibleMeans(received, code, Dates(kept));
        SameDates(kept, received);
        if Factors(f, code, expected, a).Some? {
          forall r { FactorsForMembers(code, kept, received, r); }
        }
      }
    }
  }

  lemma NothingWanted(f: Facts, code: Code, expected: seq<Date>, a: Answer)
    requires a.bars.Some? && Admissible(a.bars.value, code, (set d | d in expected)) && Kept(f, code, expected, a) == []
    ensures !exists b :: Wanted(f, code, a, b)
    ensures forall d :: !BarAt(f, code, a, d)
  {
    KeptAreWanted(f, code, expected, a);
  }

  lemma SameDates(bars: seq<Fact>, received: seq<Fact>)
    ensures Dates(received) == Dates(bars) <==>
            (forall r :: r in received ==> r.date in Dates(bars))
            && (forall b :: b in bars ==> exists r :: r in received && r.date == b.date)
  {
    forall d | d in Dates(received) ensures exists r :: r in received && r.date == d { DatesOf(received, d); }
    forall d | d in Dates(bars) ensures exists b :: b in bars && b.date == d { DatesOf(bars, d); }
    forall r | r in received ensures r.date in Dates(received) { DatesOf(received, r.date); }
    forall b | b in bars ensures b.date in Dates(bars) { DatesOf(bars, b.date); }
  }

  lemma OneCodeValid(bars: seq<Fact>, factors: seq<Fact>, absences: seq<Fact>, code: Code)
    requires OfCode(bars, code) && OfCode(factors, code) && OfCode(absences, code)
    requires AscendingDates(bars) && AscendingDates(absences) && Dates(bars) !! Dates(absences)
    requires bars == [] ==> factors == []
    ensures ValidBatch(bars, factors, absences) <==> bars != [] || absences != []
  {
    var all := bars + factors + absences;
    forall i | 0 <= i < |all| ensures all[i].code == code {
      assert all[i] in all;
      assert all[i] in bars || all[i] in factors || all[i] in absences;
    }
    forall k | k in Keys(bars) ensures k !in Keys(absences) {
      KeysOf(bars, k);
      KeysOf(absences, k);
      DatesOf(bars, k.1);
      DatesOf(absences, k.1);
    }
  }

  /** The absences stored are the answered ones, in date order. */
  lemma AbsencesInOrder(f: Facts, code: Code, expected: seq<Date>, a: Answer)
    requires a.bars.Some? && a.absences.Some? && Admissible(a.bars.value, code, (set d | d in expected))
    requires Admissible(a.absences.value, code, MissingDates(f, code, expected) - Dates(Kept(f, code, expected, a)))
    ensures var s := SortByDate(a.absences.value);
            && AscendingDates(s) && OfCode(s, code) && (forall b :: b in s <==> b in a.absences.value)
            && (forall d :: d in Dates(s) <==> AbsenceAt(a, d)) && Dates(Kept(f, code, expected, a)) !! Dates(s)
  {
    var unresolved := MissingDates(f, code, expected) - Dates(Kept(f, code, expected, a));
    var s := SortByDate(a.absences.value);
    SelectedAbsences(a.absences.value, code, unresolved);
    forall d ensures d in Dates(s) <==> AbsenceAt(a, d) { DatesOf(s, d); }
    forall d | d in Dates(s) ensures d !in Dates(Kept(f, code, expected, a)) { DatesOf(s, d); }
  }

  /** Given answers that pass every check but the last, there is something to store exactly when the batch is valid. */
  lemma SomethingToStore(f: Facts, code: Code, expected: seq<Date>, a: Answer)
    requires a.bars.Some? && a.absences.Some? && Admissible(a.bars.value, code, (set d | d in expected))
    requires Admissible(a.absences.value, code, MissingDates(f, code, expected) - Dates(Kept(f, code, expected, a)))
    requires Factors(f, code, expected, a).Some?
    ensures ValidBatch(Kept(f, code, expected, a), Factors(f, code, expected, a).value, SortByDate(a.absences.value))
            <==> (exists b :: Wanted(f, code, a, b)) || a.absences.value != []
  {
    var kept := Kept(f, code, expected, a);
    KeptAreWanted(f, code, expected, a);
    FactorsAreThose(f, code, expected, a);
    AbsencesInOrder(f, code, expected, a);
    OneCodeValid(kept, Factors(f, code, expected, a).value, SortByDate(a.absences.value), code);
    SortBag(ByDate, a.absences.value);
    SameLength(SortByDate(a.absences.value), a.absences.value);
    if kept == [] { NothingWanted(f, code, expected, a); } else { assert kept[0] in kept; }
  }

  /** An answer is taken exactly when it passes the checks made one after the other. */
  lemma TakenIffAccepted(f: Facts, code: Code, expected: seq<Date>, a: Answer)
    ensures Taken(f, code, expected, a) <==> Accepted(f, code, expected, a)
  {
    if a.renewed && a.bars.Some? && a.absences.Some? {
      AdmissibleMeans(a.bars.value, code, (set d | d in expected));
      if Admissible(a.bars.value, code, (set d | d in expected)) {
        var unresolved := MissingDates(f, code, expected) - Dates(Kept(f, code, expected, a));
        FactorsAreThose(f, code, expected, a);
        AdmissibleMeans(a.absences.value, code, unresolved);
        AbsencesMean(f, code, expected, a, unresolved);
        if Admissible(a.absences.value, code, unresolved) && Factors(f, code, expected, a).Some? {
          SomethingToStore(f, code, expected, a);
        }
      }
    }
  }

  lemma AbsencesMean(f: Facts, code: Code, expected: seq<Date>, a: Answer, unresolved: set<Date>)
    requires a.bars.Some? && a.absences.Some? && Admissible(a.bars.value, code, (set d | d in expected))
    requires unresolved == MissingDates(f, code, expected) - Dates(Kept(f, code, expected, a))
    ensures (forall b :: b in a.absences.value ==> b.date in unresolved) <==>
            (forall b :: b in a.absences.value ==>
               b.date in expected && !Covered(f, code, b.date) && !BarAt(f, code, a, b.date))
  {
    KeptAreWanted(f, code, expected, a);
  }

  // ---------------------------------------------------------------- what is added, and what the item gets

  /** Ingestion stores an accepted answer and nothing else. */
  lemma IngestByAcceptance(f: Facts, code: Code, expected: seq<Date>, a: Answer)
    ensures Ingest(f, code, expected, a)
            == if MissingDates(f, code, expected) == {} then (f, ToFactors)
               else if !(a.renewed && a.bars.Some? && a.absences.Some?) then (f, ToMark(SourceMissing))
               else if !Accepted(f, code, expected, a) then (f, ToMark(SourceMissing))
               else Store(f, MissingDates(f, code, expected) - Dates(Kept(f, code, expected, a)),
                          Kept(f, code, expected, a), Factors(f, code, expected, a).value, SortByDate(a.absences.value))
  {}

  lemma KeyDates(batch: seq<Fact>, code: Code, k: Key)
    requires OfCode(batch, code)
    ensures k in Keys(batch) <==> k.0 == code && k.1 in Dates(batch)
  {
    KeysOf(batch, k);
    DatesOf(batch, k.1);
  }

  /** What an accepted answer adds. */
  lemma AcceptedAdds(f: Facts, code: Code, expected: seq<Date>, a: Answer)
    requires Accepted(f, code, expected, a)
    ensures Added(f, Commit(f, Kept(f, code, expected, a), Factors(f, code, expected, a).value,
                            SortByDate(a.absences.value)), code, a)
  {
    BarsStored(f, code, expected, a);
    AbsencesStored(f, code, expected, a);
    FactorsStored(f, code, expected, a);
  }

  lemma BarsStored(f: Facts, code: Code, expected: seq<Date>, a: Answer)
    requires Accepted(f, code, expected, a)
    ensures BarsAdded(f, Commit(f, Kept(f, code, expected, a), Factors(f, code, expected, a).value,
                                SortByDate(a.absences.value)), code, a)
  {
    var bars := Kept(f, code, expected, a);
    KeptAreWanted(f, code, expected, a);
    InsertBarsMeans(f.bars, bars);
    forall k ensures k in Keys(bars) <==> k.0 == code && BarAt(f, code, a, k.1) { KeyDates(bars, code, k); }
    forall b | Wanted(f, code, a, b) && (code, b.date) !in f.bars
      ensures KeyOf(b) in InsertBars(f.bars, bars) && InsertBars(f.bars, bars)[KeyOf(b)] == StoredBar(b.hash, true)
    {
      InsertedBar(f.bars, bars, b);
    }
  }

  lemma AbsencesStored(f: Facts, code: Code, expected: seq<Date>, a: Answer)
    requires Accepted(f, code, expected, a)
    ensures AbsencesAdded(f, Commit(f, Kept(f, code, expected, a), Factors(f, code, expected, a).value,
                                    SortByDate(a.absences.value)), code, a)
  {
    var absences := SortByDate(a.absences.value);
    AbsencesInOrder(f, code, expected, a);
    InsertAbsencesMeans(f.absences, absences);
    forall k ensures k in Keys(absences) <==> k.0 == code && AbsenceAt(a, k.1) { KeyDates(absences, code, k); }
    forall b | b in absences && (code, b.date) !in f.absences
      ensures var stored := InsertAbsences(f.absences, absences); KeyOf(b) in stored && stored[KeyOf(b)] == b.hash
    {
      InsertedAbsence(f.absences, absences, b);
    }
  }

  lemma FactorsStored(f: Facts, code: Code, expected: seq<Date>, a: Answer)
    requires Accepted(f, code, expected, a)
    ensures FactorsAdded(f, Commit(f, Kept(f, code, expected, a), Factors(f, code, expected, a).value,
                                   SortByDate(a.absences.value)), code, a)
  {
    var factors := Factors(f, code, expected, a).value;
    FactorsAreThose(f, code, expected, a);
    UpsertFactorsMeans(f.factors, factors);
    forall k ensures k in Keys(factors) <==> k.0 == code && BarAt(f, code, a, k.1) {
      FactorKeys(f, code, expected, a, k);
    }
    forall k | k in f.factors && k !in Keys(factors)
      ensures k in UpsertFactors(f.factors, factors) && UpsertFactors(f.factors, factors)[k] == f.factors[k]
    {
      UpsertKeeps(f.factors, factors, k);
    }
    forall r | a.factors.Some? && r in a.factors.value && BarAt(f, code, a, r.date)
      ensures KeyOf(r) in UpsertFactors(f.factors, factors) && UpsertFactors(f.factors, factors)[KeyOf(r)] == r.hash
    {
      assert r in factors;
      AnsweredOnce(f, code, expected, a);
      UpsertedOnce(f.factors, factors, r);
    }
  }

  lemma FactorKeys(f: Facts, code: Code, expected: seq<Date>, a: Answer, k: Key)
    requires Accepted(f, code, expected, a)
    ensures k in Keys(Factors(f, code, expected, a).value) <==> k.0 == code && BarAt(f, code, a, k.1)
  {
    var factors := Factors(f, code, expected, a).value;
    FactorsAreThose(f, code, expected, a);
    KeyDates(factors, code, k);
    DatesOf(factors, k.1);
    if BarAt(f, code, a, k.1) {
      var b :| Wanted(f, code, a, b) && b.date == k.1;
      assert FactorsFit(f, code, a);
    }
  }

  /** Factors of one date are one factor. */
  lemma AnsweredOnce(f: Facts, code: Code, expected: seq<Date>, a: Answer)
    requires Accepted(f, code, expected, a)
    ensures var factors := Factors(f, code, expected, a).value;
            forall r, q :: r in factors && q in factors && r.date == q.date ==> r == q
  {
    var factors := Factors(f, code, expected, a).value;
    FactorsAreThose(f, code, expected, a);
    forall r, q | r in factors && q in factors && r.date == q.date ensures r == q {
      var received := a.factors.value;
      var b :| Wanted(f, code, a, b) && b.date == r.date;
      assert FactorsFit(f, code, a);
      FactorFound(received, code, r);
      FactorFound(received, code, q);
    }
  }

  lemma UpsertedOnce(stored: map<Key, Hash>, factors: seq<Fact>, r: Fact)
    requires r in factors && forall q :: q in factors && KeyOf(q) == KeyOf(r) ==> q == r
    ensures KeyOf(r) in UpsertFactors(stored, factors) && UpsertFactors(stored, factors)[KeyOf(r)] == r.hash
  {
    var i := LastOf(factors, KeyOf(r), r);
    UpsertedLast(stored, factors, i);
    assert factors[i] in factors;
  }

  lemma {:induction false} LastOf(batch: seq<Fact>, k: Key, r: Fact) returns (i: nat)
    requires r in batch && KeyOf(r) == k
    ensures i < |batch| && KeyOf(batch[i]) == k && forall j :: i < j < |batch| ==> KeyOf(batch[j]) != k
  {
    i := |batch| - 1;
    if KeyOf(batch[i]) != k {
      SplitLast(batch);
      i := LastOf(batch[..|batch| - 1], k, r);
    }
  }

  /** An answer is taken only where something is missing. */
  lemma TakenMisses(f: Facts, code: Code, expected: seq<Date>, a: Answer)
    requires Taken(f, code, expected, a)
    ensures !AllCovered(f, code, expected)
  {
    if b :| Wanted(f, code, a, b) { assert b.date in expected; }
    else {
      var b := a.absences.value[0];
      assert b in a.absences.value;
    }
  }

  lemma NothingMissing(f: Facts, code: Code, expected: seq<Date>)
    ensures MissingDates(f, code, expected) == {} <==> AllCovered(f, code, expected)
  {
    forall d | d in expected ensures d in MissingDates(f, code, expected) <==> !Covered(f, code, d) {}
  }

  lemma ConflictsAre(f: Facts, code: Code, expected: seq<Date>, a: Answer)
    requires Accepted(f, code, expected, a)
    ensures Conflicts(f, Kept(f, code, expected, a), SortByDate(a.absences.value)) <==> Contradicts(f, code, a)
  {
    BarConflictsAre(f, code, expected, a);
    NoAbsenceConflicts(f, code, expected, a);
  }

  lemma BarConflictsAre(f: Facts, code: Code, expected: seq<Date>, a: Answer)
    requires a.bars.Some? && Admissible(a.bars.value, code, (set d | d in expected))
    ensures BarConflict(f.bars, Kept(f, code, expected, a)) <==> Contradicts(f, code, a)
  {
    var bars := Kept(f, code, expected, a);
    KeptAreWanted(f, code, expected, a);
    if BarConflict(f.bars, bars) {
      var i :| 0 <= i < |bars| && KeyOf(bars[i]) in f.bars && f.bars[KeyOf(bars[i])].hash != bars[i].hash;
      assert bars[i] in bars;
    }
    if b :| Wanted(f, code, a, b) && (code, b.date) in f.bars && f.bars[(code, b.date)].hash != b.hash {
      assert b in bars;
      var i :| 0 <= i < |bars| && bars[i] == b;
    }
  }

  /** An absence is taken only where none is stored. */
  lemma NoAbsenceConflicts(f: Facts, code: Code, expected: seq<Date>, a: Answer)
    requires Accepted(f, code, expected, a)
    ensures !AbsenceConflict(f.absences, SortByDate(a.absences.value))
  {
    var absences := SortByDate(a.absences.value);
    AbsencesInOrder(f, code, expected, a);
    TakenIffAccepted(f, code, expected, a);
    forall i | 0 <= i < |absences| ensures KeyOf(absences[i]) !in f.absences { assert absences[i] in absences; }
  }

  /** The dates an accepted answer leaves open. */
  function Left(f: Facts, code: Code, expected: seq<Date>, a: Answer): set<Date>
    requires a.bars.Some? && a.absences.Some?
  {
    MissingDates(f, code, expected) - Dates(Kept(f, code, expected, a)) - Dates(SortByDate(a.absences.value))
  }

  lemma ResolvedIs(f: Facts, code: Code, expected: seq<Date>, a: Answer)
    requires Accepted(f, code, expected, a)
    ensures Left(f, code, expected, a) == {} <==> Resolved(f, code, expected, a)
  {
    var left := Left(f, code, expected, a);
    KeptAreWanted(f, code, expected, a);
    AbsencesInOrder(f, code, expected, a);
    forall d
      ensures d in left <==> d in expected && !Covered(f, code, d) && !BarAt(f, code, a, d) && !AbsenceAt(a, d)
    {}
  }

  /** An ingestion stores a taken answer and nothing else, and the item's fate follows from facts and answer alone. */
  lemma IngestMeans(f: Facts, code: Code, expected: seq<Date>, a: Answer)
    ensures var (g, next) := Ingest(f, code, expected, a); Ingested(f, g, code, expected, a, next)
  {
    IngestByAcceptance(f, code, expected, a);
    NothingMissing(f, code, expected);
    TakenIffAccepted(f, code, expected, a);
    if Accepted(f, code, expected, a) {
      TakenMisses(f, code, expected, a);
      AcceptedAdds(f, code, expected, a);
      ConflictsAre(f, code, expected, a);
      ResolvedIs(f, code, expected, a);
    }
  }

  /** From sound facts nothing is ever contradicted, and the factor check is reached exactly under full coverage. */
  lemma SoundNeverConflicts(f: Facts, code: Code, expected: seq<Date>, a: Answer)
    requires FactsSound(f)
    ensures !Contradicts(f, code, a)
    ensures var (g, next) := Ingest(f, code, expected, a);
            && next != ToMark(Conflicted)
            && (next == ToFactors <==> AllCovered(g, code, expected))
  {
    IngestMeans(f, code, expected, a);
    IngestLaw(f, code, expected, a);
    var (g, next) := Ingest(f, code, expected, a);
    if AllCovered(g, code, expected) && Taken(f, code, expected, a) {
      forall d | d in expected ensures Covered(f, code, d) || BarAt(f, code, a, d) || AbsenceAt(a, d) {
        assert Covered(g, code, d);
      }
    }
  }

  // ---------------------------------------------------------------- the factor check

  /** A stored bar of the interval that has no factor. */
  predicate Lacks(f: Facts, code: Code, expected: seq<Date>, d: Date)
    requires expected != []
  {
    && expected[0] <= d <= expected[|expected| - 1]
    && (code, d) in f.bars && f.bars[(code, d)].passed && (code, d) !in f.factors
  }

  /** The last factor answered for a date. */
  predicate AnsweredFactor(received: seq<Fact>, code: Code, d: Date, hash: Hash) {
    exists i :: 0 <= i < |received| && received[i] == Fact(code, d, hash)
                && forall j :: i < j < |received| ==> received[j].code != code || received[j].date != d
  }

  ghost predicate EachAnswered(f: Facts, code: Code, expected: seq<Date>, a: Answer)
    requires expected != []
  {
    && a.renewed && a.factors.Some?
    && forall d :: Lacks(f, code, expected, d) ==> exists r :: r in a.factors.value && r.code == code && r.date == d
  }

  /** The factor check, from `f` to `g`: all the missing factors are stored, or none. */
  ghost predicate FactorsChecked(f: Facts, g: Facts, code: Code, expected: seq<Date>, a: Answer, next: Next)
    requires expected != []
  {
    if forall d :: !Lacks(f, code, expected, d) then g == f && next == ToMark(Done)
    else if !EachAnswered(f, code, expected, a) then g == f && next == ToMark(SourceMissing)
    else
      && next == ToMark(Done) && g.bars == f.bars && g.absences == f.absences
      && (forall k :: k in g.factors <==> k in f.factors || (k.0 == code && Lacks(f, code, expected, k.1)))
      && (forall k :: k in f.factors ==> k in g.factors && g.factors[k] == f.factors[k])
      && (forall d :: Lacks(f, code, expected, d) ==>
            (code, d) in g.factors && AnsweredFactor(a.factors.value, code, d, g.factors[(code, d)]))
  }

  lemma UnfactoredLacks(f: Facts, code: Code, expected: seq<Date>)
    requires expected != []
    ensures forall d :: d in Unfactored(f, code, expected) <==> Lacks(f, code, expected, d)
  {
    forall d | Lacks(f, code, expected, d) ensures d in Unfactored(f, code, expected) {
      assert (code, d) in f.bars;
    }
  }

  lemma {:induction false} FactorAtIsLast(received: seq<Fact>, code: Code, d: Date)
    requires FactorAt(received, code, d).Some?
    ensures AnsweredFactor(received, code, d, FactorAt(received, code, d).value.hash)
  {
    var front, last := received[..|received| - 1], received[|received| - 1];
    if last.code == code && last.date == d { assert received[|received| - 1] == Fact(code, d, last.hash); }
    else {
      FactorAtIsLast(front, code, d);
      var i :| 0 <= i < |front| && front[i] == Fact(code, d, FactorAt(front, code, d).value.hash)
               && forall j :: i < j < |front| ==> front[j].code != code || front[j].date != d;
      assert received[i] == front[i];
      forall j | i < j < |received| ensures received[j].code != code || received[j].date != d {
        if j < |front| { assert received[j] == front[j]; }
      }
    }
  }

  lemma {:induction false} FactorsOnMembers(received: seq<Fact>, code: Code, dates: set<Date>, first: Date, last: Date)
    ensures forall r :: r in FactorsOn(received, code, dates, first, last) <==>
              r.date in dates && first <= r.date <= last && FactorAt(received, code, r.date) == Some(r)
    decreases last - first
  {
    if first <= last {
      FactorsOnMembers(received, code, dates, first, last - 1);
      FactorAtIn(received, code, last);
    }
  }

  /** The factor check stores the answered factor of every bar that lacks one, or nothing. */
  lemma FactorCheckMeans(f: Facts, code: Code, expected: seq<Date>, a: Answer)
    requires expected != []
    ensures var (g, next) := CoverFactors(f, code, expected, a); FactorsChecked(f, g, code, expected, a, next)
  {
    UnfactoredLacks(f, code, expected);
    if a.factors.Some? {
      AnsweredAll(f, code, expected, a);
      ChosenStored(f, code, expected, a.factors.value);
    }
  }

  lemma AnsweredAll(f: Facts, code: Code, expected: seq<Date>, a: Answer)
    requires expected != [] && a.factors.Some?
    ensures (forall d :: Lacks(f, code, expected, d) ==>
               exists r :: r in a.factors.value && r.code == code && r.date == d)
            <==> forall d :: d in Unfactored(f, code, expected) ==> FactorAt(a.factors.value, code, d).Some?
  {
    UnfactoredLacks(f, code, expected);
    forall d ensures FactorAt(a.factors.value, code, d).Some? <==>
                     exists r :: r in a.factors.value && r.code == code && r.date == d {
      FactorAtMeans(a.factors.value, code, d);
      if r :| r in a.factors.value && r.code == code && r.date == d {
        var i :| 0 <= i < |a.factors.value| && a.factors.value[i] == r;
      }
    }
  }

  /** The factors chosen for the bars that lack one, and that each is stored under its date. */
  lemma ChosenStored(f: Facts, code: Code, expected: seq<Date>, received: seq<Fact>)
    requires expected != []
    ensures var first, last := expected[0], expected[|expected| - 1];
            var chosen := FactorsOn(received, code, Unfactored(f, code, expected), first, last);
            var stored := UpsertFactors(f.factors, chosen);
            && (forall k :: k in stored <==> k in f.factors || k in Keys(chosen))
            && (forall k :: k in f.factors ==> stored[k] == f.factors[k])
            && (forall k :: k in Keys(chosen) <==>
                  k.0 == code && Lacks(f, code, expected, k.1) && FactorAt(received, code, k.1).Some?)
            && (forall k :: k in Keys(chosen) ==> AnsweredFactor(received, code, k.1, stored[k]))
  {
    var chosen := FactorsOn(received, code, Unfactored(f, code, expected), expected[0], expected[|expected| - 1]);
    FactorsOnMembers(received, code, Unfactored(f, code, expected), expected[0], expected[|expected| - 1]);
    UnfactoredLacks(f, code, expected);
    UpsertFactorsMeans(f.factors, chosen);
    forall k ensures k in Keys(chosen) <==>
                     k.0 == code && Lacks(f, code, expected, k.1) && FactorAt(received, code, k.1).Some? {
      ChosenKey(chosen, received, code, k);
      FactorAtIn(received, code, k.1);
    }
    forall k | k in f.factors
      ensures k in UpsertFactors(f.factors, chosen) && UpsertFactors(f.factors, chosen)[k] == f.factors[k]
    {
      UpsertKeeps(f.factors, chosen, k);
    }
    forall k | k in Keys(chosen) ensures AnsweredFactor(received, code, k.1, UpsertFactors(f.factors, chosen)[k]) {
      var r := FactorAt(received, code, k.1).value;
      FactorAtIn(received, code, k.1);
      UpsertedOnce(f.factors, chosen, r);
      FactorAtIsLast(received, code, k.1);
    }
  }

  lemma ChosenKey(chosen: seq<Fact>, received: seq<Fact>, code: Code, k: Key)
    requires forall r :: r in chosen ==> FactorAt(received, code, r.date) == Some(r)
    ensures k in Keys(chosen) <==>
            k.0 == code && exists r :: r in chosen && r.date == k.1 && FactorAt(received, code, k.1) == Some(r)
  {
    KeysOf(chosen, k);
    forall r | r in chosen ensures r.code == code { FactorAtIn(received, code, r.date); }
  }
}
