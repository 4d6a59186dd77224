/**
Stored market facts: bars and absences are immutable once stored, factors may
be replaced but never vanish.
*/
module MarketFacts {
  import opened Prelude
  import opened ControlModel

  type Hash = string
  type Key = (Code, Date)

  datatype StoredBar = StoredBar(hash: Hash, passed: bool)

  datatype Facts = Facts(bars: map<Key, StoredBar>, absences: map<Key, Hash>, factors: map<Key, Hash>)

  /** One observation of a provider about one security and date. */
  datatype Fact = Fact(code: Code, date: Date, hash: Hash)

  /** The table key of a fact. */
  function KeyOf(b: Fact): Key { (b.code, b.date) }

  /** What storing one fact did; `Contradicted` is the source's "conflicted". */
  datatype Fate = Inserted | Unchanged | Contradicted | Updated

  /** `SecurityCommitResult`. */
  datatype SecurityCommitResult = SecurityCommitResult(
    insertedBars: nat, unchangedBars: nat, conflictedBars: nat,
    insertedAbsences: nat, unchangedAbsences: nat, conflictedAbsences: nat,
    insertedFactors: nat, updatedFactors: nat, unchangedFactors: nat)

  /** A date is covered by a passed bar or by an absence. */
  predicate Covered(f: Facts, code: Code, d: Date) {
    ((code, d) in f.bars && f.bars[(code, d)].passed) || (code, d) in f.absences
  }

  predicate NoDuplicates(batch: seq<Fact>) {
    forall i, j :: 0 <= i < j < |batch| ==> KeyOf(batch[i]) != KeyOf(batch[j])
  }

  function Keys(batch: seq<Fact>): set<Key> { set i | 0 <= i < |batch| :: KeyOf(batch[i]) }

  /** A batch speaks of one security, names no date twice, and has no date both traded and suspended. */
  predicate ValidBatch(bars: seq<Fact>, factors: seq<Fact>, absences: seq<Fact>) {
    && bars + factors + absences != []
    && (var all := bars + factors + absences; forall i :: 0 <= i < |all| ==> all[i].code == all[0].code)
    && NoDuplicates(bars) && NoDuplicates(absences)
    && Keys(bars) !! Keys(absences)
  }

  lemma KeysOf(batch: seq<Fact>, k: Key)
    ensures k in Keys(batch) <==> exists b :: b in batch && k == (b.code, b.date)
  {
    if k in Keys(batch) {
      var i :| 0 <= i < |batch| && (batch[i].code, batch[i].date) == k;
      assert batch[i] in batch;
    }
    if b :| b in batch && k == (b.code, b.date) {
      var i :| 0 <= i < |batch| && batch[i] == b;
    }
  }

  /** Two facts of the batch have one day of one security. */
  predicate Repeats(batch: seq<Fact>) {
    exists i, j :: 0 <= i < j < |batch| && batch[i].code == batch[j].code && batch[i].date == batch[j].date
  }

  predicate Reported(bars: seq<Fact>, factors: seq<Fact>, absences: seq<Fact>, x: Fact) {
    x in bars || x in factors || x in absences
  }

  /** A batch is refused exactly when it is empty, mixes codes, repeats a day, or has a day traded and suspended. */
  lemma RefusedBatch(bars: seq<Fact>, factors: seq<Fact>, absences: seq<Fact>)
    ensures !ValidBatch(bars, factors, absences) <==>
            || |bars| + |factors| + |absences| == 0
            || (exists x, y :: Reported(bars, factors, absences, x) && Reported(bars, factors, absences, y)
                               && x.code != y.code)
            || Repeats(bars) || Repeats(absences)
            || (exists b, a :: b in bars && a in absences && b.code == a.code && b.date == a.date)
  {
    var all := bars + factors + absences;
    forall x ensures x in all <==> Reported(bars, factors, absences, x) {}
    OneCode(all);
    DaysApart(bars, absences);
  }

  lemma OneCode(all: seq<Fact>)
    ensures (forall i :: 0 <= i < |all| ==> all[i].code == all[0].code) <==>
            !exists x, y :: x in all && y in all && x.code != y.code
  {
    if i :| 0 <= i < |all| && all[i].code != all[0].code { assert all[i] in all && all[0] in all; }
  }

  lemma DaysApart(bars: seq<Fact>, absences: seq<Fact>)
    ensures Keys(bars) !! Keys(absences) <==>
            !exists b, a :: b in bars && a in absences && b.code == a.code && b.date == a.date
  {
    forall k { KeysOf(bars, k); }
    forall k { KeysOf(absences, k); }
    if b, a :| b in bars && a in absences && b.code == a.code && b.date == a.date {
      assert KeyOf(b) in Keys(bars) && KeyOf(b) in Keys(absences);
    }
  }

  function InsertBars(stored: map<Key, StoredBar>, batch: seq<Fact>): map<Key, StoredBar> {
    if batch == [] then stored
    else
      var m, b := InsertBars(stored, batch[..|batch| - 1]), batch[|batch| - 1];
      if KeyOf(b) in m then m else m[KeyOf(b) := StoredBar(b.hash, true)]
  }

  function InsertAbsences(stored: map<Key, Hash>, batch: seq<Fact>): map<Key, Hash> {
    if batch == [] then stored
    else
      var m, b := InsertAbsences(stored, batch[..|batch| - 1]), batch[|batch| - 1];
      if KeyOf(b) in m then m else m[KeyOf(b) := b.hash]
  }

  function UpsertFactors(stored: map<Key, Hash>, batch: seq<Fact>): map<Key, Hash> {
    if batch == [] then stored
    else
      var b := batch[|batch| - 1];
      UpsertFactors(stored, batch[..|batch| - 1])[KeyOf(b) := b.hash]
  }

  /** The facts after `commit_security_observations`. */
  function Commit(f: Facts, bars: seq<Fact>, factors: seq<Fact>, absences: seq<Fact>): Facts {
    Facts(InsertBars(f.bars, bars), InsertAbsences(f.absences, absences), UpsertFactors(f.factors, factors))
  }

  function BarFate(stored: map<Key, StoredBar>, b: Fact): Fate {
    if KeyOf(b) !in stored then Inserted
    else if stored[KeyOf(b)].hash == b.hash then Unchanged
    else Contradicted
  }

  function AbsenceFate(stored: map<Key, Hash>, b: Fact): Fate {
    if KeyOf(b) !in stored then Inserted
    else if stored[KeyOf(b)] == b.hash then Unchanged
    else Contradicted
  }

  function FactorFate(stored: map<Key, Hash>, b: Fact): Fate {
    if KeyOf(b) !in stored then Inserted
    else if stored[KeyOf(b)] == b.hash then Unchanged
    else Updated
  }

  /** The fates of bars without a repeated date: each is judged against what was stored before the batch. */
  function BarFates(stored: map<Key, StoredBar>, batch: seq<Fact>): seq<Fate> {
    seq(|batch|, i requires 0 <= i < |batch| => BarFate(stored, batch[i]))
  }

  function AbsenceFates(stored: map<Key, Hash>, batch: seq<Fact>): seq<Fate> {
    seq(|batch|, i requires 0 <= i < |batch| => AbsenceFate(stored, batch[i]))
  }

  /** Factors may name one date twice, so each is judged against what the ones before it left. */
  function FactorFates(stored: map<Key, Hash>, batch: seq<Fact>): seq<Fate> {
    seq(|batch|, i requires 0 <= i < |batch| => FactorFate(UpsertFactors(stored, batch[..i]), batch[i]))
  }

  /** How often a fate occurs. */
  function Tally(fates: seq<Fate>, fate: Fate): nat { multiset(fates)[fate] }

  /** The counts of `commit_security_observations`. */
  function CommitCounts(f: Facts, bars: seq<Fact>, factors: seq<Fact>, absences: seq<Fact>): SecurityCommitResult {
    var b, a, r := BarFates(f.bars, bars), AbsenceFates(f.absences, absences), FactorFates(f.factors, factors);
    SecurityCommitResult(
      Tally(b, Inserted), Tally(b, Unchanged), Tally(b, Contradicted),
      Tally(a, Inserted), Tally(a, Unchanged), Tally(a, Contradicted),
      Tally(r, Inserted), Tally(r, Updated), Tally(r, Unchanged))
  }

  predicate BarConflict(stored: map<Key, StoredBar>, batch: seq<Fact>) {
    exists i :: 0 <= i < |batch| && KeyOf(batch[i]) in stored && stored[KeyOf(batch[i])].hash != batch[i].hash
  }

  predicate AbsenceConflict(stored: map<Key, Hash>, batch: seq<Fact>) {
    exists i :: 0 <= i < |batch| && KeyOf(batch[i]) in stored && stored[KeyOf(batch[i])] != batch[i].hash
  }

  /** Some bar or absence of the batch contradicts a stored one. */
  predicate Conflicts(f: Facts, bars: seq<Fact>, absences: seq<Fact>) {
    BarConflict(f.bars, bars) || AbsenceConflict(f.absences, absences)
  }

  /** Facts only accumulate, and bars and absences keep their content. */
  predicate Grows(f: Facts, f': Facts) {
    && (forall k :: k in f.bars ==> k in f'.bars && f'.bars[k] == f.bars[k])
    && (forall k :: k in f.absences ==> k in f'.absences && f'.absences[k] == f.absences[k])
    && (forall k :: k in f.factors ==> k in f'.factors)
  }

  lemma {:induction false} InsertBarsMeans(stored: map<Key, StoredBar>, batch: seq<Fact>)
    ensures var m := InsertBars(stored, batch);
            && m.Keys == stored.Keys + Keys(batch)
            && (forall k :: k in stored ==> m[k] == stored[k])
            && (forall k :: k in m && k !in stored ==> m[k].passed)
  {
    if batch != [] {
      InsertBarsMeans(stored, batch[..|batch| - 1]);
      KeysSplit(batch);
    }
  }

  lemma {:induction false} InsertAbsencesMeans(stored: map<Key, Hash>, batch: seq<Fact>)
    ensures var m := InsertAbsences(stored, batch);
            m.Keys == stored.Keys + Keys(batch) && forall k :: k in stored ==> m[k] == stored[k]
  {
    if batch != [] {
      InsertAbsencesMeans(stored, batch[..|batch| - 1]);
      KeysSplit(batch);
    }
  }

  lemma {:induction false} UpsertFactorsMeans(stored: map<Key, Hash>, batch: seq<Fact>)
    ensures UpsertFactors(stored, batch).Keys == stored.Keys + Keys(batch)
  {
    if batch != [] {
      UpsertFactorsMeans(stored, batch[..|batch| - 1]);
      KeysSplit(batch);
    }
  }

  lemma KeysSplit(batch: seq<Fact>)
    requires batch != []
    ensures var b := batch[|batch| - 1]; Keys(batch) == Keys(batch[..|batch| - 1]) + {KeyOf(b)}
  {
    var front := batch[..|batch| - 1];
    forall k | k in Keys(batch) ensures k in Keys(front) || k == KeyOf(batch[|batch| - 1]) {
      var i :| 0 <= i < |batch| && KeyOf(batch[i]) == k;
      if i < |front| { assert front[i] == batch[i]; }
    }
    forall k | k in Keys(front) ensures k in Keys(batch) {
      var i :| 0 <= i < |front| && KeyOf(front[i]) == k;
      assert batch[i] == front[i];
    }
    assert KeyOf(batch[|batch| - 1]) in Keys(batch);
  }

  /** Committing never rewrites or removes a stored fact. */
  lemma CommitGrows(f: Facts, bars: seq<Fact>, factors: seq<Fact>, absences: seq<Fact>)
    ensures Grows(f, Commit(f, bars, factors, absences))
    ensures var g := Commit(f, bars, factors, absences);
            && g.bars.Keys == f.bars.Keys + Keys(bars)
            && g.absences.Keys == f.absences.Keys + Keys(absences)
            && g.factors.Keys == f.factors.Keys + Keys(factors)
            && (forall k :: k in g.bars && k !in f.bars ==> g.bars[k].passed)
  {
    InsertBarsMeans(f.bars, bars);
    InsertAbsencesMeans(f.absences, absences);
    UpsertFactorsMeans(f.factors, factors);
  }

  lemma {:induction false} InsertedBar(stored: map<Key, StoredBar>, batch: seq<Fact>, b: Fact)
    requires NoDuplicates(batch) && b in batch && KeyOf(b) !in stored
    ensures KeyOf(b) in InsertBars(stored, batch) && InsertBars(stored, batch)[KeyOf(b)] == StoredBar(b.hash, true)
  {
    var front, last := batch[..|batch| - 1], batch[|batch| - 1];
    if b == last {
      InsertBarsMeans(stored, front);
      NewKey(batch, |batch| - 1);
    } else {
      var i :| 0 <= i < |batch| && batch[i] == b;
      assert front[i] == b;
      InsertedBar(stored, front, b);
    }
  }

  lemma {:induction false} InsertedAbsence(stored: map<Key, Hash>, batch: seq<Fact>, b: Fact)
    requires NoDuplicates(batch) && b in batch && KeyOf(b) !in stored
    ensures KeyOf(b) in InsertAbsences(stored, batch) && InsertAbsences(stored, batch)[KeyOf(b)] == b.hash
  {
    var front, last := batch[..|batch| - 1], batch[|batch| - 1];
    if b == last {
      InsertAbsencesMeans(stored, front);
      NewKey(batch, |batch| - 1);
    } else {
      var i :| 0 <= i < |batch| && batch[i] == b;
      assert front[i] == b;
      InsertedAbsence(stored, front, b);
    }
  }

  /** The last factor given for a date is the one that stays. */
  lemma {:induction false} UpsertedLast(stored: map<Key, Hash>, batch: seq<Fact>, i: nat)
    requires i < |batch| && forall j :: i < j < |batch| ==> KeyOf(batch[j]) != KeyOf(batch[i])
    ensures KeyOf(batch[i]) in UpsertFactors(stored, batch)
    ensures UpsertFactors(stored, batch)[KeyOf(batch[i])] == batch[i].hash
    decreases |batch|
  {
    if i < |batch| - 1 { UpsertedLast(stored, batch[..|batch| - 1], i); }
  }

  /** A date without a new factor keeps the one it had. */
  lemma {:induction false} UpsertKeeps(stored: map<Key, Hash>, batch: seq<Fact>, k: Key)
    requires k !in Keys(batch) && k in stored
    ensures k in UpsertFactors(stored, batch) && UpsertFactors(stored, batch)[k] == stored[k]
  {
    if batch != [] {
      KeysSplit(batch);
      UpsertKeeps(stored, batch[..|batch| - 1], k);
    }
  }

  /** What a valid batch adds: each bar and absence whose date was free, with its own content, and each factor. */
  lemma CommitStores(f: Facts, bars: seq<Fact>, factors: seq<Fact>, absences: seq<Fact>)
    requires NoDuplicates(bars) && NoDuplicates(absences)
    ensures var g := Commit(f, bars, factors, absences);
            && (forall b :: b in bars && KeyOf(b) !in f.bars ==>
                  KeyOf(b) in g.bars && g.bars[KeyOf(b)] == StoredBar(b.hash, true))
            && (forall b :: b in absences && KeyOf(b) !in f.absences ==>
                  KeyOf(b) in g.absences && g.absences[KeyOf(b)] == b.hash)
            && (forall k :: k in f.factors && k !in Keys(factors) ==> k in g.factors && g.factors[k] == f.factors[k])
            && (forall i :: 0 <= i < |factors|
                            && (forall j :: i < j < |factors| ==> KeyOf(factors[j]) != KeyOf(factors[i])) ==>
                  KeyOf(factors[i]) in g.factors && g.factors[KeyOf(factors[i])] == factors[i].hash)
  {
    var g := Commit(f, bars, factors, absences);
    forall b | b in bars && KeyOf(b) !in f.bars
      ensures KeyOf(b) in g.bars && g.bars[KeyOf(b)] == StoredBar(b.hash, true)
    {
      InsertedBar(f.bars, bars, b);
    }
    forall b | b in absences && KeyOf(b) !in f.absences
      ensures KeyOf(b) in g.absences && g.absences[KeyOf(b)] == b.hash
    {
      InsertedAbsence(f.absences, absences, b);
    }
    forall k | k in f.factors && k !in Keys(factors) ensures k in g.factors && g.factors[k] == f.factors[k] {
      UpsertKeeps(f.factors, factors, k);
    }
    forall i | 0 <= i < |factors| && (forall j :: i < j < |factors| ==> KeyOf(factors[j]) != KeyOf(factors[i]))
      ensures KeyOf(factors[i]) in g.factors && g.factors[KeyOf(factors[i])] == factors[i].hash
    {
      UpsertedLast(f.factors, factors, i);
    }
  }

  lemma CoverageStays(f: Facts, g: Facts, code: Code, d: Date)
    requires Grows(f, g) && Covered(f, code, d)
    ensures Covered(g, code, d)
  {}

  class MarketDailyRepository {
    var bars: map<Key, StoredBar>
    var absences: map<Key, Hash>
    var factors: map<Key, Hash>

    function Stored(): Facts
      reads this
    {
      Facts(bars, absences, factors)
    }

    constructor ()
      ensures Stored() == Facts(map[], map[], map[])
    {
      bars, absences, factors := map[], map[], map[];
    }

    /** `_insert_bar` over a batch: a stored bar is left alone, whether it agrees or not. */
    method StoreBars(batch: seq<Fact>) returns (fates: seq<Fate>)
      requires NoDuplicates(batch)
      modifies this`bars
      ensures bars == InsertBars(old(bars), batch)
      ensures fates == BarFates(old(bars), batch)
    {
      fates := [];
      for n := 0 to |batch|
        invariant bars == InsertBars(old(bars), batch[..n])
        invariant fates == BarFates(old(bars), batch)[..n]
      {
        var b := batch[n];
        var key := KeyOf(b);
        InsertBarsNext(old(bars), batch, n);
        if key in bars {
          fates := fates + [if bars[key].hash == b.hash then Unchanged else Contradicted];
        } else {
          bars := bars[key := StoredBar(b.hash, true)];
          fates := fates + [Inserted];
        }
      }
      assert batch[..|batch|] == batch;
    }

    /** `_insert_absence` over a batch. */
    method StoreAbsences(batch: seq<Fact>) returns (fates: seq<Fate>)
      requires NoDuplicates(batch)
      modifies this`absences
      ensures absences == InsertAbsences(old(absences), batch)
      ensures fates == AbsenceFates(old(absences), batch)
    {
      fates := [];
      for n := 0 to |batch|
        invariant absences == InsertAbsences(old(absences), batch[..n])
        invariant fates == AbsenceFates(old(absences), batch)[..n]
      {
        var b := batch[n];
        var key := KeyOf(b);
        InsertAbsencesNext(old(absences), batch, n);
        if key in absences {
          fates := fates + [if absences[key] == b.hash then Unchanged else Contradicted];
        } else {
          absences := absences[key := b.hash];
          fates := fates + [Inserted];
        }
      }
      assert batch[..|batch|] == batch;
    }

    /** `_upsert_factor` over a batch. */
    method StoreFactors(batch: seq<Fact>) returns (fates: seq<Fate>)
      modifies this`factors
      ensures factors == UpsertFactors(old(factors), batch)
      ensures fates == FactorFates(old(factors), batch)
    {
      fates := [];
      for n := 0 to |batch|
        invariant factors == UpsertFactors(old(factors), batch[..n])
        invariant fates == FactorFates(old(factors), batch)[..n]
      {
        UpsertNext(old(factors), batch, n);
        var key, hash := KeyOf(batch[n]), batch[n].hash;
        var known := key in factors;
        if known && factors[key] == hash {
          fates := fates + [Unchanged];
        } else {
          factors := factors[key := hash];
          fates := fates + [if known then Updated else Inserted];
        }
      }
      assert batch[..|batch|] == batch;
    }

    /**
    `commit_security_observations`: one transaction, and never a stored bar or absence overwritten.  The counts
    say what became of each fact; a conflict is counted and the rest is stored all the same.
    */
    method CommitSecurityObservations(newBars: seq<Fact>, newFactors: seq<Fact>, newAbsences: seq<Fact>)
        returns (result: Option<SecurityCommitResult>)
      modifies this
      ensures result.Some? <==> ValidBatch(newBars, newFactors, newAbsences)
      ensures Stored()
              == if result.Some? then Commit(old(Stored()), newBars, newFactors, newAbsences) else old(Stored())
      ensures result.Some? ==> result.value == CommitCounts(old(Stored()), newBars, newFactors, newAbsences)
    {
      if !ValidBatch(newBars, newFactors, newAbsences) { return None; }
      var b := StoreBars(newBars);
      var a := StoreAbsences(newAbsences);
      var r := StoreFactors(newFactors);
      return Some(SecurityCommitResult(
        Tally(b, Inserted), Tally(b, Unchanged), Tally(b, Contradicted),
        Tally(a, Inserted), Tally(a, Unchanged), Tally(a, Contradicted),
        Tally(r, Inserted), Tally(r, Updated), Tally(r, Unchanged)));
    }
  }

  /** One more bar: it is inserted unless its date is taken, and only what was stored before can take it. */
  lemma InsertBarsNext(stored: map<Key, StoredBar>, batch: seq<Fact>, n: nat)
    requires NoDuplicates(batch) && n < |batch|
    ensures var m, b := InsertBars(stored, batch[..n]), batch[n];
            && InsertBars(stored, batch[..n + 1])
               == (if KeyOf(b) in m then m else m[KeyOf(b) := StoredBar(b.hash, true)])
            && BarFate(m, b) == BarFate(stored, b)
  {
    assert batch[..n + 1][..n] == batch[..n];
    InsertBarsMeans(stored, batch[..n]);
    NewKey(batch, n);
  }

  lemma InsertAbsencesNext(stored: map<Key, Hash>, batch: seq<Fact>, n: nat)
    requires NoDuplicates(batch) && n < |batch|
    ensures var m, b := InsertAbsences(stored, batch[..n]), batch[n];
            && InsertAbsences(stored, batch[..n + 1]) == (if KeyOf(b) in m then m else m[KeyOf(b) := b.hash])
            && AbsenceFate(m, b) == AbsenceFate(stored, b)
  {
    assert batch[..n + 1][..n] == batch[..n];
    InsertAbsencesMeans(stored, batch[..n]);
    NewKey(batch, n);
  }

  lemma UpsertNext(stored: map<Key, Hash>, batch: seq<Fact>, n: nat)
    requires n < |batch|
    ensures UpsertFactors(stored, batch[..n + 1]) == UpsertFactors(stored, batch[..n])[KeyOf(batch[n]) := batch[n].hash]
    ensures FactorFates(stored, batch)[..n + 1]
            == FactorFates(stored, batch)[..n] + [FactorFate(UpsertFactors(stored, batch[..n]), batch[n])]
  {
    assert batch[..n + 1][..n] == batch[..n];
  }

  /** In a batch without duplicates the next key is new to the prefix. */
  lemma NewKey(batch: seq<Fact>, n: nat)
    requires NoDuplicates(batch) && n < |batch|
    ensures KeyOf(batch[n]) !in Keys(batch[..n])
  {}

  lemma TallyMore(fates: seq<Fate>, last: Fate, fate: Fate)
    ensures Tally(fates + [last], fate) == Tally(fates, fate) + if last == fate then 1 else 0
  {}

  lemma {:induction false} BarsGrow(stored: map<Key, StoredBar>, batch: seq<Fact>)
    requires NoDuplicates(batch)
    ensures |InsertBars(stored, batch)| == |stored| + Tally(BarFates(stored, batch), Inserted)
  {
    if batch != [] {
      var n := |batch| - 1;
      BarsGrow(stored, batch[..n]);
      assert batch[..n + 1] == batch;
      InsertBarsNext(stored, batch, n);
      BarFatesLast(stored, batch);
      TallyMore(BarFates(stored, batch[..n]), BarFate(stored, batch[n]), Inserted);
    }
  }

  lemma BarFatesLast(stored: map<Key, StoredBar>, batch: seq<Fact>)
    requires batch != []
    ensures var n := |batch| - 1;
            BarFates(stored, batch) == BarFates(stored, batch[..n]) + [BarFate(stored, batch[n])]
  {}

  lemma {:induction false} AbsencesGrow(stored: map<Key, Hash>, batch: seq<Fact>)
    requires NoDuplicates(batch)
    ensures |InsertAbsences(stored, batch)| == |stored| + Tally(AbsenceFates(stored, batch), Inserted)
  {
    if batch != [] {
      var n := |batch| - 1;
      AbsencesGrow(stored, batch[..n]);
      assert batch[..n + 1] == batch;
      InsertAbsencesNext(stored, batch, n);
      AbsenceFatesLast(stored, batch);
      TallyMore(AbsenceFates(stored, batch[..n]), AbsenceFate(stored, batch[n]), Inserted);
    }
  }

  lemma AbsenceFatesLast(stored: map<Key, Hash>, batch: seq<Fact>)
    requires batch != []
    ensures var n := |batch| - 1;
            AbsenceFates(stored, batch) == AbsenceFates(stored, batch[..n]) + [AbsenceFate(stored, batch[n])]
  {}

  lemma {:induction false} FactorsGrow(stored: map<Key, Hash>, batch: seq<Fact>)
    ensures |UpsertFactors(stored, batch)| == |stored| + Tally(FactorFates(stored, batch), Inserted)
  {
    if batch != [] {
      var front, b := batch[..|batch| - 1], batch[|batch| - 1];
      FactorsGrow(stored, front);
      UpsertSize(UpsertFactors(stored, front), b);
      FactorFatesLast(stored, batch);
      TallyMore(FactorFates(stored, front), FactorFate(UpsertFactors(stored, front), b), Inserted);
    }
  }

  lemma UpsertSize(stored: map<Key, Hash>, b: Fact)
    ensures |stored[KeyOf(b) := b.hash]| == |stored| + if FactorFate(stored, b) == Inserted then 1 else 0
  {}

  lemma FactorFatesLast(stored: map<Key, Hash>, batch: seq<Fact>)
    requires batch != []
    ensures var front, b := batch[..|batch| - 1], batch[|batch| - 1];
            FactorFates(stored, batch) == FactorFates(stored, front) + [FactorFate(UpsertFactors(stored, front), b)]
  {
    var front := batch[..|batch| - 1];
    forall i | 0 <= i < |front| ensures FactorFates(stored, batch)[i] == FactorFates(stored, front)[i] {
      assert front[..i] == batch[..i];
    }
  }

  /** Each table grows by just what is counted as inserted, and a conflict is counted exactly when there is one. */
  lemma CountsAreTrue(f: Facts, bars: seq<Fact>, factors: seq<Fact>, absences: seq<Fact>)
    requires NoDuplicates(bars) && NoDuplicates(absences)
    ensures var n, g := CommitCounts(f, bars, factors, absences), Commit(f, bars, factors, absences);
            && |g.bars| == |f.bars| + n.insertedBars
            && |g.absences| == |f.absences| + n.insertedAbsences
            && |g.factors| == |f.factors| + n.insertedFactors
            && (n.conflictedBars > 0 || n.conflictedAbsences > 0 <==> Conflicts(f, bars, absences))
  {
    BarsGrow(f.bars, bars);
    AbsencesGrow(f.absences, absences);
    FactorsGrow(f.factors, factors);
    ConflictsCounted(f, bars, absences);
  }

  lemma ConflictsCounted(f: Facts, bars: seq<Fact>, absences: seq<Fact>)
    ensures var n := CommitCounts(f, bars, [], absences);
            n.conflictedBars > 0 || n.conflictedAbsences > 0 <==> Conflicts(f, bars, absences)
  {
    var b, a := BarFates(f.bars, bars), AbsenceFates(f.absences, absences);
    Occurs(b, Contradicted);
    Occurs(a, Contradicted);
    forall i | 0 <= i < |bars| ensures b[i] == BarFate(f.bars, bars[i]) && b[i] in b {}
    forall i | 0 <= i < |absences| ensures a[i] == AbsenceFate(f.absences, absences[i]) && a[i] in a {}
  }

  lemma Occurs(fates: seq<Fate>, fate: Fate)
    ensures Tally(fates, fate) > 0 <==> fate in fates
  {}
}
