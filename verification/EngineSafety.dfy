/** Every run of the ingestion: whatever the order of events, a sealed run is a covered run. */
module EngineSafety {
  import opened Prelude
  import opened ControlModel
  import opened ControlLaws
  import opened MarketFacts
  import opened EngineModel
  import opened EngineLaws

  /** Every expected session of the item is covered, and every bar among them has a factor. */
  predicate Proven(f: Facts, db: Db, run: RunId, code: Code, sessions: seq<Date>)
    requires Known(db, run, code)
  {
    var expected := ExpectedOf(db, run, code, sessions);
    AllCovered(f, code, expected) && AllFactored(f, code, expected)
  }

  /** An item that counts as done was proven against the sessions it was last asked for. */
  predicate ItemSound(x: World, run: RunId, code: Code) {
    Known(x.db, run, code) && CountsDone(x.db.items[run][code].status) ==>
      (run, code) in x.asked && Proven(x.facts, x.db, run, code, x.asked[(run, code)])
  }

  ghost predicate ItemsSound(x: World) { forall run, code :: ItemSound(x, run, code) }

  predicate Working(x: World, job: Job, code: Code) {
    && Known(x.db, job.run, code) && Ascending(job.sessions)
    && (job.run, code) in x.asked && x.asked[(job.run, code)] == job.sessions
  }

  /** What the worker has established so far about the item in its hands. */
  predicate WorkerSound(x: World) {
    match x.worker
    case Idle => true
    case Scanning(job) => Ascending(job.sessions)
    case Ingesting(job, code) => Working(x, job, code)
    case Factoring(job, code, expected) =>
      && Working(x, job, code) && expected == ExpectedOf(x.db, job.run, code, job.sessions)
      && AllCovered(x.facts, code, expected)
    case Marking(job, code, status) =>
      Working(x, job, code) && (CountsDone(status) ==> Proven(x.facts, x.db, job.run, code, job.sessions))
  }

  ghost predicate Inv(x: World) { Sound(x.db) && FactsSound(x.facts) && ItemsSound(x) && WorkerSound(x) }

  // ---------------------------------------------------------------- what lasts

  lemma ExpectedLasts(db: Db, op: Op, run: RunId, code: Code, sessions: seq<Date>)
    requires Sound(db) && Known(db, run, code)
    ensures Known(Apply(db, op), run, code)
    ensures ExpectedOf(Apply(db, op), run, code, sessions) == ExpectedOf(db, run, code, sessions)
  {
    assert RunSound(db, run);
    ApplyLater(db, op, run);
    assert ItemLater(op, run, db.items[run][code], Apply(db, op).items[run][code]);
  }

  lemma ItemOpDoneBefore(db: Db, op: Op, code: Code)
    requires (op.MarkItem? && op.code != code) || op.ClaimItem? || op.RenewItem?
    requires op.run in db.items && Known(Apply(db, op), op.run, code)
    requires CountsDone(Apply(db, op).items[op.run][code].status)
    ensures code in db.items[op.run] && CountsDone(db.items[op.run][code].status)
  {}

  lemma RunOpDoneBefore(db: Db, op: Op, code: Code)
    requires op.StartRun? || op.ResumePartial? || op.Finalize?
    requires op.run in db.items && Known(Apply(db, op), op.run, code)
    requires CountsDone(Apply(db, op).items[op.run][code].status)
    ensures code in db.items[op.run] && CountsDone(db.items[op.run][code].status)
  {}

  lemma RecoverDoneBefore(db: Db, now: Time, run: RunId, code: Code)
    requires run in db.items && Known(Recovered(db, now), run, code)
    requires CountsDone(Recovered(db, now).items[run][code].status)
    ensures code in db.items[run] && CountsDone(db.items[run][code].status)
  {}

  lemma CreatedNotDone(db: Db, op: Op, run: RunId, code: Code)
    requires run !in db.runs && db.items.Keys == db.runs.Keys && Known(Apply(db, op), run, code)
    ensures !CountsDone(Apply(db, op).items[run][code].status)
  {
    RequestsStay(db, op);
  }

  lemma StandingDoneBefore(db: Db, op: Op, run: RunId, code: Code)
    requires Allowed(db, op) && run in db.runs && run in db.items && run in db.securities
    requires Known(Apply(db, op), run, code) && CountsDone(Apply(db, op).items[run][code].status)
    requires !(op.MarkItem? && op.run == run && op.code == code)
    ensures code in db.items[run] && CountsDone(db.items[run][code].status)
  {
    if op.Recover? { RecoverDoneBefore(db, op.now, run, code); }
    else if RunOf(op) != Some(run) { OtherRunsUntouched(db, op, run); }
    else if op.StartRun? || op.ResumePartial? || op.Finalize? { RunOpDoneBefore(db, op, code); }
    else if op.MarkItem? || op.ClaimItem? || op.RenewItem? { ItemOpDoneBefore(db, op, code); }
  }

  /** Only a mark makes an item count as done. */
  lemma DoneBefore(db: Db, op: Op, run: RunId, code: Code)
    requires Sound(db) && Known(Apply(db, op), run, code) && CountsDone(Apply(db, op).items[run][code].status)
    requires !(op.MarkItem? && op.run == run && op.code == code)
    ensures Known(db, run, code) && CountsDone(db.items[run][code].status)
  {
    if run !in db.runs { CreatedNotDone(db, op, run, code); }
    else {
      assert RunSound(db, run);
      if Allowed(db, op) { StandingDoneBefore(db, op, run, code); }
    }
  }

  /** New facts never take back a proof. */
  lemma FactsLast(f: Facts, f': Facts, db: Db, run: RunId, code: Code, sessions: seq<Date>)
    requires Known(db, run, code) && Proven(f, db, run, code, sessions)
    requires Grows(f, f') && FactsSound(f')
    ensures Proven(f', db, run, code, sessions)
  {
    var expected := ExpectedOf(db, run, code, sessions);
    forall d | d in expected ensures Covered(f', code, d) { CoverageStays(f, f', code, d); }
    forall d | d in expected && (code, d) in f'.bars ensures (code, d) in f'.factors { assert Covered(f, code, d); }
  }

  /** Nor does a control operation. */
  lemma ProvenLasts(f: Facts, db: Db, op: Op, run: RunId, code: Code, sessions: seq<Date>)
    requires Sound(db) && Known(db, run, code) && Proven(f, db, run, code, sessions)
    ensures Known(Apply(db, op), run, code) && Proven(f, Apply(db, op), run, code, sessions)
  {
    ExpectedLasts(db, op, run, code, sessions);
  }

  // ---------------------------------------------------------------- one step

  /** A control operation that is no mark keeps every item sound. */
  lemma OpItemsSound(x: World, op: Op)
    requires Sound(x.db) && FactsSound(x.facts) && ItemsSound(x) && !op.MarkItem?
    ensures ItemsSound(x.(db := Apply(x.db, op)))
  {
    var y := x.(db := Apply(x.db, op));
    forall run, code ensures ItemSound(y, run, code) {
      if Known(y.db, run, code) && CountsDone(y.db.items[run][code].status) {
        DoneBefore(x.db, op, run, code);
        assert ItemSound(x, run, code);
        ProvenLasts(x.facts, x.db, op, run, code, x.asked[(run, code)]);
      }
    }
  }

  /** A control operation leaves the worker's findings valid. */
  lemma OpWorkerSound(x: World, op: Op)
    requires Sound(x.db) && FactsSound(x.facts) && WorkerSound(x)
    ensures WorkerSound(x.(db := Apply(x.db, op)))
  {
    match x.worker
    case Idle =>
    case Scanning(job) =>
    case Ingesting(job, code) => ExpectedLasts(x.db, op, job.run, code, job.sessions);
    case Factoring(job, code, expected) => ExpectedLasts(x.db, op, job.run, code, job.sessions);
    case Marking(job, code, status) =>
      ExpectedLasts(x.db, op, job.run, code, job.sessions);
      if CountsDone(status) { ProvenLasts(x.facts, x.db, op, job.run, code, job.sessions); }
  }

  lemma OpInv(x: World, op: Op)
    requires Inv(x) && !op.MarkItem?
    ensures Inv(x.(db := Apply(x.db, op)))
  {
    ApplySound(x.db, op);
    OpItemsSound(x, op);
    OpWorkerSound(x, op);
  }

  /** Claiming an item forgets what it was asked for before; it was not done, so nothing is lost. */
  lemma AskedItemsSound(x: World, run: RunId, code: Code, sessions: seq<Date>, w: Worker)
    requires ItemsSound(x) && Known(x.db, run, code) && !CountsDone(x.db.items[run][code].status)
    ensures ItemsSound(x.(asked := x.asked[(run, code) := sessions], worker := w))
  {
    var y := x.(asked := x.asked[(run, code) := sessions], worker := w);
    forall r, c ensures ItemSound(y, r, c) { assert ItemSound(x, r, c); }
  }

  lemma ClaimedStatus(db: Db, op: Op)
    requires op.ClaimItem? && Allowed(db, op)
    ensures HasItem(Apply(db, op), op.run, op.code) && Apply(db, op).items[op.run][op.code].status.Running?
  {}

  lemma ClaimedKnown(db: Db, op: Op)
    requires Sound(db) && op.ClaimItem? && Allowed(db, op) && Known(db, op.run, op.code)
    ensures Known(Apply(db, op), op.run, op.code) && !CountsDone(Apply(db, op).items[op.run][op.code].status)
  {
    ClaimedStatus(db, op);
    ExpectedLasts(db, op, op.run, op.code, []);
  }

  lemma ClaimInv(x: World, op: Op, rest: Job)
    requires Inv(x) && op.ClaimItem? && Allowed(x.db, op) && Known(x.db, op.run, op.code)
    requires rest.run == op.run && Ascending(rest.sessions)
    ensures Inv(x.(db := Apply(x.db, op), worker := Ingesting(rest, op.code),
                   asked := x.asked[(op.run, op.code) := rest.sessions]))
  {
    OpInv(x, op);
    ClaimedKnown(x.db, op);
    AskedInv(x.(db := Apply(x.db, op)), op.code, rest);
  }

  lemma AskedInv(x: World, code: Code, rest: Job)
    requires Inv(x) && Known(x.db, rest.run, code) && !CountsDone(x.db.items[rest.run][code].status)
    requires Ascending(rest.sessions)
    ensures Inv(x.(worker := Ingesting(rest, code), asked := x.asked[(rest.run, code) := rest.sessions]))
  {
    AskedItemsSound(x, rest.run, code, rest.sessions, Ingesting(rest, code));
  }

  lemma ScanInv(x: World, now: Time, seconds: int)
    requires Inv(x)
    ensures Inv(Step(x, Scan(now, seconds)))
  {
    if x.worker.Scanning? && x.worker.job.todo != [] {
      var j := x.worker.job;
      var code, rest := j.todo[0], j.(todo := j.todo[1..]);
      var op := ClaimItem(j.run, code, j.owner, now, seconds);
      var y := Step(x, Scan(now, seconds));
      if Known(x.db, j.run, code) && !TerminalItem(x.db.items[j.run][code].status) && Allowed(x.db, op) {
        ClaimInv(x, op, rest);
      } else {
        assert y == x.(worker := y.worker);
        SameItemsSound(x, y.worker);
      }
    }
  }

  /** New facts keep the items sound. */
  lemma FactsItemsSound(x: World, f': Facts, w: Worker)
    requires Sound(x.db) && ItemsSound(x) && Grows(x.facts, f') && FactsSound(f')
    ensures ItemsSound(x.(facts := f', worker := w))
  {
    forall run, code ensures ItemSound(x.(facts := f', worker := w), run, code) {
      assert ItemSound(x, run, code);
      if Known(x.db, run, code) && CountsDone(x.db.items[run][code].status) {
        FactsLast(x.facts, f', x.db, run, code, x.asked[(run, code)]);
      }
    }
  }

  lemma FetchInv(x: World, a: Answer)
    requires Inv(x)
    ensures Inv(Step(x, Fetch(a)))
  {
    if x.worker.Ingesting? {
      var j, code := x.worker.job, x.worker.code;
      var expected := ExpectedOf(x.db, j.run, code, j.sessions);
      if expected == [] { FactsInv(x, x.facts, Marking(j, code, Skipped)); }
      else { FetchedInv(x, j, code, expected, a); }
    }
  }

  lemma FetchedInv(x: World, j: Job, code: Code, expected: seq<Date>, a: Answer)
    requires Inv(x) && x.worker == Ingesting(j, code) && Known(x.db, j.run, code)
    requires expected == ExpectedOf(x.db, j.run, code, j.sessions) && expected != []
    ensures var (facts, next) := Ingest(x.facts, code, expected, a);
            Inv(x.(facts := facts,
                   worker := if next.ToFactors? then Factoring(j, code, expected) else Marking(j, code, next.status)))
  {
    var (facts, next) := Ingest(x.facts, code, expected, a);
    IngestLaw(x.facts, code, expected, a);
    FactsInv(x, facts, if next.ToFactors? then Factoring(j, code, expected) else Marking(j, code, next.status));
  }

  /** New facts and a worker with a sound finding about them. */
  lemma FactsInv(x: World, f': Facts, w: Worker)
    requires Inv(x) && Grows(x.facts, f') && FactsSound(f') && WorkerSound(x.(facts := f', worker := w))
    ensures Inv(x.(facts := f', worker := w))
  {
    FactsItemsSound(x, f', w);
  }

  lemma ExpectedAscending(db: Db, run: RunId, code: Code, sessions: seq<Date>)
    requires Known(db, run, code) && Ascending(sessions)
    ensures Ascending(ExpectedOf(db, run, code, sessions))
  {
    var w, i, s := db.runs[run].window, db.items[run][code], db.securities[run][code];
    BetweenAscending(sessions, Max(Max(w.start, i.start), s.list),
      if s.delist.Some? then Min(Min(w.end, i.end), s.delist.value) else Min(w.end, i.end));
  }

  lemma FetchFactorsInv(x: World, a: Answer)
    requires Inv(x)
    ensures Inv(Step(x, FetchFactors(a)))
  {
    if x.worker.Factoring? && x.worker.expected != [] {
      var j, code, expected := x.worker.job, x.worker.code, x.worker.expected;
      ExpectedAscending(x.db, j.run, code, j.sessions);
      FactorLaw(x.facts, code, expected, a);
      var (facts, next) := CoverFactors(x.facts, code, expected, a);
      FactorsInv(x, facts, next.status);
    }
  }

  lemma FactorsInv(x: World, f': Facts, status: ItemStatus)
    requires Inv(x) && x.worker.Factoring? && FactsSound(x.facts)
    requires f'.bars == x.facts.bars && f'.absences == x.facts.absences && x.facts.factors.Keys <= f'.factors.Keys
    requires CountsDone(status) ==> AllFactored(f', x.worker.code, x.worker.expected)
    ensures Inv(x.(facts := f', worker := Marking(x.worker.job, x.worker.code, status)))
  {
    FactsInv(x, f', Marking(x.worker.job, x.worker.code, status));
  }

  /** The mark transfers the worker's finding to the item. */
  lemma MarkInv(x: World)
    requires Inv(x)
    ensures Inv(Step(x, Mark))
  {
    if x.worker.Marking? {
      var op := MarkItem(x.worker.job.run, x.worker.code, x.worker.status);
      ApplySound(x.db, op);
      if Allowed(x.db, op) { MarkItemsSound(x, op); } else { SameItemsSound(x, Idle); }
    }
  }

  lemma MarkItemsSound(x: World, op: Op)
    requires Inv(x) && x.worker.Marking? && Allowed(x.db, op)
    requires op == MarkItem(x.worker.job.run, x.worker.code, x.worker.status)
    ensures ItemsSound(x.(db := Apply(x.db, op), worker := Scanning(x.worker.job)))
  {
    var y := x.(db := Apply(x.db, op), worker := Scanning(x.worker.job));
    forall r, c ensures ItemSound(y, r, c) {
      if Known(y.db, r, c) && CountsDone(y.db.items[r][c].status) {
        if (r, c) == (op.run, op.code) { OwnMarkSound(x, op); } else { OtherMarkSound(x, op, r, c); }
      }
    }
  }

  /** The marked item: what the worker found. */
  lemma OwnMarkSound(x: World, op: Op)
    requires Sound(x.db) && WorkerSound(x) && x.worker.Marking? && Allowed(x.db, op)
    requires op == MarkItem(x.worker.job.run, x.worker.code, x.worker.status)
    requires Known(Apply(x.db, op), op.run, op.code) && CountsDone(Apply(x.db, op).items[op.run][op.code].status)
    ensures (op.run, op.code) in x.asked && x.asked[(op.run, op.code)] == x.worker.job.sessions
    ensures Proven(x.facts, Apply(x.db, op), op.run, op.code, x.worker.job.sessions)
  {
    MarkedStatus(x.db, op);
    ProvenLasts(x.facts, x.db, op, op.run, op.code, x.worker.job.sessions);
  }

  /** Every other item: what it was before. */
  lemma OtherMarkSound(x: World, op: Op, run: RunId, code: Code)
    requires Sound(x.db) && ItemsSound(x) && op.MarkItem? && (run, code) != (op.run, op.code)
    requires Known(Apply(x.db, op), run, code) && CountsDone(Apply(x.db, op).items[run][code].status)
    ensures (run, code) in x.asked && Proven(x.facts, Apply(x.db, op), run, code, x.asked[(run, code)])
  {
    DoneBefore(x.db, op, run, code);
    assert ItemSound(x, run, code);
    ProvenLasts(x.facts, x.db, op, run, code, x.asked[(run, code)]);
  }

  lemma MarkedStatus(db: Db, op: Op)
    requires op.MarkItem? && Allowed(db, op)
    ensures HasItem(Apply(db, op), op.run, op.code) && Apply(db, op).items[op.run][op.code].status == op.status
  {}

  lemma BeginInv(x: World, run: RunId, sessions: seq<Date>, owner: Owner, order: seq<Code>)
    requires Inv(x)
    ensures Inv(Step(x, Begin(run, sessions, owner, order)))
  {
    var y := Step(x, Begin(run, sessions, owner, order));
    if y != x {
      var started := x.(db := Apply(x.db, StartRun(run)));
      OpInv(x, StartRun(run));
      assert y == started.(worker := y.worker);
      SameItemsSound(started, y.worker);
    }
  }

  lemma SameItemsSound(x: World, w: Worker)
    requires ItemsSound(x)
    ensures ItemsSound(x.(worker := w))
  {
    forall run, code ensures ItemSound(x.(worker := w), run, code) { assert ItemSound(x, run, code); }
  }

  lemma FinishInv(x: World)
    requires Inv(x)
    ensures Inv(Step(x, Finish))
  {
    if x.worker.Scanning? && x.worker.job.todo == [] {
      OpInv(x, Finalize(x.worker.job.run));
      SameItemsSound(x.(db := Apply(x.db, Finalize(x.worker.job.run))), Idle);
    }
  }

  lemma StepInv(x: World, e: Event)
    requires Inv(x)
    ensures Inv(Step(x, e))
  {
    match e
    case Control(op) => if FromOutside(op) { OpInv(x, op); }
    case Begin(run, sessions, owner, order) => BeginInv(x, run, sessions, owner, order);
    case Scan(now, seconds) => ScanInv(x, now, seconds);
    case Fetch(a) => FetchInv(x, a);
    case FetchFactors(a) => FetchFactorsInv(x, a);
    case Mark => MarkInv(x);
    case Finish => FinishInv(x);
    case Crash => SameItemsSound(x, Idle);
  }

  lemma {:induction false} PlayInv(facts: Facts, events: seq<Event>)
    requires FactsSound(facts)
    ensures Inv(Play(Start(facts), events))
  {
    if events != [] {
      PlayInv(facts, events[..|events| - 1]);
      StepInv(Play(Start(facts), events[..|events| - 1]), events[|events| - 1]);
    }
  }

  // ---------------------------------------------------------------- the calendars of a run

  /** The run is started, or started again, with the trading days then on record. */
  predicate IsStart(events: seq<Event>, i: int, run: RunId) {
    0 <= i < |events| && events[i].Begin? && events[i].run == run
  }

  /** Some start of the run was given these trading days. */
  ghost predicate Given(events: seq<Event>, run: RunId, sessions: seq<Date>) {
    exists i :: IsStart(events, i, run) && events[i].sessions == sessions
  }

  /** What the worker works with, and what every item was asked for, was given at some start of its run. */
  ghost predicate AllGiven(x: World, events: seq<Event>) {
    && (!x.worker.Idle? ==> Given(events, x.worker.job.run, x.worker.job.sessions))
    && forall k :: k in x.asked ==> Given(events, k.0, x.asked[k])
  }

  /** A worker keeps its job, or has just begun one. */
  lemma StepJob(x: World, e: Event)
    ensures var w := Step(x, e).worker;
            !w.Idle? ==>
              || (!x.worker.Idle? && w.job.run == x.worker.job.run && w.job.sessions == x.worker.job.sessions)
              || (e.Begin? && w.job.run == e.run && w.job.sessions == e.sessions)
  {
    match e
    case Control(_) =>
    case Begin(_, _, _, _) =>
    case Scan(_, _) =>
    case Fetch(_) =>
    case FetchFactors(_) =>
    case Mark =>
    case Finish =>
    case Crash =>
  }

  /** An item is asked for what the worker works with. */
  lemma StepAsked(x: World, e: Event, k: (RunId, Code))
    requires k in Step(x, e).asked
    ensures || (k in x.asked && Step(x, e).asked[k] == x.asked[k])
            || (!x.worker.Idle? && k.0 == x.worker.job.run && Step(x, e).asked[k] == x.worker.job.sessions)
  {}

  lemma GivenBefore(events: seq<Event>, run: RunId, sessions: seq<Date>)
    requires events != [] && Given(events[..|events| - 1], run, sessions)
    ensures Given(events, run, sessions)
  {
    var front := events[..|events| - 1];
    var i :| IsStart(front, i, run) && front[i].sessions == sessions;
    assert IsStart(events, i, run) && events[i].sessions == sessions;
  }

  lemma {:induction false} PlayGiven(facts: Facts, events: seq<Event>)
    ensures AllGiven(Play(Start(facts), events), events)
  {
    if events != [] {
      var front, e := events[..|events| - 1], events[|events| - 1];
      var x := Play(Start(facts), front);
      PlayGiven(facts, front);
      StepGiven(x, events);
    }
  }

  lemma StepGiven(x: World, events: seq<Event>)
    requires events != [] && AllGiven(x, events[..|events| - 1])
    ensures AllGiven(Step(x, events[|events| - 1]), events)
  {
    var last := |events| - 1;
    var e := events[last];
    var y := Step(x, e);
    if !x.worker.Idle? { GivenBefore(events, x.worker.job.run, x.worker.job.sessions); }
    if e.Begin? { assert IsStart(events, last, e.run); }
    StepJob(x, e);
    forall k | k in y.asked ensures Given(events, k.0, y.asked[k]) {
      StepAsked(x, e, k);
      if k in x.asked { GivenBefore(events, k.0, x.asked[k]); }
    }
  }

  // ---------------------------------------------------------------- the theorem

  /** A trading day inside the run window, the item's interval and the listing interval of the security. */
  predicate Listed(db: Db, run: RunId, code: Code, d: Date)
    requires Known(db, run, code)
  {
    var w, i, s := db.runs[run].window, db.items[run][code], db.securities[run][code];
    && w.start <= d <= w.end && i.start <= d <= i.end
    && s.list <= d && (s.delist.Some? ==> d <= s.delist.value)
  }

  /** The sessions expected of an item are the given ones that are listed for it. */
  lemma ExpectedIsListed(db: Db, run: RunId, code: Code, sessions: seq<Date>, d: Date)
    requires Known(db, run, code)
    ensures d in ExpectedOf(db, run, code, sessions) <==> d in sessions && Listed(db, run, code, d)
  {
    var w, i, s := db.runs[run].window, db.items[run][code], db.securities[run][code];
    BetweenMeans(sessions, Max(Max(w.start, i.start), s.list),
      if s.delist.Some? then Min(Min(w.end, i.end), s.delist.value) else Min(w.end, i.end), d);
  }

  /** Exactly one of a bar and an absence is stored, and a bar has its factor. */
  predicate Settled(f: Facts, code: Code, d: Date) {
    && ((code, d) in f.bars <==> (code, d) !in f.absences)
    && ((code, d) in f.bars ==> (code, d) in f.factors)
  }

  /** The run is sealed complete. */
  predicate Sealed(db: Db, run: RunId) { run in db.runs && db.runs[run].status.Complete? }

  /** Every one of these trading days that is listed for the item is settled. */
  predicate SettledOn(x: World, run: RunId, code: Code, sessions: seq<Date>)
    requires Known(x.db, run, code)
  {
    forall d :: d in sessions && Listed(x.db, run, code, d) ==> Settled(x.facts, code, d)
  }

  /**
  Whatever the providers answer, whoever crashes, recovers or resumes, and whatever calendar each start was given:
  once a run is sealed complete, every item has, on every listed trading day of some start of the run, exactly one
  of a bar and an absence, and a factor for every bar.
  */
  lemma SealedMeansCovered(facts: Facts, events: seq<Event>, run: RunId, code: Code)
    requires FactsSound(facts)
    requires var x := Play(Start(facts), events); Sealed(x.db, run) && Known(x.db, run, code)
    ensures exists i :: IsStart(events, i, run) && SettledOn(Play(Start(facts), events), run, code, events[i].sessions)
  {
    var x := Play(Start(facts), events);
    PlayInv(facts, events);
    PlayGiven(facts, events);
    assert RunSound(x.db, run) && ItemSound(x, run, code);
    var sessions := x.asked[(run, code)];
    forall d | d in sessions && Listed(x.db, run, code, d) ensures Settled(x.facts, code, d) {
      ProvenSettles(x, run, code, sessions, d);
    }
    var i :| IsStart(events, i, run) && events[i].sessions == sessions;
    assert SettledOn(x, run, code, events[i].sessions);
  }

  lemma ProvenSettles(x: World, run: RunId, code: Code, sessions: seq<Date>, d: Date)
    requires FactsSound(x.facts) && Known(x.db, run, code) && Proven(x.facts, x.db, run, code, sessions)
    requires d in sessions && Listed(x.db, run, code, d)
    ensures Settled(x.facts, code, d)
  {
    ExpectedIsListed(x.db, run, code, sessions, d);
    assert Covered(x.facts, code, d);
  }

  /** Every start of the run was given this trading day. */
  ghost predicate AlwaysGiven(events: seq<Event>, run: RunId, d: Date) {
    forall i :: IsStart(events, i, run) ==> d in events[i].sessions
  }

  /** A trading day given at every start of the run is settled for every item it is listed for. */
  lemma GivenDaySettled(facts: Facts, events: seq<Event>, run: RunId, code: Code, d: Date)
    requires FactsSound(facts) && AlwaysGiven(events, run, d)
    requires var x := Play(Start(facts), events);
             Sealed(x.db, run) && Known(x.db, run, code) && Listed(x.db, run, code, d)
    ensures Settled(Play(Start(facts), events).facts, code, d)
  {
    SealedMeansCovered(facts, events, run, code);
    var i :| IsStart(events, i, run) && SettledOn(Play(Start(facts), events), run, code, events[i].sessions);
    assert d in events[i].sessions;
  }

  /** Between the starts of the run trading days are added to the calendar and none is taken away. */
  ghost predicate CalendarGrows(events: seq<Event>, run: RunId) {
    forall i, j, d :: i < j && IsStart(events, i, run) && IsStart(events, j, run) && d in events[i].sessions ==>
      d in events[j].sessions
  }

  /** If the calendar only grows, the days of the first start are settled, whatever was added later. */
  lemma FirstCalendarSettled(facts: Facts, events: seq<Event>, first: int, run: RunId, code: Code, d: Date)
    requires FactsSound(facts) && CalendarGrows(events, run)
    requires IsStart(events, first, run) && forall i :: 0 <= i < first ==> !IsStart(events, i, run)
    requires var x := Play(Start(facts), events);
             && Sealed(x.db, run) && Known(x.db, run, code)
             && d in events[first].sessions && Listed(x.db, run, code, d)
    ensures Settled(Play(Start(facts), events).facts, code, d)
  {
    forall i | IsStart(events, i, run) ensures d in events[i].sessions {
      if i != first { assert first < i; }
    }
    GivenDaySettled(facts, events, run, code, d);
  }
}
