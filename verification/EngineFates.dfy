/** Which failures a run can end with: whatever the providers answer, none that resumption does not reopen. */
module EngineFates {
  import opened Prelude
  import opened ControlModel
  import opened ControlLaws
  import opened MarketFacts
  import opened EngineModel
  import opened EngineLaws
  import opened EngineMeaning
  import opened EngineSafety

  predicate ItemAgrees(db: Db, run: RunId, code: Code) {
    HasItem(db, run, code) ==> !db.items[run][code].status.Conflicted?
  }

  /** No item is in conflict, and the worker is not about to say that one is. */
  ghost predicate NoConflicts(x: World) {
    && (forall run, code :: ItemAgrees(x.db, run, code))
    && (x.worker.Marking? ==> !x.worker.status.Conflicted?)
  }

  lemma RunOpAgrees(db: Db, op: Op, code: Code)
    requires op.CreateRun? || op.StartRun? || op.ResumePartial? || op.Finalize?
    requires op.run in db.items ==> ItemAgrees(db, op.run, code)
    ensures Allowed(db, op) ==> ItemAgrees(Apply(db, op), op.run, code)
  {
    if Allowed(db, op) && op.ResumePartial? && op.run in db.items {
      assert forall c :: c in db.items[op.run] ==> !ResetAll(db.items[op.run], SourceMissing)[c].status.Conflicted?
                                                   || db.items[op.run][c].status.Conflicted?;
    }
  }

  lemma ItemOpAgrees(db: Db, op: Op, code: Code)
    requires op.MarkItem? || op.ClaimItem? || op.RenewItem?
    requires ItemAgrees(db, op.run, code) && (op.MarkItem? ==> !op.status.Conflicted?)
    ensures ItemAgrees(Apply(db, op), op.run, code)
  {}

  lemma RecoverAgrees(db: Db, now: Time, run: RunId, code: Code)
    requires db.items.Keys == db.runs.Keys && ItemAgrees(db, run, code)
    ensures ItemAgrees(Recovered(db, now), run, code)
  {}

  /** No operation but a mark puts an item in conflict. */
  lemma OpAgrees(db: Db, op: Op, run: RunId, code: Code)
    requires Sound(db) && ItemAgrees(db, run, code) && (op.MarkItem? ==> !op.status.Conflicted?)
    ensures ItemAgrees(Apply(db, op), run, code)
  {
    if Allowed(db, op) {
      if op.Recover? { RecoverAgrees(db, op.now, run, code); }
      else if RunOf(op) == Some(run) {
        if op.MarkItem? || op.ClaimItem? || op.RenewItem? { ItemOpAgrees(db, op, code); }
        else { RunOpAgrees(db, op, code); }
      }
      else if run in db.runs {
        assert RunSound(db, run);
        OtherRunsUntouched(db, op, run);
      }
      else { StillUnknown(db, op, run); }
    }
  }

  lemma StillUnknown(db: Db, op: Op, run: RunId)
    requires run !in db.runs && RunOf(op) != Some(run) && !op.Recover?
    ensures run !in Apply(db, op).runs
  {
    if RunOf(op).None? { RunsUntouched(db, op); } else if !op.CreateRun? { RunTablesKept(db, op); }
  }

  lemma OpNoConflicts(x: World, op: Op)
    requires Sound(x.db) && NoConflicts(x) && (op.MarkItem? ==> !op.status.Conflicted?)
    ensures NoConflicts(x.(db := Apply(x.db, op)))
  {
    forall run, code ensures ItemAgrees(Apply(x.db, op), run, code) { OpAgrees(x.db, op, run, code); }
  }

  lemma StepNoConflicts(x: World, e: Event)
    requires Inv(x) && NoConflicts(x)
    ensures NoConflicts(Step(x, e))
  {
    var op := StepOp(x, e);
    if op.Some? { OpNoConflicts(x, op.value); }
    StepFinding(x, e);
  }

  /** The control operation inside an event, and that it never puts an item in conflict by itself. */
  lemma StepOp(x: World, e: Event) returns (op: Option<Op>)
    ensures Step(x, e).db == (if op.Some? then Apply(x.db, op.value) else x.db)
    ensures NoConflicts(x) && op.Some? && op.value.MarkItem? ==> !op.value.status.Conflicted?
  {
    op := None;
    match e
    case Control(o) => if FromOutside(o) { op := Some(o); }
    case Begin(run, _, _, _) => if Step(x, e) != x { op := Some(StartRun(run)); }
    case Scan(now, seconds) =>
      if x.worker.Scanning? && x.worker.job.todo != [] && Step(x, e).db != x.db {
        op := Some(ClaimItem(x.worker.job.run, x.worker.job.todo[0], x.worker.job.owner, now, seconds));
      }
    case Mark =>
      if x.worker.Marking? && Step(x, e).db != x.db {
        op := Some(MarkItem(x.worker.job.run, x.worker.code, x.worker.status));
      }
    case Finish => if Step(x, e) != x { op := Some(Finalize(x.worker.job.run)); }
    case _ =>
  }

  lemma FetchFinding(x: World, a: Answer)
    requires FactsSound(x.facts) && x.worker.Ingesting?
    ensures var w := Step(x, Fetch(a)).worker; w.Marking? ==> !w.status.Conflicted?
  {
    var j, code := x.worker.job, x.worker.code;
    if Known(x.db, j.run, code) { SoundNeverConflicts(x.facts, code, ExpectedOf(x.db, j.run, code, j.sessions), a); }
  }

  lemma FactorFinding(x: World, a: Answer)
    requires x.worker.Factoring?
    ensures var w := Step(x, FetchFactors(a)).worker; w.Marking? ==> !w.status.Conflicted?
  {
    if x.worker.expected != [] { FactorStatus(x.facts, x.worker.code, x.worker.expected, a); }
  }

  lemma FactorStatus(f: Facts, code: Code, expected: seq<Date>, a: Answer)
    requires expected != []
    ensures CoverFactors(f, code, expected, a).1 in {ToMark(Done), ToMark(SourceMissing)}
  {}

  /** Other steps find nothing new. */
  lemma OtherFinding(x: World, e: Event)
    requires !(e.Fetch? && x.worker.Ingesting?) && !(e.FetchFactors? && x.worker.Factoring?)
    ensures var w := Step(x, e).worker; w.Marking? ==> x.worker.Marking? && w.status == x.worker.status
  {}

  /** A worker that sets out to mark an item does not set out to mark a conflict. */
  lemma StepFinding(x: World, e: Event)
    requires Inv(x) && NoConflicts(x)
    ensures var w := Step(x, e).worker; w.Marking? ==> !w.status.Conflicted?
  {
    if e.Fetch? && x.worker.Ingesting? { FetchFinding(x, e.answer); }
    else if e.FetchFactors? && x.worker.Factoring? { FactorFinding(x, e.answer); }
    else { OtherFinding(x, e); }
  }

  lemma {:induction false} PlayNoConflicts(facts: Facts, events: seq<Event>)
    requires FactsSound(facts)
    ensures NoConflicts(Play(Start(facts), events))
  {
    if events != [] {
      PlayInv(facts, events[..|events| - 1]);
      PlayNoConflicts(facts, events[..|events| - 1]);
      StepNoConflicts(Play(Start(facts), events[..|events| - 1]), events[|events| - 1]);
    }
  }

  /** The worker works on a run that exists, with sessions in ascending order inside its window. */
  predicate JobFits(x: World) {
    x.worker.Idle? ||
    var j := x.worker.job;
    && j.run in x.db.runs && j.sessions != []
    && (forall a, b :: 0 <= a < b < |j.sessions| ==> j.sessions[a] < j.sessions[b])
    && x.db.runs[j.run].window.start <= j.sessions[0]
    && j.sessions[|j.sessions| - 1] <= x.db.runs[j.run].window.end
  }

  lemma BegunFits(x: World, e: Event)
    requires e.Begin?
    ensures var y := Step(x, e); y.worker == x.worker || JobFits(y)
  {}

  lemma WindowStays(x: World, e: Event, run: RunId)
    requires Sound(x.db) && run in x.db.runs
    ensures run in Step(x, e).db.runs && Step(x, e).db.runs[run].window == x.db.runs[run].window
  {
    var op := StepOp(x, e);
    assert RunSound(x.db, run);
    if op.Some? { ApplyLater(x.db, op.value, run); }
  }

  lemma SameJobFits(x: World, y: World)
    requires JobFits(x) && !x.worker.Idle? && !y.worker.Idle?
    requires y.worker.job.run == x.worker.job.run && y.worker.job.sessions == x.worker.job.sessions
    requires var run := x.worker.job.run; run in y.db.runs && y.db.runs[run].window == x.db.runs[run].window
    ensures JobFits(y)
  {}

  lemma StepJobFits(x: World, e: Event)
    requires Inv(x) && JobFits(x)
    ensures JobFits(Step(x, e))
  {
    if !x.worker.Idle? { WindowStays(x, e, x.worker.job.run); }
    if e.Begin? { BegunFits(x, e); }
    if !Step(x, e).worker.Idle? && !(e.Begin? && Step(x, e).worker != x.worker) {
      StepJob(x, e);
      if !x.worker.Idle? { SameJobFits(x, Step(x, e)); }
    }
  }

  lemma {:induction false} PlayJobFits(facts: Facts, events: seq<Event>)
    requires FactsSound(facts)
    ensures JobFits(Play(Start(facts), events))
  {
    if events != [] {
      PlayInv(facts, events[..|events| - 1]);
      PlayJobFits(facts, events[..|events| - 1]);
      StepJobFits(Play(Start(facts), events[..|events| - 1]), events[|events| - 1]);
    }
  }

  /**
  Whatever the providers answer and whoever crashes: starting from sound facts with one worker, no item is ever in
  conflict.  So resuming a partial run leaves nothing failed: every item is done, skipped or to be done again.
  */
  lemma FailuresReopen(facts: Facts, events: seq<Event>, run: RunId, code: Code)
    requires FactsSound(facts)
    requires var db := Play(Start(facts), events).db; Allowed(db, ResumePartial(run)) && HasItem(db, run, code)
    ensures var db := Play(Start(facts), events).db; var db' := Apply(db, ResumePartial(run));
            && !db.items[run][code].status.Conflicted?
            && HasItem(db', run, code)
            && db'.items[run][code].status
               == (if db.items[run][code].status.SourceMissing? then Todo else db.items[run][code].status)
            && (db'.items[run][code].status.Todo? || CountsDone(db'.items[run][code].status))
  {
    var x := Play(Start(facts), events);
    PlayInv(facts, events);
    PlayNoConflicts(facts, events);
    assert ItemAgrees(x.db, run, code) && RunSound(x.db, run);
  }
}
