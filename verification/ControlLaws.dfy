/** What holds of the control plane in every reachable state, and what no operation undoes. */
module ControlLaws {
  import opened Prelude
  import opened ControlModel

  /** A run agrees with its items: counters are derived from them, and so is the seal. */
  predicate Books(r: Run, items: map<Code, Item>) {
    && r.total == |items|
    && r.completed == DoneCount(items)
    && r.failed == FailedCount(items)
    && (r.status.Complete? ==> AllDone(items))
    && (r.status.Partial? ==> AllTerminal(items))
    && (forall c :: c in items ==> r.window.start <= items[c].start <= items[c].end <= r.window.end)
  }

  predicate RunSound(db: Db, run: RunId)
    requires run in db.runs
  {
    && run in db.items && run in db.securities
    && db.runs[run].request in db.requests
    && db.items[run].Keys == db.securities[run].Keys
    && Books(db.runs[run], db.items[run])
  }

  predicate AllDone(items: map<Code, Item>) { forall c :: c in items ==> CountsDone(items[c].status) }

  predicate AllTerminal(items: map<Code, Item>) { forall c :: c in items ==> TerminalItem(items[c].status) }

  predicate OneRunEach(db: Db) {
    forall a, b :: a in db.runs && b in db.runs && db.runs[a].request == db.runs[b].request ==> a == b
  }

  predicate WindowsValid(db: Db) {
    forall q :: q in db.requests && db.requests[q].window.Some? ==>
      db.requests[q].window.value.start <= db.requests[q].window.value.end
  }

  ghost predicate Sound(db: Db) {
    && OneRunEach(db)
    && WindowsValid(db)
    && db.items.Keys == db.runs.Keys && db.securities.Keys == db.runs.Keys
    && forall run :: run in db.runs ==> RunSound(db, run)
  }

  /** Items that count alike give equal counters. */
  predicate CountAlike(a: map<Code, Item>, b: map<Code, Item>) {
    && a.Keys == b.Keys
    && forall c :: c in a ==> (CountsDone(a[c].status) <==> CountsDone(b[c].status))
                              && (CountsFailed(a[c].status) <==> CountsFailed(b[c].status))
  }

  lemma AlikeCounts(a: map<Code, Item>, b: map<Code, Item>)
    requires CountAlike(a, b)
    ensures DoneCount(a) == DoneCount(b) && FailedCount(a) == FailedCount(b) && |a| == |b|
  {
    assert (set c | c in a && CountsDone(a[c].status)) == (set c | c in b && CountsDone(b[c].status));
    assert (set c | c in a && CountsFailed(a[c].status)) == (set c | c in b && CountsFailed(b[c].status));
    assert |a| == |a.Keys| && |b| == |b.Keys|;
  }

  lemma FreshCounts(universe: map<Code, Security>, ranges: Option<map<Code, (Date, Date)>>, w: Window)
    ensures DoneCount(NewItems(universe, ranges, w)) == 0 && FailedCount(NewItems(universe, ranges, w)) == 0
    ensures NewItems(universe, ranges, w).Keys == universe.Keys && |NewItems(universe, ranges, w)| == |universe|
  {
    var items := NewItems(universe, ranges, w);
    assert (set c | c in items && CountsDone(items[c].status)) == {};
    assert (set c | c in items && CountsFailed(items[c].status)) == {};
    assert |items| == |items.Keys| && |universe| == |universe.Keys|;
  }

  /** A sealed run has failures exactly when some item failed. */
  lemma FailuresShow(items: map<Code, Item>)
    ensures FailedCount(items) == 0 <==> forall c :: c in items ==> !CountsFailed(items[c].status)
  {
    var failed := set c | c in items && CountsFailed(items[c].status);
    if c :| c in items && CountsFailed(items[c].status) { assert c in failed; }
  }

  /** The run an operation can touch. */
  function RunOf(op: Op): Option<RunId> {
    match op
    case CreateRun(_, run, _, _) => Some(run)
    case StartRun(run) => Some(run)
    case ResumePartial(run) => Some(run)
    case MarkItem(run, _, _) => Some(run)
    case ClaimItem(run, _, _, _, _) => Some(run)
    case RenewItem(run, _, _, _, _) => Some(run)
    case Finalize(run) => Some(run)
    case _ => None
  }

  lemma OtherRunsUntouched(db: Db, op: Op, run: RunId)
    requires run in db.runs && run in db.items && run in db.securities && RunOf(op) != Some(run) && !op.Recover?
    ensures var db' := Apply(db, op);
            && run in db'.runs && db'.runs[run] == db.runs[run]
            && run in db'.items && db'.items[run] == db.items[run]
            && run in db'.securities && db'.securities[run] == db.securities[run]
  {
    if RunOf(op).None? { RunsUntouched(db, op); }
  }

  /** An operation on no run leaves the tables of runs alone. */
  lemma RunsUntouched(db: Db, op: Op)
    requires RunOf(op).None? && !op.Recover?
    ensures var db' := Apply(db, op); db'.runs == db.runs && db'.items == db.items && db'.securities == db.securities
  {}

  /** An operation on a run that exists adds and removes nothing, and no window changes. */
  lemma RunTablesKept(db: Db, op: Op)
    requires RunOf(op).Some? && !op.CreateRun?
    ensures var db' := Apply(db, op);
            && db'.requests.Keys == db.requests.Keys && db'.securities == db.securities
            && (forall q :: q in db.requests ==> db'.requests[q].window == db.requests[q].window)
            && db'.runs.Keys == db.runs.Keys && db'.items.Keys == db.items.Keys
  {
    if op.MarkItem? || op.ClaimItem? || op.RenewItem? { ItemTablesKept(db, op); }
  }

  lemma ItemTablesKept(db: Db, op: Op)
    requires op.MarkItem? || op.ClaimItem? || op.RenewItem?
    ensures var db' := Apply(db, op);
            && db'.requests == db.requests && db'.securities == db.securities
            && db'.runs.Keys == db.runs.Keys && db'.items.Keys == db.items.Keys
  {}

  lemma RequestsStay(db: Db, op: Op)
    ensures db.requests.Keys <= Apply(db, op).requests.Keys
    ensures !op.CreateRun? ==> Apply(db, op).runs.Keys == db.runs.Keys
  {
    if RunOf(op).Some? && !op.CreateRun? { RunTablesKept(db, op); }
    else if !op.CreateRun? && !op.Recover? {
      RunsUntouched(db, op);
      RequestKeysGrow(db, op);
    }
  }

  lemma RequestKeysGrow(db: Db, op: Op)
    requires RunOf(op).None?
    ensures db.requests.Keys <= Apply(db, op).requests.Keys
  {}

  /** Replacing one item by one that counts alike keeps the books. */
  lemma AlikeBooks(r: Run, items: map<Code, Item>, code: Code, i: Item)
    requires Books(r, items) && code in items && !r.status.Complete? && !r.status.Partial?
    requires i.start == items[code].start && i.end == items[code].end
    requires CountsDone(i.status) <==> CountsDone(items[code].status)
    requires CountsFailed(i.status) <==> CountsFailed(items[code].status)
    ensures Books(r, items[code := i])
  {
    AlikeCounts(items, items[code := i]);
  }

  /** Counters recomputed after a change are right whatever they were before. */
  lemma RefreshedBooks(r: Run, items: map<Code, Item>, items': map<Code, Item>)
    requires Books(r, items) && items'.Keys == items.Keys
    requires forall c :: c in items ==> items'[c].start == items[c].start && items'[c].end == items[c].end
    requires !r.status.Complete? && !r.status.Partial?
    ensures Books(Refreshed(r, items'), items')
  {
    assert |items'| == |items'.Keys| && |items| == |items.Keys|;
  }

  lemma MarkSound(db: Db, op: Op)
    requires Allowed(db, op) && op.MarkItem?
    requires op.run in db.runs && RunSound(db, op.run)
    ensures var db' := Apply(db, op); op.run in db'.runs && RunSound(db', op.run)
  {
    var r, items := db.runs[op.run], db.items[op.run];
    var marked := Marked(items[op.code], op.status);
    if TerminalItem(op.status) { RefreshedBooks(r, items, items[op.code := marked]); }
    else { AlikeBooks(r, items, op.code, marked); }
    assert items[op.code := marked].Keys == items.Keys;
  }

  lemma ItemClaimSound(db: Db, op: Op)
    requires Allowed(db, op) && op.ClaimItem?
    requires op.run in db.runs && RunSound(db, op.run)
    ensures var db' := Apply(db, op); op.run in db'.runs && RunSound(db', op.run)
  {
    var items := db.items[op.run];
    var i := Reserved(items[op.code], op.owner, op.now, op.seconds);
    assert items[op.code := i].Keys == items.Keys;
    AlikeBooks(db.runs[op.run], items, op.code, i);
  }

  lemma ItemRenewSound(db: Db, op: Op)
    requires Allowed(db, op) && op.RenewItem?
    requires op.run in db.runs && RunSound(db, op.run)
    ensures var db' := Apply(db, op); op.run in db'.runs && RunSound(db', op.run)
  {
    var items := db.items[op.run];
    var i := items[op.code].(expires := Some(op.now + op.seconds));
    assert items[op.code := i].Keys == items.Keys;
    assert !TerminalItem(items[op.code].status);
    AlikeBooks(db.runs[op.run], items, op.code, i);
  }

  lemma RunOpsSound(db: Db, op: Op)
    requires Allowed(db, op) && (op.StartRun? || op.ResumePartial? || op.Finalize?)
    requires op.run in db.runs && RunSound(db, op.run)
    ensures var db' := Apply(db, op); op.run in db'.runs && RunSound(db', op.run)
  {
    var r, items := db.runs[op.run], db.items[op.run];
    FailuresShow(items);
    if op.ResumePartial? { RefreshedBooks(r.(status := Active), items, ResetAll(items, SourceMissing)); }
  }

  lemma CreateSound(db: Db, op: Op)
    requires Sound(db) && Allowed(db, op) && op.CreateRun?
    ensures var db' := Apply(db, op); op.run in db'.runs && RunSound(db', op.run) && OneRunEach(db')
  {
    FreshCounts(op.universe, op.ranges, db.requests[op.request].window.value);
  }

  /** Requeueing running items keeps the books: neither state is counted. */
  lemma ResetBooks(r: Run, items: map<Code, Item>)
    requires Books(r, items) && r.status.Active?
    ensures Books(r.(status := Waiting), ResetAll(items, Running))
  {
    AlikeCounts(items, ResetAll(items, Running));
  }

  lemma RecoverSound(db: Db, now: Time, run: RunId)
    requires Sound(db) && run in db.runs
    ensures run in Recovered(db, now).runs && RunSound(Recovered(db, now), run)
  {
    assert RunSound(db, run);
    if StaleRun(db, run, now) { ResetBooks(db.runs[run], db.items[run]); }
  }

  lemma OwnRunSound(db: Db, op: Op, run: RunId)
    requires Allowed(db, op) && RunOf(op) == Some(run) && !op.CreateRun? && run in db.runs && RunSound(db, run)
    ensures run in Apply(db, op).runs && RunSound(Apply(db, op), run)
  {
    if op.StartRun? || op.ResumePartial? || op.Finalize? { RunOpsSound(db, op); }
    else if op.MarkItem? { MarkSound(db, op); }
    else if op.ClaimItem? { ItemClaimSound(db, op); }
    else { ItemRenewSound(db, op); }
  }

  lemma RunStaysSound(db: Db, op: Op, run: RunId)
    requires Sound(db) && Allowed(db, op) && run in Apply(db, op).runs
    ensures RunSound(Apply(db, op), run)
  {
    if op.CreateRun? && op.run == run { CreateSound(db, op); }
    else {
      RequestsStay(db, op);
      assert run in db.runs && RunSound(db, run);
      if op.Recover? { RecoverSound(db, op.now, run); }
      else if RunOf(op) != Some(run) { OtherRunsUntouched(db, op, run); }
      else { OwnRunSound(db, op, run); }
    }
  }

  lemma RunRequestsStay(db: Db, op: Op, run: RunId)
    requires !op.CreateRun? && run in db.runs
    ensures run in Apply(db, op).runs && Apply(db, op).runs[run].request == db.runs[run].request
  {
    if RunOf(op).None? && !op.Recover? { RunsUntouched(db, op); }
  }

  lemma TablesAligned(db: Db, op: Op)
    requires db.items.Keys == db.runs.Keys && db.securities.Keys == db.runs.Keys
    ensures Apply(db, op).items.Keys == Apply(db, op).runs.Keys
    ensures Apply(db, op).securities.Keys == Apply(db, op).runs.Keys
  {
    if RunOf(op).Some? && !op.CreateRun? { RunTablesKept(db, op); }
    else if !op.CreateRun? && !op.Recover? { RunsUntouched(db, op); }
  }

  lemma WindowsStayValid(db: Db, op: Op)
    requires WindowsValid(db)
    ensures WindowsValid(Apply(db, op))
  {
    if RunOf(op).Some? && !op.CreateRun? { RunTablesKept(db, op); }
  }

  lemma OneRunStays(db: Db, op: Op)
    requires Sound(db) && Allowed(db, op)
    ensures OneRunEach(Apply(db, op))
  {
    if op.CreateRun? { CreateSound(db, op); }
    else {
      RequestsStay(db, op);
      forall run | run in db.runs ensures Apply(db, op).runs[run].request == db.runs[run].request {
        RunRequestsStay(db, op, run);
      }
    }
  }

  lemma ApplySound(db: Db, op: Op)
    requires Sound(db)
    ensures Sound(Apply(db, op))
  {
    if Allowed(db, op) {
      OneRunStays(db, op);
      WindowsStayValid(db, op);
      TablesAligned(db, op);
      forall run | run in Apply(db, op).runs ensures RunSound(Apply(db, op), run) { RunStaysSound(db, op, run); }
    }
  }

  /** In every reachable state each request has at most one run and every run's counters are those derived
      from its items; a complete run has only completed or skipped items. */
  lemma {:induction false} Reachable(ops: seq<Op>)
    ensures Sound(Execute(EMPTY, ops))
  {
    if ops != [] {
      Reachable(ops[..|ops| - 1]);
      ApplySound(Execute(EMPTY, ops[..|ops| - 1]), ops[|ops| - 1]);
    }
  }

  // ---------------------------------------------------------------- what no operation undoes

  /** How one item may differ after an operation. */
  predicate ItemLater(op: Op, run: RunId, i: Item, i': Item) {
    && i'.start == i.start && i'.end == i.end
    && (TerminalItem(i.status) ==>
          i'.status == i.status || (op == ResumePartial(run) && i.status.SourceMissing? && i'.status.Todo?))
  }

  predicate ItemsLater(op: Op, run: RunId, items: map<Code, Item>, items': map<Code, Item>) {
    items'.Keys == items.Keys && forall c :: c in items ==> ItemLater(op, run, items[c], items'[c])
  }

  predicate RunLater(db: Db, op: Op, db': Db, run: RunId)
    requires run in db.runs && run in db.items && run in db.securities
  {
    && run in db'.runs && run in db'.items && run in db'.securities
    && db'.runs[run].request == db.runs[run].request && db'.runs[run].window == db.runs[run].window
    && db'.securities[run] == db.securities[run]
    && ItemsLater(op, run, db.items[run], db'.items[run])
    && (db.runs[run].status.Complete? ==> db'.runs[run] == db.runs[run] && db'.items[run] == db.items[run])
  }

  lemma MarkLater(db: Db, op: Op)
    requires op.MarkItem?
    requires op.run in db.runs && RunSound(db, op.run)
    ensures RunLater(db, op, Apply(db, op), op.run)
  {
    if Allowed(db, op) { assert Apply(db, op).items[op.run].Keys == db.items[op.run].Keys; }
  }

  lemma ClaimLater(db: Db, op: Op)
    requires op.ClaimItem?
    requires op.run in db.runs && RunSound(db, op.run)
    ensures RunLater(db, op, Apply(db, op), op.run)
  {
    if Allowed(db, op) { assert Apply(db, op).items[op.run].Keys == db.items[op.run].Keys; }
  }

  lemma RenewLater(db: Db, op: Op)
    requires op.RenewItem?
    requires op.run in db.runs && RunSound(db, op.run)
    ensures RunLater(db, op, Apply(db, op), op.run)
  {
    if Allowed(db, op) {
      assert Apply(db, op).items[op.run].Keys == db.items[op.run].Keys;
      assert !TerminalItem(db.items[op.run][op.code].status);
    }
  }

  lemma RunOpLater(db: Db, op: Op)
    requires op.CreateRun? || op.StartRun? || op.ResumePartial? || op.Finalize?
    requires op.run in db.runs && RunSound(db, op.run)
    ensures RunLater(db, op, Apply(db, op), op.run)
  {
    if op.CreateRun? || op.StartRun? { StatusLater(db, op); }
    else if op.ResumePartial? { ResumeLater(db, op); }
  }

  lemma StatusLater(db: Db, op: Op)
    requires op.CreateRun? || op.StartRun?
    requires op.run in db.runs && RunSound(db, op.run)
    ensures RunLater(db, op, Apply(db, op), op.run)
  {}

  lemma ResumeLater(db: Db, op: Op)
    requires op.ResumePartial?
    requires op.run in db.runs && RunSound(db, op.run)
    ensures RunLater(db, op, Apply(db, op), op.run)
  {}

  lemma RecoverLater(db: Db, op: Op, run: RunId)
    requires op.Recover? && run in db.runs && RunSound(db, run)
    ensures RunLater(db, op, Apply(db, op), run)
  {}

  /** Terminal items leave their status only when a source-missing one is resumed, and a complete run and its
      items are frozen. */
  lemma ApplyLater(db: Db, op: Op, run: RunId)
    requires run in db.runs && RunSound(db, run)
    ensures RunLater(db, op, Apply(db, op), run)
  {
    if op.Recover? { RecoverLater(db, op, run); }
    else if RunOf(op) != Some(run) { OtherRunsUntouched(db, op, run); }
    else if op.MarkItem? { MarkLater(db, op); }
    else if op.ClaimItem? { ClaimLater(db, op); }
    else if op.RenewItem? { RenewLater(db, op); }
    else { RunOpLater(db, op); }
  }

  /** A conflicted item keeps its run from having been sealed complete. */
  lemma ConflictShows(db: Db, run: RunId, code: Code)
    requires run in db.runs && RunSound(db, run) && code in db.items[run] && db.items[run][code].status.Conflicted?
    ensures !db.runs[run].status.Complete?
  {}

  lemma ConflictStays(db: Db, op: Op, run: RunId, code: Code)
    requires run in db.runs && RunSound(db, run) && code in db.items[run] && db.items[run][code].status.Conflicted?
    ensures var db' := Apply(db, op);
            run in db'.runs && run in db'.items && code in db'.items[run] && db'.items[run][code].status.Conflicted?
  {
    ApplyLater(db, op, run);
    assert ItemLater(op, run, db.items[run][code], Apply(db, op).items[run][code]);
  }

  /** An item once in conflict stays in conflict, so its run is never sealed complete. */
  lemma {:induction false} ConflictNeverCompletes(db: Db, ops: seq<Op>, run: RunId, code: Code)
    requires Sound(db) && run in db.runs && code in db.items[run] && db.items[run][code].status.Conflicted?
    ensures var db' := Execute(db, ops);
            && Sound(db') && run in db'.runs && code in db'.items[run] && db'.items[run][code].status.Conflicted?
            && !db'.runs[run].status.Complete?
  {
    if ops != [] {
      var last := Execute(db, ops[..|ops| - 1]);
      ConflictNeverCompletes(db, ops[..|ops| - 1], run, code);
      assert RunSound(last, run);
      ApplySound(last, ops[|ops| - 1]);
      ConflictStays(last, ops[|ops| - 1], run, code);
    }
    assert RunSound(Execute(db, ops), run);
    ConflictShows(Execute(db, ops), run, code);
  }

  /** A complete run is the same, items and all, in every later state. */
  lemma {:induction false} CompleteIsFrozen(db: Db, ops: seq<Op>, run: RunId)
    requires Sound(db) && run in db.runs && db.runs[run].status.Complete?
    ensures var db' := Execute(db, ops);
            && Sound(db') && run in db'.runs && db'.runs[run] == db.runs[run] && db'.items[run] == db.items[run]
            && db'.securities[run] == db.securities[run]
  {
    if ops != [] {
      var last := Execute(db, ops[..|ops| - 1]);
      CompleteIsFrozen(db, ops[..|ops| - 1], run);
      assert RunSound(last, run);
      ApplySound(last, ops[|ops| - 1]);
      ApplyLater(last, ops[|ops| - 1], run);
    }
  }
}
