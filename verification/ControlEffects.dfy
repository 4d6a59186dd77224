/** What each control operation asks for and changes, field by field, and what a lease or a claim protects. */
module ControlEffects {
  import opened Prelude
  import opened ControlModel
  import opened ControlLaws

  // ---------------------------------------------------------------- requests

  /** One request changed; runs, items and the lease are as they were. */
  predicate OnlyRequest(db: Db, db': Db, q: RequestId) {
    && q in db'.requests && db'.requests == db.requests[q := db'.requests[q]]
    && db'.runs == db.runs && db'.items == db.items && db'.securities == db.securities && db'.lease == db.lease
  }

  /** A submission is new and its window, if given, ends at its target; a cold start may leave the window open. */
  lemma SubmitEffect(db: Db, q: RequestId, kind: Kind, w: Option<Window>)
    ensures var db' := Apply(db, Submit(q, kind, w));
            if q !in db.requests
               && (if w.Some? then w.value.start <= w.value.target == w.value.end else kind.ColdStart?)
            then
              && OnlyRequest(db, db', q)
              && db'.requests[q].kind == kind && db'.requests[q].window == w && db'.requests[q].status.Pending?
              && db'.requests[q].claimedBy.None? && !db'.requests[q].everClaimed
            else db' == db
  {}

  /** The window of a claimed request is set once. */
  lemma ConfigureEffect(db: Db, q: RequestId, w: Window)
    ensures var db' := Apply(db, Configure(q, w));
            if w.start <= w.target == w.end && q in db.requests && db.requests[q].status.Claimed?
               && (db.requests[q].window.None? || db.requests[q].window.value == w)
            then OnlyRequest(db, db', q) && db'.requests[q] == db.requests[q].(window := Some(w))
            else db' == db
  {}

  /** A pending request is claimed by the caller. */
  lemma ClaimEffect(db: Db, q: RequestId, owner: Owner)
    ensures var db' := Apply(db, ClaimRequest(q, owner));
            if q in db.requests && db.requests[q].status.Pending?
            then Taken(db, db', q, owner)
            else db' == db
    ensures var db' := Apply(db, ClaimRecovered(q, owner));
            if q in db.requests && db.requests[q].status.Pending? && db.requests[q].everClaimed
               && !exists r :: r in db.runs && db.runs[r].request == q
            then Taken(db, db', q, owner)
            else db' == db
  {}

  predicate Taken(db: Db, db': Db, q: RequestId, owner: Owner)
    requires q in db.requests
  {
    && OnlyRequest(db, db', q)
    && db'.requests[q].status.Claimed? && db'.requests[q].claimedBy == Some(owner) && db'.requests[q].everClaimed
    && db'.requests[q].kind == db.requests[q].kind && db'.requests[q].window == db.requests[q].window
  }

  /** The caller holds the request, and no run was made for it. */
  predicate HeldWithoutRun(db: Db, q: RequestId, owner: Owner) {
    && q in db.requests && db.requests[q].status.Claimed? && db.requests[q].claimedBy == Some(owner)
    && !exists r :: r in db.runs && db.runs[r].request == q
  }

  lemma ReleaseEffect(db: Db, q: RequestId, owner: Owner)
    ensures var db' := Apply(db, ReleaseClaim(q, owner));
            if HeldWithoutRun(db, q, owner)
            then OnlyRequest(db, db', q) && db'.requests[q] == db.requests[q].(status := Pending, claimedBy := None)
            else db' == db
    ensures var db' := Apply(db, CompleteClaimed(q, owner));
            if HeldWithoutRun(db, q, owner)
            then OnlyRequest(db, db', q) && db'.requests[q] == db.requests[q].(status := Completed)
            else db' == db
  {}

  // ---------------------------------------------------------------- runs

  /** A new run starts from the request's window, with one untouched item for each security. */
  lemma CreateEffect(db: Db, q: RequestId, run: RunId, universe: map<Code, Security>,
      ranges: Option<map<Code, (Date, Date)>>)
    requires Allowed(db, CreateRun(q, run, universe, ranges))
    ensures var db' := Apply(db, CreateRun(q, run, universe, ranges)); var r := db.requests[q];
            && run in db'.runs && db'.runs == db.runs[run := db'.runs[run]]
            && run in db'.items && db'.items == db.items[run := db'.items[run]]
            && db'.securities == db.securities[run := universe] && db'.requests == db.requests && db'.lease == db.lease
            && db'.runs[run].request == q && db'.runs[run].kind == r.kind && r.window == Some(db'.runs[run].window)
            && db'.runs[run].status.Waiting? && db'.runs[run].total == |universe|
            && db'.runs[run].completed == 0 && db'.runs[run].failed == 0
            && db'.items[run].Keys == universe.Keys
            && forall c :: c in universe ==>
                 var i := db'.items[run][c];
                 && i.status.Todo? && i.attempts == 0 && i.claimedBy.None? && i.expires.None?
                 && (if ranges.Some? then c in ranges.value && (i.start, i.end) == ranges.value[c]
                     else (i.start, i.end) == (r.window.value.start, r.window.value.end))
  {}

  /** Starting changes the status of a pending run and nothing else. */
  lemma StartEffect(db: Db, run: RunId)
    ensures var db' := Apply(db, StartRun(run));
            if run in db.runs && db.runs[run].status.Waiting?
            then db' == db.(runs := db.runs[run := db.runs[run].(status := Active)]) else db' == db
  {}

  /** Resumption opens the source-missing items of a partial run again, unclaimed, and leaves the other items alone. */
  lemma ResumeEffect(db: Db, run: RunId)
    requires run in db.items
    ensures var db' := Apply(db, ResumePartial(run));
            if run in db.runs && db.runs[run].status.Partial?
            then
              && db'.runs == db.runs[run := db'.runs[run]] && db'.runs[run].status.Active?
              && db'.runs[run].request == db.runs[run].request && db'.runs[run].total == db.runs[run].total
              && db'.items == db.items[run := db'.items[run]] && db'.items[run].Keys == db.items[run].Keys
              && (forall c :: c in db.items[run] ==>
                    if db.items[run][c].status.SourceMissing?
                    then db'.items[run][c] == db.items[run][c].(status := Todo, claimedBy := None, expires := None)
                    else db'.items[run][c] == db.items[run][c])
              && db'.requests == db.requests && db'.securities == db.securities && db'.lease == db.lease
            else db' == db
  {}

  predicate NoneLeft(items: map<Code, Item>) {
    forall c :: c in items ==> !items[c].status.Todo? && !items[c].status.Running?
  }

  predicate SomeFailed(items: map<Code, Item>) {
    exists c :: c in items && (items[c].status.SourceMissing? || items[c].status.Conflicted?)
  }

  /** Sealing needs every item finished; one failed item makes the seal partial, and the request is done either way. */
  lemma FinalizeEffect(db: Db, run: RunId)
    requires run in db.runs && RunSound(db, run)
    ensures var db' := Apply(db, Finalize(run));
            if db.runs[run].status.Active? && NoneLeft(db.items[run])
            then
              && db'.items == db.items && db'.securities == db.securities && db'.lease == db.lease
              && db'.runs == db.runs[run := db'.runs[run]] && db'.runs[run].request == db.runs[run].request
              && db'.runs[run].status == (if SomeFailed(db.items[run]) then Partial else Complete)
              && var q := db.runs[run].request;
                 q in db.requests && db'.requests == db.requests[q := db.requests[q].(status := Completed)]
            else db' == db
  {
    FailuresShow(db.items[run]);
  }

  /** In every reachable state a run counts its completed and skipped items, its failed ones, and all of them. */
  lemma CountersTell(ops: seq<Op>, run: RunId)
    requires run in Execute(EMPTY, ops).runs
    ensures var db := Execute(EMPTY, ops);
            && run in db.items && db.runs[run].total == |db.items[run]|
            && db.runs[run].completed
               == |set c | c in db.items[run] && (db.items[run][c].status.Done? || db.items[run][c].status.Skipped?)|
            && db.runs[run].failed
               == |set c | c in db.items[run]
                           && (db.items[run][c].status.SourceMissing? || db.items[run][c].status.Conflicted?)|
  {
    Reachable(ops);
    assert RunSound(Execute(EMPTY, ops), run);
    var items := Execute(EMPTY, ops).items[run];
    assert (set c | c in items && CountsDone(items[c].status))
           == set c | c in items && (items[c].status.Done? || items[c].status.Skipped?);
    assert (set c | c in items && CountsFailed(items[c].status))
           == set c | c in items && (items[c].status.SourceMissing? || items[c].status.Conflicted?);
  }

  // ---------------------------------------------------------------- items

  /** One item changed; its interval did not, and neither did any other item, the requests or the lease. */
  predicate OnlyItem(db: Db, db': Db, run: RunId, code: Code) {
    && run in db.items && code in db.items[run] && run in db'.items && code in db'.items[run]
    && db'.items == db.items[run := db.items[run][code := db'.items[run][code]]]
    && (db'.items[run][code].start, db'.items[run][code].end) == (db.items[run][code].start, db.items[run][code].end)
    && db'.requests == db.requests && db'.securities == db.securities && db'.lease == db.lease
  }

  /** The item belongs to a running run. */
  predicate Live(db: Db, run: RunId, code: Code) {
    run in db.runs && db.runs[run].status.Active? && run in db.items && code in db.items[run]
  }

  /** A mark sets the status, counts the attempt that starts, and ends the claim with the item. */
  lemma MarkEffect(db: Db, run: RunId, code: Code, status: ItemStatus)
    ensures var db' := Apply(db, MarkItem(run, code, status));
            if !status.Todo? && Live(db, run, code)
               && (db.items[run][code].status.Todo? || db.items[run][code].status.Running?
                   || db.items[run][code].status == status)
            then
              && OnlyItem(db, db', run, code)
              && var i, i' := db.items[run][code], db'.items[run][code];
                 && i'.status == status
                 && i'.attempts == i.attempts + (if status.Running? && !i.status.Running? then 1 else 0)
                 && (if status.Running? then i'.claimedBy == i.claimedBy && i'.expires == i.expires
                     else i'.claimedBy.None? && i'.expires.None?)
            else db' == db
  {
    if Allowed(db, MarkItem(run, code, status)) { SetItems(db, run, code, Marked(db.items[run][code], status)); }
  }

  lemma SetItems(db: Db, run: RunId, code: Code, i: Item)
    requires run in db.items && code in db.items[run]
    ensures SetItem(db, run, code, i).items == db.items[run := db.items[run][code := i]]
  {}

  /** The claim another worker holds on an item has not run out. */
  predicate ClaimedByOther(i: Item, owner: Owner, now: Time) {
    i.status.Running? && i.claimedBy.Some? && i.claimedBy.value != owner && i.expires.Some? && now < i.expires.value
  }

  /** A claim takes an unfinished item unless another worker's claim on it still runs. */
  lemma ClaimItemEffect(db: Db, run: RunId, code: Code, owner: Owner, now: Time, seconds: int)
    ensures var db' := Apply(db, ClaimItem(run, code, owner, now, seconds));
            if seconds > 0 && Live(db, run, code)
               && (db.items[run][code].status.Todo? || db.items[run][code].status.Running?)
               && !ClaimedByOther(db.items[run][code], owner, now)
            then
              && OnlyItem(db, db', run, code) && db'.runs == db.runs
              && var i, i' := db.items[run][code], db'.items[run][code];
                 && i'.status.Running? && i'.claimedBy == Some(owner) && i'.expires == Some(now + seconds)
                 && i'.attempts == i.attempts
                    + (if i.status.Running? && i.expires.Some? && now < i.expires.value then 0 else 1)
            else db' == db
  {}

  /** Only the worker whose claim still runs makes it run longer. */
  lemma RenewEffect(db: Db, run: RunId, code: Code, owner: Owner, now: Time, seconds: int)
    requires run in db.items ==> run in db.runs
    ensures var db' := Apply(db, RenewItem(run, code, owner, now, seconds));
            if seconds > 0 && run in db.items && code in db.items[run] && db.items[run][code].status.Running?
               && db.items[run][code].claimedBy == Some(owner)
               && db.items[run][code].expires.Some? && now < db.items[run][code].expires.value
            then
              && OnlyItem(db, db', run, code) && db'.runs == db.runs
              && db'.items[run][code] == db.items[run][code].(expires := Some(now + seconds))
            else db' == db
  {}

  // ---------------------------------------------------------------- what a claim protects

  /** A claim that still runs is not taken by another worker. */
  lemma RunningClaimStands(db: Db, run: RunId, code: Code, owner: Owner, now: Time, seconds: int)
    requires run in db.items && code in db.items[run] && ClaimedByOther(db.items[run][code], owner, now)
    ensures Apply(db, ClaimItem(run, code, owner, now, seconds)) == db
    ensures Apply(db, RenewItem(run, code, owner, now, seconds)) == db
  {}

  /** A lease that still runs is not taken by another service. */
  lemma RunningLeaseStands(db: Db, owner: Owner, now: Time, seconds: int)
    requires db.lease.Some? && db.lease.value.owner != owner && now < db.lease.value.expires
    ensures Apply(db, AcquireLease(owner, now, seconds)) == db && Apply(db, ReleaseLease(owner)) == db
  {}

  /** A lease that is free, has run out or is the caller's own is granted for the time asked; only its owner ends it. */
  lemma LeaseEffect(db: Db, owner: Owner, now: Time, seconds: int)
    ensures Apply(db, AcquireLease(owner, now, seconds)) ==
            if seconds > 0
               && (db.lease.None? || db.lease.value.owner == owner || db.lease.value.expires <= now)
            then db.(lease := Some(Lease(owner, now + seconds))) else db
    ensures Apply(db, ReleaseLease(owner)) ==
            if db.lease.Some? && db.lease.value.owner == owner then db.(lease := None) else db
  {}

  /** No operation of the list lets `owner`'s lease go, shortens it below `until`, or asks for it from `until` on. */
  predicate LeaseLeftAlone(ops: seq<Op>, owner: Owner, until: Time) {
    forall i :: 0 <= i < |ops| ==>
      && ops[i] != ReleaseLease(owner)
      && (ops[i].AcquireLease? && ops[i].owner == owner && ops[i].seconds > 0 ==> ops[i].now + ops[i].seconds >= until)
      && (ops[i].AcquireLease? && ops[i].owner != owner ==> ops[i].now < until)
  }

  /** Whatever else happens, a service that has the lease until some time has it until then. */
  lemma {:induction false} LeaseLasts(db: Db, ops: seq<Op>, owner: Owner, until: Time)
    requires db.lease.Some? && db.lease.value.owner == owner && until <= db.lease.value.expires
    requires LeaseLeftAlone(ops, owner, until)
    ensures var l := Execute(db, ops).lease; l.Some? && l.value.owner == owner && until <= l.value.expires
  {
    if ops != [] {
      var front, op := ops[..|ops| - 1], ops[|ops| - 1];
      forall i | 0 <= i < |front| ensures front[i] == ops[i] {}
      LeaseLasts(db, front, owner, until);
      assert op == ops[|ops| - 1];
      LeaseStep(Execute(db, front), op);
    }
  }

  /** Only the two lease operations touch the lease. */
  lemma LeaseStep(db: Db, op: Op)
    ensures !op.AcquireLease? && !op.ReleaseLease? ==> Apply(db, op).lease == db.lease
  {}

  // ---------------------------------------------------------------- what recovery leaves alone

  /** The run's request is claimed by the service whose lease still runs. */
  predicate Served(db: Db, run: RunId, now: Time) {
    && run in db.runs && db.runs[run].request in db.requests
    && db.lease.Some? && now < db.lease.value.expires
    && db.requests[db.runs[run].request].claimedBy == Some(db.lease.value.owner)
  }

  /** Recovery takes exactly the running runs that no live service serves, with their running items. */
  lemma RecoverEffect(db: Db, now: Time, run: RunId)
    requires run in db.runs && run in db.items && db.runs[run].request in db.requests
    ensures var db' := Apply(db, Recover(now));
            && run in db'.runs && run in db'.items && db'.lease == db.lease && db'.securities == db.securities
            && if db.runs[run].status.Active? && !Served(db, run, now)
               then
                 && db'.runs[run] == db.runs[run].(status := Waiting)
                 && db'.items[run].Keys == db.items[run].Keys
                 && forall c :: c in db.items[run] ==>
                      if db.items[run][c].status.Running?
                      then db'.items[run][c] == db.items[run][c].(status := Todo, claimedBy := None, expires := None)
                      else db'.items[run][c] == db.items[run][c]
               else db'.runs[run] == db.runs[run] && db'.items[run] == db.items[run]
  {}

  /** A claimed request goes back to the queue exactly when no live service has it and its run, if any, was running. */
  lemma RecoverRequests(db: Db, now: Time, q: RequestId)
    requires q in db.requests
    ensures var db' := Apply(db, Recover(now)); var r := db.requests[q];
            && q in db'.requests
            && var served := && db.lease.Some? && now < db.lease.value.expires
                             && r.claimedBy == Some(db.lease.value.owner);
               db'.requests[q] ==
               if r.status.Claimed? && !served
                  && ((exists x :: x in db.runs && db.runs[x].request == q) ==>
                        exists x :: x in db.runs && db.runs[x].request == q && db.runs[x].status.Active?)
               then r.(status := Pending, claimedBy := None) else r
  {}

  // ---------------------------------------------------------------- runs agree with their requests

  /** A run is of its request's kind and has its window; a sealed run's request is done. */
  predicate RunAgrees(db: Db, run: RunId)
    requires run in db.runs
  {
    var r := db.runs[run];
    && r.request in db.requests
    && r.kind == db.requests[r.request].kind && db.requests[r.request].window == Some(r.window)
    && (r.status.Complete? || r.status.Partial? ==> db.requests[r.request].status.Completed?)
  }

  predicate RunsAgree(db: Db) { forall run :: run in db.runs ==> RunAgrees(db, run) }

  /** What no operation takes from a request: its kind, its window, and that it is done. */
  predicate RequestLasts(r: Request, r': Request) {
    && r'.kind == r.kind && (r.window.Some? ==> r'.window == r.window)
    && (r.status.Completed? ==> r'.status.Completed?)
  }

  lemma RequestsLast(db: Db, op: Op, q: RequestId)
    requires q in db.requests
    ensures q in Apply(db, op).requests && RequestLasts(db.requests[q], Apply(db, op).requests[q])
  {
    RequestsStay(db, op);
  }

  /** An operation on an existing run keeps whose it is; only sealing makes it sealed. */
  lemma RunLasts(db: Db, op: Op, run: RunId)
    requires run in db.runs && run in db.items && run in Apply(db, op).runs
    ensures var r, r' := db.runs[run], Apply(db, op).runs[run];
            && r'.request == r.request && r'.kind == r.kind && r'.window == r.window
            && (r'.status.Complete? || r'.status.Partial? ==>
                  r'.status == r.status || (op == Finalize(run) && Allowed(db, op)))
  {}

  lemma StepAgrees(db: Db, op: Op, run: RunId)
    requires Sound(db) && RunsAgree(db) && run in Apply(db, op).runs
    ensures RunAgrees(Apply(db, op), run)
  {
    if run in db.runs {
      assert RunSound(db, run) && RunAgrees(db, run);
      RunLasts(db, op, run);
      RequestsLast(db, op, db.runs[run].request);
      if op == Finalize(run) { FinalizeEffect(db, run); }
    } else {
      NewRunAgrees(db, op, run);
    }
  }

  lemma NewRunAgrees(db: Db, op: Op, run: RunId)
    requires run !in db.runs && run in Apply(db, op).runs
    ensures RunAgrees(Apply(db, op), run)
  {
    RequestsStay(db, op);
    if op.CreateRun? && Allowed(db, op) { CreateEffect(db, op.request, op.run, op.universe, op.ranges); }
  }

  /** In every reachable state. */
  lemma {:induction false} ReachableAgrees(ops: seq<Op>)
    ensures RunsAgree(Execute(EMPTY, ops))
  {
    if ops != [] {
      var front := ops[..|ops| - 1];
      Reachable(front);
      ReachableAgrees(front);
      forall run | run in Execute(EMPTY, ops).runs ensures RunAgrees(Execute(EMPTY, ops), run) {
        StepAgrees(Execute(EMPTY, front), ops[|ops| - 1], run);
      }
    }
  }
}
