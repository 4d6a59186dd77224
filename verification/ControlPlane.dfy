/** The control plane over its tables, each method one transaction that performs one operation of the model. */
module ControlPlane {
  import opened Prelude
  import opened ControlModel
  import opened ControlLaws

  datatype Refusal = NotFound | NotClaimed | NoWindow | RangesDoNotFit | EmptyUniverse

  /** Item ranges name exactly the securities of the universe, and none ends before it starts. */
  predicate Paired(universe: map<Code, Security>, ranges: Option<map<Code, (Date, Date)>>) {
    ranges.Some? ==>
      && ranges.value.Keys == universe.Keys
      && forall c :: c in ranges.value ==> ranges.value[c].0 <= ranges.value[c].1
  }

  /** Every run has its items, and its request exists: the foreign keys of the tables. */
  predicate Linked(db: Db) {
    db.items.Keys == db.runs.Keys && forall r :: r in db.runs ==> db.runs[r].request in db.requests
  }

  lemma SoundLinked(db: Db)
    requires Sound(db)
    ensures Linked(db)
  {
    forall r | r in db.runs ensures db.runs[r].request in db.requests { assert RunSound(db, r); }
  }

  /** Every reachable state is one the methods below may be called in. */
  lemma ReachableLinked(ops: seq<Op>)
    ensures Linked(Execute(EMPTY, ops))
  {
    Reachable(ops);
    SoundLinked(Execute(EMPTY, ops));
  }

  class MarketDailyControlPlane {
    var requests: map<RequestId, Request>
    var runs: map<RunId, Run>
    var items: map<RunId, map<Code, Item>>
    var securities: map<RunId, map<Code, Security>>
    var lease: Option<Lease>

    function Stored(): Db
      reads this
    {
      Db(requests, runs, items, securities, lease)
    }

    constructor ()
      ensures Stored() == EMPTY
    {
      requests, runs, items, securities, lease := map[], map[], map[], map[], None;
    }

    /** `create_run`: a request that already has a run gets that run back. */
    method CreateRun(request: RequestId, newRun: RunId, universe: map<Code, Security>,
        ranges: Option<map<Code, (Date, Date)>>)
        returns (r: Result<RunId, Refusal>)
      requires newRun !in runs
      modifies this
      ensures Stored() == Apply(old(Stored()), ControlModel.Op.CreateRun(request, newRun, universe, ranges))
      ensures r.Ok? ==> r.value in runs && runs[r.value].request == request
      ensures r.Err? ==> Stored() == old(Stored())
      ensures r.Err? <==> universe == map[] || !Paired(universe, ranges)
                          || request !in old(requests) || !old(requests)[request].status.Claimed?
                          || (!HasRun(old(Stored()), request) &&
                              (old(requests)[request].window.None?
                               || !RangesFit(universe, ranges, old(requests)[request].window.value)))
    {
      if universe == map[] { return Err(EmptyUniverse); }
      if !Paired(universe, ranges) { return Err(RangesDoNotFit); }
      if request !in requests { return Err(NotFound); }
      if !requests[request].status.Claimed? { return Err(NotClaimed); }
      if HasRun(Stored(), request) {
        var existing :| existing in runs && runs[existing].request == request;
        return Ok(existing);
      }
      if requests[request].window.None? { return Err(NoWindow); }
      var w := requests[request].window.value;
      if !RangesFit(universe, ranges, w) { return Err(RangesDoNotFit); }
      runs := runs[newRun := Run(request, requests[request].kind, Waiting, w, |universe|, 0, 0)];
      securities := securities[newRun := universe];
      items := items[newRun := NewItems(universe, ranges, w)];
      return Ok(newRun);
    }

    method StartRun(run: RunId) returns (ok: bool)
      modifies this
      ensures Stored() == Apply(old(Stored()), ControlModel.Op.StartRun(run))
      ensures ok <==> Allowed(old(Stored()), ControlModel.Op.StartRun(run))
    {
      ok := run in runs && runs[run].status.Waiting?;
      if ok { runs := runs[run := runs[run].(status := Active)]; }
    }

    /** `SUM(status IN ...)` over the items of one run. */
    method CountItems(run: RunId) returns (completed: nat, failed: nat)
      requires run in items
      ensures completed == DoneCount(items[run]) && failed == FailedCount(items[run])
    {
      var rows := items[run];
      var todo := rows.Keys;
      completed, failed := 0, 0;
      ghost var done, lost := {}, {};
      while todo != {}
        invariant todo <= rows.Keys
        invariant done == (set c | c in rows && c !in todo && CountsDone(rows[c].status)) && completed == |done|
        invariant lost == (set c | c in rows && c !in todo && CountsFailed(rows[c].status)) && failed == |lost|
        decreases todo
      {
        var c :| c in todo;
        todo := todo - {c};
        if CountsDone(rows[c].status) { completed := completed + 1; done := done + {c}; }
        if CountsFailed(rows[c].status) { failed := failed + 1; lost := lost + {c}; }
      }
      assert done == set c | c in rows && CountsDone(rows[c].status);
      assert lost == set c | c in rows && CountsFailed(rows[c].status);
    }

    /** `_refresh_run_progress`: counters recomputed from the rows, whatever they were. */
    method RefreshRunProgress(run: RunId)
      requires run in runs && run in items
      modifies this`runs
      ensures runs == old(runs)[run := Refreshed(old(runs)[run], items[run])]
    {
      var completed, failed := CountItems(run);
      runs := runs[run := runs[run].(completed := completed, failed := failed)];
    }

    /** `UPDATE ... WHERE run_id = ? AND status = ?`, row by row. */
    method ResetItems(run: RunId, status: ItemStatus)
      requires run in items && !status.Todo?
      modifies this`items
      ensures items == old(items)[run := ResetAll(old(items)[run], status)]
    {
      var before := items[run];
      var rows, todo := before, before.Keys;
      while todo != {}
        invariant todo <= before.Keys && rows.Keys == before.Keys
        invariant forall c :: c in before ==>
                    rows[c] == (if c !in todo && before[c].status == status then Reset(before[c]) else before[c])
        decreases todo
      {
        var c :| c in todo;
        todo := todo - {c};
        if rows[c].status == status { rows := rows[c := Reset(rows[c])]; }
      }
      assert rows == ResetAll(before, status);
      items := items[run := rows];
    }

    method ResumePartialRun(run: RunId) returns (ok: bool)
      requires Linked(Stored())
      modifies this
      ensures Stored() == Apply(old(Stored()), ResumePartial(run))
      ensures ok <==> Allowed(old(Stored()), ResumePartial(run))
    {
      ok := run in runs && runs[run].status.Partial?;
      if ok {
        assert run in items;
        ResetItems(run, SourceMissing);
        runs := runs[run := runs[run].(status := Active)];
        RefreshRunProgress(run);
      }
    }

    method MarkItem(run: RunId, code: Code, status: ItemStatus) returns (ok: bool)
      modifies this
      ensures Stored() == Apply(old(Stored()), ControlModel.Op.MarkItem(run, code, status))
      ensures ok <==> Allowed(old(Stored()), ControlModel.Op.MarkItem(run, code, status))
    {
      if status.Todo? || run !in runs || run !in items || code !in items[run] || !runs[run].status.Active? {
        return false;
      }
      var item := items[run][code];
      if TerminalItem(item.status) && item.status != status { return false; }
      var attempts := item.attempts + if status.Running? && !item.status.Running? then 1 else 0;
      item := item.(status := status, attempts := attempts);
      if TerminalItem(status) { item := item.(claimedBy := None, expires := None); }
      items := items[run := items[run][code := item]];
      if TerminalItem(status) { RefreshRunProgress(run); }
      return true;
    }

    method ClaimItem(run: RunId, code: Code, owner: Owner, now: Time, seconds: int) returns (ok: bool)
      modifies this
      ensures Stored() == Apply(old(Stored()), ControlModel.Op.ClaimItem(run, code, owner, now, seconds))
      ensures ok <==> Allowed(old(Stored()), ControlModel.Op.ClaimItem(run, code, owner, now, seconds))
    {
      if seconds <= 0 || run !in runs || run !in items || code !in items[run] || !runs[run].status.Active? {
        return false;
      }
      var item := items[run][code];
      if TerminalItem(item.status) { return false; }
      var expired := item.expires.None? || item.expires.value <= now;
      if item.status.Running? && item.claimedBy.Some? && item.claimedBy.value != owner && !expired { return false; }
      var attempts := item.attempts + if !item.status.Running? || expired then 1 else 0;
      items := items[run := items[run][code :=
        item.(status := Running, attempts := attempts, claimedBy := Some(owner), expires := Some(now + seconds))]];
      return true;
    }

    method RenewItemClaim(run: RunId, code: Code, owner: Owner, now: Time, seconds: int) returns (ok: bool)
      requires Linked(Stored())
      modifies this
      ensures Stored() == Apply(old(Stored()), RenewItem(run, code, owner, now, seconds))
      ensures ok <==> Allowed(old(Stored()), RenewItem(run, code, owner, now, seconds))
    {
      if seconds <= 0 || run !in items || code !in items[run] { return false; }
      var item := items[run][code];
      if !item.status.Running? || item.claimedBy != Some(owner) || item.expires.None? || item.expires.value <= now {
        return false;
      }
      items := items[run := items[run][code := item.(expires := Some(now + seconds))]];
      return true;
    }

    /** `finalize_run`: sealed only when no item is unfinished, and complete only when none failed. */
    method FinalizeRun(run: RunId) returns (ok: bool)
      requires Linked(Stored())
      modifies this
      ensures Stored() == Apply(old(Stored()), Finalize(run))
      ensures ok <==> Allowed(old(Stored()), Finalize(run))
    {
      if run !in runs || !runs[run].status.Active? { return false; }
      if exists c :: c in items[run] && !TerminalItem(items[run][c].status) { return false; }
      var completed, failed := CountItems(run);
      var seal := if failed > 0 then Partial else Complete;
      runs := runs[run := runs[run].(status := seal, completed := completed, failed := failed)];
      var request := runs[run].request;
      requests := requests[request := requests[request].(status := Completed)];
      return true;
    }

    method AcquireLease(owner: Owner, now: Time, seconds: int) returns (ok: bool)
      modifies this`lease
      ensures Stored() == Apply(old(Stored()), ControlModel.Op.AcquireLease(owner, now, seconds))
      ensures ok <==> Allowed(old(Stored()), ControlModel.Op.AcquireLease(owner, now, seconds))
    {
      ok := seconds > 0 && (lease.None? || lease.value.owner == owner || lease.value.expires <= now);
      if ok { lease := Some(Lease(owner, now + seconds)); }
    }

    method ReleaseRequestClaim(request: RequestId, owner: Owner) returns (ok: bool)
      modifies this
      ensures Stored() == Apply(old(Stored()), ReleaseClaim(request, owner))
      ensures ok <==> Allowed(old(Stored()), ReleaseClaim(request, owner))
    {
      ok := HeldRequest(Stored(), request, owner) && !HasRun(Stored(), request);
      if ok { requests := requests[request := requests[request].(status := Pending, claimedBy := None)]; }
    }

    method CompleteClaimedRequest(request: RequestId, owner: Owner) returns (ok: bool)
      modifies this
      ensures Stored() == Apply(old(Stored()), CompleteClaimed(request, owner))
      ensures ok <==> Allowed(old(Stored()), CompleteClaimed(request, owner))
    {
      ok := HeldRequest(Stored(), request, owner) && !HasRun(Stored(), request);
      if ok { requests := requests[request := requests[request].(status := Completed)]; }
    }

    /** One stale run: its running items and the run itself go back to pending, and the claim behind it is dropped. */
    method RequeueRun(run: RunId)
      requires run in runs && run in items && runs[run].request in requests
      modifies this
      ensures Stored() == Requeued(old(Stored()), run)
    {
      ResetItems(run, Running);
      runs := runs[run := runs[run].(status := Waiting)];
      DropClaim(runs[run].request);
    }

    method DropClaim(q: RequestId)
      requires q in requests
      modifies this`requests
      ensures requests == if old(requests)[q].status.Claimed?
                          then old(requests)[q := old(requests)[q].(status := Pending, claimedBy := None)]
                          else old(requests)
    {
      if requests[q].status.Claimed? { requests := requests[q := requests[q].(status := Pending, claimedBy := None)]; }
    }

    /** The first pass of recovery: runs of dead services go back to pending, one after the other. */
    method RequeueStaleRuns(now: Time) returns (recovered: nat)
      requires Linked(Stored())
      modifies this
      ensures Stored() == RunsRequeued(old(Stored()), now, old(runs).Keys)
      ensures recovered == |StaleRuns(old(Stored()), now, old(runs).Keys)|
    {
      var before := Stored();
      recovered := 0;
      var todo := runs.Keys;
      ghost var seen: set<RunId> := {};
      NothingSeen(before, now);
      while todo != {}
        invariant todo <= before.runs.Keys && forall r :: r in seen <==> r in before.runs && r !in todo
        invariant Stored() == RunsRequeued(before, now, seen)
        invariant recovered == |StaleRuns(before, now, seen)|
        decreases todo
      {
        var run :| run in todo;
        StaleRunsNext(before, now, seen, run);
        if StaleRun(before, run, now) {
          RunRequeuedNext(before, now, seen, run);
          RequeueRun(run);
          recovered := recovered + 1;
        } else {
          RunPassedOver(before, now, seen, run);
        }
        todo := todo - {run};
        seen := seen + {run};
      }
      assert seen == before.runs.Keys;
    }

    /** The second pass: claims of dead services on requests without a run. */
    method RequeueStaleClaims(now: Time) returns (recovered: nat)
      modifies this`requests
      ensures requests == ClaimsRequeued(old(Stored()), now)
      ensures recovered == |DeadClaims(old(Stored()), now)|
    {
      var before := Stored();
      recovered := 0;
      var claims := set q | q in requests && requests[q].status.Claimed? && !HasRun(before, q);
      ghost var all := claims;
      ghost var dead: set<RequestId> := {};
      while claims != {}
        invariant claims <= all && requests.Keys == before.requests.Keys && recovered == |dead|
        invariant forall q :: q in dead <==>
                    q in all && q !in claims && !LiveOwner(before.lease, before.requests[q].claimedBy, now)
        invariant forall q :: q in before.requests ==>
                    requests[q] == (if q in all && q !in claims then Unclaimed(before, now, q) else before.requests[q])
        decreases claims
      {
        var q :| q in claims;
        if !LiveOwner(lease, requests[q].claimedBy, now) {
          requests := requests[q := requests[q].(status := Pending, claimedBy := None)];
          recovered := recovered + 1;
          dead := dead + {q};
        }
        claims := claims - {q};
      }
      assert requests == ClaimsRequeued(before, now);
      assert dead == DeadClaims(before, now);
    }

    /** `recover_expired_work`: both passes, in one transaction; counted are the stale runs and the dead claims. */
    method RecoverExpiredWork(now: Time) returns (recovered: nat)
      requires Linked(Stored())
      modifies this
      ensures Stored() == Apply(old(Stored()), Recover(now))
      ensures recovered == |StaleRuns(old(Stored()), now, old(runs).Keys)| + |DeadClaims(old(Stored()), now)|
    {
      ghost var before := Stored();
      var stale := RequeueStaleRuns(now);
      var abandoned := RequeueStaleClaims(now);
      RecoveredAll(before, now);
      SameDeadClaims(before, now);
      return stale + abandoned;
    }
  }

  // ---------------------------------------------------------------- recovery, run by run

  /** Running runs among `seen` whose service is gone. */
  function StaleRuns(db: Db, now: Time, seen: set<RunId>): set<RunId> { set r | r in seen && StaleRun(db, r, now) }

  /** Claims of dead services on requests that never got a run. */
  function DeadClaims(db: Db, now: Time): set<RequestId> {
    set q | q in db.requests && db.requests[q].status.Claimed? && !HasRun(db, q)
            && !LiveOwner(db.lease, db.requests[q].claimedBy, now)
  }

  lemma StaleRunsNext(db: Db, now: Time, seen: set<RunId>, run: RunId)
    requires run !in seen
    ensures |StaleRuns(db, now, seen + {run})| == |StaleRuns(db, now, seen)| + if StaleRun(db, run, now) then 1 else 0
  {
    if StaleRun(db, run, now) { assert StaleRuns(db, now, seen + {run}) == StaleRuns(db, now, seen) + {run}; }
    else { assert StaleRuns(db, now, seen + {run}) == StaleRuns(db, now, seen); }
  }

  /** Putting runs back neither makes nor removes a dead claim. */
  lemma SameDeadClaims(db: Db, now: Time)
    ensures DeadClaims(RunsRequeued(db, now, db.runs.Keys), now) == DeadClaims(db, now)
  {
    var mid := RunsRequeued(db, now, db.runs.Keys);
    forall q ensures q in DeadClaims(mid, now) <==> q in DeadClaims(db, now) {
      SameHasRun(db, now, q);
      if DropsClaim(db, now, db.runs.Keys, q) {
        var r :| r in db.runs && StaleRun(db, r, now) && db.runs[r].request == q;
        assert HasRun(db, q);
      }
    }
  }

  /** The runs after the stale ones of `seen` were put back. */
  function RunsRecovered(db: Db, now: Time, seen: set<RunId>): map<RunId, Run> {
    map r | r in db.runs :: if r in seen && StaleRun(db, r, now) then db.runs[r].(status := Waiting) else db.runs[r]
  }

  function ItemsRecovered(db: Db, now: Time, seen: set<RunId>): map<RunId, map<Code, Item>> {
    map r | r in db.items :: if r in seen && StaleRun(db, r, now) then ResetAll(db.items[r], Running) else db.items[r]
  }

  predicate DropsClaim(db: Db, now: Time, seen: set<RunId>, q: RequestId) {
    exists r :: r in seen && r in db.runs && StaleRun(db, r, now) && db.runs[r].request == q
  }

  /** The requests after the claims behind the stale runs of `seen` were dropped. */
  function ClaimsDropped(db: Db, now: Time, seen: set<RunId>): map<RequestId, Request> {
    map q | q in db.requests ::
      if DropsClaim(db, now, seen, q) && db.requests[q].status.Claimed?
      then db.requests[q].(status := Pending, claimedBy := None) else db.requests[q]
  }

  lemma DropsClaimNext(db: Db, now: Time, seen: set<RunId>, run: RunId, q: RequestId)
    requires run in db.runs
    ensures DropsClaim(db, now, seen + {run}, q) <==>
            DropsClaim(db, now, seen, q) || (StaleRun(db, run, now) && db.runs[run].request == q)
  {
    if r :| r in seen && r in db.runs && StaleRun(db, r, now) && db.runs[r].request == q { assert r in seen + {run}; }
    if StaleRun(db, run, now) && db.runs[run].request == q { assert run in seen + {run}; }
  }

  function RunsRequeued(db: Db, now: Time, seen: set<RunId>): Db {
    Db(ClaimsDropped(db, now, seen), RunsRecovered(db, now, seen), ItemsRecovered(db, now, seen),
       db.securities, db.lease)
  }

  /** A claimed request whose owner is gone goes back to pending. */
  function Unclaimed(db: Db, now: Time, q: RequestId): Request
    requires q in db.requests
  {
    if LiveOwner(db.lease, db.requests[q].claimedBy, now) then db.requests[q]
    else db.requests[q].(status := Pending, claimedBy := None)
  }

  function ClaimsRequeued(db: Db, now: Time): map<RequestId, Request> {
    map q | q in db.requests ::
      if db.requests[q].status.Claimed? && !HasRun(db, q) then Unclaimed(db, now, q) else db.requests[q]
  }

  lemma NothingSeen(db: Db, now: Time)
    ensures RunsRequeued(db, now, {}) == db
  {
    assert RunsRecovered(db, now, {}) == db.runs;
    assert ItemsRecovered(db, now, {}) == db.items;
    assert ClaimsDropped(db, now, {}) == db.requests;
  }

  lemma RunRecoveredNext(db: Db, now: Time, seen: set<RunId>, run: RunId)
    requires run in db.runs && run in db.items && StaleRun(db, run, now) && run !in seen
    ensures RunsRecovered(db, now, seen + {run})
            == RunsRecovered(db, now, seen)[run := db.runs[run].(status := Waiting)]
    ensures ItemsRecovered(db, now, seen + {run})
            == ItemsRecovered(db, now, seen)[run := ResetAll(db.items[run], Running)]
  {}

  lemma ClaimDroppedNext(db: Db, now: Time, seen: set<RunId>, run: RunId)
    requires run in db.runs && StaleRun(db, run, now)
    ensures var q, before := db.runs[run].request, ClaimsDropped(db, now, seen);
            ClaimsDropped(db, now, seen + {run})
            == if before[q].status.Claimed?
               then before[q := before[q].(status := Pending, claimedBy := None)] else before
  {
    forall q
      ensures DropsClaim(db, now, seen + {run}, q) <==> DropsClaim(db, now, seen, q) || db.runs[run].request == q
    {
      DropsClaimNext(db, now, seen, run, q);
    }
  }

  /** A run and its running items back in the queue, and the claim behind it dropped. */
  function Requeued(db: Db, run: RunId): Db
    requires run in db.runs && run in db.items && db.runs[run].request in db.requests
  {
    var q := db.runs[run].request;
    Db(if db.requests[q].status.Claimed?
       then db.requests[q := db.requests[q].(status := Pending, claimedBy := None)] else db.requests,
       db.runs[run := db.runs[run].(status := Waiting)],
       db.items[run := ResetAll(db.items[run], Running)],
       db.securities, db.lease)
  }

  /** One more stale run. */
  lemma RunRequeuedNext(db: Db, now: Time, seen: set<RunId>, run: RunId)
    requires run in db.runs && run in db.items && StaleRun(db, run, now) && run !in seen
    ensures var m := RunsRequeued(db, now, seen);
            && run in m.runs && run in m.items && m.runs[run].request in m.requests
            && RunsRequeued(db, now, seen + {run}) == Requeued(m, run)
  {
    RunRecoveredNext(db, now, seen, run);
    ClaimDroppedNext(db, now, seen, run);
  }

  lemma RunPassedOver(db: Db, now: Time, seen: set<RunId>, run: RunId)
    requires run in db.runs && !StaleRun(db, run, now)
    ensures RunsRequeued(db, now, seen + {run}) == RunsRequeued(db, now, seen)
  {
    forall q ensures DropsClaim(db, now, seen + {run}, q) <==> DropsClaim(db, now, seen, q) {
      DropsClaimNext(db, now, seen, run, q);
    }
    assert RunsRecovered(db, now, seen + {run}) == RunsRecovered(db, now, seen);
    assert ItemsRecovered(db, now, seen + {run}) == ItemsRecovered(db, now, seen);
    assert ClaimsDropped(db, now, seen + {run}) == ClaimsDropped(db, now, seen);
  }

  /** The two passes together are the one assignment of the model. */
  lemma RecoveredAll(db: Db, now: Time)
    requires Linked(db)
    ensures var mid := RunsRequeued(db, now, db.runs.Keys);
            Recovered(db, now) == mid.(requests := ClaimsRequeued(mid, now))
  {
    var mid, r := RunsRequeued(db, now, db.runs.Keys), Recovered(db, now);
    assert r.runs == mid.runs;
    assert r.items == mid.items;
    forall q | q in db.requests ensures ClaimsRequeued(mid, now)[q] == r.requests[q] { RequestRecovered(db, now, q); }
    assert ClaimsRequeued(mid, now) == r.requests;
  }

  lemma SameHasRun(db: Db, now: Time, q: RequestId)
    ensures HasRun(RunsRequeued(db, now, db.runs.Keys), q) <==> HasRun(db, q)
  {
    var mid := RunsRequeued(db, now, db.runs.Keys);
    if r :| r in db.runs && db.runs[r].request == q { assert r in mid.runs && mid.runs[r].request == q; }
    if r :| r in mid.runs && mid.runs[r].request == q { assert r in db.runs && db.runs[r].request == q; }
  }

  lemma RequestRecovered(db: Db, now: Time, q: RequestId)
    requires q in db.requests
    ensures ClaimsRequeued(RunsRequeued(db, now, db.runs.Keys), now)[q] == Recovered(db, now).requests[q]
  {
    SameHasRun(db, now, q);
    if DropsClaim(db, now, db.runs.Keys, q) {
      var run :| run in db.runs && StaleRun(db, run, now) && db.runs[run].request == q;
      assert HasRun(db, q);
    }
  }
}
