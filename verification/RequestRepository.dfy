/**
The repository methods over the request tables.  Methods that read a request
before they write take what that first read returned (`current`) as an
argument, because other clients may write in between.
*/
module RequestRepository {
  import opened Prelude
  import opened RequestModel

  datatype Error = Unknown | OwnershipLost | Immutable | InvalidArgument | StateChanged

  /** A submission identity used again must carry the same inputs; only the request time may differ. */
  predicate SameMaterial(a: Inputs, b: Inputs) { a == b.(requestedAt := a.requestedAt) }

  // ---------------------------------------------------------------- what one call leaves behind

  /** The row as a completion leaves it: each value under its own name, everything else as it was. */
  predicate CompletedAs(r: Row, c: Completion, r': Row) {
    && r'.status == c.status && r'.cycle == c.cycle
    && r'.jsonHash == c.jsonHash && r'.markdownHash == c.markdownHash
    && r'.progress.phase == c.phase && r'.progress.reason == c.reason
    && (r'.progress.completed, r'.progress.total, r'.progress.stage)
       == (r.progress.completed, r.progress.total, r.progress.stage)
    && r'.inputs == r.inputs && r'.boundary == r.boundary
    && r'.cancelRequested == r.cancelRequested && r'.claimedBy == r.claimedBy
  }

  /** The row as a completion that came after the cancellation leaves it. */
  predicate CancelledInstead(r: Row, c: Completion, r': Row) {
    && r'.status.Cancelled? && r'.jsonHash.None? && r'.markdownHash.None?
    && r'.cycle == (if r.cycle.Some? then r.cycle else c.cycle)
    && r'.progress.phase == "cancelled" && r'.progress.reason == Some("cancelled")
    && (r'.progress.completed, r'.progress.total, r'.progress.stage)
       == (r.progress.completed, r.progress.total, r.progress.stage)
    && r'.inputs == r.inputs && r'.boundary == r.boundary
    && r'.cancelRequested == r.cancelRequested && r'.claimedBy == r.claimedBy
  }

  /** One row was written and the others stand. */
  predicate OnlyRow(rows: map<Id, Row>, rows': map<Id, Row>, id: Id) {
    id in rows && id in rows' && rows' == rows[id := rows'[id]]
  }

  /** The row has a record: the one it had, or one that says field by field what the row says. */
  predicate Filed(records: map<Id, Record>, records': map<Id, Record>, id: Id, r: Row) {
    && id in records' && records' == records[id := records'[id]]
    && (if id in records then records'[id] == records[id] else Mirrors(records'[id], r))
  }

  class ResearchRepository {
    var rows: map<Id, Row>
    var records: map<Id, Record>

    function Tables(): Tables
      reads this
    {
      RequestModel.Tables.Tables(rows, records)
    }

    constructor ()
      ensures Tables() == EMPTY
    {
      rows, records := map[], map[];
    }

    method MaterializeRecord(id: Id)
      requires id in rows
      modifies this`records
      ensures Tables() == Materialize(old(Tables()), id)
    {
      if id !in records { records := records[id := RecordOf(rows[id])]; }
    }

    /** One guarded UPDATE: `hit` tells whether its WHERE clause matched (`rowcount == 1`). */
    method Execute(step: Step) returns (hit: bool)
      requires Target(step).Some? && !step.Submit?
      modifies this
      ensures Tables() == Apply(old(Tables()), step)
      ensures hit == Hits(old(Tables()), step)
    {
      var id := Target(step).value;
      if id !in rows || !HitsRow(rows[id], step) { return false; }
      rows := rows[id := Update(rows[id], step)];
      if step.CancelQueued? || step.Complete? || step.CompleteCancelled? { MaterializeRecord(id); }
      return true;
    }

    /** `require_request_claim`; the shared queue may refuse for reasons of its own. */
    predicate Claimed(id: Id, claimedBy: Owner, queueAgrees: bool)
      reads this
    {
      id in rows && rows[id].status.Running? && rows[id].claimedBy == Some(claimedBy) && queueAgrees
    }

    method SubmitRequest(id: Id, inputs: Inputs, accepted: Option<int>) returns (r: Result<Row, Error>)
      modifies this
      ensures Tables() == Apply(old(Tables()), Submit(id, inputs, accepted))
      ensures r.Ok? <==> && SubmissionInOrder(old(Tables()), inputs, accepted)
                         && (id in old(rows) ==> SameMaterial(old(rows)[id].inputs, inputs))
      ensures r.Ok? ==> id in rows && r.value == rows[id] && SameMaterial(rows[id].inputs, inputs)
      ensures r.Ok? && id !in old(rows) ==>
                && rows == old(rows)[id := rows[id]] && records == old(records)
                && rows[id].inputs == inputs && rows[id].boundary == accepted && rows[id].status.Queued?
                && !rows[id].cancelRequested && rows[id].claimedBy.None? && rows[id].cycle.None?
                && rows[id].jsonHash.None? && rows[id].markdownHash.None?
                && rows[id].progress == Progress("queued", 0, 0, None, None)
      ensures id in old(rows) && SubmissionInOrder(old(Tables()), inputs, accepted) ==>
                var was := old(rows)[id].inputs;
                r.Ok? <==> && was.team == inputs.team && was.scope == inputs.scope && was.subject == inputs.subject
                           && was.origin == inputs.origin && was.rerunOf == inputs.rerunOf
      ensures r.Err? || id in old(rows) ==> Tables() == old(Tables())
    {
      if accepted.Some? && inputs.origin != "legacy" && accepted.value < inputs.requestedAt {
        return Err(InvalidArgument);
      }
      if inputs.rerunOf.Some? {
        if inputs.rerunOf.value !in rows { return Err(Unknown); }
        if !Terminal(rows[inputs.rerunOf.value].status) { return Err(InvalidArgument); }
      }
      if id in rows {
        return if SameMaterial(rows[id].inputs, inputs) then Ok(rows[id]) else Err(InvalidArgument);
      }
      rows := rows[id := Row(inputs, accepted, Queued, false, QUEUED, None, None, None, None)];
      return Ok(rows[id]);
    }

    method ClaimNextRequest(owner: Owner, head: Option<Id>) returns (claimed: Option<Id>)
      modifies this
      ensures Tables() == Apply(old(Tables()), Claim(owner, head))
      ensures claimed.Some? <==> head.Some? && Hits(old(Tables()), Claim(owner, head))
      ensures claimed.Some? ==> claimed == head && claimed.value in rows
                                && rows[claimed.value].status.Running? && rows[claimed.value].claimedBy == Some(owner)
      ensures claimed.Some? <==> && head.Some? && head.value in old(rows)
                                 && old(rows)[head.value].status.Queued? && !old(rows)[head.value].cancelRequested
      ensures claimed.Some? ==>
                var was := old(rows)[claimed.value];
                && rows == old(rows)[claimed.value := was.(
                     status := Running, claimedBy := Some(owner), progress := was.progress.(phase := "preflight"))]
                && records == old(records)
      ensures claimed.None? ==> Tables() == old(Tables())
    {
      if head.None? { return None; }
      var hit := Execute(Claim(owner, head));
      return if hit then head else None;
    }

    /** `set_request_boundary` after its first read returned `current`. */
    method SetRequestBoundary(id: Id, current: Row, boundary: int, expected: Option<Owner>, queueAgrees: bool)
        returns (r: Result<Row, Error>)
      modifies this
      ensures var tries := && (expected.Some? ==> old(Claimed(id, expected.value, queueAgrees)))
                           && !Terminal(current.status)
                           && boundary >= current.inputs.requestedAt && current.boundary.None?;
              && Tables() ==
                 (if tries then Apply(old(Tables()), SetBoundary(id, boundary, expected)) else old(Tables()))
              && (tries && Hits(old(Tables()), SetBoundary(id, boundary, expected)) ==> r == Ok(rows[id]))
      ensures r.Ok? ==> r.value.boundary == Some(boundary)
      ensures || Tables() == old(Tables())
              || (&& id in old(rows) && old(rows)[id].boundary.None? && records == old(records)
                  && boundary >= old(rows)[id].inputs.requestedAt
                  && rows == old(rows)[id := old(rows)[id].(boundary := Some(boundary))])
      ensures r.Err? ==> Tables() == old(Tables())
    {
      if expected.Some? && !Claimed(id, expected.value, queueAgrees) { return Err(OwnershipLost); }
      if Terminal(current.status) { return Err(Immutable); }
      if boundary < current.inputs.requestedAt { return Err(InvalidArgument); }
      if current.boundary.Some? {
        return if current.boundary == Some(boundary) then Ok(current) else Err(Immutable);
      }
      var hit := Execute(SetBoundary(id, boundary, expected));
      if hit { return Ok(rows[id]); }
      if expected.Some? && !Claimed(id, expected.value, queueAgrees) { return Err(OwnershipLost); }
      if id in rows && rows[id].boundary.Some? {
        return if rows[id].boundary == Some(boundary) then Ok(rows[id]) else Err(Immutable);
      }
      return Err(StateChanged);
    }

    /** `update_request_progress` after its first read returned `current`. */
    method UpdateRequestProgress(id: Id, current: Row, progress: Progress, expected: Option<Owner>, queueAgrees: bool)
        returns (r: Result<Row, Error>)
      modifies this
      ensures var tries := && (expected.Some? ==> old(Claimed(id, expected.value, queueAgrees)))
                           && !Terminal(current.status)
                           && progress.completed <= progress.total;
              && Tables() ==
                 (if tries then Apply(old(Tables()), SetProgress(id, progress, expected)) else old(Tables()))
              && (r.Ok? <==> tries && Hits(old(Tables()), SetProgress(id, progress, expected)))
      ensures r.Ok? ==> id in rows && r.value == rows[id] && rows[id].progress == progress
      ensures r.Ok? <==> && (expected.Some? ==> old(Claimed(id, expected.value, queueAgrees)))
                         && !Terminal(current.status) && progress.completed <= progress.total && id in old(rows)
      ensures r.Ok? ==> rows == old(rows)[id := old(rows)[id].(progress := progress)] && records == old(records)
      ensures r.Err? ==> Tables() == old(Tables())
    {
      if expected.Some? && !Claimed(id, expected.value, queueAgrees) { return Err(OwnershipLost); }
      if Terminal(current.status) { return Err(Immutable); }
      if progress.completed > progress.total { return Err(InvalidArgument); }
      var hit := Execute(SetProgress(id, progress, expected));
      // Only a caller without an identity can miss: a claim just confirmed is one the update matches.
      return if hit then Ok(rows[id]) else Err(StateChanged);
    }

    /** `request_cancel`: a queued request ends here, a running one is asked to stop. */
    method RequestCancel(id: Id) returns (r: Result<Row, Error>)
      modifies this
      ensures Tables() == Apply(Apply(old(Tables()), CancelQueued(id)), CancelRunning(id))
      ensures r.Ok? <==> id in old(rows) && !Terminal(old(rows)[id].status)
      ensures r.Ok? ==> id in rows && r.value == rows[id] && rows[id].cancelRequested
                        && (rows[id].status.Cancelled? || rows[id].status.Running?)
      ensures r.Ok? && old(rows)[id].status.Running? ==>
                rows == old(rows)[id := old(rows)[id].(cancelRequested := true)] && records == old(records)
      ensures r.Ok? && old(rows)[id].status.Queued? ==>
                && OnlyRow(old(rows), rows, id) && Filed(old(records), records, id, rows[id])
                && rows[id] == old(rows)[id].(
                     status := Cancelled, cancelRequested := true,
                     progress := old(rows)[id].progress.(phase := "cancelled", reason := Some("cancelled")))
      ensures r.Err? ==> Tables() == old(Tables())
    {
      var queued := Execute(CancelQueued(id));
      if queued { return Ok(rows[id]); }
      var running := Execute(CancelRunning(id));
      if running { return Ok(rows[id]); }
      return Err(if id in rows then Immutable else Unknown);
    }

    /** `complete_request` after its first read returned `current`.  The guarded UPDATE decides, and if a
        cancellation came first the fallback UPDATE ends the request cancelled. */
    method CompleteRequest(id: Id, current: Row, c: Completion, expected: Option<Owner>, queueAgrees: bool)
        returns (r: Result<Row, Error>)
      modifies this
      ensures var tries := && Acceptable(c) && current.status.Running?
                           && (expected.Some? ==> old(Claimed(id, expected.value, queueAgrees)));
              Tables() == if !tries then old(Tables())
                          else if Hits(old(Tables()), Complete(id, c, expected))
                          then Apply(old(Tables()), Complete(id, c, expected))
                          else Apply(old(Tables()), CompleteCancelled(id, c.cycle, expected))
      ensures r.Ok? && !Terminal(current.status) ==>
                id in rows && r.value == rows[id] && Terminal(rows[id].status)
      ensures (&& Acceptable(c) && current.status.Running?
               && id in old(rows) && old(rows)[id].status.Running?
               && (expected.None? || old(Claimed(id, expected.value, queueAgrees)))) ==>
                && r.Ok? && OnlyRow(old(rows), rows, id) && r.value == rows[id]
                && Filed(old(records), records, id, rows[id])
                && (if c.status.Cancelled? || !old(rows)[id].cancelRequested
                    then CompletedAs(old(rows)[id], c, rows[id])
                    else CancelledInstead(old(rows)[id], c, rows[id]))
      ensures r.Err? ==> Tables() == old(Tables())
    {
      if !Terminal(c.status) { return Err(InvalidArgument); }
      if Terminal(current.status) {
        return if expected.Some? || current.status == c.status then Ok(current) else Err(Immutable);
      }
      if expected.Some? && !Claimed(id, expected.value, queueAgrees) { return Err(OwnershipLost); }
      if !current.status.Running? || !Acceptable(c) { return Err(InvalidArgument); }
      var updated := Execute(Complete(id, c, expected));
      if updated { return Ok(rows[id]); }
      var cancelled := Execute(CompleteCancelled(id, c.cycle, expected));
      if cancelled { return Ok(rows[id]); }
      // Only a caller without an identity gets here: a claim just confirmed is ended by one of the two updates.
      if id !in rows { return Err(Unknown); }
      if rows[id].status.Cancelled? || (Terminal(rows[id].status) && rows[id].status == c.status) {
        return Ok(rows[id]);
      }
      return Err(StateChanged);
    }

    /** `recover_interrupted_requests`: every running request of another claim returns to the queue. */
    method RecoverInterrupted(owner: Owner) returns (recovered: set<Id>)
      modifies this`rows
      ensures Tables() == Apply(old(Tables()), Recover(owner))
      ensures recovered == set id | id in old(rows) && Abandoned(old(rows)[id], owner)
      ensures forall id :: id in recovered ==>
                id in rows && rows[id].status.Queued? && rows[id].boundary == old(rows)[id].boundary
      ensures rows.Keys == old(rows).Keys
      ensures forall id :: id in old(rows) && id !in recovered ==> rows[id] == old(rows)[id]
      ensures forall id :: id in recovered ==>
                && old(rows)[id].status.Running? && old(rows)[id].claimedBy != Some(owner)
                && rows[id] == old(rows)[id].(status := Queued, claimedBy := None,
                     progress := old(rows)[id].progress.(reason := Some("service_recovery")))
      ensures forall id ::
                (id in old(rows) && old(rows)[id].status.Running? && old(rows)[id].claimedBy != Some(owner)) ==>
                id in recovered
    {
      recovered := set id | id in rows && Abandoned(rows[id], owner);
      rows := map id | id in rows :: Requeued(rows[id], owner);
    }
  }
}
