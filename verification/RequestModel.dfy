/**
Research requests and their records.  Every conditional UPDATE is one step, so
any other client may act between a method's first read and its guarded write.
*/
module RequestModel {
  import opened Prelude

  type Id = string
  type Owner = string
  type Hash = string

  datatype Status = Queued | Running | Passed | Partial | Blocked | Failed | Cancelled

  predicate Terminal(status: Status) { !status.Queued? && !status.Running? }

  predicate Publishes(status: Status) { status.Passed? || status.Partial? }

  /** What a request was submitted with; never changes. */
  datatype Inputs = Inputs(
    team: string, scope: string, subject: Option<string>, origin: string, requestedAt: int, rerunOf: Option<Id>)

  datatype Progress = Progress(phase: string, completed: nat, total: nat, stage: Option<string>, reason: Option<string>)

  datatype Row = Row(
    inputs: Inputs, boundary: Option<int>, status: Status, cancelRequested: bool, progress: Progress,
    cycle: Option<string>, jsonHash: Option<Hash>, markdownHash: Option<Hash>, claimedBy: Option<Owner>)

  datatype Record = Record(
    inputs: Inputs, boundary: Option<int>, status: Status, phase: string, reason: Option<string>,
    cycle: Option<string>, jsonHash: Option<Hash>, markdownHash: Option<Hash>)

  datatype Tables = Tables(rows: map<Id, Row>, records: map<Id, Record>)

  const EMPTY := Tables(map[], map[])

  const QUEUED := Progress("queued", 0, 0, None, None)

  datatype Completion = Completion(
    status: Status, phase: string, reason: Option<string>, cycle: Option<string>,
    jsonHash: Option<Hash>, markdownHash: Option<Hash>)

  /** One statement of one client.  `expected` is the claim identity the caller carries, if any. */
  datatype Step =
    | Submit(id: Id, inputs: Inputs, accepted: Option<int>)   // `accepted`: a boundary fixed at submission
    | Claim(owner: Owner, head: Option<Id>)   // `head` is whatever the shared queue offers
    | SetBoundary(id: Id, boundary: int, expected: Option<Owner>)
    | SetProgress(id: Id, progress: Progress, expected: Option<Owner>)
    | CancelQueued(id: Id)
    | CancelRunning(id: Id)
    | Complete(id: Id, completion: Completion, expected: Option<Owner>)
    | CompleteCancelled(id: Id, cycle: Option<string>, expected: Option<Owner>)
    | Recover(owner: Owner)

  predicate ValidHash(h: Option<Hash>) {
    h.Some? && |h.value| == 64 && forall i :: 0 <= i < 64 ==> ('0' <= h.value[i] <= '9' || 'a' <= h.value[i] <= 'f')
  }

  /** What `complete_request` checks of its arguments before it writes. */
  predicate Acceptable(c: Completion) {
    && Terminal(c.status)
    && (if Publishes(c.status) then ValidHash(c.jsonHash) && ValidHash(c.markdownHash)
        else c.jsonHash.None? && c.markdownHash.None?)
  }

  /** A record says what the row says. */
  predicate Mirrors(record: Record, r: Row) {
    && record.inputs == r.inputs && record.boundary == r.boundary && record.status == r.status
    && record.phase == r.progress.phase && record.reason == r.progress.reason && record.cycle == r.cycle
    && record.jsonHash == r.jsonHash && record.markdownHash == r.markdownHash
  }

  function RecordOf(r: Row): Record {
    Record(r.inputs, r.boundary, r.status, r.progress.phase, r.progress.reason, r.cycle, r.jsonHash, r.markdownHash)
  }

  /** `_materialize_record`: an existing record is left alone. */
  function Materialize(t: Tables, id: Id): Tables
    requires id in t.rows
  {
    if id in t.records then t else t.(records := t.records[id := RecordOf(t.rows[id])])
  }

  /** The row is running under the identity the caller carries; no identity matches any row. */
  predicate HeldBy(r: Row, expected: Option<Owner>) {
    expected.None? || (r.status.Running? && r.claimedBy == expected)
  }

  /** The row a step is about. */
  function Target(step: Step): Option<Id> {
    match step
    case Claim(_, head) => head
    case Recover(_) => None
    case _ => Some(step.id)
  }

  /** The WHERE clause of a step about one existing row, with the checks its method makes on its arguments. */
  predicate HitsRow(r: Row, step: Step) {
    match step
    case Claim(_, _) => r.status.Queued? && !r.cancelRequested
    case SetBoundary(_, boundary, expected) =>
      boundary >= r.inputs.requestedAt && r.boundary.None? && HeldBy(r, expected)
    case SetProgress(_, progress, expected) => progress.completed <= progress.total && HeldBy(r, expected)
    case CancelQueued(_) => r.status.Queued?
    case CancelRunning(_) => r.status.Running?
    case Complete(_, c, expected) =>
      && Acceptable(c) && r.status.Running? && (c.status.Cancelled? || !r.cancelRequested)
      && (expected.None? || r.claimedBy == expected)
    case CompleteCancelled(_, _, expected) =>
      r.status.Running? && r.cancelRequested && (expected.None? || r.claimedBy == expected)
    case _ => false
  }

  /** The SET clause of a step about one existing row. */
  function Update(r: Row, step: Step): Row {
    match step
    case Claim(owner, _) =>
      r.(status := Running, progress := r.progress.(phase := "preflight"), claimedBy := Some(owner))
    case SetBoundary(_, boundary, _) => r.(boundary := Some(boundary))
    case SetProgress(_, progress, _) => r.(progress := progress)
    case CancelQueued(_) =>
      r.(status := Cancelled, cancelRequested := true,
         progress := r.progress.(phase := "cancelled", reason := Some("cancelled")))
    case CancelRunning(_) => r.(cancelRequested := true)
    case Complete(_, c, _) =>
      r.(status := c.status, progress := r.progress.(phase := c.phase, reason := c.reason),
         cycle := c.cycle, jsonHash := c.jsonHash, markdownHash := c.markdownHash)
    case CompleteCancelled(_, cycle, _) =>
      r.(status := Cancelled, progress := r.progress.(phase := "cancelled", reason := Some("cancelled")),
         cycle := (if r.cycle.Some? then r.cycle else cycle), jsonHash := None, markdownHash := None)
    case _ => r
  }

  /** The checks a submission makes before it looks for an earlier one. */
  predicate SubmissionInOrder(t: Tables, inputs: Inputs, accepted: Option<int>) {
    && (accepted.Some? && inputs.origin != "legacy" ==> accepted.value >= inputs.requestedAt)
    && (inputs.rerunOf.Some? ==> inputs.rerunOf.value in t.rows && Terminal(t.rows[inputs.rerunOf.value].status))
  }

  predicate CanSubmit(t: Tables, id: Id, inputs: Inputs, accepted: Option<int>) {
    id !in t.rows && SubmissionInOrder(t, inputs, accepted)
  }

  /** The step changes a row: its WHERE clause matches. */
  predicate Hits(t: Tables, step: Step) {
    Target(step).Some? && Target(step).value in t.rows && HitsRow(t.rows[Target(step).value], step)
  }

  /** Rows `recover_interrupted_requests` returns to the queue. */
  predicate Abandoned(r: Row, owner: Owner) { r.status.Running? && r.claimedBy != Some(owner) }

  function Requeued(r: Row, owner: Owner): Row {
    if Abandoned(r, owner)
    then r.(status := Queued, claimedBy := None, progress := r.progress.(reason := Some("service_recovery")))
    else r
  }

  /** The effect of one statement; a WHERE clause that matches nothing changes nothing. */
  function Apply(t: Tables, step: Step): Tables {
    if step.Submit? then
      if CanSubmit(t, step.id, step.inputs, step.accepted)
      then t.(rows := t.rows[step.id := Row(step.inputs, step.accepted, Queued, false, QUEUED, None, None, None, None)])
      else t
    else if step.Recover? then
      t.(rows := map id | id in t.rows :: Requeued(t.rows[id], step.owner))
    else if !Hits(t, step) then t
    else
      var id := Target(step).value;
      var written := t.(rows := t.rows[id := Update(t.rows[id], step)]);
      if step.CancelQueued? || step.Complete? || step.CompleteCancelled? then Materialize(written, id) else written
  }

  /** Any interleaving of statements of any clients. */
  function Execute(t: Tables, steps: seq<Step>): Tables {
    if steps == [] then t else Apply(Execute(t, steps[..|steps| - 1]), steps[|steps| - 1])
  }

  /** Progress and boundary writes carry the identity of the claim they belong to, as the service's do. */
  predicate Identified(step: Step) {
    (step.SetProgress? ==> step.expected.Some?) && (step.SetBoundary? ==> step.expected.Some?)
  }

  predicate AllIdentified(steps: seq<Step>) { forall i :: 0 <= i < |steps| ==> Identified(steps[i]) }
}
