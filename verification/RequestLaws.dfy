/** Laws of the request lifecycle over every interleaving of statements. */
module RequestLaws {
  import opened Prelude
  import opened RequestModel

  // ---------------------------------------------------------------- cancellation

  /** Facts about one row in every reachable state, whoever writes. */
  predicate RowSound(r: Row) {
    && (Terminal(r.status) && r.cancelRequested ==> r.status.Cancelled?)
    && (Publishes(r.status) <==> r.jsonHash.Some?) && (Publishes(r.status) <==> r.markdownHash.Some?)
    && (r.status.Running? ==> r.claimedBy.Some?)
    && (r.status.Queued? ==> r.claimedBy.None?)
  }

  predicate RowsSound(t: Tables) { forall id :: id in t.rows ==> RowSound(t.rows[id]) }

  /** What no statement takes back: what was submitted, a cancel flag, a boundary, a terminal status. */
  predicate RowLater(r: Row, r': Row) {
    && r'.inputs == r.inputs
    && (r.cancelRequested ==> r'.cancelRequested)
    && (r.boundary.Some? ==> r'.boundary == r.boundary)
    && (Terminal(r.status) ==> r'.status == r.status)
  }

  predicate Later(t: Tables, t': Tables) {
    && (forall id :: id in t.rows ==> id in t'.rows && RowLater(t.rows[id], t'.rows[id]))
    && (forall id :: id in t.records ==> id in t'.records && t'.records[id] == t.records[id])
  }

  lemma UpdateSound(r: Row, step: Step)
    requires RowSound(r) && HitsRow(r, step)
    ensures RowSound(Update(r, step)) && RowLater(r, Update(r, step))
  {}

  lemma StepRowsSound(t: Tables, step: Step)
    requires RowsSound(t)
    ensures RowsSound(Apply(t, step)) && Later(t, Apply(t, step))
  {
    if step.Submit? || step.Recover? { OpeningSound(t, step); }
    else if Hits(t, step) { HitSound(t, step); }
  }

  /** Submission opens a row, recovery reopens rows. */
  lemma OpeningSound(t: Tables, step: Step)
    requires RowsSound(t) && (step.Submit? || step.Recover?)
    ensures RowsSound(Apply(t, step)) && Later(t, Apply(t, step))
  {}

  lemma HitSound(t: Tables, step: Step)
    requires RowsSound(t) && !step.Submit? && !step.Recover? && Hits(t, step)
    ensures RowsSound(Apply(t, step)) && Later(t, Apply(t, step))
  {
    UpdateSound(t.rows[Target(step).value], step);
    HitTables(t, step);
  }

  /** One row is updated, and only a missing record can appear. */
  lemma HitTables(t: Tables, step: Step)
    requires !step.Submit? && !step.Recover? && Hits(t, step)
    ensures var id := Target(step).value;
            && Apply(t, step).rows == t.rows[id := Update(t.rows[id], step)]
            && (forall k :: k in t.records ==> k in Apply(t, step).records && Apply(t, step).records[k] == t.records[k])
  {}

  lemma {:induction false} RunRowsSound(t: Tables, steps: seq<Step>)
    requires RowsSound(t)
    ensures RowsSound(Execute(t, steps)) && Later(t, Execute(t, steps))
  {
    if steps != [] {
      RunRowsSound(t, steps[..|steps| - 1]);
      StepRowsSound(Execute(t, steps[..|steps| - 1]), steps[|steps| - 1]);
    }
  }

  /** Cancellation wins: whatever happens around it, including a completion whose first read came before the
      cancellation, a request whose cancel flag was set before it ended can only end cancelled and unpublished. */
  lemma CancellationWins(before: seq<Step>, after: seq<Step>, id: Id)
    requires id in Execute(EMPTY, before).rows && Execute(EMPTY, before).rows[id].cancelRequested
    ensures var r := Execute(Execute(EMPTY, before), after).rows;
            && id in r
            && (Terminal(r[id].status) ==>
                  r[id].status.Cancelled? && r[id].jsonHash.None? && r[id].markdownHash.None?)
  {
    RunRowsSound(EMPTY, before);
    RunRowsSound(Execute(EMPTY, before), after);
  }

  /** A boundary, once set, is the same in every later state, through every recovery and claim. */
  lemma BoundaryIsFinal(t: Tables, steps: seq<Step>, id: Id)
    requires RowsSound(t) && id in t.rows && t.rows[id].boundary.Some?
    ensures id in Execute(t, steps).rows && Execute(t, steps).rows[id].boundary == t.rows[id].boundary
  {
    RunRowsSound(t, steps);
  }

  /** A flagged request that recovery returned to the queue is never claimed again: it waits or is cancelled. */
  lemma {:induction false} FlaggedNeverRunsAgain(t: Tables, steps: seq<Step>, id: Id)
    requires RowsSound(t) && id in t.rows && t.rows[id].status.Queued? && t.rows[id].cancelRequested
    ensures var r := Execute(t, steps).rows;
            id in r && r[id].cancelRequested && (r[id].status.Queued? || r[id].status.Cancelled?)
  {
    if steps != [] {
      FlaggedNeverRunsAgain(t, steps[..|steps| - 1], id);
      FlaggedStays(Execute(t, steps[..|steps| - 1]), steps[|steps| - 1], id);
    }
  }

  lemma FlaggedStays(t: Tables, step: Step, id: Id)
    requires id in t.rows && t.rows[id].cancelRequested && (t.rows[id].status.Queued? || t.rows[id].status.Cancelled?)
    ensures var r := Apply(t, step).rows;
            id in r && r[id].cancelRequested && (r[id].status.Queued? || r[id].status.Cancelled?)
  {}

  // ---------------------------------------------------------------- records

  /** Exactly the terminal requests have a record, and it is the row. */
  predicate RecordsExact(t: Tables) {
    && (forall id :: id in t.records ==> id in t.rows)
    && (forall id :: id in t.rows ==> (Terminal(t.rows[id].status) <==> id in t.records))
    && (forall id :: id in t.records ==> Mirrors(t.records[id], t.rows[id]))
  }

  /** A terminal row is left entirely alone. */
  predicate TerminalFrozen(t: Tables, t': Tables) {
    forall id :: id in t.rows && Terminal(t.rows[id].status) ==> id in t'.rows && t'.rows[id] == t.rows[id]
  }

  lemma StepRecordsExact(t: Tables, step: Step)
    requires RecordsExact(t) && Identified(step)
    ensures RecordsExact(Apply(t, step)) && TerminalFrozen(t, Apply(t, step))
  {
    if step.Submit? || step.Recover? { OpeningKeepsRecords(t, step); }
    else if Hits(t, step) { HitKeepsRecords(t, step); }
  }

  lemma OpeningKeepsRecords(t: Tables, step: Step)
    requires RecordsExact(t) && (step.Submit? || step.Recover?)
    ensures RecordsExact(Apply(t, step)) && TerminalFrozen(t, Apply(t, step))
  {}

  lemma HitKeepsRecords(t: Tables, step: Step)
    requires RecordsExact(t) && Identified(step) && !step.Submit? && !step.Recover? && Hits(t, step)
    ensures RecordsExact(Apply(t, step)) && TerminalFrozen(t, Apply(t, step))
  {
    UpdateEnds(t.rows[Target(step).value], step);
  }

  /** An identified write never reaches a terminal row, and it ends a request exactly when it writes the record. */
  lemma UpdateEnds(r: Row, step: Step)
    requires HitsRow(r, step) && Identified(step)
    ensures !Terminal(r.status)
    ensures Terminal(Update(r, step).status) <==> step.CancelQueued? || step.Complete? || step.CompleteCancelled?
  {}

  /** Every terminal request has exactly one record, equal to it and never changed; no other request has one. */
  lemma {:induction false} RecordsAreFinal(t: Tables, steps: seq<Step>)
    requires RecordsExact(t) && RowsSound(t) && AllIdentified(steps)
    ensures RecordsExact(Execute(t, steps)) && TerminalFrozen(t, Execute(t, steps)) && Later(t, Execute(t, steps))
  {
    RunRowsSound(t, steps);
    if steps != [] {
      RecordsAreFinal(t, steps[..|steps| - 1]);
      StepRecordsExact(Execute(t, steps[..|steps| - 1]), steps[|steps| - 1]);
    }
  }

  /** The exact limit of that law: a step disturbs a terminal row precisely when it is a progress or boundary
      write without a claim identity whose target ended after the writer's first read. */
  lemma OnlyUnidentifiedWritesDisturb(t: Tables, step: Step)
    ensures TerminalFrozen(t, Apply(t, step)) <==>
            !(&& (step.SetProgress? || step.SetBoundary?) && step.expected.None? && Hits(t, step)
              && Terminal(t.rows[step.id].status) && (step.SetProgress? ==> t.rows[step.id].progress != step.progress))
  {}

  /** A concrete run: a progress write without identity lands after the request was cancelled and leaves a
      record that no longer equals its request. */
  lemma UnidentifiedWriteBreaksRecord(inputs: Inputs, p: Progress)
    requires inputs.rerunOf.None? && p.phase != "cancelled" && p.completed <= p.total
    ensures var t := Execute(EMPTY, [Submit("r", inputs, None), CancelQueued("r"), SetProgress("r", p, None)]);
            "r" in t.records && "r" in t.rows && !Mirrors(t.records["r"], t.rows["r"])
  {
    var s0, s1, s2 := Submit("r", inputs, None), CancelQueued("r"), SetProgress("r", p, None);
    var steps := [s0, s1, s2];
    assert steps[..2] == [s0, s1] && steps[..2][..1] == [s0] && [s0][..0] == [];
    var t1 := Apply(EMPTY, s0);
    var t2 := Apply(t1, s1);
    assert Execute(EMPTY, [s0]) == t1;
    assert Execute(EMPTY, steps[..2]) == t2;
    assert Execute(EMPTY, steps) == Apply(t2, s2);
  }

  // ---------------------------------------------------------------- fencing

  /** Writes a service makes about one request under claim identity `a`. */
  predicate WriteAs(step: Step, id: Id, a: Owner) {
    && (step.SetBoundary? || step.SetProgress? || step.Complete? || step.CompleteCancelled?)
    && step.id == id && step.expected == Some(a)
  }

  /** A write under identity `a` takes effect only on a request that runs under `a` at that moment. */
  lemma WriteNeedsClaim(t: Tables, step: Step, id: Id, a: Owner)
    requires WriteAs(step, id, a) && id in t.rows && Apply(t, step) != t
    ensures t.rows[id].status.Running? && t.rows[id].claimedBy == Some(a)
  {}

  lemma LostClaimStep(t: Tables, step: Step, id: Id, a: Owner)
    requires id in t.rows && t.rows[id].claimedBy != Some(a)
    requires !(step.Claim? && step.owner == a && step.head == Some(id))
    ensures id in Apply(t, step).rows && Apply(t, step).rows[id].claimedBy != Some(a)
  {}

  /** Once `a` no longer holds a request, it does not hold it until it claims it again. */
  lemma {:induction false} LostClaimStaysLost(t: Tables, steps: seq<Step>, id: Id, a: Owner)
    requires id in t.rows && t.rows[id].claimedBy != Some(a)
    requires forall i :: 0 <= i < |steps| ==> !(steps[i].Claim? && steps[i].owner == a && steps[i].head == Some(id))
    ensures id in Execute(t, steps).rows && Execute(t, steps).rows[id].claimedBy != Some(a)
  {
    if steps != [] {
      LostClaimStaysLost(t, steps[..|steps| - 1], id, a);
      LostClaimStep(Execute(t, steps[..|steps| - 1]), steps[|steps| - 1], id, a);
    }
  }

  lemma ClaimLost(t: Tables, recoverer: Owner, b: Owner, id: Id, a: Owner)
    requires id in t.rows && t.rows[id].status.Running? && t.rows[id].claimedBy == Some(a) && recoverer != a && b != a
    ensures var r := Apply(Apply(t, Recover(recoverer)), Claim(b, Some(id))).rows; id in r && r[id].claimedBy != Some(a)
  {}

  /** Fencing: after a running request is recovered and claimed by another, no boundary, progress or completion
      write under the old identity changes anything, for as long as that identity does not claim it again. */
  lemma StaleWritesFenced(t: Tables, recoverer: Owner, b: Owner, steps: seq<Step>, late: Step, id: Id, a: Owner)
    requires RowsSound(t) && id in t.rows && t.rows[id].status.Running? && t.rows[id].claimedBy == Some(a)
    requires recoverer != a && b != a && WriteAs(late, id, a)
    requires forall i :: 0 <= i < |steps| ==> !(steps[i].Claim? && steps[i].owner == a && steps[i].head == Some(id))
    ensures var t' := Execute(Apply(Apply(t, Recover(recoverer)), Claim(b, Some(id))), steps); Apply(t', late) == t'
  {
    var t2 := Apply(Apply(t, Recover(recoverer)), Claim(b, Some(id)));
    ClaimLost(t, recoverer, b, id, a);
    LostClaimStaysLost(t2, steps, id, a);
    var t' := Execute(t2, steps);
    if Apply(t', late) != t' { WriteNeedsClaim(t', late, id, a); }
  }

  /** The proviso is needed: an identity that claims the same request a second time writes again. */
  lemma ReclaimReopens(t: Tables, id: Id, a: Owner, p: Progress)
    requires id in t.rows && t.rows[id].status.Queued? && !t.rows[id].cancelRequested && p.completed <= p.total
    ensures id in Apply(Apply(t, Claim(a, Some(id))), SetProgress(id, p, Some(a))).rows
    ensures Apply(Apply(t, Claim(a, Some(id))), SetProgress(id, p, Some(a))).rows[id].progress == p
  {}
}
