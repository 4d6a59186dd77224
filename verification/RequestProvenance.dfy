/** Where the contents of a request come from: every value of a row was given by a step about that request. */
module RequestProvenance {
  import opened Prelude
  import opened RequestModel
  import opened RequestLaws

  ghost predicate Submitted(steps: seq<Step>, id: Id, inputs: Inputs) {
    exists i :: 0 <= i < |steps| && steps[i].Submit? && steps[i].id == id && steps[i].inputs == inputs
  }

  ghost predicate BoundaryGiven(steps: seq<Step>, id: Id, boundary: int) {
    exists i :: 0 <= i < |steps|
                && ((steps[i].SetBoundary? && steps[i].id == id && steps[i].boundary == boundary)
                    || (steps[i].Submit? && steps[i].id == id && steps[i].accepted == Some(boundary)))
  }

  ghost predicate ClaimedBy(steps: seq<Step>, id: Id, owner: Owner) {
    exists i :: 0 <= i < |steps| && steps[i].Claim? && steps[i].owner == owner && steps[i].head == Some(id)
  }

  /** A completion of the request gave this status and these hashes, each under its own name. */
  ghost predicate CompletedWith(steps: seq<Step>, id: Id, status: Status, json: Option<Hash>, markdown: Option<Hash>) {
    exists i :: 0 <= i < |steps| && steps[i].Complete? && steps[i].id == id && steps[i].completion.status == status
                && steps[i].completion.jsonHash == json && steps[i].completion.markdownHash == markdown
  }

  ghost predicate CancelAsked(steps: seq<Step>, id: Id) {
    exists i :: 0 <= i < |steps| && (steps[i].CancelQueued? || steps[i].CancelRunning?) && steps[i].id == id
  }

  ghost predicate Explained(steps: seq<Step>, id: Id, r: Row) {
    && Submitted(steps, id, r.inputs)
    && (r.boundary.Some? ==> BoundaryGiven(steps, id, r.boundary.value))
    && (r.claimedBy.Some? ==> ClaimedBy(steps, id, r.claimedBy.value))
    && (r.cancelRequested ==> CancelAsked(steps, id))
    && (Terminal(r.status) && !r.status.Cancelled? ==> CompletedWith(steps, id, r.status, r.jsonHash, r.markdownHash))
    && (Publishes(r.status) ==> ValidHash(r.jsonHash) && ValidHash(r.markdownHash))
    && (!Publishes(r.status) ==> r.jsonHash.None? && r.markdownHash.None?)
  }

  ghost predicate AllExplained(steps: seq<Step>, t: Tables) {
    forall id :: id in t.rows ==> Explained(steps, id, t.rows[id])
  }

  /** A longer history explains what a shorter one did. */
  lemma StillExplained(steps: seq<Step>, step: Step, id: Id, r: Row)
    requires Explained(steps, id, r)
    ensures Explained(steps + [step], id, r)
  {
    var all := steps + [step];
    forall i | 0 <= i < |steps| ensures all[i] == steps[i] {}
    StillGiven(steps, step, id, r);
  }

  lemma StillGiven(steps: seq<Step>, step: Step, id: Id, r: Row)
    ensures Submitted(steps, id, r.inputs) ==> Submitted(steps + [step], id, r.inputs)
    ensures forall b :: BoundaryGiven(steps, id, b) ==> BoundaryGiven(steps + [step], id, b)
    ensures forall o :: ClaimedBy(steps, id, o) ==> ClaimedBy(steps + [step], id, o)
    ensures CancelAsked(steps, id) ==> CancelAsked(steps + [step], id)
    ensures CompletedWith(steps, id, r.status, r.jsonHash, r.markdownHash) ==>
              CompletedWith(steps + [step], id, r.status, r.jsonHash, r.markdownHash)
  {
    var all := steps + [step];
    forall i | 0 <= i < |steps| ensures all[i] == steps[i] {}
  }

  /** The row a step has written is explained by the history with that step. */
  lemma WrittenExplained(steps: seq<Step>, step: Step, r: Row)
    requires Target(step).Some? && HitsRow(r, step) && RowSound(r) && Explained(steps, Target(step).value, r)
    ensures Explained(steps + [step], Target(step).value, Update(r, step))
  {
    var id, all := Target(step).value, steps + [step];
    assert all[|steps|] == step;
    StillExplained(steps, step, id, r);
  }

  lemma StepExplained(steps: seq<Step>, t: Tables, step: Step)
    requires RowsSound(t) && AllExplained(steps, t)
    ensures AllExplained(steps + [step], Apply(t, step))
  {
    var t' := Apply(t, step);
    assert (steps + [step])[|steps|] == step;
    forall id | id in t'.rows ensures Explained(steps + [step], id, t'.rows[id]) {
      if id in t.rows {
        StillExplained(steps, step, id, t.rows[id]);
        if Hits(t, step) && Target(step) == Some(id) { WrittenExplained(steps, step, t.rows[id]); }
      }
    }
  }

  /** In every reachable state every row is explained: published hashes too, each under the name it was given for. */
  lemma {:induction false} EverythingExplained(steps: seq<Step>)
    ensures AllExplained(steps, Execute(EMPTY, steps))
  {
    if steps != [] {
      var front := steps[..|steps| - 1];
      EverythingExplained(front);
      RunRowsSound(EMPTY, front);
      StepExplained(front, Execute(EMPTY, front), steps[|steps| - 1]);
      assert steps == front + [steps[|steps| - 1]];
    }
  }

  // ---------------------------------------------------------------- guards

  /** Counts never pass their total, and a boundary precedes the request only where a legacy import said so. */
  predicate InRange(r: Row) {
    && r.progress.completed <= r.progress.total
    && (r.boundary.Some? ==> r.boundary.value >= r.inputs.requestedAt || r.inputs.origin == "legacy")
  }

  predicate AllInRange(t: Tables) { forall id :: id in t.rows ==> InRange(t.rows[id]) }

  lemma StepInRange(t: Tables, step: Step)
    requires AllInRange(t)
    ensures AllInRange(Apply(t, step))
  {
    if !step.Submit? && !step.Recover? && Hits(t, step) { HitTables(t, step); }
  }

  lemma {:induction false} EverythingInRange(steps: seq<Step>)
    ensures AllInRange(Execute(EMPTY, steps))
  {
    if steps != [] {
      EverythingInRange(steps[..|steps| - 1]);
      StepInRange(Execute(EMPTY, steps[..|steps| - 1]), steps[|steps| - 1]);
    }
  }

  /** The request reruns an earlier one that has ended. */
  predicate RerunEnded(t: Tables, r: Row) {
    r.inputs.rerunOf.Some? ==>
      r.inputs.rerunOf.value in t.rows && t.rows[r.inputs.rerunOf.value].status !in {Queued, Running}
  }

  predicate RerunsEnded(t: Tables) { forall id :: id in t.rows ==> RerunEnded(t, t.rows[id]) }

  /** A request that has ended keeps its status, and no request changes its inputs. */
  lemma EndStays(t: Tables, step: Step, id: Id)
    requires id in t.rows
    ensures var t' := Apply(t, step);
            && id in t'.rows && t'.rows[id].inputs == t.rows[id].inputs
            && (t.rows[id].status !in {Queued, Running} ==> t'.rows[id].status == t.rows[id].status)
  {}

  lemma NewRerunEnded(t: Tables, step: Step, id: Id)
    requires id !in t.rows && id in Apply(t, step).rows
    ensures RerunEnded(t, Apply(t, step).rows[id])
  {}

  lemma StepRerunsEnded(t: Tables, step: Step)
    requires RerunsEnded(t)
    ensures RerunsEnded(Apply(t, step))
  {
    var t' := Apply(t, step);
    forall id | id in t'.rows ensures RerunEnded(t', t'.rows[id]) {
      if id in t.rows {
        EndStays(t, step, id);
        assert RerunEnded(t, t.rows[id]);
      } else {
        NewRerunEnded(t, step, id);
      }
      var parent := t'.rows[id].inputs.rerunOf;
      if parent.Some? && parent.value in t.rows { EndStays(t, step, parent.value); }
    }
  }

  /** In every reachable state a rerun names a request that has ended. */
  lemma {:induction false} EveryRerunEnded(steps: seq<Step>)
    ensures RerunsEnded(Execute(EMPTY, steps))
  {
    if steps != [] {
      EveryRerunEnded(steps[..|steps| - 1]);
      StepRerunsEnded(Execute(EMPTY, steps[..|steps| - 1]), steps[|steps| - 1]);
    }
  }
}
