/**
Which directory states the next writer can always bring to a complete archive,
and which runs keep the directory in such a state.
*/
module PublicationRecovery {
  import opened Prelude
  import opened PublicationModel
  import opened PublicationSafety

  predicate FullStage(d: Directory, t: Txn) {
    t in d.stages && Markdown in d.stages[t] && Json in d.stages[t] && Marker in d.stages[t]
  }

  /** The transaction never reached its last staged file, so it never linked anything public. */
  predicate Abandoned(d: Directory, t: Txn) {
    t !in d.stages || Marker !in d.stages[t]
  }

  /** Public files present so far carry the digests the claimed transaction staged. */
  predicate PublicMatchesStage(hash: Hash, d: Directory, t: Txn)
    requires FullStage(d, t)
  {
    && d.stages[t][Marker] < |d.files|
    && Marker !in d.public
    && (Markdown in d.public ==>
          HasDigest(hash, d.files, d.public, Markdown, Recorded(d.files[d.stages[t][Marker]], Markdown)))
    && (Json in d.public ==>
          HasDigest(hash, d.files, d.public, Json, Recorded(d.files[d.stages[t][Marker]], Json)))
  }

  /** What a writer can check of the directory alone: complete, or untouched under an abandoned or absent
      claim, or partly public in agreement with the staged transaction the claim names. */
  predicate Recoverable(hash: Hash, d: Directory) {
    || Complete(hash, d)
    || match d.claim
       case None => d.public == map[]
       case Some(i) =>
         && i < |d.files|
         && d.files[i].ClaimRecord?
         && var t := d.files[i].txn;
            if Abandoned(d, t) then d.public == map[] else FullStage(d, t) && PublicMatchesStage(hash, d, t)
  }

  // ---------------------------------------------------------------- locks of writers that stopped

  predicate Stopped(pc: Pc) { pc.Done? || pc.Crashed? }

  ghost predicate LocksLive(s: System) {
    forall i :: i in s.dir.locks ==>
      s.dir.locks[i] in s.writers && !Stopped(s.writers[s.dir.locks[i]].pc)
  }

  /** A writer takes locks for itself only, and drops its own when it stops. */
  ghost predicate LocksOwn(s: System, s': System, p: Pid)
    requires p in s.writers
  {
    && p in s'.writers
    && (forall i :: i in s'.dir.locks ==>
          (i in s.dir.locks && s'.dir.locks[i] == s.dir.locks[i]) || s'.dir.locks[i] == p)
    && (Stopped(s'.writers[p].pc) ==> Stopped(s.writers[p].pc) || s'.dir.locks == Unlock(s.dir.locks, p))
  }

  lemma QuietLocks(hash: Hash, s: System, p: Pid)
    requires p in s.writers && Quiet(s.writers[p].pc) && !Stopped(s.writers[p].pc)
    ensures LocksOwn(s, Step(hash, s, p), p)
  {
    match s.writers[p].pc {
      case LockClaim(i) =>
      case Retry =>
      case _ =>
    }
  }

  lemma LoudLocks(hash: Hash, s: System, p: Pid)
    requires p in s.writers && !Quiet(s.writers[p].pc)
    ensures LocksOwn(s, Step(hash, s, p), p)
  {}

  /** A writer that has stopped does nothing more. */
  lemma StoppedStays(hash: Hash, s: System, p: Pid)
    requires p in s.writers && Stopped(s.writers[p].pc)
    ensures Step(hash, s, p) == s
  {}

  lemma StepLocks(hash: Hash, s: System, p: Pid)
    requires p in s.writers
    ensures LocksOwn(s, Step(hash, s, p), p)
    ensures Stopped(s.writers[p].pc) ==> Step(hash, s, p) == s
  {
    if Stopped(s.writers[p].pc) { StoppedStays(hash, s, p); }
    else if Quiet(s.writers[p].pc) { QuietLocks(hash, s, p); }
    else { LoudLocks(hash, s, p); }
  }

  lemma StepLocksLive(hash: Hash, s: System, e: Event)
    requires LocksLive(s)
    ensures LocksLive(Apply(hash, s, e))
  {
    if e.Act? && e.pid in s.writers {
      OthersWait(hash, s, e.pid);
      StepLocks(hash, s, e.pid);
    }
  }

  /** A lock never outlives its writer: once every writer has returned or crashed, no claim is locked. */
  lemma {:induction false} StoppedWritersHoldNoLocks(hash: Hash, run: seq<Event>)
    ensures LocksLive(Execute(hash, EMPTY, run))
    ensures var s := Execute(hash, EMPTY, run);
            (forall p :: p in s.writers ==> Stopped(s.writers[p].pc)) ==> s.dir.locks == map[]
  {
    if run != [] {
      StoppedWritersHoldNoLocks(hash, run[..|run| - 1]);
      StepLocksLive(hash, Execute(hash, EMPTY, run[..|run| - 1]), run[|run| - 1]);
    }
  }

  // ---------------------------------------------------------------- orderly runs

  /** The writer works under a claim it has not yet unlinked. */
  predicate Holds(pc: Pc) {
    match pc
    case MakeStage(_, _) => true
    case StageFile(_, _, _) => true
    case LinkFile(_, _, _) => true
    case ValidateOwn(_, _) => true
    case OpenStage(_, _) => true
    case DiscardFile(_, _, _) => true
    case DiscardStage(_, _) => true
    case DropClaim(_, _) => true
    case ValidateStage(_, _) => true
    case RepairLook(_, _, _, _) => true
    case RepairLink(_, _, _, _) => true
    case ValidateRecovered(_, _) => true
    case UnlinkClaim(_, _, _) => true
    case _ => false
  }

  predicate Cleans(pc: Pc) { pc.CleanFile? || pc.CleanStage? }

  predicate HasTxn(pc: Pc) { Holds(pc) || Cleans(pc) || pc.LinkClaim? }

  /** Nothing is public, or everything is. */
  predicate Settled(hash: Hash, d: Directory) { d.public == map[] || Complete(hash, d) }

  function Before(key: Key): set<Key> {
    match key case Markdown => {} case Json => {Markdown} case Marker => {Markdown, Json}
  }

  /** The public files are the staged files themselves, not merely files with equal digests. */
  predicate PublicIsStaged(d: Directory, t: Txn) {
    t in d.stages && forall k :: k in d.public ==> k in d.stages[t] && d.public[k] == d.stages[t][k]
  }

  /** `Recoverable`, with the original inodes in public. */
  predicate Resumable(hash: Hash, d: Directory) {
    || Complete(hash, d)
    || match d.claim
       case None => d.public == map[]
       case Some(i) =>
         && i < |d.files|
         && d.files[i].ClaimRecord?
         && var t := d.files[i].txn;
            if Abandoned(d, t) then d.public == map[]
            else FullStage(d, t) && PublicIsStaged(d, t) && Marker !in d.public
  }

  predicate ClaimIsNot(d: Directory, t: Txn) {
    d.claim.Some? ==>
      d.claim.value < |d.files| && d.files[d.claim.value].ClaimRecord? && d.files[d.claim.value].txn != t
  }

  predicate Owns(d: Directory, p: Pid, t: Txn, i: Inode) {
    d.claim == Some(i) && i in d.locks && d.locks[i] == p && i < |d.files| && d.files[i] == ClaimRecord(t)
  }

  predicate WriterOrderly(hash: Hash, s: System, p: Pid, pc: Pc) {
    var d := s.dir;
    && (HasTxn(pc) ==> pc.txn < |s.intents|)
    && (Holds(pc) ==> Owns(d, p, pc.txn, pc.ino))
    && match pc
       case LinkClaim(t, i) =>
         && i in d.locks && d.locks[i] == p && i < |d.files| && d.files[i] == ClaimRecord(t)
         && d.claim != Some(i) && t !in d.stages && ClaimIsNot(d, t)
       case LockClaim(i) => i < |d.files|
       case MakeStage(t, _) => t !in d.stages && Settled(hash, d)
       case StageFile(k, t, _) => t in d.stages && d.stages[t].Keys == Before(k) && Settled(hash, d)
       case LinkFile(k, t, _) =>
         && FullStage(d, t)
         && (if k == Markdown then Settled(hash, d) else d.public.Keys == Before(k) && PublicIsStaged(d, t))
       case DiscardFile(_, t, _) => Abandoned(d, t)
       case DiscardStage(t, _) => Abandoned(d, t)
       case DropClaim(t, _) => Abandoned(d, t)
       case ValidateStage(t, _) => !Abandoned(d, t)
       case RepairLook(_, t, _, _) => FullStage(d, t)
       case RepairLink(_, t, _, _) => FullStage(d, t)
       case UnlinkClaim(_, _, _) => Complete(hash, d)
       case CleanFile(_, t, _) => ClaimIsNot(d, t)
       case CleanStage(t, _) => ClaimIsNot(d, t)
       case _ => true
  }

  /** A transaction whose claim is not yet linked is known to its own writer only. */
  predicate Apart(mine: Pc, other: Pc) {
    mine.LinkClaim? ==>
      && (HasTxn(other) ==> other.txn != mine.txn)
      && (other.LockClaim? ==> other.ino != mine.ino)
  }

  ghost predicate Orderly(hash: Hash, s: System) {
    && Safe(hash, s)
    && Resumable(hash, s.dir)
    && (s.dir.claim.Some? ==>
          s.dir.claim.value < |s.dir.files| && s.dir.files[s.dir.claim.value].ClaimRecord?
          && s.dir.files[s.dir.claim.value].txn < |s.intents|)
    && (forall t :: t in s.dir.stages ==> t < |s.intents|)
    && (forall i :: i in s.dir.locks ==> i < |s.dir.files|)
    && (forall p :: p in s.writers ==> WriterOrderly(hash, s, p, s.writers[p].pc))
    && (forall p, q :: p in s.writers && q in s.writers && p != q ==> Apart(s.writers[p].pc, s.writers[q].pc))
  }

  /** When a writer locks the claim inode it opened, the claim name still refers to that inode.  The code
      does not check this after `flock`; a writer could, by comparing the two inodes. */
  predicate LocksCurrentClaim(s: System, e: Event) {
    (e.Act? && e.pid in s.writers && s.writers[e.pid].pc.LockClaim? && s.writers[e.pid].pc.ino !in s.dir.locks) ==>
      s.dir.claim == Some(s.writers[e.pid].pc.ino)
  }

  predicate Disciplined(hash: Hash, run: seq<Event>)
    decreases |run|
  {
    run == [] ||
    (Disciplined(hash, run[..|run| - 1]) && LocksCurrentClaim(Execute(hash, EMPTY, run[..|run| - 1]), run[|run| - 1]))
  }

  // ---------------------------------------------------------------- orderly is inductive

  /** Stage directories one file call of writer `p` can touch: those of its own transaction. */
  ghost predicate ReachStages(s: System, s': System, p: Pid)
    requires p in s.writers
  {
    var pc := s.writers[p].pc;
    && (forall t :: (t in s.dir.stages) != (t in s'.dir.stages) ==> (Holds(pc) || Cleans(pc)) && pc.txn == t)
    && (forall t :: t in s.dir.stages && t in s'.dir.stages && s.dir.stages[t] != s'.dir.stages[t]
          ==> (Holds(pc) || Cleans(pc)) && pc.txn == t)
  }

  /** Locks, the claim name and the public names one file call of writer `p` can touch. */
  ghost predicate ReachNames(s: System, s': System, p: Pid)
    requires p in s.writers
  {
    && (forall i :: i in s.dir.locks && s.dir.locks[i] != p ==> i in s'.dir.locks && s'.dir.locks[i] == s.dir.locks[i])
    && ReachClaim(s, s', p)
  }

  lemma StepReachStages(hash: Hash, s: System, p: Pid)
    requires p in s.writers
    ensures ReachStages(s, Step(hash, s, p), p)
  {
    if TouchesStage(s.writers[p].pc) { OwnStageOnly(hash, s, p); } else { StagesUntouched(hash, s, p); }
  }

  lemma OwnStageOnly(hash: Hash, s: System, p: Pid)
    requires p in s.writers && TouchesStage(s.writers[p].pc)
    ensures var s' := Step(hash, s, p);
            forall t :: t != s.writers[p].pc.txn ==>
              && (t in s'.dir.stages <==> t in s.dir.stages)
              && (t in s.dir.stages ==> s'.dir.stages[t] == s.dir.stages[t])
  {}

  lemma StepKeepsOthersLocks(hash: Hash, s: System, p: Pid)
    requires p in s.writers
    ensures forall i :: i in s.dir.locks && s.dir.locks[i] != p && i < |s.dir.files| ==>
      var s' := Step(hash, s, p); i in s'.dir.locks && s'.dir.locks[i] == s.dir.locks[i]
  {
    if Quiet(s.writers[p].pc) { QuietKeepsOthersLocks(hash, s, p); }
    else {
      match s.writers[p].pc {
        case Prepare =>
        case LinkClaim(t, j) =>
        case _ =>
      }
    }
  }

  lemma QuietKeepsOthersLocks(hash: Hash, s: System, p: Pid)
    requires p in s.writers && Quiet(s.writers[p].pc)
    ensures forall i :: i in s.dir.locks && s.dir.locks[i] != p ==>
      var s' := Step(hash, s, p); i in s'.dir.locks && s'.dir.locks[i] == s.dir.locks[i]
  {}

  lemma StepReachNames(hash: Hash, s: System, p: Pid)
    requires p in s.writers
    requires forall i :: i in s.dir.locks ==> i < |s.dir.files|
    ensures ReachNames(s, Step(hash, s, p), p)
  {
    StepKeepsOthersLocks(hash, s, p);
    if Quiet(s.writers[p].pc) { QuietStep(hash, s, p); } else { LoudNames(hash, s, p); }
  }

  /** The claim name and the public names one file call of writer `p` can touch. */
  ghost predicate ReachClaim(s: System, s': System, p: Pid)
    requires p in s.writers
  {
    var pc := s.writers[p].pc;
    && (|| s'.dir.claim == s.dir.claim
        || (Holds(pc) && s'.dir.claim == None)
        || (pc.LinkClaim? && s.dir.claim == None && s'.dir.claim == Some(pc.ino)))
    && (Holds(pc) || s'.dir.public == s.dir.public)
  }

  lemma LoudNames(hash: Hash, s: System, p: Pid)
    requires p in s.writers && !Quiet(s.writers[p].pc)
    ensures ReachClaim(s, Step(hash, s, p), p)
  {}

  lemma CompleteStable(hash: Hash, s: System, s': System)
    requires Extends(s, s') && Complete(hash, s.dir)
    ensures Complete(hash, s'.dir)
  {}

  /** One writer's call leaves every other writer's ownership facts intact. */
  lemma OtherOrderly(hash: Hash, s: System, s': System, p: Pid, q: Pid)
    requires Orderly(hash, s) && p in s.writers && q in s.writers && p != q
    requires Extends(s, s') && ReachStages(s, s', p) && ReachNames(s, s', p)
    ensures WriterOrderly(hash, s', q, s.writers[q].pc)
  {
    var pc, qc := s.writers[p].pc, s.writers[q].pc;
    assert WriterOrderly(hash, s, p, pc) && WriterOrderly(hash, s, q, qc);
    assert Apart(pc, qc) && Apart(qc, pc);
    WaitingOrderly(hash, s, s', p, q, qc);
  }

  lemma WaitingOrderly(hash: Hash, s: System, s': System, p: Pid, q: Pid, qc: Pc)
    requires p in s.writers && p != q && WriterOrderly(hash, s, p, s.writers[p].pc) && WriterOrderly(hash, s, q, qc)
    requires Apart(s.writers[p].pc, qc) && Apart(qc, s.writers[p].pc)
    requires Extends(s, s') && ReachStages(s, s', p) && ReachNames(s, s', p)
    ensures WriterOrderly(hash, s', q, qc)
  {
    var pc := s.writers[p].pc;
    if Holds(qc) {
      assert !Holds(pc);
      assert s'.dir.claim == s.dir.claim;
      assert Cleans(pc) ==> pc.txn != qc.txn;
      assert (qc.txn in s.dir.stages) == (qc.txn in s'.dir.stages);
      if Complete(hash, s.dir) { CompleteStable(hash, s, s'); }
    }
  }

  /** All that the next step of one writer depends on. */
  ghost predicate Ready(hash: Hash, s: System, p: Pid) {
    && p in s.writers
    && WriterOrderly(hash, s, p, s.writers[p].pc) && WriterSafe(hash, s, s.writers[p])
    && StagesFaithful(hash, s) && NamesTyped(s.dir) && Sealed(hash, s.dir) && Resumable(hash, s.dir)
    && (s.dir.claim.Some? ==>
          s.dir.claim.value < |s.dir.files| && s.dir.files[s.dir.claim.value].ClaimRecord?
          && s.dir.files[s.dir.claim.value].txn < |s.intents|)
    && (forall t :: t in s.dir.stages ==> t < |s.intents|)
  }

  lemma OrderlyReady(hash: Hash, s: System, p: Pid)
    requires Orderly(hash, s) && p in s.writers
    ensures Ready(hash, s, p)
  {}

  lemma MoverClaiming(hash: Hash, s: System, p: Pid)
    requires Ready(hash, s, p)
    requires var pc := s.writers[p].pc; pc.CheckEntries? || pc.CheckClaim? || pc.Prepare? || pc.LinkClaim?
    ensures var s' := Step(hash, s, p); p in s'.writers && WriterOrderly(hash, s', p, s'.writers[p].pc)
  {}

  lemma MoverLocking(hash: Hash, s: System, p: Pid)
    requires p in s.writers && WriterOrderly(hash, s, p, s.writers[p].pc) && LocksCurrentClaim(s, Act(p))
    requires s.dir.claim.Some? ==>
               s.dir.claim.value < |s.dir.files| && s.dir.files[s.dir.claim.value].ClaimRecord?
               && s.dir.files[s.dir.claim.value].txn < |s.intents|
    requires s.writers[p].pc.OpenClaim? || s.writers[p].pc.LockClaim?
    ensures var s' := Step(hash, s, p); p in s'.writers && WriterOrderly(hash, s', p, s'.writers[p].pc)
  {}

  lemma MoverOpening(hash: Hash, s: System, p: Pid)
    requires p in s.writers && WriterOrderly(hash, s, p, s.writers[p].pc)
    requires s.writers[p].pc.OpenStage? || s.writers[p].pc.Retry?
    ensures var s' := Step(hash, s, p); p in s'.writers && WriterOrderly(hash, s', p, s'.writers[p].pc)
  {}

  lemma MoverMakingStage(hash: Hash, s: System, p: Pid)
    requires p in s.writers && WriterOrderly(hash, s, p, s.writers[p].pc)
    requires s.writers[p].pc.MakeStage?
    ensures var s' := Step(hash, s, p); p in s'.writers && WriterOrderly(hash, s', p, s'.writers[p].pc)
  {
    StepExtends(hash, s, p);
    if Complete(hash, s.dir) { CompleteStable(hash, s, Step(hash, s, p)); }
    assert Step(hash, s, p).dir.stages[s.writers[p].pc.txn].Keys == {};
  }

  lemma MoverStaging(hash: Hash, s: System, p: Pid)
    requires p in s.writers && WriterOrderly(hash, s, p, s.writers[p].pc)
    requires s.writers[p].pc.StageFile?
    ensures var s' := Step(hash, s, p); p in s'.writers && WriterOrderly(hash, s', p, s'.writers[p].pc)
  {
    StepExtends(hash, s, p);
    if Complete(hash, s.dir) { CompleteStable(hash, s, Step(hash, s, p)); }
    var t := s.writers[p].pc.txn;
    assert Step(hash, s, p).dir.stages[t].Keys == s.dir.stages[t].Keys + {s.writers[p].pc.key};
  }

  lemma MoverLinking(hash: Hash, s: System, p: Pid)
    requires p in s.writers && WriterOrderly(hash, s, p, s.writers[p].pc)
    requires s.writers[p].pc.LinkFile?
    ensures var s' := Step(hash, s, p); p in s'.writers && WriterOrderly(hash, s', p, s'.writers[p].pc)
  {}

  lemma MoverChecking(hash: Hash, s: System, p: Pid)
    requires p in s.writers && WriterOrderly(hash, s, p, s.writers[p].pc)
    requires s.writers[p].pc.ValidateOwn?
    ensures var s' := Step(hash, s, p); p in s'.writers && WriterOrderly(hash, s', p, s'.writers[p].pc)
  {}

  lemma MoverDiscarding(hash: Hash, s: System, p: Pid)
    requires p in s.writers && WriterOrderly(hash, s, p, s.writers[p].pc)
    requires s.writers[p].pc.DiscardFile? || s.writers[p].pc.DiscardStage? || s.writers[p].pc.DropClaim?
    ensures var s' := Step(hash, s, p); p in s'.writers && WriterOrderly(hash, s', p, s'.writers[p].pc)
  {}

  lemma MoverValidating(hash: Hash, s: System, p: Pid)
    requires p in s.writers && WriterOrderly(hash, s, p, s.writers[p].pc)
    requires s.writers[p].pc.ValidateStage?
    ensures var s' := Step(hash, s, p); p in s'.writers && WriterOrderly(hash, s', p, s'.writers[p].pc)
  {}

  lemma MoverLooking(hash: Hash, s: System, p: Pid)
    requires p in s.writers && WriterOrderly(hash, s, p, s.writers[p].pc)
    requires s.writers[p].pc.RepairLook?
    ensures var s' := Step(hash, s, p); p in s'.writers && WriterOrderly(hash, s', p, s'.writers[p].pc)
  {}

  lemma MoverRepairing(hash: Hash, s: System, p: Pid)
    requires p in s.writers && WriterOrderly(hash, s, p, s.writers[p].pc)
    requires s.writers[p].pc.RepairLink?
    ensures var s' := Step(hash, s, p); p in s'.writers && WriterOrderly(hash, s', p, s'.writers[p].pc)
  {}

  lemma MoverRevalidating(hash: Hash, s: System, p: Pid)
    requires p in s.writers && WriterOrderly(hash, s, p, s.writers[p].pc)
    requires s.writers[p].pc.ValidateRecovered?
    ensures var s' := Step(hash, s, p); p in s'.writers && WriterOrderly(hash, s', p, s'.writers[p].pc)
  {}

  lemma MoverCleaning(hash: Hash, s: System, p: Pid)
    requires p in s.writers && WriterOrderly(hash, s, p, s.writers[p].pc)
    requires var pc := s.writers[p].pc;
             pc.UnlinkClaim? || pc.CleanFile? || pc.CleanStage? || pc.Release? || pc.Done? || pc.Crashed?
    ensures var s' := Step(hash, s, p); p in s'.writers && WriterOrderly(hash, s', p, s'.writers[p].pc)
  {}

  lemma MoverOrderly(hash: Hash, s: System, p: Pid)
    requires Orderly(hash, s) && p in s.writers && LocksCurrentClaim(s, Act(p))
    ensures var s' := Step(hash, s, p); p in s'.writers && WriterOrderly(hash, s', p, s'.writers[p].pc)
  {
    var pc := s.writers[p].pc;
    OrderlyReady(hash, s, p);
    if pc.CheckEntries? || pc.CheckClaim? || pc.Prepare? || pc.LinkClaim? { MoverClaiming(hash, s, p); }
    else if pc.OpenClaim? || pc.LockClaim? { MoverLocking(hash, s, p); }
    else if pc.OpenStage? || pc.Retry? { MoverOpening(hash, s, p); }
    else if pc.MakeStage? { MoverMakingStage(hash, s, p); }
    else if pc.StageFile? { MoverStaging(hash, s, p); }
    else if pc.LinkFile? { MoverLinking(hash, s, p); }
    else if pc.ValidateOwn? { MoverChecking(hash, s, p); }
    else if pc.DiscardFile? || pc.DiscardStage? || pc.DropClaim? { MoverDiscarding(hash, s, p); }
    else if pc.ValidateStage? { MoverValidating(hash, s, p); }
    else if pc.RepairLook? { MoverLooking(hash, s, p); }
    else if pc.RepairLink? { MoverRepairing(hash, s, p); }
    else if pc.ValidateRecovered? { MoverRevalidating(hash, s, p); }
    else { MoverCleaning(hash, s, p); }
  }

  /** Writers that do not hold the claim cannot make the directory harder to resume. */
  lemma IdleResumable(hash: Hash, s: System, s': System, p: Pid)
    requires Orderly(hash, s) && p in s.writers && !Holds(s.writers[p].pc) && !s.writers[p].pc.LinkClaim?
    requires Extends(s, s') && ReachStages(s, s', p) && ReachNames(s, s', p)
    ensures Resumable(hash, s'.dir)
  {
    assert WriterOrderly(hash, s, p, s.writers[p].pc);
    if Complete(hash, s.dir) { CompleteStable(hash, s, s'); }
    else if s.dir.claim.Some? {
      var t := s.dir.files[s.dir.claim.value].txn;
      assert (t in s.dir.stages) == (t in s'.dir.stages);
      assert t in s.dir.stages ==> s'.dir.stages[t] == s.dir.stages[t];
    }
  }

  lemma StagingResumable(hash: Hash, s: System, p: Pid)
    requires Orderly(hash, s) && p in s.writers && !Complete(hash, s.dir)
    requires var pc := s.writers[p].pc; pc.LinkClaim? || pc.MakeStage? || pc.StageFile? || pc.LinkFile?
    ensures Resumable(hash, Step(hash, s, p).dir)
  {
    assert WriterOrderly(hash, s, p, s.writers[p].pc) && WriterSafe(hash, s, s.writers[p]);
    match s.writers[p].pc {
      case LinkClaim(t, i) =>
      case MakeStage(t, i) =>
      case StageFile(k, t, i) =>
      case LinkFile(k, t, i) => LinkResumable(hash, s, p);
    }
  }

  lemma LinkResumable(hash: Hash, s: System, p: Pid)
    requires Orderly(hash, s) && p in s.writers && !Complete(hash, s.dir)
    requires s.writers[p].pc.LinkFile? || s.writers[p].pc.RepairLink?
    ensures Resumable(hash, Step(hash, s, p).dir)
  {
    var pc, s' := s.writers[p].pc, Step(hash, s, p);
    assert WriterOrderly(hash, s, p, pc) && WriterSafe(hash, s, s.writers[p]);
    PublicStays(hash, s, p);
    assert FullStage(s.dir, pc.txn) && s.dir.claim == Some(pc.ino) && !Abandoned(s.dir, pc.txn);
    assert PublicIsStaged(s.dir, pc.txn);
    assert s'.dir.stages == s.dir.stages && s'.dir.files == s.dir.files && s'.dir.claim == s.dir.claim;
    if Marker !in s'.dir.public { assert PublicIsStaged(s'.dir, pc.txn); }
  }

  lemma DiscardResumable(hash: Hash, s: System, p: Pid)
    requires Orderly(hash, s) && p in s.writers && !Complete(hash, s.dir)
    requires s.writers[p].pc.DiscardFile? || s.writers[p].pc.DiscardStage? || s.writers[p].pc.DropClaim?
    ensures Resumable(hash, Step(hash, s, p).dir)
  {
    assert WriterOrderly(hash, s, p, s.writers[p].pc);
    assert s.dir.public == map[];
  }

  lemma StepResumable(hash: Hash, s: System, p: Pid)
    requires Orderly(hash, s) && p in s.writers
    ensures Resumable(hash, Step(hash, s, p).dir)
  {
    var pc := s.writers[p].pc;
    StepExtends(hash, s, p);
    if Complete(hash, s.dir) { CompleteStable(hash, s, Step(hash, s, p)); }
    else if !Holds(pc) && !pc.LinkClaim? {
      StepReachStages(hash, s, p);
      StepReachNames(hash, s, p);
      IdleResumable(hash, s, Step(hash, s, p), p);
    }
    else if pc.LinkClaim? || pc.MakeStage? || pc.StageFile? || pc.LinkFile? { StagingResumable(hash, s, p); }
    else if pc.RepairLink? { LinkResumable(hash, s, p); }
    else if pc.DiscardFile? || pc.DiscardStage? || pc.DropClaim? { DiscardResumable(hash, s, p); }
    else {
      assert WriterOrderly(hash, s, p, pc);
      assert Step(hash, s, p).dir.(locks := map[]) == s.dir.(locks := map[]);
    }
  }

  /** A step of a writer keeps its transaction, drops it, draws a new one, or takes that of a claim it locked. */
  ghost predicate Moves(s: System, pc: Pc, pc': Pc) {
    && (HasTxn(pc') ==> (HasTxn(pc) && pc'.txn == pc.txn) || (pc.Prepare? && pc'.txn == |s.intents|) || pc.LockClaim?)
    && (pc'.LinkClaim? ==> pc.Prepare? && pc'.txn == |s.intents| && pc'.ino == |s.dir.files|)
    && (pc'.LockClaim? ==> pc.OpenClaim? && s.dir.claim == Some(pc'.ino))
    && (pc.LockClaim? && HasTxn(pc') ==>
          pc.ino !in s.dir.locks && pc.ino < |s.dir.files| && s.dir.files[pc.ino] == ClaimRecord(pc'.txn))
  }

  lemma StepMoves(hash: Hash, s: System, p: Pid)
    requires p in s.writers
    ensures p in Step(hash, s, p).writers && Moves(s, s.writers[p].pc, Step(hash, s, p).writers[p].pc)
  {
    match s.writers[p].pc {
      case LinkClaim(t, i) =>
      case StageFile(k, t, i) =>
      case LinkFile(k, t, i) =>
      case RepairLook(k, t, i, m) =>
      case RepairLink(k, t, i, m) =>
      case _ =>
    }
  }

  lemma StepApart(hash: Hash, s: System, p: Pid, q: Pid, pc': Pc)
    requires Orderly(hash, s) && p in s.writers && q in s.writers && p != q && LocksCurrentClaim(s, Act(p))
    requires Moves(s, s.writers[p].pc, pc')
    ensures Apart(pc', s.writers[q].pc) && Apart(s.writers[q].pc, pc')
  {
    var pc, qc := s.writers[p].pc, s.writers[q].pc;
    assert WriterOrderly(hash, s, p, pc) && WriterOrderly(hash, s, q, qc);
    assert Apart(pc, qc) && Apart(qc, pc);
  }

  /** Table-level facts of `Orderly` after a step: nothing refers past the end of a table. */
  lemma StepTables(hash: Hash, s: System, p: Pid)
    requires Orderly(hash, s) && p in s.writers
    ensures var s' := Step(hash, s, p);
            && (s'.dir.claim.Some? ==>
                  s'.dir.claim.value < |s'.dir.files| && s'.dir.files[s'.dir.claim.value].ClaimRecord?
                  && s'.dir.files[s'.dir.claim.value].txn < |s'.intents|)
            && (forall t :: t in s'.dir.stages ==> t < |s'.intents|)
            && (forall i :: i in s'.dir.locks ==> i < |s'.dir.files|)
  {
    StepExtends(hash, s, p);
    StepReachStages(hash, s, p);
    StepReachNames(hash, s, p);
    StepLocks(hash, s, p);
    assert WriterOrderly(hash, s, p, s.writers[p].pc);
    forall i | i in Step(hash, s, p).dir.locks ensures i < |Step(hash, s, p).dir.files| {
      StepLockRange(hash, s, p, i);
    }
  }

  lemma StepLockRange(hash: Hash, s: System, p: Pid, i: Inode)
    requires p in s.writers && i in Step(hash, s, p).dir.locks
    requires forall j :: j in s.dir.locks ==> j < |s.dir.files|
    ensures i < |Step(hash, s, p).dir.files|
  {
    match s.writers[p].pc {
      case Prepare =>
      case LockClaim(j) =>
      case StageFile(k, t, j) =>
      case _ =>
    }
  }

  lemma StepOrderly(hash: Hash, s: System, p: Pid)
    requires Orderly(hash, s) && p in s.writers && LocksCurrentClaim(s, Act(p))
    ensures Orderly(hash, Step(hash, s, p))
  {
    StepSafe(hash, s, p);
    StepResumable(hash, s, p);
    StepTables(hash, s, p);
    StepMoves(hash, s, p);
    MoverOrderly(hash, s, p);
    OthersWait(hash, s, p);
    StepExtends(hash, s, p);
    StepReachStages(hash, s, p);
    StepReachNames(hash, s, p);
    OrderlyAgain(hash, s, Step(hash, s, p), p);
  }

  lemma OrderlyAgain(hash: Hash, s: System, s': System, p: Pid)
    requires Orderly(hash, s) && p in s.writers && LocksCurrentClaim(s, Act(p))
    requires Safe(hash, s') && Resumable(hash, s'.dir)
    requires s'.dir.claim.Some? ==>
               s'.dir.claim.value < |s'.dir.files| && s'.dir.files[s'.dir.claim.value].ClaimRecord?
               && s'.dir.files[s'.dir.claim.value].txn < |s'.intents|
    requires forall t :: t in s'.dir.stages ==> t < |s'.intents|
    requires forall i :: i in s'.dir.locks ==> i < |s'.dir.files|
    requires Extends(s, s') && ReachStages(s, s', p) && ReachNames(s, s', p)
    requires s'.writers.Keys == s.writers.Keys && forall q :: q in s.writers && q != p ==> s'.writers[q] == s.writers[q]
    requires WriterOrderly(hash, s', p, s'.writers[p].pc) && Moves(s, s.writers[p].pc, s'.writers[p].pc)
    ensures Orderly(hash, s')
  {
    forall q | q in s'.writers ensures WriterOrderly(hash, s', q, s'.writers[q].pc) {
      if q != p { OtherOrderly(hash, s, s', p, q); }
    }
    forall q, r | q in s'.writers && r in s'.writers && q != r ensures Apart(s'.writers[q].pc, s'.writers[r].pc) {
      if q == p { StepApart(hash, s, p, r, s'.writers[p].pc); }
      else if r == p { StepApart(hash, s, p, q, s'.writers[p].pc); }
    }
  }

  lemma ArriveOrderly(hash: Hash, s: System, p: Pid, intent: Intent)
    requires Orderly(hash, s)
    ensures Orderly(hash, Apply(hash, s, Arrive(p, intent)))
  {
    var s' := Apply(hash, s, Arrive(p, intent));
    ApplySafe(hash, s, Arrive(p, intent));
    forall q | q in s'.writers ensures WriterOrderly(hash, s', q, s'.writers[q].pc) {
      if q in s.writers { assert WriterOrderly(hash, s, q, s.writers[q].pc); }
    }
    forall q, r | q in s'.writers && r in s'.writers && q != r ensures Apart(s'.writers[q].pc, s'.writers[r].pc) {
      if q in s.writers && r in s.writers { assert Apart(s.writers[q].pc, s.writers[r].pc); }
    }
  }

  /** The locks of others are none of a writer's concern. */
  lemma UnlockedOrderly(hash: Hash, s: System, s': System, p: Pid, q: Pid, pc: Pc)
    requires WriterOrderly(hash, s, q, pc) && q != p
    requires s'.dir == s.dir.(locks := Unlock(s.dir.locks, p)) && s'.intents == s.intents
    ensures WriterOrderly(hash, s', q, pc)
  {}

  lemma CrashOrderly(hash: Hash, s: System, p: Pid)
    requires Orderly(hash, s)
    ensures Orderly(hash, Apply(hash, s, Crash(p)))
  {
    var s' := Apply(hash, s, Crash(p));
    ApplySafe(hash, s, Crash(p));
    if s' != s {
      CrashedApart(s, s', p);
      forall q | q in s'.writers ensures WriterOrderly(hash, s', q, s'.writers[q].pc) {
        if q != p { UnlockedOrderly(hash, s, s', p, q, s.writers[q].pc); }
      }
    }
  }

  lemma CrashedApart(s: System, s': System, p: Pid)
    requires p in s.writers && s'.writers == s.writers[p := s.writers[p].(pc := Crashed)]
    requires forall q, r :: q in s.writers && r in s.writers && q != r ==> Apart(s.writers[q].pc, s.writers[r].pc)
    ensures forall q, r :: q in s'.writers && r in s'.writers && q != r ==> Apart(s'.writers[q].pc, s'.writers[r].pc)
  {
    forall q, r | q in s'.writers && r in s'.writers && q != r ensures Apart(s'.writers[q].pc, s'.writers[r].pc) {
      assert Apart(s.writers[q].pc, s.writers[r].pc);
    }
  }

  /** Crashes anywhere, writers and recoverers interleaved anyhow: as long as every claim lock is taken on
      the inode the claim name refers to, the directory can be resumed with the original bytes. */
  lemma {:induction false} DisciplinedRunsResumable(hash: Hash, run: seq<Event>)
    requires Disciplined(hash, run)
    ensures Orderly(hash, Execute(hash, EMPTY, run))
    ensures Resumable(hash, Execute(hash, EMPTY, run).dir) && Recoverable(hash, Execute(hash, EMPTY, run).dir)
  {
    if run != [] {
      var s, e := Execute(hash, EMPTY, run[..|run| - 1]), run[|run| - 1];
      DisciplinedRunsResumable(hash, run[..|run| - 1]);
      match e {
        case Arrive(p, intent) => ArriveOrderly(hash, s, p, intent);
        case Crash(p) => CrashOrderly(hash, s, p);
        case Act(p) => if p in s.writers { StepOrderly(hash, s, p); }
      }
    }
    ResumableRecoverable(hash, Execute(hash, EMPTY, run));
  }

  lemma ResumableRecoverable(hash: Hash, s: System)
    requires Safe(hash, s) && Resumable(hash, s.dir)
    ensures Recoverable(hash, s.dir)
  {}
}
