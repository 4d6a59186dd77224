/**
Safety of publication over every interleaving: no mutual exclusion is assumed
here, so the results hold even when two writers believe they own the claim.
*/
module PublicationSafety {
  import opened PublicationModel

  /** A stage directory holds nothing but what its own transaction set out to publish. */
  ghost predicate StagesFaithful(hash: Hash, s: System) {
    && (forall t :: t in s.dir.stages ==> t < |s.intents|)
    && forall t, k :: t in s.dir.stages && k in s.dir.stages[t] ==>
      && t < |s.intents|
      && s.dir.stages[t][k] < |s.dir.files|
      && s.dir.files[s.dir.stages[t][k]] == Staged(hash, t, s.intents[t], k)
  }

  /** Every name refers to a file of the kind it stands for. */
  ghost predicate NamesTyped(d: Directory) {
    && (d.claim.Some? ==> d.claim.value < |d.files| && d.files[d.claim.value].ClaimRecord?)
    && forall k :: k in d.public ==>
      d.public[k] < |d.files| && (if k == Marker then d.files[d.public[k]].Manifest? else d.files[d.public[k]].Text?)
  }

  /** The completion marker is never visible without the files whose digests it records. */
  ghost predicate Sealed(hash: Hash, d: Directory) {
    Marker in d.public ==> Complete(hash, d)
  }

  /** The public file `key` carries the digest transaction `t` intends for it. */
  ghost predicate Carries(hash: Hash, s: System, t: Txn, key: Key) {
    && t < |s.intents|
    && HasDigest(hash, s.dir.files, s.dir.public, key,
                 hash(if key == Markdown then s.intents[t].markdown else s.intents[t].json))
  }

  /** What a writer about to link `key` has already seen in public. */
  ghost predicate Ahead(hash: Hash, s: System, t: Txn, key: Key) {
    && t < |s.intents|
    && (key != Markdown ==> Carries(hash, s, t, Markdown))
    && (key == Marker ==> Carries(hash, s, t, Json))
  }

  ghost predicate WriterSafe(hash: Hash, s: System, w: Writer) {
    match w.pc
    case LinkClaim(t, i) =>
      t < |s.intents| && s.intents[t] == w.intent && i < |s.dir.files| && s.dir.files[i] == ClaimRecord(t)
    case MakeStage(t, _) => t < |s.intents| && s.intents[t] == w.intent
    case StageFile(_, t, _) => t < |s.intents| && s.intents[t] == w.intent
    case LinkFile(k, t, _) => Ahead(hash, s, t, k)
    case RepairLook(k, t, _, m) => Ahead(hash, s, t, k) && m == Staged(hash, t, s.intents[t], Marker)
    case RepairLink(k, t, _, m) => Ahead(hash, s, t, k) && m == Staged(hash, t, s.intents[t], Marker)
    case _ => true
  }

  ghost predicate Safe(hash: Hash, s: System) {
    && StagesFaithful(hash, s)
    && NamesTyped(s.dir)
    && Sealed(hash, s.dir)
    && forall p :: p in s.writers ==> WriterSafe(hash, s, s.writers[p])
  }

  /** Nothing recorded in `s` is lost or changed in `s'`. */
  ghost predicate Extends(s: System, s': System) {
    && s.dir.files <= s'.dir.files
    && s.intents <= s'.intents
    && forall k :: k in s.dir.public ==> k in s'.dir.public && s'.dir.public[k] == s.dir.public[k]
  }

  /** The program points that only look, wait or leave: at most a lock changes. */
  predicate Quiet(pc: Pc) {
    || pc.CheckEntries? || pc.CheckClaim? || pc.OpenClaim? || pc.LockClaim? || pc.ValidateOwn? || pc.OpenStage?
    || pc.Retry? || pc.ValidateStage? || pc.RepairLook? || pc.ValidateRecovered? || pc.Release?
    || pc.Done? || pc.Crashed?
  }

  lemma QuietStep(hash: Hash, s: System, pid: Pid)
    requires pid in s.writers && Quiet(s.writers[pid].pc)
    ensures var s' := Step(hash, s, pid);
            s'.dir == s.dir.(locks := s'.dir.locks) && s'.intents == s.intents
  {}

  lemma StepExtends(hash: Hash, s: System, pid: Pid)
    requires pid in s.writers
    ensures Extends(s, Step(hash, s, pid))
  {
    if Quiet(s.writers[pid].pc) { QuietStep(hash, s, pid); } else { LoudExtends(hash, s, pid); }
  }

  lemma LoudExtends(hash: Hash, s: System, pid: Pid)
    requires pid in s.writers && !Quiet(s.writers[pid].pc)
    ensures Extends(s, Step(hash, s, pid))
  {
    match s.writers[pid].pc {
      case LinkFile(k, t, _) =>
      case RepairLink(k, t, _, _) =>
      case _ =>
    }
  }

  lemma ApplyExtends(hash: Hash, s: System, e: Event)
    ensures Extends(s, Apply(hash, s, e))
  {
    if e.Act? && e.pid in s.writers { StepExtends(hash, s, e.pid); }
  }

  lemma WriterStable(hash: Hash, s: System, s': System, w: Writer)
    requires Extends(s, s') && WriterSafe(hash, s, w)
    ensures WriterSafe(hash, s', w)
  {}

  lemma OthersWait(hash: Hash, s: System, pid: Pid)
    requires pid in s.writers
    ensures Step(hash, s, pid).writers.Keys == s.writers.Keys
    ensures forall p :: p in s.writers && p != pid ==> Step(hash, s, pid).writers[p] == s.writers[p]
  {
    match s.writers[pid].pc {
      case LinkFile(k, t, _) =>
      case RepairLink(k, t, _, _) =>
      case _ =>
    }
  }

  lemma LinkerSafe(hash: Hash, s: System, pid: Pid)
    requires Safe(hash, s) && pid in s.writers
    requires s.writers[pid].pc.StageFile? || s.writers[pid].pc.LinkFile?
    ensures pid in Step(hash, s, pid).writers
    ensures WriterSafe(hash, Step(hash, s, pid), Step(hash, s, pid).writers[pid])
  {
    assert WriterSafe(hash, s, s.writers[pid]);
  }

  lemma RepairerSafe(hash: Hash, s: System, pid: Pid)
    requires Safe(hash, s) && pid in s.writers
    requires s.writers[pid].pc.ValidateStage? || s.writers[pid].pc.RepairLook? || s.writers[pid].pc.RepairLink?
    ensures pid in Step(hash, s, pid).writers
    ensures WriterSafe(hash, Step(hash, s, pid), Step(hash, s, pid).writers[pid])
  {
    assert WriterSafe(hash, s, s.writers[pid]);
  }

  /** The writer that moved is safe again after its step. */
  lemma MoverSafe(hash: Hash, s: System, pid: Pid)
    requires Safe(hash, s) && pid in s.writers
    ensures pid in Step(hash, s, pid).writers
    ensures WriterSafe(hash, Step(hash, s, pid), Step(hash, s, pid).writers[pid])
  {
    var pc := s.writers[pid].pc;
    assert WriterSafe(hash, s, s.writers[pid]);
    if pc.StageFile? || pc.LinkFile? { LinkerSafe(hash, s, pid); }
    else if pc.ValidateStage? || pc.RepairLook? || pc.RepairLink? { RepairerSafe(hash, s, pid); }
  }

  /** The program points that touch a stage directory. */
  predicate TouchesStage(pc: Pc) {
    pc.MakeStage? || pc.StageFile? || pc.DiscardFile? || pc.DiscardStage? || pc.CleanFile? || pc.CleanStage?
  }

  lemma StagesUntouched(hash: Hash, s: System, pid: Pid)
    requires pid in s.writers && !TouchesStage(s.writers[pid].pc)
    ensures Step(hash, s, pid).dir.stages == s.dir.stages
  {
    if Quiet(s.writers[pid].pc) { QuietStep(hash, s, pid); }
  }

  lemma StagesShrink(hash: Hash, s: System, pid: Pid)
    requires Safe(hash, s) && pid in s.writers
    requires TouchesStage(s.writers[pid].pc) && !s.writers[pid].pc.MakeStage? && !s.writers[pid].pc.StageFile?
    ensures StagesFaithful(hash, Step(hash, s, pid))
  {
    OnlyRemoves(hash, s, pid);
    FewerFaithful(hash, s, Step(hash, s, pid));
  }

  /** Fewer stages with fewer entries. */
  predicate Fewer(d: Directory, d': Directory) {
    forall t :: t in d'.stages ==>
      t in d.stages && forall k :: k in d'.stages[t] ==> k in d.stages[t] && d'.stages[t][k] == d.stages[t][k]
  }

  lemma OnlyRemoves(hash: Hash, s: System, pid: Pid)
    requires pid in s.writers
    requires TouchesStage(s.writers[pid].pc) && !s.writers[pid].pc.MakeStage? && !s.writers[pid].pc.StageFile?
    ensures var s' := Step(hash, s, pid); Fewer(s.dir, s'.dir) && s'.dir.files == s.dir.files && s'.intents == s.intents
  {}

  lemma FewerFaithful(hash: Hash, s: System, s': System)
    requires StagesFaithful(hash, s) && Fewer(s.dir, s'.dir) && s'.dir.files == s.dir.files && s'.intents == s.intents
    ensures StagesFaithful(hash, s')
  {}

  lemma StagesStay(hash: Hash, s: System, pid: Pid)
    requires Safe(hash, s) && pid in s.writers
    ensures StagesFaithful(hash, Step(hash, s, pid))
  {
    var pc := s.writers[pid].pc;
    if pc.MakeStage? || pc.StageFile? { StagesGrow(hash, s, pid); }
    else if TouchesStage(pc) { StagesShrink(hash, s, pid); }
    else {
      StepExtends(hash, s, pid);
      StagesUntouched(hash, s, pid);
      FaithfulStable(hash, s, Step(hash, s, pid));
    }
  }

  lemma FaithfulStable(hash: Hash, s: System, s': System)
    requires StagesFaithful(hash, s) && Extends(s, s') && s'.dir.stages == s.dir.stages
    ensures StagesFaithful(hash, s')
  {}

  lemma StagesGrow(hash: Hash, s: System, pid: Pid)
    requires Safe(hash, s) && pid in s.writers
    requires s.writers[pid].pc.MakeStage? || s.writers[pid].pc.StageFile?
    ensures StagesFaithful(hash, Step(hash, s, pid))
  {
    assert WriterSafe(hash, s, s.writers[pid]);
  }

  lemma NamesStayTyped(hash: Hash, s: System, pid: Pid)
    requires Safe(hash, s) && pid in s.writers
    ensures NamesTyped(Step(hash, s, pid).dir)
  {
    assert WriterSafe(hash, s, s.writers[pid]);
    StepExtends(hash, s, pid);
  }

  lemma PublicStays(hash: Hash, s: System, pid: Pid)
    requires Safe(hash, s) && pid in s.writers
    ensures NamesTyped(Step(hash, s, pid).dir) && Sealed(hash, Step(hash, s, pid).dir)
  {
    assert WriterSafe(hash, s, s.writers[pid]);
    StepExtends(hash, s, pid);
    NamesStayTyped(hash, s, pid);
  }

  lemma SafeAgain(hash: Hash, s: System, s': System, pid: Pid)
    requires Safe(hash, s) && Extends(s, s')
    requires StagesFaithful(hash, s') && NamesTyped(s'.dir) && Sealed(hash, s'.dir)
    requires forall p :: p in s'.writers && p != pid ==> p in s.writers && s'.writers[p] == s.writers[p]
    requires pid in s'.writers ==> WriterSafe(hash, s', s'.writers[pid])
    ensures Safe(hash, s')
  {
    forall p | p in s'.writers ensures WriterSafe(hash, s', s'.writers[p]) {
      if p != pid { WriterStable(hash, s, s', s.writers[p]); }
    }
  }

  lemma StepSafe(hash: Hash, s: System, pid: Pid)
    requires Safe(hash, s) && pid in s.writers
    ensures Safe(hash, Step(hash, s, pid))
  {
    StepExtends(hash, s, pid);
    StagesStay(hash, s, pid);
    PublicStays(hash, s, pid);
    OthersWait(hash, s, pid);
    MoverSafe(hash, s, pid);
    SafeAgain(hash, s, Step(hash, s, pid), pid);
  }

  lemma ApplySafe(hash: Hash, s: System, e: Event)
    requires Safe(hash, s)
    ensures Safe(hash, Apply(hash, s, e))
  {
    if e.Act? && e.pid in s.writers { StepSafe(hash, s, e.pid); }
    else {
      ApplyExtends(hash, s, e);
      SafeAgain(hash, s, Apply(hash, s, e), e.pid);
    }
  }

  /** Whatever writers arrive, however their file calls interleave and wherever they crash: a visible
      marker means a markdown and a JSON file are visible with exactly the digests it records. */
  lemma {:induction false} MarkerImpliesFiles(hash: Hash, run: seq<Event>)
    ensures Safe(hash, Execute(hash, EMPTY, run))
    ensures Marker in Execute(hash, EMPTY, run).dir.public ==> Complete(hash, Execute(hash, EMPTY, run).dir)
  {
    if run != [] {
      MarkerImpliesFiles(hash, run[..|run| - 1]);
      ApplySafe(hash, Execute(hash, EMPTY, run[..|run| - 1]), run[|run| - 1]);
    }
  }

  /** A public file, once linked, keeps its inode and its bytes for the rest of every run. */
  lemma {:induction false} PublicNeverChanges(hash: Hash, s: System, run: seq<Event>, key: Key)
    requires Resolves(s.dir.files, s.dir.public, key)
    ensures var d := Execute(hash, s, run).dir;
            && Resolves(d.files, d.public, key)
            && d.public[key] == s.dir.public[key]
            && d.files[d.public[key]] == s.dir.files[s.dir.public[key]]
  {
    ExecuteExtends(hash, s, run);
  }

  lemma {:induction false} ExecuteExtends(hash: Hash, s: System, run: seq<Event>)
    ensures Extends(s, Execute(hash, s, run))
  {
    if run != [] {
      ExecuteExtends(hash, s, run[..|run| - 1]);
      ApplyExtends(hash, Execute(hash, s, run[..|run| - 1]), run[|run| - 1]);
    }
  }
}
