/**
The next writer alone: what `atomic_write_pair` does, from any directory a run
can leave behind, when nobody else is active.  It brings the archive to
completion exactly from the `Recoverable` directories.
*/
module PublicationTakeover {
  import opened Prelude
  import opened PublicationModel
  import opened PublicationSafety
  import opened PublicationRecovery

  /** File calls left at most; recovery that abandons a claim goes round the retry loop once. */
  function Rank(claimed: bool, pc: Pc): nat {
    match pc
    case CheckEntries => 53
    case CheckClaim => 52
    case Prepare => if claimed then 51 else 40
    case LinkClaim(_, _) => if claimed then 50 else 39
    case OpenClaim => 49
    case LockClaim(_) => 48
    case OpenStage(_, _) => 47
    case DiscardFile(k, _, _) => 46 - Position(k)
    case DiscardStage(_, _) => 43
    case DropClaim(_, _) => 42
    case Retry => 41
    case ValidateStage(_, _) => 46
    case RepairLook(k, _, _, _) => 45 - 2 * Position(k)
    case RepairLink(k, _, _, _) => 44 - 2 * Position(k)
    case ValidateRecovered(_, _) => 39
    case MakeStage(_, _) => 38
    case StageFile(k, _, _) => 37 - Position(k)
    case LinkFile(k, _, _) => 34 - Position(k)
    case ValidateOwn(_, _) => 31
    case UnlinkClaim(_, _, _) => 30
    case CleanFile(k, _, _) => 29 - Position(k)
    case CleanStage(_, _) => 26
    case Release(_) => 25
    case Done(_) => 0
    case Crashed => 0
  }

  function Position(key: Key): nat {
    match key case Markdown => 0 case Json => 1 case Marker => 2
  }

  predicate SameName(now: map<Key, Inode>, was: map<Key, Inode>, key: Key) {
    if key in was then key in now && now[key] == was[key] else key !in now
  }

  /** One public name of the writer's own transaction: linked from its stage if `done`, else as found. */
  predicate OwnName(d: Directory, was: map<Key, Inode>, names: map<Key, Inode>, key: Key, done: bool) {
    if done then key !in was && key in d.public && key in names && d.public[key] == names[key]
    else SameName(d.public, was, key)
  }

  /** Every name before `k` is linked from the stage of `t`; the others are as found. */
  predicate LinkedOwn(d: Directory, was: map<Key, Inode>, t: Txn, k: Key) {
    && t in d.stages
    && OwnName(d, was, d.stages[t], Markdown, k != Markdown)
    && OwnName(d, was, d.stages[t], Json, k == Marker)
    && OwnName(d, was, d.stages[t], Marker, false)
  }

  /** One public name during recovery: as found, or supplied from the crashed transaction's stage if `done`. */
  predicate RepairedName(d: Directory, was: Directory, names: map<Key, Inode>, key: Key, done: bool) {
    if done && key !in was.public then key in names && key in d.public && d.public[key] == names[key]
    else SameName(d.public, was.public, key)
  }

  /** Every name before `k` is public, taken from the stage of `t` where it was missing. */
  predicate Repaired(d: Directory, was: Directory, t: Txn, k: Key) {
    && t in was.stages
    && RepairedName(d, was, was.stages[t], Markdown, k != Markdown)
    && RepairedName(d, was, was.stages[t], Json, k == Marker)
    && RepairedName(d, was, was.stages[t], Marker, false)
  }

  /** A stage that holds exactly the files before `k`. */
  predicate StagedBefore(names: map<Key, Inode>, k: Key) {
    (Markdown in names <==> k != Markdown) && (Json in names <==> k == Marker) && Marker !in names
  }

  predicate ClaimOf(d: Directory, t: Txn, i: Inode) {
    d.claim == Some(i) && i < |d.files| && d.files[i] == ClaimRecord(t)
  }

  /** The public archive is what `intent` set out to publish. */
  predicate Carried(hash: Hash, d: Directory, intent: Intent, t: Txn) {
    && Shows(d, Markdown, Text(intent.markdown))
    && Shows(d, Json, Text(intent.json))
    && Shows(d, Marker, Manifest(t, hash(intent.markdown), hash(intent.json)))
  }

  /** The public name refers to a file with this content. */
  predicate Shows(d: Directory, key: Key, file: File) {
    Resolves(d.files, d.public, key) && d.files[d.public[key]] == file
  }

  /** The archive of the claimed transaction: what was already public, and the rest from its stage. */
  predicate Finished(d: Directory, was: Directory) {
    && was.claim.Some? && was.claim.value < |was.files| && was.files[was.claim.value].ClaimRecord?
    && var t := was.files[was.claim.value].txn;
       && FullStage(was, t)
       && RepairedName(d, was, was.stages[t], Markdown, true)
       && RepairedName(d, was, was.stages[t], Json, true)
       && RepairedName(d, was, was.stages[t], Marker, true)
  }

  /** The file found under `key`, if any, carries the digest the staged manifest records. */
  predicate Agrees(hash: Hash, was: Directory, m: File, key: Key) {
    key in was.public ==> HasDigest(hash, was.files, was.public, key, Recorded(m, key))
  }

  predicate OnlyMine(d: Directory, p: Pid) {
    forall i :: i in d.locks ==> d.locks[i] == p && i < |d.files|
  }

  /** The claimed transaction had staged all it set out to publish. */
  predicate StageWaits(d: Directory) {
    && d.claim.Some? && d.claim.value < |d.files| && d.files[d.claim.value].ClaimRecord?
    && FullStage(d, d.files[d.claim.value].txn)
  }

  /** The stage of the transaction the claim names, if there is one. */
  function ClaimedTxn(d: Directory): set<Txn> {
    if d.claim.Some? && d.claim.value < |d.files| && d.files[d.claim.value].ClaimRecord?
    then {d.files[d.claim.value].txn} else {}
  }

  /** The stages that are no business of whoever takes over the claim. */
  function OtherStages(d: Directory): map<Txn, map<Key, Inode>> { d.stages - ClaimedTxn(d) }

  /** Apart from the stage of `t`, the stages are those of others; that of `t` may still be there. */
  predicate StagesBut(d: Directory, was: Directory, t: Txn) {
    t !in OtherStages(was) && d.stages - {t} == OtherStages(was)
  }

  /** So far the stage of `t` has lost the files before `k`. */
  predicate Emptied(d: Directory, t: Txn, k: Key) {
    t in d.stages ==>
      && (k != Markdown ==> Markdown !in d.stages[t])
      && (k == Marker ==> Json !in d.stages[t])
  }

  /** Nothing public has changed, and the writer's own transaction can succeed only on untouched names. */
  predicate OwnTurn(d: Directory, was: Directory, good: bool, p: Pid) {
    && OnlyMine(d, p)
    && d.public == was.public
    && Marker !in was.public && !StageWaits(was) && MayStart(was, good)
    && (good <==> was.public == map[])
  }

  /** A transaction of one's own is begun on untouched names, or after a claim whose transaction got nowhere. */
  predicate MayStart(was: Directory, good: bool) {
    && (was.claim.None? ==> good)
    && AbandonedClaim(was)
  }

  /** Stages, claim and public names are as they were. */
  predicate Untouched(d: Directory, was: Directory) {
    d.public == was.public && d.claim == was.claim && d.stages == was.stages
  }

  /** The directory is as found, except for inodes nobody names yet. */
  predicate AsFound(d: Directory, was: Directory, p: Pid) {
    && OnlyMine(d, p)
    && d.public == was.public && d.claim == was.claim && d.stages == was.stages
    && Marker !in was.public
  }

  predicate Mine(s: System, t: Txn, intent: Intent) {
    t < |s.intents| && s.intents[t] == intent
  }

  /** Repair of transaction `t` has dealt with every key before `k`. */
  ghost predicate Repairing(hash: Hash, s: System, was: Directory, good: bool, t: Txn, i: Inode, m: File, k: Key) {
    && Marker !in was.public
    && ClaimOf(was, t, i) && s.dir.claim == was.claim && s.dir.stages == was.stages
    && FullStage(was, t) && was.stages[t][Marker] < |was.files|
    && m == was.files[was.stages[t][Marker]]
    && Repaired(s.dir, was, t, k)
    && (good <==> Agrees(hash, was, m, Markdown) && Agrees(hash, was, m, Json))
    && (k != Markdown ==> Agrees(hash, was, m, Markdown))
    && (k == Marker ==> Agrees(hash, was, m, Json))
  }

  /** What the lone writer knows at each program point about the directory `was` it found; `good` says
      whether that directory was recoverable. */
  ghost predicate Alone(hash: Hash, was: Directory, good: bool, s: System, p: Pid, w: Writer) {
    var d := s.dir;
    match w.pc
    case CheckEntries => d == was && d.locks == map[]
    case CheckClaim => d == was && d.locks == map[] && Marker !in was.public && was.public != map[]
    case Prepare =>
      && d.locks == map[]
      && (if d.claim.None? then OwnTurn(d, was, good, p) && d.stages == OtherStages(was) else AsFound(d, was, p))
    case LinkClaim(t, i) =>
      && t !in d.stages && Mine(s, t, w.intent)
      && (if d.claim.None? then OwnTurn(d, was, good, p) && d.stages == OtherStages(was) else AsFound(d, was, p))
    case OpenClaim => AsFound(d, was, p) && d.locks == map[] && was.claim.Some?
    case LockClaim(i) => AsFound(d, was, p) && d.locks == map[] && was.claim == Some(i)
    case OpenStage(t, i) => AsFound(d, was, p) && ClaimOf(was, t, i)
    case DiscardFile(k, t, _) => OwnTurn(d, was, good, p) && StagesBut(d, was, t) && Emptied(d, t, k)
    case DiscardStage(t, _) =>
      OwnTurn(d, was, good, p) && StagesBut(d, was, t) && (t in d.stages ==> d.stages[t] == map[])
    case DropClaim(_, _) => OwnTurn(d, was, good, p) && d.stages == OtherStages(was)
    case Retry => OwnTurn(d, was, good, p) && d.claim.None? && d.stages == OtherStages(was)
    case MakeStage(t, _) =>
      OwnTurn(d, was, good, p) && t !in d.stages && d.stages == OtherStages(was) && Mine(s, t, w.intent)
    case StageFile(k, t, _) =>
      && OwnTurn(d, was, good, p) && StagesBut(d, was, t)
      && t in d.stages && StagedBefore(d.stages[t], k) && Mine(s, t, w.intent)
    case LinkFile(k, t, _) =>
      && StagesBut(d, was, t)
      && Marker !in was.public && !StageWaits(was) && MayStart(was, good) && (good <==> was.public == map[])
      && FullStage(d, t) && LinkedOwn(d, was.public, t, k) && Mine(s, t, w.intent)
    case ValidateOwn(t, _) =>
      good && was.public == map[] && !StageWaits(was) && Carried(hash, d, w.intent, t) && StagesBut(d, was, t)
    case ValidateStage(t, i) => AsFound(d, was, p) && ClaimOf(was, t, i) && !Abandoned(was, t)
    case RepairLook(k, t, i, m) => Repairing(hash, s, was, good, t, i, m, k)
    case RepairLink(k, t, i, m) => Repairing(hash, s, was, good, t, i, m, k) && k !in was.public && k !in d.public
    case ValidateRecovered(t, _) => Settles(hash, was, good, d, w.intent, Recovered) && StagesBut(d, was, t)
    case UnlinkClaim(t, _, o) => Settles(hash, was, good, d, w.intent, o) && Ended(o) && StagesBut(d, was, t)
    case CleanFile(k, t, o) =>
      && Settles(hash, was, good, d, w.intent, o) && Ended(o) && d.claim.None?
      && StagesBut(d, was, t) && Emptied(d, t, k)
    case CleanStage(t, o) =>
      && Settles(hash, was, good, d, w.intent, o) && Ended(o) && d.claim.None?
      && StagesBut(d, was, t) && (t in d.stages ==> d.stages[t] == map[])
    case Release(o) => Settles(hash, was, good, d, w.intent, o) && Dropped(d, was, o)
    case Done(o) => Settles(hash, was, good, d, w.intent, o) && Dropped(d, was, o)
    case Crashed => false
  }

  /** What each outcome means for the directory `was` the writer found and the directory `d` it left. */
  ghost predicate Settles(hash: Hash, was: Directory, good: bool, d: Directory, intent: Intent, o: Outcome) {
    match o
    case AlreadyComplete => good && Marker in was.public && d.public == was.public
    case Recovered => good && Marker !in was.public && StageWaits(was) && Finished(d, was)
    case Published => good && was.public == map[] && !StageWaits(was) && exists t :: Carried(hash, d, intent, t)
    case Refused => !good && Marker !in d.public
  }

  /**
  A writer that published anything leaves behind no claim and neither its own stage nor the claimed one.
  One that found the archive complete leaves the directory as it was.  One that refuses leaves it too, unless
  the claim it found was that of a transaction that got nowhere, which it removes before it starts its own.
  */
  predicate Dropped(d: Directory, was: Directory, o: Outcome) {
    && (Ended(o) ==> d.claim.None? && d.stages == OtherStages(was))
    && (o == AlreadyComplete ==> Untouched(d, was))
    && (o == Refused && was.claim.None? ==> Untouched(d, was))
    && (o == Refused && !AbandonedClaim(was) ==> d.claim == was.claim && d.stages == was.stages)
  }

  /** The claim found, if any, was that of a transaction that got nowhere. */
  predicate AbandonedClaim(was: Directory) {
    was.claim.Some? ==>
      was.claim.value < |was.files| && was.files[was.claim.value].ClaimRecord?
      && Abandoned(was, was.files[was.claim.value].txn)
  }

  /** A publication was brought to its end. */
  predicate Ended(o: Outcome) { o == Recovered || o == Published }

  /** What being recoverable amounts to in each kind of directory. */
  ghost predicate GoodMeans(hash: Hash, was: Directory, good: bool) {
    && (Marker in was.public ==> good)
    && (Marker !in was.public && was.claim.None? ==> (good <==> was.public == map[]))
    && (Marker !in was.public && was.claim.Some? ==>
          && was.claim.value < |was.files| && was.files[was.claim.value].ClaimRecord?
          && var t := was.files[was.claim.value].txn;
             if Abandoned(was, t) then good <==> was.public == map[]
             else if !FullStage(was, t) then !good
             else
               && was.stages[t][Marker] < |was.files|
               && (good <==> Agrees(hash, was, was.files[was.stages[t][Marker]], Markdown)
                             && Agrees(hash, was, was.files[was.stages[t][Marker]], Json)))
  }

  /** Facts about the directory the writer found that stay in force throughout. */
  ghost predicate Found(hash: Hash, was: Directory, good: bool) {
    && NamesTyped(was) && Sealed(hash, was) && GoodMeans(hash, was, good)
    && forall t, k :: t in was.stages && k in was.stages[t] ==> was.stages[t][k] < |was.files|
  }

  lemma FoundBy(hash: Hash, s: System)
    requires Safe(hash, s)
    ensures Found(hash, s.dir, Recoverable(hash, s.dir))
  {}

  ghost predicate Turn(hash: Hash, was: Directory, good: bool, s: System, p: Pid) {
    && Safe(hash, s) && was.files <= s.dir.files && Found(hash, was, good)
    && p in s.writers && Alone(hash, was, good, s, p, s.writers[p])
  }

  ghost predicate TurnTaken(hash: Hash, was: Directory, good: bool, s: System, s': System, p: Pid)
    requires p in s.writers
  {
    && p in s'.writers && Alone(hash, was, good, s', p, s'.writers[p]) && s'.writers[p].intent == s.writers[p].intent
    && Rank(s'.dir.claim.Some?, s'.writers[p].pc) < Rank(s.dir.claim.Some?, s.writers[p].pc)
  }

  // The lemmas below pass `Alone` and `TurnTaken` on whole: comparing with `true` keeps the verifier from
  // taking these long conjunctions apart clause by clause where only their names are needed.

  lemma AloneEnters(hash: Hash, was: Directory, good: bool, s: System, p: Pid)
    requires p in s.writers && Alone(hash, was, good, s, p, s.writers[p]) == true
    requires Found(hash, was, good)
    requires s.writers[p].pc.CheckEntries? || s.writers[p].pc.CheckClaim?
    ensures TurnTaken(hash, was, good, s, Step(hash, s, p), p) == true
  {}

  lemma AlonePrepares(hash: Hash, was: Directory, good: bool, s: System, p: Pid)
    requires p in s.writers && Alone(hash, was, good, s, p, s.writers[p]) == true
    requires Safe(hash, s)
    requires s.writers[p].pc.Prepare?
    ensures TurnTaken(hash, was, good, s, Step(hash, s, p), p) == true
  {}

  lemma AloneClaims(hash: Hash, was: Directory, good: bool, s: System, p: Pid)
    requires p in s.writers && Alone(hash, was, good, s, p, s.writers[p]) == true
    requires s.writers[p].pc.LinkClaim?
    ensures TurnTaken(hash, was, good, s, Step(hash, s, p), p) == true
  {}

  lemma AloneLocks(hash: Hash, was: Directory, good: bool, s: System, p: Pid)
    requires p in s.writers && Alone(hash, was, good, s, p, s.writers[p]) == true
    requires Found(hash, was, good) && was.files <= s.dir.files
    requires s.writers[p].pc.OpenClaim? || s.writers[p].pc.LockClaim?
    ensures TurnTaken(hash, was, good, s, Step(hash, s, p), p) == true
  {}

  lemma AloneOpensStage(hash: Hash, was: Directory, good: bool, s: System, p: Pid)
    requires p in s.writers && Alone(hash, was, good, s, p, s.writers[p]) == true
    requires Found(hash, was, good) && was.files <= s.dir.files
    requires s.writers[p].pc.OpenStage?
    ensures TurnTaken(hash, was, good, s, Step(hash, s, p), p) == true
  {}

  lemma FileUnlinked(d: Directory, was: Directory, t: Txn, k: Key)
    requires StagesBut(d, was, t) && Emptied(d, t, k)
    ensures var d' := RemoveStaged(d, t, k);
            && StagesBut(d', was, t)
            && (if k == Marker then t in d'.stages ==> d'.stages[t] == map[] else Emptied(d', t, Next(k)))
  {
    var d' := RemoveStaged(d, t, k);
    assert d'.stages - {t} == d.stages - {t};
    if k == Marker && t in d'.stages {
      forall x ensures x !in d'.stages[t] { match x case Markdown => case Json => case Marker => }
    }
  }

  lemma StageRemoved(d: Directory, was: Directory, t: Txn)
    requires StagesBut(d, was, t) && (t in d.stages ==> d.stages[t] == map[])
    ensures RemoveStage(d, t).stages == OtherStages(was)
  {
    assert t !in d.stages ==> d.stages - {t} == d.stages;
  }

  lemma AloneDiscards(hash: Hash, was: Directory, good: bool, s: System, p: Pid)
    requires p in s.writers && Alone(hash, was, good, s, p, s.writers[p]) == true
    requires var pc := s.writers[p].pc; pc.DiscardFile? || pc.DiscardStage?
    ensures TurnTaken(hash, was, good, s, Step(hash, s, p), p) == true
  {
    match s.writers[p].pc {
      case DiscardFile(k, t, _) => FileUnlinked(s.dir, was, t, k);
      case DiscardStage(t, _) => StageRemoved(s.dir, was, t);
    }
  }

  lemma AloneStartsOver(hash: Hash, was: Directory, good: bool, s: System, p: Pid)
    requires p in s.writers && Alone(hash, was, good, s, p, s.writers[p]) == true
    requires s.writers[p].pc.DropClaim? || s.writers[p].pc.Retry?
    ensures TurnTaken(hash, was, good, s, Step(hash, s, p), p) == true
  {
    StepExtends(hash, s, p);
  }

  /** A stage passes validation exactly when all three files are there: their contents cannot be wrong. */
  lemma StagedIsValid(hash: Hash, s: System, t: Txn)
    requires Safe(hash, s) && t in s.dir.stages
    ensures FullStage(s.dir, t) <==> ValidArchive(hash, s.dir.files, s.dir.stages[t])
    ensures FullStage(s.dir, t) ==> s.dir.files[s.dir.stages[t][Marker]].txn == t
  {}

  lemma AloneValidates(hash: Hash, was: Directory, good: bool, s: System, p: Pid)
    requires p in s.writers && Alone(hash, was, good, s, p, s.writers[p]) == true
    requires Found(hash, was, good) && was.files <= s.dir.files
    requires s.writers[p].pc.ValidateStage? && s.writers[p].pc.txn in s.dir.stages
    requires FullStage(s.dir, s.writers[p].pc.txn)
    requires var t := s.writers[p].pc.txn;
             ValidArchive(hash, s.dir.files, s.dir.stages[t]) && s.dir.files[s.dir.stages[t][Marker]].txn == t
    ensures TurnTaken(hash, was, good, s, Step(hash, s, p), p) == true
  {}

  lemma AloneRejects(hash: Hash, was: Directory, good: bool, s: System, p: Pid)
    requires p in s.writers && Alone(hash, was, good, s, p, s.writers[p]) == true
    requires Found(hash, was, good) && was.files <= s.dir.files
    requires s.writers[p].pc.ValidateStage? && s.writers[p].pc.txn in s.dir.stages
    requires var t := s.writers[p].pc.txn; !FullStage(s.dir, t) && !ValidArchive(hash, s.dir.files, s.dir.stages[t])
    ensures TurnTaken(hash, was, good, s, Step(hash, s, p), p) == true
  {}

  lemma DigestAsFound(hash: Hash, was: Directory, d: Directory, m: File, key: Key)
    requires NamesTyped(was) && was.files <= d.files && SameName(d.public, was.public, key) && key in d.public
    ensures Agrees(hash, was, m, key) <==> HasDigest(hash, d.files, d.public, key, Recorded(m, key))
  {}

  lemma AloneLooks(hash: Hash, was: Directory, good: bool, s: System, p: Pid)
    requires p in s.writers && Alone(hash, was, good, s, p, s.writers[p]) == true
    requires Found(hash, was, good) && was.files <= s.dir.files
    requires s.writers[p].pc.RepairLook? && s.writers[p].pc.key == Markdown && Markdown in s.dir.public
    ensures TurnTaken(hash, was, good, s, Step(hash, s, p), p) == true
  {
    DigestAsFound(hash, was, s.dir, s.writers[p].pc.manifest, Markdown);
  }

  lemma AloneLooksJson(hash: Hash, was: Directory, good: bool, s: System, p: Pid)
    requires p in s.writers && Alone(hash, was, good, s, p, s.writers[p]) == true
    requires Found(hash, was, good) && was.files <= s.dir.files
    requires s.writers[p].pc.RepairLook? && s.writers[p].pc.key == Json && Json in s.dir.public
    ensures TurnTaken(hash, was, good, s, Step(hash, s, p), p) == true
  {
    DigestAsFound(hash, was, s.dir, s.writers[p].pc.manifest, Json);
  }

  /** The marker is never looked at while it is there. */
  lemma MarkerUnseen(hash: Hash, was: Directory, good: bool, s: System, p: Pid)
    requires p in s.writers && Alone(hash, was, good, s, p, s.writers[p]) == true
    requires s.writers[p].pc.RepairLook? && s.writers[p].pc.key in s.dir.public
    ensures s.writers[p].pc.key != Marker
  {}

  lemma AloneMisses(hash: Hash, was: Directory, good: bool, s: System, p: Pid)
    requires p in s.writers && Alone(hash, was, good, s, p, s.writers[p]) == true
    requires s.writers[p].pc.RepairLook? && s.writers[p].pc.key !in s.dir.public
    ensures TurnTaken(hash, was, good, s, Step(hash, s, p), p) == true
  {}

  lemma AloneRepairs(hash: Hash, was: Directory, good: bool, s: System, p: Pid)
    requires p in s.writers && Alone(hash, was, good, s, p, s.writers[p]) == true
    requires s.writers[p].pc.RepairLink? && s.writers[p].pc.key == Markdown
    ensures TurnTaken(hash, was, good, s, Step(hash, s, p), p) == true
  {}

  lemma AloneRepairsJson(hash: Hash, was: Directory, good: bool, s: System, p: Pid)
    requires p in s.writers && Alone(hash, was, good, s, p, s.writers[p]) == true
    requires s.writers[p].pc.RepairLink? && s.writers[p].pc.key == Json
    ensures TurnTaken(hash, was, good, s, Step(hash, s, p), p) == true
  {}

  lemma AloneRepairsMarker(hash: Hash, was: Directory, good: bool, s: System, p: Pid)
    requires p in s.writers && Alone(hash, was, good, s, p, s.writers[p]) == true
    requires s.writers[p].pc.RepairLink? && s.writers[p].pc.key == Marker
    ensures TurnTaken(hash, was, good, s, Step(hash, s, p), p) == true
  {}

  lemma AloneChecksRecovered(hash: Hash, was: Directory, good: bool, s: System, p: Pid)
    requires p in s.writers && Alone(hash, was, good, s, p, s.writers[p]) == true
    requires Safe(hash, s)
    requires s.writers[p].pc.ValidateRecovered?
    ensures TurnTaken(hash, was, good, s, Step(hash, s, p), p) == true
  {
    assert WriterSafe(hash, s, s.writers[p]);
    StepExtends(hash, s, p);
  }

  lemma AloneMakesStage(hash: Hash, was: Directory, good: bool, s: System, p: Pid)
    requires p in s.writers && Alone(hash, was, good, s, p, s.writers[p]) == true
    requires s.writers[p].pc.MakeStage?
    ensures TurnTaken(hash, was, good, s, Step(hash, s, p), p) == true
  {
    StepExtends(hash, s, p);
  }

  lemma AloneStages(hash: Hash, was: Directory, good: bool, s: System, p: Pid)
    requires p in s.writers && Alone(hash, was, good, s, p, s.writers[p]) == true
    requires s.writers[p].pc.StageFile? && s.writers[p].pc.key != Marker
    ensures TurnTaken(hash, was, good, s, Step(hash, s, p), p) == true
  {}

  lemma AloneStagesMarker(hash: Hash, was: Directory, good: bool, s: System, p: Pid)
    requires p in s.writers && Alone(hash, was, good, s, p, s.writers[p]) == true
    requires s.writers[p].pc.StageFile? && s.writers[p].pc.key == Marker
    ensures TurnTaken(hash, was, good, s, Step(hash, s, p), p) == true
  {}

  lemma AloneLinks(hash: Hash, was: Directory, good: bool, s: System, p: Pid)
    requires p in s.writers && Alone(hash, was, good, s, p, s.writers[p]) == true
    requires s.writers[p].pc.LinkFile? && s.writers[p].pc.key == Markdown
    ensures TurnTaken(hash, was, good, s, Step(hash, s, p), p) == true
  {}

  lemma AloneLinksJson(hash: Hash, was: Directory, good: bool, s: System, p: Pid)
    requires p in s.writers && Alone(hash, was, good, s, p, s.writers[p]) == true
    requires s.writers[p].pc.LinkFile? && s.writers[p].pc.key == Json
    ensures TurnTaken(hash, was, good, s, Step(hash, s, p), p) == true
  {}

  lemma AloneLinksMarker(hash: Hash, was: Directory, good: bool, s: System, p: Pid)
    requires p in s.writers && Alone(hash, was, good, s, p, s.writers[p]) == true
    requires Safe(hash, s)
    requires s.writers[p].pc.LinkFile? && s.writers[p].pc.key == Marker
    ensures TurnTaken(hash, was, good, s, Step(hash, s, p), p) == true
  {
    match s.writers[p].pc {
      case LinkFile(k, t, i) =>
        var d' := Step(hash, s, p).dir;
        forall j ensures j !in was.public { match j case Markdown => case Json => case Marker => }
        forall j
          ensures Resolves(d'.files, d'.public, j) && d'.files[d'.public[j]] == Staged(hash, t, s.writers[p].intent, j)
        {
          if j == Markdown {} else if j == Json {} else {}
        }
    }
  }

  lemma AloneChecksOwn(hash: Hash, was: Directory, good: bool, s: System, p: Pid)
    requires p in s.writers && Alone(hash, was, good, s, p, s.writers[p]) == true
    requires Safe(hash, s)
    requires s.writers[p].pc.ValidateOwn?
    ensures TurnTaken(hash, was, good, s, Step(hash, s, p), p) == true
  {
    assert WriterSafe(hash, s, s.writers[p]);
    StepExtends(hash, s, p);
  }

  lemma SettlesStable(hash: Hash, was: Directory, good: bool, d: Directory, d': Directory, intent: Intent, o: Outcome)
    requires Settles(hash, was, good, d, intent, o) && d'.public == d.public && d'.files == d.files
    ensures Settles(hash, was, good, d', intent, o)
  {
    forall t | Carried(hash, d, intent, t) ensures Carried(hash, d', intent, t) {}
  }

  lemma AloneUnlinks(hash: Hash, was: Directory, good: bool, s: System, p: Pid)
    requires p in s.writers && Alone(hash, was, good, s, p, s.writers[p]) == true
    requires s.writers[p].pc.UnlinkClaim? || s.writers[p].pc.Release?
    ensures TurnTaken(hash, was, good, s, Step(hash, s, p), p) == true
  {
    SettlesStable(hash, was, good, s.dir, Step(hash, s, p).dir, s.writers[p].intent, s.writers[p].pc.outcome);
  }

  lemma AloneCleans(hash: Hash, was: Directory, good: bool, s: System, p: Pid)
    requires p in s.writers && Alone(hash, was, good, s, p, s.writers[p]) == true
    requires s.writers[p].pc.CleanFile?
    ensures TurnTaken(hash, was, good, s, Step(hash, s, p), p) == true
  {
    FileUnlinked(s.dir, was, s.writers[p].pc.txn, s.writers[p].pc.key);
    SettlesStable(hash, was, good, s.dir, Step(hash, s, p).dir, s.writers[p].intent, s.writers[p].pc.outcome);
  }

  lemma AloneCleansStage(hash: Hash, was: Directory, good: bool, s: System, p: Pid)
    requires p in s.writers && Alone(hash, was, good, s, p, s.writers[p]) == true
    requires s.writers[p].pc.CleanStage?
    ensures TurnTaken(hash, was, good, s, Step(hash, s, p), p) == true
  {
    StageRemoved(s.dir, was, s.writers[p].pc.txn);
    SettlesStable(hash, was, good, s.dir, Step(hash, s, p).dir, s.writers[p].intent, s.writers[p].pc.outcome);
  }

  lemma AloneRecovers(hash: Hash, was: Directory, good: bool, s: System, p: Pid)
    requires Turn(hash, was, good, s, p) == true
    requires s.writers[p].pc.RepairLook? || s.writers[p].pc.RepairLink? || s.writers[p].pc.ValidateRecovered?
    ensures TurnTaken(hash, was, good, s, Step(hash, s, p), p) == true
  {
    var pc := s.writers[p].pc;
    if pc.RepairLook? && pc.key in s.dir.public {
      MarkerUnseen(hash, was, good, s, p);
      if pc.key == Markdown { AloneLooks(hash, was, good, s, p); } else { AloneLooksJson(hash, was, good, s, p); }
    }
    else if pc.RepairLook? { AloneMisses(hash, was, good, s, p); }
    else if pc.ValidateRecovered? { AloneChecksRecovered(hash, was, good, s, p); }
    else if pc.key == Markdown { AloneRepairs(hash, was, good, s, p); }
    else if pc.key == Json { AloneRepairsJson(hash, was, good, s, p); }
    else { AloneRepairsMarker(hash, was, good, s, p); }
  }

  lemma AlonePublishes(hash: Hash, was: Directory, good: bool, s: System, p: Pid)
    requires Turn(hash, was, good, s, p) == true
    requires var pc := s.writers[p].pc; pc.MakeStage? || pc.StageFile? || pc.LinkFile? || pc.ValidateOwn?
    ensures TurnTaken(hash, was, good, s, Step(hash, s, p), p) == true
  {
    var pc := s.writers[p].pc;
    if pc.MakeStage? { AloneMakesStage(hash, was, good, s, p); }
    else if pc.StageFile? && pc.key == Marker { AloneStagesMarker(hash, was, good, s, p); }
    else if pc.StageFile? { AloneStages(hash, was, good, s, p); }
    else if pc.LinkFile? && pc.key == Marker { AloneLinksMarker(hash, was, good, s, p); }
    else if pc.LinkFile? && pc.key == Json { AloneLinksJson(hash, was, good, s, p); }
    else if pc.LinkFile? { AloneLinks(hash, was, good, s, p); }
    else { AloneChecksOwn(hash, was, good, s, p); }
  }

  lemma AloneDecides(hash: Hash, was: Directory, good: bool, s: System, p: Pid)
    requires Turn(hash, was, good, s, p) == true && s.writers[p].pc.ValidateStage?
    ensures TurnTaken(hash, was, good, s, Step(hash, s, p), p) == true
  {
    StagedIsValid(hash, s, s.writers[p].pc.txn);
    if FullStage(s.dir, s.writers[p].pc.txn) {
      AloneValidates(hash, was, good, s, p);
    } else {
      AloneRejects(hash, was, good, s, p);
    }
  }

  lemma AloneStep(hash: Hash, was: Directory, good: bool, s: System, p: Pid)
    requires Turn(hash, was, good, s, p) == true && !Stopped(s.writers[p].pc)
    ensures TurnTaken(hash, was, good, s, Step(hash, s, p), p) == true
  {
    var pc := s.writers[p].pc;
    if pc.CheckEntries? || pc.CheckClaim? { AloneEnters(hash, was, good, s, p); }
    else if pc.Prepare? { AlonePrepares(hash, was, good, s, p); }
    else if pc.LinkClaim? { AloneClaims(hash, was, good, s, p); }
    else if pc.OpenClaim? || pc.LockClaim? { AloneLocks(hash, was, good, s, p); }
    else if pc.OpenStage? { AloneOpensStage(hash, was, good, s, p); }
    else if pc.DiscardFile? || pc.DiscardStage? { AloneDiscards(hash, was, good, s, p); }
    else if pc.DropClaim? || pc.Retry? { AloneStartsOver(hash, was, good, s, p); }
    else if pc.ValidateStage? { AloneDecides(hash, was, good, s, p); }
    else if pc.RepairLook? || pc.RepairLink? || pc.ValidateRecovered? { AloneRecovers(hash, was, good, s, p); }
    else if pc.MakeStage? || pc.StageFile? || pc.LinkFile? || pc.ValidateOwn? { AlonePublishes(hash, was, good, s, p); }
    else if pc.UnlinkClaim? || pc.Release? { AloneUnlinks(hash, was, good, s, p); }
    else if pc.CleanFile? { AloneCleans(hash, was, good, s, p); }
    else { AloneCleansStage(hash, was, good, s, p); }
  }

  lemma NextTurn(hash: Hash, was: Directory, good: bool, s: System, p: Pid)
    requires Turn(hash, was, good, s, p) == true && !Stopped(s.writers[p].pc)
    ensures var s' := Step(hash, s, p);
            && Turn(hash, was, good, s', p) == true && s'.writers[p].intent == s.writers[p].intent
            && Rank(s'.dir.claim.Some?, s'.writers[p].pc) < Rank(s.dir.claim.Some?, s.writers[p].pc)
  {
    AloneStep(hash, was, good, s, p);
    StepSafe(hash, s, p);
    StepExtends(hash, s, p);
  }

  /**
  `atomic_write_pair` run to the end by the only active writer.  It never gives up on a recoverable directory and
  never completes an archive from any other, and what it found decides which way the archive is completed.
  */
  method TakeOver(hash: Hash, start: System, p: Pid, intent: Intent) returns (s: System, outcome: Outcome)
    requires Safe(hash, start) && p !in start.writers && start.dir.locks == map[]
    ensures outcome != Refused <==> Recoverable(hash, start.dir)
    ensures outcome != Refused <==> Complete(hash, s.dir)
    ensures outcome == AlreadyComplete <==> Marker in start.dir.public
    ensures outcome == Recovered <==>
              Recoverable(hash, start.dir) && Marker !in start.dir.public && StageWaits(start.dir)
    ensures outcome == Published <==>
              Recoverable(hash, start.dir) && Marker !in start.dir.public && !StageWaits(start.dir)
    ensures Settles(hash, start.dir, outcome != Refused, s.dir, intent, outcome) && Dropped(s.dir, start.dir, outcome)
    ensures Safe(hash, s) && start.dir.files <= s.dir.files
  {
    ghost var good := Recoverable(hash, start.dir);
    FirstTurn(hash, start, p, intent);
    s := Apply(hash, start, Arrive(p, intent));
    while !Stopped(s.writers[p].pc)
      invariant Turn(hash, start.dir, good, s, p) == true && s.writers[p].intent == intent
      decreases Rank(s.dir.claim.Some?, s.writers[p].pc)
    {
      NextTurn(hash, start.dir, good, s, p);
      s := Step(hash, s, p);
    }
    LastTurn(hash, start.dir, good, s, p);
    outcome := s.writers[p].pc.outcome;
  }

  lemma FirstTurn(hash: Hash, start: System, p: Pid, intent: Intent)
    requires Safe(hash, start) && p !in start.writers && start.dir.locks == map[]
    ensures var s := Apply(hash, start, Arrive(p, intent));
            Turn(hash, start.dir, Recoverable(hash, start.dir), s, p) == true && s.writers[p].intent == intent
  {
    FoundBy(hash, start);
    ApplySafe(hash, start, Arrive(p, intent));
  }

  lemma LastTurn(hash: Hash, was: Directory, good: bool, s: System, p: Pid)
    requires Turn(hash, was, good, s, p) == true && Stopped(s.writers[p].pc)
    ensures s.writers[p].pc.Done?
    ensures var o := s.writers[p].pc.outcome;
            && Settles(hash, was, good, s.dir, s.writers[p].intent, o) && Dropped(s.dir, was, o)
            && (o != Refused <==> good) && (o != Refused <==> Complete(hash, s.dir))
  {}
}
