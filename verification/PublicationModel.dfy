/**
The publication protocol of one report archive as a state machine.

A report archive is three public files (markdown, JSON, completion marker) in a
date directory.  Every writer walks through the same sequence of file calls; a
step of the machine is one file call of one writer, and a writer may crash
between any two of them.  Names refer to inodes and inodes hold file contents,
because a hard link shares an inode and a lock belongs to an inode rather than
to a name.
*/
module PublicationModel {
  import opened Prelude

  type Bytes = seq<bv8>
  type Digest = nat
  type Pid = nat
  type Txn = nat
  type Inode = nat

  datatype Key = Markdown | Json | Marker

  /** Contents of a file.  A completion marker is its parsed manifest. */
  datatype File =
    | Text(bytes: Bytes)
    | Manifest(txn: Txn, markdown: Digest, json: Digest)
    | ClaimRecord(txn: Txn)

  /** What one transaction sets out to publish. */
  datatype Intent = Intent(markdown: Bytes, json: Bytes)

  datatype Directory = Directory(
    files: seq<File>,                    // inode table; created files are never rewritten
    public: map<Key, Inode>,             // the public names of the archive
    stages: map<Txn, map<Key, Inode>>,   // hidden stage directories
    claim: Option<Inode>,                // the canonical hidden claim name
    locks: map<Inode, Pid>)              // flock holders

  datatype Outcome =
    | Published        // the writer's own transaction is public
    | Recovered        // a crashed transaction was finished
    | AlreadyComplete  // FileExistsError: report archive already exists
    | Refused          // any other error

  /** Program counter of a writer; `txn` and `ino` are the claim it works under. */
  datatype Pc =
    | CheckEntries
    | CheckClaim
    | Prepare
    | LinkClaim(txn: Txn, ino: Inode)
    | OpenClaim
    | LockClaim(ino: Inode)
    // publication under the writer's own claim
    | MakeStage(txn: Txn, ino: Inode)
    | StageFile(key: Key, txn: Txn, ino: Inode)
    | LinkFile(key: Key, txn: Txn, ino: Inode)
    | ValidateOwn(txn: Txn, ino: Inode)
    // recovery of an existing claim
    | OpenStage(txn: Txn, ino: Inode)
    | DiscardFile(key: Key, txn: Txn, ino: Inode)
    | DiscardStage(txn: Txn, ino: Inode)
    | DropClaim(txn: Txn, ino: Inode)
    | Retry
    | ValidateStage(txn: Txn, ino: Inode)
    | RepairLook(key: Key, txn: Txn, ino: Inode, manifest: File)
    | RepairLink(key: Key, txn: Txn, ino: Inode, manifest: File)
    | ValidateRecovered(txn: Txn, ino: Inode)
    // common tail
    | UnlinkClaim(txn: Txn, ino: Inode, outcome: Outcome)
    | CleanFile(key: Key, txn: Txn, outcome: Outcome)
    | CleanStage(txn: Txn, outcome: Outcome)
    | Release(outcome: Outcome)
    | Done(outcome: Outcome)
    | Crashed

  datatype Writer = Writer(intent: Intent, pc: Pc)

  datatype System = System(
    dir: Directory,
    intents: seq<Intent>,     // intent of every transaction identifier drawn so far
    writers: map<Pid, Writer>)

  const EMPTY := System(Directory([], map[], map[], None, map[]), [], map[])

  datatype Event =
    | Arrive(pid: Pid, intent: Intent)
    | Act(pid: Pid)
    | Crash(pid: Pid)

  /** The SHA-256 function is a parameter: nothing below depends on which function it is. */
  type Hash = Bytes -> Digest

  /** The bytes a transaction stages under each of its three names. */
  function Staged(hash: Hash, txn: Txn, intent: Intent, key: Key): File {
    match key
    case Markdown => Text(intent.markdown)
    case Json => Text(intent.json)
    case Marker => Manifest(txn, hash(intent.markdown), hash(intent.json))
  }

  function Next(key: Key): Key {
    match key case Markdown => Json case Json => Marker case Marker => Marker
  }

  /** The digest a manifest records for a file. */
  function Recorded(manifest: File, key: Key): Digest {
    if !manifest.Manifest? then 0
    else match key case Markdown => manifest.markdown case _ => manifest.json
  }

  function Unlock(locks: map<Inode, Pid>, pid: Pid): map<Inode, Pid> {
    map i | i in locks && locks[i] != pid :: locks[i]
  }

  predicate Resolves(files: seq<File>, names: map<Key, Inode>, key: Key) {
    key in names && names[key] < |files|
  }

  predicate HasDigest(hash: Hash, files: seq<File>, names: map<Key, Inode>, key: Key, digest: Digest) {
    Resolves(files, names, key) && files[names[key]].Text? && hash(files[names[key]].bytes) == digest
  }

  /** `_validate_complete_archive_contents`: all three files, digests as the manifest records them. */
  predicate ValidArchive(hash: Hash, files: seq<File>, names: map<Key, Inode>) {
    && Resolves(files, names, Marker)
    && files[names[Marker]].Manifest?
    && HasDigest(hash, files, names, Markdown, files[names[Marker]].markdown)
    && HasDigest(hash, files, names, Json, files[names[Marker]].json)
  }

  predicate Complete(hash: Hash, d: Directory) {
    ValidArchive(hash, d.files, d.public)
  }

  /** Leave with an outcome; closing the claim descriptor releases the writer's lock. */
  function Leave(s: System, pid: Pid, w: Writer, outcome: Outcome): System {
    s.(dir := s.dir.(locks := Unlock(s.dir.locks, pid)), writers := s.writers[pid := w.(pc := Done(outcome))])
  }

  function Goto(s: System, pid: Pid, w: Writer, d: Directory, pc: Pc): System {
    s.(dir := d, writers := s.writers[pid := w.(pc := pc)])
  }

  /** The next file call of one writer. */
  function Step(hash: Hash, s: System, pid: Pid): System
    requires pid in s.writers
  {
    var w := s.writers[pid];
    var d := s.dir;
    match w.pc
    case CheckEntries =>
      if d.public.Keys == {} then Goto(s, pid, w, d, Prepare)
      else if Complete(hash, d) then Leave(s, pid, w, AlreadyComplete)
      else Goto(s, pid, w, d, CheckClaim)
    case CheckClaim =>
      if d.claim.None? then Leave(s, pid, w, Refused) else Goto(s, pid, w, d, Prepare)
    case Prepare =>
      var txn, ino := |s.intents|, |d.files|;
      s.(dir := d.(files := d.files + [ClaimRecord(txn)], locks := d.locks[ino := pid]),
         intents := s.intents + [w.intent],
         writers := s.writers[pid := w.(pc := LinkClaim(txn, ino))])
    case LinkClaim(txn, ino) =>
      if d.claim.Some? then Goto(s, pid, w, d.(locks := Unlock(d.locks, pid)), OpenClaim)
      else Goto(s, pid, w, d.(claim := Some(ino)), MakeStage(txn, ino))
    case OpenClaim =>
      if d.claim.None? then Leave(s, pid, w, Refused)
      else Goto(s, pid, w, d, LockClaim(d.claim.value))
    case LockClaim(ino) =>
      if ino in d.locks || ino >= |d.files| || !d.files[ino].ClaimRecord? then Leave(s, pid, w, Refused)
      else Goto(s, pid, w, d.(locks := d.locks[ino := pid]), OpenStage(d.files[ino].txn, ino))
    case MakeStage(txn, ino) =>
      if txn in d.stages then Leave(s, pid, w, Refused)
      else Goto(s, pid, w, d.(stages := d.stages[txn := map[]]), StageFile(Markdown, txn, ino))
    case StageFile(key, txn, ino) =>
      if txn !in d.stages || key in d.stages[txn] then Leave(s, pid, w, Refused)
      else
        Goto(s, pid, w, AddStaged(d, txn, key, Staged(hash, txn, w.intent, key)),
             if key == Marker then LinkFile(Markdown, txn, ino) else StageFile(Next(key), txn, ino))
    case LinkFile(key, txn, ino) =>
      if key in d.public || txn !in d.stages || key !in d.stages[txn] then Leave(s, pid, w, Refused)
      else
        Goto(s, pid, w, d.(public := d.public[key := d.stages[txn][key]]),
             if key == Marker then ValidateOwn(txn, ino) else LinkFile(Next(key), txn, ino))
    case ValidateOwn(txn, ino) =>
      if Complete(hash, d) then Goto(s, pid, w, d, UnlinkClaim(txn, ino, Published)) else Leave(s, pid, w, Refused)
    case OpenStage(txn, ino) =>
      if txn !in d.stages then Goto(s, pid, w, d, DropClaim(txn, ino))
      else if Marker !in d.stages[txn] then Goto(s, pid, w, d, DiscardFile(Markdown, txn, ino))
      else Goto(s, pid, w, d, ValidateStage(txn, ino))
    case DiscardFile(key, txn, ino) =>
      Goto(s, pid, w, RemoveStaged(d, txn, key),
           if key == Marker then DiscardStage(txn, ino) else DiscardFile(Next(key), txn, ino))
    case DiscardStage(txn, ino) =>
      Goto(s, pid, w, RemoveStage(d, txn), DropClaim(txn, ino))
    case DropClaim(txn, ino) =>
      Goto(s, pid, w, d.(claim := None), Retry)
    case Retry =>
      Goto(s, pid, w, d.(locks := Unlock(d.locks, pid)), Prepare)
    case ValidateStage(txn, ino) =>
      if txn in d.stages && ValidArchive(hash, d.files, d.stages[txn]) && d.files[d.stages[txn][Marker]].txn == txn
      then Goto(s, pid, w, d, RepairLook(Markdown, txn, ino, d.files[d.stages[txn][Marker]]))
      else Leave(s, pid, w, Refused)
    case RepairLook(key, txn, ino, manifest) =>
      if key !in d.public then Goto(s, pid, w, d, RepairLink(key, txn, ino, manifest))
      else if key == Marker then Goto(s, pid, w, d, ValidateRecovered(txn, ino))
      else if HasDigest(hash, d.files, d.public, key, Recorded(manifest, key))
      then Goto(s, pid, w, d, RepairLook(Next(key), txn, ino, manifest))
      else Leave(s, pid, w, Refused)
    case RepairLink(key, txn, ino, manifest) =>
      if key in d.public || txn !in d.stages || key !in d.stages[txn] then Leave(s, pid, w, Refused)
      else
        Goto(s, pid, w, d.(public := d.public[key := d.stages[txn][key]]),
             if key == Marker then ValidateRecovered(txn, ino) else RepairLook(Next(key), txn, ino, manifest))
    case ValidateRecovered(txn, ino) =>
      if Complete(hash, d) then Goto(s, pid, w, d, UnlinkClaim(txn, ino, Recovered)) else Leave(s, pid, w, Refused)
    case UnlinkClaim(txn, ino, outcome) =>
      Goto(s, pid, w, d.(claim := None), CleanFile(Markdown, txn, outcome))
    case CleanFile(key, txn, outcome) =>
      Goto(s, pid, w, RemoveStaged(d, txn, key),
           if key == Marker then CleanStage(txn, outcome) else CleanFile(Next(key), txn, outcome))
    case CleanStage(txn, outcome) =>
      Goto(s, pid, w, RemoveStage(d, txn), Release(outcome))
    case Release(outcome) => Leave(s, pid, w, outcome)
    case Done(_) => s
    case Crashed => s
  }

  /** `_write_exclusive_file` into a stage directory: a new inode under a new name. */
  function AddStaged(d: Directory, txn: Txn, key: Key, file: File): Directory
    requires txn in d.stages
  {
    var names: map<Key, Inode> := d.stages[txn] + map[key := |d.files|];
    d.(files := d.files + [file], stages := d.stages[txn := names])
  }

  /** `_unlink_stage_entry`: missing entries are ignored. */
  function RemoveStaged(d: Directory, txn: Txn, key: Key): Directory {
    if txn in d.stages then d.(stages := d.stages[txn := d.stages[txn] - {key}]) else d
  }

  /** `rmdir`: fails silently unless the stage is empty. */
  function RemoveStage(d: Directory, txn: Txn): Directory {
    if txn in d.stages && d.stages[txn] == map[] then d.(stages := d.stages - {txn}) else d
  }

  /** One event of a run; events that cannot happen leave the system alone. */
  function Apply(hash: Hash, s: System, e: Event): System {
    match e
    case Arrive(pid, intent) =>
      if pid in s.writers then s else s.(writers := s.writers[pid := Writer(intent, CheckEntries)])
    case Act(pid) =>
      if pid in s.writers then Step(hash, s, pid) else s
    case Crash(pid) =>
      if pid !in s.writers || s.writers[pid].pc.Done? then s
      else s.(dir := s.dir.(locks := Unlock(s.dir.locks, pid)),
              writers := s.writers[pid := s.writers[pid].(pc := Crashed)])
  }

  /** The state after any interleaving of arrivals, file calls and crashes. */
  function Execute(hash: Hash, s: System, run: seq<Event>): System
    decreases |run|
  {
    if run == [] then s else Apply(hash, Execute(hash, s, run[..|run| - 1]), run[|run| - 1])
  }
}
