/**
The reader of the active report.  Every archive but the initial one names the
archive it supersedes; the reader accepts a date directory only if these links
form one chain, and returns the archive at its head.
*/
module ArchiveChain {
  import opened Prelude
  import opened ArchiveNames

  type RunId = string

  const MAX_ARCHIVE_CANDIDATES := 500

  datatype Supersession = Absent | Link(reason: string, supersedes: RunId) | Malformed

  datatype Archive = Archive(supersession: Supersession, content: string)

  datatype ReadError = LimitExceeded | InvalidArchive | InvalidSupersession

  /** Reading and verifying one archive either yields it or fails. */
  type Reader = RunId -> Option<Archive>

  predicate LinkOk(run: RunId, archive: Archive) {
    if run == INITIAL then archive.supersession.Absent?
    else archive.supersession.Link? && ValidRunId(archive.supersession.supersedes)
  }

  /** Every marker leads to a verified archive whose supersession has the right shape. */
  predicate AllVerified(entries: seq<Option<RunId>>, read: Reader) {
    forall i :: 0 <= i < |entries| && entries[i].Some? ==>
      read(entries[i].value).Some? && LinkOk(entries[i].value, read(entries[i].value).value)
  }

  /** The archives of the directory by run. */
  function Archives(entries: seq<Option<RunId>>, read: Reader): map<RunId, Archive> {
    map i | 0 <= i < |entries| && entries[i].Some? && read(entries[i].value).Some? ::
      entries[i].value := read(entries[i].value).value
  }

  predicate Linked(archives: map<RunId, Archive>) {
    forall r :: r in archives && r != INITIAL ==> archives[r].supersession.Link?
  }

  /** A chain visits every archive once, each superseding the next, and ends at the initial one. */
  predicate IsChain(archives: map<RunId, Archive>, chain: seq<RunId>)
    requires Linked(archives)
  {
    && |chain| > 0
    && chain[|chain| - 1] == INITIAL
    && (forall i :: 0 <= i < |chain| ==> chain[i] in archives)
    && (forall r :: r in archives ==> r in chain)
    && (forall i, j :: 0 <= i < j < |chain| ==> chain[i] != chain[j])
    && (forall i :: 0 <= i < |chain| - 1 ==> archives[chain[i]].supersession.supersedes == chain[i + 1])
  }

  function Superseded(archives: map<RunId, Archive>): set<RunId>
    requires Linked(archives)
  {
    set r | r in archives && r != INITIAL :: archives[r].supersession.supersedes
  }

  lemma ChainInterior(archives: map<RunId, Archive>, chain: seq<RunId>, i: nat)
    requires Linked(archives) && IsChain(archives, chain) && i < |chain|
    ensures chain[i] == INITIAL <==> i == |chain| - 1
  {}

  /** A chain starts at the one archive nothing supersedes. */
  lemma ChainHead(archives: map<RunId, Archive>, chain: seq<RunId>)
    requires Linked(archives) && IsChain(archives, chain)
    ensures Superseded(archives) <= archives.Keys
    ensures archives.Keys - Superseded(archives) == {chain[0]}
  {
    forall p | p in Superseded(archives) ensures p in archives && p != chain[0] {
      var r :| r in archives && r != INITIAL && archives[r].supersession.supersedes == p;
      var i :| 0 <= i < |chain| && chain[i] == r;
      ChainInterior(archives, chain, i);
      assert chain[i + 1] == p;
    }
    forall r | r in archives && r != chain[0] ensures r in Superseded(archives) {
      var i :| 0 <= i < |chain| && chain[i] == r;
      ChainInterior(archives, chain, i - 1);
      assert chain[i - 1] in archives && chain[i - 1] != INITIAL;
      assert archives[chain[i - 1]].supersession.supersedes == r;
    }
  }

  /** A directory has at most one chain, so its head is well defined. */
  lemma {:induction false} ChainUnique(archives: map<RunId, Archive>, a: seq<RunId>, b: seq<RunId>, i: nat)
    requires Linked(archives) && IsChain(archives, a) && IsChain(archives, b) && i < |a|
    ensures i < |b| && a[i] == b[i]
  {
    if i == 0 {
      ChainHead(archives, a);
      ChainHead(archives, b);
      assert a[0] in {b[0]};
    } else {
      ChainUnique(archives, a, b, i - 1);
      ChainInterior(archives, a, i - 1);
      ChainInterior(archives, b, i - 1);
    }
  }

  /** The reader's tables agree with the entries read so far. */
  predicate Loaded(entries: seq<Option<RunId>>, read: Reader, archives: map<RunId, Archive>, predecessors: set<RunId>) {
    && AllVerified(entries, read) && archives == Archives(entries, read)
    && Linked(archives) && predecessors == Superseded(archives)
  }

  /** One more verified archive extends the tables. */
  lemma LoadedNext(entries: seq<Option<RunId>>, read: Reader, n: nat, archives: map<RunId, Archive>,
      predecessors: set<RunId>)
    requires n < |entries| && Loaded(entries[..n], read, archives, predecessors)
    requires entries[n].Some? ==> read(entries[n].value).Some? && LinkOk(entries[n].value, read(entries[n].value).value)
    ensures if entries[n].None? then Loaded(entries[..n + 1], read, archives, predecessors)
            else
              var run, archive := entries[n].value, read(entries[n].value).value;
              Loaded(entries[..n + 1], read, archives[run := archive],
                predecessors + if run == INITIAL then {} else {archive.supersession.supersedes})
  {
    ArchivesGrow(entries, read, n);
    if entries[n].Some? { SupersededGrows(archives, entries[n].value, read(entries[n].value).value); }
  }

  /** The first loop of the reader: load every archive a marker announces. */
  method LoadArchives(entries: seq<Option<RunId>>, read: Reader)
      returns (failure: Option<ReadError>, archives: map<RunId, Archive>, predecessors: set<RunId>)
    ensures failure.None? <==> AllVerified(entries, read)
    ensures failure.None? ==> Loaded(entries, read, archives, predecessors)
  {
    archives, predecessors := map[], {};
    for n := 0 to |entries|
      invariant Loaded(entries[..n], read, archives, predecessors)
    {
      if entries[n].Some? {
        var run := entries[n].value;
        var found := read(run);
        if found.None? { return Some(InvalidArchive), map[], {}; }
        if !LinkOk(run, found.value) { return Some(InvalidSupersession), map[], {}; }
        LoadedNext(entries, read, n, archives, predecessors);
        predecessors := predecessors + if run == INITIAL then {} else {found.value.supersession.supersedes};
        archives := archives[run := found.value];
      } else {
        LoadedNext(entries, read, n, archives, predecessors);
      }
    }
    assert entries[..|entries|] == entries;
    return None, archives, predecessors;
  }

  /** Every chain there is begins with the walk so far. */
  ghost predicate AllAlong(archives: map<RunId, Archive>, path: seq<RunId>, current: RunId)
    requires Linked(archives)
  {
    forall chain :: IsChain(archives, chain) ==> Along(chain, path, current)
  }

  lemma AllBegin(archives: map<RunId, Archive>, head: RunId)
    requires Linked(archives) && archives.Keys - Superseded(archives) == {head}
    ensures AllAlong(archives, [], head)
  {
    forall chain | IsChain(archives, chain) ensures Along(chain, [], head) {
      ChainHead(archives, chain);
      assert chain[0] in {head};
    }
  }

  lemma AllAlongNext(archives: map<RunId, Archive>, path: seq<RunId>, current: RunId)
    requires Linked(archives) && AllAlong(archives, path, current) && current in archives && current != INITIAL
    ensures AllAlong(archives, path + [current], archives[current].supersession.supersedes)
    ensures current in path ==> !exists chain :: IsChain(archives, chain)
  {
    forall chain | IsChain(archives, chain)
      ensures Along(chain, path + [current], archives[current].supersession.supersedes)
    {
      AlongNext(archives, chain, path, current);
    }
    forall chain | IsChain(archives, chain) ensures current !in path { NoReturn(archives, chain, path, current); }
  }

  /** A finished walk is a chain if it met every archive; if it did not, there is no chain. */
  lemma WalkDecides(archives: map<RunId, Archive>, path: seq<RunId>, head: RunId)
    requires Linked(archives) && Walked(archives, path, INITIAL, head) && AllAlong(archives, path, INITIAL)
    requires INITIAL in archives
    ensures (exists chain :: IsChain(archives, chain)) <==> forall r :: r in archives ==> r in path || r == INITIAL
  {
    if forall r :: r in archives ==> r in path || r == INITIAL { assert IsChain(archives, path + [INITIAL]); }
    forall chain | IsChain(archives, chain) ensures forall r :: r in archives ==> r in path || r == INITIAL {
      WholeChain(archives, chain, path);
    }
  }

  /** The second loop of the reader: follow the links from the head back to the initial archive. */
  method WalkBack(archives: map<RunId, Archive>, head: RunId) returns (ok: bool)
    requires Linked(archives) && Superseded(archives) <= archives.Keys && archives.Keys - Superseded(archives) == {head}
    ensures ok <==> exists chain :: IsChain(archives, chain)
    ensures forall chain :: IsChain(archives, chain) ==> chain[0] == head
  {
    var seen: set<RunId> := {};
    var current := head;
    ghost var path: seq<RunId> := [];
    AllBegin(archives, head);
    assert head in {head};
    while current != INITIAL
      invariant current in archives
      invariant seen <= archives.Keys && INITIAL !in seen
      invariant forall r :: r in seen <==> r in path
      invariant Walked(archives, path, current, head)
      invariant AllAlong(archives, path, current)
      decreases archives.Keys - seen
    {
      AllAlongNext(archives, path, current);
      if current in seen { return false; }
      var next := archives[current].supersession.supersedes;
      assert next in Superseded(archives);
      seen := seen + {current};
      path := path + [current];
      current := next;
    }
    WalkDecides(archives, path, head);
    return archives.Keys == seen + {INITIAL};
  }

  /** `read_active_verified_archive`: succeeds exactly when the archives form one chain, and returns its head. */
  method ReadActive(entries: seq<Option<RunId>>, read: Reader) returns (r: Result<Archive, ReadError>)
    ensures r.Ok? <==>
              && |entries| <= MAX_ARCHIVE_CANDIDATES
              && AllVerified(entries, read)
              && Linked(Archives(entries, read))
              && exists chain :: IsChain(Archives(entries, read), chain)
    ensures r.Ok? ==> forall chain :: IsChain(Archives(entries, read), chain) ==>
                        r.value == Archives(entries, read)[chain[0]]
  {
    if |entries| > MAX_ARCHIVE_CANDIDATES { return Err(LimitExceeded); }
    var failure, archives, predecessors := LoadArchives(entries, read);
    if failure.Some? { return Err(failure.value); }
    if archives == map[] || !(predecessors <= archives.Keys) {
      NoChain(archives);
      return Err(InvalidSupersession);
    }
    var heads := archives.Keys - predecessors;
    if |heads| != 1 {
      NoChain(archives);
      return Err(InvalidSupersession);
    }
    var head :| head in heads;
    Singleton(heads, head);
    var ok := WalkBack(archives, head);
    if !ok { return Err(InvalidSupersession); }
    return Ok(archives[head]);
  }

  /** The walk so far: distinct archives from the head, each superseding the next. */
  predicate Walked(archives: map<RunId, Archive>, path: seq<RunId>, current: RunId, head: RunId) {
    && (forall i :: 0 <= i < |path| ==>
          path[i] in archives && path[i] != INITIAL && archives[path[i]].supersession.Link?)
    && (forall i, j :: 0 <= i < j < |path| ==> path[i] != path[j])
    && (forall i :: 0 <= i < |path| - 1 ==> archives[path[i]].supersession.supersedes == path[i + 1])
    && (if path == [] then current == head
        else path[0] == head && archives[path[|path| - 1]].supersession.supersedes == current)
  }

  /** The walk is the beginning of `chain`. */
  predicate Along(chain: seq<RunId>, path: seq<RunId>, current: RunId) {
    |path| < |chain| && path == chain[..|path|] && chain[|path|] == current
  }

  lemma NoReturn(archives: map<RunId, Archive>, chain: seq<RunId>, path: seq<RunId>, current: RunId)
    requires Linked(archives) && IsChain(archives, chain) && Along(chain, path, current)
    ensures current !in path
  {}

  lemma AlongNext(archives: map<RunId, Archive>, chain: seq<RunId>, path: seq<RunId>, current: RunId)
    requires Linked(archives) && IsChain(archives, chain) && Along(chain, path, current)
    requires current in archives && current != INITIAL
    ensures Along(chain, path + [current], archives[current].supersession.supersedes)
  {
    ChainInterior(archives, chain, |path|);
  }

  lemma WholeChain(archives: map<RunId, Archive>, chain: seq<RunId>, path: seq<RunId>)
    requires Linked(archives) && IsChain(archives, chain) && Along(chain, path, INITIAL)
    ensures forall r :: r in archives <==> r in path || r == INITIAL
  {
    ChainInterior(archives, chain, |path|);
    assert chain == path + [INITIAL];
  }

  lemma Singleton(s: set<RunId>, x: RunId)
    requires |s| == 1 && x in s
    ensures s == {x}
  {
    assert |s - {x}| == 0;
  }

  lemma ArchivesGrow(entries: seq<Option<RunId>>, read: Reader, n: nat)
    requires n < |entries|
    requires entries[n].Some? ==> read(entries[n].value).Some?
    ensures Archives(entries[..n + 1], read) ==
            if entries[n].Some? then Archives(entries[..n], read)[entries[n].value := read(entries[n].value).value]
            else Archives(entries[..n], read)
  {
    var a, b := entries[..n], entries[..n + 1];
    assert b == a + [entries[n]];
    forall r ensures r in Archives(b, read) <==> r in Archives(a, read) || entries[n] == Some(r) {
      if r in Archives(a, read) {
        var i :| 0 <= i < |a| && a[i] == Some(r);
        assert b[i] == Some(r);
      }
      if entries[n] == Some(r) { assert b[n] == Some(r); }
    }
  }

  lemma SupersededGrows(archives: map<RunId, Archive>, run: RunId, archive: Archive)
    requires Linked(archives) && LinkOk(run, archive)
    requires run in archives ==> archives[run] == archive
    ensures Linked(archives[run := archive])
    ensures Superseded(archives[run := archive]) ==
            Superseded(archives) + if run == INITIAL then {} else {archive.supersession.supersedes}
  {
    var more := archives[run := archive];
    forall p | p in Superseded(archives) ensures p in Superseded(more) {
      var r :| r in archives && r != INITIAL && archives[r].supersession.supersedes == p;
      assert r in more && more[r].supersession.supersedes == p;
    }
    if run != INITIAL { assert run in more; }
  }

  /** Without exactly one archive that nothing supersedes, or with a link out of the directory, there is no chain. */
  lemma NoChain(archives: map<RunId, Archive>)
    requires Linked(archives)
    requires archives == map[] || !(Superseded(archives) <= archives.Keys)
             || |archives.Keys - Superseded(archives)| != 1
    ensures !exists chain :: IsChain(archives, chain)
  {
    forall chain | IsChain(archives, chain) ensures false { ChainHead(archives, chain); }
  }
}
