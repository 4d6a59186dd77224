/**
The two faces of recovery: after a disciplined run the next writer always
completes the archive, and without the discipline a run of three writers can
leave half an archive that no later writer can complete.
*/
module PublicationOutcome {
  import opened Prelude
  import opened PublicationModel
  import opened PublicationSafety
  import opened PublicationRecovery
  import opened PublicationTakeover

  /** Every writer that took part has returned or crashed. */
  predicate AllStopped(s: System) {
    forall p :: p in s.writers ==> Stopped(s.writers[p].pc)
  }

  /** Crash the writers of a disciplined run wherever you like: the next writer finds a complete archive,
      finishes the crashed transaction with the bytes it staged, or publishes its own. */
  method NextWriter(hash: Hash, run: seq<Event>, p: Pid, intent: Intent) returns (d: Directory, outcome: Outcome)
    requires Disciplined(hash, run) && AllStopped(Execute(hash, EMPTY, run)) && p !in Execute(hash, EMPTY, run).writers
    ensures outcome in {AlreadyComplete, Recovered, Published} && Complete(hash, d)
    ensures outcome == AlreadyComplete <==> Marker in Execute(hash, EMPTY, run).dir.public
    ensures outcome == Recovered <==>
              Marker !in Execute(hash, EMPTY, run).dir.public && StageWaits(Execute(hash, EMPTY, run).dir)
    ensures outcome != AlreadyComplete ==> d.claim.None? && d.stages == OtherStages(Execute(hash, EMPTY, run).dir)
    ensures outcome == AlreadyComplete ==>
              Complete(hash, Execute(hash, EMPTY, run).dir) && d.public == Execute(hash, EMPTY, run).dir.public
    ensures outcome == Published ==> exists t :: Carried(hash, d, intent, t)
    ensures outcome == Recovered ==>
              exists t: nat :: t < |Execute(hash, EMPTY, run).intents| && ClaimTxn(Execute(hash, EMPTY, run).dir, t)
                          && Carried(hash, d, Execute(hash, EMPTY, run).intents[t], t)
  {
    var start := Execute(hash, EMPTY, run);
    DisciplinedRunsResumable(hash, run);
    StoppedWritersHoldNoLocks(hash, run);
    var s;
    s, outcome := TakeOver(hash, start, p, intent);
    d := s.dir;
    if outcome == Recovered {
      ghost var t := start.dir.files[start.dir.claim.value].txn;
      RecoveredOriginal(hash, start, d);
      assert ClaimTxn(start.dir, t);
    }
  }

  /** The claim name refers to the claim of transaction `t`. */
  predicate ClaimTxn(d: Directory, t: Txn) {
    d.claim.Some? && d.claim.value < |d.files| && d.files[d.claim.value] == ClaimRecord(t)
  }

  /** Recovery from a resumable directory publishes exactly the bytes the crashed transaction staged. */
  lemma RecoveredOriginal(hash: Hash, s: System, d: Directory)
    requires Safe(hash, s) && Resumable(hash, s.dir) && Marker !in s.dir.public && Finished(d, s.dir)
    requires s.dir.files <= d.files
    ensures var t := s.dir.files[s.dir.claim.value].txn; t < |s.intents| && Carried(hash, d, s.intents[t], t)
  {
    var t := s.dir.files[s.dir.claim.value].txn;
    assert s.dir.stages[t][Marker] < |s.dir.files| && t < |s.intents|;
    forall k ensures Resolves(d.files, d.public, k) && d.files[d.public[k]] == Staged(hash, t, s.intents[t], k) {
      if k == Markdown {} else if k == Json {} else {}
    }
  }

  // ---------------------------------------------------------------- a run without the discipline

  lemma ExecuteAppend(hash: Hash, s: System, run: seq<Event>, e: Event)
    ensures Execute(hash, s, run + [e]) == Apply(hash, Execute(hash, s, run), e)
  {
    assert (run + [e])[..|run|] == run;
  }

  /** The first writer crashes holding the claim name, before it has a stage. */
  function AfterFirst(x: Intent): System {
    System(Directory([ClaimRecord(0)], map[], map[], Some(0), map[]), [x], map[0 := Writer(x, Crashed)])
  }

  /** The second writer has prepared a claim of its own, while the name is taken. */
  function AfterPrepare(x: Intent): System {
    System(Directory([ClaimRecord(0), ClaimRecord(1)], map[], map[], Some(0), map[1 := 1]), [x, x],
           map[0 := Writer(x, Crashed), 1 := Writer(x, LinkClaim(1, 1))])
  }

  /** The second writer has opened the abandoned claim and not yet locked it. */
  function AfterSecond(x: Intent): System {
    System(Directory([ClaimRecord(0), ClaimRecord(1)], map[], map[], Some(0), map[]), [x, x],
           map[0 := Writer(x, Crashed), 1 := Writer(x, LockClaim(0))])
  }

  /** The third writer has locked the abandoned claim. */
  function AfterLock(x: Intent): System {
    System(Directory([ClaimRecord(0), ClaimRecord(1), ClaimRecord(2)], map[], map[], Some(0), map[0 := 2]), [x, x, x],
           map[0 := Writer(x, Crashed), 1 := Writer(x, LockClaim(0)), 2 := Writer(x, OpenStage(0, 0))])
  }

  /** The third writer has found no stage to discard. */
  function AfterLook(x: Intent): System {
    System(Directory([ClaimRecord(0), ClaimRecord(1), ClaimRecord(2)], map[], map[], Some(0), map[0 := 2]), [x, x, x],
           map[0 := Writer(x, Crashed), 1 := Writer(x, LockClaim(0)), 2 := Writer(x, DropClaim(0, 0))])
  }

  /** The third writer has dropped the abandoned claim and starts over. */
  function AfterDrop(x: Intent): System {
    System(Directory([ClaimRecord(0), ClaimRecord(1), ClaimRecord(2)], map[], map[], None, map[]), [x, x, x],
           map[0 := Writer(x, Crashed), 1 := Writer(x, LockClaim(0)), 2 := Writer(x, Prepare)])
  }

  /** The third writer has found the abandoned claim and not yet opened it. */
  function AfterArrival(x: Intent): System {
    System(Directory([ClaimRecord(0), ClaimRecord(1), ClaimRecord(2)], map[], map[], Some(0), map[]), [x, x, x],
           map[0 := Writer(x, Crashed), 1 := Writer(x, LockClaim(0)), 2 := Writer(x, OpenClaim)])
  }

  /** The third writer has dropped the abandoned claim and linked its own. */
  function AfterThird(x: Intent): System {
    System(Directory([ClaimRecord(0), ClaimRecord(1), ClaimRecord(2), ClaimRecord(3)],
                     map[], map[], Some(3), map[3 := 2]),
           [x, x, x, x],
           map[0 := Writer(x, Crashed), 1 := Writer(x, LockClaim(0)), 2 := Writer(x, MakeStage(3, 3))])
  }

  /** The second writer has locked the stale inode and unlinked the third writer's live claim. */
  function AfterStaleLock(x: Intent): System {
    System(Directory([ClaimRecord(0), ClaimRecord(1), ClaimRecord(2), ClaimRecord(3)],
                     map[], map[], None, map[3 := 2, 0 := 1]),
           [x, x, x, x],
           map[0 := Writer(x, Crashed), 1 := Writer(x, Retry), 2 := Writer(x, MakeStage(3, 3))])
  }

  lemma Do(hash: Hash, run: seq<Event>, e: Event, s: System) returns (longer: seq<Event>)
    requires Execute(hash, EMPTY, run) == s
    ensures longer == run + [e] && Execute(hash, EMPTY, longer) == Apply(hash, s, e)
  {
    ExecuteAppend(hash, EMPTY, run, e);
    longer := run + [e];
  }

  lemma FirstWriter(hash: Hash, x: Intent) returns (run: seq<Event>)
    ensures Execute(hash, EMPTY, run) == AfterFirst(x)
  {
    var s0 := Apply(hash, EMPTY, Arrive(0, x));
    var s1 := Apply(hash, s0, Act(0));
    var s2 := Apply(hash, s1, Act(0));
    var s3 := Apply(hash, s2, Act(0));
    run := Do(hash, [], Arrive(0, x), EMPTY);
    run := Do(hash, run, Act(0), s0);
    assert s1.writers == map[0 := Writer(x, Prepare)] && s1.dir == EMPTY.dir;
    run := Do(hash, run, Act(0), s1);
    assert s2.writers == map[0 := Writer(x, LinkClaim(0, 0))];
    run := Do(hash, run, Act(0), s2);
    assert s3.writers == map[0 := Writer(x, MakeStage(0, 0))];
    run := Do(hash, run, Crash(0), s3);
    assert Apply(hash, s3, Crash(0)).dir.locks == map[];
    assert Apply(hash, s3, Crash(0)) == AfterFirst(x);
  }

  lemma SecondWriterPrepares(hash: Hash, x: Intent, before: seq<Event>) returns (run: seq<Event>)
    requires Execute(hash, EMPTY, before) == AfterFirst(x)
    ensures Execute(hash, EMPTY, run) == AfterPrepare(x)
  {
    var s0 := AfterFirst(x);
    var s1 := Apply(hash, s0, Arrive(1, x));
    run := Do(hash, before, Arrive(1, x), s0);
    var s2 := Apply(hash, s1, Act(1));
    run := Do(hash, run, Act(1), s1);
    assert s2.writers[1] == Writer(x, Prepare);
    run := Do(hash, run, Act(1), s2);
    assert Apply(hash, s2, Act(1)) == AfterPrepare(x);
  }

  lemma SecondWriter(hash: Hash, x: Intent, before: seq<Event>) returns (run: seq<Event>)
    requires Execute(hash, EMPTY, before) == AfterPrepare(x)
    ensures Execute(hash, EMPTY, run) == AfterSecond(x)
  {
    var s0 := AfterPrepare(x);
    var s1 := Apply(hash, s0, Act(1));
    run := Do(hash, before, Act(1), s0);
    assert s1.writers[1] == Writer(x, OpenClaim) && s1.dir.locks == map[];
    run := Do(hash, run, Act(1), s1);
    assert Apply(hash, s1, Act(1)) == AfterSecond(x);
  }

  lemma ThirdWriterArrives(hash: Hash, x: Intent, before: seq<Event>) returns (run: seq<Event>)
    requires Execute(hash, EMPTY, before) == AfterSecond(x)
    ensures Execute(hash, EMPTY, run) == AfterArrival(x)
  {
    var s0 := AfterSecond(x);
    run := before;
    var s1 := Apply(hash, s0, Arrive(2, x));
    run := Do(hash, run, Arrive(2, x), s0);
    var s2 := Apply(hash, s1, Act(2));
    run := Do(hash, run, Act(2), s1);
    assert s2.writers[2] == Writer(x, Prepare);
    var s3 := Apply(hash, s2, Act(2));
    run := Do(hash, run, Act(2), s2);
    assert s3.writers[2] == Writer(x, LinkClaim(2, 2));
    var s4 := Apply(hash, s3, Act(2));
    run := Do(hash, run, Act(2), s3);
    assert s4.dir.locks == map[];
    assert s4 == AfterArrival(x);
  }

  lemma ThirdWriterLocks(hash: Hash, x: Intent, before: seq<Event>) returns (run: seq<Event>)
    requires Execute(hash, EMPTY, before) == AfterArrival(x)
    ensures Execute(hash, EMPTY, run) == AfterLock(x)
  {
    var s0 := AfterArrival(x);
    var s1 := Apply(hash, s0, Act(2));
    run := Do(hash, before, Act(2), s0);
    assert s1.writers[2] == Writer(x, LockClaim(0));
    var s2 := Apply(hash, s1, Act(2));
    run := Do(hash, run, Act(2), s1);
    assert s2 == AfterLock(x);
  }

  lemma ThirdWriterLooks(hash: Hash, x: Intent, before: seq<Event>) returns (run: seq<Event>)
    requires Execute(hash, EMPTY, before) == AfterLock(x)
    ensures Execute(hash, EMPTY, run) == AfterLook(x)
  {
    run := Do(hash, before, Act(2), AfterLock(x));
    assert Apply(hash, AfterLock(x), Act(2)) == AfterLook(x);
  }

  lemma ThirdWriterDrops(hash: Hash, x: Intent, before: seq<Event>) returns (run: seq<Event>)
    requires Execute(hash, EMPTY, before) == AfterLook(x)
    ensures Execute(hash, EMPTY, run) == AfterDrop(x)
  {
    var s0 := AfterLook(x);
    var s1 := Apply(hash, s0, Act(2));
    run := Do(hash, before, Act(2), s0);
    assert s1.writers[2] == Writer(x, Retry) && s1.dir.claim == None;
    run := Do(hash, run, Act(2), s1);
    assert Apply(hash, s1, Act(2)).dir.locks == map[];
    assert Apply(hash, s1, Act(2)) == AfterDrop(x);
  }

  lemma ThirdWriterClaims(hash: Hash, x: Intent, before: seq<Event>) returns (run: seq<Event>)
    requires Execute(hash, EMPTY, before) == AfterDrop(x)
    ensures Execute(hash, EMPTY, run) == AfterThird(x)
  {
    var s0 := AfterDrop(x);
    var s1 := Apply(hash, s0, Act(2));
    run := Do(hash, before, Act(2), s0);
    assert s1.writers[2] == Writer(x, LinkClaim(3, 3));
    var s2 := Apply(hash, s1, Act(2));
    run := Do(hash, run, Act(2), s1);
    assert s2 == AfterThird(x);
  }

  lemma SecondWriterUnlinks(hash: Hash, x: Intent, before: seq<Event>) returns (run: seq<Event>)
    requires Execute(hash, EMPTY, before) == AfterThird(x)
    ensures Execute(hash, EMPTY, run) == AfterStaleLock(x)
  {
    var s0 := AfterThird(x);
    run := before;
    var s1 := Apply(hash, s0, Act(1));
    run := Do(hash, run, Act(1), s0);
    assert s1.writers[1] == Writer(x, OpenStage(0, 0));
    var s2 := Apply(hash, s1, Act(1));
    run := Do(hash, run, Act(1), s1);
    assert s2.writers[1] == Writer(x, DropClaim(0, 0));
    var s3 := Apply(hash, s2, Act(1));
    run := Do(hash, run, Act(1), s2);
    assert s3.writers[1] == Writer(x, Retry) && s3.dir.claim == None;
    assert s3 == AfterStaleLock(x);
  }

  /** The third writer has staged everything under a claim that is gone. */
  predicate StagedWithoutClaim(s: System, x: Intent) {
    && s.writers == map[0 := Writer(x, Crashed), 1 := Writer(x, Retry), 2 := Writer(x, LinkFile(Markdown, 3, 3))]
    && 3 in s.dir.stages && Markdown in s.dir.stages[3] && s.dir.claim == None && s.dir.public == map[]
  }

  /** The third writer's stage holds the markdown; the other two files are still to be written. */
  predicate MarkdownStaged(s: System, x: Intent) {
    && s.writers == map[0 := Writer(x, Crashed), 1 := Writer(x, Retry), 2 := Writer(x, StageFile(Json, 3, 3))]
    && 3 in s.dir.stages && s.dir.stages[3].Keys == {Markdown} && s.dir.claim == None && s.dir.public == map[]
    && 3 < |s.intents| && s.intents[3] == x
  }

  lemma ThirdWriterStarts(hash: Hash, x: Intent, before: seq<Event>) returns (run: seq<Event>)
    requires Execute(hash, EMPTY, before) == AfterStaleLock(x)
    ensures MarkdownStaged(Execute(hash, EMPTY, run), x)
  {
    var s0 := AfterStaleLock(x);
    var s1 := Apply(hash, s0, Act(2));
    run := Do(hash, before, Act(2), s0);
    assert s1.writers[2] == Writer(x, StageFile(Markdown, 3, 3)) && s1.dir.stages[3] == map[];
    var s2 := Apply(hash, s1, Act(2));
    run := Do(hash, run, Act(2), s1);
    assert s2.dir.stages[3].Keys == {Markdown};
  }

  lemma ThirdWriterStages(hash: Hash, x: Intent, before: seq<Event>) returns (run: seq<Event>)
    requires MarkdownStaged(Execute(hash, EMPTY, before), x)
    ensures StagedWithoutClaim(Execute(hash, EMPTY, run), x)
  {
    var s0 := Execute(hash, EMPTY, before);
    var s1 := Apply(hash, s0, Act(2));
    run := Do(hash, before, Act(2), s0);
    assert s1.writers[2] == Writer(x, StageFile(Marker, 3, 3)) && s1.dir.stages[3].Keys == {Markdown, Json};
    var s2 := Apply(hash, s1, Act(2));
    run := Do(hash, run, Act(2), s1);
    assert s2.writers[2] == Writer(x, LinkFile(Markdown, 3, 3));
  }

  lemma ThirdWriterLinks(hash: Hash, x: Intent, before: seq<Event>) returns (run: seq<Event>)
    requires StagedWithoutClaim(Execute(hash, EMPTY, before), x)
    ensures var s := Execute(hash, EMPTY, run);
            AllStopped(s) && s.dir.public.Keys == {Markdown} && s.dir.claim == None
  {
    var s0 := Execute(hash, EMPTY, before);
    var s1 := Apply(hash, s0, Act(2));
    run := Do(hash, before, Act(2), s0);
    assert s1.writers[2] == Writer(x, LinkFile(Json, 3, 3));
    var s2 := Apply(hash, s1, Crash(1));
    run := Do(hash, run, Crash(1), s1);
    run := Do(hash, run, Crash(2), s2);
  }

  /** Without the discipline: a writer that opened an abandoned claim before another writer recovered it
      unlinks that writer's live claim.  Crashes then leave a markdown file without a marker and without a
      claim, which no later writer can complete (`TakeOver` answers `Refused`). */
  lemma StaleLockLeavesHalfArchive(hash: Hash, x: Intent) returns (run: seq<Event>)
    ensures var s := Execute(hash, EMPTY, run);
            && Safe(hash, s) && AllStopped(s) && s.dir.locks == map[]
            && Markdown in s.dir.public && Marker !in s.dir.public
            && !Recoverable(hash, s.dir)
            && !Disciplined(hash, run)
  {
    run := FirstWriter(hash, x);
    run := SecondWriterPrepares(hash, x, run);
    run := SecondWriter(hash, x, run);
    run := ThirdWriterArrives(hash, x, run);
    run := ThirdWriterLocks(hash, x, run);
    run := ThirdWriterLooks(hash, x, run);
    run := ThirdWriterDrops(hash, x, run);
    run := ThirdWriterClaims(hash, x, run);
    run := SecondWriterUnlinks(hash, x, run);
    run := ThirdWriterStarts(hash, x, run);
    run := ThirdWriterStages(hash, x, run);
    run := ThirdWriterLinks(hash, x, run);
    MarkerImpliesFiles(hash, run);
    StoppedWritersHoldNoLocks(hash, run);
    if Disciplined(hash, run) { DisciplinedRunsResumable(hash, run); }
  }
}
