/**
A concrete run in which a trading day is recorded after the only item was
finished: the run is started again with that day, sealed complete, and the day
stays uncovered.
*/
module EngineLateDay {
  import opened Prelude
  import opened ControlModel
  import opened MarketFacts
  import opened EngineModel
  import opened EngineLaws
  import opened EngineSafety

  const CODE: Code := "600000"

  const TWO_DAYS := Window(2, 1, 2)

  const NO_ANSWER := Answer(false, None, None, None)

  /** The first of the two days is already known to be suspended. */
  const FACTS := Facts(map[], map[(CODE, 1) := "h"], map[])

  const UNIVERSE: map<Code, Security> := map[CODE := Security(1, None)]

  const QUEUED_REQUEST := Request(ColdStart, Some(TWO_DAYS), Pending, None, false)

  const CLAIMED_REQUEST := Request(ColdStart, Some(TWO_DAYS), Claimed, Some("o"), true)

  const FRESH := Item(1, 2, Todo, 0, None, None)

  const RESERVED := Item(1, 2, ItemStatus.Running, 1, Some("o"), Some(1))

  const FINISHED := Item(1, 2, Done, 1, None, None)

  function OneRun(request: Request, status: RunStatus, completed: nat, item: Item): Db {
    Db(map["q" := request], map["r" := Run("q", ColdStart, status, TWO_DAYS, 1, completed, 0)],
       map["r" := map[CODE := item]], map["r" := UNIVERSE], None)
  }

  function AtWork(item: Item, completed: nat, w: Worker): World {
    World(OneRun(CLAIMED_REQUEST, Active, completed, item), FACTS, w,
          if item == FRESH then map[] else map[("r", CODE) := [1]])
  }

  function JobOn(sessions: seq<Date>, todo: seq<Code>): Job { Job("r", sessions, "o", todo) }

  const CREATED := World(OneRun(CLAIMED_REQUEST, Waiting, 0, FRESH), FACTS, Idle, map[])

  const SEALED :=
    World(OneRun(CLAIMED_REQUEST.(status := Completed), Complete, 1, FINISHED), FACTS, Idle, map[("r", CODE) := [1]])

  const SUBMISSION := Control(Submit("q", ColdStart, Some(TWO_DAYS)))

  const CLAIM := Control(ClaimRequest("q", "o"))

  const CREATION := Control(CreateRun("q", "r", UNIVERSE, None))

  const FIRST_START :=
    [Begin("r", [1], "o", [CODE]), Scan(0, 1), Fetch(NO_ANSWER), FetchFactors(NO_ANSWER), Mark, Crash]

  const SECOND_START := [Begin("r", [1, 2], "o", [CODE]), Scan(0, 1), Finish]

  // ---------------------------------------------------------------- step by step

  function OnlyRequest(request: Request): World {
    World(ControlModel.EMPTY.(requests := map["q" := request]), FACTS, Idle, map[])
  }

  lemma Submitted()
    ensures Step(Start(FACTS), SUBMISSION) == OnlyRequest(QUEUED_REQUEST)
  {}

  lemma RequestTaken()
    ensures Step(OnlyRequest(QUEUED_REQUEST), CLAIM) == OnlyRequest(CLAIMED_REQUEST)
  {
    assert map["q" := QUEUED_REQUEST]["q" := CLAIMED_REQUEST] == map["q" := CLAIMED_REQUEST];
  }

  lemma RunCreated()
    ensures Step(OnlyRequest(CLAIMED_REQUEST), CREATION) == CREATED
  {
    assert NewItems(UNIVERSE, None, TWO_DAYS) == map[CODE := FRESH];
    assert |UNIVERSE| == 1;
  }

  lemma Begun()
    ensures Step(CREATED, Begin("r", [1], "o", [CODE])) == AtWork(FRESH, 0, Scanning(JobOn([1], [CODE])))
  {
    assert (set c | c in [CODE]) == UNIVERSE.Keys;
  }

  lemma ItemTaken()
    ensures Step(AtWork(FRESH, 0, Scanning(JobOn([1], [CODE]))), Scan(0, 1))
            == AtWork(RESERVED, 0, Ingesting(JobOn([1], []), CODE))
  {
    assert [CODE][1..] == [];
    assert map[CODE := FRESH][CODE := RESERVED] == map[CODE := RESERVED];
  }

  lemma OneExpected(item: Item)
    requires item.start == 1 && item.end == 2
    ensures ExpectedOf(OneRun(CLAIMED_REQUEST, Active, 0, item), "r", CODE, [1]) == [1]
  {
    assert [1][..0] == [];
  }

  lemma NothingMissing()
    ensures Step(AtWork(RESERVED, 0, Ingesting(JobOn([1], []), CODE)), Fetch(NO_ANSWER))
            == AtWork(RESERVED, 0, Factoring(JobOn([1], []), CODE, [1]))
  {
    OneExpected(RESERVED);
    assert MissingDates(FACTS, CODE, [1]) == {};
  }

  lemma NothingUnfactored()
    ensures Step(AtWork(RESERVED, 0, Factoring(JobOn([1], []), CODE, [1])), FetchFactors(NO_ANSWER))
            == AtWork(RESERVED, 0, Marking(JobOn([1], []), CODE, Done))
  {
    assert Unfactored(FACTS, CODE, [1]) == {};
  }

  lemma OneDone()
    ensures DoneCount(map[CODE := FINISHED]) == 1 && FailedCount(map[CODE := FINISHED]) == 0
  {
    var items := map[CODE := FINISHED];
    assert (set c | c in items && CountsDone(items[c].status)) == {CODE};
    assert (set c | c in items && CountsFailed(items[c].status)) == {};
  }

  lemma MarkApplied()
    ensures var op := MarkItem("r", CODE, Done); var db := OneRun(CLAIMED_REQUEST, Active, 0, RESERVED);
            Allowed(db, op) && Apply(db, op) == OneRun(CLAIMED_REQUEST, Active, 1, FINISHED)
  {
    OneDone();
    assert Marked(RESERVED, Done) == FINISHED;
    assert map[CODE := RESERVED][CODE := FINISHED] == map[CODE := FINISHED];
  }

  lemma ItemMarked()
    ensures Step(AtWork(RESERVED, 0, Marking(JobOn([1], []), CODE, Done)), Mark)
            == AtWork(FINISHED, 1, Scanning(JobOn([1], [])))
  {
    MarkApplied();
  }

  lemma BegunAgain()
    ensures Step(AtWork(FINISHED, 1, Idle), Begin("r", [1, 2], "o", [CODE]))
            == AtWork(FINISHED, 1, Scanning(JobOn([1, 2], [CODE])))
  {
    assert (set c | c in [CODE]) == UNIVERSE.Keys;
  }

  lemma PassedOver()
    ensures Step(AtWork(FINISHED, 1, Scanning(JobOn([1, 2], [CODE]))), Scan(0, 1))
            == AtWork(FINISHED, 1, Scanning(JobOn([1, 2], [])))
  {
    assert [CODE][1..] == [];
  }

  lemma RunSealed()
    ensures Step(AtWork(FINISHED, 1, Scanning(JobOn([1, 2], []))), Finish) == SEALED
  {
    OneDone();
  }

  // ---------------------------------------------------------------- the run

  lemma Next(events: seq<Event>, e: Event, x: World) returns (longer: seq<Event>)
    requires Play(Start(FACTS), events) == x
    ensures longer == events + [e] && Play(Start(FACTS), longer) == Step(x, e)
  {
    longer := events + [e];
    assert longer[..|events|] == events;
  }

  lemma ToCreation() returns (events: seq<Event>)
    ensures Play(Start(FACTS), events) == CREATED && events == [SUBMISSION, CLAIM, CREATION]
  {
    Submitted();
    events := Next([], SUBMISSION, Start(FACTS));
    RequestTaken();
    events := Next(events, CLAIM, OnlyRequest(QUEUED_REQUEST));
    RunCreated();
    events := Next(events, CREATION, OnlyRequest(CLAIMED_REQUEST));
  }

  lemma ToFetched(before: seq<Event>) returns (events: seq<Event>)
    requires Play(Start(FACTS), before) == CREATED
    ensures Play(Start(FACTS), events) == AtWork(RESERVED, 0, Factoring(JobOn([1], []), CODE, [1]))
    ensures events == before + FIRST_START[..3]
  {
    Begun();
    events := Next(before, Begin("r", [1], "o", [CODE]), CREATED);
    ItemTaken();
    events := Next(events, Scan(0, 1), AtWork(FRESH, 0, Scanning(JobOn([1], [CODE]))));
    NothingMissing();
    events := Next(events, Fetch(NO_ANSWER), AtWork(RESERVED, 0, Ingesting(JobOn([1], []), CODE)));
  }

  /** Started when the calendar had one day, the worker finishes the item and crashes before the run is sealed. */
  lemma ToCrash(before: seq<Event>) returns (events: seq<Event>)
    requires Play(Start(FACTS), before) == AtWork(RESERVED, 0, Factoring(JobOn([1], []), CODE, [1]))
    ensures Play(Start(FACTS), events) == AtWork(FINISHED, 1, Idle) && events == before + FIRST_START[3..]
  {
    NothingUnfactored();
    events := Next(before, FetchFactors(NO_ANSWER), AtWork(RESERVED, 0, Factoring(JobOn([1], []), CODE, [1])));
    ItemMarked();
    events := Next(events, Mark, AtWork(RESERVED, 0, Marking(JobOn([1], []), CODE, Done)));
    events := Next(events, Crash, AtWork(FINISHED, 1, Scanning(JobOn([1], []))));
  }

  /** Started again when the calendar has both days, it finds nothing left to do. */
  lemma ToSeal(before: seq<Event>) returns (events: seq<Event>)
    requires Play(Start(FACTS), before) == AtWork(FINISHED, 1, Idle)
    ensures Play(Start(FACTS), events) == SEALED && events == before + SECOND_START
  {
    BegunAgain();
    events := Next(before, Begin("r", [1, 2], "o", [CODE]), AtWork(FINISHED, 1, Idle));
    PassedOver();
    events := Next(events, Scan(0, 1), AtWork(FINISHED, 1, Scanning(JobOn([1, 2], [CODE]))));
    RunSealed();
    events := Next(events, Finish, AtWork(FINISHED, 1, Scanning(JobOn([1, 2], []))));
  }

  /** The day given at the second start only is not settled in the sealed run, although the calendar only grew. */
  lemma LateDayUncovered() returns (events: seq<Event>)
    ensures FactsSound(FACTS)
    ensures var x := Play(Start(FACTS), events);
            && Sealed(x.db, "r") && Known(x.db, "r", CODE) && Listed(x.db, "r", CODE, 2)
            && !Settled(x.facts, CODE, 2) && !Covered(x.facts, CODE, 2)
    ensures exists i :: IsStart(events, i, "r") && 2 in events[i].sessions
    ensures CalendarGrows(events, "r")
  {
    var created := ToCreation();
    var fetched := ToFetched(created);
    var crashed := ToCrash(fetched);
    events := ToSeal(crashed);
    assert events == created + FIRST_START + SECOND_START;
    TwoStarts(events);
    SealedLate();
  }

  lemma SealedLate()
    ensures Sealed(SEALED.db, "r") && Known(SEALED.db, "r", CODE) && Listed(SEALED.db, "r", CODE, 2)
    ensures !Settled(SEALED.facts, CODE, 2) && !Covered(SEALED.facts, CODE, 2)
  {}

  lemma TwoStarts(events: seq<Event>)
    requires events == [SUBMISSION, CLAIM, CREATION] + FIRST_START + SECOND_START
    ensures exists i :: IsStart(events, i, "r") && 2 in events[i].sessions
    ensures CalendarGrows(events, "r")
  {
    assert events[3] == FIRST_START[0] && events[9] == SECOND_START[0];
    forall i | IsStart(events, i, "r") ensures i == 3 || i == 9 {
      if 3 <= i < 9 { assert events[i] == FIRST_START[i - 3]; }
      else if i >= 9 { assert events[i] == SECOND_START[i - 9]; }
    }
    assert IsStart(events, 9, "r");
  }
}
