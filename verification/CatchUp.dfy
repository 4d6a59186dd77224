/** Daily catch-up: plan the uncovered sessions of every listed security, and run the plan to the end. */
module CatchUp {
  import opened Prelude
  import opened ControlModel
  import opened ControlLaws
  import opened MarketFacts
  import opened EngineModel
  import opened EngineLaws
  import opened EngineSafety
  import opened ControlPlane

  /** A universe snapshot: securities in code order, no code twice. */
  type Snapshot = seq<(Code, Security)>

  predicate DistinctCodes(universe: Snapshot) {
    forall i, j :: 0 <= i < j < |universe| ==> universe[i].0 != universe[j].0
  }

  datatype Plan = Plan(start: Date, securities: map<Code, Security>, ranges: map<Code, (Date, Date)>)

  /** `for_window`: listed at some time of the window. */
  predicate Eligible(s: Security, base: Date, target: Date) {
    s.list <= target && (s.delist.Some? ==> base <= s.delist.value)
  }

  /** The trading days of the window on which a security is listed. */
  function ListedSessions(s: Security, sessions: seq<Date>): seq<Date>
    requires sessions != []
  {
    Between(sessions, s.list, if s.delist.Some? then s.delist.value else sessions[|sessions| - 1])
  }

  function Uncovered(f: Facts, code: Code, dates: seq<Date>): seq<Date> {
    if dates == [] then []
    else
      var front, d := Uncovered(f, code, dates[..|dates| - 1]), dates[|dates| - 1];
      if Covered(f, code, d) then front else front + [d]
  }

  predicate Needed(f: Facts, code: Code, s: Security, sessions: seq<Date>, d: Date)
    requires sessions != []
  {
    d in ListedSessions(s, sessions) && !Covered(f, code, d)
  }

  /** The interval from the first to the last needed session of a security. */
  predicate Tight(f: Facts, code: Code, s: Security, sessions: seq<Date>, range: (Date, Date))
    requires sessions != []
  {
    && Needed(f, code, s, sessions, range.0) && Needed(f, code, s, sessions, range.1)
    && forall d :: d in sessions && Needed(f, code, s, sessions, d) ==> range.0 <= d <= range.1
  }

  /** Nothing is missing anywhere. */
  ghost predicate AllSettled(f: Facts, universe: Snapshot, sessions: seq<Date>)
    requires sessions != []
  {
    forall i, d :: 0 <= i < |universe| ==> !Needed(f, universe[i].0, universe[i].1, sessions, d)
  }

  /** A session before a given day is missing somewhere. */
  ghost predicate GapBefore(f: Facts, universe: Snapshot, sessions: seq<Date>, start: Date)
    requires sessions != []
  {
    exists i, d :: 0 <= i < |universe| && d < start && Needed(f, universe[i].0, universe[i].1, sessions, d)
  }

  /** A security is planned with its tight interval, or needs nothing. */
  ghost predicate SecurityPlanned(f: Facts, code: Code, s: Security, sessions: seq<Date>, plan: Plan)
    requires sessions != []
  {
    if code in plan.ranges && code in plan.securities
    then plan.securities[code] == s && Tight(f, code, s, sessions, plan.ranges[code])
    else forall d :: !Needed(f, code, s, sessions, d)
  }

  predicate FromUniverse(universe: Snapshot, code: Code) { exists i :: 0 <= i < |universe| && universe[i].0 == code }

  /** The plan starts with its earliest interval. */
  predicate StartsRight(plan: Plan) {
    && (forall c :: c in plan.ranges ==> plan.start <= plan.ranges[c].0)
    && (plan.ranges != map[] ==> exists c :: c in plan.ranges && plan.start == plan.ranges[c].0)
  }

  /** A plan selects exactly the securities with a needed session, each with its tight interval. */
  ghost predicate Plans(f: Facts, universe: Snapshot, sessions: seq<Date>, plan: Plan)
    requires sessions != []
  {
    && plan.securities.Keys == plan.ranges.Keys
    && AllPlanned(f, universe, sessions, plan)
    && AllKnown(universe, plan.ranges.Keys)
    && StartsRight(plan)
  }

  ghost predicate AllPlanned(f: Facts, universe: Snapshot, sessions: seq<Date>, plan: Plan)
    requires sessions != []
  {
    forall i :: 0 <= i < |universe| ==> SecurityPlanned(f, universe[i].0, universe[i].1, sessions, plan)
  }

  predicate AllKnown(universe: Snapshot, codes: set<Code>) { forall c :: c in codes ==> FromUniverse(universe, c) }

  lemma {:induction false} UncoveredMeans(f: Facts, code: Code, dates: seq<Date>)
    requires Ascending(dates)
    ensures var u := Uncovered(f, code, dates);
            && (forall d :: d in u <==> d in dates && !Covered(f, code, d))
            && Ascending(u)
  {
    if dates != [] {
      var d, front := dates[|dates| - 1], Uncovered(f, code, dates[..|dates| - 1]);
      UncoveredMeans(f, code, dates[..|dates| - 1]);
      SplitLast(dates);
      AscendingMore(front, d);
    }
  }

  lemma AscendingMore(dates: seq<Date>, d: Date)
    requires Ascending(dates) && forall e :: e in dates ==> e < d
    ensures Ascending(dates + [d])
  {
    forall i | 0 <= i < |dates| ensures dates[i] < d { assert dates[i] in dates; }
  }

  lemma ListedMeans(s: Security, sessions: seq<Date>, d: Date)
    requires sessions != [] && Ascending(sessions)
    ensures d in ListedSessions(s, sessions) <==>
              d in sessions && s.list <= d && (s.delist.Some? ==> d <= s.delist.value)
  {
    BetweenMeans(sessions, s.list, if s.delist.Some? then s.delist.value else sessions[|sessions| - 1], d);
  }

  /** First and last uncovered listed session, if there is one. */
  function NeededRange(f: Facts, code: Code, s: Security, sessions: seq<Date>): Option<(Date, Date)>
    requires sessions != []
  {
    var missing := Uncovered(f, code, ListedSessions(s, sessions));
    if missing == [] then None else Some((missing[0], missing[|missing| - 1]))
  }

  lemma NeededRangeMeans(f: Facts, code: Code, s: Security, sessions: seq<Date>)
    requires sessions != [] && Ascending(sessions)
    ensures NeededRange(f, code, s, sessions).None? <==> forall d :: !Needed(f, code, s, sessions, d)
    ensures NeededRange(f, code, s, sessions).Some? ==>
              Tight(f, code, s, sessions, NeededRange(f, code, s, sessions).value)
  {
    var listed := ListedSessions(s, sessions);
    var missing := Uncovered(f, code, listed);
    BetweenAscending(sessions, s.list, if s.delist.Some? then s.delist.value else sessions[|sessions| - 1]);
    UncoveredMeans(f, code, listed);
    if missing != [] {
      assert Needed(f, code, s, sessions, missing[0]);
      assert missing[0] in missing && missing[|missing| - 1] in missing;
      forall d | Needed(f, code, s, sessions, d) ensures missing[0] <= d <= missing[|missing| - 1] {
        var i :| 0 <= i < |missing| && missing[i] == d;
      }
    } else {
      forall d ensures !Needed(f, code, s, sessions, d) { assert d !in missing; }
    }
  }

  /** A security that was never listed in the window needs nothing, so skipping it loses nothing. */
  lemma IneligibleNeedsNothing(f: Facts, code: Code, s: Security, sessions: seq<Date>, base: Date)
    requires sessions != [] && Ascending(sessions) && base <= sessions[0]
    requires !Eligible(s, base, sessions[|sessions| - 1])
    ensures forall d :: !Needed(f, code, s, sessions, d)
  {
    forall d ensures !Needed(f, code, s, sessions, d) { ListedMeans(s, sessions, d); }
  }

  datatype PlanError = IncompleteSessions

  /** The trading days held up to the target reach the target. */
  predicate CalendarProven(sessions: seq<Date>, target: Date) {
    sessions != [] && sessions[|sessions| - 1] == target
  }

  /** `_build_plan` over the sessions the repository holds between the baseline start and the target. */
  method BuildPlan(f: Facts, universe: Snapshot, sessions: seq<Date>, base: Date, target: Date)
      returns (r: Result<Option<Plan>, PlanError>)
    requires DistinctCodes(universe) && Ascending(sessions)
    requires forall d :: d in sessions ==> base <= d <= target
    ensures r.Ok? <==> CalendarProven(sessions, target)
    ensures r.Ok? ==> (r.value.None? <==> AllSettled(f, universe, sessions))
    ensures r.Ok? && r.value.Some? ==> Plans(f, universe, sessions, r.value.value) && r.value.value.ranges != map[]
  {
    if sessions == [] || sessions[|sessions| - 1] != target { return Err(IncompleteSessions); }
    assert sessions[0] in sessions;
    var plan := Plan(target, map[], map[]);
    for n := 0 to |universe|
      invariant Plans(f, universe[..n], sessions, plan)
    {
      var (code, s) := universe[n];
      var range := if Eligible(s, base, target) then NeededRange(f, code, s, sessions) else None;
      NeededRangeMeans(f, code, s, sessions);
      if !Eligible(s, base, target) { IneligibleNeedsNothing(f, code, s, sessions, base); }
      PlanGrows(f, universe, n, sessions, plan, range);
      if range.Some? { plan := Extended(plan, code, s, range.value); }
    }
    assert universe[..|universe|] == universe;
    if plan.ranges != map[] { PlanStartIsEarliest(f, universe, sessions, plan, plan.start); }
    return Ok(if plan.ranges == map[] then None else Some(plan));
  }

  function Extended(plan: Plan, code: Code, s: Security, range: (Date, Date)): Plan {
    var start := if plan.ranges == map[] then range.0 else Min(plan.start, range.0);
    Plan(start, plan.securities[code := s], plan.ranges[code := range])
  }

  lemma StartKept(plan: Plan, code: Code, s: Security, range: (Date, Date))
    requires StartsRight(plan) && code !in plan.ranges
    ensures StartsRight(Extended(plan, code, s, range))
  {
    var after := Extended(plan, code, s, range);
    if plan.ranges == map[] || range.0 <= plan.start {
      assert code in after.ranges && after.start == after.ranges[code].0;
    }
    else {
      var c :| c in plan.ranges && plan.start == plan.ranges[c].0;
      assert c in after.ranges && after.start == after.ranges[c].0;
    }
  }

  /** One more security keeps the plan a plan. */
  lemma PlanGrows(f: Facts, universe: Snapshot, n: nat, sessions: seq<Date>, plan: Plan, range: Option<(Date, Date)>)
    requires DistinctCodes(universe) && n < |universe| && sessions != [] && Plans(f, universe[..n], sessions, plan)
    requires range.None? ==> forall d :: !Needed(f, universe[n].0, universe[n].1, sessions, d)
    requires range.Some? ==> Tight(f, universe[n].0, universe[n].1, sessions, range.value)
    ensures Plans(f, universe[..n + 1], sessions,
              if range.None? then plan else Extended(plan, universe[n].0, universe[n].1, range.value))
  {
    var (code, s) := universe[n];
    NewCode(universe, n, plan.ranges.Keys);
    if range.Some? { StartKept(plan, code, s, range.value); }
    KnownCodes(universe, n, plan.ranges.Keys);
    NextPlanned(f, universe, n, sessions, plan, range);
  }

  lemma NewCode(universe: Snapshot, n: nat, codes: set<Code>)
    requires DistinctCodes(universe) && n < |universe| && AllKnown(universe[..n], codes)
    ensures universe[n].0 !in codes
  {
    forall i | 0 <= i < n ensures universe[..n][i].0 != universe[n].0 {}
  }

  lemma KnownCodes(universe: Snapshot, n: nat, codes: set<Code>)
    requires n < |universe| && AllKnown(universe[..n], codes)
    ensures AllKnown(universe[..n + 1], codes) && AllKnown(universe[..n + 1], codes + {universe[n].0})
  {
    forall c | c in codes + {universe[n].0} ensures FromUniverse(universe[..n + 1], c) {
      KnownGrows(universe, n, c, c in codes);
    }
  }

  lemma NextPlanned(f: Facts, universe: Snapshot, n: nat, sessions: seq<Date>, plan: Plan, range: Option<(Date, Date)>)
    requires DistinctCodes(universe) && n < |universe| && sessions != [] && universe[n].0 !in plan.ranges
    requires AllPlanned(f, universe[..n], sessions, plan)
    requires range.None? ==> forall d :: !Needed(f, universe[n].0, universe[n].1, sessions, d)
    requires range.Some? ==> Tight(f, universe[n].0, universe[n].1, sessions, range.value)
    ensures var after := if range.None? then plan else Extended(plan, universe[n].0, universe[n].1, range.value);
            AllPlanned(f, universe[..n + 1], sessions, after)
  {
    var front, all := universe[..n], universe[..n + 1];
    var (code, s) := universe[n];
    var after := if range.None? then plan else Extended(plan, code, s, range.value);
    assert SecurityPlanned(f, code, s, sessions, after);
    forall i | 0 <= i < n ensures SecurityPlanned(f, all[i].0, all[i].1, sessions, after) {
      assert front[i] == all[i];
      OtherStaysPlanned(f, front[i].0, front[i].1, sessions, plan, code, s, range);
    }
  }

  lemma KnownGrows(universe: Snapshot, n: nat, c: Code, early: bool)
    requires n < |universe| && if early then FromUniverse(universe[..n], c) else universe[n].0 == c
    ensures FromUniverse(universe[..n + 1], c)
  {
    if early {
      var i :| 0 <= i < n && universe[..n][i].0 == c;
      assert universe[..n + 1][i].0 == c;
    } else {
      assert universe[..n + 1][n].0 == c;
    }
  }

  lemma OtherStaysPlanned(f: Facts, other: Code, o: Security, sessions: seq<Date>, plan: Plan,
      code: Code, s: Security, range: Option<(Date, Date)>)
    requires sessions != [] && SecurityPlanned(f, other, o, sessions, plan) && other != code
    ensures SecurityPlanned(f, other, o, sessions, if range.None? then plan else Extended(plan, code, s, range.value))
  {}

  // ---------------------------------------------------------------- a plan is admissible

  /** Run creation accepts the planned ranges exactly when the frozen window does not start after the plan. */
  lemma PlanFits(f: Facts, universe: Snapshot, sessions: seq<Date>, plan: Plan, w: Window)
    requires sessions != [] && Ascending(sessions) && Plans(f, universe, sessions, plan) && plan.ranges != map[]
    requires w.end == sessions[|sessions| - 1]
    ensures RangesFit(plan.securities, Some(plan.ranges), w) <==> w.start <= plan.start
    ensures plan.securities != map[]
  {
    forall c | c in plan.ranges ensures plan.start <= plan.ranges[c].0 <= plan.ranges[c].1 <= w.end {
      assert FromUniverse(universe, c);
      var i :| 0 <= i < |universe| && universe[i].0 == c;
      assert SecurityPlanned(f, universe[i].0, universe[i].1, sessions, plan);
      ListedMeans(universe[i].1, sessions, plan.ranges[c].1);
      ListedMeans(universe[i].1, sessions, plan.ranges[c].0);
    }
    var c :| c in plan.ranges && plan.start == plan.ranges[c].0;
  }

  /** A plan with a range starts after a day exactly when nothing is missing before that day, and it settles nothing. */
  lemma PlanStartIsEarliest(f: Facts, universe: Snapshot, sessions: seq<Date>, plan: Plan, start: Date)
    requires sessions != [] && Ascending(sessions) && Plans(f, universe, sessions, plan) && plan.ranges != map[]
    ensures plan.start < start <==> GapBefore(f, universe, sessions, start)
    ensures !AllSettled(f, universe, sessions)
  {
    var c :| c in plan.ranges && plan.start == plan.ranges[c].0;
    assert FromUniverse(universe, c);
    var i :| 0 <= i < |universe| && universe[i].0 == c;
    assert SecurityPlanned(f, universe[i].0, universe[i].1, sessions, plan);
    assert Needed(f, universe[i].0, universe[i].1, sessions, plan.start);
    forall j, d | 0 <= j < |universe| && Needed(f, universe[j].0, universe[j].1, sessions, d) ensures plan.start <= d {
      assert SecurityPlanned(f, universe[j].0, universe[j].1, sessions, plan);
      ListedMeans(universe[j].1, sessions, d);
    }
  }

  // ---------------------------------------------------------------- a completed plan leaves nothing to do

  /** The run stands as it was created: request window, securities and item ranges never change. */
  predicate CreatedFrom(db: Db, run: RunId, plan: Plan, w: Window) {
    && run in db.runs && run in db.items && run in db.securities
    && db.runs[run].window == w && db.securities[run] == plan.securities
    && db.items[run].Keys == plan.ranges.Keys
    && forall c :: c in plan.ranges ==> (db.items[run][c].start, db.items[run][c].end) == plan.ranges[c]
  }

  lemma CreationStands(db: Db, op: Op, run: RunId, plan: Plan, w: Window)
    requires Sound(db) && CreatedFrom(db, run, plan, w)
    ensures CreatedFrom(Apply(db, op), run, plan, w)
  {
    assert RunSound(db, run);
    ApplyLater(db, op, run);
    forall c | c in plan.ranges
      ensures (Apply(db, op).items[run][c].start, Apply(db, op).items[run][c].end) == plan.ranges[c]
    {
      assert ItemLater(op, run, db.items[run][c], Apply(db, op).items[run][c]);
    }
  }

  /** The control operation inside an event, if it has one that can change anything. */
  lemma StepIsControl(x: World, e: Event) returns (op: Option<Op>)
    ensures Step(x, e).db == (if op.Some? then Apply(x.db, op.value) else x.db)
  {
    match e
    case Control(o) => op := if FromOutside(o) then Some(o) else None;
    case Begin(run, _, _, _) => op := if Step(x, e) == x then None else Some(StartRun(run));
    case Scan(now, seconds) =>
      if x.worker.Scanning? && x.worker.job.todo != [] && Step(x, e).db != x.db {
        op := Some(ClaimItem(x.worker.job.run, x.worker.job.todo[0], x.worker.job.owner, now, seconds));
      } else { op := None; }
    case Mark =>
      op := if x.worker.Marking? && Step(x, e).db != x.db
            then Some(MarkItem(x.worker.job.run, x.worker.code, x.worker.status)) else None;
    case Finish => op := if Step(x, e) == x then None else Some(Finalize(x.worker.job.run));
    case Fetch(_) => op := None;
    case FetchFactors(_) => op := None;
    case Crash => op := None;
  }

  lemma CoverGrows(f: Facts, code: Code, expected: seq<Date>, a: Answer)
    requires expected != []
    ensures Grows(f, CoverFactors(f, code, expected, a).0)
  {
    if a.factors.Some? {
      var missing := Unfactored(f, code, expected);
      CommitGrows(f, [], FactorsOn(a.factors.value, code, missing, expected[0], expected[|expected| - 1]), []);
    }
  }

  lemma FetchGrows(x: World, a: Answer)
    requires FactsSound(x.facts)
    ensures Grows(x.facts, Step(x, Fetch(a)).facts)
  {
    if x.worker.Ingesting? && Known(x.db, x.worker.job.run, x.worker.code) {
      IngestLaw(x.facts, x.worker.code, ExpectedOf(x.db, x.worker.job.run, x.worker.code, x.worker.job.sessions), a);
    }
  }

  /** Facts only ever grow. */
  lemma StepGrows(x: World, e: Event)
    requires FactsSound(x.facts)
    ensures Grows(x.facts, Step(x, e).facts)
  {
    if e.Fetch? { FetchGrows(x, e.answer); }
    else if e.FetchFactors? {
      if x.worker.Factoring? && x.worker.expected != [] {
        CoverGrows(x.facts, x.worker.code, x.worker.expected, e.answer);
      }
    } else { assert Step(x, e).facts == x.facts; }
  }

  lemma {:induction false} PlayGrows(facts: Facts, before: seq<Event>, after: seq<Event>)
    requires FactsSound(facts)
    ensures Grows(Play(Start(facts), before).facts, Play(Start(facts), before + after).facts)
  {
    if after == [] { assert before + after == before; }
    else {
      var all := before + after;
      assert all[..|all| - 1] == before + after[..|after| - 1];
      PlayGrows(facts, before, after[..|after| - 1]);
      PlayInv(facts, all[..|all| - 1]);
      StepGrows(Play(Start(facts), all[..|all| - 1]), all[|all| - 1]);
    }
  }

  lemma {:induction false} PlayStands(facts: Facts, before: seq<Event>, after: seq<Event>, run: RunId, plan: Plan,
      w: Window)
    requires FactsSound(facts) && CreatedFrom(Play(Start(facts), before).db, run, plan, w)
    ensures CreatedFrom(Play(Start(facts), before + after).db, run, plan, w)
  {
    if after == [] { assert before + after == before; }
    else {
      var all := before + after;
      assert all[..|all| - 1] == before + after[..|after| - 1];
      PlayStands(facts, before, after[..|after| - 1], run, plan, w);
      LastStands(facts, all, run, plan, w);
    }
  }

  lemma LastStands(facts: Facts, events: seq<Event>, run: RunId, plan: Plan, w: Window)
    requires FactsSound(facts) && events != []
    requires CreatedFrom(Play(Start(facts), events[..|events| - 1]).db, run, plan, w)
    ensures CreatedFrom(Play(Start(facts), events).db, run, plan, w)
  {
    PlayInv(facts, events[..|events| - 1]);
    StepStands(Play(Start(facts), events[..|events| - 1]), events[|events| - 1], run, plan, w);
  }

  lemma StepStands(x: World, e: Event, run: RunId, plan: Plan, w: Window)
    requires Sound(x.db) && CreatedFrom(x.db, run, plan, w)
    ensures CreatedFrom(Step(x, e).db, run, plan, w)
  {
    var op := StepIsControl(x, e);
    if op.Some? { CreationStands(x.db, op.value, run, plan, w); }
  }

  /** The step that creates a run from a plan. */
  function Creation(q: RequestId, run: RunId, plan: Plan): Event {
    Control(CreateRun(q, run, plan.securities, Some(plan.ranges)))
  }

  lemma CreationCreates(x: World, q: RequestId, run: RunId, plan: Plan)
    requires Allowed(x.db, CreateRun(q, run, plan.securities, Some(plan.ranges)))
    ensures CreatedFrom(Step(x, Creation(q, run, plan)).db, run, plan, x.db.requests[q].window.value)
  {}

  /** A day the plan was made for is a listed trading day of its item. */
  lemma PlannedDayListed(f: Facts, universe: Snapshot, sessions: seq<Date>, plan: Plan, w: Window, db: Db,
      run: RunId, i: nat, d: Date)
    requires sessions != [] && Ascending(sessions) && Plans(f, universe, sessions, plan) && i < |universe|
    requires Needed(f, universe[i].0, universe[i].1, sessions, d)
    requires RangesFit(plan.securities, Some(plan.ranges), w) && CreatedFrom(db, run, plan, w)
    ensures Known(db, run, universe[i].0) && Listed(db, run, universe[i].0, d) && d in Between(sessions, w.start, w.end)
  {
    assert SecurityPlanned(f, universe[i].0, universe[i].1, sessions, plan);
    ListedMeans(universe[i].1, sessions, d);
    BetweenMeans(sessions, w.start, w.end, d);
  }

  /** What the creating step fixes still holds at the end, and the facts have only grown since the plan. */
  lemma CreatedRunStands(facts: Facts, planned: seq<Event>, created: seq<Event>, after: seq<Event>,
      plan: Plan, q: RequestId, run: RunId, w: Window)
    requires FactsSound(facts)
    requires var db := Play(Start(facts), planned + created).db;
             Allowed(db, CreateRun(q, run, plan.securities, Some(plan.ranges))) && db.requests[q].window == Some(w)
    ensures var x := Play(Start(facts), planned + created + [Creation(q, run, plan)] + after);
            && CreatedFrom(x.db, run, plan, w) && RangesFit(plan.securities, Some(plan.ranges), w)
            && Grows(Play(Start(facts), planned).facts, x.facts) && FactsSound(x.facts)
  {
    var start, c := planned + created, Creation(q, run, plan);
    CreationCreates(Play(Start(facts), start), q, run, plan);
    assert (start + [c])[..|start + [c]| - 1] == start;
    PlayStands(facts, start + [c], after, run, plan, w);
    assert start + [c] + after == planned + (created + [c] + after);
    PlayGrows(facts, planned, created + [c] + after);
    PlayInv(facts, start + [c] + after);
  }

  /**
  A plan is made at some moment, a run is created from it at the same or a later one, and other things happen
  before, between and after.  Every start of the run is given a calendar that still has the planned days of its
  window, and may have more.  Once that run is sealed complete, planning again finds nothing to do.
  */
  lemma CompletedPlanSettles(facts: Facts, planned: seq<Event>, created: seq<Event>, after: seq<Event>,
      universe: Snapshot, sessions: seq<Date>, plan: Plan, q: RequestId, run: RunId, w: Window)
    requires FactsSound(facts) && sessions != [] && Ascending(sessions)
    requires Plans(Play(Start(facts), planned).facts, universe, sessions, plan)
    requires var db := Play(Start(facts), planned + created).db;
             Allowed(db, CreateRun(q, run, plan.securities, Some(plan.ranges))) && db.requests[q].window == Some(w)
    requires var events := planned + created + [Creation(q, run, plan)] + after;
             && (forall d :: d in Between(sessions, w.start, w.end) ==> AlwaysGiven(events, run, d))
             && Sealed(Play(Start(facts), events).db, run)
    ensures var events := planned + created + [Creation(q, run, plan)] + after;
            AllSettled(Play(Start(facts), events).facts, universe, sessions)
  {
    var events := planned + created + [Creation(q, run, plan)] + after;
    var early, late := Play(Start(facts), planned), Play(Start(facts), events);
    CreatedRunStands(facts, planned, created, after, plan, q, run, w);
    forall i, d | 0 <= i < |universe| ensures !Needed(late.facts, universe[i].0, universe[i].1, sessions, d) {
      if Covered(early.facts, universe[i].0, d) { CoverageStays(early.facts, late.facts, universe[i].0, d); }
      else if Needed(early.facts, universe[i].0, universe[i].1, sessions, d) {
        PlannedDayListed(early.facts, universe, sessions, plan, w, late.db, run, i, d);
        GivenDaySettled(facts, events, run, universe[i].0, d);
        SettledCovers(late.facts, universe[i].0, d);
      }
    }
  }

  lemma SettledCovers(f: Facts, code: Code, d: Date)
    requires FactsSound(f) && Settled(f, code, d)
    ensures Covered(f, code, d)
  {}

  // ---------------------------------------------------------------- the workflow

  datatype CatchUpRefusal = NotExecutable | NoBaseline | NoTarget | NoProof | EarlierGap | NotHeld

  /** A claimed catch-up request. */
  predicate Executable(db: Db, q: RequestId) {
    q in db.requests && db.requests[q].kind.CatchUp? && db.requests[q].status.Claimed?
  }

  predicate CompleteColdStart(db: Db, run: RunId) {
    run in db.runs && db.runs[run].kind.ColdStart? && db.runs[run].status.Complete?
  }

  /** The baseline start is that of a complete cold start, if there is any. */
  predicate Baseline(db: Db, base: Option<Date>) {
    if base.None? then forall run :: run in db.runs ==> !CompleteColdStart(db, run)
    else exists run :: run in db.runs && CompleteColdStart(db, run) && db.runs[run].window.start == base.value
  }

  /** The request has got the run: the one it had, or a new one created from a plan of all that is missing. */
  ghost predicate RunObtained(db: Db, db': Db, q: RequestId, newRun: RunId, run: RunId,
      f: Facts, universe: Snapshot, sessions: seq<Date>, w: Window)
    requires sessions != []
  {
    && run in db'.runs && db'.runs[run].request == q
    && (HasRun(db, q) ==> db' == db)
    && (!HasRun(db, q) ==> run == newRun && exists plan :: PlannedRun(f, universe, sessions, plan, db', newRun, w))
  }

  ghost predicate PlannedRun(f: Facts, universe: Snapshot, sessions: seq<Date>, plan: Plan,
      db: Db, run: RunId, w: Window)
    requires sessions != []
  {
    Plans(f, universe, sessions, plan) && CreatedFrom(db, run, plan, w)
  }

  /** The run `execute_claimed` works on: the one the request has, or a new one created from the plan. */
  method CreatePlanned(control: MarketDailyControlPlane, q: RequestId, newRun: RunId, f: Facts,
      universe: Snapshot, sessions: seq<Date>, plan: Plan)
      returns (run: RunId)
    requires newRun !in control.runs && q in control.requests && control.requests[q].status.Claimed?
    requires var w := control.requests[q].window;
             && sessions != [] && Ascending(sessions) && Plans(f, universe, sessions, plan) && plan.ranges != map[]
             && w.Some? && w.value.end == sessions[|sessions| - 1] && w.value.start <= plan.start
    modifies control
    ensures RunObtained(old(control.Stored()), control.Stored(), q, newRun, run,
              f, universe, sessions, old(control.requests[q]).window.value)
  {
    ghost var before, w := control.Stored(), control.requests[q].window.value;
    PlanFits(f, universe, sessions, plan, w);
    var created := control.CreateRun(q, newRun, plan.securities, Some(plan.ranges));
    CreationObtains(before, q, newRun, plan);
    assert !HasRun(before, q) ==> PlannedRun(f, universe, sessions, plan, control.Stored(), newRun, w);
    return created.value;
  }

  /** Creation leaves a request with a run alone and gives one without its only run. */
  lemma CreationObtains(db: Db, q: RequestId, run: RunId, plan: Plan)
    requires run !in db.runs && plan.securities != map[]
    requires q in db.requests && db.requests[q].status.Claimed? && db.requests[q].window.Some?
    requires RangesFit(plan.securities, Some(plan.ranges), db.requests[q].window.value)
    ensures var db' := Apply(db, CreateRun(q, run, plan.securities, Some(plan.ranges)));
            if HasRun(db, q) then db' == db
            else CreatedFrom(db', run, plan, db.requests[q].window.value)
                 && forall r :: r in db'.runs && db'.runs[r].request == q ==> r == run
  {}

  /**
  `execute_claimed`, up to the ingestion itself.  A request that is not executable, a missing cold start or target,
  a calendar that does not reach the target and a gap before the frozen window are refused, in this order; with
  nothing missing the request is completed, if the owner still holds it without a run; in every other case there
  is a run, which run creation never refuses.
  */
  method ExecuteClaimed(control: MarketDailyControlPlane, q: RequestId, owner: Owner, newRun: RunId, f: Facts,
      universe: Snapshot, sessions: seq<Date>, base: Option<Date>)
      returns (r: Result<Option<RunId>, CatchUpRefusal>)
    requires newRun !in control.runs && DistinctCodes(universe) && Ascending(sessions)
    requires Baseline(control.Stored(), base)
    requires q in control.requests && control.requests[q].window.Some? ==>
               && ValidWindow(control.requests[q].window.value)
               && (base.Some? ==>
                     forall d :: d in sessions ==> base.value <= d <= control.requests[q].window.value.target)
    modifies control
    ensures r == Err(NotExecutable) <==> !Executable(old(control.Stored()), q)
    ensures r == Err(NoBaseline) <==>
              && Executable(old(control.Stored()), q)
              && forall run :: run in old(control.runs) ==> !CompleteColdStart(old(control.Stored()), run)
    ensures r == Err(NoTarget) <==>
              Executable(old(control.Stored()), q) && base.Some? && old(control.requests)[q].window.None?
    ensures Executable(old(control.Stored()), q) && base.Some? && old(control.requests)[q].window.Some? ==>
              var w := old(control.requests)[q].window.value;
              && (r == Err(NoProof) <==> !CalendarProven(sessions, w.target))
              && (CalendarProven(sessions, w.target) ==>
                    && (r == Err(EarlierGap) <==> GapBefore(f, universe, sessions, w.start))
                    && (r in {Err(NotHeld), Ok(None)} <==> AllSettled(f, universe, sessions))
                    && (r == Ok(None) ==> Allowed(old(control.Stored()), CompleteClaimed(q, owner)))
                    && (r == Err(NotHeld) ==> !Allowed(old(control.Stored()), CompleteClaimed(q, owner)))
                    && (r.Ok? && r.value.Some? ==>
                          RunObtained(old(control.Stored()), control.Stored(), q, newRun, r.value.value,
                            f, universe, sessions, w)))
    ensures r == Ok(None) ==> control.Stored() == Apply(old(control.Stored()), CompleteClaimed(q, owner))
    ensures r.Err? ==> control.Stored() == old(control.Stored())
  {
    if q !in control.requests || !control.requests[q].kind.CatchUp? || !control.requests[q].status.Claimed? {
      return Err(NotExecutable);
    }
    if base.None? { return Err(NoBaseline); }
    if control.requests[q].window.None? { return Err(NoTarget); }
    var w := control.requests[q].window.value;
    var planned := BuildPlan(f, universe, sessions, base.value, w.target);
    if planned.Err? { return Err(NoProof); }
    if planned.value.None? {
      var done := control.CompleteClaimedRequest(q, owner);
      return if done then Ok(None) else Err(NotHeld);
    }
    var plan := planned.value.value;
    PlanStartIsEarliest(f, universe, sessions, plan, w.start);
    if plan.start < w.start { return Err(EarlierGap); }
    var run := CreatePlanned(control, q, newRun, f, universe, sessions, plan);
    return Ok(Some(run));
  }
}
