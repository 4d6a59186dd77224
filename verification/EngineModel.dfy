/**
Market Daily ingestion as a step system: the control plane, the stored facts and
one worker that drives a run security by security.  Providers answer anything;
the worker may crash between any two transactions; other control operations may
happen at any time.
*/
module EngineModel {
  import opened Prelude
  import opened ControlModel
  import opened MarketFacts
  import opened StableSort

  /** What the providers return for one security: `None` is an error or a malformed collection. */
  datatype Answer = Answer(
    renewed: bool, bars: Option<seq<Fact>>, absences: Option<seq<Fact>>, factors: Option<seq<Fact>>)

  datatype Next = ToFactors | ToMark(status: ItemStatus)

  function Between(sessions: seq<Date>, lo: Date, hi: Date): seq<Date> {
    if sessions == [] then []
    else
      var front, d := Between(sessions[..|sessions| - 1], lo, hi), sessions[|sessions| - 1];
      if lo <= d <= hi then front + [d] else front
  }

  /** `_expected_sessions`: sessions inside the item interval and the listing interval. */
  function Expected(s: Security, sessions: seq<Date>, start: Date, end: Date): seq<Date> {
    Between(sessions, Max(start, s.list), if s.delist.Some? then Min(end, s.delist.value) else end)
  }

  predicate Ascending(dates: seq<Date>) { forall i, j :: 0 <= i < j < |dates| ==> dates[i] < dates[j] }

  /** `_validate_sessions`. */
  predicate ValidSessions(sessions: seq<Date>, w: Window) {
    sessions != [] && Ascending(sessions) && w.start <= sessions[0] && sessions[|sessions| - 1] <= w.end
  }

  predicate ByDate(a: Fact, b: Fact) { a.date <= b.date }

  function SortByDate(batch: seq<Fact>): seq<Fact> { Sort(ByDate, batch) }

  function OnDates(batch: seq<Fact>, dates: set<Date>): seq<Fact> {
    if batch == [] then []
    else
      var front, b := OnDates(batch[..|batch| - 1], dates), batch[|batch| - 1];
      if b.date in dates then front + [b] else front
  }

  function Dates(batch: seq<Fact>): set<Date> { set i | 0 <= i < |batch| :: batch[i].date }

  /** Facts of this security only, on admissible dates only, no date twice. */
  predicate Admissible(batch: seq<Fact>, code: Code, dates: set<Date>) {
    && (forall i :: 0 <= i < |batch| ==> batch[i].code == code && batch[i].date in dates)
    && forall i, j :: 0 <= i < j < |batch| ==> batch[i].date != batch[j].date
  }

  /** `_select_expected_bars`: one bad bar refuses the answer; bars already stored are dropped. */
  function SelectBars(bars: seq<Fact>, code: Code, expected: set<Date>, missing: set<Date>): Option<seq<Fact>> {
    if Admissible(bars, code, expected) then Some(SortByDate(OnDates(bars, missing))) else None
  }

  /** `_validate_absences`. */
  function SelectAbsences(absences: seq<Fact>, code: Code, unresolved: set<Date>): Option<seq<Fact>> {
    if Admissible(absences, code, unresolved) then Some(SortByDate(absences)) else None
  }

  /** The factor a `{date: factor}` comprehension keeps for a date. */
  function FactorAt(received: seq<Fact>, code: Code, d: Date): Option<Fact> {
    if received == [] then None
    else
      var last := received[|received| - 1];
      if last.code == code && last.date == d then Some(last) else FactorAt(received[..|received| - 1], code, d)
  }

  /** `_fetch_factors`: exactly one factor for every received bar, and nothing else. */
  function MatchFactors(code: Code, bars: seq<Fact>, received: seq<Fact>): Option<seq<Fact>> {
    if Admissible(received, code, Dates(bars)) && Dates(received) == Dates(bars)
    then Some(FactorsFor(code, bars, received))
    else None
  }

  function FactorsFor(code: Code, bars: seq<Fact>, received: seq<Fact>): seq<Fact> {
    if bars == [] then []
    else
      var front, f := FactorsFor(code, bars[..|bars| - 1], received), FactorAt(received, code, bars[|bars| - 1].date);
      if f.Some? then front + [f.value] else front
  }

  function MissingDates(f: Facts, code: Code, expected: seq<Date>): set<Date> {
    set d | d in expected && !Covered(f, code, d)
  }

  /** Commit what was selected, and see whether a date is still unresolved. */
  function Store(f: Facts, unresolved: set<Date>, bars: seq<Fact>, factors: seq<Fact>,
      absences: seq<Fact>): (Facts, Next)
  {
    if !ValidBatch(bars, factors, absences) then (f, ToMark(SourceMissing))
    else
      var g := Commit(f, bars, factors, absences);
      if Conflicts(f, bars, absences) then (g, ToMark(Conflicted))
      else if unresolved - Dates(absences) != {} then (g, ToMark(SourceMissing))
      else (g, ToFactors)
  }

  /** Fetch, validate and commit what is missing of one security; any error before the commit leaves the facts. */
  function Ingest(f: Facts, code: Code, expected: seq<Date>, a: Answer): (Facts, Next) {
    var missing := MissingDates(f, code, expected);
    if missing == {} then (f, ToFactors)
    else if !a.renewed || a.bars.None? then (f, ToMark(SourceMissing))
    else
      var bars := SelectBars(a.bars.value, code, (set d | d in expected), missing);
      if bars.None? || a.absences.None? then (f, ToMark(SourceMissing))
      else
        var unresolved := missing - Dates(bars.value);
        var absences := SelectAbsences(a.absences.value, code, unresolved);
        var factors := if bars.value == [] then Some([])
                       else if a.factors.None? then None
                       else MatchFactors(code, bars.value, a.factors.value);
        if absences.None? || factors.None? then (f, ToMark(SourceMissing))
        else Store(f, unresolved, bars.value, factors.value, absences.value)
  }

  /** Dates of passed bars in the interval that have no factor yet. */
  function Unfactored(f: Facts, code: Code, expected: seq<Date>): set<Date>
    requires expected != []
  {
    set k | k in f.bars && k.0 == code && expected[0] <= k.1 <= expected[|expected| - 1]
            && f.bars[k].passed && k !in f.factors :: k.1
  }

  /** `_ensure_factor_coverage`: factors for bars that were stored without one. */
  function CoverFactors(f: Facts, code: Code, expected: seq<Date>, a: Answer): (Facts, Next)
    requires expected != []
  {
    var missing := Unfactored(f, code, expected);
    if missing == {} then (f, ToMark(Done))
    else if !a.renewed || a.factors.None? then (f, ToMark(SourceMissing))
    else if exists d :: d in missing && FactorAt(a.factors.value, code, d).None? then (f, ToMark(SourceMissing))
    else
      var selected := FactorsOn(a.factors.value, code, missing, expected[0], expected[|expected| - 1]);
      (Commit(f, [], selected, []), ToMark(Done))
  }

  /** The answered factors on the given dates, in date order. */
  function FactorsOn(received: seq<Fact>, code: Code, dates: set<Date>, first: Date, last: Date): seq<Fact>
    decreases last - first
  {
    if last < first then []
    else
      var front, f := FactorsOn(received, code, dates, first, last - 1), FactorAt(received, code, last);
      if last in dates && f.Some? then front + [f.value] else front
  }

  // ---------------------------------------------------------------- the step system

  datatype Job = Job(run: RunId, sessions: seq<Date>, owner: Owner, todo: seq<Code>)

  datatype Worker =
    | Idle
    | Scanning(job: Job)
    | Ingesting(job: Job, code: Code)
    | Factoring(job: Job, code: Code, expected: seq<Date>)
    | Marking(job: Job, code: Code, status: ItemStatus)

  datatype World = World(
    db: Db, facts: Facts, worker: Worker,
    asked: map<(RunId, Code), seq<Date>>)   // the sessions an item was last ingested against

  datatype Event =
    | Control(op: Op)                                             // any client but the worker
    | Begin(run: RunId, sessions: seq<Date>, owner: Owner, order: seq<Code>)
    | Scan(now: Time, seconds: int)
    | Fetch(answer: Answer)
    | FetchFactors(answer: Answer)
    | Mark
    | Finish
    | Crash

  /** Operations other clients may issue: items are claimed and marked by the worker alone. */
  predicate FromOutside(op: Op) { !op.MarkItem? && !op.ClaimItem? }

  function ExpectedOf(db: Db, run: RunId, code: Code, sessions: seq<Date>): seq<Date>
    requires HasItem(db, run, code) && run in db.securities && code in db.securities[run]
  {
    var w, i := db.runs[run].window, db.items[run][code];
    Expected(db.securities[run][code], sessions, Max(w.start, i.start), Min(w.end, i.end))
  }

  predicate Known(db: Db, run: RunId, code: Code) {
    HasItem(db, run, code) && run in db.securities && code in db.securities[run]
  }

  /** One transaction of the worker, of another client, or a crash. */
  function Step(x: World, e: Event): World {
    match e
    case Control(op) => if FromOutside(op) then x.(db := Apply(x.db, op)) else x
    case Begin(run, sessions, owner, order) =>
      if !x.worker.Idle? || run !in x.db.runs || run !in x.db.securities then x
      else
        var started := Apply(x.db, StartRun(run));
        if run in started.runs && started.runs[run].status.Active? && ValidSessions(sessions, x.db.runs[run].window)
           && (set c | c in order) == x.db.securities[run].Keys
        then x.(db := started, worker := Scanning(Job(run, sessions, owner, order)))
        else x.(db := started)
    case Scan(now, seconds) =>
      if !x.worker.Scanning? || x.worker.job.todo == [] then x
      else
        var j := x.worker.job;
        var code, rest := j.todo[0], j.(todo := j.todo[1..]);
        if !Known(x.db, j.run, code) then x.(worker := Idle)
        else if TerminalItem(x.db.items[j.run][code].status) then x.(worker := Scanning(rest))
        else if Allowed(x.db, ClaimItem(j.run, code, j.owner, now, seconds))
        then x.(db := Apply(x.db, ClaimItem(j.run, code, j.owner, now, seconds)),
                worker := Ingesting(rest, code), asked := x.asked[(j.run, code) := j.sessions])
        else if x.db.runs[j.run].status.Active? then x.(worker := Scanning(rest))
        else x.(worker := Idle)
    case Fetch(a) =>
      if !x.worker.Ingesting? || !Known(x.db, x.worker.job.run, x.worker.code) then x
      else
        var j, code := x.worker.job, x.worker.code;
        var expected := ExpectedOf(x.db, j.run, code, j.sessions);
        if expected == [] then x.(worker := Marking(j, code, Skipped))
        else
          var (facts, next) := Ingest(x.facts, code, expected, a);
          x.(facts := facts,
             worker := if next.ToFactors? then Factoring(j, code, expected) else Marking(j, code, next.status))
    case FetchFactors(a) =>
      if !x.worker.Factoring? || x.worker.expected == [] then x
      else
        var (facts, next) := CoverFactors(x.facts, x.worker.code, x.worker.expected, a);
        if next.ToFactors? then x
        else x.(facts := facts, worker := Marking(x.worker.job, x.worker.code, next.status))
    case Mark =>
      if !x.worker.Marking? then x
      else
        var op := MarkItem(x.worker.job.run, x.worker.code, x.worker.status);
        if Allowed(x.db, op) then x.(db := Apply(x.db, op), worker := Scanning(x.worker.job)) else x.(worker := Idle)
    case Finish =>
      if !x.worker.Scanning? || x.worker.job.todo != [] then x
      else x.(db := Apply(x.db, Finalize(x.worker.job.run)), worker := Idle)
    case Crash => x.(worker := Idle)
  }

  function Play(x: World, events: seq<Event>): World {
    if events == [] then x else Step(Play(x, events[..|events| - 1]), events[|events| - 1])
  }

  function Start(facts: Facts): World { World(ControlModel.EMPTY, facts, Idle, map[]) }
}
