/**
The Market Daily control plane: durable requests, runs, per-security items and
one service lease.  Every operation is one transaction, and a transaction whose
guard fails raises or returns without changing anything.
*/
module ControlModel {
  import opened Prelude

  type RequestId = string
  type RunId = string
  type Code = string
  type Owner = string
  type Date = int
  type Time = int

  datatype Kind = ColdStart | CatchUp

  datatype RequestStatus = Pending | Claimed | Completed

  datatype Window = Window(target: Date, start: Date, end: Date)

  datatype Request = Request(
    kind: Kind, window: Option<Window>, status: RequestStatus, claimedBy: Option<Owner>, everClaimed: bool)

  datatype RunStatus = Waiting | Active | Partial | Complete   // pending, running, partial, complete

  datatype Run = Run(
    request: RequestId, kind: Kind, status: RunStatus, window: Window, total: nat, completed: nat, failed: nat)

  // pending, running, completed, source_missing, conflicted, skipped
  datatype ItemStatus = Todo | Running | Done | SourceMissing | Conflicted | Skipped

  datatype Item = Item(
    start: Date, end: Date, status: ItemStatus, attempts: nat, claimedBy: Option<Owner>, expires: Option<Time>)

  /** The frozen listing interval of a security. */
  datatype Security = Security(list: Date, delist: Option<Date>)

  datatype Lease = Lease(owner: Owner, expires: Time)

  datatype Db = Db(
    requests: map<RequestId, Request>,
    runs: map<RunId, Run>,
    items: map<RunId, map<Code, Item>>,
    securities: map<RunId, map<Code, Security>>,
    lease: Option<Lease>)

  const EMPTY := Db(map[], map[], map[], map[], None)

  datatype Op =
    | Submit(request: RequestId, kind: Kind, window: Option<Window>)
    | Configure(request: RequestId, frozen: Window)
    | AcquireLease(owner: Owner, now: Time, seconds: int)
    | ReleaseLease(owner: Owner)
    | ClaimRequest(request: RequestId, owner: Owner)            // the queue's next pending request
    | ClaimRecovered(request: RequestId, owner: Owner)
    | ReleaseClaim(request: RequestId, owner: Owner)
    | CompleteClaimed(request: RequestId, owner: Owner)
    | CreateRun(request: RequestId, run: RunId, universe: map<Code, Security>, ranges: Option<map<Code, (Date, Date)>>)
    | StartRun(run: RunId)
    | ResumePartial(run: RunId)
    | MarkItem(run: RunId, code: Code, status: ItemStatus)
    | ClaimItem(run: RunId, code: Code, owner: Owner, now: Time, seconds: int)
    | RenewItem(run: RunId, code: Code, owner: Owner, now: Time, seconds: int)
    | Finalize(run: RunId)
    | Recover(now: Time)

  predicate TerminalItem(s: ItemStatus) { s.Done? || s.SourceMissing? || s.Conflicted? || s.Skipped? }

  predicate CountsDone(s: ItemStatus) { s.Done? || s.Skipped? }

  predicate CountsFailed(s: ItemStatus) { s.SourceMissing? || s.Conflicted? }

  function DoneCount(items: map<Code, Item>): nat { |set c | c in items && CountsDone(items[c].status)| }

  function FailedCount(items: map<Code, Item>): nat { |set c | c in items && CountsFailed(items[c].status)| }

  predicate HasRun(db: Db, request: RequestId) { exists r :: r in db.runs && db.runs[r].request == request }

  predicate HasItem(db: Db, run: RunId, code: Code) { run in db.runs && run in db.items && code in db.items[run] }

  predicate ValidWindow(w: Window) { w.start <= w.target && w.target == w.end }

  /** The item ranges `create_run` accepts for a universe and a request window. */
  predicate RangesFit(universe: map<Code, Security>, ranges: Option<map<Code, (Date, Date)>>, w: Window) {
    ranges.Some? ==>
      && ranges.value.Keys == universe.Keys
      && forall c :: c in ranges.value ==> w.start <= ranges.value[c].0 <= ranges.value[c].1 <= w.end
  }

  /** The claim on an item has run out at `now`. */
  predicate ClaimExpired(i: Item, now: Time) { i.expires.None? || i.expires.value <= now }

  predicate ItemClaimable(i: Item, owner: Owner, now: Time) {
    && !TerminalItem(i.status)
    && (i.status.Running? && i.claimedBy.Some? && i.claimedBy != Some(owner) ==> ClaimExpired(i, now))
  }

  predicate LeaseFree(lease: Option<Lease>, owner: Owner, now: Time) {
    lease.None? || lease.value.owner == owner || lease.value.expires <= now
  }

  /** The guard of an operation. */
  predicate Allowed(db: Db, op: Op) {
    match op
    case Submit(q, kind, w) => q !in db.requests && (if w.Some? then ValidWindow(w.value) else kind.ColdStart?)
    case Configure(q, w) =>
      && ValidWindow(w) && q in db.requests && db.requests[q].status.Claimed?
      && (db.requests[q].window.Some? ==> db.requests[q].window == Some(w))
    case AcquireLease(owner, now, seconds) => seconds > 0 && LeaseFree(db.lease, owner, now)
    case ReleaseLease(owner) => db.lease.Some? && db.lease.value.owner == owner
    case ClaimRequest(q, _) => q in db.requests && db.requests[q].status.Pending?
    case ClaimRecovered(q, _) =>
      q in db.requests && db.requests[q].status.Pending? && db.requests[q].everClaimed && !HasRun(db, q)
    case ReleaseClaim(q, owner) => HeldRequest(db, q, owner) && !HasRun(db, q)
    case CompleteClaimed(q, owner) => HeldRequest(db, q, owner) && !HasRun(db, q)
    case CreateRun(q, run, universe, ranges) =>
      && universe != map[] && run !in db.runs
      && q in db.requests && db.requests[q].status.Claimed? && !HasRun(db, q)
      && db.requests[q].window.Some? && RangesFit(universe, ranges, db.requests[q].window.value)
    case StartRun(run) => run in db.runs && db.runs[run].status.Waiting?
    case ResumePartial(run) => run in db.runs && db.runs[run].status.Partial?
    case MarkItem(run, code, status) =>
      && !status.Todo? && HasItem(db, run, code) && db.runs[run].status.Active?
      && (TerminalItem(db.items[run][code].status) ==> db.items[run][code].status == status)
    case ClaimItem(run, code, owner, now, seconds) =>
      && seconds > 0 && HasItem(db, run, code) && db.runs[run].status.Active?
      && ItemClaimable(db.items[run][code], owner, now)
    case RenewItem(run, code, owner, now, seconds) =>
      && seconds > 0 && HasItem(db, run, code)
      && db.items[run][code].status.Running? && db.items[run][code].claimedBy == Some(owner)
      && !ClaimExpired(db.items[run][code], now)
    case Finalize(run) =>
      && run in db.runs && run in db.items && db.runs[run].status.Active?
      && forall c :: c in db.items[run] ==> TerminalItem(db.items[run][c].status)
    case Recover(_) => true
  }

  predicate HeldRequest(db: Db, q: RequestId, owner: Owner) {
    q in db.requests && db.requests[q].status.Claimed? && db.requests[q].claimedBy == Some(owner)
  }

  function NewItems(universe: map<Code, Security>, ranges: Option<map<Code, (Date, Date)>>,
      w: Window): map<Code, Item>
  {
    map c | c in universe ::
      if ranges.Some? && c in ranges.value
      then Item(ranges.value[c].0, ranges.value[c].1, Todo, 0, None, None)
      else Item(w.start, w.end, Todo, 0, None, None)
  }

  function Marked(i: Item, status: ItemStatus): Item {
    i.(status := status,
       attempts := if status.Running? && !i.status.Running? then i.attempts + 1 else i.attempts,
       claimedBy := if TerminalItem(status) then None else i.claimedBy,
       expires := if TerminalItem(status) then None else i.expires)
  }

  function Reserved(i: Item, owner: Owner, now: Time, seconds: int): Item {
    i.(status := Running,
       attempts := if !i.status.Running? || ClaimExpired(i, now) then i.attempts + 1 else i.attempts,
       claimedBy := Some(owner), expires := Some(now + seconds))
  }

  function Reset(i: Item): Item { i.(status := Todo, claimedBy := None, expires := None) }

  /** `UPDATE ... SET status = 'pending' WHERE status = s` over the items of one run. */
  function ResetAll(items: map<Code, Item>, s: ItemStatus): map<Code, Item> {
    map c | c in items :: if items[c].status == s then Reset(items[c]) else items[c]
  }

  /** `_refresh_run_progress`: counters derived from the items. */
  function Refreshed(r: Run, items: map<Code, Item>): Run {
    r.(completed := DoneCount(items), failed := FailedCount(items))
  }

  function SetItem(db: Db, run: RunId, code: Code, item: Item): Db
    requires run in db.items
  {
    db.(items := db.items[run := db.items[run][code := item]])
  }

  /** The service instance whose lease is still good. */
  predicate LiveOwner(lease: Option<Lease>, owner: Option<Owner>, now: Time) {
    lease.Some? && lease.value.expires > now && owner == Some(lease.value.owner)
  }

  /** A running run whose request no live service holds. */
  predicate StaleRun(db: Db, run: RunId, now: Time) {
    && run in db.runs && db.runs[run].status.Active? && db.runs[run].request in db.requests
    && !LiveOwner(db.lease, db.requests[db.runs[run].request].claimedBy, now)
  }

  /** A claimed request that goes back to the queue: with its stale run, or without any run. */
  predicate StaleRequest(db: Db, q: RequestId, now: Time) {
    && q in db.requests && db.requests[q].status.Claimed?
    && !LiveOwner(db.lease, db.requests[q].claimedBy, now)
    && (HasRun(db, q) ==> exists r :: r in db.runs && db.runs[r].request == q && db.runs[r].status.Active?)
  }

  /** `recover_expired_work` as one assignment. */
  function Recovered(db: Db, now: Time): Db {
    db.(runs := map r | r in db.runs :: if StaleRun(db, r, now) then db.runs[r].(status := Waiting) else db.runs[r],
        items := map r | r in db.items :: if StaleRun(db, r, now) then ResetAll(db.items[r], Running) else db.items[r],
        requests := map q | q in db.requests ::
          if StaleRequest(db, q, now) then db.requests[q].(status := Pending, claimedBy := None) else db.requests[q])
  }

  function SetRequest(db: Db, q: RequestId, r: Request): Db { db.(requests := db.requests[q := r]) }

  function Apply(db: Db, op: Op): Db {
    if !Allowed(db, op) then db
    else
      match op
      case Submit(q, kind, w) => db.(requests := db.requests[q := Request(kind, w, Pending, None, false)])
      case Configure(q, w) => db.(requests := db.requests[q := db.requests[q].(window := Some(w))])
      case AcquireLease(owner, now, seconds) => db.(lease := Some(Lease(owner, now + seconds)))
      case ReleaseLease(_) => db.(lease := None)
      case ClaimRequest(q, owner) =>
        SetRequest(db, q, db.requests[q].(status := Claimed, claimedBy := Some(owner), everClaimed := true))
      case ClaimRecovered(q, owner) =>
        SetRequest(db, q, db.requests[q].(status := Claimed, claimedBy := Some(owner), everClaimed := true))
      case ReleaseClaim(q, _) =>
        db.(requests := db.requests[q := db.requests[q].(status := Pending, claimedBy := None)])
      case CompleteClaimed(q, _) => db.(requests := db.requests[q := db.requests[q].(status := Completed)])
      case CreateRun(q, run, universe, ranges) =>
        var w := db.requests[q].window.value;
        db.(runs := db.runs[run := Run(q, db.requests[q].kind, Waiting, w, |universe|, 0, 0)],
            items := db.items[run := NewItems(universe, ranges, w)],
            securities := db.securities[run := universe])
      case StartRun(run) => db.(runs := db.runs[run := db.runs[run].(status := Active)])
      case ResumePartial(run) =>
        if run !in db.items then db
        else
          var items := ResetAll(db.items[run], SourceMissing);
          var r := Refreshed(db.runs[run].(status := Active), items);
          db.(items := db.items[run := items], runs := db.runs[run := r])
      case MarkItem(run, code, status) =>
        var marked := SetItem(db, run, code, Marked(db.items[run][code], status));
        if TerminalItem(status)
        then marked.(runs := marked.runs[run := Refreshed(marked.runs[run], marked.items[run])])
        else marked
      case ClaimItem(run, code, owner, now, seconds) =>
        SetItem(db, run, code, Reserved(db.items[run][code], owner, now, seconds))
      case RenewItem(run, code, owner, now, seconds) =>
        SetItem(db, run, code, db.items[run][code].(expires := Some(now + seconds)))
      case Finalize(run) =>
        var r := Refreshed(db.runs[run], db.items[run]);
        var sealed := db.(runs := db.runs[run := r.(status := if r.failed > 0 then Partial else Complete)]);
        if r.request in db.requests
        then sealed.(requests := db.requests[r.request := db.requests[r.request].(status := Completed)])
        else sealed
      case Recover(now) => Recovered(db, now)
  }

  function Execute(db: Db, ops: seq<Op>): Db {
    if ops == [] then db else Apply(Execute(db, ops[..|ops| - 1]), ops[|ops| - 1])
  }
}
