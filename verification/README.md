# Verified model of the advisor's durable workflows

This project models, in Dafny, the parts of the advisor where a wrong step would silently corrupt a
report, a request, a market fact or an account, and proves what those parts promise. Each component is
modelled from its source file; every method of a stateful component is proved against a step function,
and the promises are proved about that function over every run.

* **Report publication** (`PublicationModel`, `PublicationSafety`, `PublicationRecovery`,
  `PublicationTakeover`, `PublicationOutcome`). Writers stage three files, link markdown, JSON and marker,
  and drop their claim; the next writer repairs what a crash left. The model interleaves any number of
  writers file call by file call, with a crash possible between any two calls.
* **Reading the active report** (`ArchiveNames`, `ArchiveChain`). Supersession links must form one chain.
* **Market Daily** (`ControlModel`, `ControlLaws`, `ControlEffects`, `ControlPlane`, `MarketFacts`,
  `EngineModel`, `EngineLaws`, `EngineMeaning`, `EngineSafety`, `EngineFates`, `EngineLateDay`, `Engine`,
  `CatchUp`). Requests, runs, items and leases; immutable bars and absences; one ingesting worker at a time
  against providers that answer anything; gap planning.
* **Research requests** (`RequestModel`, `RequestLaws`, `RequestProvenance`, `RequestRepository`). Conditional
  updates decide cancellation and ownership; a method's first read is separated from its update by arbitrary
  other steps.
* **Capsule queries** (`QueryRows`, `QueryHeap`, `QueryRank`, `QueryRankLaws`, `QueryRankOrder`, `QueryMetrics`,
  `QueryAggregate`, `QueryAggregateStream`, `QueryWindow`, `QueryViews`, `QueryBudget`, `QueryScalars`,
  `QueryMeaning`, `QueryAnswers`). Each bounded one-pass operation against its in-memory form, over exact
  numbers, what the answers say of the rows, and the audited budget.
* **Ledger replay** (`LedgerModel`, `LedgerLaws`, `LedgerMoney`, `LedgerReplay`), **product dependency cycles**
  (`ProductCycles`) and **segmentation of opaque identifiers** (`Segmentation`).
* `Prelude`, `TextOrder` and `StableSort` hold what several components share: outcomes, the order of
  texts, and Python's stable `sorted`.

## Where a promise needs a condition

* Recovery after crashes. A claim is opened by name and locked afterwards, and the code does not compare
  the locked inode with the name again. A writer that opened an abandoned claim before another writer
  recovered it can therefore unlink that other writer's live claim; crashes then leave a markdown file
  that no later writer can complete (`StaleLockLeavesHalfArchive`). In every run in which locks are taken
  on the inode the claim name refers to, the next writer always ends with a complete archive
  (`NextWriter`). For a single directory the exact condition is `Recoverable`: `TakeOver` refuses if and
  only if it fails.
* The run identifier `complete` makes a JSON name that is the marker name of the initial run
  (`ArchivesShareName`); no other two archives of one type share a name.
* Progress and boundary writes without a claim identity are not guarded by the request's state: they are
  exactly the steps that can disturb a finished request (`OnlyUnidentifiedWritesDisturb`,
  `UnidentifiedWriteBreaksRecord`).
* Fencing lasts for as long as the old identity does not claim the same request again (`ReclaimReopens`).
  A request whose cancel flag was set before recovery put it back in the queue is never claimed again
  (`FlaggedNeverRunsAgain`).
* A window comparison that also carries start and end dates agrees with its in-memory form on all products
  if and only if those are well-formed dates in order, and contain both windows or the code list is empty
  (`WindowsAgree`). The in-memory form never reads them; the stream refuses every product when one of them
  is malformed (`MalformedDateRefused`), even one that as text contains both windows
  (`EmptyStartDisagrees`).
* A streamed ranking keeps the rows with the smallest keys and forgets the others. It returns the keys of
  the in-memory ranking, and the same row at every position whose key is not that of the first row left
  out (`RankRefines`).
* A run may be started again under a calendar that has grown. In a run sealed complete every item is settled
  on the listed days of some start (`SealedMeansCovered`), hence on every day given at all starts
  (`GivenDaySettled`) and, when the calendar only grows, on the days of the first (`FirstCalendarSettled`).
  A day recorded after an item was finished stays uncovered in the sealed run (`LateDayUncovered`).
* The one-pass aggregation refuses exactly a missing value field, a malformed filter, and for groups a key
  over 256 bytes, too many groups, too much group state or too long an encoding (`AggregateRefusal`); in
  every other case it answers what the in-memory form answers (`AggregateRefines`).
* The profit realized in a day depends on the order in which its transactions apply; success, holdings and
  worth do not (`OrderChangesProfit`, `DayLaw`).
* A row operation refuses early if and only if its full result is nonempty and would fail the final check
  (`EarlyRefusal`); an empty result is left to the final check, so the account comes out the same
  (`StreamChargesAlike`).
* From sound facts no ingestion meets a conflict, so with one worker every failed item of a partial run is
  reopened by resumption (`SoundNeverConflicts`, `FailuresReopen`).
* A writer that refuses leaves the directory alone, unless the claim it found was that of a transaction that got
  nowhere (`TakeOver`).
* Prepared views are invisible to operations that filter by date. `rows`, `items` and `slice` may carry
  dates without filtering by them, and a view then loses rows unless none are asked for
  (`UnfilteredOpaque`).

## Model

| member | source | states |
|---|---|---|
| PublicationSafety.MarkerImpliesFiles | advisor/reporting/contracts.py:281-328 | in every interleaving of writers and crashes, a visible marker means markdown and JSON are visible with the digests it records |
| PublicationSafety.PublicNeverChanges | advisor/reporting/contracts.py:1258-1271 | a public name, once linked, keeps its inode and bytes through the rest of every run: only hidden names are unlinked |
| PublicationSafety.ApplySafe | advisor/reporting/contracts.py:233-331 | every file call of every writer keeps the staging, naming and sealing invariants |
| PublicationRecovery.DisciplinedRunsResumable | advisor/reporting/contracts.py:1123-1140 | with crashes anywhere, the directory can be resumed with the original bytes as long as claims are locked on the inode their name refers to |
| PublicationRecovery.StoppedWritersHoldNoLocks | advisor/reporting/contracts.py:1162-1166 | a claim lock never outlives its writer |
| PublicationTakeover.TakeOver | advisor/reporting/contracts.py:233-331 | a writer working alone refuses exactly when the directory is not recoverable, and otherwise ends with a complete archive: the one it found if a marker is public, else the crashed transaction's files exactly when their stage is full, else its own; in both last cases no claim is left, the claimed transaction's stage and its own are gone, and every other stage is as it was |
| PublicationTakeover.AloneStep | advisor/reporting/contracts.py:1169-1239 | each file call of a lone writer keeps its hold on the directory it found and comes nearer to the end |
| PublicationTakeover.StagedIsValid | advisor/reporting/contracts.py:823-860 | three faithfully staged files pass the validation made before recovery publishes them |
| PublicationOutcome.NextWriter | advisor/reporting/contracts.py:250-331 | after crashes anywhere in a disciplined run the next writer finds a complete archive, finishes the crashed transaction with the bytes it staged, or publishes its own, as the marker and the claimed stage decide; after the last two no claim is left, nor any stage but those of other transactions |
| PublicationOutcome.RecoveredOriginal | advisor/reporting/contracts.py:1204-1227 | what recovery publishes is exactly what the crashed transaction staged |
| PublicationOutcome.StaleLockLeavesHalfArchive | advisor/reporting/contracts.py:1123-1140 | a concrete run without the discipline that leaves a half-published archive nobody can complete |
| ArchiveNames.ArchivesShareName | advisor/reporting/contracts.py:883-891 | two runs of one report type share a public name exactly when they are the initial run and the run called "complete" |
| ArchiveNames.TypesApart | advisor/reporting/contracts.py:883-891 | archives of different report types never share a public name |
| ArchiveChain.LoadArchives | advisor/reporting/contracts.py:635-653 | loading fails exactly when some archive or its supersession is invalid, and otherwise yields all archives and all superseded runs |
| ArchiveChain.WalkBack | advisor/reporting/contracts.py:659-669 | the walk ends, and succeeds exactly when the links form one chain over all archives from the head to the initial one |
| ArchiveChain.ReadActive | advisor/reporting/contracts.py:625-669 | the reader accepts exactly the archive sets that form one chain and returns its head |
| ArchiveChain.ChainUnique | advisor/reporting/contracts.py:656-669 | a directory has at most one such chain |
| ArchiveChain.NoChain | advisor/reporting/contracts.py:654-658 | no archives, a link to a missing one, or any number of heads but one leave no chain |
| ControlLaws.Reachable | advisor/market_daily/control.py:672-914 | in every reachable state each request has at most one run, counters are those derived from the items, and complete runs hold only completed or skipped items |
| ControlLaws.ApplySound | advisor/market_daily/control.py:777-914 | every operation keeps those invariants |
| ControlLaws.ApplyLater | advisor/market_daily/control.py:823-897 | no operation moves a terminal item, except that resuming a partial run reopens its source-missing items; run windows, frozen universes and item ranges never change |
| ControlLaws.ConflictNeverCompletes | advisor/market_daily/control.py:777-782 | a run with an item once in conflict is never sealed complete |
| ControlLaws.CompleteIsFrozen | advisor/market_daily/control.py:1037-1078 | a complete run and its items are the same in every later state |
| ControlEffects.SubmitEffect | advisor/market_daily/control.py:271-323 | a submission adds one pending request exactly when the identity is new and its window, open for a cold start only, ends at its target |
| ControlEffects.ConfigureEffect | advisor/market_daily/control.py:325-373 | the window of a claimed request is set, once and to a window that ends at its target |
| ControlEffects.ClaimEffect | advisor/market_daily/control.py:449-531 | exactly a pending request is claimed, by the caller, and keeps kind and window; a recovered claim needs an earlier claim and no run |
| ControlEffects.ReleaseEffect | advisor/market_daily/control.py:533-626 | exactly the holder of a claim without a run returns or completes the request, and nothing else changes |
| ControlEffects.CreateEffect | advisor/market_daily/control.py:665-748 | a new run has its request's kind and window and one untouched item for each security, with the planned interval or the whole window |
| ControlEffects.ResumeEffect | advisor/market_daily/control.py:777-821 | resumption opens exactly the source-missing items again, unclaimed, and leaves the others as they were |
| ControlEffects.CountersTell | advisor/market_daily/control.py:898-914 | in every reachable state a run counts its completed and skipped items, its failed ones, and all of them |
| ControlEffects.FinalizeEffect | advisor/market_daily/control.py:1037-1086 | a running run is sealed exactly when no item is left to do or running; one source-missing or conflicted item makes it partial; the request is completed either way |
| ControlEffects.MarkEffect | advisor/market_daily/control.py:823-895 | a mark sets the status, counts an attempt exactly when work starts, and clears the claim exactly when the item ends |
| ControlEffects.ClaimItemEffect | advisor/market_daily/control.py:916-973 | a claim takes exactly an unfinished item that no other worker's running claim protects, for the time asked |
| ControlEffects.RenewEffect | advisor/market_daily/control.py:975-1035 | exactly the worker whose own claim still runs makes it run longer |
| ControlEffects.RunningClaimStands | advisor/market_daily/control.py:930-960 | a claim that still runs is neither taken nor renewed by another worker |
| ControlEffects.RunningLeaseStands | advisor/market_daily/control.py:386-447 | a lease that still runs is neither taken nor released by another service |
| ControlEffects.LeaseLasts | advisor/market_daily/control.py:386-447 | whatever operations follow, a service has its lease until its time, unless it lets it go or asks for less |
| ControlEffects.RecoverEffect | advisor/market_daily/control.py:1088-1150 | recovery takes exactly the running runs that no live service serves, with their running items |
| ControlEffects.RecoverRequests | advisor/market_daily/control.py:1088-1171 | a claimed request returns to the queue exactly when no live service has it and its run, if any, was running |
| ControlEffects.ReachableAgrees | advisor/market_daily/control.py:672-748 | in every reachable state a run has its request's kind and window, and the request of a sealed run is completed |
| ControlPlane.MarketDailyControlPlane.CreateRun | advisor/market_daily/control.py:628-748 | run creation performs the model's step, answers an existing run for a request that has one, and refuses exactly on a missing or unclaimed request, no window, an empty universe or ranges that do not fit |
| ControlPlane.MarketDailyControlPlane.StartRun | advisor/market_daily/control.py:753-775 | only a pending run starts |
| ControlPlane.MarketDailyControlPlane.ResumePartialRun | advisor/market_daily/control.py:777-821 | resuming reopens exactly the source-missing items and recounts |
| ControlPlane.MarketDailyControlPlane.MarkItem | advisor/market_daily/control.py:823-895 | marking performs the model's step, and only in a running run and never away from a terminal status |
| ControlPlane.MarketDailyControlPlane.CountItems | advisor/market_daily/control.py:902-914 | the loop counts exactly the done and the failed items |
| ControlPlane.MarketDailyControlPlane.RefreshRunProgress | advisor/market_daily/control.py:898-914 | counters are recomputed from the items whatever they were |
| ControlPlane.MarketDailyControlPlane.ClaimItem | advisor/market_daily/control.py:916-973 | a claim succeeds exactly on a non-terminal item that no other owner holds unexpired |
| ControlPlane.MarketDailyControlPlane.RenewItemClaim | advisor/market_daily/control.py:975-1035 | only the current, unexpired owner of a running item extends its claim |
| ControlPlane.MarketDailyControlPlane.FinalizeRun | advisor/market_daily/control.py:1037-1086 | sealing needs every item terminal; the seal is partial exactly when some item failed |
| ControlPlane.MarketDailyControlPlane.AcquireLease | advisor/market_daily/control.py:386-425 | the lease is granted exactly when it is free, the caller's own or expired |
| ControlPlane.MarketDailyControlPlane.ReleaseRequestClaim | advisor/market_daily/control.py:533-579 | only the holder of a claim without a run returns the request to the queue |
| ControlPlane.MarketDailyControlPlane.CompleteClaimedRequest | advisor/market_daily/control.py:581-626 | only the holder of a claim without a run completes the request |
| ControlPlane.ReachableLinked | advisor/market_daily/control.py:672-748 | in every reachable state runs have items and a request, which the methods on runs rely on |
| ControlPlane.MarketDailyControlPlane.RecoverExpiredWork | advisor/market_daily/control.py:1088-1171 | the two passes together put back exactly the running runs of dead services, their running items and claims, and dead claims without a run, and return how many runs and claims those are |
| ControlPlane.RecoveredAll | advisor/market_daily/control.py:1107-1164 | recovery run by run and then claim by claim is the one assignment of the model |
| MarketFacts.CommitGrows | advisor/market_daily/repository.py:188-229 | a commit never rewrites or removes a stored bar or absence, and stores every date of the batch |
| MarketFacts.MarketDailyRepository.StoreBars | advisor/market_daily/repository.py:407-438 | stored bars stand; each bar is inserted, unchanged or conflicted by what was stored before the batch |
| MarketFacts.MarketDailyRepository.StoreAbsences | advisor/market_daily/repository.py:441-464 | stored absences stand; each absence is inserted, unchanged or conflicted by what was stored before the batch |
| MarketFacts.MarketDailyRepository.StoreFactors | advisor/market_daily/repository.py:467-498 | factors are inserted or replaced, never lost; each is inserted, updated or unchanged by what the ones before it left |
| MarketFacts.MarketDailyRepository.CommitSecurityObservations | advisor/market_daily/repository.py:188-229 | an invalid batch changes nothing; a valid one is committed whole and all nine counts are those of its facts |
| MarketFacts.CountsAreTrue | advisor/market_daily/repository.py:208-222 | each table grows by exactly the count reported as inserted, and a conflict is reported exactly when a stored bar or absence is contradicted |
| MarketFacts.RefusedBatch | advisor/market_daily/repository.py:196-207 | a batch is refused exactly when it is empty, mixes securities, repeats a day, or has a day both traded and suspended |
| MarketFacts.CommitStores | advisor/market_daily/repository.py:407-498 | after a commit every new bar and absence is stored with its content, every factor with the content the batch named last, and every other factor as it was |
| Engine.SelectExpectedBars | advisor/market_daily/engine.py:302-320 | one foreign, off-calendar or repeated bar refuses the answer; otherwise the missing dates' bars are returned in date order |
| Engine.ValidateAbsences | advisor/market_daily/engine.py:323-335 | one foreign, resolved or repeated absence refuses the answer |
| Engine.IngestMissing | advisor/market_daily/engine.py:132-197 | fetching one security stores the accepted answer and nothing else; the item is marked conflicted exactly when the accepted answer contradicts a stored bar, goes on to the factor check exactly when every expected date is covered or answered without contradiction, and is otherwise source-missing |
| Engine.EnsureFactorCoverage | advisor/market_daily/engine.py:235-260 | every bar of the interval without a factor gets the answered one in a single commit, or the item is marked source-missing and nothing changes |
| EngineLaws.SelectedBars | advisor/market_daily/engine.py:302-320 | what is selected is exactly the answered bars on missing dates, strictly ascending in date |
| EngineLaws.SelectedAbsences | advisor/market_daily/engine.py:323-335 | accepted absences are all the answered ones, strictly ascending in date, each on an unresolved date |
| EngineLaws.MatchedFactors | advisor/market_daily/engine.py:223-233 | an accepted factor answer has a factor for every received bar |
| EngineLaws.IngestLaw | advisor/market_daily/engine.py:105-197 | for any answers, traded and suspended dates stay apart, facts only grow, and the factor check is reached only when every expected session is covered |
| EngineLaws.FactorLaw | advisor/market_daily/engine.py:235-260 | the factor check passes only when every stored bar of the sessions has a factor |
| EngineMeaning.IngestMeans | advisor/market_daily/engine.py:132-197 | told of the stored facts and the answers alone: which answer is taken, exactly what it adds, and which of the three fates the item gets |
| EngineMeaning.TakenIffAccepted | advisor/market_daily/engine.py:138-157 | an answer passes the checks made one after the other exactly when its bars, absences and factors fit the facts and each other and something is left to store |
| EngineMeaning.SoundNeverConflicts | advisor/market_daily/engine.py:158-178 | from sound facts no answer contradicts a stored bar, so a day that is still missing is never reported as a conflict |
| EngineMeaning.FactorCheckMeans | advisor/market_daily/engine.py:235-260 | exactly the bars without a factor get the last factor answered for their day, or nothing changes |
| EngineSafety.PlayInv | advisor/market_daily/engine.py:81-221 | over every sequence of worker steps, other operations and crashes, an item counted as done was proven covered |
| EngineSafety.SealedMeansCovered | advisor/market_daily/engine.py:81-260 | whatever calendars its starts were given, a run sealed complete has, for every item and on every listed session of some start, exactly one of a bar and an absence, and a factor for every bar |
| EngineSafety.GivenDaySettled | advisor/market_daily/catch_up.py:127-141 | so it has on every listed session that was given at each of its starts and resumptions |
| EngineSafety.FirstCalendarSettled | advisor/market_daily/sessions.py:66-77 | and, when sessions are only ever added between starts, on every listed session of the first start |
| EngineSafety.ExpectedIsListed | advisor/market_daily/engine.py:293-299 | the expected sessions are exactly the given days inside the item's interval on which the security is listed |
| EngineFates.PlayJobFits | advisor/market_daily/engine.py:88-93 | in every reachable state the worker's sessions are ascending and inside the window of its run |
| EngineFates.FailuresReopen | advisor/market_daily/control.py:777-821 | whatever the providers answer, from sound facts no item of a partial run is in conflict, and resumption leaves none failed |
| EngineLateDay.LateDayUncovered | advisor/market_daily/engine.py:94-99 | a concrete run, started again after a session was added, that is sealed complete without covering that session |
| CatchUp.BuildPlan | advisor/market_daily/catch_up.py:143-177 | no plan exactly when nothing listed is uncovered; otherwise the plan selects exactly the securities with a gap, each with the interval from its first to its last gap |
| CatchUp.ListedMeans | advisor/market_daily/catch_up.py:180-184 | a session counts for a security exactly on the days from its listing to its delisting |
| CatchUp.IneligibleNeedsNothing | advisor/market_daily/catch_up.py:148-149 | securities outside the window need nothing, so leaving them out loses nothing |
| CatchUp.PlanFits | advisor/market_daily/catch_up.py:114-123 | run creation accepts the planned ranges exactly when the frozen window does not start after the plan |
| CatchUp.PlanStartIsEarliest | advisor/market_daily/catch_up.py:114-115 | the plan starts before the frozen window exactly when some needed session lies before it |
| CatchUp.ExecuteClaimed | advisor/market_daily/catch_up.py:95-123 | every outcome exactly: refused for a request that is not executable, without a complete cold start, without a target, for a calendar short of the target, or a needed session before the frozen window; completed when nothing is needed and the claim is held without a run; otherwise there is a run, the request's own or the new one created from a plan |
| CatchUp.CompletedPlanSettles | advisor/market_daily/catch_up.py:95-141 | after a run created from a plan is sealed complete, planning again over the same sessions and universe finds nothing, as long as every start of the run was given the planned sessions of its window, with or without more |
| RequestLaws.CancellationWins | advisor/research/repository.py:1346-1471 | a request flagged before it ended can only end cancelled, without report hashes, whatever is interleaved |
| RequestLaws.BoundaryIsFinal | advisor/research/repository.py:1258-1301 | a boundary once set is the same in every later state |
| RequestLaws.FlaggedNeverRunsAgain | advisor/research/repository.py:1199-1234 | a flagged request back in the queue waits or is cancelled; it is never claimed |
| RequestLaws.RecordsAreFinal | advisor/research/repository.py:1887-1912 | with identified writes, exactly the terminal requests have a record, equal to the request and never changed |
| RequestLaws.OnlyUnidentifiedWritesDisturb | advisor/research/repository.py:1303-1344 | a step disturbs a terminal request exactly when it is a progress or boundary write without identity whose read came before the end |
| RequestLaws.UnidentifiedWriteBreaksRecord | advisor/research/repository.py:1303-1344 | a concrete run in which such a write leaves a record unequal to its request |
| RequestLaws.WriteNeedsClaim | advisor/research/repository.py:1236-1256 | a write under an identity takes effect only on a request running under it |
| RequestLaws.StaleWritesFenced | advisor/research/repository.py:1518-1553 | after recovery and another claim, no write under the old identity changes anything until it claims again |
| RequestLaws.ReclaimReopens | advisor/research/repository.py:1199-1234 | an identity that claims the request again writes again |
| RequestProvenance.EverythingExplained | advisor/research/repository.py:1391-1471 | in every reachable state every value of a request was given by a step about it: its inputs by its submission, its boundary, its owner, its flag, and the hashes of a published request each under its own name by a completion with that status |
| RequestProvenance.EverythingInRange | advisor/research/repository.py:1258-1344 | progress never passes its total, and no boundary precedes the request but that of a legacy import |
| RequestProvenance.EveryRerunEnded | advisor/research/repository.py:1142-1145 | in every reachable state a rerun names a request that has ended |
| RequestRepository.ResearchRepository.Execute | advisor/research/repository.py:1425-1462 | one guarded update: its row count and its effect are the model's |
| RequestRepository.ResearchRepository.SubmitRequest | advisor/research/repository.py:1111-1180 | a submission is accepted exactly when its arguments are in order and an earlier use of its identity carried the same inputs; a new one is the only row that changes: queued, unclaimed, with the inputs and boundary given |
| RequestRepository.ResearchRepository.ClaimNextRequest | advisor/research/repository.py:1199-1234 | a claim succeeds exactly when the offered request is queued and not flagged; it then runs under the caller and all else is as before |
| RequestRepository.ResearchRepository.SetRequestBoundary | advisor/research/repository.py:1258-1301 | the guarded update is tried exactly when claim, status, time and first read allow it; success means the boundary is the one asked for, failure changes nothing, and at most the boundary of that row changes |
| RequestRepository.ResearchRepository.UpdateRequestProgress | advisor/research/repository.py:1303-1344 | the guarded update is tried exactly when claim, first read and counts allow it, the method succeeds exactly when that update matches, and only that row's progress changes |
| RequestRepository.ResearchRepository.RequestCancel | advisor/research/repository.py:1346-1389 | queued requests end cancelled with a record, running ones are flagged, and nothing else changes |
| RequestRepository.ResearchRepository.CompleteRequest | advisor/research/repository.py:1391-1471 | a completion that takes effect puts status, both hashes each under its own name, cycle, phase and reason into the row and a record with the same content, and leaves inputs, boundary, claim and flag alone; one that lost against cancellation ends the request cancelled without hashes |
| RequestRepository.ResearchRepository.RecoverInterrupted | advisor/research/repository.py:1518-1553 | exactly the running requests of other owners go back to the queue, unclaimed and with the reason noted, and nothing else changes |
| LedgerLaws.ReplaySucceedsIff | advisor/ledger/model.py:115-130 | replay of validated transactions succeeds exactly when, at the close of every day, purchases to date cover sales to date of each code sold that day |
| LedgerLaws.ReplayConserves | advisor/ledger/model.py:190-215 | cash plus cost basis less realized profit is what was paid in; positions are purchases less sales, positive, with a positive cost basis each |
| LedgerMoney.OneBooked | advisor/ledger/model.py:190-215 | a purchase pays amount and fees and both become cost; a sale receives the amount less fees, leaves the cost per remaining share as it was, and realizes the difference; cash movements change the cash alone |
| LedgerMoney.BookedOnce | advisor/ledger/model.py:190-215 | that determines the books |
| LedgerMoney.ReplayCash | advisor/ledger/model.py:115-130 | after every successful replay the cash is the sum of all amounts less the fees of all trades |
| LedgerMoney.ReplayProfit | advisor/ledger/model.py:190-215 | and the realized profit is that cash plus the cost of what is held, less what was paid in |
| LedgerLaws.GivenOrderAvailable | advisor/ledger/model.py:153-156 | the given order succeeding implies net availability |
| LedgerLaws.FallbackRuns | advisor/ledger/model.py:160-167 | net availability implies the buy-first order never fails |
| LedgerLaws.DayLaw | advisor/ledger/model.py:149-168 | a day succeeds exactly when it is available on balance, and whichever order was used the holdings are the day's net and the worth grows by what was paid in |
| LedgerLaws.OrderChangesProfit | advisor/ledger/model.py:198-213 | concrete books and two transactions that realize 50 in one order and nothing in the other |
| LedgerLaws.BuysFirstSorts | advisor/ledger/model.py:161-164 | the fallback runs the same transactions, sales last and otherwise by identifier |
| LedgerLaws.DaysPartition | advisor/ledger/model.py:119-128 | grouping into days loses, repeats and reorders nothing |
| LedgerReplay.LedgerState.ApplySingle | advisor/ledger/model.py:190-215 | one transaction changes the state as the model's books and, being validated, does to cash, position, cost and profit what its kind says; or it fails without effect |
| LedgerReplay.LedgerState.SameDayNetAvailable | advisor/ledger/model.py:171-187 | the two tallies decide net availability |
| LedgerReplay.LedgerState.ApplySameDay | advisor/ledger/model.py:149-168 | a day is applied whole or not at all |
| LedgerReplay.ApplyTransactions | advisor/ledger/model.py:115-130 | the day loop is replay |
| ProductCycles.CycleChecker.Visit | advisor/research/catalog.py:155-164 | a visit fails only on a cyclic catalog and otherwise extends a topological order |
| ProductCycles.CycleChecker.Validate | advisor/research/catalog.py:151-167 | the check ends, accepts exactly the acyclic catalogs, and has then visited every product after its dependencies |
| ProductCycles.OrderedIsAcyclic | advisor/research/catalog.py:151-167 | a topological order rules out cycles |
| Segmentation.TermCounts | advisor/evidence/mx_adapter.py:586-597 | the table holds for each prefix the largest number of terms spelling it, or none |
| Segmentation.ExtendFrom | advisor/evidence/mx_adapter.py:592-596 | one row of the table accounts for every term starting there |
| Segmentation.ContainsSensitiveOpaqueCompound | advisor/evidence/mx_adapter.py:584-597 | true exactly when some component is a concatenation of at least two listed terms |
| Segmentation.SplitComponents | advisor/evidence/mx_adapter.py:585 | splitting yields exactly the stretches between delimiters |
| Segmentation.SensitiveTermsNonEmpty | advisor/evidence/mx_adapter.py:53-75 | no listed term is empty, which the table relies on |
| QueryHeap.PushHeap | advisor/research/query.py:671-680 | a push keeps a largest key at the root and the entries together |
| QueryHeap.ReplaceHeap | advisor/research/query.py:681-686 | a replacement drops the root for the new entry and keeps a largest key at the root |
| QueryHeap.RootLargest | advisor/research/query.py:630-637 | under reversed comparison the root has a largest key |
| QueryRank.StreamRank | advisor/research/query.py:640-694 | the scan returns, or refuses, as the fold over offered entries does |
| QueryRankLaws.RankRefines | advisor/research/query.py:951-971 | whenever the bounded pass returns it has the key sequence of sorting and taking the first rows, and the very same row wherever the key is not that of the first row left out |
| QueryRankLaws.NoTieAgrees | advisor/research/query.py:951-971 | without a tie across the limit both forms return the same rows |
| QueryRankLaws.DistinctKeysAgree | advisor/research/query.py:951-971 | and so they do when no two candidates share a key |
| QueryRankLaws.RankWithinBytes | advisor/research/query.py:669-686 | the running byte total bounds the encoded size of the returned rows, so they pass the final check |
| QueryRankOrder.StreamRanksRight | advisor/research/query.py:640-694 | a streamed ranking returns as many of the numbered matching rows as the limit allows, in order of their numbers as asked, then of code and date, and none left out must stand before one returned |
| QueryRankOrder.MemoryRanksRight | advisor/research/query.py:951-971 | and so does the in-memory ranking |
| QueryRankOrder.RankRefusal | advisor/research/query.py:640-694 | the pass refuses exactly a malformed filter, a limit below one or over the rows left, or too many bytes held at some row |
| QueryMetrics.MetricState.Add | advisor/research/query.py:440-451 | the running state keeps count, numeric count, sum and extremes of the values seen |
| QueryMetrics.MedianSpool.MedianIsMedian | advisor/research/query.py:490-499 | the page the spool selects averages to the median |
| QueryMetrics.MedianSplits | advisor/research/query.py:858-877 | at least half of the values lie at or below the median and at least half at or above |
| QueryMetrics.ExtremesMean | advisor/research/query.py:873-876 | the lowest and the highest value occur and bound all others |
| QueryMetrics.StateMatches | advisor/research/query.py:453-473 | value and coverage of a state are those of the list of values |
| QueryMeaning.MetricMeans | advisor/research/query.py:858-877 | a metric has a number exactly when it counts or every value has one, and it is the count, the sum, the mean, a middle of the ordered numbers, the lowest or the highest |
| QueryMeaning.CoverageMeans | advisor/research/query.py:909-915 | how many values have a number and how many have none is told exactly when some have none and the metric needs them |
| QueryAggregate.AggregateRefines | advisor/research/query.py:880-906 | whenever the one pass is not refused it answers what filtering, grouping and folding answers, groups in key order |
| QueryAggregate.AggregateRefusal | advisor/research/query.py:517-588 | the one pass refuses exactly a missing value field, a malformed filter, or a grouped answer with an overlong key, too many groups, too much group state or too long an encoding |
| QueryAggregate.IntakeUnlimited | advisor/research/query.py:543-554 | without limits only an overlong group key is refused |
| QueryAggregate.AggregateWithinBytes | advisor/research/query.py:561-588 | a grouped answer that is returned keeps to the row and byte budgets |
| QueryAnswers.FilterPicks | advisor/research/query.py:365-383 | filtering picks exactly the rows with the field's value, one of the codes and a well-formed date in the window, in their order |
| QueryScalars.SameMeans | advisor/research/query.py:365-373 | two values are equal when they are the same number, flags being one or zero, or the very same value; what is no number equals nothing |
| QueryScalars.DateText | advisor/research/query.py:780 | a date is four digits, two and two with hyphens between |
| QueryScalars.DatesInOrder | advisor/research/query.py:374-382 | dates compared as texts stand in the order of year, month and day, which every date filter and window relies on |
| QueryScalars.EncodedAsList | advisor/research/query.py:391-426 | the encoded length of rows is that of the bracketed, comma-separated list of their texts |
| QueryAnswers.AggregateAnswered | advisor/research/query.py:880-915 | in both forms an answer is the cell of all rows asked for, or one cell for each key they have, in key order, each right for exactly the rows with that key: count, coverage and metric of the named field |
| QueryAggregateStream.TakeRow | advisor/research/query.py:532-557 | one matched row finds or opens its group and is charged as the intake function says |
| QueryAggregateStream.StreamAggregate | advisor/research/query.py:517-597 | the dictionary of states and the spool compute the intake's answer or refusal |
| QueryWindow.StreamBreadth | advisor/research/query.py:600-627 | the counters are the numbers of matching rows that rose, fell, stood still or had no number, and the two ratios are the shares that rose and fell among those with a number |
| QueryWindow.BreadthAdds | advisor/research/query.py:924-948 | every matching row is counted exactly once; the ratios exist exactly when some row has a number, and together are at most one |
| QueryMeaning.BreadthMeans | advisor/research/query.py:924-948 | the counters are the numbers of rows whose change is above, below and exactly zero |
| QueryMeaning.RatiosMean | advisor/research/query.py:924-948 | the ratios are the shares of risers and fallers among the rows with a number, and exist exactly when there are any |
| QueryWindow.StreamWindowCompare | advisor/research/query.py:697-766 | the two running windows, which may overlap, yield the comparison of the rows each has seen |
| QueryAnswers.StreamWindowAnswered | advisor/research/query.py:697-766 | each side is right for exactly the rows inside its own window that the request asks for: metric, distinct dates, first and last; the difference leads from the earlier to the later number and exists exactly when both are there and sums cover equally many sessions |
| QueryAnswers.MemoryWindowAnswered | advisor/research/query.py:974-1019 | and so it is in memory, whatever dates the request has besides |
| QueryWindow.WindowsAgree | advisor/research/query.py:974-1019 | the two forms agree on every product exactly when the windows themselves are refused, or the request's own dates are well-formed, in order, and contain both windows or go with an empty code list |
| QueryWindow.MalformedDateRefused | advisor/research/query.py:356-359 | with a malformed date of the request's own the stream refuses every product and the in-memory form answers |
| QueryWindow.EmptyStartDisagrees | advisor/research/query.py:707-712 | an empty start date contains both windows as text, and still the two forms differ |
| QueryBudget.StreamRows | advisor/research/query.py:385-429 | the scan returns, or refuses, as emitting the full result row by row does |
| QueryAnswers.RowsAnswered | advisor/research/query.py:385-429 | an answered row operation skips the offset among the rows asked for and returns the following ones up to the limit |
| QueryBudget.EarlyRefusal | advisor/research/query.py:419-428 | early refusal happens exactly when the full result is nonempty and would not fit |
| QueryBudget.StreamChargesAlike | advisor/research/query.py:172-181 | stream and loaded payload are refused alike and leave the same log |
| QueryBudget.BudgetHolds | advisor/research/query.py:137-206 | over any sequence of queries no limit is passed |
| QueryBudget.ChargeAnswers | advisor/research/query.py:137-206 | a query is answered exactly when the log has fewer queries than the limit, the operation answers, and its rows and bytes fit what the log leaves |
| QueryBudget.ReplayTotals | advisor/research/query.py:74-88 | the totals are the number of records and the sums of their rows and bytes |
| QueryBudget.CapsuleQuery.LoadAudit | advisor/research/query.py:74-88 | the totals are those of the log |
| QueryBudget.CapsuleQuery.Execute | advisor/research/query.py:90-206 | a refused query leaves the log as it was; an answered one adds one record with exactly its rows and bytes, and within the limits |
| QueryViews.ViewTransparent | advisor/research/query.py:99-135 | a date-filtered request gets on its group's view the answer, or the refusal, it gets on the product |
| QueryViews.PlanContains | advisor/research/query.py:117-118 | the view's window contains every request's window |
| QueryViews.WindowSpans | advisor/research/query.py:254-263 | a request has a window exactly when it names well-formed dates: its own, or from the earlier start to the later end of its two windows |
| QueryViews.PlanExists | advisor/research/query.py:113-116 | a group has a common window exactly when it is not empty and each of its requests has one |
| QueryViews.PlanIsTight | advisor/research/query.py:117-118 | the view's window starts and ends with that of some request |
| QueryViews.ViewKeeps | advisor/research/query.py:123-130 | the view keeps exactly the records with a date text inside the window, as often as they occur |
| QueryViews.DatesRefused | advisor/research/query.py:338-362 | every streamed operation is refused for its dates exactly when a date it filters by is none or a window ends before it starts, whatever the product holds |
| QueryViews.UnfilteredOpaque | advisor/research/query.py:254-263 | a row operation naming dates is indifferent to the view exactly when it filters by them or asks for no rows |

## Left out

- Descriptors, fsync, symlink and inode checks, date-directory binding, directory and file modes: not
  modelled; a single file write is atomic, and the reads of one validation are one step.
- Creating, locking and writing the private claim file before it is linked is one step; the private name is
  not modelled.
- The publication is modelled on values, a step function over a directory, because its point is the
  interleaving of many writers; only the lone writer is a loop.
- Transaction, run and claim identities are never reused; SHA-256 is a parameter, and nothing is assumed
  of it: digests are compared, not inverted.
- PublicationModel.ValidArchive: does not compare the report time, type, trade date and run identifier of
  the payload with those of the writer, as validation does after the links are made. All three callers
  write consistent metadata; a payload with another report time would leave three public files that never
  validate.
- JSON and CSV text, regular expressions over unusual digits, path and identifier validation, and the
  rendering of reports.
- Floating-point rounding: prices, amounts and query numbers are exact; the finiteness check on the final
  ledger state is then always met. The transaction identifier and date formats are not modelled.
- Queue order, the request identity hash and `next_work`: a claim takes whichever pending request it is
  offered; the shared queue may only refuse.
- Clocks and heartbeats: times are arguments. Events, phases, reasons, source names, error texts and
  `published_at` are not modelled, and neither are legacy indexing, taxonomy and experiment tables.
- `request_cancel` reads, then updates within one transaction; its second attempt after both updates miss
  cannot be reached there and is not modelled.
- Who may call `mark_item`: the code does not tie it to the holder of the item's claim. In the end-to-end
  model items are claimed and marked by one worker at a time; lease renewals by others, submissions,
  recovery and resumption happen at any time.
- The session table: each start of a run carries the trading days it was given, whatever they are.
- CatchUp.CompletedPlanSettles: the frozen request window, not the later plan, gives the days a run
  executes on, as in the source; a start under a calendar that lost a planned day is not covered.
- `repair_bar`, session observation and the construction of the universe snapshot.
- The `search` operation: its two forms read different rows. `get` is refused on streamed products.
- RequestRepository.ResearchRepository.SetRequestBoundary: the row passed in as first read is any row, so
  the contract covers every interleaving between read and update.
- Case folding: the segmented identifier is taken in lower case.
- A list or an object as a row's code makes both filters raise; here such a row just does not match.
- Request parameters of another type than the operation reads; a start or end date that is no text counts
  here as a malformed text.
- Gzip and line limits of streamed products; a damaged record refuses the query before any operation.
