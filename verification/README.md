# KidItem coordination protocols, verified

A Dafny model of the parts of KidItem that have to be right under interleaving, crashes and awkward inputs, with proofs
of what they promise. `dafny verify dfyconfig.toml` checks everything.

Every `await` of the original is a point where other steps come in. A protocol is therefore modelled as a state machine:
a pure function gives the state after one step, the theorems are about every sequence of steps, and where the original
changes objects in place a class does the same and each of its methods is proved equal to that function. Whatever the
environment decides (Chrome, the network, the database, clocks, the operator) is an input of the step.

| modules | what they model |
|---|---|
| `CollectionStore`, `CollectionProtocol`, `CollectionInvariant`, `CollectionTheorems`, `CollectionHandover`, `CollectionEffects`, `SessionStorage`, `SessionCalls`, `MutationQueue`, `SerialStore` | Browser collection sessions: the stored map of attempts, its queue of transactions, the permanent stop fence and the tabs that still owe a close |
| `AppLifetime`, `AppStartup`, `AppAdmission`, `Coalescing` | Sessions ending with the web app's last tab: cleanup in batches, startup, the admission check, and work that is joined while it is under way |
| `Runner`, `RunnerInvariant`, `RunnerTheorems`, `RunnerFence`, `RunnerOutcome`, `RunnerExecution`, `ChunkBuffer` | One operation run: lease, numbered chunks and heartbeats on one write chain, finish or fence loss; and the packing of its chunks |
| `Ledger`, `LedgerEffects`, `LedgerRunner`, `SourceIdentity` | The data-migration ledger under crashes, its drift checks, and source hashes that do not depend on line endings |
| `LocalSync`, `LocalSyncTheorems`, `LocalSyncDrift`, `LocalSyncOutcome`, `LocalSyncRunner` | `db:sync:local`, which predicts at its start what two later `up` commands will do, and does all that is due if it ends well |
| `FormulaLocks`, `FormulaDeadlock`, `FormulaStep` | The ensure step of the ABC formula, its advisory-lock order, and when that order deadlocks |
| `Decimal`, `PrLabels`, `Reconcile`, `ReconcileRun` | PR labels on Linear issues, settling under replayed and reordered runs |
| `Calendar`, `BusinessDate`, `BusinessMonth`, `MonthRange` | Business dates over the Gregorian calendar of section 21.4.1 of ECMA-262 |
| `RunHistory`, `HistoryEffects`, `HistoryQuery`, `AgentRunner` | Agent runs whose terminal events wait for durable storage, and the recursive history query |
| `TabOwnership`, `TabEffects`, `TabPages` | Who opens, closes and keeps the tabs of site runs |

## Where the code does less than it says

For each of these two things are proved: the exact condition under which the promise holds, and a case in which it fails.

- The comments at `extensions/src/core/operation-client.ts:64-69` say that a run whose fence is lost sends no finish. A run
  learns of the loss by a refused chunk, by a refused heartbeat unless it is just draining another failure
  (`runner.ts:403`), and by a refused report only if the collector throws that on (`runner.ts:317-324`). A run that is over
  and was not cancelled made a finish request exactly if it never learned of a loss (`RunnerFence.FinishUnlessLearned`, and
  for each refused put `RunnerFence.FinishAfterRefusedPut`). Cases: `RunnerTheorems.FinishAfterLossHappens`,
  `RunnerFence.GoodFinishAfterLostReport`, `RunnerFence.FailedFinishAfterLostReport`.
- `extensions/shared/collection-session.js:563-565` calls a failed late attach a durable debt. It is one exactly if the
  transaction that is to record it, when the worker lives to run it, can read and write the store and retention leaves the
  record (`CollectionTheorems.LateAttachIsRecorded`). Otherwise the record can be deleted while the tab stays open
  (`CollectionHandover.UnrecordedTabOutlivesRecord`, from the world of `CollectionHandover.StoppedSessionIsReachable`).
- `extensions/kiditem-os/background/web-app-collection-lifetime.js:258-261` says that a refused session is always fenced
  independently. It ends stopped, fenced or gone, exactly if its own fence could be stored, or the one its owner makes when
  it is asked (`orders/worker.js:82-84`), or one of a cleanup that has the session (`AppAdmission.AdmissionFences`);
  `AppAdmission.RefusedYetUnfenced` is a session left as it was.
- `extensions/kiditem-os/background/web-app-collection-lifetime.js:346-350` says that startup fences every session of an
  environment whose app is known to be closed. A list of sessions that cannot be read is taken for an empty one
  (`web-app-collection-lifetime.js:171-179`), and the environment counts as settled: it does exactly if the list could not
  be read or every stored session was let go of (`AppStartup.ClosedSettledIff`, case `AppStartup.SettledWithASessionLeft`).
- `extensions/src/sites/fresh-tab.ts:9-10` says that a tab that was read in is closed or left to the operator. A refused
  removal and a failed look at the tab are swallowed (`tab-page.ts:502`, `tab-page.ts:529`, `tab-page.ts:355`), and a
  restart of the worker forgets. With no run under way the opened and still open tabs that are neither kept nor given up
  are exactly those (`TabOwnership.OnlyOwnTabs`; cases `TabOwnership.RefusedRemovalLosesTheTab`,
  `TabOwnership.FailedLookLosesTheTab`, `TabOwnership.FailedCheckLosesTheTab`).
- `scripts/data-migrations/ledger.ts:18-19` says that a succeeded row is never rewritten. Between commands that holds
  (`Ledger.SucceededIsFinal`); inside one migration's run a success is overwritten exactly when its answer is lost and the
  failure mark is stored (`Ledger.SuccessTakenBack`, case `Ledger.SuccessTakenBackHappens`). When a command commits a
  migration is said by `Ledger.UpCommitsIff`, and that it commits again exactly if its first commit did not leave it
  succeeded by `Ledger.CommitsTwiceIff` (case `Ledger.CommitsTwice`).
- `scripts/data-migrations/source-identity.ts:59-63` says that CRLF and LF checkouts agree. They do exactly when the source
  has no CRLF of its own (`SourceIdentity.CheckoutsAgreeIff`, case `SourceIdentity.CheckoutsCanDiffer`).
- `scripts/data-migrations/ensure/absolute-product-abc-formula.ts:51-56` says that the wait cannot become a deadlock. What
  is locked are hashes of the keys. Transactions can deadlock exactly if their plans are entangled
  (`FormulaDeadlock.DeadlockIff`); two of them, exactly if they take two hash values in opposite orders with no lock that
  both take before to keep them apart (`FormulaDeadlock.PairDeadlockIff`). So a collision can be harmless
  (`FormulaDeadlock.GateKeepsApart`) or not (`FormulaLocks.CollisionCanDeadlock`), and without one there is no deadlock
  (`FormulaLocks.NoWaitCycle`).
- `deploy/linear-pr-labeler/src/reconcile.ts:62-64` says that all deliveries settle on the same labels. Of runs in any order
  they do exactly if one PR alone was linked last (`Reconcile.OrderNeverMattersIff`, case `Reconcile.TieKeepsFirst`).
- `packages/shared/src/common.ts`: `kstMonthEnd` is wrong for `0000-02` only (`BusinessMonth.MonthEndIsLastDay`),
  `closedMonthRangeFromCutoff` is not null on `9999-12-31` only (`BusinessMonth.ClosedMonthIs`,
  `BusinessMonth.ClosedMonthOfLastDate`), `kstDayStart` is wrong for the years 0 to 99 and, at the two
  ends of the time values, for the last nine and the first fifteen hours, in which it is no valid date
  (`BusinessMonth.DayStartIff`; cases `BusinessMonth.DayStartsTooLate`, `BusinessMonth.NoDayStartAtTheEnd`,
  `BusinessMonth.NoDayStartAtTheStart`), and the months of `kstMonthRange` tile exactly from the year 1000 on
  (`MonthRange.MonthRangeTilesIff`, case `MonthRange.MonthRangeCanFail`).
- `scripts/sync-local-database.ts:698-704`: a run that gets to its end exits with 0 exactly when no pre-schema migration is
  pending of a release that is neither the open one nor an older one (`LocalSyncDrift.ExitZeroIff`); no run of the command
  applies such a one, and it exits with 2 (`LocalSyncDrift.NewerReleaseExitsTwo`).

## Model

| member | source | states |
|---|---|---|
| CollectionInvariant.StepOk | extensions/shared/collection-session.js:327-512 | Every atomic action of every call keeps: what owes a close is fenced, a fence implies an environment, every debt is recorded or its tab is gone, and each call in flight stands on facts the others cannot break |
| CollectionTheorems.LateAttachDebtIsCovered | extensions/shared/collection-session.js:455-500 | In every interleaving, a closable tab that a fenced session has taken in as owed is at all times in that session's pending list or gone from Chrome; the next row says which tabs are taken in |
| CollectionTheorems.LateAttachIsRecorded | extensions/shared/collection-session.js:467-483 | A closable tab handed to a fenced session is taken in as owing a close, as one late attach and never as the managed tab, exactly if the store can be read and written and retention leaves the record; if the store fails, nothing is recorded and the call ends with the tab as it was |
| CollectionTheorems.RecordsContinue | extensions/shared/collection-session.js:237-256 | Only retention or the deciding transaction of cancel or remove ends a record; every other step keeps its owner, never turns its date back and never lifts the fence |
| CollectionTheorems.DecidingKeepsDebts | extensions/shared/collection-session.js:561-646 | The deciding transaction keeps its record unchanged or deletes it, and drops no debt |
| CollectionTheorems.DebtsAreNotForgotten | extensions/shared/collection-session.js:398-429 | A debt is forgotten only when its tab is gone or retention drops the record |
| CollectionTheorems.DeletionOwesNothing | extensions/shared/collection-session.js:561-646 | Neither cancel nor remove ever deletes a record while a tab it owes is open |
| CollectionHandover.OpenDebtStaysRecorded | extensions/shared/collection-session.js:455-500 | Over any run in which retention leaves the record, a late attach that was taken in is still in the record's pending list as long as its tab is open |
| CollectionHandover.UnrecordedTabOutlivesRecord | extensions/shared/collection-session.js:467-483 | From every reachable world with a fenced record that owes nothing: a tab handed over while the store cannot be written, and a remove, leave the tab open, the record gone and no call to close the tab |
| CollectionHandover.StoppedSessionIsReachable | extensions/shared/collection-session.js:327-351 | There is such a world |
| CollectionTheorems.RejectionsWriteNothing | extensions/shared/collection-session.js:86-99 | An operation that rejects, because its read or write fails or by its own checks, changes the stored map no further than pruning does, ends its call and leaves the others where they are |
| CollectionTheorems.LoopsContinueOncePerLateAttach | extensions/shared/collection-session.js:561-646 | k late attaches give at most k more rounds of a retry loop, and the fall-through for a missing environment never happens |
| CollectionTheorems.LoopActionsMakeProgress | extensions/shared/collection-session.js:398-429 | Every action of a loop ends it, goes round again at the price of a late attach, or comes closer to the end of its round |
| CollectionTheorems.UndisturbedLoopDeletes | extensions/shared/collection-session.js:561-646 | Left alone, a cancel or remove closes every tab the record owes and then deletes it; a cancel that is to close the managed tab closes that too, if it may; and no other tab is closed |
| CollectionTheorems.StoredRecordsContinue | extensions/shared/collection-session.js:237-256 | Over any run, as long as a record is stored its owner stays, updatedAt never decreases and a fence stays |
| CollectionTheorems.FenceIsPermanent | extensions/shared/collection-session.js:270-290 | After the fence, until the record goes: start throws, ownsTab and isActive are false, and no attach sets a managed tab |
| CollectionEffects.ActiveSessionTakesTab | extensions/shared/collection-session.js:455-500 | A tab handed to an active session becomes its managed tab, with the window and the close flag handed over, exactly if the store can be read and written and retention leaves the record; owner, fence, debts and reports stay, no tab is closed, every other record is as it was, and the owner owns that tab and no other |
| CollectionEffects.HandedTabStays | extensions/shared/collection-session.js:431-500 | Over any run, a stored record names the same tab until another is handed over or that one is detached or closed by a stop |
| CollectionEffects.FenceNamesTab | extensions/shared/collection-session.js:327-356 | A stop by the record's environment sets the fence, once, and goes on to close the tab the record names, if it may; any other stop changes nothing |
| CollectionEffects.UndisturbedFenceCloses | extensions/shared/collection-session.js:353-378 | Left alone, the stop closes that tab and the record names none any more |
| CollectionEffects.HandedTabIsClosed | extensions/shared/collection-session.js:327-646 | Over any run after the handover of a closable tab to an active session, as long as it is not handed another, detached or closed: its owner owns it and nothing else, a stop goes on to close it, and an undisturbed cancel that is to close it deletes the record and leaves the tab closed |
| CollectionEffects.PruneIs | extensions/shared/collection-session.js:116-128 | Pruning keeps exactly the records touched in the last seven days, as they are |
| CollectionEffects.CallStores | extensions/shared/collection-session.js:237-541 | Each call's transaction stores what the call asks for, with its own arguments and clock, on the records it reads |
| CollectionEffects.StartDoes | extensions/shared/collection-session.js:258-325 | start refuses an attempt of another owner or a stopped one, by the first check that fails; otherwise it resumes the record changing only its date, or creates one without progress, tab or fence, active for its owner alone |
| CollectionEffects.DetachDoes | extensions/shared/collection-session.js:431-453 | detachTab closes the named tab if asked and allowed, then forgets it; if it cannot be closed, and for any other tab, nothing changes |
| CollectionEffects.RetryDoes | extensions/shared/collection-session.js:398-429 | A retry sees the pending tabs of a stopped record of its environment, and afterwards exactly the closed ones owe nothing any more |
| CollectionEffects.ReportDoes | extensions/shared/collection-session.js:514-519 | Sound counters replace the old ones and end the attention asked for; others are refused and nothing else changes |
| CollectionEffects.AskDoes | extensions/shared/collection-session.js:521-541 | The reason and message asked for are stored, with whether there is a tab and window to open |
| CollectionEffects.DecisionGoesOn | extensions/shared/collection-session.js:561-646 | The deciding transaction deletes the record exactly if it is there and owes nothing and, for a cancel, the owner accepts and the tab to close is gone; if the record owes a close the loop goes round again |
| CollectionEffects.PreflightGoesOn | extensions/shared/collection-session.js:543-559 | A round begins with a retry exactly if the record owes a close |
| CollectionEffects.DroppingGoesOn | extensions/shared/collection-session.js:398-429 | A retry goes on exactly if it closed every tab it listed, and otherwise makes its caller throw |
| CollectionEffects.OnlyQueueTabCloses | extensions/shared/collection-session.js:431-646 | A transaction closes at most the managed tab it is to detach or to cancel with, and closes it even if its write then fails |
| SessionStorage.Storage.ReadSessions | extensions/shared/collection-session.js:134-142 | Reading drops expired records and writes the map back only if it dropped one |
| SessionStorage.Storage.RemoveManagedTab | extensions/shared/collection-session.js:380-396 | Returns normally only when the tab is known to be gone |
| SessionStorage.Storage.Start | extensions/shared/collection-session.js:258-325 | The whole transaction: a new record, a resumed one, or a refusal that changes nothing |
| SessionStorage.Storage.Fence | extensions/shared/collection-session.js:327-351 | Stores the fence once and answers with the managed tab to close |
| SessionStorage.Storage.ClearManagedTab | extensions/shared/collection-session.js:352-372 | Forgets the managed tab only if it is still the one that was closed |
| SessionStorage.Storage.ListPending | extensions/shared/collection-session.js:398-409 | The tabs to close, of a fenced record of this environment only |
| SessionStorage.Storage.DropListed | extensions/shared/collection-session.js:412-429 | Drops exactly the tabs that were closed |
| SessionStorage.Storage.Attach | extensions/shared/collection-session.js:455-489 | Takes the tab over, or on a fenced record adds it to the pending list and hands it back to be closed |
| SessionStorage.Storage.DropAttached | extensions/shared/collection-session.js:489-500 | The refused tab, once closed, owes nothing |
| SessionStorage.Storage.Detach | extensions/shared/collection-session.js:431-453 | Closes the managed tab if asked and allowed, and only then forgets it |
| SessionStorage.Storage.PendingCleanupEnvironment | extensions/shared/collection-session.js:543-550 | The environment of a record that still owes closes |
| SessionStorage.Storage.Remove | extensions/shared/collection-session.js:623-646 | Deletes the record unless it owes a close |
| SessionStorage.Storage.Cancel | extensions/shared/collection-session.js:561-621 | Deletes the record after the owner agrees and the managed tab is closed, unless it owes a close |
| SessionStorage.Storage.ReportProgress | extensions/shared/collection-session.js:514-520 | Stores valid counters and clears attention; invalid ones change nothing |
| SessionStorage.Storage.RequireAttention | extensions/shared/collection-session.js:521-541 | Stores the reason and whether there is a tab to open |
| SessionCalls.Perform | extensions/shared/collection-session.js:327-646 | Every action of a call, carried out on storage with its transactions and closes, leaves storage, Chrome's tabs and the call as the protocol's step does, failed reads and writes included |
| SessionCalls.PerformDecision | extensions/shared/collection-session.js:561-646 | The deciding transaction of cancel and remove, and where the loop goes on from its answer |
| SessionStorage.PruneKeepsAll | extensions/shared/collection-session.js:134-142 | If pruning drops no record by count it leaves the map as it is, so skipping the write is right |
| MutationQueue.Queues.Enqueue | extensions/shared/collection-session.js:86-93 | The new operation is chained to the key's last one and becomes its tail |
| MutationQueue.Queues.Settle | extensions/shared/collection-session.js:88-92 | A rejecting operation lets the next one start as a resolving one does |
| MutationQueue.Queues.CleanUp | extensions/shared/collection-session.js:94-98 | Drops the key's entry only while it is still this operation's |
| MutationQueue.NeverOverlap | extensions/shared/collection-session.js:86-99 | Operations of one key run in enqueue order and never overlap |
| MutationQueue.NeverStalls | extensions/shared/collection-session.js:86-99 | The first unsettled operation of a key can always start |
| MutationQueue.EntriesAreCleaned | extensions/shared/collection-session.js:94-98 | A key keeps an entry only while an operation of it has not cleaned up |
| SerialStore.OperationsAreSerial | extensions/shared/collection-session.js:86-99 | Operations that read, wait and write, however their starts and ends interleave: what is stored under a key is what its settled operations give one after the other in enqueue order, and one under way has read just that |
| SerialStore.EventsDo | extensions/shared/collection-session.js:86-99 | Each event of such a queue: an enqueued operation is chained to the tail, one that is ready starts and reads, one that settles writes what it makes of what it read, and its cleanup drops its own entry only |
| AppLifetime.InBatches | extensions/kiditem-os/background/web-app-collection-lifetime.js:13-24 | Every item is started once, in order and with its own index, and settles once; at its place of the result stands what its run settled with, and at most `limit` are in flight |
| AppLifetime.CancelSessions | extensions/kiditem-os/background/web-app-collection-lifetime.js:95-169 | Exactly this environment's sessions are cancelled, in batches of four whose runs go on in any order: each fence, then, unless the record was gone, its owner as soon as the fence is answered, joining a cancellation under way; the whole has settled exactly when all of that went well, and nothing it began or joined is under way then |
| AppLifetime.AtMostFour | extensions/kiditem-os/background/web-app-collection-lifetime.js:138-161 | At every point of such a course at most four cancellations are under way |
| AppAdmission.CleanupMisses | extensions/kiditem-os/background/web-app-collection-lifetime.js:171-192 | A cleanup whose list was taken before a session existed leaves that session unfenced |
| AppAdmission.AdmissionFences | extensions/kiditem-os/background/web-app-collection-lifetime.js:250-268 | Wherever a cleanup stands, the refused session ends stopped, fenced or gone, exactly if its own fence could be stored, or that of the owner that is asked, or that of a cleanup that has the session, or it was fenced before |
| AppAdmission.StoppedIff | extensions/kiditem-os/background/web-app-collection-lifetime.js:250-268 | After any fences, closes and deletions by checks, cleanups and owners: an attempt is stopped exactly if it was fenced before or one of its own fences could be stored; otherwise its record is as it was |
| AppAdmission.RefusedYetUnfenced | extensions/kiditem-os/background/web-app-collection-lifetime.js:250-268 | A refused session whose fence cannot be stored, whose owner makes none or fails as well, and which the cleanup does not have, stays active and can be started again |
| AppAdmission.EnsureSessionCanRun | extensions/kiditem-os/background/web-app-collection-lifetime.js:250-268 | An environment that is none of those there are is refused; a known presence without an app throws after the session's own fence was tried and its tabs closed, the environment's cleanup started or joined, and the owner, asked unless the record was gone, did what it does to the store; anything else admits and touches nothing |
| AppAdmission.CheckDoes | extensions/kiditem-os/background/web-app-collection-lifetime.js:250-268 | A refusing check fences, closes the tabs if that found the record, and asks the owner even if the fence could not be stored; only a fence that goes well and finds no record of this environment leaves it at that |
| AppAdmission.RefusedAdmissionIsFinal | extensions/kiditem-os/background/web-app-collection-lifetime.js:250-268 | If that fence was stored, then through every later interleaving of collection calls the refused session starts nothing, owns no tab and is not active, while its record is stored |
| AppStartup.SettleSite | extensions/kiditem-os/background/web-app-collection-lifetime.js:339-372 | A closed environment has settled exactly when every listed session was let go of; another one exactly when the requests could be read, the last read finds none, and its retry has settled, or without a connection no requested session is listed |
| AppStartup.ClosedSettledIff | extensions/kiditem-os/background/web-app-collection-lifetime.js:171-179 | A closed environment counts as settled exactly if the list could not be read or every stored session of it ended: its fence found no record, or was answered and its owner let go; with an unreadable list none was cancelled; an open one never while a request may be left |
| AppStartup.OpenSettledIff | extensions/kiditem-os/background/web-app-collection-lifetime.js:194-210 | A retry has settled exactly if the requests could be read and there were none, or every requested session of the environment ended and none is left; an environment not known to be closed exactly if all reads work, the last finds none, and its retry has settled, or without its owner no listed session is asked for; and it recovers exactly if it has settled, is known open and connected |
| AppStartup.SettledWithASessionLeft | extensions/kiditem-os/background/web-app-collection-lifetime.js:345-350 | A closed environment that counts as settled although its session was not let go of |
| AppStartup.RetryPendingCancellations | extensions/kiditem-os/background/web-app-collection-lifetime.js:194-210 | Settled exactly if there was nothing to retry, or every requested session on the list was let go of and none is left |
| AppStartup.ReconcileStartup | extensions/kiditem-os/background/web-app-collection-lifetime.js:324-401 | Startup settles every environment once and in order, and only then recovers, once and in order, exactly in those known open, connected, whose retry settled and whose last read found no request |
| AppStartup.RecoveriesAre | extensions/kiditem-os/background/web-app-collection-lifetime.js:375-391 | The recoveries are those and only those, each once and in order |
| Coalescing.Flights.Join | extensions/kiditem-os/background/web-app-collection-lifetime.js:181-192 | Whoever asks for work that is under way for its key gets that; otherwise it is started |
| Coalescing.Flights.Land | extensions/kiditem-os/background/web-app-collection-lifetime.js:181-192 | Work that is done frees its key, and a key never has two under way |
| RunnerInvariant.NextKept | extensions/src/core/runner.ts:248-431 | Every event of a run keeps its invariant: one chunk on the chain at a time, counters that match what was sent, and which finish requests can have been made where |
| RunnerTheorems.FinishProtocol | extensions/src/core/runner.ts:380-424 | A good finish is sent at most once, first, with every yielded chunk acknowledged; a failed one at most once, after a good one only if that was refused; none when the caller had aborted as collection ended; and nothing is written after a finish |
| RunnerTheorems.EndingTellsFinishes | extensions/src/core/runner.ts:387-431 | The outcome says which finishes were made (finished, failed, fence lost or cancelled), and an acquired lease is released exactly once |
| RunnerTheorems.FinishAfterLoss | extensions/src/core/runner.ts:395-424 | A run over whose heartbeat lost the fence made a finish request exactly if it lost it while draining another failure; the rows on RunnerFence say it for every put |
| RunnerTheorems.FinishAfterLossHappens | extensions/src/core/runner.ts:403-423 | Such a run |
| RunnerFence.FinishUnlessLearned | extensions/src/core/runner.ts:380-424 | A run that learns of the loss of its fence makes no finish request; of the runs that are over and were not cancelled exactly those made one that never learned of a loss |
| RunnerFence.FinishAfterRefusedPut | extensions/src/core/runner.ts:292-403 | For every chunk, heartbeat or report refused because the fence is lost, at any point of any run: a finish request is made all the same exactly if that refusal passes the run by (a report's, or a heartbeat's while another failure is drained) and the run learns of no loss before or after, unless it was cancelled; never after a refused chunk |
| RunnerFence.GoodFinishAfterLostReport | extensions/src/core/runner.ts:317-324 | A run whose collector does not throw on a refused report sends a good finish |
| RunnerFence.FailedFinishAfterLostReport | extensions/src/core/runner.ts:395-424 | And one that then fails for another reason sends a failed one |
| RunnerOutcome.NextDoes | extensions/src/core/runner.ts:277-431 | Every event, wherever the run stands: where it takes the run, with which error, what it adds to the chain of writes and takes off its front, what it sends as a finish, and what it notes of outcome, abort, fence loss and lease |
| RunnerOutcome.GoodFinishCarries | extensions/src/core/runner.ts:380-394 | Over all event sequences: a good finish is sent exactly if the writes settle while nothing keeps the run from it and its outcome is known, and it carries what the collector returned, if it returned a result, and otherwise what summarize gave for the drain that sent it |
| RunnerOutcome.FailedFinishCarries | extensions/src/core/runner.ts:395-424 | Over all event sequences: a failed finish, and a run that ended as failed, carries the last error brought in by the lease, the collection, a refused chunk, the summary or a refused good finish |
| RunnerOutcome.AbortCancels | extensions/src/core/runner.ts:384-399 | Only an abort of the caller cancels a run, and one that came before collection was over does, unless a heartbeat has lost the fence |
| RunnerOutcome.LeaseIsReleasedOnce | extensions/src/core/runner.ts:426-431 | Over all event sequences: a lease that was acquired is released once, when the run is over, and none otherwise |
| RunnerOutcome.SummaryIsAsked | extensions/src/core/runner.ts:387 | summarize is asked, for the count and length of what was acknowledged, exactly when the run is free to finish and the collector returned no result |
| RunnerOutcome.LeaseIsKeptAlive | extensions/src/core/runner.ts:277-315 | While it collects and has not been told to stop, a run has a heartbeat coming or on its way, after every event |
| RunnerOutcome.TimerIs | extensions/src/core/runner.ts:277-325 | The heartbeat timer is set when the lease is there and after each chunk, report or heartbeat that settles well enough, unless the run is told to stop; it fires once, and none is left when the collection is over |
| RunnerTheorems.ChunksAreNumbered | extensions/src/core/runner.ts:350-387 | Non-empty chunks are sent in yield order, each numbered by its kind's chunks so far, at most 1000 in all; summarize gets the count and total length of the acknowledged ones |
| RunnerTheorems.NumbersAreConsecutive | extensions/src/core/runner.ts:353-355 | Two neighbouring chunks of a kind have neighbouring numbers |
| RunnerTheorems.FirstNumberIsOne | extensions/src/core/runner.ts:353-355 | And the first of a kind has number 1 |
| RunnerExecution.Execution.ScheduleHeartbeat | extensions/src/core/runner.ts:278-306 | Arms the timer unless collection is over or the run is aborted |
| RunnerExecution.Execution.ChunkYielded | extensions/src/core/runner.ts:342-367 | The loop body up to its write: stop, refuse a reserved kind or a chunk too large or too many, or number and send |
| RunnerExecution.Execution.ChunkSettled | extensions/src/core/runner.ts:358-374 | The loop body after its write: count and go on, or close the stream |
| RunnerExecution.Execution.HeartbeatSettled | extensions/src/core/runner.ts:292-304 | A lost fence stops and aborts the run; another failure is tried again |
| RunnerExecution.Execution.Drained | extensions/src/core/runner.ts:383-394 | After the last write: fence loss, cancellation, or the good finish |
| RunnerExecution.Execution.Catch | extensions/src/core/runner.ts:395-403 | The catch block up to its first await |
| RunnerExecution.Execution.Finally | extensions/src/core/runner.ts:425-430 | The timer is stopped, the run aborted, and the lease released if there is one |
| RunnerExecution.Execution.Handle | extensions/src/core/runner.ts:248-431 | One event changes the run's variables exactly as the state machine says |
| RunnerExecution.Execute | extensions/src/core/runner.ts:248-431 | A whole run from its start |
| ChunkBuffer.Buffer.Push | extensions/src/collectors/chunk-items.ts:17-31 | Refuses an item no payload can hold; otherwise hands out what is complete and keeps exact count of the bytes |
| ChunkBuffer.Buffer.Flush | extensions/src/collectors/chunk-items.ts:33-39 | Hands out what is left, or nothing |
| ChunkBuffer.PayloadBytesAreOfText | extensions/src/collectors/chunk-items.ts:10-31 | The bytes of a payload are those of its serialised text: the items in brackets with commas between them |
| ChunkBuffer.FitsIff | extensions/src/collectors/chunk-items.ts:17-21 | An item is refused exactly if not even a payload of it alone would be legal |
| ChunkBuffer.GreedyIsSplit | extensions/src/collectors/chunk-items.ts:10-40 | The payloads hold the items in order; each is non-empty, with at most maxItems items and maxBytes bytes |
| ChunkBuffer.GreedyIsOptimal | extensions/src/collectors/chunk-items.ts:10-40 | No in-order split into legal payloads uses fewer payloads |
| ChunkBuffer.PushIsGreedy | extensions/src/collectors/chunk-items.ts:17-31 | A push hands out what the greedy packing of everything still to come hands out next |
| ChunkBuffer.Pack | extensions/src/collectors/chunk-items.ts:10-40 | Pushing every item and flushing gives exactly the greedy packing |
| ChunkBuffer.PackedPayloadsPassTheRunner | extensions/src/core/runner.ts:462-466 | A run that is collecting sends every payload packed under the default limit, unless it has sent as many chunks as a run may |
| Ledger.SucceedsExactlyWhen | scripts/data-migrations/ledger.ts:229-262 | One run leaves a succeeded row exactly when its transaction was answered and the mark took effect and was not taken back; returning success implies it |
| Ledger.SuccessTakenBack | scripts/data-migrations/ledger.ts:253-260 | A row marked as succeeded is overwritten by the same run exactly when the mark's answer is lost and the failure is stored |
| Ledger.SuccessTakenBackHappens | scripts/data-migrations/ledger.ts:253-260 | Such a run: its success is stored, the answer lost, and the row ends as failed although the transaction committed |
| Ledger.ApplyIsLocal | scripts/data-migrations/ledger.ts:229-262 | One migration touches no other row, nor its own if that succeeded |
| Ledger.StopsAtFirstFailure | scripts/data-migrations/ledger.ts:346-357 | `up` goes on until the first migration that throws or dies: all before it have succeeded, all after it are untouched |
| Ledger.RefusedIff | scripts/data-migrations/ledger.ts:302-320 | `up` is refused exactly if asked to refuse drift and a selected migration succeeded from another recorded source; and then nothing is written |
| Ledger.UpAddsNoDrift | scripts/data-migrations/ledger.ts:134-185 | `up` writes only rows with the current source, so it adds no drift |
| Ledger.UpKeepsSucceeded | scripts/data-migrations/ledger.ts:238-245 | No `up` changes a succeeded row or runs its migration again |
| Ledger.SucceededIsFinal | scripts/data-migrations/ledger.ts:238-245 | Nor does any sequence of `up` commands with crashes anywhere |
| Ledger.RecordsStayTrue | scripts/data-migrations/ledger.ts:246-256 | Over any such sequence, a succeeded row with a source on record comes from the migration's last committed transaction, run from that source |
| Ledger.CommitsAtMostOnce | scripts/data-migrations/ledger.ts:346-357 | Each `up` commits a migration at most once, and only if it had not succeeded |
| Ledger.CommitsTwice | scripts/data-migrations/ledger.ts:257-260 | Two commands can commit a migration twice, when the first one's answer is lost |
| Ledger.UpCommitsIff | scripts/data-migrations/ledger.ts:229-262 | An `up` commits the migration selected at a place exactly if it can read the rows, drift is not refused or there is none, each one before had succeeded or succeeds with every answer, and it itself has not succeeded, is marked as running and its transaction takes effect; then once, from the current source |
| Ledger.CommitsTwiceIff | scripts/data-migrations/ledger.ts:246-260 | Of two runs whose transactions both take effect the second commits again exactly if the first did not leave the migration succeeded |
| LedgerEffects.ApplyAnswers | scripts/data-migrations/ledger.ts:229-263 | What one migration's run answers for every fate of its statements: skipped exactly if it had succeeded, applied with its count exactly if every statement is answered, nothing exactly if the process dies at a statement it gets to, and otherwise an error |
| LedgerEffects.ApplyLeaves | scripts/data-migrations/ledger.ts:134-263 | What it leaves in the row: source and commit as recorded, the count if the mark of success took effect, and failed, succeeded or running by the last mark that took effect; a row it does not get to mark stays as it was |
| LedgerEffects.UpRuns | scripts/data-migrations/ledger.ts:302-362 | A whole `up`: refused or aborted at first with nothing changed, or its selection in order, each migration on what those before it left, up to the first that throws or at which the process dies |
| LedgerEffects.DriftIs | scripts/data-migrations/ledger.ts:269-290 | The drifted migrations of a selection are listed in its order, each with the source and commit it ran from |
| LedgerRunner.Database.ApplyDataMigration | scripts/data-migrations/ledger.ts:229-262 | The statements of one migration, for any fate of each, leave what the model says |
| LedgerRunner.Database.FindAppliedSourceDrift | scripts/data-migrations/ledger.ts:269-290 | Lists exactly the selected migrations that drifted, in order |
| LedgerRunner.Database.ApplyDataMigrations | scripts/data-migrations/ledger.ts:334-357 | Preflight and loop together leave the database, the results and the ending of the model's `up` |
| LedgerRunner.CheckLedgerSources | scripts/data-migrations/ledger.ts:364-402 | Labels every row by registration and by the hash it has to be compared with, and lists exactly the succeeded rows that differ |
| LedgerRunner.ExitsThreeIff | scripts/data-migrations/ledger.ts:405-412 | `status` exits 3 exactly when asked to and a succeeded, registered row records another hash |
| SourceIdentity.NormalIsIdentityIff | scripts/data-migrations/source-identity.ts:69-79 | The filter leaves a source as it is exactly when it has no CRLF |
| SourceIdentity.NormalUndoesToCrlf | scripts/data-migrations/source-identity.ts:59-67 | Filtering the CRLF conversion of any source gives that source back |
| SourceIdentity.CheckoutsAgreeIff | scripts/data-migrations/source-identity.ts:59-63 | LF and CRLF checkouts of a source compare equal exactly when it has no CRLF |
| SourceIdentity.CheckoutsCanDiffer | scripts/data-migrations/source-identity.ts:59-63 | One line that ends in CRLF is a source whose checkouts differ |
| SourceIdentity.NormalTwiceDiffers | scripts/data-migrations/source-identity.ts:69-79 | The filter is not idempotent |
| SourceIdentity.WithoutCarriageReturnsBeforeLineFeeds | scripts/data-migrations/source-identity.ts:69-79 | The pass over the bytes fills a buffer whose used part is the source without the carriage returns before line feeds |
| SourceIdentity.VerdictIgnoresLineEndings | scripts/data-migrations/source-identity.ts:81-98 | For sources without CRLF, match or drift depends on the two hashes only, however each was checked out |
| SourceIdentity.ClassifyIs | scripts/data-migrations/source-identity.ts:81-98 | When each verdict about a ledger row is given: a row without a recorded source is judged by the hash that can be derived for it, if there is one |
| LocalSync.OlderIsAnOrder | scripts/sync-local-database.ts:330-342 | Being older is a strict order of releases, total on readable ones with different numbers, decided by the first number in which they differ |
| LocalSync.SelectedOf | scripts/run-data-migrations.ts:212-227 | The two phases select exactly the open release's pre-schema migrations and every post-schema one |
| LocalSync.SelectionIsInOrder | scripts/run-data-migrations.ts:212-227 | And in the order of the registry |
| LocalSyncTheorems.StepsAreOfThePlan | scripts/sync-local-database.ts:308-328 | On every run the reported steps are a subsequence of the plan |
| LocalSyncTheorems.DryRunIsReadOnly | scripts/sync-local-database.ts:647-658 | A dry run starts only the status, survey and preview commands, and changes nothing |
| LocalSyncTheorems.PushIsSafe | scripts/sync-local-database.ts:633-675 | The push comes after a clean survey and the preview, after the pre-schema phase when the ledger existed, and if destructive only when accepted and backed up or the backup declined |
| LocalSyncDrift.StopsFirstIff | scripts/sync-local-database.ts:622-632 | A run stops before its first change exactly when its pre-schema or its post-schema `up` would be refused |
| LocalSyncDrift.NeverRefusedLater | scripts/sync-local-database.ts:627-632 | If it does not stop there, neither is refused later in that run |
| LocalSyncDrift.RefusesIff | scripts/sync-local-database.ts:352-366 | The drift that counts is that of migrations the run selects |
| LocalSyncDrift.NothingToApplyIff | scripts/sync-local-database.ts:373-388 | Nothing is left to apply exactly when all that is pending are pre-schema migrations of older releases |
| LocalSyncDrift.ExitZeroMeans | scripts/sync-local-database.ts:687-704 | Exit 0 of a real run means that every pending migration is a pre-schema one of an older release |
| LocalSyncDrift.ExitZeroIff | scripts/sync-local-database.ts:687-704 | A run that gets to its final status has run all it selects, and exits 0 exactly when no pre-schema migration of a newer or unreadable release is pending |
| LocalSyncDrift.NewerReleaseExitsTwo | scripts/sync-local-database.ts:687-704 | A run on a checkout whose only migration is such a pending one: everything works, and it exits with 2 |
| LocalSyncDrift.BlockedDryRunForecasts | scripts/sync-local-database.ts:746-790 | If a dry run says that the real run would stop, the real run with the same answers does not exit with 0 |
| LocalSyncOutcome.SyncIs | scripts/sync-local-database.ts:605-712 | Every real run does a prefix of its course and exits as the first gate says that does not open: 1 if it stops by its own decision, 2 if something fails. It exits with 0 exactly if every gate opens; it has then done the whole course, says in-sync exactly if nothing was to apply and nothing to push, and leaves what the pre-schema and then the post-schema `up` make of the ledger |
| LocalSyncOutcome.ExitZeroDidAll | scripts/sync-local-database.ts:608-712 | A real run that exits with 0 has done in order and once: build, status, pre-schema, survey and preview, the backup exactly if some statement was destructive and it was not declined, the push exactly if the preview found statements, generate, post-schema and the final status |
| LocalSyncOutcome.DryRunIs | scripts/sync-local-database.ts:716-790 | A dry run exits with 2 exactly if a command fails, with 1 exactly if the real run would stop, and says in-sync exactly if there is nothing to apply or to push |
| LocalSyncRunner.ClassifyPendingMigrations | scripts/sync-local-database.ts:373-388 | Splits the pending ids in order, each into one of the two lists |
| LocalSyncRunner.FinishDryRun | scripts/sync-local-database.ts:746-790 | The dry run's verdict with its reasons: blocked exactly if selected migrations drifted, the survey found something or a destructive change is not accepted, each named exactly then |
| LocalSyncRunner.RunLocalSync | scripts/sync-local-database.ts:605-712 | The staged workflow with its early stops is the model's run |
| FormulaLocks.PlanIsOrdered | scripts/data-migrations/ensure/absolute-product-abc-formula.ts:58-65 | Ascending organisations with two locks each are taken in one global order |
| FormulaLocks.NoWaitCycle | scripts/data-migrations/ensure/absolute-product-abc-formula.ts:46-56 | Any number of such transactions, anywhere in their work, never wait in a cycle |
| FormulaLocks.SomeoneMoves | scripts/data-migrations/ensure/absolute-product-abc-formula.ts:46-56 | Following who waits for whom always leads to a transaction that can go on |
| FormulaLocks.AllCanEnd | scripts/data-migrations/ensure/absolute-product-abc-formula.ts:97-102 | From wherever they are, all of them can be run to their ends |
| FormulaLocks.CollisionCanDeadlock | scripts/data-migrations/ensure/absolute-product-abc-formula.ts:97-102 | With a hash collision a wait cycle can be reached |
| FormulaDeadlock.DeadlockIff | scripts/data-migrations/ensure/absolute-product-abc-formula.ts:46-56 | For any hash and any plans: transactions begun together can come to wait in a cycle exactly if there are places in the plans at which no lock is held twice and the next locks close a cycle |
| FormulaDeadlock.PairDeadlockIff | scripts/data-migrations/ensure/absolute-product-abc-formula.ts:46-56 | Two transactions can deadlock exactly if they take two hash values in opposite orders and share no lock that both take before |
| FormulaDeadlock.NoCollisionNoDeadlock | scripts/data-migrations/ensure/absolute-product-abc-formula.ts:46-56 | Ascending plans whose keys all hash differently cannot deadlock, however many begin together |
| FormulaDeadlock.GateKeepsApart | scripts/data-migrations/ensure/absolute-product-abc-formula.ts:58-65 | A collision of their first locks keeps two transactions from deadlocking |
| FormulaDeadlock.CollisionDeadlocksIff | scripts/data-migrations/ensure/absolute-product-abc-formula.ts:97-102 | When the mapping lock of one organisation collides with the ABC lock of a later one, a step over both and one over the later can deadlock exactly if their mapping locks do not collide as well |
| FormulaStep.EnsureDoes | scripts/data-migrations/ensure/absolute-product-abc-formula.ts:93-159 | One organisation conflicts exactly when its rows do. Otherwise it keeps its version or gets one with the new id, current; a state that names no formula then names that version with revision 1 and keeps all else, a new one is otherwise zero and empty, and a state that names a formula and all other organisations stay |
| FormulaStep.EnsureAgain | scripts/data-migrations/ensure/absolute-product-abc-formula.ts:88-92 | Running it on an equipped organisation changes nothing |
| FormulaStep.CommitsIff | scripts/data-migrations/ensure/absolute-product-abc-formula.ts:165-210 | The step commits exactly if no organisation conflicts, reports exactly those that do, and then writes nothing |
| FormulaStep.CommitEquips | scripts/data-migrations/ensure/absolute-product-abc-formula.ts:165-219 | After a commit every organisation of the list has its version, and its state names that version wherever it named none before; whatever named a formula, and every other organisation, is as it was |
| FormulaStep.SecondRunChangesNothing | scripts/data-migrations/ensure/absolute-product-abc-formula.ts:165-219 | A second run changes zero rows |
| FormulaStep.ChangedRowsAreCounted | scripts/data-migrations/ensure/absolute-product-abc-formula.ts:203-218 | The number reported for each kind of change is that of the organisations that lacked it |
| FormulaStep.Transaction.EnsureForOrganization | scripts/data-migrations/ensure/absolute-product-abc-formula.ts:104-159 | The queries of one organisation, in place |
| FormulaStep.RunStep | scripts/data-migrations/ensure/absolute-product-abc-formula.ts:168-219 | The loop over all organisations, committing or rolling back at the end |
| PrLabels.PrefixReadsBack | deploy/linear-pr-labeler/src/pull-request.ts:53-55 | A name with a PR's prefix is read back as that PR |
| PrLabels.PrefixesDiffer | deploy/linear-pr-labeler/src/pull-request.ts:53-55 | No name carries the prefixes of two PRs |
| PrLabels.ReadsIff | deploy/linear-pr-labeler/src/reconcile.ts:136-142 | A label name has a number exactly if it starts with a hash sign, digits and a space, and it is these digits |
| PrLabels.LeadingZeroReadsOnly | deploy/linear-pr-labeler/src/reconcile.ts:139-142 | A number with a leading zero is read although no prefix prints it |
| Reconcile.LabelsConverge | deploy/linear-pr-labeler/src/reconcile.ts:54-65 | After any runs and attachments, in any order and with repeats, an issue carries one numbered label, that of the latest-linked PR that ran and qualified, or none if none did |
| Reconcile.WinnerIsUnique | deploy/linear-pr-labeler/src/reconcile.ts:54-65 | With distinct link times two histories in which the same PRs ran end with the same PR |
| Reconcile.FirstLabelsStayIff | deploy/linear-pr-labeler/src/reconcile.ts:136-146 | From any labels: they stay exactly when they hold back every PR that ran |
| Reconcile.RunKeepsSettled | deploy/linear-pr-labeler/src/reconcile.ts:66-129 | One more run keeps an issue settled |
| Reconcile.AfterRunIs | deploy/linear-pr-labeler/src/reconcile.ts:66-117 | One run gives an issue its label alone exactly if the issue is of the team, attached, completed by the PR, not closed before the PR opened, the PR was not closed unmerged, and no label of the issue is its own or that of a PR attached at the same time or later; otherwise it changes nothing |
| Reconcile.RerunChangesNothing | deploy/linear-pr-labeler/src/reconcile.ts:62-64 | Running a PR again changes nothing |
| Reconcile.TieKeepsFirst | deploy/linear-pr-labeler/src/reconcile.ts:143-143 | With equal link times the first PR to run keeps the issue |
| Reconcile.OrderNeverMattersIff | deploy/linear-pr-labeler/src/reconcile.ts:62-64 | Of runs that all qualify, every order ends with the same PR's label exactly if one of these PRs alone was linked last |
| ReconcileRun.FindOrCreateLabel | deploy/linear-pr-labeler/src/reconcile.ts:148-177 | The first of the oldest labels seen last is taken, a label is made only if none was seen at first, and it is reported as created or orphaned exactly when it is |
| ReconcileRun.LabelIs | deploy/linear-pr-labeler/src/reconcile.ts:148-177 | No label can be had exactly if Linear never shows or makes one; otherwise it is the first of the oldest of those there were or, if there were none, of those seen afterwards, and the one made if none is seen |
| ReconcileRun.Tracker.LinkedAfterCurrentLabels | deploy/linear-pr-labeler/src/reconcile.ts:136-146 | True exactly when no label's PR was linked at the same time or later |
| ReconcileRun.Tracker.Compare | deploy/linear-pr-labeler/src/reconcile.ts:75-86 | Sorts the attached issues into candidates, kept ones and failures |
| ReconcileRun.Tracker.Targets | deploy/linear-pr-labeler/src/reconcile.ts:94-101 | The candidates the PR completes, without those closed before it opened |
| ReconcileRun.Tracker.Apply | deploy/linear-pr-labeler/src/reconcile.ts:106-117 | Every target whose update works carries the new label alone |
| ReconcileRun.Tracker.ReconcilePullRequest | deploy/linear-pr-labeler/src/reconcile.ts:66-129 | The run is refused exactly if an attached issue is a candidate and the pull request cannot be read, or it is not closed unmerged, has a target and the label cannot be found or made; otherwise it is of the kind whose condition holds, carries a label exactly if it labelled, and reports in order exactly the issues added, replaced, kept, closed before and failed |
| ReconcileRun.IssueIs | deploy/linear-pr-labeler/src/reconcile.ts:75-101 | What makes an issue compared, a candidate, kept, named, a mere reference or unlabelled, said of its own links, labels and dates |
| Calendar.FormulaIsSum | packages/shared/src/common.ts:37-45 | ECMA-262's formula for the first day of a year adds up the lengths of the years |
| Calendar.DateOfDay | packages/shared/src/common.ts:37-45 | A date and the number of its day determine each other |
| Calendar.MonthRule | packages/shared/src/common.ts:37-45 | The months but February have 31 and 30 days by turns, starting afresh in August; of the years that end a century every fourth is a leap year, and of the others every fourth |
| Calendar.OrderKept | packages/shared/src/common.ts:37-45 | Days are counted in the order of their dates |
| Calendar.DayAfter | packages/shared/src/common.ts:74-76 | The day after a month's last is the first of the next month |
| BusinessDate.ParseIff | packages/shared/src/common.ts:7-21 | Parsing and printing undo each other for every four-digit year |
| BusinessDate.ParsesIff | packages/shared/src/common.ts:13-21 | A text is a business date exactly when it has the form and its month has that day |
| BusinessDate.KeyOrder | packages/shared/src/common.ts:7-10 | Keys compare as strings the way their dates compare |
| Decimal.LessIff | packages/shared/src/common.ts:94-101 | The order of strings by which cutoffs are compared: the first place at which they differ, or the end of the first, decides |
| BusinessDate.YearTextIs | packages/shared/src/common.ts:16-18 | The year of a key reads back as itself, from four digits or from a sign and six |
| BusinessDate.ShiftsCompose | packages/shared/src/common.ts:79-83 | Shifting twice is shifting by the sum, exactly when what is in between is a business date |
| BusinessDate.ShiftParses | packages/shared/src/common.ts:79-83 | Which it is exactly when its year has four digits |
| BusinessDate.ShiftFailsIff | packages/shared/src/common.ts:79-83 | A shift throws exactly if its text is no business date or the day it leads to is more than 100,000,000 days from 1970 |
| BusinessMonth.DayStartIff | packages/shared/src/common.ts:37-50 | For every time value: the start is a valid date exactly if the Korean time and that start are time values, and it is the start of the day the instant lies in exactly if besides the year is none of 0 to 99 |
| BusinessMonth.KoreanDayIs | packages/shared/src/common.ts:37-45 | The Korean day of an instant is its day in UTC until 15 o'clock there, and the next from then on |
| BusinessMonth.DayStartsTooLate | packages/shared/src/common.ts:37-50 | Every day of the years 0 to 99 is said to start after it is over |
| BusinessMonth.NoDayStartAtTheEnd | packages/shared/src/common.ts:38-50 | In the last nine hours of time the answer is no valid date |
| BusinessMonth.NoDayStartAtTheStart | packages/shared/src/common.ts:38-50 | Nor is it in the first fifteen |
| BusinessMonth.DatesInclusive | packages/shared/src/common.ts:104-117 | A range lists one date a day, as many as inclusiveDayCount counts |
| BusinessMonth.MonthEndIsLastDay | packages/shared/src/common.ts:120-127 | The last day of every month but 0000-02 |
| BusinessMonth.ClosedMonthIs | packages/shared/src/common.ts:95-101 | Null exactly on month ends, otherwise from the first of the month to the cutoff |
| BusinessMonth.ClosedMonthOfLastDate | packages/shared/src/common.ts:95-101 | On 9999-12-31 a range that starts at no date |
| BusinessMonth.LastDate | packages/shared/src/common.ts:95-101 | That is the only four-digit-year date the rule does not cover |
| MonthRange.MonthRangeTilesIff | packages/shared/src/common.ts:130-142 | As many months as asked for, tiling the time to the cutoff exactly when the oldest is not before the year 1000 |
| MonthRange.MonthRangeCanFail | packages/shared/src/common.ts:130-142 | Two months up to January of the year 1000 do not tile |
| RunHistory.NextKept | packages/copilotkit-sqlite-runner/src/sqlite-runner.ts:198-382 | Every operation keeps: parents point to earlier rows of the thread, no run stored twice, streams in order, one open stream per active thread |
| RunHistory.EveryStreamIsInOrder | packages/copilotkit-sqlite-runner/src/sqlite-runner.ts:240-268 | Every subscriber gets the non-terminal events in order, and the terminal ones after them exactly if the run completed |
| RunHistory.TerminalOnlyAfterStored | packages/copilotkit-sqlite-runner/src/sqlite-runner.ts:285-307 | Settling frees the slot on every path; a run with events completes exactly when its row is stored in that step, and fails otherwise |
| RunHistory.OnlySettlingEnds | packages/copilotkit-sqlite-runner/src/sqlite-runner.ts:285-307 | No other step ends a stream |
| RunHistory.TerminalMeansStored | packages/copilotkit-sqlite-runner/src/sqlite-runner.ts:285-307 | Over every sequence of operations: if a subscriber has been sent a terminal event, there was a step that settled its run and stored the run's row, and before that step it had been sent none |
| HistoryEffects.StartDoes | packages/copilotkit-sqlite-runner/src/sqlite-runner.ts:198-216 | A run starts exactly on a free thread whose history can be read, with no events, not stopped, and following the run found newest |
| HistoryEffects.EmitsDoes | packages/copilotkit-sqlite-runner/src/sqlite-runner.ts:241-276 | An event is noted and sent on at once, unless it ends the run, well or not; then it waits |
| HistoryEffects.SettlesDoes | packages/copilotkit-sqlite-runner/src/sqlite-runner.ts:251-307 | Settling frees the thread; the row is stored, with the parent, the compacted events and the time, exactly if finalising and compacting work, there were events, the insert works and no row of that run is there; and the subscribers are sent the run's end exactly if it is stored or there was nothing to store |
| HistoryEffects.StopsDoes | packages/copilotkit-sqlite-runner/src/sqlite-runner.ts:358-372 | A stop marks the run it is for, exactly if it is not marked yet and aborting does not throw, and changes nothing else |
| HistoryEffects.KeepIs | packages/copilotkit-sqlite-runner/src/sqlite-runner.ts:375-382 | Deleting drops the rows of the thread and keeps all others in order |
| HistoryQuery.HistoricRuns | packages/copilotkit-sqlite-runner/src/sqlite-runner.ts:165-189 | The recursive query terminates and gives every row of the thread exactly once |
| AgentRunner.SqliteAgentRunner.LatestRun | packages/copilotkit-sqlite-runner/src/sqlite-runner.ts:191-196 | The newest row of the thread by creation time, if it has any |
| AgentRunner.SqliteAgentRunner.Run | packages/copilotkit-sqlite-runner/src/sqlite-runner.ts:198-271 | Refuses an active thread or an unreadable history; otherwise takes its slot and follows the newest run whenever that can be read |
| AgentRunner.SqliteAgentRunner.OnEvent | packages/copilotkit-sqlite-runner/src/sqlite-runner.ts:240-247 | Records the event and sends it on unless it is terminal |
| AgentRunner.SqliteAgentRunner.Settle | packages/copilotkit-sqlite-runner/src/sqlite-runner.ts:285-307 | Finalise, store, then show what is terminal; or fail |
| AgentRunner.SqliteAgentRunner.Stop | packages/copilotkit-sqlite-runner/src/sqlite-runner.ts:358-372 | Marks the run and says so exactly if it is for this run, not yet marked, and aborting does not throw |
| AgentRunner.SqliteAgentRunner.DeleteThread | packages/copilotkit-sqlite-runner/src/sqlite-runner.ts:375-382 | Refuses an active thread; otherwise removes its rows and no others |
| TabOwnership.NextKept | extensions/src/sites/tab-page.ts:340-548 | Every step, refused removals, failed looks and restarts of the worker included, keeps each opened tab answered for by one run, kept for one site, closed, or let go in one known way |
| TabOwnership.OnlyOwnTabs | extensions/src/sites/fresh-tab.ts:32-62 | Only opened tabs are ever removed or kept; when no run is under way none is a run tab, and an opened and still open tab is kept or given up exactly if its removal was not refused, the runtime did not look for it in vain, and no restart made the runtime forget it |
| TabOwnership.RefusedRemovalLosesTheTab | extensions/src/sites/tab-page.ts:498-503 | A run that ends well and whose tab Chrome does not remove leaves it open and answered for by nobody |
| TabOwnership.FailedLookLosesTheTab | extensions/src/sites/tab-page.ts:526-535 | So does a run that is to leave its tab to the operator, if the look at the tab fails |
| TabOwnership.FailedCheckLosesTheTab | extensions/src/sites/tab-page.ts:354-359 | And a run that finds a tab left over, if the look at it fails |
| TabOwnership.OneLeftOverPerSite | extensions/src/sites/tab-page.ts:526-547 | Left-over tabs of two sites differ, and a run with a tab has no other left over for its site |
| TabOwnership.ReusedIsLeftAlone | extensions/src/sites/fresh-tab.ts:43-61 | Whatever a run does with a tab it only reused, up to its end, opens, closes, removes and keeps nothing |
| TabOwnership.RemovedWasOwned | extensions/src/sites/fresh-tab.ts:58-61 | Over every sequence of runs, a tab that was ever asked to be removed was so at the end of a run that had opened it or taken it over as its own |
| TabOwnership.EndTakesOffTheList | extensions/src/sites/tab-page.ts:498-503 | The end of a run takes its tab off the run tabs, and no other run or site has it |
| TabEffects.NextDoes | extensions/src/sites/tab-page.ts:498-547 | What every event of any interleaving does to each part: the tabs opened, removed, kept, given up, missed, refused and forgotten, the run tabs, and where each site's run goes on; an event that no run waits for does nothing |
| TabPages.Pages.Keep | extensions/src/sites/tab-page.ts:526-539 | Records the tab if it is found, forgets it if not, and closes an earlier one that is still ours, if Chrome lets it |
| TabPages.Pages.ReclaimKept | extensions/src/sites/tab-page.ts:540-547 | The entry is taken out before it is checked |
| TabPages.Pages.Finish | extensions/src/sites/fresh-tab.ts:58-61 | A page that is not owned is neither closed nor kept |
| TabPages.Pages.Handle | extensions/src/sites/tab-page.ts:340-548 | Every step changes the map and the set exactly as the state machine says |
| TabPages.Pages.Remove | extensions/src/sites/tab-page.ts:498-503 | The tab is asked to be removed, and the run is over whether or not it was |
| TabPages.Serve | extensions/src/sites/fresh-tab.ts:32-62 | Any number of runs for any sites, in place: the map and the set end as the state machine's, no tab is kept for two sites, and only opened ones are removed or kept |

## Left out

- Chrome, fetch, Prisma, SQLite, docker, npm and GraphQL calls: each is a step that takes effect or not, as an input decides.
- Hashing and JSON text: SHA-256 is any function, and an item comes with the length of its JSON text.
- Collection sessions: `publish`, `openAttentionTab`, `list` and the text checks of UUIDs, producers and attention reasons; a record without a valid date or shape, which pruning handles apart.
- Collection sessions: the pending list is a set, since its order is never used; a close that cancel or detachTab makes inside the queue is one step with its transaction; the readers `get` and `getOwned`.
- Collection sessions: the loss of a service worker between two transactions is `WorkerRestarts`, and a failed read or write is a `Fault` of the step.
- CollectionTheorems.LateAttachDebtIsCovered: a tab whose late attach could not be stored is no debt, as it is none for the code; LateAttachIsRecorded says exactly when that is.
- CollectionTheorems.FenceIsPermanent: as long as the record is stored; retention after seven days ends it, and the same attempt can start afresh.
- Runner: progress objects and `failureResult`, `runClaimed`, `claimedHeartbeatInterval`, `loginFailureOf` and the begin call; the write chain is a list whose first write is in flight.
- RunnerTheorems.FinishProtocol: the server's idempotency and the reconciling of a reused run are not modelled.
- Ledger: concurrent `up` commands on one database, which the code does not promise to order.
- Ledger.RecordsStayTrue: rows older than the source record have no hash to be true to.
- LocalSync: command lines, output parsing and the text scans that classify DDL; their results are inputs, and version numbers are unbounded.
- LocalSync: the data effects of migrations and of the schema push, other than the ledger rows and its table.
- FormulaStep: other failures than conflicts end the transaction and roll it back before the end; a crash does too.
- FormulaLocks: row locks of the statements; every transaction of the model takes the advisory locks first.
- Reconcile: the words that decide which issues a pull request completes, and the titles of labels.
- Reconcile.LabelsConverge: a PR of which the issue had a label from the start is attached from the start too; runs of different PRs on one issue come one at a time.
- ReconcileRun.Tracker.Apply: an update that fails is taken to have changed nothing.
- BusinessDate: `toBusinessDate` and `resolveBusinessDate`, which only choose among texts, and fractional amounts.
- BusinessMonth.DatesInclusive: dates that are not valid times.
- MonthRange.MonthRangeTilesIff: ranges so long that a month lies outside the range of time values.
- RunHistory: event compaction and finalisation, which are library code, and the rewriting of RUN_STARTED inputs; finalisation appends to the run's events what it returns.
- RunHistory: `connect`, which replays the history it reads, and a second process on the same database.
- HistoryQuery.HistoricRuns: the final sort by time of creation.
- TabOwnership: dialog guards, navigation polling and the matching of addresses; whether a kept tab is still ours, and which tab is found, are inputs.
- TabOwnership.OnlyOwnTabs: tab ids are not used again; a tab that Chrome opens only after a restart cut its call short counts as the operator's.
- AppAdmission: what an owner does besides fencing, closing tabs and forgetting the session: its requests to the server are its answer.
- AppLifetime: a removal event that comes while an older cleanup of the environment is still under way is coalesced with it; only the admission check is claimed to cover that.
