# Verified model of the NYC property resolver

The property resolver keeps a registry of New York City properties, each with an identifier version
and a set of BINs, and mirrors the open-data set of DOB ECB violations for those BINs. This project
models its hard parts in Dafny and proves what they promise.

Run `dafny verify dfyconfig.toml` to check everything.

## Modules

| modules | what they model |
|---|---|
| `EcbTables`, `EcbTransactions` | the stored tables as one value, and every write of the services as one atomic transaction on it |
| `EcbDatabaseInvariant`, `EcbDatabaseTheorems`, `EcbCoverage` | what any sequence of transactions keeps, whoever issues them |
| `EcbProtocol`, `EcbProtocolInvariant`, `EcbProtocolTheorems`, `EcbCleanAttempt` | the executor as a state machine among crashes, lost locks, source changes and BIN changes; safety over all its executions |
| `EcbStore`, `EcbLock`, `EcbExecutor` | the same in the form the services have: tables as fields, statements in order, loops; each method proved to be a transaction or a step of the above |
| `KeysetOrder`, `ViolationQueries` | keyset pagination over the live rows, for one property and for the portfolio |
| `RegistrationSources`, `PlutoBulk`, `Registration` | resolving parcels one at a time and in bulk |
| `Calendar`, `EcbDates` | day arithmetic and the date and timestamp texts of a row |
| `RequestExecutor` | slots, timeouts, aborts and retries of source requests |
| `Roadmap`, `PathScope`, `TaskBudget`, `Scheduler` | the task harness: cycle check, scope test, retry budgets, stage barrier |
| `Prelude` | options, results, sorted listings |

The ingestion is proved in two layers. The lower one treats every transaction as atomic and lets any
number of executors, stale ones included, issue them in any order; life cycle, scope, versions,
coverage and live state are invariants there. The upper one adds the order in which one executor
issues them, the source it reads, and everything that may happen in between; exactness of the
published rows, attempt budgets and progress are proved there. `EcbExecutor` then shows that the
services' control flow takes only such steps.

## Findings

- The comment at src/clients/socrata-request-executor.ts:463-468 says that a cancelled request can
  never run concurrently with its own retry. With two slots or more and a retry it can, since a
  timed-out job holds only its own slot: `RequestExecutor.OverlapExactly`, `RequestExecutor.OverlapHappens`.
- The parallel-safety test of the harness is unsound for a wildcard inside a name: `src/fo*` and
  `src/foo.ts` are called unrelated though both match `src/foo.ts` (`PathScope.MissedOverlap`). The
  exact condition is `PathScope.SoundExactly`; within it, tasks edit disjoint files: `PathScope.DisjointEdits`.
- Bulk and single registration of a BBL part exactly where its rows do not say the same to both
  (`Registration.BulkAgreesExactly`, `Registration.BulkIsEachSingle`). If footprint rows exist and none
  parses, the single lookup fails as malformed and the bulk lookup finds no building; from 1000 rows
  on, the single lookup reports its page limit. The bulk PLUTO request is ordered by BBL and cut at
  twice the number of BBLs, the single one at two rows: rows of smaller BBLs can hide a parcel
  (`PlutoBulk.FourRowsHideOne`), and a third row can decide in bulk alone (`PlutoBulk.ThirdRowFound`);
  the exact condition is `PlutoBulk.PlutoAgreesExactly`. A bulk chunk of footprints beyond its own
  page limit fails every BBL of the request at once
  (`Registration.BulkPropertyRegistrationService.RegisterBbls`).
- The calendar check rejects the years 0 to 99, which `Date.UTC` reads as 1900 to 1999:
  `Calendar.ValidExactly`.
- A transient error reported by Cursor would be charged to its provider budget although the attempt
  is handed back (`TaskBudget.SumCanFail`; exactly when: `TaskBudget.SumExactly`). The Cursor runner as
  it stands never reports one (harness/runner.py:294-304), and then the counter is always the sum of
  the provider attempts: `TaskBudget.SumAsItStands`.

## Assumptions

- Source: every change strictly raises `rowsUpdatedAt`; row ids are unique; a page for a set of BINs
  holds only rows of those BINs, in an order that is fixed while the source stands still.
- Database: a transaction is atomic; a write either fails without effect or is acknowledged. The
  read of properties, versions and BINs that precedes the storing of a snapshot is one atomic read,
  separate from the transaction that stores it. Properties are never deleted. `started_at` rises
  from run to run.
- Lock: losing the session frees the lock at once. The upper layer lets the old executor go on
  writing until the next acquisition, and no longer. The lower layer needs no such bound for run life
  cycle, scope and versions; for coverage and live state it asks of a stored snapshot that it was
  read from the live properties and covers what is CHECKED when it is stored, and of start instants
  that they rise. The upper layer proves that it grants both.
- Configuration: sizes, limits, concurrency and attempts are positive, as src/config/env.ts:55-64
  demands. Batch size, page size, page limit and attempt budget stay the same across the executions
  and resumes of one run.
- BINs and BBLs are canonical and of fixed width, so that text order is numeric order. Source ids
  compare character by character. A cursor's text decodes to what was encoded.
- Registration: the sources answer alike throughout one comparison; a stored identifier agrees with
  what it parses to; PLUTO serves the rows of one BBL in one order, alone and in bulk. A property is identified with
  the BBL it was registered under. The two condominium clients are lookup functions.
- Harness: agents, verification commands and git commands have arbitrary results; the harness does
  not crash while it is marking the tasks of one stage DONE.

The seals on runs, snapshots and batch definitions are also enforced in the database, by the triggers
at prisma/migrations/20260916120000_ingestion_persistence/migration.sql:148-240 and by the index at
lines 53-55 of that file, which admits one active run.

## Model

| member | source | states |
|---|---|---|
| EcbDatabaseInvariant.ApplyKeeps | src/services/ecb/accepted-publication.service.ts:80-246 | No transaction of any service breaks the table invariant: one active run; sealed scopes that split the sorted distinct BINs; no live row stamped by a run that has not completed; live state equal to the replay of the accepted runs; CHECKED and FAILED rows describing the current identifiers |
| EcbDatabaseTheorems.ReachableInv | src/services/ecb/accepted-publication.service.ts:80-246 | The invariant holds after any sequence of transactions, in any interleaving of any number of executors |
| EcbDatabaseTheorems.StatusForward | src/services/ecb/terminal-publication.service.ts:81-118 | Over any transactions a run never moves back, and a run that has ended keeps its outcome: at most one terminal transition, so acceptance and failure exclude each other |
| EcbDatabaseTheorems.RepublicationIsNoOp | src/services/ecb/accepted-publication.service.ts:195-246 | Publishing again a run that has ended, as accepted or as failed, however much later, changes no table |
| EcbDatabaseTheorems.ScopeSealed | src/services/ecb/ingestion-run.repository.ts:148-175 | After initialization the snapshot, the counts and the batch definitions never change, and a start mark once set never does, whatever transactions follow |
| EcbDatabaseTheorems.VersionStep | src/services/property-resolver/property-identity.service.ts:288-383 | The identifier version rises by exactly one when the BIN set changes and not otherwise, under every kind of transaction |
| EcbDatabaseTheorems.VersionFixesBins | src/services/property-resolver/property-identity.service.ts:288-383 | Property and version together fix the BIN set across any stretch of history |
| EcbDatabaseTheorems.CoverageDescribesCurrentIdentifiers | src/services/ecb/terminal-publication.service.ts:153-242 | CHECKED or FAILED coverage names a run of the matching outcome whose snapshot holds for that property exactly its current version and its current BINs |
| EcbDatabaseTheorems.CheckedByNewestCompletedRun | src/services/ecb/successful-coverage.service.ts:220-330 | The success a CHECKED row names is the completed run that started last |
| EcbDatabaseTheorems.LiveIsReplayOfAcceptances | src/services/ecb/live-state.repository.ts:16-85 | Live rows are a function of the accepted runs alone, and the accepted runs are exactly the COMPLETED ones: failed, rejected, crashed and rolled-back runs leave no trace |
| EcbDatabaseTheorems.AcceptanceFrame | src/services/ecb/live-state.repository.ts:20-84 | An accepted run makes current what it staged, retires what it scanned and did not stage, and leaves every other row as it was |
| EcbDatabaseTheorems.AcceptanceIsExactOnScope | src/services/ecb/live-state.repository.ts:16-85 | What is current on the scanned BINs after an acceptance is exactly what was staged |
| EcbDatabaseInvariant.PromotionThenReconciliation | src/services/ecb/live-state.repository.ts:20-84 | The two ordered statements, which depend on the stamps the first one writes, amount to the acceptance said in one step, because no live row carried the stamp before |
| EcbDatabaseInvariant.PublishedCoverage | src/services/ecb/successful-coverage.service.ts:220-330 | Acceptance marks CHECKED, with its own run and mark, exactly the snapshot properties whose version is unchanged; no other property stays or becomes CHECKED |
| EcbDatabaseInvariant.MatchingExact | src/services/ecb/successful-coverage.service.ts:255-327 | A snapshot property whose version still matches has in the snapshot exactly its current BINs, and is never also counted as changed |
| EcbDatabaseInvariant.NoNewerRun | src/services/ecb/successful-coverage.service.ts:243-255 | While a run is under way the guard against newer publications never fires for it |
| EcbDatabaseInvariant.PublishKeeps | src/services/ecb/accepted-publication.service.ts:189-246 | Accepted publication keeps every clause of the table invariant |
| EcbDatabaseInvariant.TerminateKeeps | src/services/ecb/terminal-publication.service.ts:270-322 | Terminal publication keeps every clause of the table invariant |
| EcbDatabaseInvariant.ApplyBinsKeeps | src/services/property-resolver/property-identity.service.ts:288-383 | Changing a BIN set, also while a run is under way, keeps every clause of the table invariant |
| EcbDatabaseInvariant.InitializeKeeps | src/services/ecb/ingestion-initialization.service.ts:169-213 | Storing a snapshot keeps every clause of the table invariant, including that whatever is CHECKED is in the scope of the run under way |
| EcbCoverage.SuccessSurvives | src/services/ecb/terminal-publication.service.ts:153-242 | No failure, source change or BIN change erases what is known of the last success; only an accepted run that covers the property replaces it, by itself |
| EcbCoverage.SuccessNamesAcceptance | src/services/ecb/successful-coverage.service.ts:258-285 | What a row says of its last success is all there or not at all, and names an accepted run at the mark it was accepted at |
| EcbCoverage.EveryPropertyExplained | src/services/property-resolver/property-identity.service.ts:97-141 | Every property has a coverage row and every row its property; a reason stands with NOT_CHECKED and only there, and is true of the property; a property without BINs is never CHECKED or FAILED |
| EcbCoverage.FailureIsScoped | src/services/ecb/terminal-publication.service.ts:153-242 | A failed or rejected run marks FAILED exactly the properties its committed snapshot still describes; before a committed snapshot it marks none, and it leaves every other row alone |
| EcbCoverage.FailureNamesFirstBatch | src/services/ecb/terminal-publication.service.ts:172-201 | The error on a property is that of the lowest-numbered failed batch with one of its BINs, and the general one exactly when there is none |
| EcbProtocolInvariant.StepKeeps | src/services/ecb/ingestion.service.ts:168-431 | Every step of the executor and every step of its surroundings (lost lock, crash, source change, registration, BIN change) keeps the protocol invariant |
| EcbProtocolInvariant.ReachableInv | src/services/ecb/ingestion.service.ts:168-431 | Every state any execution reaches satisfies the protocol invariant |
| EcbProtocolInvariant.PartitionFlattens | src/services/ecb/ingestion-initialization.service.ts:72-85 | Cutting a list of BINs into batches and joining the batches gives the list back, for every size |
| EcbProtocolInvariant.ScannedInBatches | src/services/ecb/ingestion-initialization.service.ts:72-96 | A BIN is in the scope of a run exactly when one of its batch definitions lists it |
| EcbProtocolInvariant.BatchRowsMembers | src/services/ecb/batch-processor.service.ts:215-305 | The pages of a batch hold exactly the source rows on its BINs |
| EcbProtocolInvariant.SnapshotRead | src/services/ecb/ingestion-initialization.service.ts:215-236 | A snapshot read from the live properties holds one version for each and exactly that version's BINs, and covers everything that is CHECKED |
| EcbProtocolInvariant.StagedExactly | src/services/ecb/raw-staging.service.ts:153-193 | A run whose batches are all COMPLETED and whose start mark was still current at the end read has staged exactly the normalized source of its scope |
| EcbProtocolInvariant.ResumedOpen | src/services/ecb/ingestion.service.ts:231-338 | A RUNNING run whose recorded end mark differed from its start mark cannot be resumed as unchanged |
| EcbProtocolTheorems.CheckedMeansExact | src/services/ecb/successful-coverage.service.ts:220-330 | In every reachable state a CHECKED property has, as current live rows on its current BINs, exactly the normalized source rows of those BINs as the source stood at its watermark, and its last success is the newest completed run |
| EcbProtocolTheorems.CompletionIsExact | src/services/ecb/ingestion.service.ts:387-431 | When a run becomes COMPLETED the current live rows over its scanned BINs are exactly the normalized source rows of those BINs at its start mark |
| EcbProtocolTheorems.ReadyIsAccepted | src/services/ecb/accepted-publication.service.ts:98-166 | A run handed off as ready, fresh or resumed, passes the acceptance checks and the coverage checks repeated behind them |
| EcbProtocolTheorems.TerminalIsAccepted | src/services/ecb/terminal-publication.service.ts:57-151 | A failure or a source change the executor decides on is never rejected by terminal publication |
| EcbProtocolTheorems.OnlyAcceptanceTouchesLive | src/services/ecb/live-state.repository.ts:16-85 | No step other than an accepted publication changes a live row |
| EcbProtocolTheorems.BudgetAndPrefix | src/services/ecb/batch-processor.service.ts:175-197 | In every reachable state no batch exceeds its attempt budget, and the COMPLETED batches form a prefix in batch order |
| EcbProtocolTheorems.AttemptsAccounted | src/services/ecb/ingestion.service.ts:340-385 | Over any stretch of any execution, with crashes and resumes, the attempts begun are exactly what the batches have used up, so there are at most batches times budget of them |
| EcbProtocolTheorems.CompletedBatchIsCleanAttempt | src/services/ecb/batch-processor.service.ts:215-305 | However many failed partial attempts went before, a COMPLETED batch has staged for its BINs exactly what one clean attempt stages, with n rows and n / pageSize + 1 pages recorded |
| EcbProtocolTheorems.LimitAtDecision | src/services/ecb/batch-processor.service.ts:285-327 | Where an attempt decides after a page, it can complete only if n / pageSize is below the page limit, and is failed for the limit only if it is not |
| EcbCleanAttempt.OneCleanStep | src/services/ecb/batch-processor.service.ts:200-327 | In an attempt where nothing fails and nothing changes around it exactly one step is open at each point |
| EcbCleanAttempt.CleanAttemptExactly | src/services/ecb/batch-processor.service.ts:200-327 | From its first request a clean attempt over n valid rows has one course and ends: it completes the batch with n rows, n / pageSize + 1 pages and exactly the normalized rows staged if n / pageSize is below the page limit, and fails it for the limit if not |
| EcbProtocolTheorems.ExecutionIsTransactions | src/services/ecb/accepted-publication.service.ts:189-246 | Every execution of the protocol is a sequence of granted transactions, so the theorems on transactions apply to it |
| EcbProtocolTheorems.BatchChoice | src/services/ecb/ingestion.service.ts:348-384 | When the loop chooses, exactly one of its decisions (begin an attempt, exhausted, budget spent, all done) is open |
| EcbProtocolTheorems.ResumeChoice | src/services/ecb/ingestion.service.ts:231-338 | A resumed run always has one of the four resume decisions open to it |
| EcbProtocolTheorems.NeverStuck | src/services/ecb/ingestion.service.ts:191-431 | In every reachable state the executor has a next step whose write passes its guard, and it is to give up an attempt only at an invalid row: the errors the services throw on inconsistent tables and on rejected writes cannot occur |
| EcbStore.BinsAreEqual | src/services/property-resolver/property-identity.service.ts:52-61 | Comparing two sorted BIN lists element by element decides whether they hold the same set of BINs |
| EcbStore.PartitionSortedBins | src/services/ecb/ingestion-initialization.service.ts:72-85 | The loop produces the consecutive chunks of the given size |
| EcbStore.Store.FindOrCreateProperty | src/services/property-resolver/property-identity.service.ts:239-286 | Creates a property once, at version 1 with its BINs and its first coverage row; finding an existing one changes nothing |
| EcbStore.Store.ApplyEffectiveBinSet | src/services/property-resolver/property-identity.service.ts:288-358 | The BIN-change transaction; it reports a change exactly when the set of BINs is another one, and is rejected exactly for an unknown property |
| EcbStore.Store.ReplacePropertyBins | src/services/property-resolver/property-identity.service.ts:163-180 | Delete, insert, version and coverage together replace the BIN set at the next version |
| EcbStore.Store.CreateQueued | src/services/ecb/ingestion-run.repository.ts:58-69 | Succeeds exactly when no run is active; a rejected insert changes nothing |
| EcbStore.Store.FindActive | src/services/ecb/ingestion-run.repository.ts:93-104 | Finds the active run exactly when there is one |
| EcbStore.Store.InitializeSnapshotAndBatches | src/services/ecb/ingestion-initialization.service.ts:169-213 | Stores snapshot, batches and counts and seals them; on a sealed run it rolls back and is rejected |
| EcbStore.Store.SetStartWatermarkAndRunning | src/services/ecb/ingestion-run.repository.ts:177-208 | Moves to RUNNING with its start mark exactly when the run is QUEUED, initialized and has none; otherwise rejected without effect |
| EcbStore.Store.UpdateEndWatermark | src/services/ecb/ingestion-run.repository.ts:210-227 | Records the end mark and nothing else |
| EcbStore.Store.IncrementAttempt | src/services/ecb/ingestion-batch.repository.ts:105-113 | Counts one attempt of one batch and nothing else |
| EcbStore.Store.MarkRunning | src/services/ecb/batch-processor.service.ts:189-197 | Marks one batch RUNNING, clears its error, keeps its counts |
| EcbStore.Store.UpdateProgress | src/services/ecb/ingestion-batch.repository.ts:122-131 | Overwrites the page and row counts of one batch |
| EcbStore.Store.MarkCompleted | src/services/ecb/ingestion-batch.repository.ts:133-148 | Completes one batch with its final counts and no error |
| EcbStore.Store.MarkFailed | src/services/ecb/ingestion-batch.repository.ts:150-167 | Fails one batch with its error; an empty error is rejected without effect |
| EcbStore.Store.ProcessRow | src/services/ecb/raw-staging.service.ts:83-232 | Raw evidence is stored once and never overwritten, before normalization can fail; staging is written exactly for rows that normalize |
| EcbStore.Store.PromoteEcbLiveState | src/services/ecb/live-state.repository.ts:16-85 | Two statements give the acceptance on live rows, and the counts are the rows staged and the rows retired |
| EcbStore.Store.PublishSuccessfulCoverage | src/services/ecb/successful-coverage.service.ts:220-330 | Passes its own checks or leaves coverage alone; both upserts in order |
| EcbStore.Store.MarkMatchingChecked | src/services/ecb/successful-coverage.service.ts:243-285 | First upsert: CHECKED for unchanged identifiers unless a newer run has published |
| EcbStore.Store.MarkChangedNotChecked | src/services/ecb/successful-coverage.service.ts:287-327 | Second upsert: identifiers changed after the snapshot, keeping what an older success recorded |
| EcbStore.Store.Publish | src/services/ecb/accepted-publication.service.ts:189-246 | Live rows, coverage and COMPLETED in one transaction, or none of them: rejection and authority lost at any of its four checks leave all tables as they were |
| EcbStore.Store.PublishTerminalFailure | src/services/ecb/terminal-publication.service.ts:270-322 | The terminal status and the attempt side of coverage in one transaction, or neither |
| EcbStore.AbsentAfterPromotion | src/services/ecb/live-state.repository.ts:48-84 | After promotion, the current rows in scope under another stamp are exactly those the run did not stage |
| EcbLock.IngestionExecutionAuthority.CheckAuthorized | src/services/ecb/ingestion-lock.service.ts:78-86 | Authority, once lost, never comes back, and is lost only together with an abort of the work |
| EcbLock.IngestionExecutionAuthority.Revoke | src/services/ecb/ingestion-lock.service.ts:89-97 | Revocation ends authority and aborts |
| EcbLock.IngestionExecutionAuthority.Deactivate | src/services/ecb/ingestion-lock.service.ts:100-102 | Intentional release ends authority and aborts nothing |
| EcbLock.IngestionLockLease.Release | src/services/ecb/ingestion-lock.service.ts:156-185 | However often called, unlocks once, frees the lock only if this session holds it, never aborts, and leaves every other lease valid |
| EcbLock.IngestionLockLease.HandleUnexpectedSessionLoss | src/services/ecb/ingestion-lock.service.ts:193-199 | A dead session frees its own lock and revokes its own authority, unless cleanup has begun, and leaves every other lease valid |
| EcbLock.Acquire | src/services/ecb/ingestion-lock.service.ts:256-316 | Acquires exactly a free lock, under a session and an authority of its own; otherwise leaves the holder; every other lease stays valid |
| EcbLock.OneAuthority | src/services/ecb/ingestion-lock.service.ts:60-200 | Among the leases that any acquisitions, releases and losses leave, at most one has authority, and then its session holds the lock |
| EcbExecutor.Executor.Execute | src/services/ecb/ingestion-runner.service.ts:150-178 | One execution: it ends without an outcome in the tables only if another executor holds the lock, the session was lost or a metadata request failed; otherwise the run it names has that outcome; the lock is free afterwards |
| EcbExecutor.Executor.ReleaseLock | src/services/ecb/ingestion-runner.service.ts:106-178 | The final release leaves the lock free and aborts nothing |
| EcbExecutor.Executor.ExecuteWithAuthority | src/services/ecb/ingestion.service.ts:191-270 | A fresh, queued or running run is taken to an outcome the tables show |
| EcbExecutor.Executor.PickRun | src/services/ecb/ingestion.service.ts:191-230 | Takes the active run, or creates one when there is none |
| EcbExecutor.Executor.InitializeAndStartRun | src/services/ecb/ingestion-initialization.service.ts:135-282 | Initializes unless sealed already, takes the start mark, starts the run; a missing start mark becomes a terminal failure |
| EcbExecutor.Executor.ProcessPersistedBatches | src/services/ecb/ingestion.service.ts:340-385 | The loop over batches ends, each pass using up an attempt, with all batches completed or with a terminal error |
| EcbExecutor.Executor.ExecuteBatchAttempt | src/services/ecb/batch-processor.service.ts:164-198 | One attempt uses exactly one of the budget; a spent budget fails the batch without beginning one |
| EcbExecutor.Executor.RunLogicalAttempt | src/services/ecb/batch-processor.service.ts:200-327 | The page loop ends; a completed batch has recorded its n rows and n / pageSize + 1 pages within the limit, and only the page limit fails a batch for good |
| EcbExecutor.Executor.RunPage | src/services/ecb/batch-processor.service.ts:215-305 | One page is requested, staged and counted; without an outcome the next page starts where it ended |
| EcbExecutor.Executor.EndPage | src/services/ecb/batch-processor.service.ts:285-327 | A short page completes the batch; a full page at the limit fails it for good; else the walk goes on |
| EcbExecutor.Executor.ProcessPageRows | src/services/ecb/batch-processor.service.ts:329-349 | All rows of the page are staged in order, or the first failing row or lost authority stops it |
| EcbExecutor.Executor.DecideResume | src/services/ecb/ingestion.service.ts:231-338 | The four resume checks in their order, each leading where the protocol says |
| EcbExecutor.Executor.FinalizePublicationHandoff | src/services/ecb/ingestion.service.ts:387-431 | Records the end mark and publishes the run as accepted if it equals the start mark, as source changed if not |
| EcbExecutor.Executor.PublishReady | src/services/ecb/ingestion-runner.service.ts:150-178 | Publication of a ready run completes it unless authority is lost; it is never rejected and never a repetition |
| EcbExecutor.Executor.PublishFailed | src/services/ecb/ingestion.service.ts:448-462 | A terminal failure is published unless authority is lost; it is never rejected |
| EcbExecutor.Executor.PublishChanged | src/services/ecb/ingestion.service.ts:433-446 | A source change is published unless authority is lost; it is never rejected |
| EcbExecutor.Executor.Surroundings | src/services/ecb/ingestion.service.ts:340-385 | Between any two writes the source, the BIN sets and the lock may change arbitrarily, and the state stays reachable |
| KeysetOrder.WalkIsComplete | src/db/property-violations-query.repository.ts:74-122 | Following cursors returns the whole ordered list, each row once, full pages before the last, for every limit, and stops |
| KeysetOrder.OnPage | src/db/property-violations-query.repository.ts:74-122 | A row is on a page exactly when it lies past the cursor and not past the last row of the page |
| KeysetOrder.StableRowOnce | src/services/ecb/property-violations-query.service.ts:35-42 | With inserts, deletes and updates between pages, a row that stays with its key unchanged is on exactly one page of the finished walk |
| KeysetOrder.BeforeTotal | src/db/property-violations-query.repository.ts:114 | The order, date descending with nulls last and then source id descending, is total |
| KeysetOrder.BeforeTransitive | src/db/property-violations-query.repository.ts:114 | And transitive |
| KeysetOrder.AscendingUnique | src/db/property-violations-query.repository.ts:114 | A set of rows has one ordered listing |
| ViolationQueries.DatePredicateIsOrder | src/db/property-violations-query.repository.ts:30-52 | The SQL cursor predicate, with its null cases, admits exactly the rows that the ORDER BY puts behind the cursor |
| ViolationQueries.UpdatedPredicateIsOrder | src/db/portfolio-violations-query.repository.ts:45-64 | The same for the ordering by update time |
| ViolationQueries.PropertyPageIsKeyPage | src/db/property-violations-query.repository.ts:74-122 | Filter, cursor predicate, order and limit + 1 together cut the page past the cursor from the ordered filtered rows |
| ViolationQueries.PortfolioPageIsKeyPage | src/db/portfolio-violations-query.repository.ts:73-127 | The same for the portfolio, in both orderings |
| ViolationQueries.PropertyCursorIsLastKey | src/services/ecb/property-violations-query.service.ts:25-53 | The next cursor is handed out exactly when more rows follow, and is the key of the last row |
| ViolationQueries.PortfolioCursorIsLastKey | src/services/ecb/portfolio-violations-query.service.ts:25-51 | The same for both portfolio cursors |
| ViolationQueries.PropertyWalkShowsOnce | src/services/ecb/property-violations-query.service.ts:25-53 | Following the property cursors while publications and BIN changes happen shows every violation that stays in the filter with its date unchanged exactly once |
| ViolationQueries.PortfolioWalkShowsOnce | src/services/ecb/portfolio-violations-query.service.ts:25-51 | The same over the portfolio, in either ordering |
| ViolationQueries.CheckedPropertyWalk | src/services/ecb/property-violations-query.service.ts:25-53 | From the source to the client: in every reachable state walking a CHECKED property returns, in order and each once, exactly the source rows of its BINs at its watermark that pass the filter |
| RegistrationSources.FetchAllLookupRecords | src/clients/building-footprints.client.ts:488-511 | Paging collects the whole answer exactly when it fits into the allowed pages with the last one not full; otherwise the page limit is reported |
| RegistrationSources.Lookup | src/clients/building-footprints.client.ts:402-486 | The single lookup: not found, found with its readable candidates, or malformed when rows exist and none is readable |
| RegistrationSources.FileCandidate | src/clients/building-footprints.client.ts:355-380 | A candidate is appended to exactly the groups it names, once for each of its identifiers |
| RegistrationSources.FetchBulkLookupCandidates | src/clients/building-footprints.client.ts:313-400 | The groups hold the candidates of the whole answer, in order, or the page limit is reported |
| RegistrationSources.LookupFootprintsChunk | src/clients/building-footprints.client.ts:268-311 | One chunk answers for each BBL as its own lookup would, up to repetitions |
| RegistrationSources.LookupFootprintsMany | src/clients/building-footprints.client.ts:268-311 | All chunks together do; the first chunk over its page limit fails the whole lookup |
| RegistrationSources.GroupHasSameMembers | src/clients/building-footprints.client.ts:313-400 | A bulk group has exactly the members of the single answer |
| RegistrationSources.AssessPlutoRecord | src/clients/pluto.client.ts:133-187 | A record is complete exactly when nothing required is missing and its identifiers agree with its BBL |
| RegistrationSources.TallyRecords | src/clients/pluto.client.ts:465-487 | The loop over a mixed answer gives for each BBL the tally of its own records in order |
| PlutoBulk.InOrderSorted | src/clients/pluto.client.ts:302-309 | The bulk answer holds the rows asked for and no others, ordered by BBL |
| PlutoBulk.WholeAnswerExactly | src/clients/pluto.client.ts:302-309 | Nothing is cut off exactly when there are at most twice as many rows as BBLs in the chunk |
| PlutoBulk.AnswerServes | src/clients/pluto.client.ts:302-309 | What the answer holds of a BBL is what the limit leaves of its rows behind those of the smaller BBLs |
| PlutoBulk.VerdictsExactly | src/clients/pluto.client.ts:203-266 | Two beginnings of the same rows are classified alike exactly when both have one complete row, or both more, or neither any and both the same reasons |
| PlutoBulk.LookupPlutoChunk | src/clients/pluto.client.ts:418-523 | One request classifies each BBL of the chunk by what the limit leaves of its rows |
| PlutoBulk.LookupPlutoMany | src/clients/pluto.client.ts:394-416 | So do all chunks together, each BBL in its own chunk |
| PlutoBulk.PlutoAgreesExactly | src/clients/pluto.client.ts:311-416 | Bulk and single lookup classify a BBL alike exactly when what its chunk leaves of its rows and its first two rows have the same verdict; if both find a parcel it is the same one |
| PlutoBulk.TwoEachSuffice | src/clients/pluto.client.ts:302-309 | At most two rows for each BBL asked for are enough for agreement on all of them |
| PlutoBulk.FourRowsHideOne | src/clients/pluto.client.ts:302-309 | Four rows of a smaller BBL hide the one complete row of a larger one |
| PlutoBulk.ThirdRowFound | src/clients/pluto.client.ts:203-266 | A complete third row is found in bulk and not by its own lookup |
| Registration.FilterValidBins | src/schemas/property-identifiers.schema.ts:59-74 | The distinct BINs other than placeholders, sorted |
| Registration.ValidateFootprintCandidates | src/services/property-resolver/footprint-validation.ts:33-80 | Accepted are exactly the candidates that agree with the parcel; rejected reasons are exactly those that occur |
| Registration.ResolveBins | src/services/property-resolver/footprint-validation.ts:60-86 | Validation, agreement check and BIN collection depend only on which candidates there are, not on their order or repetition |
| Registration.BulkAgreesExactly | src/services/property-resolver/property-resolver.service.ts:217-260 | Resolving a BBL from the bulk lookups and on its own give the same exactly when its rows say the same to both: the PLUTO rows its chunk leaves have the verdict of the first two, and its footprints, where they are asked for, fit the single pages and are not all unreadable |
| Registration.EachIsAfterAll | src/services/property-resolver/property-resolver.service.ts:309-344 | Registering one BBL after another does not depend on their order or on repetitions |
| Registration.PersistedIsTransactions | src/services/property-resolver/property-identity.service.ts:239-383 | What a resolution leaves of a property and its coverage is the two registration transactions of the ingestion tables |
| Registration.ResolvingAgain | src/services/property-resolver/property-identity.service.ts:288-383 | Resolving again to the same BINs changes neither version nor coverage; the version rises by one at most, and only with another BIN set; a resolution without BINs keeps the stored ones |
| Registration.AnsweredResolves | src/services/property-resolver/bulk-property-registration.service.ts:199-322 | The bulk lookups resolve each parcel as its own rows, as far as they are served, do |
| Registration.LookUpAll | src/services/property-resolver/bulk-property-registration.service.ts:199-232 | The bulk lookups answer for all the BBLs asked, or fail as a whole exactly when a chunk exceeds its page limit |
| Registration.ResolveEach | src/services/property-resolver/bulk-property-registration.service.ts:234-322 | An error of one parcel is kept with it and stops no other |
| Registration.BulkPropertyRegistrationService.ResolveAndPersist | src/services/property-resolver/bulk-property-registration.service.ts:234-349 | Resolves and writes parcels, then condominium units; the registry ends as if each had been done on its own |
| Registration.BulkPropertyRegistrationService.Report | src/services/property-resolver/bulk-property-registration.service.ts:351-412 | Every submitted input, repeated ones included, is answered and counted exactly once |
| Registration.BulkPropertyRegistrationService.RegisterBbls | src/services/property-resolver/bulk-property-registration.service.ts:186-413 | The whole service: registry and per-input answers as for each BBL on its own, counts that add up to the number submitted, and no write at all when a bulk lookup fails |
| Registration.OutcomeExactly | src/services/property-resolver/bulk-property-registration.service.ts:351-401 | A BBL that has to be resolved is reported alike by both paths exactly when its rows say the same to both |
| Registration.BulkIsEachSingle | src/services/property-resolver/property-resolver.service.ts:309-344 | The bulk service reports for every BBL what resolving it singly reports exactly when the rows of each BBL to be resolved say the same to both; and then it leaves the same properties, BINs, versions and coverage as resolving them one by one in list order |
| Registration.TwoRowsEachAlike | src/services/property-resolver/property-resolver.service.ts:309-344 | Readable footprints within the single page limit and at most two PLUTO rows for each BBL are enough for that |
| Calendar.NextYear | src/services/ecb/normalization.service.ts:45-52 | Each year begins as many days after the last as that year has |
| Calendar.FieldsRoundTrip | src/services/ecb/normalization.service.ts:45-52 | Reading back the fields of a real day gives the day |
| Calendar.InstantRoundTrip | src/services/ecb/normalization.service.ts:45-52 | Every day number is the day its fields name |
| Calendar.ValidExactly | src/services/ecb/normalization.service.ts:45-52 | The calendar check accepts exactly the real Gregorian days from the year 100 on (section 21.4.1 and section 21.4.3.4 of ECMA-262) |
| EcbDates.NumericDatesExactly | src/services/ecb/normalization.service.ts:97-137 | A numeric date in any form is accepted exactly when it is a real day of the year 100 or later, and then denotes its midnight |
| EcbDates.FormsAgree | src/services/ecb/normalization.service.ts:97-137 | The compact, dashed and slashed forms of a day denote the same instant |
| EcbDates.DashedIsChecked | src/services/ecb/normalization.service.ts:114-123 | One- or two-digit months and days are read alike in the dashed form |
| EcbDates.SlashedIsChecked | src/services/ecb/normalization.service.ts:125-134 | And in the slashed form |
| EcbDates.CompactIsChecked | src/services/ecb/normalization.service.ts:103-112 | And two-digit ones in the compact form |
| EcbDates.PrintedDayParsesBack | src/services/ecb/normalization.service.ts:97-137 | Printing the day of an instant and parsing it gives the instant |
| EcbDates.ParsedDayPrintsBack | src/services/ecb/normalization.service.ts:97-137 | Parsing a printed real day gives an instant whose day prints the same |
| EcbDates.TimestampInstant | src/services/ecb/normalization.service.ts:54-95 | A timestamp denotes its local fields minus its offset, and is invalid exactly when a field is out of range |
| EcbDates.FractionIsThreeDigits | src/services/ecb/normalization.service.ts:54-95 | Only the first three digits of a fraction count, missing ones being zero |
| RequestExecutor.NextKeeps | src/clients/socrata-request-executor.ts:289-546 | Every event, in any interleaving of calls, jobs, timeouts, aborts and settlements, keeps the invariant |
| RequestExecutor.SlotsBounded | src/clients/socrata-request-executor.ts:444-546 | Operations that have not settled never exceed the concurrency, also after timeouts and aborts |
| RequestExecutor.RequestsBounded | src/clients/socrata-request-executor.ts:289-334 | A logical call starts at most maxRetries + 1 requests |
| RequestExecutor.AccountsBalance | src/clients/socrata-request-executor.ts:329-334 | Total requests less total retries is the number of finished calls that started a request |
| RequestExecutor.DoneStaysDone | src/clients/socrata-request-executor.ts:289-334 | A finished call starts no request after it has been accounted for |
| RequestExecutor.OverlapExactly | src/clients/socrata-request-executor.ts:463-546 | Some execution runs a cancelled request beside its own retry exactly when there are two slots and a retry |
| RequestExecutor.OverlapHappens | src/clients/socrata-request-executor.ts:463-546 | The execution that does |
| RequestExecutor.OneSlotNoOverlap | src/clients/socrata-request-executor.ts:463-546 | With one slot none does |
| RequestExecutor.SocrataRequestExecutor.ExecuteWithAccounting | src/clients/socrata-request-executor.ts:289-334 | The retry loop, however it ends, adds the requests of this call to the totals once, and one request less in retries |
| Roadmap.CheckCycles | harness/roadmap.py:99-116 | The depth-first check ends, and accepts exactly the graphs without a cycle |
| Roadmap.CycleCheck.Visit | harness/roadmap.py:104-113 | A visit ends and leaves its task visited behind its dependencies, or finds a real cycle |
| Roadmap.OrderedIsAcyclic | harness/roadmap.py:99-116 | An order in which dependencies come first excludes cycles |
| PathScope.TestConflict | harness/scheduler.py:64-76 | The nested loops decide whether some pair of patterns has related prefixes, or a task has no patterns |
| PathScope.MatchIsUnder | harness/verifier.py:23-28 | Whatever matches a pattern whose first wildcard follows a slash is its scope prefix or lies below it |
| PathScope.SafePairDisjoint | harness/scheduler.py:57-76 | Two patterns whose first wildcards follow slashes and that the test calls unrelated match no common path |
| PathScope.DisjointEdits | harness/scheduler.py:57-90 | Two tasks that pass the parallel-safety test and then the scope check have changed no file in common, if each of their patterns is reliable: no backslash, and the first wildcard opens it, follows a slash or is absent, or the pattern is a tree |
| PathScope.UnsafeIsUnsound | harness/scheduler.py:57-76 | A wildcard inside a name defeats the test: some path and the tree below it are matched and called unrelated |
| PathScope.TreeIsSound | harness/verifier.py:23-28 | Except in tree patterns, where an earlier wildcard is taken literally |
| PathScope.TreesAreSound | harness/verifier.py:23-28 | Two tree patterns with an earlier wildcard that match one path have the same scope prefix |
| PathScope.ReliablePairSound | harness/scheduler.py:57-76 | Any two reliable patterns that match one path are called related |
| PathScope.SoundExactly | harness/scheduler.py:57-90 | A reliable pattern is sound against all reliable ones; one that is not reliable is not sound, provided its brackets admit an ordinary character and its first wildcard is no unclosed bracket |
| PathScope.MissedOverlap | harness/scheduler.py:57-76 | A concrete pair the test misses |
| TaskBudget.CallCharges | harness/provider_runner.py:98-153 | A call, with the switch of provider inside it, charges one provider unless it is a pause; a transient error of Cursor is charged all the same |
| TaskBudget.AttemptsBalance | harness/scheduler.py:350-440 | Over any sequence of calls, pauses and resumes, with Codex switched off or on by others in between, the attempt counter is the number of calls that were neither quota, capacity nor transient |
| TaskBudget.AttemptsWithinLimit | harness/scheduler.py:350-440 | And never exceeds the largest limit it was given |
| TaskBudget.SumExactly | harness/provider_runner.py:98-153 | With Cursor enabled it is the sum of the provider attempts exactly when no call that is made and reaches Cursor is answered there by a transient error without quota or capacity |
| TaskBudget.SumAsItStands | harness/provider_runner.py:98-153 | As the Cursor runner stands, which reports no transient error, the sum always holds |
| TaskBudget.SumCanFail | harness/provider_runner.py:98-153 | One focused call answered by one would break it |
| TaskBudget.TaskRun.PreferredProvider | harness/provider_runner.py:36-47 | The first usable provider in order of priority, else Codex, else Cursor |
| TaskBudget.TaskRun.Implement | harness/provider_runner.py:98-153 | The router in place: the same counters and answer as one call |
| TaskBudget.TaskRun.Attempt | harness/scheduler.py:395-430 | One attempt is counted, and handed back exactly when the call was a pause |
| TaskBudget.TaskRun.RunTask | harness/scheduler.py:350-440 | The loop over one task ends within its limit, or blocks a task that is past it, pauses use up nothing, and the outcome is what the status shows |
| Scheduler.ValidateDependencies | harness/validation.py:139-149 | No error is reported exactly when every dependency is known and those of the same sprint lie in earlier stages |
| Scheduler.AssertParallelSafe | harness/scheduler.py:78-90 | The loops accept exactly the stages without a conflicting pair |
| Scheduler.StageEditsDisjoint | harness/verifier.py:63-75 | Tasks of an accepted stage that pass the scope check have changed pairwise disjoint sets of files |
| Scheduler.Scheduler.IntegrateStage | harness/scheduler.py:449-498 | The barrier: all merged in order and all DONE, or no status changed and the head back at the checkpoint, unless the rollback itself failed and says so |
| Scheduler.Scheduler.MergeAll | harness/scheduler.py:449-498 | Merging stops at the first task that is unverified, has no branch or does not merge |
| Scheduler.Scheduler.RollbackIntegration | harness/git_worktree.py:118-136 | A rollback that reports success has restored the checkpoint and a clean tree |
| Scheduler.Scheduler.RunStage | harness/scheduler.py:518-579 | A stage is refused only for a dependency in another sprint; stopping short makes no task DONE and moves the head only if a rollback failed |
| Scheduler.Scheduler.RunSprint | harness/scheduler.py:518-579 | Every VERIFIED or DONE task has its dependencies DONE throughout; a completed sprint has all its tasks DONE |
| Scheduler.Scheduler.SprintDependenciesDone | harness/validation.py:139-149 | When a stage is reached every dependency inside the sprint is DONE |
| Scheduler.Scheduler.RerunStageBarrier | harness/scheduler.py:500-516 | A barrier rerun makes the stage DONE or changes no status |
| Scheduler.Scheduler.RunTask | harness/scheduler.py:350-440 | One task runs from its stored counters and stores them again, within its limit; no other task changes and it does not become DONE |
| Scheduler.StateStore.Run | harness/scheduler.py:350-440 | The stored counters of every task stay what its calls amount to |
| Scheduler.StateStore.Forget | harness/cli.py:475-486 | A fresh budget sets the counters of that task alone back to none |
| Scheduler.Scheduler.RunFocused | harness/cli.py:469-500 | A focused run is refused exactly for a dependency that is not DONE, or a DONE task with a fresh budget; it makes no task DONE and keeps to one attempt |
| Scheduler.Scheduler.SetStatus | harness/scheduler.py:124-126 | A status write keeps every VERIFIED or DONE task over DONE dependencies |

## Left out

- HTTP routes, middleware, logging, configuration loading, wiring, command-line parsing and signals: plumbing.
- Network transport, URL building and JSON parsing: a source is a fixed answer or a function.
- PostgreSQL, Prisma and Bottleneck internals: transactions are atomic, the limiter is a set of slots; pacing and retry delays are left out.
- Cursor text encoding: assumed to be injective.
- Address normalization and GeoSearch: the choice of a candidate, and the corroboration of BINs by GeoSearch that only address resolution uses.
- Lock-key hash, identifier formats, number and text normalization of single fields: they would only add easy members.
- Metrics, failure stages and the created, updated and finished times of rows: stored for display only.
- Error texts: an error stands for its code; the details appended to it are left out, and that it is not empty is kept.
- A write that takes effect although its acknowledgement is lost: it would be followed by a failed attempt or a resume.
- Run rows carry their snapshot, batches and staging: foreign keys and cascading deletes between those tables are not modelled.
- EcbExecutor.Executor.Execute: the lock appears as a flag and the authority object; the session behind them is modelled in EcbLock and not joined to the executor.
- RequestExecutor.SocrataRequestExecutor.ExecuteWithAccounting: the operation's value and the errors' kinds are left out; whether an error may be retried is an arbitrary answer.
- Registration.BulkIsEachSingle: asks that stored footprint identifiers agree with what they parse to; a row whose text parses to another identifier is not modelled.
- Registration.BulkPropertyRegistrationService.RegisterBbls: errors other than an answer beyond its page limit (timeouts, HTTP failures) end the request and are not modelled.
- PathScope.SoundExactly: what a bracket expression admits is a parameter; patterns with a bracket that admits nothing but slashes, backslashes or wildcards, or whose first wildcard is an unclosed bracket, are only shown sound where they are reliable.
- PathScope.DisjointEdits: stated for patterns without a backslash, which the test and the matching treat differently.
- Scheduler.Scheduler.RunSprint: the tasks of a stage run one after another; they touch only their own records, and the switch of Codex for the sprint is an arbitrary flag. Worktree set-up, environments, Docker and prompts are arbitrary results.
- Scheduler.Scheduler.IntegrateStage: a crash while tasks are being marked DONE, and the removal of worktrees behind them, are not modelled.
- Plan changes, manual retry, unblock and reset of tasks: they set state by hand.
