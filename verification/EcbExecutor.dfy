/**
 * The executor's control flow over the tables, as the services run it: acquire, initialize or
 * resume, the batch loop, the page loop, the end guard, publication. Every write it makes is shown
 * to be a step of the protocol, between arbitrary steps of its surroundings.
 */
module EcbExecutor {
  import opened Prelude
  import opened EcbTables
  import opened EcbTransactions
  import opened EcbProtocol
  import opened EcbLock
  import opened EcbStore
  import D = EcbDatabaseInvariant
  import P = EcbProtocolInvariant
  import T = EcbProtocolTheorems

  datatype ExecutionOutcome =
    | ActiveElsewhere
    | RunCompleted(run: RunId)
    | FailurePublished(run: RunId)
    | SourceChangePublished(run: RunId)
    | LostAuthority
    | RequestFailed

  datatype BatchOutcome = BatchDone | BatchRetry | BatchTerminal(error: string) | BatchLost | BatchThrew

  datatype ResumeDecision = FailedForGood(error: string) | AlreadyReady | Unchanged | Changed | NoAuthority | NoMetadata

  class Executor {
    const config: Config
    const store: Store
    var source: Source
    var mark: nat
    var held: bool
    ghost var archive: map<nat, Source>
    ghost var exec: Exec

    ghost function Now(): World
      reads this, store
    {
      World(store.Value(), source, mark, archive, exec, held)
    }

    ghost predicate Valid()
      reads this, store
    {
      config.Ok() && store.config == config && Reachable(config, Now())
    }

    constructor (c: Config, initial: Source, at: nat)
      requires c.Ok() && initial.Ok()
      ensures Valid() && exec.Gone? && !held && fresh(store)
    {
      config := c;
      store := new Store(c);
      source, mark, held := initial, at, false;
      archive, exec := map[at := initial], Gone;
      new;
      assert Executes(c, [Now()], []);
      assert [Now()][0] == Now();
    }

    // ---- Steps ----

    /** A write has happened since `before`: it was step `a`. */
    ghost method Took(before: World, a: Action)
      requires config.Ok() && Reachable(config, before) && Enabled(config, before, a)
      requires Now().(exec := Gone) == Step(config, before, a).(exec := Gone)
      modifies this`exec
      ensures Now() == Step(config, before, a) && Reachable(config, Now())
    {
      hide Step, Enabled, Reachable;
      exec := Step(config, before, a).exec;
      T.ReachableStep(config, before, a);
    }

    /** A step of the executor that writes no table. */
    ghost method Moved(a: Action)
      requires Valid() && Enabled(config, Now(), a)
      requires Step(config, Now(), a) == Now().(exec := Step(config, Now(), a).exec)
      modifies this`exec
      ensures Valid() && exec == Step(config, old(Now()), a).exec
    {
      hide Step, Enabled, Reachable;
      Took(Now(), a);
    }

    /** What the surroundings may do between two steps, and whether authority then still stands. */
    method Surroundings(authority: IngestionExecutionAuthority) returns (authorized: bool)
      requires Valid() && authority.Unreleased()
      modifies this`source, this`mark, this`held, this`archive, this`exec, store`properties, store`coverage,
               store`history, authority
      ensures Valid() && authority.Unreleased()
      ensures exec == old(exec)
      ensures authorized == authority.authorized
    {
      hide Step, Enabled, Reachable, Apply;
      var steps: nat := *;
      while steps > 0
        invariant Valid() && authority.Unreleased() && exec == old(exec)
      {
        var choice: nat := *;
        if choice == 0 {
          var to: Source := *;
          var later: nat := *;
          if to.Ok() && mark < later { SourceChanges(to, later); }
        } else if choice == 1 {
          LockIsLost(authority);
        } else {
          var p: PropertyId := *;
          var bins: set<Bin> := *;
          if choice == 2 { PropertyRegistered(p, bins); } else { BinsChanged(p, bins); }
        }
        steps := steps - 1;
      }
      authorized := authority.CheckAuthorized();
    }

    method SourceChanges(to: Source, later: nat)
      requires Valid() && to.Ok() && mark < later
      modifies this`source, this`mark, this`archive, this`exec
      ensures Valid() && exec == old(exec)
    {
      hide Step, Enabled, Reachable;
      ghost var w := Now();
      P.ChangeSourceStep(config, w, to, later);
      source, mark, archive := to, later, archive[later := to];
      Took(w, ChangeSource(to, later));
    }

    method LockIsLost(authority: IngestionExecutionAuthority)
      requires Valid() && authority.Unreleased()
      modifies this`held, this`exec, authority
      ensures Valid() && authority.Unreleased() && exec == old(exec) && !authority.authorized
    {
      hide Step, Enabled, Reachable;
      ghost var w := Now();
      P.LockStep(config, w);
      held := false;
      authority.Revoke();
      Took(w, LoseLock);
    }

    method PropertyRegistered(p: PropertyId, bins: set<Bin>)
      requires Valid()
      modifies this`exec, store`properties, store`coverage, store`history
      ensures Valid() && exec == old(exec)
    {
      hide Apply, Step, Enabled, Reachable;
      ghost var w := Now();
      P.RegistrationStep(config, w, Register(p, bins));
      assert ToSet(SortedSeq(bins)) == bins;
      store.FindOrCreateProperty(p, SortedSeq(bins));
      Took(w, Register(p, bins));
    }

    method BinsChanged(p: PropertyId, bins: set<Bin>)
      requires Valid()
      modifies this`exec, store`properties, store`coverage, store`history
      ensures Valid() && exec == old(exec)
    {
      hide Apply, Step, Enabled, Reachable;
      ghost var w := Now();
      P.RegistrationStep(config, w, ChangeBins(p, bins));
      assert ToSet(SortedSeq(bins)) == bins;
      var _, _ := store.ApplyEffectiveBinSet(p, SortedSeq(bins));
      Took(w, ChangeBins(p, bins));
    }

    // ---- Acquisition and initialization ----

    method AcquireLock() returns (authority: IngestionExecutionAuthority)
      requires Valid() && !held
      modifies this`held, this`exec
      ensures Valid() && exec == Exec.Acquired && fresh(authority) && authority.Unreleased() && authority.authorized
    {
      hide Step, Enabled, Reachable;
      ghost var w := Now();
      P.LockStep(config, w);
      held := true;
      authority := new IngestionExecutionAuthority();
      Took(w, Acquire);
    }

    method CreateQueuedRun() returns (r: RunId)
      requires Valid() && exec.Acquired? && !HasActive(store.Value())
      modifies this`exec, store`runs
      ensures Valid() && exec == HasQueued(r)
    {
      ghost var w := Now();
      ghost var above := T.FreshRunExists(store.runs, store.runs.Keys);
      assert above !in store.runs;
      r :| r !in store.runs;
      var _ := store.CreateQueued(r);
      hide Apply, HasActive;
      Took(w, CreateRun(r));
    }

    ghost method Pick(r: RunId)
      requires Valid() && exec.Acquired? && r in store.runs && store.runs[r].Active()
      modifies this`exec
      ensures Valid()
      ensures exec == if store.runs[r].status.Queued? then HasQueued(r) else Resuming(r)
    {
      Moved(if store.runs[r].status.Queued? then PickQueued(r) else PickRunning(r));
    }

    /** What the executor may rely on about its run, at the points where it looks at it. */
    ghost method KnownRun()
      requires Valid() && !exec.Gone? && !exec.Acquired?
      ensures exec.run in store.runs && store.runs[exec.run].Active()
      ensures exec.HasQueued? || exec.HasSnapshot? || exec.HasScope? || exec.HasStartMark? ==>
                store.runs[exec.run].status.Queued? && store.runs[exec.run].startMark.None?
      ensures exec.HasSnapshot? ==> !store.runs[exec.run].initialized
      ensures exec.HasScope? || exec.HasStartMark? ==> store.runs[exec.run].initialized
      ensures store.runs[exec.run].status.Running? ==>
                store.runs[exec.run].initialized && store.runs[exec.run].startMark.Some?
      ensures store.runs[exec.run].initialized ==> CountsAsExpected(store.runs[exec.run])
      ensures |store.runs[exec.run].batches| * config.maxAttempts
              >= T.Unused(store.runs[exec.run].batches, config.maxAttempts) >= 0
    {
      RunKnown(config, Now());
    }

    method LoadSnapshot(r: RunId) returns (rows: set<SnapshotRow>)
      requires Valid() && exec == HasQueued(r) && r in store.runs && !store.runs[r].initialized
      modifies this`exec
      ensures Valid() && exec == HasSnapshot(r, rows)
    {
      rows := LiveSnapshot(store.properties);
      Moved(ReadSnapshot);
    }

    method InitializeRun(r: RunId, rows: set<SnapshotRow>)
      requires Valid() && exec == HasSnapshot(r, rows)
      modifies this`exec, store`runs
      ensures Valid() && exec == HasScope(r)
    {
      hide Apply;
      ghost var w := Now();
      var _ := store.InitializeSnapshotAndBatches(r, rows);
      Took(w, StoreSnapshot);
    }

    /** A clock: later than every start instant already stored. */
    method ReadClock() returns (at: nat)
      ensures LaterThanAll(store.runs, at)
    {
      at := 0;
      var left := store.runs.Keys;
      while left != {}
        invariant left <= store.runs.Keys
        invariant forall s :: s in store.runs && s !in left && store.runs[s].startedAt.Some? ==>
                    store.runs[s].startedAt.value < at
        decreases |left|
      {
        var s :| s in left;
        var started := store.runs[s].startedAt;
        if started.Some? && at <= started.value { at := started.value + 1; }
        left := left - {s};
      }
    }

    method StartRunning(r: RunId, startMark: nat)
      requires Valid() && exec == HasStartMark(r, startMark)
      modifies this`exec, store`runs
      ensures Valid() && exec == Batching(r)
    {
      var at := ReadClock();
      ghost var w := Now();
      var _ := store.SetStartWatermarkAndRunning(r, startMark, at);
      hide Apply;
      Took(w, StartRun(at));
    }

    ghost method InitializationSkipped(r: RunId)
      requires Valid() && exec == HasQueued(r) && r in store.runs && store.runs[r].initialized
      modifies this`exec
      ensures Valid() && exec == HasScope(r)
    {
      Moved(SkipInitialization);
    }

    ghost method StartMarkObserved(r: RunId)
      requires Valid() && exec == HasScope(r) && r in store.runs && CountsAsExpected(store.runs[r])
      modifies this`exec
      ensures Valid() && exec == HasStartMark(r, mark)
    {
      Moved(ReadStartMark);
    }

    ghost method StartMarkMissing(r: RunId)
      requires Valid() && exec == HasScope(r) && r in store.runs && CountsAsExpected(store.runs[r])
      modifies this`exec
      ensures Valid() && exec == Failing(r, START_MARK_ERROR)
    {
      Moved(StartMarkUnavailable);
    }

    /** Snapshot and batches unless sealed already, then the start mark, then RUNNING. */
    method InitializeAndStartRun(r: RunId, authority: IngestionExecutionAuthority) returns (outcome: BatchOutcome)
      requires Valid() && exec == HasQueued(r) && authority.Unreleased()
      modifies this, store, authority
      ensures Valid() && authority.Unreleased()
      ensures outcome.BatchDone? ==> exec == Batching(r)
      ensures outcome.BatchTerminal? ==> exec == Failing(r, outcome.error)
      ensures outcome.BatchLost? ==> !authority.authorized
      ensures !outcome.BatchRetry?
    {
      hide Apply, Reachable, CountsAsExpected, LaterThanAll, T.Unused;
      KnownRun();
      if !store.runs[r].initialized {
        var rows := LoadSnapshot(r);
        var loaded := Surroundings(authority);
        if !loaded { return BatchLost; }
        InitializeRun(r, rows);
      } else {
        InitializationSkipped(r);
      }
      var authorized := Surroundings(authority);
      if !authorized { return BatchLost; }
      KnownRun();
      // The metadata request may fail for good, or with an error that ends the execution.
      var failure: nat := *;
      if failure == 1 { return BatchThrew; }
      if failure == 2 {
        StartMarkMissing(r);
        return BatchTerminal(START_MARK_ERROR);
      }
      var startMark := mark;
      StartMarkObserved(r);
      authorized := Surroundings(authority);
      if !authorized { return BatchLost; }
      StartRunning(r, startMark);
      return BatchDone;
    }

    // ---- One attempt of one batch ----

    /** The run is under way with this many batches, and this many attempts left in all. */
    ghost predicate Budget(r: RunId, count: nat, left: int)
      reads this, store
    {
      && r in store.runs && store.runs[r].initialized && store.runs[r].status.Running?
      && |store.runs[r].batches| == count
      && T.Unused(store.runs[r].batches, config.maxAttempts) == left
    }

    /** A batch write: the budget moves by what the transaction accounts for. */
    ghost method TookBatch(before: World, a: Action, r: RunId, count: nat, left: int)
      requires config.Ok() && Reachable(config, before) && Enabled(config, before, a)
      requires Now().(exec := Gone) == Step(config, before, a).(exec := Gone)
      requires OpOf(config, before, a).Some? && !OpOf(config, before, a).value.Publish? && !OpOf(config, before, a).value.Terminate?
      requires r in before.db.runs && before.db.runs[r].initialized && before.db.runs[r].status.Running?
      requires |before.db.runs[r].batches| == count && T.Unused(before.db.runs[r].batches, config.maxAttempts) == left
      modifies this`exec
      ensures Now() == Step(config, before, a) && Reachable(config, Now())
      ensures Budget(r, count, left - (if T.BeginsOn(before.db, OpOf(config, before, a).value, r) then 1 else 0))
    {
      hide Step, Enabled, Reachable, Apply, T.Unused, OpOf, T.BeginsOn;
      var op := OpOf(config, before, a).value;
      P.StepIsOp(config, before, a);
      T.OpAccounts(config, before.db, op, r);
      StillRunning(config, before.db, op, r);
      Took(before, a);
    }

    method IncrementAttempt(r: RunId, k: nat, ghost count: nat, ghost left: int)
      requires Valid() && exec == Batching(r) && Budget(r, count, left)
      requires k == FirstOpen(store.runs[r].batches) < count && store.runs[r].batches[k].attempts < config.maxAttempts
      modifies this`exec, store`runs
      ensures Valid() && exec == Counted(r, k) && Budget(r, count, left - 1)
    {
      hide Apply, T.Unused;
      ghost var w := Now();
      store.IncrementAttempt(r, k);
      TookBatch(w, BeginAttempt, r, count, left);
    }

    method MarkBatchRunning(r: RunId, k: nat, ghost count: nat, ghost left: int)
      requires Valid() && exec == Counted(r, k) && Budget(r, count, left)
      modifies this`exec, store`runs
      ensures Valid() && exec == Fetching(r, k, 0, 0) && Budget(r, count, left)
    {
      hide Apply, T.Unused;
      ghost var w := Now();
      store.MarkRunning(r, k);
      TookBatch(w, Action.MarkRunning, r, count, left);
    }

    /** One request: a page of the source as it stands, or a failure. */
    method GetPage(r: RunId, k: nat, offset: nat, pages: nat, ghost count: nat, ghost left: int)
      returns (page: Option<seq<PageRow>>)
      requires Valid() && exec == Fetching(r, k, offset, pages) && Budget(r, count, left) && k < count
      modifies this`exec
      ensures Valid() && Budget(r, count, left)
      ensures page.None? ==> exec == old(exec)
      ensures page.Some? ==>
                && exec == Exec.Staging(r, k, offset, pages, page.value, 0)
                && page.value == Slice(BatchRows(source, store.runs[r].batches[k].bins), offset,
                                       store.runs[r].batches[k].pageSize)
    {
      var fails: bool := *;
      if fails { return None; }
      page := Some(Slice(BatchRows(source, store.runs[r].batches[k].bins), offset, store.runs[r].batches[k].pageSize));
      Moved(FetchPage);
    }

    method StageOne(r: RunId, k: nat, offset: nat, pages: nat, page: seq<PageRow>, next: nat,
                    ghost count: nat, ghost left: int)
      returns (ok: bool)
      requires Valid() && exec == Exec.Staging(r, k, offset, pages, page, next) && next < |page|
      requires Budget(r, count, left)
      modifies this`exec, store`runs, store`raw
      ensures Valid() && Budget(r, count, left)
      ensures exec == if ok then Exec.Staging(r, k, offset, pages, page, next + 1) else old(exec)
    {
      hide Apply, T.Unused, Step, Enabled, OpOf, Reachable;
      ghost var w := Now();
      ok := PersistRow(r, page[next]);
      if ok {
        StageRowStep(config, w);
        TookBatch(w, StageRow, r, count, left);
      }
    }

    method PersistRow(r: RunId, row: PageRow) returns (ok: bool)
      requires config.Ok() && store.config == config
      modifies store`runs, store`raw
      ensures ok == row.row.Valid?
      ensures store.Value() == if ok then Apply(config, old(store.Value()), Op.Stage(r, row.id, row.row.violation))
                               else old(store.Value())
    {
      hide Apply;
      var observed: Option<int> := *;
      if row.row.Valid? { observed := Some(row.row.violation.updatedAt); }
      var outcome := store.ProcessRow(r, row.id, row.row, observed);
      ok := outcome.Staged?;
    }

    method StoreProgress(r: RunId, k: nat, offset: nat, pages: nat, page: seq<PageRow>, ghost count: nat, ghost left: int)
      requires Valid() && exec == Exec.Staging(r, k, offset, pages, page, |page|) && Budget(r, count, left)
      modifies this`exec, store`runs
      ensures Valid() && exec == PageStored(r, k, offset, pages + 1, |page|) && Budget(r, count, left)
    {
      hide Apply, T.Unused;
      ghost var w := Now();
      store.UpdateProgress(r, k, pages + 1, offset + |page|);
      TookBatch(w, StorePage, r, count, left);
    }

    /** The batch is COMPLETED with these counts recorded. */
    ghost predicate CompletedWith(r: RunId, k: nat, pages: nat, fetched: nat)
      reads store
    {
      && r in store.runs && k < |store.runs[r].batches|
      && store.runs[r].batches[k].status.BatchCompleted?
      && store.runs[r].batches[k].pages == pages && store.runs[r].batches[k].rows == fetched
    }

    method CompleteBatch(r: RunId, k: nat, offset: nat, pages: nat, got: nat, ghost count: nat, ghost left: int)
      requires Valid() && exec == PageStored(r, k, offset, pages, got) && Budget(r, count, left)
      requires k < count && got < store.runs[r].batches[k].pageSize
      modifies this`exec, store`runs
      ensures Valid() && exec == Batching(r) && Budget(r, count, left)
      ensures CompletedWith(r, k, pages, offset + got)
    {
      hide Apply, T.Unused;
      ghost var w := Now();
      store.MarkCompleted(r, k, pages, offset + got);
      TookBatch(w, FinishBatch, r, count, left);
      CompletedNow(config, w.db, r, k, pages, offset + got);
    }

    method FailLogicalAttempt(r: RunId, k: nat, error: string, ghost count: nat, ghost left: int)
      requires Valid() && (exec.Fetching? || exec.Staging? || exec.PageStored?) && exec.run == r && exec.batch == k
      requires error != "" && Budget(r, count, left)
      modifies this`exec, store`runs
      ensures Valid() && exec == Batching(r) && Budget(r, count, left)
    {
      hide Apply, T.Unused;
      ghost var w := Now();
      var _ := store.MarkFailed(r, k, error);
      TookBatch(w, FailAttempt(error), r, count, left);
    }

    method FailPageLimit(r: RunId, k: nat, offset: nat, pages: nat, got: nat, ghost count: nat, ghost left: int)
      requires Valid() && exec == PageStored(r, k, offset, pages, got) && Budget(r, count, left)
      requires k < count && store.runs[r].batches[k].pageSize <= got && config.maxPages <= pages
      modifies this`exec, store`runs
      ensures Valid() && exec == Failing(r, PAGE_LIMIT_ERROR) && Budget(r, count, left)
    {
      hide Apply, T.Unused;
      ghost var w := Now();
      var _ := store.MarkFailed(r, k, PAGE_LIMIT_ERROR);
      TookBatch(w, PageLimitReached, r, count, left);
    }

    method FailBudget(r: RunId, k: nat, ghost count: nat, ghost left: int)
      requires Valid() && exec == Batching(r) && Budget(r, count, left)
      requires k == FirstOpen(store.runs[r].batches) < count
      requires config.maxAttempts <= store.runs[r].batches[k].attempts && !store.runs[r].batches[k].status.BatchFailed?
      modifies this`exec, store`runs
      ensures Valid() && exec == Failing(r, BUDGET_ERROR) && Budget(r, count, left)
    {
      hide Apply, T.Unused;
      ghost var w := Now();
      var _ := store.MarkFailed(r, k, BUDGET_ERROR);
      TookBatch(w, BudgetSpent, r, count, left);
    }

    ghost method PageTurned(r: RunId, k: nat, offset: nat, pages: nat, got: nat)
      requires Valid() && exec == PageStored(r, k, offset, pages, got)
      requires r in store.runs && k < |store.runs[r].batches|
      requires store.runs[r].batches[k].pageSize <= got && pages < config.maxPages
      modifies this`exec
      ensures Valid() && exec == Fetching(r, k, offset + got, pages)
    {
      Moved(NextPage);
    }

    /** The rows of one page, one transaction each, until one fails or authority is lost. */
    method ProcessPageRows(r: RunId, k: nat, offset: nat, pages: nat, page: seq<PageRow>,
                           authority: IngestionExecutionAuthority, ghost count: nat, ghost left: int)
      returns (outcome: BatchOutcome)
      requires Valid() && authority.Unreleased() && Budget(r, count, left)
      requires exec == Exec.Staging(r, k, offset, pages, page, 0)
      modifies this, store, authority
      ensures Valid() && authority.Unreleased() && Budget(r, count, left)
      ensures outcome.BatchDone? ==> exec == Exec.Staging(r, k, offset, pages, page, |page|)
      ensures outcome.BatchRetry? ==> exec.Staging? && exec.run == r && exec.batch == k
      ensures outcome.BatchLost? ==> !authority.authorized
      ensures !outcome.BatchTerminal? && !outcome.BatchThrew?
    {
      hide Apply, T.Unused, Reachable;
      var processed := 0;
      while processed < |page|
        invariant processed <= |page| && Valid() && authority.Unreleased() && Budget(r, count, left)
        invariant exec == Exec.Staging(r, k, offset, pages, page, processed)
      {
        var authorized := Surroundings(authority);
        if !authorized { return BatchLost; }
        var ok := StageOne(r, k, offset, pages, page, processed, count, left);
        if !ok { return BatchRetry; }
        processed := processed + 1;
      }
      return BatchDone;
    }

    /** Stages a page and records progress; a row that fails fails the attempt. */
    method StagePage(r: RunId, k: nat, offset: nat, pages: nat, page: seq<PageRow>,
                     authority: IngestionExecutionAuthority, ghost count: nat, ghost left: int)
      returns (outcome: BatchOutcome)
      requires Valid() && authority.Unreleased() && Budget(r, count, left)
      requires exec == Exec.Staging(r, k, offset, pages, page, 0)
      modifies this, store, authority
      ensures Valid() && authority.Unreleased() && Budget(r, count, left)
      ensures outcome.BatchDone? ==> exec == PageStored(r, k, offset, pages + 1, |page|)
      ensures outcome.BatchRetry? ==> exec == Batching(r)
      ensures outcome.BatchLost? ==> !authority.authorized
      ensures !outcome.BatchTerminal? && !outcome.BatchThrew?
    {
      hide Apply, T.Unused, Reachable;
      var processed := ProcessPageRows(r, k, offset, pages, page, authority, count, left);
      if processed.BatchLost? { return BatchLost; }
      if processed.BatchRetry? {
        FailLogicalAttempt(r, k, "BATCH_ROW_PROCESSING_FAILED", count, left);
        return BatchRetry;
      }
      StoreProgress(r, k, offset, pages, page, count, left);
      var authorized := Surroundings(authority);
      return if authorized then BatchDone else BatchLost;
    }

    /** The request of one page; a failed one fails the attempt. */
    method RequestPage(r: RunId, k: nat, offset: nat, pages: nat, authority: IngestionExecutionAuthority,
                       ghost count: nat, ghost left: int)
      returns (outcome: Option<BatchOutcome>, page: seq<PageRow>)
      requires Valid() && authority.Unreleased() && Budget(r, count, left) && k < count
      requires exec == Fetching(r, k, offset, pages)
      modifies this, store, authority
      ensures Valid() && authority.Unreleased() && Budget(r, count, left)
      ensures outcome.None? ==> exec == Exec.Staging(r, k, offset, pages, page, 0)
      ensures outcome.Some? && outcome.value.BatchRetry? ==> exec == Batching(r)
      ensures outcome.Some? && outcome.value.BatchLost? ==> !authority.authorized
      ensures outcome.Some? ==> outcome.value.BatchRetry? || outcome.value.BatchLost?
    {
      hide Apply, T.Unused, Reachable, Slice, BatchRows, Step, Enabled;
      var answer := GetPage(r, k, offset, pages, count, left);
      var authorized := Surroundings(authority);
      if !authorized { return Some(BatchLost), []; }
      if answer.None? {
        FailLogicalAttempt(r, k, "BATCH_PAGE_FETCH_FAILED", count, left);
        return Some(BatchRetry), [];
      }
      return None, answer.value;
    }

    /** One page of an attempt: requested, staged, counted. No outcome means the attempt goes on. */
    method RunPage(r: RunId, k: nat, offset: nat, pages: nat, authority: IngestionExecutionAuthority,
                   ghost count: nat, ghost left: int)
      returns (outcome: Option<BatchOutcome>, got: nat)
      requires Valid() && authority.Unreleased() && Budget(r, count, left) && k < count
      requires exec == Fetching(r, k, offset, pages)
      modifies this, store, authority
      ensures Valid() && authority.Unreleased() && Budget(r, count, left)
      ensures outcome.None? ==> exec == Fetching(r, k, offset + got, pages + 1) && pages + 1 < config.maxPages
      ensures outcome.Some? && outcome.value.BatchDone? ==>
                exec == Batching(r) && CompletedWith(r, k, pages + 1, offset + got) && got < config.pageSize
      ensures outcome.Some? && outcome.value.BatchRetry? ==> exec == Batching(r)
      ensures outcome.Some? && outcome.value.BatchTerminal? ==>
                outcome.value.error == PAGE_LIMIT_ERROR && exec == Failing(r, PAGE_LIMIT_ERROR)
                && config.maxPages <= pages + 1 && config.pageSize <= got
      ensures outcome.Some? && outcome.value.BatchLost? ==> !authority.authorized
      ensures outcome.Some? ==> !outcome.value.BatchThrew?
    {
      hide *;
      var page: seq<PageRow>;
      outcome, page := RequestPage(r, k, offset, pages, authority, count, left);
      if outcome.Some? { return outcome, 0; }
      got := |page|;
      var stored := StagePage(r, k, offset, pages, page, authority, count, left);
      if !stored.BatchDone? { return Some(stored), got; }
      var ended := EndPage(r, k, offset, pages + 1, got, count, left);
      return ended, got;
    }

    /** A short page completes the batch; a full one at the limit fails it for good. */
    method EndPage(r: RunId, k: nat, offset: nat, pages: nat, got: nat, ghost count: nat, ghost left: int)
      returns (outcome: Option<BatchOutcome>)
      requires Valid() && Budget(r, count, left) && k < count
      requires exec == PageStored(r, k, offset, pages, got)
      modifies this`exec, store`runs
      ensures Valid() && Budget(r, count, left)
      ensures outcome.None? ==> exec == Fetching(r, k, offset + got, pages) && pages < config.maxPages
      ensures outcome.Some? && outcome.value.BatchDone? ==>
                exec == Batching(r) && CompletedWith(r, k, pages, offset + got) && got < config.pageSize
      ensures outcome.Some? && outcome.value.BatchTerminal? ==>
                outcome.value.error == PAGE_LIMIT_ERROR && exec == Failing(r, PAGE_LIMIT_ERROR)
                && config.maxPages <= pages && config.pageSize <= got
      ensures outcome.Some? ==> outcome.value.BatchDone? || outcome.value.BatchTerminal?
    {
      hide Apply, T.Unused, Reachable, CompletedWith;
      T.SizeKnown(config, Now(), r, k);
      if got < store.runs[r].batches[k].pageSize {
        CompleteBatch(r, k, offset, pages, got, count, left);
        return Some(BatchDone);
      }
      if config.maxPages <= pages {
        FailPageLimit(r, k, offset, pages, got, count, left);
        return Some(BatchTerminal(PAGE_LIMIT_ERROR));
      }
      PageTurned(r, k, offset, pages, got);
      return None;
    }

    /**
     * Pages until a short one, the page limit, a failure or lost authority. A completed batch has
     * recorded its n rows and n / pageSize + 1 pages, within the limit; only the limit fails it for good.
     */
    method RunLogicalAttempt(r: RunId, k: nat, authority: IngestionExecutionAuthority, ghost count: nat, ghost left: int)
      returns (outcome: BatchOutcome)
      requires Valid() && authority.Unreleased() && Budget(r, count, left) && k < count
      requires exec == Fetching(r, k, 0, 0)
      modifies this, store, authority
      ensures Valid() && authority.Unreleased() && Budget(r, count, left)
      ensures outcome.BatchDone? ==>
                && exec == Batching(r) && k < |store.runs[r].batches|
                && var batch := store.runs[r].batches[k];
                   && batch.status.BatchCompleted? && 0 < batch.pages <= config.maxPages && 0 < config.pageSize
                   && (batch.pages - 1) * config.pageSize <= batch.rows < batch.pages * config.pageSize
      ensures outcome.BatchRetry? ==> exec == Batching(r)
      ensures outcome.BatchTerminal? ==> outcome.error == PAGE_LIMIT_ERROR && exec == Failing(r, PAGE_LIMIT_ERROR)
      ensures outcome.BatchLost? ==> !authority.authorized
      ensures !outcome.BatchThrew?
    {
      hide Apply, T.Unused, Reachable, CompletedWith;
      var pagesFetched: nat, offset: nat := 0, 0;
      while true
        invariant Valid() && authority.Unreleased() && Budget(r, count, left)
        invariant exec == Fetching(r, k, offset, pagesFetched)
        decreases config.maxPages - pagesFetched
      {
        var authorized := Surroundings(authority);
        if !authorized { return BatchLost; }
        OffsetKnown(config, Now());
        var ended, got := RunPage(r, k, offset, pagesFetched, authority, count, left);
        if ended.Some? {
          if ended.value.BatchDone? { CountsKnown(r, k, pagesFetched, offset, got); }
          return ended.value;
        }
        pagesFetched := pagesFetched + 1;
        offset := offset + got;
      }
    }

    lemma CountsKnown(r: RunId, k: nat, pages: nat, offset: nat, got: nat)
      requires CompletedWith(r, k, pages + 1, offset + got) && offset == pages * config.pageSize && got < config.pageSize
      requires pages < config.maxPages
      ensures r in store.runs && k < |store.runs[r].batches|
      ensures var batch := store.runs[r].batches[k];
              && batch.status.BatchCompleted? && 0 < batch.pages <= config.maxPages && 0 < config.pageSize
              && (batch.pages - 1) * config.pageSize <= batch.rows < batch.pages * config.pageSize
    {
      assert (pages + 1) * config.pageSize == pages * config.pageSize + config.pageSize;
    }

    method ExecuteBatchAttempt(r: RunId, k: nat, authority: IngestionExecutionAuthority, ghost count: nat, ghost left: int)
      returns (outcome: BatchOutcome)
      requires Valid() && authority.Unreleased() && Budget(r, count, left) && exec == Batching(r)
      requires k == FirstOpen(store.runs[r].batches) < count
      requires !Spent(config, store.runs[r].batches[k])
      modifies this, store, authority
      ensures Valid() && authority.Unreleased()
      ensures outcome.BatchDone? || outcome.BatchRetry? ==> exec == Batching(r) && Budget(r, count, left - 1)
      ensures outcome.BatchTerminal? ==> exec == Failing(r, outcome.error)
      ensures outcome.BatchLost? ==> !authority.authorized
      ensures !outcome.BatchThrew?
    {
      hide Apply, T.Unused, Reachable, FirstOpen;
      if config.maxAttempts <= store.runs[r].batches[k].attempts {
        FailBudget(r, k, count, left);
        return BatchTerminal(BUDGET_ERROR);
      }
      IncrementAttempt(r, k, count, left);
      var authorized := Surroundings(authority);
      if !authorized { return BatchLost; }
      MarkBatchRunning(r, k, count, left - 1);
      outcome := RunLogicalAttempt(r, k, authority, count, left - 1);
    }

    // ---- The batch loop ----

    ghost method BatchesDone(r: RunId)
      requires Valid() && exec == Batching(r) && r in store.runs
      requires FirstOpen(store.runs[r].batches) == |store.runs[r].batches|
      modifies this`exec
      ensures Valid() && exec == Finalizing(r)
    {
      Moved(AllCompleted);
    }

    ghost method ExhaustedFound(r: RunId)
      requires Valid() && exec == Batching(r) && r in store.runs
      requires var k := FirstOpen(store.runs[r].batches);
               k < |store.runs[r].batches| && Spent(config, store.runs[r].batches[k])
      modifies this`exec
      ensures Valid() && exec == Failing(r, ErrorOf(store.runs[r].batches[FirstOpen(store.runs[r].batches)]))
    {
      Moved(AttemptsExhausted);
    }

    /** The loop over persisted batches: each pass uses up an attempt, so it ends. */
    method ProcessPersistedBatches(r: RunId, authority: IngestionExecutionAuthority) returns (outcome: BatchOutcome)
      requires Valid() && authority.Unreleased() && exec == Batching(r)
      modifies this, store, authority
      ensures Valid() && authority.Unreleased()
      ensures outcome.BatchDone? ==> exec == Finalizing(r)
      ensures outcome.BatchTerminal? ==> exec == Failing(r, outcome.error)
      ensures outcome.BatchLost? ==> !authority.authorized
      ensures !outcome.BatchRetry? && !outcome.BatchThrew?
    {
      hide Apply, T.Unused, Reachable, FirstOpen, CountsAsExpected;
      RunningNow(r);
      ghost var count, left := |store.runs[r].batches|, T.Unused(store.runs[r].batches, config.maxAttempts);
      while true
        invariant Valid() && authority.Unreleased() && exec == Batching(r) && Budget(r, count, left)
        decreases left
      {
        KnownRun();
        var authorized := Surroundings(authority);
        if !authorized { return BatchLost; }
        var batches := store.runs[r].batches;
        var next := FirstOpen(batches);
        if next == |batches| {
          BatchesDone(r);
          return BatchDone;
        }
        if Spent(config, batches[next]) {
          ExhaustedFound(r);
          return BatchTerminal(ErrorOf(batches[next]));
        }
        outcome := ExecuteBatchAttempt(r, next, authority, count, left);
        if outcome.BatchLost? || outcome.BatchTerminal? {
          return;
        }
        left := left - 1;
      }
    }

    ghost method RunningNow(r: RunId)
      requires Valid() && (exec == Batching(r) || exec == Resuming(r) || exec == Finalizing(r))
      ensures r in store.runs
      ensures Budget(r, |store.runs[r].batches|, T.Unused(store.runs[r].batches, config.maxAttempts))
    {
      KnownRun();
      RunIsRunning(config, Now());
    }

    // ---- Publication ----

    /** A terminal decision is always accepted; only lost authority can prevent it. */
    method PublishFailed(r: RunId, error: string, authority: IngestionExecutionAuthority) returns (outcome: ExecutionOutcome)
      requires Valid() && authority.Unreleased() && exec == Failing(r, error)
      modifies this, store, authority
      ensures Valid() && authority.Unreleased()
      ensures outcome == FailurePublished(r) || (outcome == LostAuthority && !authority.authorized)
      ensures outcome.FailurePublished? ==> r in store.runs && store.runs[r].status.RunFailed?
    {
      hide Apply, Reachable, TerminateAccepts, Terminated, Step, Enabled;
      var authorized := Surroundings(authority);
      if !authorized { return LostAuthority; }
      T.TerminalIsAccepted(config, Now());
      ghost var w := Now();
      var at := ReadClock();
      var done := store.PublishTerminalFailure(r, RunFailed, error, at, authority);
      if !done.Done? { return LostAuthority; }
      P.PublicationEnabled(config, w, PublishFailure(at));
      TerminalStep(config, w, PublishFailure(at));
      Took(w, PublishFailure(at));
      return FailurePublished(r);
    }

    method PublishChanged(r: RunId, authority: IngestionExecutionAuthority) returns (outcome: ExecutionOutcome)
      requires Valid() && authority.Unreleased() && exec == SourceChanging(r)
      modifies this, store, authority
      ensures Valid() && authority.Unreleased()
      ensures outcome == SourceChangePublished(r) || (outcome == LostAuthority && !authority.authorized)
      ensures outcome.SourceChangePublished? ==> r in store.runs && store.runs[r].status.SourceChanged?
    {
      hide Apply, Reachable, TerminateAccepts, Terminated, Step, Enabled;
      var authorized := Surroundings(authority);
      if !authorized { return LostAuthority; }
      T.TerminalIsAccepted(config, Now());
      ghost var w := Now();
      var at := ReadClock();
      var done := store.PublishTerminalFailure(r, SourceChanged, SOURCE_CHANGED_ERROR, at, authority);
      if !done.Done? { return LostAuthority; }
      P.PublicationEnabled(config, w, PublishSourceChanged(at));
      TerminalStep(config, w, PublishSourceChanged(at));
      Took(w, PublishSourceChanged(at));
      return SourceChangePublished(r);
    }

    /** The runner's publication under the same lock session: never rejected, never a replay. */
    method PublishReady(r: RunId, authority: IngestionExecutionAuthority) returns (outcome: ExecutionOutcome)
      requires Valid() && authority.Unreleased() && exec == Ready(r)
      modifies this, store, authority
      ensures Valid() && authority.Unreleased()
      ensures outcome == RunCompleted(r) || (outcome == LostAuthority && !authority.authorized)
      ensures outcome.RunCompleted? ==> r in store.runs && store.runs[r].status.Completed?
    {
      hide Apply, Reachable, PublishAccepts, Published, Step, Enabled;
      var authorized := Surroundings(authority);
      if !authorized { return LostAuthority; }
      ghost var w := Now();
      var at := ReadClock();
      T.ReadyIsAccepted(config, w);
      ReadyPublishes(config, w, at);
      var done := store.Publish(r, at, authority);
      if !done.Done? { return LostAuthority; }
      Took(w, PublishAccepted(at));
      return RunCompleted(r);
    }

    // ---- The end guard ----

    ghost method EndMarkObserved(r: RunId)
      requires Valid() && exec == Finalizing(r)
      modifies this`exec
      ensures Valid() && exec == HasEndMark(r, mark)
    {
      Moved(ReadEndMark);
    }

    method StoreEndMark(r: RunId, endMark: nat) returns (same: bool)
      requires Valid() && exec == HasEndMark(r, endMark)
      modifies this`exec, store`runs
      ensures Valid() && exec == if same then Ready(r) else SourceChanging(r)
    {
      hide Apply;
      KnownRun();
      ghost var w := Now();
      same := store.runs[r].startMark == Some(endMark);
      store.UpdateEndWatermark(r, endMark);
      Took(w, RecordEndMark);
    }

    method FinalizePublicationHandoff(r: RunId, authority: IngestionExecutionAuthority) returns (outcome: ExecutionOutcome)
      requires Valid() && authority.Unreleased() && exec == Finalizing(r)
      modifies this, store, authority
      ensures Valid() && authority.Unreleased() && Shows(outcome, r)
      ensures outcome.LostAuthority? ==> !authority.authorized
    {
      hide Apply, Reachable;
      var fails: bool := *;
      if fails { return RequestFailed; }
      var endMark := mark;
      EndMarkObserved(r);
      var authorized := Surroundings(authority);
      if !authorized { return LostAuthority; }
      var same := StoreEndMark(r, endMark);
      if same {
        outcome := PublishReady(r, authority);
      } else {
        outcome := PublishChanged(r, authority);
      }
    }

    /** The outcome names what the tables show of the run. */
    ghost predicate Shows(outcome: ExecutionOutcome, r: RunId)
      reads this, store
    {
      match outcome
      case ActiveElsewhere => false
      case LostAuthority => true
      case RequestFailed => true
      case RunCompleted(s) => s == r && r in store.runs && store.runs[r].status.Completed?
      case FailurePublished(s) => s == r && r in store.runs && store.runs[r].status.RunFailed?
      case SourceChangePublished(s) => s == r && r in store.runs && store.runs[r].status.SourceChanged?
    }

    // ---- Resume ----

    ghost method Resumed(r: RunId, a: Action, next: Exec)
      requires Valid() && exec == Resuming(r) && r in store.runs
      requires var run := store.runs[r];
               var k := FirstSpent(config, run.batches);
               if k < |run.batches| then a == ResumeFailed && next == Failing(r, ErrorOf(run.batches[k]))
               else if PersistedReady(run) then a == ResumeReady && next == Ready(r)
               else if run.startMark == Some(mark) then a == ResumeUnchanged && next == Batching(r)
               else a == ResumeChanged && next == SourceChanging(r)
      modifies this`exec
      ensures Valid() && exec == next
    {
      Moved(a);
    }

    /** The checks on a RUNNING run found on acquisition, in their order. */
    method DecideResume(r: RunId, authority: IngestionExecutionAuthority) returns (decision: ResumeDecision)
      requires Valid() && authority.Unreleased() && exec == Resuming(r)
      modifies this, store, authority
      ensures Valid() && authority.Unreleased()
      ensures decision.FailedForGood? ==> exec == Failing(r, decision.error)
      ensures decision.AlreadyReady? ==> exec == Ready(r)
      ensures decision.Unchanged? ==> exec == Batching(r)
      ensures decision.Changed? ==> exec == SourceChanging(r)
      ensures decision.NoAuthority? ==> !authority.authorized
    {
      hide Apply, Reachable, CountsAsExpected, PersistedReady, T.Unused, ErrorOf, Spent, FirstSpent;
      KnownRun();
      var batches := store.runs[r].batches;
      var spent := FirstSpent(config, batches);
      if spent < |batches| {
        Resumed(r, ResumeFailed, Failing(r, ErrorOf(batches[spent])));
        return FailedForGood(ErrorOf(batches[spent]));
      }
      if PersistedReady(store.runs[r]) {
        Resumed(r, ResumeReady, Ready(r));
        return AlreadyReady;
      }
      var fails: bool := *;
      if fails { return NoMetadata; }
      var authorized := Surroundings(authority);
      if !authorized { return NoAuthority; }
      if store.runs[r].startMark == Some(mark) {
        Resumed(r, ResumeUnchanged, Batching(r));
        return Unchanged;
      }
      Resumed(r, ResumeChanged, SourceChanging(r));
      return Changed;
    }

    // ---- One execution ----

    /**
     * One execution under the runner's lock scope. It ends without an outcome in the tables only
     * when another executor holds the lock, its own session is lost, or a metadata request fails;
     * otherwise the run it worked on is published, one way or the other. However it ends, it leaves
     * the lock free, by a release that aborts nothing.
     */
    method Execute() returns (outcome: ExecutionOutcome, authority: IngestionExecutionAuthority?)
      requires Valid()
      modifies this, store
      ensures Valid()
      ensures outcome.ActiveElsewhere? <==> old(held)
      ensures outcome.ActiveElsewhere? ==> authority == null && Now() == old(Now())
      ensures !outcome.ActiveElsewhere? ==> authority != null && !authority.authorized && !held && exec.Gone?
      ensures outcome.LostAuthority? ==> authority != null && authority.aborted
      ensures outcome.RunCompleted? || outcome.FailurePublished? || outcome.SourceChangePublished? ==>
                Shows(outcome, outcome.run)
    {
      hide Apply, Reachable;
      if held { return ActiveElsewhere, null; }
      authority := AcquireLock();
      outcome := ExecuteWithAuthority(authority);
      if outcome.RequestFailed? {
        // An error that surfaces without authority reads as lost authority.
        var authorized := authority.CheckAuthorized();
        if !authorized { outcome := LostAuthority; }
      }
      ReleaseLock(authority);
    }

    /** The runner's final release; a lost session has freed the lock already. */
    method ReleaseLock(authority: IngestionExecutionAuthority)
      requires Valid() && authority.Valid()
      modifies this`held, this`exec, authority`authorized
      ensures Valid() && exec.Gone? && !held && !authority.authorized && authority.aborted == old(authority.aborted)
    {
      hide Step, Enabled, Reachable;
      ghost var w := Now();
      P.LockStep(config, w);
      held := false;
      authority.Deactivate();
      Took(w, Stop);
    }

    method ExecuteWithAuthority(authority: IngestionExecutionAuthority) returns (outcome: ExecutionOutcome)
      requires Valid() && authority.Unreleased() && exec.Acquired?
      modifies this, store, authority
      ensures Valid() && authority.Unreleased() && !outcome.ActiveElsewhere?
      ensures outcome.LostAuthority? ==> !authority.authorized
      ensures outcome.RunCompleted? || outcome.FailurePublished? || outcome.SourceChangePublished? ==>
                Shows(outcome, outcome.run)
    {
      hide Apply, Reachable;
      var r := PickRun();
      if store.runs[r].status.Queued? {
        var started := InitializeAndStartRun(r, authority);
        if started.BatchLost? { return LostAuthority; }
        if started.BatchThrew? { return RequestFailed; }
        if started.BatchTerminal? {
          outcome := PublishFailed(r, started.error, authority);
          return;
        }
        outcome := FinishRun(r, authority);
      } else {
        outcome := ResumeRun(r, authority);
      }
    }

    /** The active run, or a new one. */
    method PickRun() returns (r: RunId)
      requires Valid() && exec.Acquired?
      modifies this`exec, store`runs
      ensures Valid() && r in store.runs
      ensures exec == if store.runs[r].status.Queued? then HasQueued(r) else Resuming(r)
    {
      hide Apply, Reachable;
      var active := store.FindActive();
      if active.Some? {
        Pick(active.value);
        return active.value;
      }
      r := CreateQueuedRun();
      KnownRun();
    }

    method ResumeRun(r: RunId, authority: IngestionExecutionAuthority) returns (outcome: ExecutionOutcome)
      requires Valid() && authority.Unreleased() && exec == Resuming(r)
      modifies this, store, authority
      ensures Valid() && authority.Unreleased() && Shows(outcome, r)
      ensures outcome.LostAuthority? ==> !authority.authorized
    {
      hide Apply, Reachable;
      var decision := DecideResume(r, authority);
      match decision {
        case NoAuthority => return LostAuthority;
        case NoMetadata => return RequestFailed;
        case FailedForGood(error) => outcome := PublishFailed(r, error, authority);
        case AlreadyReady => outcome := PublishReady(r, authority);
        case Changed => outcome := PublishChanged(r, authority);
        case Unchanged => outcome := FinishRun(r, authority);
      }
    }

    /** The batches, then the end guard and publication. */
    method FinishRun(r: RunId, authority: IngestionExecutionAuthority) returns (outcome: ExecutionOutcome)
      requires Valid() && authority.Unreleased() && exec == Batching(r)
      modifies this, store, authority
      ensures Valid() && authority.Unreleased() && Shows(outcome, r)
      ensures outcome.LostAuthority? ==> !authority.authorized
    {
      hide Apply, Reachable;
      var batches := ProcessPersistedBatches(r, authority);
      if batches.BatchLost? { return LostAuthority; }
      if batches.BatchTerminal? {
        outcome := PublishFailed(r, batches.error, authority);
        return;
      }
      outcome := FinalizePublicationHandoff(r, authority);
    }
  }

  /** Each page before the current one was full. */
  lemma OffsetKnown(c: Config, w: World)
    requires c.Ok() && Reachable(c, w) && w.exec.Fetching?
    ensures w.exec.offset == w.exec.pages * c.pageSize && w.exec.pages < c.maxPages
  {
    hide Reachable, P.WorldInv;
    P.ReachableInv(c, w);
    T.ExecOf(c, w);
  }

  lemma RunKnown(c: Config, w: World)
    requires c.Ok() && Reachable(c, w) && !w.exec.Gone? && !w.exec.Acquired?
    ensures w.exec.run in w.db.runs && w.db.runs[w.exec.run].Active()
    ensures var run := w.db.runs[w.exec.run];
            && (w.exec.HasQueued? || w.exec.HasSnapshot? || w.exec.HasScope? || w.exec.HasStartMark? ==>
                  run.status.Queued? && run.startMark.None?)
            && (w.exec.HasSnapshot? ==> !run.initialized)
            && (w.exec.HasScope? || w.exec.HasStartMark? ==> run.initialized)
            && (run.status.Running? ==> run.initialized && run.startMark.Some?)
            && (run.initialized ==> CountsAsExpected(run))
            && |run.batches| * c.maxAttempts >= T.Unused(run.batches, c.maxAttempts) >= 0
  {
    P.ReachableInv(c, w);
    hide Reachable, D.OneActive, D.LogOk, D.Replay, D.ActiveCovers, D.CheckedByLast, D.LastScanned, D.Chronology,
         D.CoverageOk, D.FromHistory, D.HistoryOk, D.CoversChecked, SortedSeq, Partition, P.RunProgress, CompleteAndClean,
         P.ExecFresh, P.RunsFresh, P.LogExact, T.Unused;
    assert D.RunOk(c, w.db.runs[w.exec.run]);
    T.UnusedInState(c, w, w.exec.run);
  }

  /** Transactions other than publications leave a running run running. */
  lemma StillRunning(c: Config, db: Db, op: Op, r: RunId)
    requires c.Ok() && r in db.runs && db.runs[r].status.Running? && !op.Publish? && !op.Terminate?
    ensures r in Apply(c, db, op).runs && Apply(c, db, op).runs[r].status.Running?
  {
    hide PublishAccepts, TerminateAccepts, Published, Terminated, HasActive, NewBatches, CoverageAfterBinChange,
         InitialCoverage;
  }

  lemma CompletedNow(c: Config, db: Db, r: RunId, b: nat, pages: nat, fetched: nat)
    requires c.Ok() && r in db.runs && b < |db.runs[r].batches|
    ensures var after := Apply(c, db, Op.CompleteBatch(r, b, pages, fetched));
            && r in after.runs && b < |after.runs[r].batches| && after.runs[r].batches[b].status.BatchCompleted?
            && after.runs[r].batches[b].pages == pages && after.runs[r].batches[b].rows == fetched
  {
  }

  lemma RunIsRunning(c: Config, w: World)
    requires c.Ok() && Reachable(c, w) && (w.exec.Batching? || w.exec.Resuming? || w.exec.Finalizing?)
    ensures w.exec.run in w.db.runs && w.db.runs[w.exec.run].status.Running?
  {
    hide Reachable, P.WorldInv, P.ExecOk;
    P.ReachableInv(c, w);
    T.ExecOf(c, w);
    ExecRunning(c, w);
  }

  lemma ExecRunning(c: Config, w: World)
    requires P.ExecOk(c, w) && (w.exec.Batching? || w.exec.Resuming? || w.exec.Finalizing?)
    ensures w.exec.run in w.db.runs && w.db.runs[w.exec.run].status.Running?
  {
  }

  lemma StageRowStep(c: Config, w: World)
    requires c.Ok() && w.exec.Staging? && w.exec.next < |w.exec.page| && w.exec.page[w.exec.next].row.Valid?
    ensures Enabled(c, w, StageRow)
    ensures var row := w.exec.page[w.exec.next];
            var op := Op.Stage(w.exec.run, row.id, row.row.violation);
            && OpOf(c, w, StageRow) == Some(op)
            && Step(c, w, StageRow) == w.(db := Apply(c, w.db, op), exec := w.exec.(next := w.exec.next + 1))
  {
    hide Apply;
  }

  lemma TerminalStep(c: Config, w: World, a: Action)
    requires c.Ok() && Enabled(c, w, a) && (a.PublishFailure? || a.PublishSourceChanged?)
    ensures a.PublishFailure? && TerminateAccepts(w.db, w.exec.run, RunFailed, w.exec.error) ==>
              var after := Terminated(w.db, w.exec.run, RunFailed, w.exec.error, a.at);
              && Step(c, w, a) == w.(db := after, exec := Gone)
              && w.exec.run in after.runs && after.runs[w.exec.run].status.RunFailed?
    ensures a.PublishSourceChanged? && TerminateAccepts(w.db, w.exec.run, SourceChanged, SOURCE_CHANGED_ERROR) ==>
              var after := Terminated(w.db, w.exec.run, SourceChanged, SOURCE_CHANGED_ERROR, a.at);
              && Step(c, w, a) == w.(db := after, exec := Gone)
              && w.exec.run in after.runs && after.runs[w.exec.run].status.SourceChanged?
  {
    hide Step, Enabled, UpsertFailed, OneVersionEach, PublishAccepts, Published, HasActive, InitializedRun;
    P.PublicationStep(c, w, a);
  }

  /** Publishing a ready run is a step of the protocol that completes it. */
  lemma ReadyPublishes(c: Config, w: World, at: nat)
    requires c.Ok() && w.exec.Ready? && PublishAccepts(w.db, w.exec.run)
    ensures w.exec.run in w.db.runs && !w.db.runs[w.exec.run].status.Completed?
    ensures Enabled(c, w, PublishAccepted(at))
    ensures var after := Published(w.db, w.exec.run, at);
            && Step(c, w, PublishAccepted(at)) == w.(db := after, exec := Gone)
            && w.exec.run in after.runs && after.runs[w.exec.run].status.Completed?
  {
    hide PublishAccepts, Published, FirstOpen, FirstSpent, PersistedReady, HasActive, LaterThanAll, CountsAsExpected,
         BatchRows, Slice, LiveSnapshot, Apply;
    NotYetCompleted(w.db, w.exec.run);
    T.AcceptedStep(c, w, at);
    T.PublishedRun(w.db, w.exec.run, at);
  }

  lemma NotYetCompleted(db: Db, r: RunId)
    requires PublishAccepts(db, r)
    ensures r in db.runs && !db.runs[r].status.Completed?
  {
    hide CoverageChecks;
  }
}
