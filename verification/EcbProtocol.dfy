/**
 * One executor running the ingestion protocol against the tables, while the source and the
 * registered BIN sets change under it and its lock may be lost between any two steps.
 */
module EcbProtocol {
  import opened Prelude
  import opened EcbTables
  import opened EcbTransactions

  // ---- Pages ----

  datatype PageRow = PageRow(id: SourceId, row: SourceRow)

  function RowsOn(source: Source, order: seq<SourceId>, bins: set<Bin>): (rows: seq<PageRow>)
    ensures |rows| <= |order|
  {
    if order == [] then []
    else
      var rest := RowsOn(source, order[1..], bins);
      if order[0] in source.rows && source.rows[order[0]].OnBin() in bins
      then [PageRow(order[0], source.rows[order[0]])] + rest
      else rest
  }

  /** All rows the source serves for a batch, in its order. */
  function BatchRows(source: Source, bins: seq<Bin>): seq<PageRow> {
    RowsOn(source, source.order, ToSet(bins))
  }

  /** One answer: at most `limit` rows from `offset` on. */
  function Slice(rows: seq<PageRow>, offset: nat, limit: nat): (page: seq<PageRow>)
    ensures |page| <= limit
    ensures offset <= |rows| ==>
              && offset + |page| <= |rows|
              && page == rows[offset..offset + |page|]
              && (|page| < limit ==> offset + |page| == |rows|)
  {
    if |rows| <= offset then []
    else if |rows| <= offset + limit then rows[offset..]
    else rows[offset..offset + limit]
  }

  // ---- States ----

  /** Where the latest executor stands between two transactions, with what it holds in memory. */
  datatype Exec =
    | Gone
    | Acquired
    | HasQueued(run: RunId)
    | HasSnapshot(run: RunId, rows: set<SnapshotRow>)
    | HasScope(run: RunId)
    | HasStartMark(run: RunId, mark: nat)
    | Resuming(run: RunId)
    | Batching(run: RunId)
    | Counted(run: RunId, batch: nat)
    | Fetching(run: RunId, batch: nat, offset: nat, pages: nat)
    | Staging(run: RunId, batch: nat, offset: nat, pages: nat, page: seq<PageRow>, next: nat)
    | PageStored(run: RunId, batch: nat, offset: nat, pages: nat, count: nat)
    | Finalizing(run: RunId)
    | HasEndMark(run: RunId, mark: nat)
    | Ready(run: RunId)
    | Failing(run: RunId, error: string)
    | SourceChanging(run: RunId)

  /** `archive` keeps every source state by its mark; it is a history variable. */
  datatype World = World(
    db: Db,
    source: Source,
    mark: nat,
    archive: map<nat, Source>,
    exec: Exec,
    held: bool)

  datatype Action =
    // The executor.
    | Acquire
    | CreateRun(run: RunId)
    | PickQueued(run: RunId)
    | PickRunning(run: RunId)
    | ReadSnapshot
    | SkipInitialization
    | StoreSnapshot
    | ReadStartMark
    | StartMarkUnavailable
    | StartRun(at: nat)
    | ResumeFailed
    | ResumeReady
    | ResumeUnchanged
    | ResumeChanged
    | BeginAttempt
    | AttemptsExhausted
    | BudgetSpent
    | AllCompleted
    | MarkRunning
    | FetchPage
    | StageRow
    | StorePage
    | FailAttempt(error: string)
    | FinishBatch
    | PageLimitReached
    | NextPage
    | ReadEndMark
    | RecordEndMark
    | PublishAccepted(at: nat)
    | PublishFailure(at: nat)
    | PublishSourceChanged(at: nat)
    // Its surroundings.
    | LoseLock
    | Stop
    | ChangeSource(to: Source, mark: nat)
    | Register(property: PropertyId, bins: set<Bin>)
    | ChangeBins(property: PropertyId, bins: set<Bin>)

  const START_MARK_ERROR := "START_WATERMARK_FETCH_FAILED"
  const PAGE_LIMIT_ERROR := "FAILED_PAGE_LIMIT"
  const BUDGET_ERROR := "Batch attempt budget exhausted"
  const BATCH_ERROR := "BATCH_TERMINAL_FAILURE"

  /** Index of the first batch that is not COMPLETED; the number of batches when there is none. */
  function FirstOpen(batches: seq<Batch>): (k: nat)
    ensures k <= |batches|
    ensures forall i :: 0 <= i < k ==> batches[i].status.BatchCompleted?
    ensures k < |batches| ==> !batches[k].status.BatchCompleted?
  {
    if batches == [] || !batches[0].status.BatchCompleted? then 0 else 1 + FirstOpen(batches[1..])
  }

  predicate Spent(c: Config, batch: Batch) {
    batch.status.BatchFailed? && c.maxAttempts <= batch.attempts
  }

  /** Index of the first batch that failed for good; the number of batches when there is none. */
  function FirstSpent(c: Config, batches: seq<Batch>): (k: nat)
    ensures k <= |batches|
    ensures forall i :: 0 <= i < k ==> !Spent(c, batches[i])
    ensures k < |batches| ==> Spent(c, batches[k])
  {
    if batches == [] || Spent(c, batches[0]) then 0 else 1 + FirstSpent(c, batches[1..])
  }

  function ErrorOf(batch: Batch): string {
    if batch.lastError.Some? then batch.lastError.value else BATCH_ERROR
  }

  /** The persisted run already carries everything publication needs. */
  predicate PersistedReady(run: Run) {
    && run.initialized
    && run.expected.Some?
    && MarksAgree(run)
    && |run.batches| == run.expected.value.batches
    && CompleteAndClean(run.batches)
  }

  /** The recount that precedes the start mark. */
  predicate CountsAsExpected(run: Run) {
    run.expected == Some(Counts(|run.snapshot|, |run.Scanned()|, |run.batches|))
  }

  predicate ExecRun(w: World) {
    !w.exec.Gone? && !w.exec.Acquired? && w.exec.run in w.db.runs
  }

  function TheRun(w: World): Run
    requires ExecRun(w)
  {
    w.db.runs[w.exec.run]
  }

  predicate ExecBatch(w: World) {
    && (w.exec.Counted? || w.exec.Fetching? || w.exec.Staging? || w.exec.PageStored?)
    && w.exec.run in w.db.runs
    && w.exec.batch < |w.db.runs[w.exec.run].batches|
  }

  function TheBatch(w: World): Batch
    requires ExecBatch(w)
  {
    w.db.runs[w.exec.run].batches[w.exec.batch]
  }

  /** Start instants rise from run to run. */
  ghost predicate LaterThanAll(runs: map<RunId, Run>, at: nat) {
    forall s :: s in runs && runs[s].startedAt.Some? ==> runs[s].startedAt.value < at
  }

  // ---- When a step can be taken ----

  ghost predicate Enabled(c: Config, w: World, a: Action) {
    match a
    case Acquire => !w.held
    case CreateRun(r) => w.exec.Acquired? && !HasActive(w.db) && r !in w.db.runs
    case PickQueued(r) => w.exec.Acquired? && r in w.db.runs && w.db.runs[r].status.Queued?
    case PickRunning(r) => w.exec.Acquired? && r in w.db.runs && w.db.runs[r].status.Running?
    case ReadSnapshot => w.exec.HasQueued? && ExecRun(w) && !TheRun(w).initialized
    case SkipInitialization => w.exec.HasQueued? && ExecRun(w) && TheRun(w).initialized
    case StoreSnapshot => w.exec.HasSnapshot?
    case ReadStartMark => w.exec.HasScope? && ExecRun(w) && CountsAsExpected(TheRun(w))
    case StartMarkUnavailable => w.exec.HasScope? && ExecRun(w) && CountsAsExpected(TheRun(w))
    case StartRun(at) => w.exec.HasStartMark? && LaterThanAll(w.db.runs, at)
    case ResumeFailed =>
      w.exec.Resuming? && ExecRun(w) && FirstSpent(c, TheRun(w).batches) < |TheRun(w).batches|
    case ResumeReady =>
      && w.exec.Resuming? && ExecRun(w)
      && FirstSpent(c, TheRun(w).batches) == |TheRun(w).batches|
      && PersistedReady(TheRun(w))
    case ResumeUnchanged =>
      && w.exec.Resuming? && ExecRun(w)
      && FirstSpent(c, TheRun(w).batches) == |TheRun(w).batches|
      && !PersistedReady(TheRun(w))
      && TheRun(w).startMark == Some(w.mark)
    case ResumeChanged =>
      && w.exec.Resuming? && ExecRun(w)
      && FirstSpent(c, TheRun(w).batches) == |TheRun(w).batches|
      && !PersistedReady(TheRun(w))
      && TheRun(w).startMark != Some(w.mark)
    case BeginAttempt =>
      && w.exec.Batching? && ExecRun(w)
      && var k := FirstOpen(TheRun(w).batches);
      && k < |TheRun(w).batches|
      && TheRun(w).batches[k].attempts < c.maxAttempts
    case AttemptsExhausted =>
      && w.exec.Batching? && ExecRun(w)
      && var k := FirstOpen(TheRun(w).batches);
      && k < |TheRun(w).batches|
      && Spent(c, TheRun(w).batches[k])
    case BudgetSpent =>
      && w.exec.Batching? && ExecRun(w)
      && var k := FirstOpen(TheRun(w).batches);
      && k < |TheRun(w).batches|
      && !Spent(c, TheRun(w).batches[k])
      && c.maxAttempts <= TheRun(w).batches[k].attempts
    case AllCompleted =>
      w.exec.Batching? && ExecRun(w) && FirstOpen(TheRun(w).batches) == |TheRun(w).batches|
    case MarkRunning => w.exec.Counted?
    case FetchPage => w.exec.Fetching? && ExecBatch(w)
    case StageRow =>
      w.exec.Staging? && w.exec.next < |w.exec.page| && w.exec.page[w.exec.next].row.Valid?
    case StorePage => w.exec.Staging? && w.exec.next == |w.exec.page|
    case FailAttempt(error) =>
      (w.exec.Fetching? || w.exec.Staging? || w.exec.PageStored?) && error != ""
    case FinishBatch => w.exec.PageStored? && ExecBatch(w) && w.exec.count < TheBatch(w).pageSize
    case PageLimitReached =>
      w.exec.PageStored? && ExecBatch(w) && TheBatch(w).pageSize <= w.exec.count && c.maxPages <= w.exec.pages
    case NextPage =>
      w.exec.PageStored? && ExecBatch(w) && TheBatch(w).pageSize <= w.exec.count && w.exec.pages < c.maxPages
    case ReadEndMark => w.exec.Finalizing?
    case RecordEndMark => w.exec.HasEndMark? && ExecRun(w)
    case PublishAccepted(_) => w.exec.Ready?
    case PublishFailure(_) => w.exec.Failing?
    case PublishSourceChanged(_) => w.exec.SourceChanging?
    case LoseLock => true
    case Stop => true
    case ChangeSource(to, mark) => to.Ok() && w.mark < mark
    case Register(_, _) => true
    case ChangeBins(_, _) => true
  }

  // ---- What a step does ----

  function Wrote(c: Config, w: World, op: Op, exec: Exec): World
    requires c.Ok()
  {
    w.(db := Apply(c, w.db, op), exec := exec)
  }

  function Step(c: Config, w: World, a: Action): World
    requires c.Ok() && Enabled(c, w, a)
  {
    match a
    case Acquire => w.(exec := Acquired, held := true)
    case CreateRun(r) => Wrote(c, w, Op.CreateQueued(r), HasQueued(r))
    case PickQueued(r) => w.(exec := HasQueued(r))
    case PickRunning(r) => w.(exec := Resuming(r))
    case ReadSnapshot => w.(exec := HasSnapshot(w.exec.run, LiveSnapshot(w.db.properties)))
    case SkipInitialization => w.(exec := HasScope(w.exec.run))
    case StoreSnapshot => Wrote(c, w, Op.Initialize(w.exec.run, w.exec.rows), HasScope(w.exec.run))
    case ReadStartMark => w.(exec := HasStartMark(w.exec.run, w.mark))
    case StartMarkUnavailable => w.(exec := Failing(w.exec.run, START_MARK_ERROR))
    case StartRun(at) => Wrote(c, w, Op.Start(w.exec.run, w.exec.mark, at), Batching(w.exec.run))
    case ResumeFailed =>
      w.(exec := Failing(w.exec.run, ErrorOf(TheRun(w).batches[FirstSpent(c, TheRun(w).batches)])))
    case ResumeReady => w.(exec := Ready(w.exec.run))
    case ResumeUnchanged => w.(exec := Batching(w.exec.run))
    case ResumeChanged => w.(exec := SourceChanging(w.exec.run))
    case BeginAttempt =>
      var k := FirstOpen(TheRun(w).batches);
      Wrote(c, w, Op.IncrementAttempt(w.exec.run, k), Counted(w.exec.run, k))
    case AttemptsExhausted =>
      w.(exec := Failing(w.exec.run, ErrorOf(TheRun(w).batches[FirstOpen(TheRun(w).batches)])))
    case BudgetSpent =>
      Wrote(c, w, Op.FailBatch(w.exec.run, FirstOpen(TheRun(w).batches), BUDGET_ERROR),
            Failing(w.exec.run, BUDGET_ERROR))
    case AllCompleted => w.(exec := Finalizing(w.exec.run))
    case MarkRunning =>
      Wrote(c, w, Op.MarkBatchRunning(w.exec.run, w.exec.batch), Fetching(w.exec.run, w.exec.batch, 0, 0))
    case FetchPage =>
      w.(exec := Staging(w.exec.run, w.exec.batch, w.exec.offset, w.exec.pages,
                         Slice(BatchRows(w.source, TheBatch(w).bins), w.exec.offset, TheBatch(w).pageSize), 0))
    case StageRow =>
      var row := w.exec.page[w.exec.next];
      Wrote(c, w, Op.Stage(w.exec.run, row.id, row.row.violation), w.exec.(next := w.exec.next + 1))
    case StorePage =>
      var count := |w.exec.page|;
      Wrote(c, w, Op.StoreProgress(w.exec.run, w.exec.batch, w.exec.pages + 1, w.exec.offset + count),
            PageStored(w.exec.run, w.exec.batch, w.exec.offset, w.exec.pages + 1, count))
    case FailAttempt(error) =>
      Wrote(c, w, Op.FailBatch(w.exec.run, w.exec.batch, error), Batching(w.exec.run))
    case FinishBatch =>
      Wrote(c, w, Op.CompleteBatch(w.exec.run, w.exec.batch, w.exec.pages, w.exec.offset + w.exec.count),
            Batching(w.exec.run))
    case PageLimitReached =>
      Wrote(c, w, Op.FailBatch(w.exec.run, w.exec.batch, PAGE_LIMIT_ERROR), Failing(w.exec.run, PAGE_LIMIT_ERROR))
    case NextPage =>
      w.(exec := Fetching(w.exec.run, w.exec.batch, w.exec.offset + w.exec.count, w.exec.pages))
    case ReadEndMark => w.(exec := HasEndMark(w.exec.run, w.mark))
    case RecordEndMark =>
      Wrote(c, w, Op.StoreEndMark(w.exec.run, w.exec.mark),
            if TheRun(w).startMark == Some(w.exec.mark) then Ready(w.exec.run) else SourceChanging(w.exec.run))
    case PublishAccepted(at) => Wrote(c, w, Op.Publish(w.exec.run, at), Gone)
    case PublishFailure(at) => Wrote(c, w, Op.Terminate(w.exec.run, RunFailed, w.exec.error, at), Gone)
    case PublishSourceChanged(at) =>
      Wrote(c, w, Op.Terminate(w.exec.run, SourceChanged, SOURCE_CHANGED_ERROR, at), Gone)
    // A lost lock frees the lock at once; the executor may still write until the next one acquires.
    case LoseLock => w.(held := false)
    case Stop => w.(exec := Gone, held := false)
    case ChangeSource(to, mark) => w.(source := to, mark := mark, archive := w.archive[mark := to])
    case Register(p, bins) => w.(db := Apply(c, w.db, RegisterProperty(p, bins)))
    case ChangeBins(p, bins) => w.(db := Apply(c, w.db, ApplyBins(p, bins)))
  }

  /** The transaction a step issues, if it issues one. */
  function OpOf(c: Config, w: World, a: Action): Option<Op>
    requires c.Ok() && Enabled(c, w, a)
  {
    match a
    case CreateRun(r) => Some(Op.CreateQueued(r))
    case StoreSnapshot => Some(Op.Initialize(w.exec.run, w.exec.rows))
    case StartRun(at) => Some(Op.Start(w.exec.run, w.exec.mark, at))
    case BeginAttempt => Some(Op.IncrementAttempt(w.exec.run, FirstOpen(TheRun(w).batches)))
    case BudgetSpent => Some(Op.FailBatch(w.exec.run, FirstOpen(TheRun(w).batches), BUDGET_ERROR))
    case MarkRunning => Some(Op.MarkBatchRunning(w.exec.run, w.exec.batch))
    case StageRow => Some(Op.Stage(w.exec.run, w.exec.page[w.exec.next].id, w.exec.page[w.exec.next].row.violation))
    case StorePage =>
      Some(Op.StoreProgress(w.exec.run, w.exec.batch, w.exec.pages + 1, w.exec.offset + |w.exec.page|))
    case FailAttempt(error) => Some(Op.FailBatch(w.exec.run, w.exec.batch, error))
    case FinishBatch =>
      Some(Op.CompleteBatch(w.exec.run, w.exec.batch, w.exec.pages, w.exec.offset + w.exec.count))
    case PageLimitReached => Some(Op.FailBatch(w.exec.run, w.exec.batch, PAGE_LIMIT_ERROR))
    case RecordEndMark => Some(Op.StoreEndMark(w.exec.run, w.exec.mark))
    case PublishAccepted(at) => Some(Op.Publish(w.exec.run, at))
    case PublishFailure(at) => Some(Op.Terminate(w.exec.run, RunFailed, w.exec.error, at))
    case PublishSourceChanged(at) => Some(Op.Terminate(w.exec.run, SourceChanged, SOURCE_CHANGED_ERROR, at))
    case Register(p, bins) => Some(RegisterProperty(p, bins))
    case ChangeBins(p, bins) => Some(ApplyBins(p, bins))
    case _ => None
  }

  function ApplyMaybe(c: Config, db: Db, op: Option<Op>): Db
    requires c.Ok()
  {
    if op.Some? then Apply(c, db, op.value) else db
  }

  // ---- Runs of the whole system ----

  ghost predicate Initial(w: World) {
    && w.db == EMPTY_DB
    && w.source.Ok()
    && w.archive == map[w.mark := w.source]
    && w.exec.Gone?
    && !w.held
  }

  ghost predicate Executes(c: Config, trace: seq<World>, actions: seq<Action>)
    requires c.Ok()
  {
    && |trace| == |actions| + 1
    && Initial(trace[0])
    && forall i :: 0 <= i < |actions| ==>
         Enabled(c, trace[i], actions[i]) && trace[i + 1] == Step(c, trace[i], actions[i])
  }

  ghost predicate Reachable(c: Config, w: World)
    requires c.Ok()
  {
    exists trace, actions :: Executes(c, trace, actions) && trace[|trace| - 1] == w
  }
}
