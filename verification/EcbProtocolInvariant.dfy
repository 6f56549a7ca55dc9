/** What every step of the protocol keeps, in every interleaving with its surroundings. */
module EcbProtocolInvariant {
  import opened Prelude
  import opened EcbTables
  import opened EcbTransactions
  import opened EcbDatabaseInvariant
  import opened EcbProtocol

  // ---- Invariant ----

  ghost predicate SourcesOk(w: World) {
    && w.mark in w.archive
    && w.archive[w.mark] == w.source
    && forall m :: m in w.archive ==> m <= w.mark && w.archive[m].Ok()
  }

  ghost predicate BatchOk(c: Config, batch: Batch) {
    && batch.attempts <= c.maxAttempts
    && batch.pageSize == c.pageSize
    && batch.lastError != Some("")
    && (batch.status.BatchCompleted? ==> batch.completedAt && batch.lastError.None?)
  }

  ghost predicate BatchesOk(c: Config, batches: seq<Batch>) {
    && (forall i :: 0 <= i < |batches| ==> BatchOk(c, batches[i]))
    && (forall i, j :: 0 <= i < j < |batches| && batches[j].status.BatchCompleted? ==> batches[i].status.BatchCompleted?)
  }

  ghost predicate NoneCompleted(batches: seq<Batch>) {
    forall i :: 0 <= i < |batches| ==> !batches[i].status.BatchCompleted?
  }

  ghost predicate RunProgress(c: Config, run: Run, archive: map<nat, Source>, mark: nat) {
    && BatchesOk(c, run.batches)
    && (run.startMark.None? ==> run.staging == map[] && run.endMark.None? && NoneCompleted(run.batches))
    && (run.startMark.Some? ==> run.startMark.value in archive)
    && (run.endMark.Some? ==>
          && run.startMark.Some?
          && run.startMark.value <= run.endMark.value <= mark
          && CompleteAndClean(run.batches))
  }

  ghost predicate RunsProgress(c: Config, w: World) {
    forall r :: r in w.db.runs ==> RunProgress(c, w.db.runs[r], w.archive, w.mark)
  }

  /** Under way, with no end mark recorded. */
  ghost predicate Open(run: Run) {
    run.status.Running? && run.endMark.None?
  }

  /** Batch `b` is the one being worked on: all before it are done and it is not. */
  ghost predicate AtBatch(batches: seq<Batch>, b: nat) {
    && b < |batches|
    && !batches[b].status.BatchCompleted?
    && forall i :: 0 <= i < b ==> batches[i].status.BatchCompleted?
  }

  /** What holds of the executor's run, and of what it keeps in memory, at each point. */
  ghost predicate ExecOk(c: Config, w: World) {
    match w.exec
    case Gone => true
    case Acquired => true
    case HasQueued(r) => r in w.db.runs && w.db.runs[r].status.Queued?
    case HasSnapshot(r, rows) =>
      && r in w.db.runs && w.db.runs[r].status.Queued? && !w.db.runs[r].initialized
      && FromHistory(w.db.history, rows)
      && CoversChecked(w.db.properties, w.db.coverage, rows)
    case HasScope(r) => r in w.db.runs && w.db.runs[r].status.Queued? && w.db.runs[r].initialized
    case HasStartMark(r, m) =>
      r in w.db.runs && w.db.runs[r].status.Queued? && w.db.runs[r].initialized && m in w.archive
    case Resuming(r) => r in w.db.runs && w.db.runs[r].status.Running?
    case Batching(r) => r in w.db.runs && Open(w.db.runs[r])
    case Counted(r, b) => r in w.db.runs && Open(w.db.runs[r]) && AtBatch(w.db.runs[r].batches, b)
    case Fetching(r, b, offset, pages) =>
      && r in w.db.runs && Open(w.db.runs[r]) && AtBatch(w.db.runs[r].batches, b)
      && offset == pages * c.pageSize && pages < c.maxPages
    case Staging(r, b, offset, pages, page, next) =>
      && r in w.db.runs && Open(w.db.runs[r]) && AtBatch(w.db.runs[r].batches, b)
      && offset == pages * c.pageSize && pages < c.maxPages && next <= |page| <= c.pageSize
    case PageStored(r, b, offset, pages, count) =>
      && r in w.db.runs && Open(w.db.runs[r]) && AtBatch(w.db.runs[r].batches, b)
      && 0 < pages <= c.maxPages && offset == (pages - 1) * c.pageSize && count <= c.pageSize
    case Finalizing(r) => r in w.db.runs && Open(w.db.runs[r]) && CompleteAndClean(w.db.runs[r].batches)
    case HasEndMark(r, m) =>
      && r in w.db.runs && Open(w.db.runs[r]) && CompleteAndClean(w.db.runs[r].batches)
      && w.db.runs[r].startMark.Some? && w.db.runs[r].startMark.value <= m <= w.mark
    case Ready(r) =>
      && r in w.db.runs && w.db.runs[r].status.Running?
      && MarksAgree(w.db.runs[r]) && CompleteAndClean(w.db.runs[r].batches)
    case Failing(r, error) => r in w.db.runs && w.db.runs[r].Active() && error != ""
    case SourceChanging(r) => r in w.db.runs && w.db.runs[r].status.Running?
  }

  // ---- Staging against the source ----

  ghost predicate AllStaged(rows: seq<PageRow>, staging: map<SourceId, Violation>) {
    forall i :: 0 <= i < |rows| ==> rows[i].row.Valid? && rows[i].id in staging
  }

  /** Every staged row is a row of that source state, in scope. */
  ghost predicate StagedFrom(source: Source, run: Run) {
    forall id :: id in run.staging ==>
      && id in source.rows
      && source.rows[id] == Valid(run.staging[id])
      && run.staging[id].bin in run.Scanned()
  }

  /** All the rows the source serves for the batch are staged, and the batch counted them. */
  ghost predicate CoveredBatch(source: Source, staging: map<SourceId, Violation>, batch: Batch) {
    var rows := BatchRows(source, batch.bins);
    && AllStaged(rows, staging)
    && batch.rows == |rows|
    && (0 < batch.pageSize ==> batch.pages == |rows| / batch.pageSize + 1)
  }

  ghost predicate CompletedCovered(source: Source, run: Run) {
    forall i :: 0 <= i < |run.batches| && run.batches[i].status.BatchCompleted? ==>
      CoveredBatch(source, run.staging, run.batches[i])
  }

  ghost predicate RunFresh(source: Source, run: Run) {
    StagedFrom(source, run) && CompletedCovered(source, run)
  }

  /** The run's start mark is the current one, or was still the current one when its end was read. */
  ghost predicate StillAtStart(run: Run, mark: nat, endRead: bool) {
    run.startMark.Some? && (run.startMark == Some(mark) || run.endMark == run.startMark || endRead)
  }

  /** The executor read the run's start mark again as its end mark. */
  ghost predicate EndRead(exec: Exec, r: RunId, run: Run) {
    exec.HasEndMark? && exec.run == r && Some(exec.mark) == run.startMark
  }

  function SourceAt(archive: map<nat, Source>, mark: Option<nat>): Source {
    if mark.Some? && mark.value in archive then archive[mark.value] else Source(map[], [])
  }

  ghost predicate RunsFresh(w: World) {
    forall r :: r in w.db.runs && StillAtStart(w.db.runs[r], w.mark, EndRead(w.exec, r, w.db.runs[r])) ==>
      RunFresh(SourceAt(w.archive, w.db.runs[r].startMark), w.db.runs[r])
  }

  /** How far the current attempt has staged the batch, as long as the source has not moved. */
  ghost predicate AttemptFresh(exec: Exec, rows: seq<PageRow>, pageSize: nat, staging: map<SourceId, Violation>) {
    match exec
    case Fetching(_, _, offset, _) => offset <= |rows| && AllStaged(rows[..offset], staging)
    case Staging(_, _, offset, _, page, next) =>
      && offset <= |rows| && AllStaged(rows[..offset], staging)
      && page == Slice(rows, offset, pageSize)
      && next <= |page| && AllStaged(page[..next], staging)
    case PageStored(_, _, offset, _, count) =>
      && offset + count <= |rows| && AllStaged(rows[..offset + count], staging)
      && (count < pageSize ==> offset + count == |rows|)
    case _ => true
  }

  ghost predicate ExecFresh(c: Config, w: World) {
    ExecBatch(w) && TheRun(w).startMark == Some(w.mark) ==>
      AttemptFresh(w.exec, BatchRows(w.source, TheBatch(w).bins), c.pageSize, TheRun(w).staging)
  }

  /** Each acceptance staged exactly the normalized source rows of its scope at its mark. */
  ghost predicate Exact(archive: map<nat, Source>, a: Acceptance) {
    && a.mark in archive
    && AllValidOn(archive[a.mark], a.scanned)
    && a.staged == NormalizedOn(archive[a.mark], a.scanned)
  }

  ghost predicate LogExact(archive: map<nat, Source>, accepted: seq<Acceptance>) {
    forall i :: 0 <= i < |accepted| ==> Exact(archive, accepted[i])
  }

  /** What the tables alone do not show. */
  ghost predicate ProtocolInv(c: Config, w: World) {
    && SourcesOk(w)
    && RunsProgress(c, w)
    && ExecOk(c, w)
    && RunsFresh(w)
    && ExecFresh(c, w)
    && LogExact(w.archive, w.db.accepted)
  }

  ghost predicate WorldInv(c: Config, w: World)
    requires c.Ok()
  {
    DbInv(c, w.db) && ProtocolInv(c, w)
  }

  lemma InitialInv(c: Config, w: World)
    requires c.Ok() && Initial(w)
    ensures WorldInv(c, w)
  {
    EmptyDbInv(c);
  }

  // ---- Batch definitions ----

  lemma {:induction false} PartitionFlattens(bins: seq<Bin>, size: nat)
    requires 0 < size
    ensures Flatten(Partition(bins, size)) == bins
    decreases |bins|
  {
    if bins == [] {
    } else if |bins| <= size {
      assert Flatten([bins]) == bins + Flatten([]);
    } else {
      PartitionFlattens(bins[size..], size);
      var rest := Partition(bins[size..], size);
      assert ([bins[..size]] + rest)[1..] == rest;
      assert bins[..size] + bins[size..] == bins;
    }
  }

  /** A BIN is in scope exactly when some batch definition lists it. */
  lemma ScannedInBatches(c: Config, run: Run, b: Bin)
    requires c.Ok() && RunOk(c, run) && run.initialized
    ensures b in run.Scanned() <==> exists i :: 0 <= i < |run.batches| && b in run.batches[i].bins
  {
    var defs := run.Definitions();
    PartitionFlattens(SortedSeq(run.Scanned()), c.batchSize);
    FlattenMembers(defs, b);
    if i :| 0 <= i < |defs| && b in defs[i] { assert b in run.batches[i].bins; }
    if i :| 0 <= i < |run.batches| && b in run.batches[i].bins { assert b in defs[i]; }
  }

  // ---- Pages ----

  lemma {:induction false} RowsOnMembers(source: Source, order: seq<SourceId>, bins: set<Bin>, row: PageRow)
    ensures row in RowsOn(source, order, bins) <==>
              row.id in order && row.id in source.rows && source.rows[row.id] == row.row && row.row.OnBin() in bins
  {
    if order != [] {
      RowsOnMembers(source, order[1..], bins, row);
      assert order == [order[0]] + order[1..];
    }
  }

  lemma BatchRowsMembers(source: Source, bins: seq<Bin>, row: PageRow)
    requires source.Ok()
    ensures row in BatchRows(source, bins) <==>
              row.id in source.rows && source.rows[row.id] == row.row && row.row.OnBin() in bins
  {
    RowsOnMembers(source, source.order, ToSet(bins), row);
  }

  // ---- Writes to one run ----

  /** A write to one run leaves what is known of the others. */
  lemma OneRunWritten(c: Config, w: World, after: World, r: RunId, run: Run)
    requires RunsProgress(c, w) && RunsFresh(w)
    requires after.db == WithRun(w.db, r, run)
    requires after.archive == w.archive && after.mark == w.mark
    requires RunProgress(c, run, w.archive, w.mark)
    requires !after.exec.HasEndMark?
    requires StillAtStart(run, w.mark, false) ==> RunFresh(SourceAt(w.archive, run.startMark), run)
    ensures RunsProgress(c, after) && RunsFresh(after)
  {
    hide RunProgress, RunFresh, SourceAt;
    forall s | s in after.db.runs && StillAtStart(after.db.runs[s], after.mark, EndRead(after.exec, s, after.db.runs[s]))
      ensures RunFresh(SourceAt(after.archive, after.db.runs[s].startMark), after.db.runs[s])
    {
    }
  }

  /** A move of the executor alone, other than reading the end mark. */
  lemma ExecMoved(c: Config, w: World, after: World)
    requires RunsProgress(c, w) && RunsFresh(w)
    requires after == w.(exec := after.exec, held := after.held)
    requires after.exec.HasEndMark? ==> after.exec == w.exec
    ensures RunsProgress(c, after) && RunsFresh(after)
  {
    hide RunProgress, RunFresh, SourceAt;
    forall s | s in after.db.runs && StillAtStart(after.db.runs[s], after.mark, EndRead(after.exec, s, after.db.runs[s]))
      ensures RunFresh(SourceAt(after.archive, after.db.runs[s].startMark), after.db.runs[s])
    {
    }
  }

  // ---- What single steps do, apart from the transaction system ----

  lemma BudgetSpentStep(c: Config, w: World)
    requires c.Ok() && Enabled(c, w, BudgetSpent)
    ensures w.exec.Batching? && ExecRun(w) && FirstOpen(TheRun(w).batches) < |TheRun(w).batches|
    ensures Step(c, w, BudgetSpent)
            == Wrote(c, w, Op.FailBatch(w.exec.run, FirstOpen(TheRun(w).batches), BUDGET_ERROR),
                     Failing(w.exec.run, BUDGET_ERROR))
  {
    hide Apply, HasActive, FirstSpent, PersistedReady, CountsAsExpected, LaterThanAll, LiveSnapshot, BatchRows, Slice;
  }

  lemma BeginAttemptStep(c: Config, w: World)
    requires c.Ok() && Enabled(c, w, BeginAttempt)
    ensures w.exec.Batching? && ExecRun(w)
    ensures var k := FirstOpen(TheRun(w).batches);
            && k < |TheRun(w).batches| && TheRun(w).batches[k].attempts < c.maxAttempts
            && Step(c, w, BeginAttempt) == Wrote(c, w, Op.IncrementAttempt(w.exec.run, k), Counted(w.exec.run, k))
  {
    hide Apply, HasActive, FirstSpent, PersistedReady, CountsAsExpected, LaterThanAll, LiveSnapshot, BatchRows, Slice;
  }

  lemma FailBatchStep(c: Config, w: World, a: Action)
    requires c.Ok() && Enabled(c, w, a) && (a.FailAttempt? || a.PageLimitReached?)
    ensures w.exec.Fetching? || w.exec.Staging? || w.exec.PageStored?
    ensures a.FailAttempt? ==> a.error != ""
    ensures Step(c, w, a)
            == if a.FailAttempt? then Wrote(c, w, Op.FailBatch(w.exec.run, w.exec.batch, a.error), Batching(w.exec.run))
               else Wrote(c, w, Op.FailBatch(w.exec.run, w.exec.batch, PAGE_LIMIT_ERROR), Failing(w.exec.run, PAGE_LIMIT_ERROR))
  {
    hide Apply, HasActive, FirstSpent, PersistedReady, CountsAsExpected, LaterThanAll, LiveSnapshot, BatchRows, Slice, FirstOpen;
  }

  lemma MarkRunningStep(c: Config, w: World)
    requires c.Ok() && Enabled(c, w, MarkRunning)
    ensures w.exec.Counted?
    ensures Step(c, w, MarkRunning)
            == Wrote(c, w, Op.MarkBatchRunning(w.exec.run, w.exec.batch), Fetching(w.exec.run, w.exec.batch, 0, 0))
  {
    hide Apply, HasActive, FirstSpent, PersistedReady, CountsAsExpected, LaterThanAll, LiveSnapshot, BatchRows, Slice,
         FirstOpen;
  }

  lemma StorePageStep(c: Config, w: World)
    requires c.Ok() && Enabled(c, w, StorePage)
    ensures w.exec.Staging? && w.exec.next == |w.exec.page|
    ensures Step(c, w, StorePage)
            == Wrote(c, w, Op.StoreProgress(w.exec.run, w.exec.batch, w.exec.pages + 1, w.exec.offset + |w.exec.page|),
                     PageStored(w.exec.run, w.exec.batch, w.exec.offset, w.exec.pages + 1, |w.exec.page|))
  {
    hide Apply, HasActive, FirstSpent, PersistedReady, CountsAsExpected, LaterThanAll, LiveSnapshot, BatchRows, Slice, FirstOpen;
  }

  lemma FinishBatchStep(c: Config, w: World)
    requires c.Ok() && Enabled(c, w, FinishBatch)
    ensures w.exec.PageStored? && ExecBatch(w) && w.exec.count < TheBatch(w).pageSize
    ensures Step(c, w, FinishBatch)
            == Wrote(c, w, Op.CompleteBatch(w.exec.run, w.exec.batch, w.exec.pages, w.exec.offset + w.exec.count),
                     Batching(w.exec.run))
  {
    hide Apply, HasActive, FirstSpent, PersistedReady, CountsAsExpected, LaterThanAll, LiveSnapshot, BatchRows, Slice, FirstOpen;
  }

  lemma StageRowStep(c: Config, w: World)
    requires c.Ok() && Enabled(c, w, StageRow)
    ensures w.exec.Staging? && w.exec.next < |w.exec.page| && w.exec.page[w.exec.next].row.Valid?
    ensures var row := w.exec.page[w.exec.next];
            Step(c, w, StageRow)
            == Wrote(c, w, Op.Stage(w.exec.run, row.id, row.row.violation), w.exec.(next := w.exec.next + 1))
  {
    hide Apply, HasActive, FirstSpent, PersistedReady, CountsAsExpected, LaterThanAll, LiveSnapshot, BatchRows, Slice, FirstOpen;
  }

  lemma RecordEndMarkStep(c: Config, w: World)
    requires c.Ok() && Enabled(c, w, RecordEndMark)
    ensures w.exec.HasEndMark? && ExecRun(w)
    ensures Step(c, w, RecordEndMark)
            == Wrote(c, w, Op.StoreEndMark(w.exec.run, w.exec.mark),
                     if TheRun(w).startMark == Some(w.exec.mark) then Ready(w.exec.run) else SourceChanging(w.exec.run))
  {
    hide Apply, HasActive, FirstSpent, PersistedReady, CountsAsExpected, LaterThanAll, LiveSnapshot, BatchRows, Slice, FirstOpen;
  }

  lemma PublicationEnabled(c: Config, w: World, a: Action)
    requires a.PublishFailure? || a.PublishSourceChanged?
    requires if a.PublishFailure? then w.exec.Failing? else w.exec.SourceChanging?
    ensures Enabled(c, w, a)
  {
    hide HasActive, FirstSpent, PersistedReady, CountsAsExpected, LaterThanAll, FirstOpen;
  }

  lemma PublicationStep(c: Config, w: World, a: Action)
    requires c.Ok() && Enabled(c, w, a) && (a.PublishAccepted? || a.PublishFailure? || a.PublishSourceChanged?)
    ensures a.PublishAccepted? ==> w.exec.Ready? && Step(c, w, a) == Wrote(c, w, Op.Publish(w.exec.run, a.at), Gone)
    ensures a.PublishFailure? ==>
              w.exec.Failing? && Step(c, w, a) == Wrote(c, w, Op.Terminate(w.exec.run, RunFailed, w.exec.error, a.at), Gone)
    ensures a.PublishSourceChanged? ==>
              && w.exec.SourceChanging?
              && Step(c, w, a) == Wrote(c, w, Op.Terminate(w.exec.run, SourceChanged, SOURCE_CHANGED_ERROR, a.at), Gone)
  {
    hide Apply, HasActive, FirstSpent, PersistedReady, CountsAsExpected, LaterThanAll, LiveSnapshot, BatchRows, Slice, FirstOpen;
  }

  lemma AllCompletedStep(c: Config, w: World)
    requires c.Ok() && Enabled(c, w, AllCompleted)
    ensures w.exec.Batching? && ExecRun(w) && FirstOpen(TheRun(w).batches) == |TheRun(w).batches|
    ensures Step(c, w, AllCompleted) == w.(exec := Finalizing(w.exec.run))
  {
    hide Apply, HasActive, FirstSpent, PersistedReady, CountsAsExpected, LaterThanAll, LiveSnapshot, BatchRows, Slice;
  }

  lemma FailureFoundStep(c: Config, w: World, a: Action)
    requires c.Ok() && Enabled(c, w, a) && (a.ResumeFailed? || a.AttemptsExhausted?)
    ensures (w.exec.Resuming? || w.exec.Batching?) && ExecRun(w)
    ensures var k := if a.ResumeFailed? then FirstSpent(c, TheRun(w).batches) else FirstOpen(TheRun(w).batches);
            && k < |TheRun(w).batches|
            && Step(c, w, a) == w.(exec := Failing(w.exec.run, ErrorOf(TheRun(w).batches[k])))
  {
    hide Apply, HasActive, PersistedReady, CountsAsExpected, LaterThanAll, LiveSnapshot, BatchRows, Slice, ErrorOf;
  }

  lemma StartRunStep(c: Config, w: World, at: nat)
    requires c.Ok() && Enabled(c, w, StartRun(at))
    ensures w.exec.HasStartMark?
    ensures Step(c, w, StartRun(at)) == Wrote(c, w, Op.Start(w.exec.run, w.exec.mark, at), Batching(w.exec.run))
  {
    hide Apply, HasActive, FirstSpent, PersistedReady, CountsAsExpected, LaterThanAll, LiveSnapshot, BatchRows, Slice, FirstOpen;
  }

  lemma RegistrationStep(c: Config, w: World, a: Action)
    requires c.Ok() && (a.Register? || a.ChangeBins?)
    ensures Enabled(c, w, a)
    ensures Step(c, w, a)
            == if a.Register? then w.(db := Apply(c, w.db, RegisterProperty(a.property, a.bins)))
               else w.(db := Apply(c, w.db, ApplyBins(a.property, a.bins)))
  {
    hide Apply, HasActive, FirstSpent, PersistedReady, CountsAsExpected, LaterThanAll, LiveSnapshot, BatchRows, Slice,
         FirstOpen;
  }

  lemma LockStep(c: Config, w: World)
    requires c.Ok()
    ensures Enabled(c, w, LoseLock) && Step(c, w, LoseLock) == w.(held := false)
    ensures Enabled(c, w, Stop) && Step(c, w, Stop) == w.(exec := Gone, held := false)
    ensures !w.held ==> Enabled(c, w, Acquire) && Step(c, w, Acquire) == w.(exec := Acquired, held := true)
  {
    hide Apply, HasActive, FirstSpent, PersistedReady, CountsAsExpected, LaterThanAll, LiveSnapshot, BatchRows, Slice,
         FirstOpen;
  }

  lemma ChangeSourceStep(c: Config, w: World, to: Source, mark: nat)
    requires c.Ok()
    ensures Enabled(c, w, ChangeSource(to, mark)) <==> to.Ok() && w.mark < mark
    ensures Enabled(c, w, ChangeSource(to, mark)) ==>
              Step(c, w, ChangeSource(to, mark)) == w.(source := to, mark := mark, archive := w.archive[mark := to])
  {
    hide Apply, HasActive, FirstSpent, PersistedReady, CountsAsExpected, LaterThanAll, LiveSnapshot, BatchRows, Slice, FirstOpen;
  }

  // ---- Steps that write no table ----

  /** The executor moves on without writing: only what is known of it has to be shown. */
  lemma MoveKeeps(c: Config, w: World, after: World)
    requires ProtocolInv(c, w)
    requires after == w.(exec := after.exec, held := after.held)
    requires after.exec.HasEndMark? ==> after.exec == w.exec
    requires ExecOk(c, after) && ExecFresh(c, after)
    ensures ProtocolInv(c, after)
  {
    hide RunsProgress, RunsFresh, ExecOk, ExecFresh, LogExact;
    ExecMoved(c, w, after);
  }

  lemma SnapshotRead(db: Db)
    requires HistoryOk(db.properties, db.history) && CoverageOk(db.properties, db.coverage, db.runs)
    ensures FromHistory(db.history, LiveSnapshot(db.properties))
    ensures CoversChecked(db.properties, db.coverage, LiveSnapshot(db.properties))
  {
    forall p | p in db.coverage && db.coverage[p].status.Checked?
      ensures p in db.properties && SnapshotExact(LiveSnapshot(db.properties), p, db.properties[p])
    {
      assert CoverageRowOk(db.properties[p], db.coverage[p], p, db.runs);
    }
  }

  lemma ReadSnapshotKeeps(c: Config, w: World)
    requires c.Ok() && WorldInv(c, w) && Enabled(c, w, ReadSnapshot)
    ensures ProtocolInv(c, Step(c, w, ReadSnapshot))
  {
    hide RunsProgress, RunsFresh, LogExact, OneActive, RunsOk, LogOk, Replay, SnapshotsOk, ActiveCovers, CheckedByLast,
         LastScanned, Chronology, FromHistory, CoversChecked, HistoryOk, CoverageOk;
    SnapshotRead(w.db);
    MoveKeeps(c, w, Step(c, w, ReadSnapshot));
  }

  /** A run whose end mark differs from its start mark cannot find the start mark current again. */
  lemma ResumedOpen(c: Config, run: Run, archive: map<nat, Source>, mark: nat)
    requires c.Ok() && RunOk(c, run) && RunProgress(c, run, archive, mark)
    requires run.status.Running? && !PersistedReady(run) && run.startMark == Some(mark)
    ensures Open(run)
  {
    assert run.endMark.Some? ==> MarksAgree(run);
  }

  lemma ResumeUnchangedKeeps(c: Config, w: World)
    requires c.Ok() && WorldInv(c, w) && Enabled(c, w, ResumeUnchanged)
    ensures ProtocolInv(c, Step(c, w, ResumeUnchanged))
  {
    hide RunsFresh, LogExact, OneActive, LogOk, Replay, SnapshotsOk, ActiveCovers, CheckedByLast,
         LastScanned, Chronology, FromHistory, CoversChecked, HistoryOk, CoverageOk, RunOk, RunProgress, PersistedReady;
    ResumedOpen(c, TheRun(w), w.archive, w.mark);
    MoveKeeps(c, w, Step(c, w, ResumeUnchanged));
  }

  lemma AllCompletedKeeps(c: Config, w: World)
    requires c.Ok() && WorldInv(c, w) && Enabled(c, w, AllCompleted)
    ensures ProtocolInv(c, Step(c, w, AllCompleted))
  {
    hide RunsFresh, LogExact, DbInv, Step, Enabled;
    AllCompletedStep(c, w);
    var run := TheRun(w);
    assert RunProgress(c, run, w.archive, w.mark);
    assert CompleteAndClean(run.batches) by {
      forall i | 0 <= i < |run.batches|
        ensures run.batches[i].status.BatchCompleted? && run.batches[i].completedAt && run.batches[i].lastError.None?
      {
        assert BatchOk(c, run.batches[i]);
      }
    }
    MoveKeeps(c, w, Step(c, w, AllCompleted));
  }

  lemma FailureFound(c: Config, run: Run, archive: map<nat, Source>, mark: nat, k: nat)
    requires RunProgress(c, run, archive, mark) && k < |run.batches|
    ensures ErrorOf(run.batches[k]) != ""
  {
    assert BatchOk(c, run.batches[k]);
  }

  lemma FailureFoundKeeps(c: Config, w: World, a: Action)
    requires c.Ok() && WorldInv(c, w) && Enabled(c, w, a) && (a.ResumeFailed? || a.AttemptsExhausted?)
    ensures ProtocolInv(c, Step(c, w, a))
  {
    hide RunsFresh, LogExact, DbInv, RunProgress, ErrorOf, Step, Enabled;
    FailureFoundStep(c, w, a);
    var k := if a.ResumeFailed? then FirstSpent(c, TheRun(w).batches) else FirstOpen(TheRun(w).batches);
    FailureFound(c, TheRun(w), w.archive, w.mark, k);
    MoveKeeps(c, w, Step(c, w, a));
  }

  lemma FetchPageKeeps(c: Config, w: World)
    requires c.Ok() && WorldInv(c, w) && Enabled(c, w, FetchPage)
    ensures ProtocolInv(c, Step(c, w, FetchPage))
  {
    hide RunsFresh, LogExact, DbInv, RunProgress, AllStaged, BatchRows;
    assert RunProgress(c, TheRun(w), w.archive, w.mark);
    PageSizeFixed(c, TheRun(w), w.archive, w.mark, w.exec.batch);
    assert AllStaged([], TheRun(w).staging) by { NothingToStage(TheRun(w).staging); }
    MoveKeeps(c, w, Step(c, w, FetchPage));
  }

  lemma PageSizeFixed(c: Config, run: Run, archive: map<nat, Source>, mark: nat, b: nat)
    requires RunProgress(c, run, archive, mark) && b < |run.batches|
    ensures run.batches[b].pageSize == c.pageSize
  {
    assert BatchOk(c, run.batches[b]);
  }

  lemma NothingToStage(staging: map<SourceId, Violation>)
    ensures AllStaged([], staging)
  {
  }

  lemma NextPageKeeps(c: Config, w: World)
    requires c.Ok() && WorldInv(c, w) && Enabled(c, w, NextPage)
    ensures ProtocolInv(c, Step(c, w, NextPage))
  {
    hide RunsFresh, LogExact, DbInv, RunProgress, AllStaged, BatchRows;
    assert RunProgress(c, TheRun(w), w.archive, w.mark);
    PageSizeFixed(c, TheRun(w), w.archive, w.mark, w.exec.batch);
    NextOffset(w.exec.pages, c.pageSize);
    MoveKeeps(c, w, Step(c, w, NextPage));
  }

  lemma NextOffset(pages: nat, size: nat)
    requires 0 < pages
    ensures (pages - 1) * size + size == pages * size
  {
  }

  lemma RunningInitialized(c: Config, run: Run)
    requires c.Ok() && RunOk(c, run) && run.status.Running?
    ensures run.initialized && run.startMark.Some? && run.startedAt.Some?
  {
  }

  /** Reading the start mark again as end mark says nothing new: it is still the current one. */
  lemma EndMarkRead(c: Config, w: World, after: World, r: RunId)
    requires ProtocolInv(c, w) && after == w.(exec := HasEndMark(r, w.mark))
    requires r in w.db.runs && w.db.runs[r].startMark.Some?
    requires Open(w.db.runs[r]) && CompleteAndClean(w.db.runs[r].batches)
    ensures ProtocolInv(c, after)
  {
    hide RunFresh, SourceAt, CompleteAndClean, BatchesOk, NoneCompleted, LogExact, ExecFresh;
    assert RunProgress(c, w.db.runs[r], w.archive, w.mark);
    forall s | s in after.db.runs && StillAtStart(after.db.runs[s], after.mark, EndRead(after.exec, s, after.db.runs[s]))
      ensures RunFresh(SourceAt(after.archive, after.db.runs[s].startMark), after.db.runs[s])
    {
      assert StillAtStart(w.db.runs[s], w.mark, EndRead(w.exec, s, w.db.runs[s]));
    }
    assert RunsProgress(c, after);
    assert ExecFresh(c, after) by { NotAtBatch(c, after); }
  }

  lemma NotAtBatch(c: Config, w: World)
    requires w.exec.HasEndMark?
    ensures ExecFresh(c, w)
  {
  }

  lemma ReadEndMarkKeeps(c: Config, w: World)
    requires c.Ok() && WorldInv(c, w) && Enabled(c, w, ReadEndMark)
    ensures ProtocolInv(c, Step(c, w, ReadEndMark))
  {
    hide OneActive, LogOk, Replay, SnapshotsOk, ActiveCovers, CheckedByLast, LastScanned, Chronology, HistoryOk,
         CoverageOk, RunOk, CompleteAndClean, RunsProgress, RunsFresh, ExecFresh, LogExact, SourcesOk, Apply;
    assert RunOk(c, w.db.runs[w.exec.run]);
    RunningInitialized(c, w.db.runs[w.exec.run]);
    EndMarkRead(c, w, Step(c, w, ReadEndMark), w.exec.run);
  }

  /** The remaining moves: nothing about them needs an argument of its own. */
  predicate PlainMove(a: Action) {
    || a.Acquire? || a.PickQueued? || a.PickRunning? || a.SkipInitialization? || a.ReadStartMark?
    || a.StartMarkUnavailable? || a.ResumeReady? || a.ResumeChanged? || a.LoseLock? || a.Stop?
  }

  /** A plain move changes nothing but the executor's place, and leads where its run allows. */
  lemma EntryMove(c: Config, w: World, a: Action)
    requires c.Ok() && ExecOk(c, w) && Enabled(c, w, a)
    requires a.Acquire? || a.PickQueued? || a.PickRunning? || a.SkipInitialization? || a.LoseLock? || a.Stop?
    ensures var after := Step(c, w, a);
            && after == w.(exec := after.exec, held := after.held) && ExecOk(c, after)
            && (after.exec.HasEndMark? ==> after.exec == w.exec)
            && (after.exec == w.exec || !ExecBatch(after))
  {
    hide CompleteAndClean, MarksAgree, CountsAsExpected, Apply, LiveSnapshot, BatchRows, Slice, LaterThanAll, HasActive,
         FirstOpen, FirstSpent, ErrorOf, FromHistory, CoversChecked, PersistedReady;
  }

  lemma DecisionMove(c: Config, w: World, a: Action)
    requires c.Ok() && ExecOk(c, w) && SourcesOk(w) && Enabled(c, w, a)
    requires a.ReadStartMark? || a.StartMarkUnavailable? || a.ResumeReady? || a.ResumeChanged?
    ensures var after := Step(c, w, a);
            && after == w.(exec := after.exec, held := after.held) && ExecOk(c, after)
            && !after.exec.HasEndMark? && !ExecBatch(after)
  {
    hide CountsAsExpected, Apply, LiveSnapshot, BatchRows, Slice, LaterThanAll, HasActive, CompleteAndClean, MarksAgree,
         FirstOpen, FirstSpent, ErrorOf, FromHistory, CoversChecked;
  }

  lemma PlainMoveKeeps(c: Config, w: World, a: Action)
    requires c.Ok() && WorldInv(c, w) && Enabled(c, w, a) && PlainMove(a)
    ensures ProtocolInv(c, Step(c, w, a))
  {
    hide Step, Enabled, RunsProgress, RunsFresh, LogExact, DbInv, SourcesOk, ExecOk, AttemptFresh, BatchRows;
    if a.ReadStartMark? || a.StartMarkUnavailable? || a.ResumeReady? || a.ResumeChanged? {
      DecisionMove(c, w, a);
    } else {
      EntryMove(c, w, a);
    }
    MoveKeeps(c, w, Step(c, w, a));
  }

  // ---- Steps that write one run ----

  /** The transactions on one batch row, as writes of that row. */
  lemma BatchWrites(c: Config, db: Db, r: RunId, b: nat)
    requires c.Ok() && HasBatch(db, r, b)
    ensures var batch := db.runs[r].batches[b];
            && Apply(c, db, Op.IncrementAttempt(r, b)) == WithBatch(db, r, b, batch.(attempts := batch.attempts + 1))
            && Apply(c, db, Op.MarkBatchRunning(r, b)) == WithBatch(db, r, b, batch.(status := BatchRunning, lastError := None))
            && (forall pages, fetched :: Apply(c, db, Op.StoreProgress(r, b, pages, fetched))
                                         == WithBatch(db, r, b, batch.(pages := pages, rows := fetched)))
            && (forall pages, fetched :: Apply(c, db, Op.CompleteBatch(r, b, pages, fetched))
                                         == WithBatch(db, r, b, batch.(pages := pages, rows := fetched, status := BatchCompleted,
                                                                       completedAt := true, lastError := None)))
            && (forall error :: error != "" ==>
                  Apply(c, db, Op.FailBatch(r, b, error))
                  == WithBatch(db, r, b, batch.(status := BatchFailed, lastError := Some(error))))
  {
    hide WithBatch;
  }

  /** The other operational transactions, as writes of one run row. */
  lemma RunWrites(c: Config, db: Db, r: RunId)
    requires c.Ok() && r in db.runs
    ensures forall id, v :: Apply(c, db, Op.Stage(r, id, v))
                            == WithRun(db, r, db.runs[r].(staging := db.runs[r].staging[id := v]))
    ensures forall mark :: Apply(c, db, Op.StoreEndMark(r, mark)) == WithRun(db, r, db.runs[r].(endMark := Some(mark)))
  {
    hide WithRun;
  }


  /** Everything but the freshness of the attempt follows from facts about the run written. */
  lemma RunWriteStep(c: Config, w: World, after: World, r: RunId, run: Run)
    requires ProtocolInv(c, w)
    requires after == w.(db := WithRun(w.db, r, run), exec := after.exec)
    requires !after.exec.HasEndMark?
    requires RunProgress(c, run, w.archive, w.mark)
    requires StillAtStart(run, w.mark, false) ==> RunFresh(SourceAt(w.archive, run.startMark), run)
    requires ExecOk(c, after) && ExecFresh(c, after)
    ensures ProtocolInv(c, after)
  {
    hide RunsProgress, RunsFresh, ExecOk, ExecFresh, LogExact, RunProgress, RunFresh, SourceAt;
    OneRunWritten(c, w, after, r, run);
  }

  lemma CreateRunKeeps(c: Config, w: World, r: RunId)
    requires c.Ok() && WorldInv(c, w) && Enabled(c, w, CreateRun(r))
    ensures ProtocolInv(c, Step(c, w, CreateRun(r)))
  {
    hide RunsProgress, RunsFresh, LogExact, DbInv, HasActive, SourceAt, RunFresh;
    RunWriteStep(c, w, Step(c, w, CreateRun(r)), r, NEW_RUN);
  }

  lemma StoreSnapshotKeeps(c: Config, w: World)
    requires c.Ok() && WorldInv(c, w) && Enabled(c, w, StoreSnapshot)
    ensures ProtocolInv(c, Step(c, w, StoreSnapshot))
  {
    hide LogExact, OneActive, LogOk, Replay, SnapshotsOk, ActiveCovers, CheckedByLast, LastScanned, Chronology,
         FromHistory, CoversChecked, HistoryOk, CoverageOk, SourceAt, RunFresh, InitializedRun, RunsFresh,
         RunOk, CompleteAndClean, BatchesOk, NoneCompleted, NewBatches;
    var run := w.db.runs[w.exec.run];
    assert RunProgress(c, run, w.archive, w.mark);
    assert RunOk(c, run);
    assert run.startMark.None? by { QueuedNotStarted(c, run); }
    InitializedRunOk(c, run, w.exec.rows);
    NewBatchesOk(c, w.exec.rows);
    RunWriteStep(c, w, Step(c, w, StoreSnapshot), w.exec.run, InitializedRun(c, run, w.exec.rows));
  }

  lemma NewBatchesOk(c: Config, rows: set<SnapshotRow>)
    requires c.Ok()
    ensures BatchesOk(c, NewBatches(c, rows)) && NoneCompleted(NewBatches(c, rows))
  {
    hide Partition, SortedSeq;
  }

  lemma QueuedNotStarted(c: Config, run: Run)
    requires c.Ok() && RunOk(c, run) && run.status.Queued?
    ensures run.startMark.None?
  {
  }

  lemma StartRunKeeps(c: Config, w: World, at: nat)
    requires c.Ok() && WorldInv(c, w) && Enabled(c, w, StartRun(at))
    ensures ProtocolInv(c, Step(c, w, StartRun(at)))
  {
    hide LogExact, OneActive, LogOk, Replay, SnapshotsOk, ActiveCovers, CheckedByLast, LastScanned, Chronology,
         FromHistory, CoversChecked, HistoryOk, CoverageOk, RunsFresh, RunOk, CompleteAndClean, CoveredBatch,
         LaterThanAll, Step, Enabled;
    StartRunStep(c, w, at);
    var run := w.db.runs[w.exec.run];
    assert RunProgress(c, run, w.archive, w.mark);
    assert RunOk(c, run);
    assert run.startMark.None? by { QueuedNotStarted(c, run); }
    RunWriteStep(c, w, Step(c, w, StartRun(at)), w.exec.run, StartedRun(run, w.exec.mark, at));
  }

  /** Rewriting an open batch, leaving it open, keeps what the run has staged and completed. */
  lemma OpenBatchRewritten(c: Config, run: Run, b: nat, batch: Batch, archive: map<nat, Source>, mark: nat)
    requires RunProgress(c, run, archive, mark) && Open(run) && AtBatch(run.batches, b)
    requires BatchOk(c, batch) && !batch.status.BatchCompleted? && batch.bins == run.batches[b].bins
    ensures var after := run.(batches := run.batches[b := batch]);
            && RunProgress(c, after, archive, mark)
            && AtBatch(after.batches, b)
            && forall source :: RunFresh(source, run) ==> RunFresh(source, after)
  {
    hide CoveredBatch, BatchOk, CompleteAndClean;
    var after := run.(batches := run.batches[b := batch]);
    assert after.Scanned() == run.Scanned();
    forall source | RunFresh(source, run) ensures RunFresh(source, after) {
    }
  }

  lemma OpenBatchStep(c: Config, w: World, after: World, r: RunId, b: nat, batch: Batch)
    requires ProtocolInv(c, w)
    requires r in w.db.runs && Open(w.db.runs[r]) && AtBatch(w.db.runs[r].batches, b)
    requires BatchOk(c, batch) && !batch.status.BatchCompleted? && batch.bins == w.db.runs[r].batches[b].bins
    requires after == w.(db := WithBatch(w.db, r, b, batch), exec := after.exec)
    requires !after.exec.HasEndMark?
    requires ExecOk(c, after) && ExecFresh(c, after)
    ensures ProtocolInv(c, after)
  {
    hide ExecOk, ExecFresh, LogExact, RunProgress, RunFresh, SourceAt, BatchOk;
    var run := w.db.runs[r];
    var written := run.(batches := run.batches[b := batch]);
    assert RunProgress(c, run, w.archive, w.mark);
    OpenBatchRewritten(c, run, b, batch, w.archive, w.mark);
    if StillAtStart(written, w.mark, false) {
      assert RunFresh(SourceAt(w.archive, run.startMark), run);
    }
    RunWriteStep(c, w, after, r, written);
  }

  /** The batch the executor works on, and what is known of its stored row. */
  lemma CurrentBatchOk(c: Config, w: World, r: RunId, b: nat)
    requires RunsProgress(c, w) && r in w.db.runs && b < |w.db.runs[r].batches|
    ensures BatchOk(c, w.db.runs[r].batches[b])
  {
    assert RunProgress(c, w.db.runs[r], w.archive, w.mark);
  }

  lemma FirstOpenIsAt(c: Config, w: World, r: RunId)
    requires RunsProgress(c, w) && r in w.db.runs && FirstOpen(w.db.runs[r].batches) < |w.db.runs[r].batches|
    ensures AtBatch(w.db.runs[r].batches, FirstOpen(w.db.runs[r].batches))
    ensures BatchOk(c, w.db.runs[r].batches[FirstOpen(w.db.runs[r].batches)])
  {
    CurrentBatchOk(c, w, r, FirstOpen(w.db.runs[r].batches));
  }

  lemma BeginAttemptKeeps(c: Config, w: World)
    requires c.Ok() && WorldInv(c, w) && Enabled(c, w, BeginAttempt)
    ensures ProtocolInv(c, Step(c, w, BeginAttempt))
  {
    hide RunsProgress, RunsFresh, LogExact, DbInv, Apply, Step, Enabled, FirstOpen;
    BeginAttemptStep(c, w);
    var r := w.exec.run;
    FirstOpenIsAt(c, w, r);
    var k := FirstOpen(w.db.runs[r].batches);
    var batch := w.db.runs[r].batches[k];
    BatchWrites(c, w.db, r, k);
    OpenBatchStep(c, w, Step(c, w, BeginAttempt), r, k, batch.(attempts := batch.attempts + 1));
  }

  lemma BudgetSpentKeeps(c: Config, w: World)
    requires c.Ok() && WorldInv(c, w) && Enabled(c, w, BudgetSpent)
    ensures ProtocolInv(c, Step(c, w, BudgetSpent))
  {
    hide RunsProgress, RunsFresh, LogExact, DbInv, Apply, Step, Enabled, FirstOpen;
    BudgetSpentStep(c, w);
    var r := w.exec.run;
    FirstOpenIsAt(c, w, r);
    var k := FirstOpen(w.db.runs[r].batches);
    BatchWrites(c, w.db, r, k);
    OpenBatchStep(c, w, Step(c, w, BudgetSpent), r, k,
                  w.db.runs[r].batches[k].(status := BatchFailed, lastError := Some(BUDGET_ERROR)));
  }

  lemma MarkRunningKeeps(c: Config, w: World)
    requires c.Ok() && WorldInv(c, w) && Enabled(c, w, MarkRunning)
    ensures ProtocolInv(c, Step(c, w, MarkRunning))
  {
    hide RunsProgress, RunsFresh, LogExact, DbInv, BatchRows, AllStaged, Apply, Step, Enabled;
    MarkRunningStep(c, w);
    var r, b := w.exec.run, w.exec.batch;
    CurrentBatchOk(c, w, r, b);
    NothingToStage(w.db.runs[r].staging);
    var after := Step(c, w, MarkRunning);
    BatchWrites(c, w.db, r, b);
    assert BatchRows(after.source, TheBatch(after).bins)[..0] == [];
    OpenBatchStep(c, w, after, r, b, w.db.runs[r].batches[b].(status := BatchRunning, lastError := None));
  }

  lemma FailBatchKeeps(c: Config, w: World, a: Action)
    requires c.Ok() && WorldInv(c, w) && Enabled(c, w, a) && (a.FailAttempt? || a.PageLimitReached?)
    ensures ProtocolInv(c, Step(c, w, a))
  {
    hide RunsProgress, RunsFresh, LogExact, DbInv, BatchRows, AllStaged, Apply, Step, Enabled, RunFresh, SourcesOk, FromHistory, CoversChecked, CompleteAndClean, MarksAgree;
    FailBatchStep(c, w, a);
    var r, b := w.exec.run, w.exec.batch;
    var error := if a.FailAttempt? then a.error else PAGE_LIMIT_ERROR;
    CurrentBatchOk(c, w, r, b);
    BatchWrites(c, w.db, r, b);
    OpenBatchStep(c, w, Step(c, w, a), r, b,
                  w.db.runs[r].batches[b].(status := BatchFailed, lastError := Some(error)));
  }

  lemma PageJoinsPrefix(rows: seq<PageRow>, offset: nat, size: nat, staging: map<SourceId, Violation>)
    requires offset <= |rows| && AllStaged(rows[..offset], staging)
    requires var page := Slice(rows, offset, size); AllStaged(page[..|page|], staging)
    ensures AllStaged(rows[..offset + |Slice(rows, offset, size)|], staging)
  {
    var page := Slice(rows, offset, size);
    var joined := rows[..offset + |page|];
    forall i | 0 <= i < |joined|
      ensures joined[i].row.Valid? && joined[i].id in staging
    {
      if offset <= i {
        assert joined[i] == page[..|page|][i - offset];
      } else {
        assert joined[i] == rows[..offset][i];
      }
    }
  }

  lemma StorePageKeeps(c: Config, w: World)
    requires c.Ok() && WorldInv(c, w) && Enabled(c, w, StorePage)
    ensures ProtocolInv(c, Step(c, w, StorePage))
  {
    hide RunsProgress, RunsFresh, LogExact, DbInv, BatchRows, AllStaged, Slice, Apply, Step, Enabled;
    StorePageStep(c, w);
    var r, b := w.exec.run, w.exec.batch;
    var batch := w.db.runs[r].batches[b];
    CurrentBatchOk(c, w, r, b);
    var after := Step(c, w, StorePage);
    var rows := BatchRows(w.source, batch.bins);
    if w.db.runs[r].startMark == Some(w.mark) {
      PageJoinsPrefix(rows, w.exec.offset, c.pageSize, w.db.runs[r].staging);
    }
    BatchWrites(c, w.db, r, b);
    OpenBatchStep(c, w, after, r, b, batch.(pages := w.exec.pages + 1, rows := w.exec.offset + |w.exec.page|));
  }

  // ---- Staging a row ----

  /** Staging one more row of a source page, in scope, keeps the run fresh. */
  lemma RowStaged(source: Source, run: Run, row: PageRow)
    requires RunFresh(source, run)
    requires row.row.Valid? && row.id in source.rows && source.rows[row.id] == row.row
    requires row.row.violation.bin in run.Scanned()
    ensures RunFresh(source, run.(staging := run.staging[row.id := row.row.violation]))
  {
    hide BatchRows;
    var after := run.(staging := run.staging[row.id := row.row.violation]);
    assert after.Scanned() == run.Scanned();
    forall i | 0 <= i < |after.batches| && after.batches[i].status.BatchCompleted?
      ensures CoveredBatch(source, after.staging, after.batches[i])
    {
      assert CoveredBatch(source, run.staging, run.batches[i]);
    }
  }

  lemma MoreStaged(rows: seq<PageRow>, staging: map<SourceId, Violation>, id: SourceId, v: Violation)
    requires AllStaged(rows, staging)
    ensures AllStaged(rows, staging[id := v])
  {
  }

  lemma OneMoreStaged(page: seq<PageRow>, next: nat, staging: map<SourceId, Violation>)
    requires next < |page| && page[next].row.Valid?
    requires AllStaged(page[..next], staging)
    ensures AllStaged(page[..next + 1], staging[page[next].id := page[next].row.violation])
  {
    var more := page[..next + 1];
    forall i | 0 <= i < |more|
      ensures more[i].row.Valid? && more[i].id in staging[page[next].id := page[next].row.violation]
    {
      if i < next { assert more[i] == page[..next][i]; }
    }
  }

  /** A row on a page of a batch is a row of the source on one of the batch's BINs, so in scope. */
  lemma PageRowInScope(c: Config, source: Source, run: Run, b: nat, offset: nat, next: nat)
    requires c.Ok() && source.Ok() && RunOk(c, run) && run.initialized && b < |run.batches|
    requires next < |Slice(BatchRows(source, run.batches[b].bins), offset, c.pageSize)|
    ensures var row := Slice(BatchRows(source, run.batches[b].bins), offset, c.pageSize)[next];
            && row.id in source.rows && source.rows[row.id] == row.row && row.row.OnBin() in run.Scanned()
  {
    hide RunOk, BatchRows;
    var rows := BatchRows(source, run.batches[b].bins);
    var row := Slice(rows, offset, c.pageSize)[next];
    assert offset <= |rows|;
    assert row == rows[offset + next];
    BatchRowsMembers(source, run.batches[b].bins, row);
    ScannedInBatches(c, run, row.row.OnBin());
  }

  lemma StageRowKeeps(c: Config, w: World)
    requires c.Ok() && WorldInv(c, w) && Enabled(c, w, StageRow)
    ensures ProtocolInv(c, Step(c, w, StageRow))
  {
    hide LogExact, OneActive, LogOk, Replay, SnapshotsOk, ActiveCovers, CheckedByLast, LastScanned, Chronology,
         FromHistory, CoversChecked, HistoryOk, CoverageOk, RunsFresh, RunOk, RunProgress, BatchRows, AllStaged, RunFresh,
         Slice, FirstOpen, FirstSpent, PublishAccepts, TerminateAccepts, LaterThanAll, Apply, Step, Enabled;
    StageRowStep(c, w);
    var r, b := w.exec.run, w.exec.batch;
    var run := w.db.runs[r];
    var row := w.exec.page[w.exec.next];
    var written := run.(staging := run.staging[row.id := row.row.violation]);
    assert RunOk(c, run) && RunProgress(c, run, w.archive, w.mark);
    RunningInitialized(c, run);
    assert RunProgress(c, written, w.archive, w.mark) by { StagingKeepsProgress(c, run, written.staging, w.archive, w.mark); }
    if run.startMark == Some(w.mark) {
      PageRowInScope(c, w.source, run, b, w.exec.offset, w.exec.next);
      assert RunFresh(w.source, run) by { FreshAtMark(w, r); }
      RowStaged(w.source, run, row);
      MoreStaged(BatchRows(w.source, run.batches[b].bins)[..w.exec.offset], run.staging, row.id, row.row.violation);
      OneMoreStaged(w.exec.page, w.exec.next, run.staging);
    }
    RunWrites(c, w.db, r);
    RunWriteStep(c, w, Step(c, w, StageRow), r, written);
  }

  lemma StagingKeepsProgress(c: Config, run: Run, staging: map<SourceId, Violation>, archive: map<nat, Source>, mark: nat)
    requires RunProgress(c, run, archive, mark) && run.startMark.Some?
    ensures RunProgress(c, run.(staging := staging), archive, mark)
  {
  }

  lemma FreshAtMark(w: World, r: RunId)
    requires SourcesOk(w) && RunsFresh(w) && r in w.db.runs && w.db.runs[r].startMark == Some(w.mark)
    ensures RunFresh(w.source, w.db.runs[r])
  {
    hide RunFresh;
    assert StillAtStart(w.db.runs[r], w.mark, EndRead(w.exec, r, w.db.runs[r]));
  }

  // ---- Completing a batch ----

  lemma PageCount(pages: nat, size: nat, count: nat)
    requires 0 < pages && count < size
    ensures ((pages - 1) * size + count) / size + 1 == pages
  {
    assert ((pages - 1) * size + count) / size == pages - 1 by {
      DivideByPage(pages - 1, size, count);
    }
  }

  lemma MultipleApart(d: int, size: int)
    requires 0 <= size
    ensures d >= 1 ==> d * size >= size
    ensures d <= -1 ==> d * size <= -size
  {
  }

  lemma DivideByPage(k: nat, size: nat, rest: nat)
    requires rest < size
    ensures (k * size + rest) / size == k
  {
    var n := k * size + rest;
    var d := k - n / size;
    assert d * size == k * size - n / size * size;
    assert n == n / size * size + n % size;
    MultipleApart(d, size);
  }

  lemma BatchFinished(c: Config, run: Run, b: nat, batch: Batch, archive: map<nat, Source>, mark: nat)
    requires RunProgress(c, run, archive, mark) && Open(run) && AtBatch(run.batches, b) && run.startMark.Some?
    requires BatchOk(c, batch) && batch.status.BatchCompleted? && batch.bins == run.batches[b].bins
    ensures var after := run.(batches := run.batches[b := batch]);
            && RunProgress(c, after, archive, mark)
            && forall source :: RunFresh(source, run) && CoveredBatch(source, run.staging, batch) ==> RunFresh(source, after)
  {
    hide CoveredBatch, BatchOk, CompleteAndClean;
    var after := run.(batches := run.batches[b := batch]);
    assert after.Scanned() == run.Scanned();
    forall source | RunFresh(source, run) && CoveredBatch(source, run.staging, batch) ensures RunFresh(source, after) {
    }
  }

  lemma FinishBatchKeeps(c: Config, w: World)
    requires c.Ok() && WorldInv(c, w) && Enabled(c, w, FinishBatch)
    ensures ProtocolInv(c, Step(c, w, FinishBatch))
  {
    hide LogExact, OneActive, LogOk, Replay, SnapshotsOk, ActiveCovers, CheckedByLast, LastScanned, Chronology,
         FromHistory, CoversChecked, HistoryOk, CoverageOk, RunsFresh, RunOk, RunProgress, BatchRows, AllStaged, RunFresh,
         FirstOpen, FirstSpent, PublishAccepts, TerminateAccepts, LaterThanAll, Apply, Step, Enabled;
    FinishBatchStep(c, w);
    var r, b := w.exec.run, w.exec.batch;
    var run := w.db.runs[r];
    var total := w.exec.offset + w.exec.count;
    var batch := run.batches[b].(pages := w.exec.pages, rows := total, status := BatchCompleted,
                                 completedAt := true, lastError := None);
    assert RunOk(c, run) && RunProgress(c, run, w.archive, w.mark);
    RunningInitialized(c, run);
    CurrentBatchOk(c, w, r, b);
    BatchFinished(c, run, b, batch, w.archive, w.mark);
    if run.startMark == Some(w.mark) {
      FreshAtMark(w, r);
      var rows := BatchRows(w.source, batch.bins);
      assert rows[..total] == rows;
      PageCount(w.exec.pages, c.pageSize, w.exec.count);
      assert CoveredBatch(w.source, run.staging, batch);
    }
    BatchWrites(c, w.db, r, b);
    RunWriteStep(c, w, Step(c, w, FinishBatch), r, run.(batches := run.batches[b := batch]));
  }

  // ---- Recording the end mark ----

  lemma EndMarkRecorded(c: Config, run: Run, m: nat, archive: map<nat, Source>, mark: nat)
    requires RunProgress(c, run, archive, mark) && CompleteAndClean(run.batches)
    requires run.startMark.Some? && run.startMark.value <= m <= mark
    ensures var after := run.(endMark := Some(m));
            && RunProgress(c, after, archive, mark)
            && forall source :: RunFresh(source, run) ==> RunFresh(source, after)
  {
    hide BatchesOk, CompleteAndClean, CoveredBatch, NoneCompleted;
    assert run.(endMark := Some(m)).Scanned() == run.Scanned();
  }

  lemma RecordEndMarkKeeps(c: Config, w: World)
    requires c.Ok() && WorldInv(c, w) && Enabled(c, w, RecordEndMark)
    ensures ProtocolInv(c, Step(c, w, RecordEndMark))
  {
    hide LogExact, DbInv, RunsFresh, RunProgress, CompleteAndClean, RunFresh, SourceAt,
         FirstOpen, FirstSpent, PublishAccepts, TerminateAccepts, LaterThanAll, HasActive, Published, Terminated,
         InitializedRun, PersistedReady, CountsAsExpected, BatchRows, LiveSnapshot, AttemptFresh, Apply, Step, Enabled;
    RecordEndMarkStep(c, w);
    var r := w.exec.run;
    var run := w.db.runs[r];
    var written := run.(endMark := Some(w.exec.mark));
    assert RunProgress(c, run, w.archive, w.mark);
    EndMarkRecorded(c, run, w.exec.mark, w.archive, w.mark);
    if StillAtStart(written, w.mark, false) {
      assert StillAtStart(run, w.mark, EndRead(w.exec, r, run));
      FreshOf(w, r);
    }
    RunWrites(c, w.db, r);
    RunWriteStep(c, w, Step(c, w, RecordEndMark), r, written);
  }

  lemma FreshOf(w: World, r: RunId)
    requires RunsFresh(w) && r in w.db.runs
    requires StillAtStart(w.db.runs[r], w.mark, EndRead(w.exec, r, w.db.runs[r]))
    ensures RunFresh(SourceAt(w.archive, w.db.runs[r].startMark), w.db.runs[r])
  {
  }

  // ---- Publication ----

  /** A fresh run with every batch completed has staged exactly the normalized source of its scope. */
  lemma StagedExactly(c: Config, source: Source, run: Run)
    requires c.Ok() && source.Ok() && RunOk(c, run) && run.initialized
    requires RunFresh(source, run) && CompleteAndClean(run.batches)
    ensures AllValidOn(source, run.Scanned())
    ensures run.staging == NormalizedOn(source, run.Scanned())
  {
    hide RunOk, BatchRows;
    var scanned := run.Scanned();
    forall id | id in source.rows && source.rows[id].OnBin() in scanned
      ensures source.rows[id].Valid? && id in run.staging
    {
      ScannedInBatches(c, run, source.rows[id].OnBin());
      var i :| 0 <= i < |run.batches| && source.rows[id].OnBin() in run.batches[i].bins;
      assert CoveredBatch(source, run.staging, run.batches[i]);
      var row := PageRow(id, source.rows[id]);
      BatchRowsMembers(source, run.batches[i].bins, row);
      assert row in BatchRows(source, run.batches[i].bins);
    }
  }

  /** Ending a run: its scope, staging, batches and marks stay as they were. */
  lemma RunEnded(c: Config, w: World, after: World, r: RunId)
    requires RunsProgress(c, w) && RunsFresh(w)
    requires r in w.db.runs && r in after.db.runs
    requires after.db.runs == w.db.runs[r := after.db.runs[r]]
    requires after.db.runs[r] == w.db.runs[r].(status := after.db.runs[r].status, lastError := after.db.runs[r].lastError)
    requires after.archive == w.archive && after.mark == w.mark && after.exec.Gone?
    ensures RunsProgress(c, after) && RunsFresh(after)
  {
    hide BatchesOk, NoneCompleted, CompleteAndClean, CoveredBatch, SourceAt;
    var run := after.db.runs[r];
    assert run.Scanned() == w.db.runs[r].Scanned();
    assert RunProgress(c, w.db.runs[r], w.archive, w.mark);
    assert forall source :: RunFresh(source, w.db.runs[r]) ==> RunFresh(source, run);
    hide RunProgress, RunFresh;
    forall s | s in after.db.runs && StillAtStart(after.db.runs[s], after.mark, EndRead(after.exec, s, after.db.runs[s]))
      ensures RunFresh(SourceAt(after.archive, after.db.runs[s].startMark), after.db.runs[s])
    {
      if s == r {
        assert StillAtStart(w.db.runs[r], w.mark, EndRead(w.exec, r, w.db.runs[r]));
      }
    }
  }

  lemma PublishedExact(c: Config, w: World, r: RunId, at: nat)
    requires c.Ok() && WorldInv(c, w) && PublishAccepts(w.db, r)
    ensures LogExact(w.archive, Published(w.db, r, at).accepted)
  {
    hide OneActive, LogOk, Replay, SnapshotsOk, ActiveCovers, CheckedByLast, LastScanned, Chronology,
         FromHistory, CoversChecked, HistoryOk, CoverageOk, RunsFresh, RunOk, RunFresh, CompleteAndClean,
         CoversExactly, CoverageChecks, ExecOk, ExecFresh, Reconcile, Promote, UpsertChecked, UpsertIdentifiersChanged;
    var run := w.db.runs[r];
    assert RunOk(c, run) && RunProgress(c, run, w.archive, w.mark);
    assert run.startMark.value in w.archive;
    FreshOf(w, r);
    StagedExactly(c, w.archive[run.startMark.value], run);
  }

  lemma PublishedEnds(db: Db, r: RunId, at: nat)
    requires PublishAccepts(db, r)
    ensures r in db.runs
    ensures Published(db, r, at).runs == db.runs[r := db.runs[r].(status := Completed, lastError := None)]
  {
    hide Reconcile, Promote, UpsertChecked, UpsertIdentifiersChanged, AcceptanceChecks, CoverageChecks;
    assert AcceptanceChecks(db.runs[r]);
  }

  lemma PublishAcceptedKeeps(c: Config, w: World, at: nat)
    requires c.Ok() && WorldInv(c, w) && Enabled(c, w, PublishAccepted(at))
    ensures ProtocolInv(c, Step(c, w, PublishAccepted(at)))
  {
    hide DbInv, LogExact, RunsProgress, RunsFresh, PublishAccepts, Published, FirstOpen, FirstSpent, TerminateAccepts,
         LaterThanAll, HasActive, Terminated, InitializedRun, PersistedReady, CountsAsExpected, BatchRows, LiveSnapshot, Step, Enabled;
    PublicationStep(c, w, PublishAccepted(at));
    var r := w.exec.run;
    var after := Step(c, w, PublishAccepted(at));
    if PublishAccepts(w.db, r) {
      PublishedExact(c, w, r, at);
      PublishedEnds(w.db, r, at);
      RunEnded(c, w, after, r);
    } else {
      MoveKeeps(c, w, after);
    }
  }

  lemma PublishTerminalKeeps(c: Config, w: World, a: Action)
    requires c.Ok() && WorldInv(c, w) && Enabled(c, w, a) && (a.PublishFailure? || a.PublishSourceChanged?)
    ensures ProtocolInv(c, Step(c, w, a))
  {
    hide DbInv, LogExact, RunsProgress, RunsFresh, UpsertFailed, OneVersionEach, Published, PublishAccepts, Step, Enabled;
    PublicationStep(c, w, a);
    var r := w.exec.run;
    var after := Step(c, w, a);
    if after.db == w.db {
      MoveKeeps(c, w, after);
    } else {
      RunEnded(c, w, after, r);
    }
  }

  // ---- Surroundings ----

  lemma ChangeSourceKeeps(c: Config, w: World, to: Source, mark: nat)
    requires c.Ok() && WorldInv(c, w) && Enabled(c, w, ChangeSource(to, mark))
    ensures ProtocolInv(c, Step(c, w, ChangeSource(to, mark)))
  {
    hide DbInv, RunFresh, BatchesOk, CompleteAndClean, NoneCompleted, AllValidOn, NormalizedOn, AttemptFresh,
         FromHistory, CoversChecked, Step, Enabled;
    ChangeSourceStep(c, w, to, mark);
    var after := Step(c, w, ChangeSource(to, mark));
    forall r | r in after.db.runs ensures RunProgress(c, after.db.runs[r], after.archive, after.mark) {
      assert RunProgress(c, w.db.runs[r], w.archive, w.mark);
    }
    forall r | r in after.db.runs && StillAtStart(after.db.runs[r], after.mark, EndRead(after.exec, r, after.db.runs[r]))
      ensures RunFresh(SourceAt(after.archive, after.db.runs[r].startMark), after.db.runs[r])
    {
      assert RunProgress(c, w.db.runs[r], w.archive, w.mark);
      assert StillAtStart(w.db.runs[r], w.mark, EndRead(w.exec, r, w.db.runs[r]));
    }
    if ExecBatch(after) { assert RunProgress(c, TheRun(w), w.archive, w.mark); }
  }

  lemma HistoryKeepsRows(history: map<(PropertyId, nat), set<Bin>>, key: (PropertyId, nat), bins: set<Bin>,
                         rows: set<SnapshotRow>)
    requires key !in history && FromHistory(history, rows)
    ensures FromHistory(history[key := bins], rows)
  {
  }

  lemma WriteKeepsCovers(properties: map<PropertyId, Property>, coverage: map<PropertyId, Coverage>,
                         rows: set<SnapshotRow>, p: PropertyId, property: Property, row: Coverage)
    requires CoversChecked(properties, coverage, rows) && row.status.NotChecked?
    ensures CoversChecked(properties[p := property], coverage[p := row], rows)
  {
  }

  /** A write to one property: the run tables stay, and a snapshot in memory stays usable. */
  lemma PropertyWrittenKeeps(c: Config, w: World, after: World, p: PropertyId, property: Property, row: Coverage)
    requires ProtocolInv(c, w) && HistoryOk(w.db.properties, w.db.history)
    requires (p, property.version) !in w.db.history && row.status.NotChecked?
    requires after == w.(db := w.db.(properties := w.db.properties[p := property],
                                     coverage := w.db.coverage[p := row],
                                     history := w.db.history[(p, property.version) := property.bins]))
    ensures ProtocolInv(c, after)
  {
    hide FromHistory, CoversChecked, RunProgress, RunFresh, AttemptFresh, Exact, SourceAt;
    if w.exec.HasSnapshot? {
      HistoryKeepsRows(w.db.history, (p, property.version), property.bins, w.exec.rows);
      WriteKeepsCovers(w.db.properties, w.db.coverage, w.exec.rows, p, property, row);
    }
  }

  lemma RegistrationKeeps(c: Config, w: World, a: Action)
    requires c.Ok() && WorldInv(c, w) && (a.Register? || a.ChangeBins?) && Enabled(c, w, a)
    ensures ProtocolInv(c, Step(c, w, a))
  {
    hide Step, Enabled, ProtocolInv, DbInv;
    RegistrationStep(c, w, a);
    HistoryIsOk(c, w);
    var after := Step(c, w, a);
    if after != w { RegistrationWritten(c, w, after, a.property, a.bins); }
  }

  lemma HistoryIsOk(c: Config, w: World)
    requires c.Ok() && WorldInv(c, w)
    ensures HistoryOk(w.db.properties, w.db.history)
  {
    hide ProtocolInv, OneActive, RunsOk, LogOk, Replay, SnapshotsOk, ActiveCovers, CheckedByLast, LastScanned, Chronology,
         CoverageOk, HistoryOk;
  }

  lemma RegistrationWritten(c: Config, w: World, after: World, p: PropertyId, bins: set<Bin>)
    requires c.Ok() && ProtocolInv(c, w) && HistoryOk(w.db.properties, w.db.history) && after != w
    requires after == w.(db := Apply(c, w.db, RegisterProperty(p, bins)))
             || after == w.(db := Apply(c, w.db, ApplyBins(p, bins)))
    ensures ProtocolInv(c, after)
  {
    hide ProtocolInv, InitialCoverage, CoverageAfterBinChange, PublishAccepts, TerminateAccepts, Published, Terminated,
         HasActive, InitializedRun, WithBatch;
    NotCheckedCoverage(w.db, p, bins);
    PropertyWrittenKeeps(c, w, after, p, after.db.properties[p], after.db.coverage[p]);
  }

  lemma NotCheckedCoverage(db: Db, p: PropertyId, bins: set<Bin>)
    ensures InitialCoverage(bins).status.NotChecked?
    ensures CoverageAfterBinChange(Lookup(db.coverage, p), bins).status.NotChecked?
  {
  }

  // ---- Every step ----

  predicate AttemptAction(a: Action) {
    || a.BeginAttempt? || a.AttemptsExhausted? || a.BudgetSpent? || a.AllCompleted? || a.MarkRunning? || a.FetchPage?
    || a.StageRow? || a.StorePage? || a.FailAttempt? || a.FinishBatch? || a.PageLimitReached? || a.NextPage?
  }

  lemma AttemptStepIsOp(c: Config, w: World, a: Action)
    requires c.Ok() && Enabled(c, w, a) && AttemptAction(a)
    ensures Step(c, w, a).db == ApplyMaybe(c, w.db, OpOf(c, w, a))
  {
    hide Apply, FirstOpen, FirstSpent, PersistedReady, HasActive, BatchRows, LiveSnapshot, Slice, CountsAsExpected;
  }

  lemma OtherStepIsOp(c: Config, w: World, a: Action)
    requires c.Ok() && Enabled(c, w, a) && !AttemptAction(a)
    ensures Step(c, w, a).db == ApplyMaybe(c, w.db, OpOf(c, w, a))
  {
    hide Apply, FirstOpen, FirstSpent, PersistedReady, HasActive, BatchRows, LiveSnapshot, Slice, CountsAsExpected;
  }

  lemma StepIsOp(c: Config, w: World, a: Action)
    requires c.Ok() && Enabled(c, w, a)
    ensures Step(c, w, a).db == ApplyMaybe(c, w.db, OpOf(c, w, a))
  {
    hide Apply, Step, Enabled, OpOf, AttemptAction;
    if AttemptAction(a) { AttemptStepIsOp(c, w, a); } else { OtherStepIsOp(c, w, a); }
  }

  lemma OpGranted(c: Config, w: World, a: Action)
    requires c.Ok() && ExecOk(c, w) && Enabled(c, w, a)
    ensures OpOf(c, w, a).Some? ==> OpOk(w.db, OpOf(c, w, a).value)
  {
    hide FromHistory, CoversChecked, FirstOpen, FirstSpent, PersistedReady, HasActive, CompleteAndClean,
         MarksAgree, BatchRows, LiveSnapshot, Slice, CountsAsExpected;
  }

  lemma StepKeepsDb(c: Config, w: World, a: Action)
    requires c.Ok() && WorldInv(c, w) && Enabled(c, w, a)
    ensures DbInv(c, Step(c, w, a).db)
  {
    hide DbInv, Apply, Step, Enabled, OpOf, OpOk, ExecOk, RunsProgress, RunsFresh, ExecFresh, LogExact, SourcesOk;
    StepIsOp(c, w, a);
    OpGranted(c, w, a);
    if op :| OpOf(c, w, a) == Some(op) { ApplyKeeps(c, w.db, op); }
  }

  lemma StepKeeps(c: Config, w: World, a: Action)
    requires c.Ok() && WorldInv(c, w) && Enabled(c, w, a)
    ensures WorldInv(c, Step(c, w, a))
  {
    StepKeepsDb(c, w, a);
    hide Step, ProtocolInv, DbInv;
    if PlainMove(a) {
      PlainMoveKeeps(c, w, a);
    } else {
      match a
      case CreateRun(r) => CreateRunKeeps(c, w, r);
      case ReadSnapshot => ReadSnapshotKeeps(c, w);
      case StoreSnapshot => StoreSnapshotKeeps(c, w);
      case StartRun(at) => StartRunKeeps(c, w, at);
      case ResumeFailed => FailureFoundKeeps(c, w, a);
      case ResumeUnchanged => ResumeUnchangedKeeps(c, w);
      case BeginAttempt => BeginAttemptKeeps(c, w);
      case AttemptsExhausted => FailureFoundKeeps(c, w, a);
      case BudgetSpent => BudgetSpentKeeps(c, w);
      case AllCompleted => AllCompletedKeeps(c, w);
      case MarkRunning => MarkRunningKeeps(c, w);
      case FetchPage => FetchPageKeeps(c, w);
      case StageRow => StageRowKeeps(c, w);
      case StorePage => StorePageKeeps(c, w);
      case FailAttempt(_) => FailBatchKeeps(c, w, a);
      case FinishBatch => FinishBatchKeeps(c, w);
      case PageLimitReached => FailBatchKeeps(c, w, a);
      case NextPage => NextPageKeeps(c, w);
      case ReadEndMark => ReadEndMarkKeeps(c, w);
      case RecordEndMark => RecordEndMarkKeeps(c, w);
      case PublishAccepted(at) => PublishAcceptedKeeps(c, w, at);
      case PublishFailure(_) => PublishTerminalKeeps(c, w, a);
      case PublishSourceChanged(_) => PublishTerminalKeeps(c, w, a);
      case ChangeSource(to, mark) => ChangeSourceKeeps(c, w, to, mark);
      case Register(_, _) => RegistrationKeeps(c, w, a);
      case ChangeBins(_, _) => RegistrationKeeps(c, w, a);
    }
  }

  /** Every state any execution passes through satisfies the invariant. */
  lemma {:induction false} ExecutionKeeps(c: Config, trace: seq<World>, actions: seq<Action>, i: nat)
    requires c.Ok() && Executes(c, trace, actions) && i < |trace|
    ensures WorldInv(c, trace[i])
  {
    hide WorldInv, Step, Enabled, Initial;
    if i == 0 {
      InitialInv(c, trace[0]);
    } else {
      ExecutionKeeps(c, trace, actions, i - 1);
      StepKeeps(c, trace[i - 1], actions[i - 1]);
    }
  }

  lemma ReachableInv(c: Config, w: World)
    requires c.Ok() && Reachable(c, w)
    ensures WorldInv(c, w)
  {
    hide WorldInv, Step, Enabled, Initial;
    var trace, actions :| Executes(c, trace, actions) && trace[|trace| - 1] == w;
    ExecutionKeeps(c, trace, actions, |trace| - 1);
  }
}
