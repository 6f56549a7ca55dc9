/** What the protocol guarantees in every reachable state and over every execution. */
module EcbProtocolTheorems {
  import opened Prelude
  import opened EcbTables
  import opened EcbTransactions
  import opened EcbDatabaseInvariant
  import opened EcbDatabaseTheorems
  import opened EcbProtocol
  import P = EcbProtocolInvariant

  lemma ReachableStep(c: Config, w: World, a: Action)
    requires c.Ok() && Reachable(c, w) && Enabled(c, w, a)
    ensures Reachable(c, Step(c, w, a))
  {
    hide Step, Enabled, Initial;
    var trace, actions :| Executes(c, trace, actions) && trace[|trace| - 1] == w;
    assert Executes(c, trace + [Step(c, w, a)], actions + [a]);
  }

  // ---- Hand-off ----

  /** Processed BINs, flattened from the definitions, are the sorted distinct BINs of the snapshot. */
  lemma ProcessedExactly(c: Config, run: Run)
    requires c.Ok() && RunOk(c, run) && run.initialized
    ensures CoversExactly(ProcessedBins(run), run.Scanned())
  {
    hide Partition;
    var sorted := SortedSeq(run.Scanned());
    P.PartitionFlattens(sorted, c.batchSize);
    assert ToSet(sorted) == run.Scanned();
  }

  lemma SnapshotJoins(properties: map<PropertyId, Property>, history: map<(PropertyId, nat), set<Bin>>,
                      rows: set<SnapshotRow>)
    requires HistoryOk(properties, history) && FromHistory(history, rows)
    ensures JoinedRows(properties, rows) == rows && OneVersionEach(rows)
  {
    forall a, b | a in rows && b in rows && a.property == b.property ensures a.version == b.version {
      assert SnapshotRow(b.property, b.version, b.bin) in rows;
    }
  }

  lemma CompletedRunAccepted(c: Config, db: Db, r: RunId)
    requires c.Ok() && DbInv(c, db) && r in db.runs
    requires db.runs[r].status.Running? && MarksAgree(db.runs[r]) && CompleteAndClean(db.runs[r].batches)
    ensures PublishAccepts(db, r)
  {
    hide OneActive, LogOk, Replay, ActiveCovers, CheckedByLast, LastScanned, Chronology, CoverageOk, FromHistory,
         HistoryOk, OneVersionEach, JoinedRows, CoversExactly, SortedSeq, Partition, Flatten;
    var run := db.runs[r];
    assert RunOk(c, run) && FromHistory(db.history, run.snapshot);
    ProcessedExactly(c, run);
    SnapshotJoins(db.properties, db.history, run.snapshot);
  }

  /**
   * A run handed off as ready, fresh or resumed, passes the acceptance checks and the coverage
   * checks made again behind them: publication never rejects it.
   */
  lemma ReadyIsAccepted(c: Config, w: World)
    requires c.Ok() && Reachable(c, w) && w.exec.Ready?
    ensures PublishAccepts(w.db, w.exec.run)
  {
    P.ReachableInv(c, w);
    hide DbInv, Reachable;
    CompletedRunAccepted(c, w.db, w.exec.run);
  }

  /** A failure or source change the executor decided on is always accepted for publication. */
  lemma TerminalIsAccepted(c: Config, w: World)
    requires c.Ok() && Reachable(c, w)
    ensures w.exec.Failing? ==> TerminateAccepts(w.db, w.exec.run, RunFailed, w.exec.error)
    ensures w.exec.SourceChanging? ==> TerminateAccepts(w.db, w.exec.run, SourceChanged, SOURCE_CHANGED_ERROR)
  {
    hide Reachable, P.WorldInv, P.ExecOk, FromHistory, HistoryOk, OneVersionEach, RunOk;
    P.ReachableInv(c, w);
    if w.exec.Failing? || w.exec.SourceChanging? {
      ExecOf(c, w);
      TerminalPoint(c, w);
      ScopesOf(c, w);
      var run := w.db.runs[w.exec.run];
      if run.status.Running? { P.RunningInitialized(c, run); }
      if run.initialized { SnapshotJoins(w.db.properties, w.db.history, run.snapshot); }
    }
  }

  lemma TerminalPoint(c: Config, w: World)
    requires P.ExecOk(c, w)
    ensures w.exec.Failing? ==> w.exec.run in w.db.runs && w.db.runs[w.exec.run].Active() && w.exec.error != ""
    ensures w.exec.SourceChanging? ==> w.exec.run in w.db.runs && w.db.runs[w.exec.run].status.Running?
  {
  }

  lemma ScopesOf(c: Config, w: World)
    requires c.Ok() && P.WorldInv(c, w)
    ensures forall r :: r in w.db.runs ==> RunOk(c, w.db.runs[r])
    ensures HistoryOk(w.db.properties, w.db.history)
    ensures forall r :: r in w.db.runs && w.db.runs[r].initialized ==> FromHistory(w.db.history, w.db.runs[r].snapshot)
  {
    hide P.ProtocolInv, OneActive, LogOk, Replay, ActiveCovers, CheckedByLast, LastScanned, Chronology, CoverageOk,
         FromHistory, HistoryOk, RunOk;
  }

  // ---- Freshness ----

  lemma NarrowerScope(live: Live, source: Source, scanned: set<Bin>, bins: set<Bin>)
    requires bins <= scanned
    requires CurrentOn(live, scanned) == NormalizedOn(source, scanned) && AllValidOn(source, scanned)
    ensures CurrentOn(live, bins) == NormalizedOn(source, bins) && AllValidOn(source, bins)
  {
    var current, normalized := CurrentOn(live, bins), NormalizedOn(source, bins);
    forall id ensures id in current <==> id in normalized {
      assert id in CurrentOn(live, scanned) <==> id in NormalizedOn(source, scanned);
    }
    forall id | id in current ensures current[id] == normalized[id] {
      assert id in CurrentOn(live, scanned);
    }
  }

  lemma LastAcceptanceServed(c: Config, db: Db, archive: map<nat, Source>)
    requires c.Ok() && DbInv(c, db) && P.LogExact(archive, db.accepted) && db.accepted != []
    ensures var a := db.accepted[|db.accepted| - 1];
            && a.mark in archive && AllValidOn(archive[a.mark], a.scanned)
            && CurrentOn(db.live, a.scanned) == NormalizedOn(archive[a.mark], a.scanned)
  {
    hide OneActive, RunsOk, LogOk, ActiveCovers, CheckedByLast, LastScanned, Chronology, CoverageOk, SnapshotsOk,
         HistoryOk, AllValidOn;
    var a := db.accepted[|db.accepted| - 1];
    assert P.Exact(archive, a);
    AcceptanceIsExactOnScope(Replay(db.accepted[..|db.accepted| - 1]), a);
  }

  /**
   * In every reachable state, whatever the interleaving of crashes, lost locks, resumes, source
   * changes and BIN changes: a property whose coverage is CHECKED has, as its current live rows,
   * exactly the normalized source rows of its current BINs as the source stood at the watermark
   * the coverage names, and the success it names is the completed run that started last.
   */
  lemma CheckedMeansExact(c: Config, w: World, p: PropertyId)
    requires c.Ok() && Reachable(c, w)
    requires p in w.db.coverage && w.db.coverage[p].status.Checked?
    ensures var row := w.db.coverage[p];
            && p in w.db.properties
            && row.watermark.Some? && row.watermark.value in w.archive
            && var source, bins := w.archive[row.watermark.value], w.db.properties[p].bins;
            && AllValidOn(source, bins)
            && CurrentOn(w.db.live, bins) == NormalizedOn(source, bins)
    ensures var success := w.db.coverage[p].lastSuccess;
            && success.Some? && success.value in w.db.runs
            && w.db.runs[success.value].status.Completed? && w.db.runs[success.value].startedAt.Some?
            && forall s :: s in w.db.runs && w.db.runs[s].status.Completed? && w.db.runs[s].startedAt.Some? ==>
                 w.db.runs[s].startedAt.value <= w.db.runs[success.value].startedAt.value
  {
    P.ReachableInv(c, w);
    LastAcceptanceServed(c, w.db, w.archive);
    hide Reachable, OneActive, Replay, ActiveCovers, SnapshotsOk, HistoryOk, AllValidOn, Partition, SortedSeq;
    var row := w.db.coverage[p];
    var last := w.db.accepted[|w.db.accepted| - 1];
    assert CoverageRowOk(w.db.properties[p], row, p, w.db.runs);
    assert RunOk(c, w.db.runs[last.run]);
    var snapshot := w.db.runs[last.run].snapshot;
    forall b | b in w.db.properties[p].bins ensures b in last.scanned {
      assert SnapshotRow(p, w.db.properties[p].version, b) in snapshot;
    }
    NarrowerScope(w.db.live, w.archive[last.mark], last.scanned, w.db.properties[p].bins);
  }

  /**
   * Publication of a ready run always completes it, and leaves as current live rows over its
   * scanned BINs exactly the normalized source rows of those BINs at its start mark.
   */
  lemma CompletionIsExact(c: Config, w: World, at: nat)
    requires c.Ok() && Reachable(c, w) && Enabled(c, w, PublishAccepted(at))
    ensures var r, after := w.exec.run, Step(c, w, PublishAccepted(at));
            && r in after.db.runs && after.db.runs[r].status.Completed?
            && var run := after.db.runs[r];
            && run.startMark.Some? && run.startMark.value in after.archive
            && AllValidOn(after.archive[run.startMark.value], run.Scanned())
            && CurrentOn(after.db.live, run.Scanned()) == NormalizedOn(after.archive[run.startMark.value], run.Scanned())
  {
    hide Reachable, DbInv, P.WorldInv, P.ProtocolInv, AllValidOn, PublishAccepts, Published, Step, Enabled, P.LogExact;
    P.ReachableInv(c, w);
    P.PublicationStep(c, w, PublishAccepted(at));
    ReadyIsAccepted(c, w);
    P.StepKeeps(c, w, PublishAccepted(at));
    var r := w.exec.run;
    var after := Step(c, w, PublishAccepted(at));
    assert after.db == Published(w.db, r, at) by { AcceptedStep(c, w, at); }
    PublishedRun(w.db, r, at);
    LogOf(c, after);
    LastAcceptanceServed(c, after.db, after.archive);
  }

  lemma AcceptedStep(c: Config, w: World, at: nat)
    requires c.Ok() && Enabled(c, w, PublishAccepted(at)) && PublishAccepts(w.db, w.exec.run)
    ensures Step(c, w, PublishAccepted(at)) == w.(db := Published(w.db, w.exec.run, at), exec := Gone)
  {
    hide PublishAccepts, Published;
  }

  lemma LogOf(c: Config, w: World)
    requires c.Ok() && P.WorldInv(c, w)
    ensures DbInv(c, w.db) && P.LogExact(w.archive, w.db.accepted)
  {
    hide DbInv, P.LogExact;
  }

  lemma PublishedRun(db: Db, r: RunId, at: nat)
    requires PublishAccepts(db, r)
    ensures var run, after := db.runs[r], Published(db, r, at);
            && r in after.runs && after.runs[r] == run.(status := Completed, lastError := None)
            && after.runs[r].Scanned() == run.Scanned()
            && run.startMark.Some?
            && after.accepted != []
            && var last := after.accepted[|after.accepted| - 1];
            && last.mark == run.startMark.value && last.scanned == run.Scanned() && last.run == r
  {
    hide Reconcile, Promote, UpsertChecked, UpsertIdentifiersChanged, CoverageChecks, CoversExactly, CompleteAndClean;
  }

  lemma OpKeepsLive(c: Config, db: Db, op: Op)
    requires c.Ok() && !op.Publish?
    ensures Apply(c, db, op).live == db.live
  {
    hide PublishAccepts, UpsertFailed, TerminateAccepts, HasActive, Published, InitializedRun, InitialCoverage,
         CoverageAfterBinChange, LiveSnapshot;
  }

  /** A run that fails, or finds the source changed, leaves live state and the served rows alone. */
  lemma OnlyAcceptanceTouchesLive(c: Config, w: World, a: Action)
    requires c.Ok() && Enabled(c, w, a) && !a.PublishAccepted?
    ensures Step(c, w, a).db.live == w.db.live
  {
    P.StepIsOp(c, w, a);
    assert OpOf(c, w, a).Some? ==> !OpOf(c, w, a).value.Publish? by { OtherOp(c, w, a); }
    hide Step, Apply, OpOf, Enabled;
    if op :| OpOf(c, w, a) == Some(op) { OpKeepsLive(c, w.db, op); }
  }

  lemma OtherOp(c: Config, w: World, a: Action)
    requires c.Ok() && Enabled(c, w, a) && !a.PublishAccepted?
    ensures OpOf(c, w, a).Some? ==> !OpOf(c, w, a).value.Publish?
  {
  }

  // ---- Attempt budget ----

  /** No batch of any run exceeds its budget, and COMPLETED batches form a prefix, in every reachable state. */
  lemma BudgetAndPrefix(c: Config, w: World, r: RunId, i: nat, j: nat)
    requires c.Ok() && Reachable(c, w)
    requires r in w.db.runs && i <= j < |w.db.runs[r].batches|
    ensures w.db.runs[r].batches[j].attempts <= c.maxAttempts
    ensures w.db.runs[r].batches[j].status.BatchCompleted? ==> w.db.runs[r].batches[i].status.BatchCompleted?
  {
    P.ReachableInv(c, w);
    assert P.RunProgress(c, w.db.runs[r], w.archive, w.mark);
    assert P.BatchOk(c, w.db.runs[r].batches[j]);
  }

  /** Attempts the batches of a run may still use. */
  function Unused(batches: seq<Batch>, limit: nat): int {
    if batches == [] then 0 else limit - batches[0].attempts + Unused(batches[1..], limit)
  }

  lemma {:induction false} UnusedAfterWrite(batches: seq<Batch>, limit: nat, b: nat, batch: Batch)
    requires b < |batches|
    ensures Unused(batches[b := batch], limit) == Unused(batches, limit) + batches[b].attempts - batch.attempts
  {
    if b == 0 {
      assert batches[b := batch][1..] == batches[1..];
    } else {
      assert batches[b := batch][1..] == batches[1..][b - 1 := batch];
      UnusedAfterWrite(batches[1..], limit, b - 1, batch);
    }
  }

  lemma {:induction false} UnusedBounds(c: Config, batches: seq<Batch>)
    requires forall i :: 0 <= i < |batches| ==> batches[i].attempts <= c.maxAttempts
    ensures 0 <= Unused(batches, c.maxAttempts) <= |batches| * c.maxAttempts
  {
    if batches == [] {
    } else {
      UnusedBounds(c, batches[1..]);
      assert |batches| * c.maxAttempts == |batches[1..]| * c.maxAttempts + c.maxAttempts;
    }
  }

  /** A transaction that begins an attempt of run `s`. */
  predicate BeginsOn(db: Db, op: Op, s: RunId) {
    op.IncrementAttempt? && op.run == s && HasBatch(db, s, op.batch)
  }

  lemma BatchWriteAccounts(c: Config, db: Db, r: RunId, b: nat, batch: Batch, s: RunId)
    requires HasBatch(db, r, b) && s in db.runs
    ensures var after := WithBatch(db, r, b, batch);
            && s in after.runs && after.runs[s].initialized == db.runs[s].initialized
            && |after.runs[s].batches| == |db.runs[s].batches|
            && Unused(after.runs[s].batches, c.maxAttempts)
               == Unused(db.runs[s].batches, c.maxAttempts)
                  + (if s == r then db.runs[r].batches[b].attempts - batch.attempts else 0)
  {
    UnusedAfterWrite(db.runs[r].batches, c.maxAttempts, b, batch);
  }

  lemma BatchOpAccounts(c: Config, db: Db, op: Op, s: RunId)
    requires c.Ok() && s in db.runs && db.runs[s].initialized
    requires op.IncrementAttempt? || op.MarkBatchRunning? || op.StoreProgress? || op.CompleteBatch? || op.FailBatch?
    requires HasBatch(db, op.run, op.batch) && (op.FailBatch? ==> op.error != "")
    ensures Accounts(c, db, op, s)
  {
    hide Apply, Unused, WithBatch;
    var r, b := op.run, op.batch;
    var batch := db.runs[r].batches[b];
    P.BatchWrites(c, db, r, b);
    match op
    case IncrementAttempt(_, _) => BatchWriteAccounts(c, db, r, b, batch.(attempts := batch.attempts + 1), s);
    case MarkBatchRunning(_, _) => BatchWriteAccounts(c, db, r, b, batch.(status := BatchRunning, lastError := None), s);
    case StoreProgress(_, _, pages, fetched) =>
      BatchWriteAccounts(c, db, r, b, batch.(pages := pages, rows := fetched), s);
    case CompleteBatch(_, _, pages, fetched) =>
      BatchWriteAccounts(c, db, r, b, batch.(pages := pages, rows := fetched, status := BatchCompleted,
                                             completedAt := true, lastError := None), s);
    case FailBatch(_, _, error) =>
      BatchWriteAccounts(c, db, r, b, batch.(status := BatchFailed, lastError := Some(error)), s);
  }

  /** What the transaction leaves of the attempts of run `s` is what it had, less the one it begins. */
  ghost predicate Accounts(c: Config, db: Db, op: Op, s: RunId)
    requires c.Ok() && s in db.runs
  {
    var after := Apply(c, db, op);
    && s in after.runs && after.runs[s].initialized && |after.runs[s].batches| == |db.runs[s].batches|
    && Unused(after.runs[s].batches, c.maxAttempts)
       == Unused(db.runs[s].batches, c.maxAttempts) - (if BeginsOn(db, op, s) then 1 else 0)
  }

  predicate OnBatch(db: Db, op: Op) {
    && (op.IncrementAttempt? || op.MarkBatchRunning? || op.StoreProgress? || op.CompleteBatch?
        || (op.FailBatch? && op.error != ""))
    && HasBatch(db, op.run, op.batch)
  }

  lemma OtherOpKeepsBatches(c: Config, db: Db, op: Op, s: RunId)
    requires c.Ok() && s in db.runs && db.runs[s].initialized && !OnBatch(db, op) && !op.Publish? && !op.Terminate?
    ensures var after := Apply(c, db, op);
            s in after.runs && after.runs[s].initialized && after.runs[s].batches == db.runs[s].batches
  {
    hide WithBatch, PublishAccepts, TerminateAccepts, Published, Terminated, InitializedRun, HasActive, InitialCoverage,
         CoverageAfterBinChange;
  }

  lemma PublicationKeepsBatches(c: Config, db: Db, op: Op, s: RunId)
    requires c.Ok() && s in db.runs && db.runs[s].initialized && (op.Publish? || op.Terminate?)
    ensures var after := Apply(c, db, op);
            s in after.runs && after.runs[s].initialized && after.runs[s].batches == db.runs[s].batches
  {
    hide PublishAccepts, TerminateAccepts, Published, Terminated, HasActive, InitializedRun, WithBatch, Registered, WithBins;
    match op
    case Publish(r, at) => if PublishAccepts(db, r) { P.PublishedEnds(db, r, at); }
    case Terminate(r, outcome, error, at) =>
      if TerminateAccepts(db, r, outcome, error) { TerminatedEnds(db, r, outcome, error, at); }
  }

  /** Once a run is initialized, beginning an attempt uses up one, and no other transaction uses or returns any. */
  lemma OpAccounts(c: Config, db: Db, op: Op, s: RunId)
    requires c.Ok() && s in db.runs && db.runs[s].initialized
    ensures var after := Apply(c, db, op);
            && s in after.runs && after.runs[s].initialized && |after.runs[s].batches| == |db.runs[s].batches|
            && Unused(after.runs[s].batches, c.maxAttempts)
               == Unused(db.runs[s].batches, c.maxAttempts) - (if BeginsOn(db, op, s) then 1 else 0)
  {
    hide Apply, Unused, BeginsOn, HasBatch;
    if OnBatch(db, op) {
      BatchOpAccounts(c, db, op, s);
    } else {
      if op.Publish? || op.Terminate? {
        PublicationKeepsBatches(c, db, op, s);
      } else {
        OtherOpKeepsBatches(c, db, op, s);
      }
      assert !BeginsOn(db, op, s) by { NotBegun(db, op, s); }
    }
  }

  lemma NotBegun(db: Db, op: Op, s: RunId)
    requires !OnBatch(db, op)
    ensures !BeginsOn(db, op, s)
  {
  }

  lemma TerminatedEnds(db: Db, r: RunId, outcome: RunStatus, error: string, at: nat)
    requires TerminateAccepts(db, r, outcome, error)
    ensures Terminated(db, r, outcome, error, at).runs
            == db.runs[r := db.runs[r].(status := outcome, lastError := Some(error))]
  {
    hide UpsertFailed;
  }

  /** Attempts of run `s` begun along the first `n` steps after step `from`. */
  ghost function AttemptsBegun(c: Config, trace: seq<World>, actions: seq<Action>, s: RunId, from: nat, n: nat): nat
    requires c.Ok() && |trace| == |actions| + 1 && from + n <= |actions|
  {
    if n == 0 then 0
    else
      AttemptsBegun(c, trace, actions, s, from, n - 1)
      + (var w, a := trace[from + n - 1], actions[from + n - 1];
         if a.BeginAttempt? && w.exec.Batching? && w.exec.run == s then 1 else 0)
  }

  lemma BeginIsOp(c: Config, w: World, a: Action, s: RunId)
    requires c.Ok() && Enabled(c, w, a)
    ensures a.BeginAttempt? && w.exec.Batching? && w.exec.run == s
            <==> OpOf(c, w, a).Some? && BeginsOn(w.db, OpOf(c, w, a).value, s)
  {
    hide Apply, FirstSpent, PersistedReady, HasActive, BatchRows, LiveSnapshot, Slice, CountsAsExpected;
  }

  /**
   * The attempts an initialized run begins, over any stretch of any execution with its crashes
   * and resumes, are exactly what its batches have used up; so there are at most batches times
   * budget of them, and the batch loop, which begins one on each pass, ends.
   */
  lemma {:induction false} AttemptsAccounted(c: Config, trace: seq<World>, actions: seq<Action>, s: RunId,
                                             from: nat, n: nat)
    requires c.Ok() && Executes(c, trace, actions) && from + n <= |actions|
    requires s in trace[from].db.runs && trace[from].db.runs[s].initialized
    ensures var before, after := trace[from].db.runs, trace[from + n].db.runs;
            && s in after && after[s].initialized && |after[s].batches| == |before[s].batches|
            && AttemptsBegun(c, trace, actions, s, from, n)
               == Unused(before[s].batches, c.maxAttempts) - Unused(after[s].batches, c.maxAttempts)
            && AttemptsBegun(c, trace, actions, s, from, n) <= |before[s].batches| * c.maxAttempts
    decreases n
  {
    hide Step, Enabled, Initial, Apply, Unused, OpOf, BeginsOn;
    if n > 0 {
      AttemptsAccounted(c, trace, actions, s, from, n - 1);
      var w, a := trace[from + n - 1], actions[from + n - 1];
      P.StepIsOp(c, w, a);
      BeginIsOp(c, w, a, s);
      if op :| OpOf(c, w, a) == Some(op) { OpAccounts(c, w.db, op, s); }
    }
    UnusedWithin(c, trace, actions, s, from);
    UnusedWithin(c, trace, actions, s, from + n);
  }

  lemma UnusedInState(c: Config, w: World, s: RunId)
    requires c.Ok() && P.WorldInv(c, w) && s in w.db.runs
    ensures 0 <= Unused(w.db.runs[s].batches, c.maxAttempts) <= |w.db.runs[s].batches| * c.maxAttempts
  {
    hide DbInv;
    var batches := w.db.runs[s].batches;
    forall k | 0 <= k < |batches| ensures batches[k].attempts <= c.maxAttempts { P.CurrentBatchOk(c, w, s, k); }
    UnusedBounds(c, batches);
  }

  lemma UnusedWithin(c: Config, trace: seq<World>, actions: seq<Action>, s: RunId, i: nat)
    requires c.Ok() && Executes(c, trace, actions) && i < |trace| && s in trace[i].db.runs
    ensures var batches := trace[i].db.runs[s].batches;
            0 <= Unused(batches, c.maxAttempts) <= |batches| * c.maxAttempts
  {
    P.ExecutionKeeps(c, trace, actions, i);
    UnusedInState(c, trace[i], s);
  }

  // ---- Attempts of one batch ----

  lemma SizeKnown(c: Config, w: World, r: RunId, k: nat)
    requires c.Ok() && Reachable(c, w) && r in w.db.runs && k < |w.db.runs[r].batches|
    ensures w.db.runs[r].batches[k].pageSize == c.pageSize
  {
    hide Reachable, DbInv, P.RunsFresh, P.LogExact, P.ExecOk, P.ExecFresh, P.SourcesOk;
    P.ReachableInv(c, w);
    P.CurrentBatchOk(c, w, r, k);
  }

  function StagedOn(staging: map<SourceId, Violation>, bins: set<Bin>): map<SourceId, Violation> {
    map id | id in staging && staging[id].bin in bins :: staging[id]
  }

  lemma CoveredExactly(source: Source, run: Run, b: nat)
    requires source.Ok() && b < |run.batches|
    requires P.StagedFrom(source, run) && P.AllStaged(BatchRows(source, run.batches[b].bins), run.staging)
    ensures var bins := ToSet(run.batches[b].bins);
            AllValidOn(source, bins) && StagedOn(run.staging, bins) == NormalizedOn(source, bins)
  {
    hide BatchRows;
    var bins := ToSet(run.batches[b].bins);
    forall id | id in source.rows && source.rows[id].OnBin() in bins
      ensures source.rows[id].Valid? && id in run.staging
    {
      var row := PageRow(id, source.rows[id]);
      P.BatchRowsMembers(source, run.batches[b].bins, row);
      assert row in BatchRows(source, run.batches[b].bins);
    }
  }

  /**
   * However many failed partial attempts went before, in however many executions, a COMPLETED
   * batch of a run whose start mark is still current has staged for its BINs exactly what one clean
   * attempt stages: the normalized source rows, with n rows and n / pageSize + 1 pages recorded.
   */
  lemma CompletedBatchIsCleanAttempt(c: Config, w: World, r: RunId, b: nat)
    requires c.Ok() && Reachable(c, w) && r in w.db.runs && w.db.runs[r].startMark == Some(w.mark)
    requires b < |w.db.runs[r].batches| && w.db.runs[r].batches[b].status.BatchCompleted?
    ensures var batch := w.db.runs[r].batches[b];
            var bins, n := ToSet(batch.bins), |BatchRows(w.source, batch.bins)|;
            && AllValidOn(w.source, bins)
            && StagedOn(w.db.runs[r].staging, bins) == NormalizedOn(w.source, bins)
            && batch.rows == n && 0 < batch.pageSize && batch.pages == n / batch.pageSize + 1
  {
    P.ReachableInv(c, w);
    hide Reachable, DbInv, P.ExecOk, P.ExecFresh, P.LogExact, BatchRows, P.StagedFrom, P.AllStaged;
    P.FreshAtMark(w, r);
    P.CurrentBatchOk(c, w, r, b);
    assert P.CoveredBatch(w.source, w.db.runs[r].staging, w.db.runs[r].batches[b]);
    CoveredExactly(w.source, w.db.runs[r], b);
  }

  lemma FullPages(total: nat, size: nat, pages: nat)
    requires 0 < size && pages * size <= total
    ensures pages <= total / size
  {
    var q := total / size;
    assert total == q * size + total % size;
    P.MultipleApart(pages - q, size);
    assert (pages - q) * size == pages * size - q * size;
  }

  lemma PagesDecide(n: nat, size: nat, pages: nat, count: nat)
    requires 0 < size && 0 < pages && count <= size && (pages - 1) * size + count <= n
    requires count < size ==> (pages - 1) * size + count == n
    ensures count < size ==> pages == n / size + 1
    ensures count == size ==> pages <= n / size
  {
    P.NextOffset(pages, size);
    if count < size {
      P.PageCount(pages, size, count);
    } else {
      FullPages(n, size, pages);
    }
  }

  lemma PageStoredFacts(c: Config, w: World)
    requires c.Ok() && P.WorldInv(c, w) && w.exec.PageStored? && ExecBatch(w) && TheRun(w).startMark == Some(w.mark)
    ensures TheBatch(w).pageSize == c.pageSize
    ensures var n := |BatchRows(w.source, TheBatch(w).bins)|;
            && w.exec.count <= c.pageSize && w.exec.pages <= c.maxPages
            && (w.exec.count < c.pageSize ==> w.exec.pages == n / c.pageSize + 1)
            && (w.exec.count == c.pageSize ==> w.exec.pages <= n / c.pageSize)
  {
    hide DbInv, P.RunsFresh, P.LogExact, BatchRows, P.AllStaged, P.SourcesOk;
    P.CurrentBatchOk(c, w, w.exec.run, w.exec.batch);
    PagesDecide(|BatchRows(w.source, TheBatch(w).bins)|, c.pageSize, w.exec.pages, w.exec.count);
  }

  lemma PageDecision(c: Config, w: World)
    requires w.exec.PageStored? && ExecBatch(w)
    ensures Enabled(c, w, FinishBatch) ==> w.exec.count < TheBatch(w).pageSize
    ensures Enabled(c, w, PageLimitReached) ==> TheBatch(w).pageSize <= w.exec.count && c.maxPages <= w.exec.pages
  {
  }

  /**
   * While the source stands still, the page limit decides an attempt exactly: it can complete only
   * when n / pageSize is below the limit, and is failed for the limit only when it is not.
   */
  lemma LimitAtDecision(c: Config, w: World)
    requires c.Ok() && Reachable(c, w) && w.exec.PageStored? && ExecBatch(w) && TheRun(w).startMark == Some(w.mark)
    ensures 0 < c.pageSize
    ensures var n := |BatchRows(w.source, TheBatch(w).bins)|;
            && (Enabled(c, w, FinishBatch) ==> n / c.pageSize < c.maxPages && w.exec.pages == n / c.pageSize + 1)
            && (Enabled(c, w, PageLimitReached) ==> c.maxPages <= n / c.pageSize)
  {
    P.ReachableInv(c, w);
    PageStoredFacts(c, w);
    PageDecision(c, w);
    hide Reachable, P.WorldInv, BatchRows, Enabled;
  }

  // ---- The transaction system behind the protocol ----

  /** Every execution of the protocol is a sequence of granted transactions, so the theorems over those apply. */
  lemma {:induction false} ExecutionIsTransactions(c: Config, trace: seq<World>, actions: seq<Action>, i: nat)
    returns (ops: seq<Op>)
    requires c.Ok() && Executes(c, trace, actions) && i < |trace|
    ensures OpsOk(c, EMPTY_DB, ops) && ApplyAll(c, EMPTY_DB, ops) == trace[i].db
  {
    hide Step, Enabled, Apply, OpOf, OpOk, P.WorldInv;
    if i == 0 {
      ops := [];
    } else {
      ops := ExecutionIsTransactions(c, trace, actions, i - 1);
      var w, a := trace[i - 1], actions[i - 1];
      P.ExecutionKeeps(c, trace, actions, i - 1);
      P.StepIsOp(c, w, a);
      assert P.ExecOk(c, w) by { ExecOf(c, w); }
      P.OpGranted(c, w, a);
      if op :| OpOf(c, w, a) == Some(op) {
        OneMoreOp(c, EMPTY_DB, ops, op);
        ops := ops + [op];
      }
    }
  }

  lemma ExecOf(c: Config, w: World)
    requires c.Ok() && P.WorldInv(c, w)
    ensures P.ExecOk(c, w)
  {
    hide DbInv, P.ExecOk;
  }

  lemma {:induction false} OneMoreOp(c: Config, db: Db, ops: seq<Op>, op: Op)
    requires c.Ok() && OpsOk(c, db, ops) && OpOk(ApplyAll(c, db, ops), op)
    ensures OpsOk(c, db, ops + [op]) && ApplyAll(c, db, ops + [op]) == Apply(c, ApplyAll(c, db, ops), op)
    decreases |ops|
  {
    hide Apply, OpOk;
    if ops == [] {
      assert OpsOk(c, Apply(c, db, op), []);
      assert [op][1..] == [];
    } else {
      OneMoreOp(c, Apply(c, db, ops[0]), ops[1..], op);
      assert (ops + [op])[1..] == ops[1..] + [op];
    }
  }

  // ---- Progress ----

  /** A step the executor itself takes. */
  predicate ByExecutor(a: Action) {
    !a.LoseLock? && !a.Stop? && !a.ChangeSource? && !a.Register? && !a.ChangeBins? && !a.Acquire?
  }

  /** The guard of the transaction lets it through: no service throws on it. */
  ghost predicate Accepts(db: Db, op: Op) {
    match op
    case RegisterProperty(_, _) => true
    case ApplyBins(p, _) => p in db.properties
    case CreateQueued(r) => r !in db.runs && !HasActive(db)
    case Initialize(r, _) => r in db.runs && !db.runs[r].initialized
    case Start(r, _, _) => r in db.runs && db.runs[r].status.Queued? && db.runs[r].initialized && db.runs[r].startMark.None?
    case IncrementAttempt(r, b) => HasBatch(db, r, b)
    case MarkBatchRunning(r, b) => HasBatch(db, r, b)
    case StoreProgress(r, b, _, _) => HasBatch(db, r, b)
    case CompleteBatch(r, b, _, _) => HasBatch(db, r, b)
    case FailBatch(r, b, error) => HasBatch(db, r, b) && error != ""
    case Stage(r, _, _) => r in db.runs
    case StoreEndMark(r, _) => r in db.runs
    case Publish(r, _) => PublishAccepts(db, r)
    case Terminate(r, outcome, error, _) => TerminateAccepts(db, r, outcome, error)
  }

  /** The next row of the page does not pass validation. */
  predicate RowFails(w: World) {
    w.exec.Staging? && w.exec.next < |w.exec.page| && !w.exec.page[w.exec.next].row.Valid?
  }

  /** A step the executor can take, with its transaction accepted; it gives up only on an invalid row. */
  ghost predicate Takes(c: Config, w: World, a: Action)
    requires c.Ok()
  {
    && ByExecutor(a) && Enabled(c, w, a)
    && (a.FailAttempt? ==> RowFails(w))
    && (OpOf(c, w, a).Some? ==> Accepts(w.db, OpOf(c, w, a).value))
  }

  ghost predicate CanStep(c: Config, w: World)
    requires c.Ok()
  {
    exists a :: Takes(c, w, a)
  }

  lemma {:induction false} LaterInstantExists(runs: map<RunId, Run>, ids: set<RunId>) returns (at: nat)
    requires ids <= runs.Keys
    ensures forall s :: s in ids && runs[s].startedAt.Some? ==> runs[s].startedAt.value < at
  {
    at := 0;
    if ids != {} {
      var s :| s in ids;
      var rest := LaterInstantExists(runs, ids - {s});
      at := if runs[s].startedAt.Some? && rest <= runs[s].startedAt.value then runs[s].startedAt.value + 1 else rest;
    }
  }

  lemma {:induction false} FreshRunExists(runs: map<RunId, Run>, ids: set<RunId>) returns (r: RunId)
    requires ids <= runs.Keys
    ensures forall s :: s in ids ==> s < r
  {
    r := 0;
    if ids != {} {
      var s :| s in ids;
      var rest := FreshRunExists(runs, ids - {s});
      r := if rest <= s then s + 1 else rest;
      forall x | x in ids ensures x < r {
        assert x == s || x in ids - {s};
      }
    }
  }

  lemma AcquiredCanStep(c: Config, w: World)
    requires c.Ok() && w.exec.Acquired?
    ensures CanStep(c, w)
  {
    hide Apply;
    if HasActive(w.db) {
      var r :| r in w.db.runs && w.db.runs[r].Active();
      if w.db.runs[r].status.Queued? {
        assert Takes(c, w, PickQueued(r));
      } else {
        assert Takes(c, w, PickRunning(r));
      }
    } else {
      var r := FreshRunExists(w.db.runs, w.db.runs.Keys);
      assert r !in w.db.runs;
      assert Takes(c, w, CreateRun(r));
    }
  }

  lemma StartCanStep(c: Config, w: World)
    requires c.Ok() && w.exec.HasStartMark? && ExecRun(w)
    requires TheRun(w).status.Queued? && TheRun(w).initialized && TheRun(w).startMark.None?
    ensures CanStep(c, w)
  {
    hide Apply, HasActive;
    var at := LaterInstantExists(w.db.runs, w.db.runs.Keys);
    assert LaterThanAll(w.db.runs, at);
    assert Takes(c, w, StartRun(at));
  }

  /** Exactly one of the decisions open to the executor is possible when it chooses the next batch. */
  lemma BatchChoice(c: Config, w: World)
    requires c.Ok() && w.exec.Batching? && ExecRun(w)
    ensures CanStep(c, w)
    ensures Enabled(c, w, BeginAttempt) ==> !Enabled(c, w, AttemptsExhausted)
    ensures Enabled(c, w, BeginAttempt) || Enabled(c, w, AttemptsExhausted) ==> !Enabled(c, w, BudgetSpent)
    ensures Enabled(c, w, AllCompleted) ==>
              !Enabled(c, w, BeginAttempt) && !Enabled(c, w, AttemptsExhausted) && !Enabled(c, w, BudgetSpent)
  {
    hide Apply, HasActive;
    var batches := TheRun(w).batches;
    var k := FirstOpen(batches);
    var a := if k == |batches| then AllCompleted
             else if batches[k].attempts < c.maxAttempts then BeginAttempt
             else if batches[k].status.BatchFailed? then AttemptsExhausted
             else BudgetSpent;
    assert Takes(c, w, a);
  }

  lemma ResumeChoice(c: Config, w: World)
    requires c.Ok() && w.exec.Resuming? && ExecRun(w)
    ensures CanStep(c, w)
  {
    hide Apply, HasActive;
    var run := TheRun(w);
    var a := if FirstSpent(c, run.batches) < |run.batches| then ResumeFailed
             else if PersistedReady(run) then ResumeReady
             else if run.startMark == Some(w.mark) then ResumeUnchanged
             else ResumeChanged;
    assert Takes(c, w, a);
  }

  lemma AttemptCanStep(c: Config, w: World)
    requires c.Ok() && (w.exec.Counted? || w.exec.Fetching? || w.exec.Staging? || w.exec.PageStored?)
    requires ExecBatch(w) && (w.exec.Staging? ==> w.exec.next <= |w.exec.page|)
    ensures CanStep(c, w)
  {
    hide Apply, HasActive, BatchRows;
    var a := if w.exec.Counted? then MarkRunning
             else if w.exec.Fetching? then FetchPage
             else if w.exec.Staging? then
               if w.exec.next == |w.exec.page| then StorePage
               else if w.exec.page[w.exec.next].row.Valid? then StageRow
               else FailAttempt("BATCH_ROW_PROCESSING_FAILED")
             else if w.exec.count < TheBatch(w).pageSize then FinishBatch
             else if w.exec.pages < c.maxPages then NextPage
             else PageLimitReached;
    assert Takes(c, w, a);
  }

  lemma InitializeCanStep(c: Config, w: World)
    requires c.Ok() && (w.exec.HasQueued? || w.exec.HasSnapshot?) && ExecRun(w)
    requires w.exec.HasSnapshot? ==> !TheRun(w).initialized
    ensures CanStep(c, w)
  {
    hide Apply, HasActive;
    var a := if w.exec.HasSnapshot? then StoreSnapshot
             else if TheRun(w).initialized then SkipInitialization else ReadSnapshot;
    assert Takes(c, w, a);
  }

  lemma ScopeCanStep(c: Config, w: World)
    requires c.Ok() && w.exec.HasScope? && ExecRun(w) && RunOk(c, TheRun(w)) && TheRun(w).initialized
    ensures CanStep(c, w)
  {
    hide Apply, HasActive;
    assert CountsAsExpected(TheRun(w));
    assert Takes(c, w, ReadStartMark);
  }

  lemma EndCanStep(c: Config, w: World)
    requires c.Ok() && (w.exec.Finalizing? || w.exec.HasEndMark?) && ExecRun(w)
    ensures CanStep(c, w)
  {
    hide Apply, HasActive;
    assert Takes(c, w, if w.exec.Finalizing? then ReadEndMark else RecordEndMark);
  }

  lemma PublicationCanStep(c: Config, w: World)
    requires c.Ok() && (w.exec.Ready? || w.exec.Failing? || w.exec.SourceChanging?)
    requires w.exec.Ready? ==> PublishAccepts(w.db, w.exec.run)
    requires w.exec.Failing? ==> TerminateAccepts(w.db, w.exec.run, RunFailed, w.exec.error)
    requires w.exec.SourceChanging? ==> TerminateAccepts(w.db, w.exec.run, SourceChanged, SOURCE_CHANGED_ERROR)
    ensures CanStep(c, w)
  {
    hide Apply, HasActive, PublishAccepts, TerminateAccepts;
    var a := if w.exec.Ready? then PublishAccepted(0)
             else if w.exec.Failing? then PublishFailure(0)
             else PublishSourceChanged(0);
    assert Takes(c, w, a);
  }

  /** What the executor's state says of its run, as far as the next step needs it. */
  lemma PointKnown(c: Config, w: World)
    requires c.Ok() && P.ExecOk(c, w) && RunsOk(c, w.db.runs) && !w.exec.Gone? && !w.exec.Acquired?
    ensures ExecRun(w) && RunOk(c, TheRun(w))
    ensures w.exec.HasSnapshot? ==> !TheRun(w).initialized
    ensures w.exec.HasScope? ==> TheRun(w).initialized
    ensures w.exec.HasStartMark? ==> TheRun(w).status.Queued? && TheRun(w).initialized && TheRun(w).startMark.None?
    ensures w.exec.Counted? || w.exec.Fetching? || w.exec.Staging? || w.exec.PageStored? ==> ExecBatch(w)
    ensures w.exec.Staging? ==> w.exec.next <= |w.exec.page|
  {
    hide FromHistory, CoversChecked, CompleteAndClean, MarksAgree, SortedSeq, Partition;
  }

  lemma RunsOf(c: Config, w: World)
    requires c.Ok() && P.WorldInv(c, w)
    ensures RunsOk(c, w.db.runs)
  {
    hide RunsOk;
  }

  /**
   * In every reachable state the executor has a next step whose transaction, if it makes one, passes
   * its guard; it is to give up an attempt only where a row does not pass validation. So the errors the
   * services throw on inconsistent tables, and on rejected writes and publications, cannot occur.
   */
  lemma NeverStuck(c: Config, w: World)
    requires c.Ok() && Reachable(c, w) && !w.exec.Gone?
    ensures CanStep(c, w)
  {
    hide Reachable, CanStep, P.WorldInv, P.ExecOk, RunsOk, RunOk, PublishAccepts, TerminateAccepts;
    P.ReachableInv(c, w);
    ExecOf(c, w);
    RunsOf(c, w);
    if w.exec.Acquired? {
      AcquiredCanStep(c, w);
    } else {
      PointKnown(c, w);
      match w.exec
      case HasQueued(_) => InitializeCanStep(c, w);
      case HasSnapshot(_, _) => InitializeCanStep(c, w);
      case HasScope(_) => ScopeCanStep(c, w);
      case HasStartMark(_, _) => StartCanStep(c, w);
      case Resuming(_) => ResumeChoice(c, w);
      case Batching(_) => BatchChoice(c, w);
      case Finalizing(_) => EndCanStep(c, w);
      case HasEndMark(_, _) => EndCanStep(c, w);
      case Ready(_) =>
        ReadyIsAccepted(c, w);
        PublicationCanStep(c, w);
      case Failing(_, _) =>
        TerminalIsAccepted(c, w);
        PublicationCanStep(c, w);
      case SourceChanging(_) =>
        TerminalIsAccepted(c, w);
        PublicationCanStep(c, w);
      case _ => AttemptCanStep(c, w);
    }
  }
}
