/** Theorems about every sequence of transactions, in any interleaving of any executors. */
module EcbDatabaseTheorems {
  import opened Prelude
  import opened EcbTables
  import opened EcbTransactions
  import opened EcbDatabaseInvariant

  function ApplyAll(c: Config, db: Db, ops: seq<Op>): Db
    requires c.Ok()
    decreases |ops|
  {
    if ops == [] then db else ApplyAll(c, Apply(c, db, ops[0]), ops[1..])
  }

  ghost predicate OpsOk(c: Config, db: Db, ops: seq<Op>)
    requires c.Ok()
    decreases |ops|
  {
    ops == [] || (OpOk(db, ops[0]) && OpsOk(c, Apply(c, db, ops[0]), ops[1..]))
  }

  lemma {:induction false} ReachableInv(c: Config, db: Db, ops: seq<Op>)
    requires c.Ok() && DbInv(c, db) && OpsOk(c, db, ops)
    ensures DbInv(c, ApplyAll(c, db, ops))
    decreases |ops|
  {
    hide DbInv, OpOk, Apply;
    if ops != [] {
      ApplyKeeps(c, db, ops[0]);
      ReachableInv(c, Apply(c, db, ops[0]), ops[1..]);
    }
  }

  // ---- Run life cycle ----

  function Rank(status: RunStatus): nat {
    match status
    case Queued => 0
    case Running => 1
    case Completed => 2
    case RunFailed => 2
    case SourceChanged => 2
  }

  /** The run is still there, its status has not moved back, and a terminal status has not moved. */
  ghost predicate Forward(before: Db, after: Db, r: RunId) {
    r in before.runs ==>
      && r in after.runs
      && Rank(before.runs[r].status) <= Rank(after.runs[r].status)
      && (!before.runs[r].Active() ==> after.runs[r].status == before.runs[r].status)
  }

  /** How one transaction may change one run: not at all, within its scope, or along its life cycle. */
  ghost predicate RunStep(before: Run, after: Run) {
    || after == before
    || SameScope(before, after)
    || (!before.initialized && after.status == before.status && after.startMark == before.startMark)
    || (before.status.Queued? && before.startMark.None? && after.status.Running? && SealedAlike(before, after))
    || (before.Active() && !after.Active() && SealedAlike(before, after) && after.startMark == before.startMark)
  }

  ghost predicate SealedAlike(before: Run, after: Run) {
    && after.initialized == before.initialized
    && after.snapshot == before.snapshot
    && after.expected == before.expected
    && after.batches == before.batches
  }

  ghost predicate RunSteps(before: Db, after: Db) {
    forall r :: r in before.runs ==> r in after.runs && RunStep(before.runs[r], after.runs[r])
  }

  lemma OneRunSteps(db: Db, r: RunId, run: Run)
    requires r in db.runs ==> RunStep(db.runs[r], run)
    ensures RunSteps(db, WithRun(db, r, run))
  {
    hide SameScope;
  }

  lemma BatchSteps(db: Db, r: RunId, b: nat, batch: Batch)
    requires HasBatch(db, r, b) && batch.bins == db.runs[r].batches[b].bins
    ensures RunSteps(db, WithBatch(db, r, b, batch))
  {
    var run := db.runs[r].(batches := db.runs[r].batches[b := batch]);
    assert run.Definitions() == db.runs[r].Definitions();
    OneRunSteps(db, r, run);
  }

  lemma OperationalSteps(db: Db, r: RunId, run: Run)
    requires r in db.runs && run.batches == db.runs[r].batches && run.snapshot == db.runs[r].snapshot
    requires run == db.runs[r].(staging := run.staging, endMark := run.endMark)
    ensures RunSteps(db, WithRun(db, r, run))
  {
    assert run.Definitions() == db.runs[r].Definitions();
    OneRunSteps(db, r, run);
  }

  lemma EndSteps(db: Db, after: Db, r: RunId)
    requires r in db.runs && db.runs[r].Active()
    requires r in after.runs && after.runs == db.runs[r := after.runs[r]]
    requires !after.runs[r].Active() && SealedAlike(db.runs[r], after.runs[r])
    requires after.runs[r].startMark == db.runs[r].startMark
    ensures RunSteps(db, after)
  {
    hide SameScope;
  }

  lemma ApplyRunSteps(c: Config, db: Db, op: Op)
    requires c.Ok()
    ensures RunSteps(db, Apply(c, db, op))
  {
    hide RunSteps, WithBatch, UpsertChecked, UpsertIdentifiersChanged, UpsertFailed, Reconcile, Promote, CoverageChecks,
         CoversExactly, InitialCoverage, CoverageAfterBinChange, NewBatches, CompleteAndClean, SameScope;
    var after := Apply(c, db, op);
    SameRunsStep(db, db);
    match op
    case RegisterProperty(_, _) => SameRunsStep(db, after);
    case ApplyBins(_, _) => SameRunsStep(db, after);
    case CreateQueued(r) =>
      if r !in db.runs { OneRunSteps(db, r, NEW_RUN); }
    case Initialize(r, rows) =>
      if r in db.runs && !db.runs[r].initialized { OneRunSteps(db, r, InitializedRun(c, db.runs[r], rows)); }
    case Start(r, mark, at) =>
      if r in db.runs { OneRunSteps(db, r, if after == db then db.runs[r] else StartedRun(db.runs[r], mark, at)); }
    case IncrementAttempt(r, b) =>
      if HasBatch(db, r, b) {
        BatchSteps(db, r, b, db.runs[r].batches[b].(attempts := db.runs[r].batches[b].attempts + 1));
      }
    case MarkBatchRunning(r, b) =>
      if HasBatch(db, r, b) {
        BatchSteps(db, r, b, db.runs[r].batches[b].(status := BatchRunning, lastError := None));
      }
    case StoreProgress(r, b, pages, fetched) =>
      if HasBatch(db, r, b) { BatchSteps(db, r, b, db.runs[r].batches[b].(pages := pages, rows := fetched)); }
    case CompleteBatch(r, b, pages, fetched) =>
      if HasBatch(db, r, b) {
        BatchSteps(db, r, b, db.runs[r].batches[b].(pages := pages, rows := fetched, status := BatchCompleted,
                                                    completedAt := true, lastError := None));
      }
    case FailBatch(r, b, error) =>
      if HasBatch(db, r, b) {
        BatchSteps(db, r, b, db.runs[r].batches[b].(status := BatchFailed, lastError := Some(error)));
      }
    case Stage(r, id, violation) =>
      if r in db.runs { OperationalSteps(db, r, db.runs[r].(staging := db.runs[r].staging[id := violation])); }
    case StoreEndMark(r, mark) =>
      if r in db.runs { OperationalSteps(db, r, db.runs[r].(endMark := Some(mark))); }
    case Publish(r, _) =>
      if PublishAccepts(db, r) { EndSteps(db, after, r); }
    case Terminate(r, outcome, error, _) =>
      if TerminateAccepts(db, r, outcome, error) { EndSteps(db, after, r); }
  }

  lemma SameRunsStep(before: Db, after: Db)
    requires after.runs == before.runs
    ensures RunSteps(before, after)
  {
  }

  lemma StepForward(c: Config, db: Db, op: Op, r: RunId)
    requires c.Ok()
    ensures Forward(db, Apply(c, db, op), r)
  {
    hide Apply;
    ApplyRunSteps(c, db, op);
  }

  /**
   * Status only moves forward, and a run that has ended keeps its outcome, over any transactions:
   * there is at most one terminal transition, so acceptance and failure exclude each other.
   */
  lemma {:induction false} StatusForward(c: Config, db: Db, ops: seq<Op>, r: RunId)
    requires c.Ok()
    ensures Forward(db, ApplyAll(c, db, ops), r)
    decreases |ops|
  {
    hide Apply;
    if ops != [] {
      StepForward(c, db, ops[0], r);
      StatusForward(c, Apply(c, db, ops[0]), ops[1..], r);
    }
  }

  /** Publishing again a run that has ended, either way, changes nothing at all. */
  lemma {:induction false} RepublicationIsNoOp(c: Config, db: Db, ops: seq<Op>, r: RunId, op: Op)
    requires c.Ok() && r in db.runs && !db.runs[r].Active()
    requires (op.Publish? || op.Terminate?) && op.run == r
    ensures var later := ApplyAll(c, db, ops); Apply(c, later, op) == later
  {
    StatusForward(c, db, ops, r);
  }

  // ---- Scope ----

  ghost predicate ScopeKept(before: Db, after: Db, r: RunId) {
    r in before.runs && before.runs[r].initialized ==>
      && r in after.runs
      && after.runs[r].initialized
      && after.runs[r].snapshot == before.runs[r].snapshot
      && after.runs[r].expected == before.runs[r].expected
      && after.runs[r].Definitions() == before.runs[r].Definitions()
      && (before.runs[r].startMark.Some? ==> after.runs[r].startMark == before.runs[r].startMark)
  }

  lemma StepScope(c: Config, db: Db, op: Op, r: RunId)
    requires c.Ok()
    ensures ScopeKept(db, Apply(c, db, op), r)
  {
    hide Apply;
    ApplyRunSteps(c, db, op);
  }

  /** Snapshot, batch definitions, counts and start mark are sealed by initialization and start. */
  lemma {:induction false} ScopeSealed(c: Config, db: Db, ops: seq<Op>, r: RunId)
    requires c.Ok()
    ensures ScopeKept(db, ApplyAll(c, db, ops), r)
    decreases |ops|
  {
    hide Apply;
    if ops != [] {
      StepScope(c, db, ops[0], r);
      ScopeSealed(c, Apply(c, db, ops[0]), ops[1..], r);
    }
  }

  // ---- Identifier versions ----

  ghost predicate HistoryExtends(before: Db, after: Db) {
    && (forall k :: k in before.history ==> k in after.history && after.history[k] == before.history[k])
    && (forall p :: p in before.properties ==>
          p in after.properties && before.properties[p].version <= after.properties[p].version)
  }

  /** The version of a property rises, and by exactly one, when and only when its BIN set changes. */
  lemma VersionStep(c: Config, db: Db, op: Op, p: PropertyId)
    requires c.Ok() && p in db.properties
    ensures var after := Apply(c, db, op).properties;
            && p in after
            && after[p].version == db.properties[p].version + (if after[p].bins != db.properties[p].bins then 1 else 0)
  {
    hide UpsertChecked, UpsertIdentifiersChanged, UpsertFailed, Reconcile, Promote, CoverageChecks, CoversExactly,
         InitialCoverage, CoverageAfterBinChange, NewBatches, CompleteAndClean, AcceptanceChecks, TerminateAccepts;
  }

  lemma NewVersionKeepsHistory(before: Db, after: Db, p: PropertyId, property: Property)
    requires HistoryOk(before.properties, before.history)
    requires property.version == (if p in before.properties then before.properties[p].version + 1 else 1)
    requires after.properties == before.properties[p := property]
    requires after.history == before.history[(p, property.version) := property.bins]
    ensures HistoryOk(after.properties, after.history) && HistoryExtends(before, after)
  {
    assert (p, property.version) !in before.history;
  }

  lemma PublicationsKeepProperties(db: Db)
    ensures forall r, at :: PublishAccepts(db, r) ==>
              var after := Published(db, r, at); after.properties == db.properties && after.history == db.history
    ensures forall r, outcome, error, at :: TerminateAccepts(db, r, outcome, error) ==>
              var after := Terminated(db, r, outcome, error, at);
              after.properties == db.properties && after.history == db.history
  {
    hide UpsertChecked, UpsertIdentifiersChanged, UpsertFailed, Reconcile, Promote, PublishAccepts, TerminateAccepts;
  }

  lemma OthersKeepProperties(c: Config, db: Db, op: Op)
    requires c.Ok() && !op.RegisterProperty? && !op.ApplyBins?
    ensures Apply(c, db, op).properties == db.properties && Apply(c, db, op).history == db.history
  {
    hide Published, Terminated, PublishAccepts, TerminateAccepts, HasActive, InitializedRun;
    PublicationsKeepProperties(db);
  }

  lemma StepHistory(c: Config, db: Db, op: Op)
    requires c.Ok() && HistoryOk(db.properties, db.history)
    ensures HistoryOk(Apply(c, db, op).properties, Apply(c, db, op).history)
    ensures HistoryExtends(db, Apply(c, db, op))
  {
    if op.RegisterProperty? || op.ApplyBins? {
      hide HistoryOk, PublishAccepts, TerminateAccepts, Published, Terminated, HasActive, InitializedRun, WithBatch,
           InitialCoverage, CoverageAfterBinChange;
      var p, after := op.property, Apply(c, db, op);
      if after.properties != db.properties { NewVersionKeepsHistory(db, after, p, after.properties[p]); }
    } else {
      hide Apply, HistoryOk;
      OthersKeepProperties(c, db, op);
    }
  }

  lemma {:induction false} HistoryOnlyGrows(c: Config, db: Db, ops: seq<Op>)
    requires c.Ok() && HistoryOk(db.properties, db.history)
    ensures var after := ApplyAll(c, db, ops);
            HistoryOk(after.properties, after.history) && HistoryExtends(db, after)
    decreases |ops|
  {
    hide Apply, HistoryOk;
    if ops != [] {
      StepHistory(c, db, ops[0]);
      HistoryOnlyGrows(c, Apply(c, db, ops[0]), ops[1..]);
    }
  }

  /** A property and a version fix the BIN set, across any stretch of history. */
  lemma VersionFixesBins(c: Config, db: Db, ops: seq<Op>, p: PropertyId)
    requires c.Ok() && HistoryOk(db.properties, db.history) && p in db.properties
    ensures var after := ApplyAll(c, db, ops).properties;
            && p in after
            && (after[p].version == db.properties[p].version ==> after[p].bins == db.properties[p].bins)
  {
    HistoryOnlyGrows(c, db, ops);
  }

  // ---- Coverage ----

  /**
   * Whatever the interleaving, CHECKED or FAILED coverage names a run of the matching outcome
   * whose snapshot holds for the property exactly its current version and its current BINs.
   */
  lemma CoverageDescribesCurrentIdentifiers(c: Config, ops: seq<Op>, p: PropertyId)
    requires c.Ok() && OpsOk(c, EMPTY_DB, ops)
    requires var db := ApplyAll(c, EMPTY_DB, ops);
             p in db.coverage && !db.coverage[p].status.NotChecked?
    ensures var db := ApplyAll(c, EMPTY_DB, ops);
            && p in db.properties
            && var attempt := db.coverage[p].lastAttempt;
            && attempt.Some? && attempt.value in db.runs
            && (set row | row in db.runs[attempt.value].snapshot && row.property == p)
               == (set b | b in db.properties[p].bins :: SnapshotRow(p, db.properties[p].version, b))
            && (if db.coverage[p].status.Checked? then db.runs[attempt.value].status.Completed?
                else db.runs[attempt.value].status.RunFailed? || db.runs[attempt.value].status.SourceChanged?)
  {
    EmptyDbInv(c);
    ReachableInv(c, EMPTY_DB, ops);
    var db := ApplyAll(c, EMPTY_DB, ops);
    hide OneActive, RunsOk, LogOk, Replay, HistoryOk, SnapshotsOk, ActiveCovers, LastScanned, Chronology, CheckedByLast;
    assert CoverageRowOk(db.properties[p], db.coverage[p], p, db.runs);
    var rows := db.runs[db.coverage[p].lastAttempt.value].snapshot;
    forall row | row in rows && row.property == p
      ensures row == SnapshotRow(p, db.properties[p].version, row.bin) && row.bin in db.properties[p].bins
    {
      assert SnapshotRow(p, row.version, row.bin) in rows;
    }
  }

  /** CHECKED coverage was written by the completed run that started last. */
  lemma CheckedByNewestCompletedRun(c: Config, ops: seq<Op>, p: PropertyId, s: RunId)
    requires c.Ok() && OpsOk(c, EMPTY_DB, ops)
    requires var db := ApplyAll(c, EMPTY_DB, ops);
             && p in db.coverage && db.coverage[p].status.Checked?
             && s in db.runs && db.runs[s].status.Completed?
    ensures var db := ApplyAll(c, EMPTY_DB, ops);
            && var success := db.coverage[p].lastSuccess;
            && success.Some? && success.value in db.runs && db.runs[success.value].status.Completed?
            && db.runs[success.value].startedAt.Some? && db.runs[s].startedAt.Some?
            && db.runs[s].startedAt.value <= db.runs[success.value].startedAt.value
  {
    EmptyDbInv(c);
    ReachableInv(c, EMPTY_DB, ops);
    var db := ApplyAll(c, EMPTY_DB, ops);
    hide OneActive, Replay, HistoryOk, SnapshotsOk, ActiveCovers, LastScanned, CoverageOk;
    var last := db.accepted[|db.accepted| - 1];
    assert RunOk(c, db.runs[s]) && RunOk(c, db.runs[last.run]);
  }

  // ---- Live state ----

  /**
   * Live state is a function of the accepted publications alone: replaying their log gives it, so
   * failed, rejected, crashed and rolled-back runs leave no trace in it.
   */
  lemma LiveIsReplayOfAcceptances(c: Config, ops: seq<Op>)
    requires c.Ok() && OpsOk(c, EMPTY_DB, ops)
    ensures var db := ApplyAll(c, EMPTY_DB, ops); db.live == Replay(db.accepted)
    ensures var db := ApplyAll(c, EMPTY_DB, ops);
            forall r :: r in db.runs ==>
              (db.runs[r].status.Completed? <==> exists i :: 0 <= i < |db.accepted| && db.accepted[i].run == r)
  {
    EmptyDbInv(c);
    ReachableInv(c, EMPTY_DB, ops);
  }

  /** An acceptance writes what it staged, retires what it scanned and did not stage, and nothing else. */
  lemma AcceptanceFrame(live: Live, a: Acceptance, id: SourceId)
    ensures var after := Accept(live, a);
            && (id in after <==> id in live || id in a.staged)
            && (id in a.staged ==> after[id].current && after[id].violation == a.staged[id])
            && (id in live && id !in a.staged ==>
                  && after[id].violation == live[id].violation
                  && after[id].stamp == live[id].stamp
                  && after[id].current == (live[id].current && live[id].violation.bin !in a.scanned))
  {
  }

  /** What is current on the scanned BINs after an acceptance is exactly what was staged. */
  lemma AcceptanceIsExactOnScope(live: Live, a: Acceptance)
    requires forall id :: id in a.staged ==> a.staged[id].bin in a.scanned
    ensures CurrentOn(Accept(live, a), a.scanned) == a.staged
  {
    var after := CurrentOn(Accept(live, a), a.scanned);
    forall id ensures id in after <==> id in a.staged {
      AcceptanceFrame(live, a, id);
    }
    forall id | id in a.staged ensures after[id] == a.staged[id] {
      AcceptanceFrame(live, a, id);
    }
  }
}
