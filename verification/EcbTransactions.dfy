/**
 * Every write the services make, as one atomic transaction on the tables. A transaction whose
 * guard rejects it rolls back: the tables stay as they are.
 */
module EcbTransactions {
  import opened Prelude
  import opened EcbTables

  datatype Op =
    | RegisterProperty(property: PropertyId, bins: set<Bin>)
    | ApplyBins(property: PropertyId, bins: set<Bin>)
    | CreateQueued(run: RunId)
    | Initialize(run: RunId, rows: set<SnapshotRow>)
    | Start(run: RunId, mark: nat, at: nat)
    | IncrementAttempt(run: RunId, batch: nat)
    | MarkBatchRunning(run: RunId, batch: nat)
    | StoreProgress(run: RunId, batch: nat, pages: nat, fetched: nat)
    | CompleteBatch(run: RunId, batch: nat, pages: nat, fetched: nat)
    | FailBatch(run: RunId, batch: nat, error: string)
    | Stage(run: RunId, id: SourceId, violation: Violation)
    | StoreEndMark(run: RunId, mark: nat)
    | Publish(run: RunId, at: nat)
    | Terminate(run: RunId, outcome: RunStatus, error: string, at: nat)

  // ---- Batch definitions ----

  /** Consecutive chunks of `size`, the last one shorter when the length is no multiple. */
  function Partition(bins: seq<Bin>, size: nat): seq<seq<Bin>>
    requires 0 < size
  {
    if bins == [] then []
    else if |bins| <= size then [bins]
    else [bins[..size]] + Partition(bins[size..], size)
  }

  function NewBatch(bins: seq<Bin>, pageSize: nat): Batch {
    Batch(bins, pageSize, BatchPending, 0, 0, 0, None, false)
  }

  function BinsOf(rows: set<SnapshotRow>): set<Bin> {
    set row | row in rows :: row.bin
  }

  function NewBatches(c: Config, rows: set<SnapshotRow>): seq<Batch>
    requires c.Ok()
  {
    var chunks := Partition(SortedSeq(BinsOf(rows)), c.batchSize);
    seq(|chunks|, i requires 0 <= i < |chunks| => NewBatch(chunks[i], c.pageSize))
  }

  function InitializedRun(c: Config, run: Run, rows: set<SnapshotRow>): Run
    requires c.Ok()
  {
    var batches := NewBatches(c, rows);
    run.(snapshot := rows,
         batches := batches,
         initialized := true,
         expected := Some(Counts(|rows|, |BinsOf(rows)|, |batches|)))
  }

  // ---- Coverage written by the registration side ----

  function InitialCoverage(bins: set<Bin>): Coverage {
    Coverage(NotChecked, Some(if bins == {} then NoValidBin else NeverIngested),
             None, None, None, None, None, None)
  }

  /** The success side and the stored error of an existing row survive a BIN change. */
  function CoverageAfterBinChange(stored: Option<Coverage>, bins: set<Bin>): Coverage {
    var reason := Some(if bins == {} then NoValidBin else IdentifiersChanged);
    match stored
    case None => Coverage(NotChecked, reason, None, None, None, None, None, None)
    case Some(row) => row.(status := NotChecked, reason := reason, lastAttempt := None, lastAttemptAt := None)
  }

  function Lookup<K, V>(m: map<K, V>, k: K): Option<V> {
    if k in m then Some(m[k]) else None
  }

  // ---- Accepted publication ----

  /** Promotion: every staged row is written under its source id, current and stamped by the run. */
  function Promote(live: Live, staged: map<SourceId, Violation>, run: RunId): Live {
    live + map id | id in staged :: LiveRow(staged[id], run, true)
  }

  /** Reconciliation: a current row on a scanned BIN that carries another stamp is no longer current. */
  function Reconcile(live: Live, scanned: set<Bin>, run: RunId): Live {
    map id | id in live ::
      if live[id].current && live[id].violation.bin in scanned && live[id].stamp != run
      then live[id].(current := false)
      else live[id]
  }

  function ProcessedBins(run: Run): seq<Bin> { Flatten(run.Definitions()) }

  /** The processed BINs, listed once each, are exactly the snapshot's distinct BINs. */
  predicate CoversExactly(processed: seq<Bin>, snapshotBins: set<Bin>) {
    var unique := SortedSeq(ToSet(processed));
    var expected := SortedSeq(snapshotBins);
    && |processed| == |unique|
    && |unique| == |expected|
    && forall i :: 0 <= i < |unique| ==> unique[i] == expected[i]
  }

  predicate CompleteAndClean(batches: seq<Batch>) {
    forall i :: 0 <= i < |batches| ==>
      batches[i].status.BatchCompleted? && batches[i].completedAt && batches[i].lastError.None?
  }

  predicate MarksAgree(run: Run) {
    run.startMark.Some? && run.endMark.Some? && run.startMark == run.endMark
  }

  /** The checks of the accepted publication before it touches live state. */
  predicate AcceptanceChecks(run: Run) {
    && run.status.Running?
    && run.initialized
    && run.startedAt.Some?
    && MarksAgree(run)
    && run.expected.Some?
    && |run.snapshot| == run.expected.value.propertyBins
    && |run.Scanned()| == run.expected.value.bins
    && |run.batches| == run.expected.value.batches
    && CompleteAndClean(run.batches)
    && CoversExactly(ProcessedBins(run), run.Scanned())
  }

  /** No property has two identifier versions in one snapshot. */
  predicate OneVersionEach(rows: set<SnapshotRow>) {
    forall a, b :: a in rows && b in rows && a.property == b.property ==> a.version == b.version
  }

  /** The snapshot rows the join with the property table keeps. */
  function JoinedRows(properties: map<PropertyId, Property>, rows: set<SnapshotRow>): set<SnapshotRow> {
    set row | row in rows && row.property in properties
  }

  /** The checks the coverage publication makes again for itself. */
  predicate CoverageChecks(properties: map<PropertyId, Property>, run: Run) {
    && run.status.Running?
    && run.initialized
    && run.startedAt.Some?
    && MarksAgree(run)
    && run.expected.Some?
    && OneVersionEach(JoinedRows(properties, run.snapshot))
    && |JoinedRows(properties, run.snapshot)| == run.expected.value.propertyBins
    && |run.Scanned()| == run.expected.value.bins
    && |run.batches| == run.expected.value.batches
    && (forall i :: 0 <= i < |run.batches| ==> run.batches[i].status.BatchCompleted?)
    && CoversExactly(ProcessedBins(run), run.Scanned())
  }

  predicate StartedAfter(runs: map<RunId, Run>, run: Option<RunId>, at: nat) {
    run.Some? && run.value in runs && runs[run.value].startedAt.Some? && at < runs[run.value].startedAt.value
  }

  predicate PublishedByNewer(runs: map<RunId, Run>, row: Coverage, at: nat) {
    StartedAfter(runs, row.lastAttempt, at) || StartedAfter(runs, row.lastSuccess, at)
  }

  /** Snapshot properties whose identifier version is still the snapshot's. */
  function Matching(properties: map<PropertyId, Property>, rows: set<SnapshotRow>): set<PropertyId> {
    set row | row in rows && row.property in properties && properties[row.property].version == row.version
            :: row.property
  }

  /** Snapshot properties with a row of another identifier version. */
  function Mismatching(properties: map<PropertyId, Property>, rows: set<SnapshotRow>): set<PropertyId> {
    set row | row in rows && row.property in properties && properties[row.property].version != row.version
            :: row.property
  }

  /** First coverage statement: CHECKED for the matching properties, unless a newer run published. */
  function UpsertChecked(db: Db, r: RunId, at: nat): map<PropertyId, Coverage>
    requires r in db.runs && db.runs[r].startedAt.Some?
  {
    var run := db.runs[r];
    var matching := Matching(db.properties, run.snapshot);
    map p | p in db.coverage.Keys + matching ::
      if p !in matching || (p in db.coverage && PublishedByNewer(db.runs, db.coverage[p], run.startedAt.value))
      then db.coverage[p]
      else Coverage(Checked, None, Some(r), Some(r), Some(at), Some(at), run.endMark, None)
  }

  /** Second coverage statement: identifiers changed after the snapshot. */
  function UpsertIdentifiersChanged(db: Db, coverage: map<PropertyId, Coverage>, r: RunId)
    : map<PropertyId, Coverage>
    requires r in db.runs && db.runs[r].startedAt.Some?
  {
    var run := db.runs[r];
    var changed := Mismatching(db.properties, run.snapshot);
    map p | p in coverage.Keys + changed ::
      if p !in changed then coverage[p]
      else if p !in coverage then
        Coverage(NotChecked, Some(IdentifiersChangedAfterSnapshot), None, None, None, None, None, None)
      else if PublishedByNewer(db.runs, coverage[p], run.startedAt.value) || coverage[p].lastSuccess == Some(r)
      then coverage[p]
      else coverage[p].(status := NotChecked, reason := Some(IdentifiersChangedAfterSnapshot))
  }

  predicate PublishAccepts(db: Db, r: RunId) {
    r in db.runs && AcceptanceChecks(db.runs[r]) && CoverageChecks(db.properties, db.runs[r])
  }

  function Published(db: Db, r: RunId, at: nat): Db
    requires PublishAccepts(db, r)
  {
    var run := db.runs[r];
    db.(live := Reconcile(Promote(db.live, run.staging, r), run.Scanned(), r),
        coverage := UpsertIdentifiersChanged(db, UpsertChecked(db, r, at), r),
        runs := db.runs[r := run.(status := Completed, lastError := None)],
        accepted := db.accepted + [Acceptance(r, run.startMark.value, run.staging, run.Scanned())])
  }

  // ---- Terminal publication ----

  const SOURCE_CHANGED_ERROR := "SOURCE_CHANGED"
  const RUN_NOT_PROMOTED_ERROR := "RUN_NOT_PROMOTED"

  /** The error of the lowest-numbered failed batch that holds one of the BINs. */
  function FailedBatchError(batches: seq<Batch>, bins: set<Bin>): Option<string> {
    if batches == [] then None
    else if
      && batches[0].status.BatchFailed?
      && batches[0].lastError.Some?
      && batches[0].lastError.value != ""
      && ToSet(batches[0].bins) * bins != {}
    then batches[0].lastError
    else FailedBatchError(batches[1..], bins)
  }

  function FailureReason(run: Run, outcome: RunStatus, property: PropertyId): string {
    if outcome.SourceChanged? then SOURCE_CHANGED_ERROR
    else
      var bins := set row | row in run.snapshot && row.property == property :: row.bin;
      match FailedBatchError(run.batches, bins)
      case Some(error) => error
      case None => RUN_NOT_PROMOTED_ERROR
  }

  /** FAILED for the snapshot properties whose identifier version still matches. */
  function UpsertFailed(db: Db, r: RunId, outcome: RunStatus, at: nat): map<PropertyId, Coverage>
    requires r in db.runs
  {
    var run := db.runs[r];
    var matching := Matching(db.properties, run.snapshot);
    map p | p in db.coverage.Keys + matching ::
      if p !in matching then db.coverage[p]
      else
        var reason := FailureReason(run, outcome, p);
        match Lookup(db.coverage, p)
        case None => Coverage(CoverageFailed, None, Some(r), None, Some(at), None, None, Some(reason))
        case Some(row) =>
          row.(status := CoverageFailed, reason := None, lastAttempt := Some(r),
               lastAttemptAt := Some(at), lastError := Some(reason))
  }

  predicate TerminateAccepts(db: Db, r: RunId, outcome: RunStatus, error: string) {
    && r in db.runs
    && db.runs[r].Active()
    && (outcome.RunFailed? || outcome.SourceChanged?)
    && error != ""
    && (outcome.SourceChanged? ==>
          && error == SOURCE_CHANGED_ERROR
          && db.runs[r].status.Running? && db.runs[r].initialized && db.runs[r].startMark.Some?)
    && (db.runs[r].initialized ==> OneVersionEach(db.runs[r].snapshot))
  }

  function Terminated(db: Db, r: RunId, outcome: RunStatus, error: string, at: nat): Db
    requires TerminateAccepts(db, r, outcome, error)
  {
    var run := db.runs[r];
    db.(runs := db.runs[r := run.(status := outcome, lastError := Some(error))],
        coverage := if run.initialized then UpsertFailed(db, r, outcome, at) else db.coverage)
  }

  // ---- Transactions ----

  function WithRun(db: Db, r: RunId, run: Run): Db {
    db.(runs := db.runs[r := run])
  }

  function WithBatch(db: Db, r: RunId, b: nat, batch: Batch): Db
    requires r in db.runs && b < |db.runs[r].batches|
  {
    WithRun(db, r, db.runs[r].(batches := db.runs[r].batches[b := batch]))
  }

  predicate HasBatch(db: Db, r: RunId, b: nat) {
    r in db.runs && b < |db.runs[r].batches|
  }

  predicate HasActive(db: Db) {
    exists r :: r in db.runs && db.runs[r].Active()
  }

  const NEW_RUN := Run(Queued, false, None, None, None, None, None, {}, [], map[])

  function Registered(db: Db, p: PropertyId, bins: set<Bin>): Db {
    db.(properties := db.properties[p := Property(1, bins)],
        coverage := db.coverage[p := InitialCoverage(bins)],
        history := db.history[(p, 1) := bins])
  }

  function WithBins(db: Db, p: PropertyId, bins: set<Bin>): Db
    requires p in db.properties
  {
    var version := db.properties[p].version + 1;
    db.(properties := db.properties[p := Property(version, bins)],
        coverage := db.coverage[p := CoverageAfterBinChange(Lookup(db.coverage, p), bins)],
        history := db.history[(p, version) := bins])
  }

  function Apply(c: Config, db: Db, op: Op): Db
    requires c.Ok()
  {
    match op
    case RegisterProperty(p, bins) =>
      if p in db.properties then db else Registered(db, p, bins)
    case ApplyBins(p, bins) =>
      if p !in db.properties || db.properties[p].bins == bins then db else WithBins(db, p, bins)
    case CreateQueued(r) =>
      // The partial unique index admits one QUEUED or RUNNING run.
      if r in db.runs || HasActive(db) then db else WithRun(db, r, NEW_RUN)
    case Initialize(r, rows) =>
      // Sealed once initialized: the guard, and the immutability triggers, reject a second time.
      if r !in db.runs || db.runs[r].initialized then db
      else WithRun(db, r, InitializedRun(c, db.runs[r], rows))
    case Start(r, mark, at) =>
      if r in db.runs && db.runs[r].status.Queued? && db.runs[r].initialized && db.runs[r].startMark.None?
      then WithRun(db, r, db.runs[r].(status := Running, startMark := Some(mark), startedAt := Some(at)))
      else db
    case IncrementAttempt(r, b) =>
      if !HasBatch(db, r, b) then db
      else WithBatch(db, r, b, var batch := db.runs[r].batches[b]; batch.(attempts := batch.attempts + 1))
    case MarkBatchRunning(r, b) =>
      if !HasBatch(db, r, b) then db
      else WithBatch(db, r, b, db.runs[r].batches[b].(status := BatchRunning, lastError := None))
    case StoreProgress(r, b, pages, fetched) =>
      if !HasBatch(db, r, b) then db
      else WithBatch(db, r, b, db.runs[r].batches[b].(pages := pages, rows := fetched))
    case CompleteBatch(r, b, pages, fetched) =>
      if !HasBatch(db, r, b) then db
      else WithBatch(db, r, b, db.runs[r].batches[b].(pages := pages, rows := fetched, status := BatchCompleted,
                                                      completedAt := true, lastError := None))
    case FailBatch(r, b, error) =>
      if !HasBatch(db, r, b) || error == "" then db
      else WithBatch(db, r, b, db.runs[r].batches[b].(status := BatchFailed, lastError := Some(error)))
    case Stage(r, id, violation) =>
      if r !in db.runs then db
      else WithRun(db, r, db.runs[r].(staging := db.runs[r].staging[id := violation]))
    case StoreEndMark(r, mark) =>
      if r !in db.runs then db else WithRun(db, r, db.runs[r].(endMark := Some(mark)))
    case Publish(r, at) =>
      if PublishAccepts(db, r) then Published(db, r, at) else db
    case Terminate(r, outcome, error, at) =>
      if TerminateAccepts(db, r, outcome, error) then Terminated(db, r, outcome, error, at) else db
  }
}
