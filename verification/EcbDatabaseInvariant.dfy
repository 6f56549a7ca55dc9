/**
 * What every transaction keeps, whoever issues it and in whatever order: the invariant holds
 * over arbitrary sequences of transactions, so also when several executors hold stale authority.
 */
module EcbDatabaseInvariant {
  import opened Prelude
  import opened EcbTables
  import opened EcbTransactions

  // ---- The accepted log, replayed ----

  /** The effect of one acceptance on live state, said without stamps and in one step. */
  function Accept(live: Live, a: Acceptance): Live {
    map id | id in live.Keys + a.staged.Keys ::
      if id in a.staged then LiveRow(a.staged[id], a.run, true)
      else if live[id].violation.bin in a.scanned then live[id].(current := false)
      else live[id]
  }

  function Replay(log: seq<Acceptance>): Live {
    if log == [] then map[] else Accept(Replay(log[..|log| - 1]), log[|log| - 1])
  }

  // ---- Invariant ----

  ghost predicate OneActive(runs: map<RunId, Run>) {
    forall r, s :: r in runs && s in runs && runs[r].Active() && runs[s].Active() ==> r == s
  }

  ghost predicate RunOk(c: Config, run: Run)
    requires c.Ok()
  {
    && (run.status.Queued? ==> run.startMark.None?)
    && (run.status.Running? || run.status.Completed? || run.status.SourceChanged? ==>
          run.initialized && run.startMark.Some?)
    && (run.startedAt.Some? <==> run.startMark.Some?)
    && (run.initialized ==>
          && run.expected == Some(Counts(|run.snapshot|, |run.Scanned()|, |run.batches|))
          && run.Definitions() == Partition(SortedSeq(run.Scanned()), c.batchSize))
  }

  ghost predicate RunsOk(c: Config, runs: map<RunId, Run>)
    requires c.Ok()
  {
    forall r :: r in runs ==> RunOk(c, runs[r])
  }

  /** Completed runs are the logged ones, and no live row is stamped by any other run. */
  ghost predicate LogOk(runs: map<RunId, Run>, accepted: seq<Acceptance>, live: Live) {
    && (forall i :: 0 <= i < |accepted| ==> accepted[i].run in runs && runs[accepted[i].run].status.Completed?)
    && (forall r :: r in runs && runs[r].status.Completed? ==>
          exists i :: 0 <= i < |accepted| && accepted[i].run == r)
    && (forall id :: id in live ==> live[id].stamp in runs && runs[live[id].stamp].status.Completed?)
  }

  ghost predicate HistoryOk(properties: map<PropertyId, Property>, history: map<(PropertyId, nat), set<Bin>>) {
    && (forall p :: p in properties ==>
          (p, properties[p].version) in history && history[(p, properties[p].version)] == properties[p].bins)
    && (forall k :: k in history ==> k.0 in properties && 1 <= k.1 <= properties[k.0].version)
  }

  /** The rows hold, for each property they mention, one version and exactly that version's BINs. */
  ghost predicate FromHistory(history: map<(PropertyId, nat), set<Bin>>, rows: set<SnapshotRow>) {
    forall row :: row in rows ==>
      && (row.property, row.version) in history
      && forall v, b :: SnapshotRow(row.property, v, b) in rows
                   <==> v == row.version && b in history[(row.property, row.version)]
  }

  ghost predicate SnapshotsOk(runs: map<RunId, Run>, history: map<(PropertyId, nat), set<Bin>>) {
    forall r :: r in runs && runs[r].initialized ==> FromHistory(history, runs[r].snapshot)
  }

  /** The rows of `p` are exactly its current version with its current BINs, and there is one. */
  ghost predicate SnapshotExact(rows: set<SnapshotRow>, p: PropertyId, property: Property) {
    && property.bins != {}
    && forall v, b :: SnapshotRow(p, v, b) in rows <==> v == property.version && b in property.bins
  }

  /** CHECKED and FAILED name, as last attempt, a run whose snapshot still describes the property. */
  ghost predicate CoverageRowOk(property: Property, row: Coverage, p: PropertyId, runs: map<RunId, Run>) {
    row.status.Checked? || row.status.CoverageFailed? ==>
      && row.lastAttempt.Some?
      && row.lastAttempt.value in runs
      && runs[row.lastAttempt.value].initialized
      && SnapshotExact(runs[row.lastAttempt.value].snapshot, p, property)
      && (if row.status.Checked? then runs[row.lastAttempt.value].status.Completed?
          else runs[row.lastAttempt.value].status.RunFailed? || runs[row.lastAttempt.value].status.SourceChanged?)
  }

  ghost predicate CoverageOk(properties: map<PropertyId, Property>, coverage: map<PropertyId, Coverage>,
                             runs: map<RunId, Run>) {
    forall p :: p in coverage ==> p in properties && CoverageRowOk(properties[p], coverage[p], p, runs)
  }

  ghost predicate CoversChecked(properties: map<PropertyId, Property>, coverage: map<PropertyId, Coverage>,
                                rows: set<SnapshotRow>) {
    forall p :: p in coverage && coverage[p].status.Checked? ==>
      p in properties && SnapshotExact(rows, p, properties[p])
  }

  /** Whatever is CHECKED while a run is under way is in that run's snapshot as it stands. */
  ghost predicate ActiveCovers(properties: map<PropertyId, Property>, coverage: map<PropertyId, Coverage>,
                               runs: map<RunId, Run>) {
    forall r :: r in runs && runs[r].Active() && runs[r].initialized ==>
      CoversChecked(properties, coverage, runs[r].snapshot)
  }

  /** A CHECKED row was written by the latest acceptance. */
  ghost predicate CheckedByLast(coverage: map<PropertyId, Coverage>, accepted: seq<Acceptance>) {
    forall p :: p in coverage && coverage[p].status.Checked? ==>
      && accepted != []
      && var last := accepted[|accepted| - 1];
         && coverage[p].lastSuccess == Some(last.run)
         && coverage[p].lastAttempt == Some(last.run)
         && coverage[p].watermark == Some(last.mark)
  }

  ghost predicate LastScanned(runs: map<RunId, Run>, accepted: seq<Acceptance>) {
    forall i :: 0 <= i < |accepted| ==>
      accepted[i].run in runs && accepted[i].scanned == runs[accepted[i].run].Scanned()
      && runs[accepted[i].run].initialized
  }

  /** Start instants rise from run to run, so the last accepted run is the newest completed one. */
  ghost predicate Chronology(runs: map<RunId, Run>, accepted: seq<Acceptance>) {
    && (forall r, s :: r in runs && s in runs && r != s && runs[r].Active()
                       && runs[r].startedAt.Some? && runs[s].startedAt.Some?
                       ==> runs[s].startedAt.value < runs[r].startedAt.value)
    && (forall i, s :: 0 <= i < |accepted| && i == |accepted| - 1 && accepted[i].run in runs
                       && runs[accepted[i].run].startedAt.Some?
                       && s in runs && runs[s].status.Completed? && runs[s].startedAt.Some?
                       ==> runs[s].startedAt.value <= runs[accepted[i].run].startedAt.value)
  }

  ghost predicate DbInv(c: Config, db: Db)
    requires c.Ok()
  {
    && OneActive(db.runs)
    && RunsOk(c, db.runs)
    && LogOk(db.runs, db.accepted, db.live)
    && db.live == Replay(db.accepted)
    && HistoryOk(db.properties, db.history)
    && SnapshotsOk(db.runs, db.history)
    && CoverageOk(db.properties, db.coverage, db.runs)
    && ActiveCovers(db.properties, db.coverage, db.runs)
    && CheckedByLast(db.coverage, db.accepted)
    && LastScanned(db.runs, db.accepted)
    && Chronology(db.runs, db.accepted)
  }

  /**
   * What the environment grants a transaction: a stored snapshot was read from the live
   * properties while its run was still queued, and start instants rise.
   */
  ghost predicate OpOk(db: Db, op: Op) {
    match op
    case Initialize(r, rows) =>
      && FromHistory(db.history, rows)
      && (r in db.runs && db.runs[r].Active() ==> CoversChecked(db.properties, db.coverage, rows))
    case Start(r, mark, at) =>
      forall s :: s in db.runs && db.runs[s].startedAt.Some? ==> db.runs[s].startedAt.value < at
    case _ => true
  }

  lemma EmptyDbInv(c: Config)
    requires c.Ok()
    ensures DbInv(c, EMPTY_DB)
  {
  }

  // ---- Registration side ----

  lemma HistoryGrows(history: map<(PropertyId, nat), set<Bin>>, key: (PropertyId, nat), bins: set<Bin>,
                     runs: map<RunId, Run>)
    requires key !in history && SnapshotsOk(runs, history)
    ensures SnapshotsOk(runs, history[key := bins])
  {
    forall r | r in runs && runs[r].initialized
      ensures FromHistory(history[key := bins], runs[r].snapshot)
    {
      var rows := runs[r].snapshot;
      assert FromHistory(history, rows);
    }
  }

  /** Coverage facts survive a write to one property that leaves it NOT_CHECKED. */
  lemma PropertyWritten(properties: map<PropertyId, Property>, coverage: map<PropertyId, Coverage>,
                        runs: map<RunId, Run>, p: PropertyId, property: Property, row: Coverage)
    requires CoverageOk(properties, coverage, runs)
    requires ActiveCovers(properties, coverage, runs)
    requires row.status.NotChecked?
    ensures CoverageOk(properties[p := property], coverage[p := row], runs)
    ensures ActiveCovers(properties[p := property], coverage[p := row], runs)
  {
    forall r | r in runs && runs[r].Active() && runs[r].initialized
      ensures CoversChecked(properties[p := property], coverage[p := row], runs[r].snapshot)
    {
      assert CoversChecked(properties, coverage, runs[r].snapshot);
    }
  }

  lemma RegisterKeeps(c: Config, db: Db, p: PropertyId, bins: set<Bin>)
    requires c.Ok() && DbInv(c, db) && p !in db.properties
    ensures DbInv(c, Registered(db, p, bins))
  {
    hide OneActive, RunsOk, LogOk, Replay, FromHistory, CoverageOk, ActiveCovers, LastScanned, Chronology;
    assert (p, 1) !in db.history;
    HistoryGrows(db.history, (p, 1), bins, db.runs);
    PropertyWritten(db.properties, db.coverage, db.runs, p, Property(1, bins), InitialCoverage(bins));
  }

  /** The next version of a property is new to the history, and a row that is not CHECKED needs no acceptance. */
  lemma NextVersion(db: Db, p: PropertyId, bins: set<Bin>, row: Coverage)
    requires HistoryOk(db.properties, db.history) && CheckedByLast(db.coverage, db.accepted)
    requires p in db.properties && row.status.NotChecked?
    ensures var key := (p, db.properties[p].version + 1);
            && key !in db.history
            && HistoryOk(db.properties[p := Property(key.1, bins)], db.history[key := bins])
    ensures CheckedByLast(db.coverage[p := row], db.accepted)
  {
  }

  lemma ApplyBinsKeeps(c: Config, db: Db, p: PropertyId, bins: set<Bin>)
    requires c.Ok() && DbInv(c, db) && p in db.properties
    ensures DbInv(c, WithBins(db, p, bins))
  {
    hide OneActive, RunsOk, LogOk, Replay, FromHistory, CoverageOk, ActiveCovers, LastScanned, Chronology, SnapshotsOk,
         HistoryOk, CheckedByLast;
    var version := db.properties[p].version + 1;
    var row := CoverageAfterBinChange(Lookup(db.coverage, p), bins);
    NextVersion(db, p, bins, row);
    HistoryGrows(db.history, (p, version), bins, db.runs);
    PropertyWritten(db.properties, db.coverage, db.runs, p, Property(version, bins), row);
  }

  // ---- Writes to one run that neither accept nor terminate it ----

  /** The run stays or becomes active only alone; a sealed scope and a terminal status stay. */
  ghost predicate MayWrite(runs: map<RunId, Run>, r: RunId, run: Run) {
    && (r !in runs ==> run.Active() && forall s :: s in runs ==> !runs[s].Active())
    && (r in runs ==> run.Active() == runs[r].Active() && (run.Active() || run.status == runs[r].status))
    && (r in runs && runs[r].initialized ==> run.initialized && run.snapshot == runs[r].snapshot)
  }

  /** The start instant stays, or is set later than every other. */
  ghost predicate MayStart(runs: map<RunId, Run>, r: RunId, run: Run) {
    || run.startedAt.None?
    || (r in runs && run.startedAt == runs[r].startedAt)
    || (run.Active() && forall s :: s in runs && runs[s].startedAt.Some? ==> runs[s].startedAt.value < run.startedAt.value)
  }

  lemma WriteKeepsActive(runs: map<RunId, Run>, r: RunId, run: Run)
    requires OneActive(runs) && MayWrite(runs, r, run)
    ensures OneActive(runs[r := run])
  {
  }

  lemma WriteKeepsLog(runs: map<RunId, Run>, r: RunId, run: Run, accepted: seq<Acceptance>, live: Live)
    requires LogOk(runs, accepted, live) && LastScanned(runs, accepted) && MayWrite(runs, r, run)
    ensures LogOk(runs[r := run], accepted, live) && LastScanned(runs[r := run], accepted)
  {
    if r in runs && runs[r].initialized { assert run.Scanned() == runs[r].Scanned(); }
  }

  lemma WriteKeepsCoverage(properties: map<PropertyId, Property>, coverage: map<PropertyId, Coverage>,
                           runs: map<RunId, Run>, r: RunId, run: Run)
    requires CoverageOk(properties, coverage, runs) && MayWrite(runs, r, run)
    ensures CoverageOk(properties, coverage, runs[r := run])
  {
    forall p | p in coverage
      ensures CoverageRowOk(properties[p], coverage[p], p, runs[r := run])
    {
      assert CoverageRowOk(properties[p], coverage[p], p, runs);
    }
  }

  lemma WriteKeepsChronology(runs: map<RunId, Run>, r: RunId, run: Run, accepted: seq<Acceptance>,
                             live: Live)
    requires Chronology(runs, accepted) && OneActive(runs) && MayWrite(runs, r, run) && MayStart(runs, r, run)
    requires LogOk(runs, accepted, live)
    requires r in runs && runs[r].startedAt.Some? ==> run.startedAt == runs[r].startedAt
    ensures Chronology(runs[r := run], accepted)
  {
    var after := runs[r := run];
    forall a, b | a in after && b in after && a != b && after[a].Active()
                  && after[a].startedAt.Some? && after[b].startedAt.Some?
      ensures after[b].startedAt.value < after[a].startedAt.value
    {
      if b == r { assert !after[r].Active() || a == r; }
    }
  }

  lemma RunWriteKeeps(c: Config, db: Db, r: RunId, run: Run)
    requires c.Ok() && DbInv(c, db)
    requires RunOk(c, run) && MayWrite(db.runs, r, run) && MayStart(db.runs, r, run)
    requires r in db.runs && db.runs[r].startedAt.Some? ==> run.startedAt == db.runs[r].startedAt
    requires run.initialized ==> FromHistory(db.history, run.snapshot)
    requires run.initialized && run.Active() ==> CoversChecked(db.properties, db.coverage, run.snapshot)
    ensures DbInv(c, WithRun(db, r, run))
  {
    hide OneActive, RunOk, LogOk, Replay, HistoryOk, CoverageOk, CheckedByLast, LastScanned, Chronology, MayWrite, MayStart;
    WriteKeepsActive(db.runs, r, run);
    WriteKeepsLog(db.runs, r, run, db.accepted, db.live);
    WriteKeepsCoverage(db.properties, db.coverage, db.runs, r, run);
    WriteKeepsChronology(db.runs, r, run, db.accepted, db.live);
  }

  lemma RunFacts(c: Config, db: Db, r: RunId)
    requires c.Ok() && DbInv(c, db) && r in db.runs
    ensures RunOk(c, db.runs[r])
    ensures db.runs[r].initialized ==> FromHistory(db.history, db.runs[r].snapshot)
    ensures db.runs[r].initialized && db.runs[r].Active() ==>
              CoversChecked(db.properties, db.coverage, db.runs[r].snapshot)
  {
    hide OneActive, LogOk, Replay, HistoryOk, CoverageOk, CheckedByLast, LastScanned, Chronology, RunOk,
         FromHistory, CoversChecked;
  }

  // ---- Operational writes: status, scope, start mark and start instant stay ----

  /** `after` differs from `before` only in what processing may change. */
  ghost predicate SameScope(before: Run, after: Run) {
    && after.status == before.status
    && after.initialized == before.initialized
    && after.expected == before.expected
    && after.startedAt == before.startedAt
    && after.startMark == before.startMark
    && after.snapshot == before.snapshot
    && after.Definitions() == before.Definitions()
  }

  lemma OperationalKeeps(c: Config, db: Db, r: RunId, run: Run)
    requires c.Ok() && DbInv(c, db) && r in db.runs && SameScope(db.runs[r], run)
    ensures DbInv(c, WithRun(db, r, run))
  {
    assert |run.batches| == |run.Definitions()|;
    assert |db.runs[r].batches| == |db.runs[r].Definitions()|;
    hide DbInv, FromHistory, CoversChecked;
    assert run.Scanned() == db.runs[r].Scanned();
    RunFacts(c, db, r);
    RunWriteKeeps(c, db, r, run);
  }

  lemma BatchKeeps(c: Config, db: Db, r: RunId, b: nat, batch: Batch)
    requires c.Ok() && DbInv(c, db)
    requires HasBatch(db, r, b) && batch.bins == db.runs[r].batches[b].bins
    ensures DbInv(c, WithBatch(db, r, b, batch))
  {
    hide DbInv;
    var run := db.runs[r].(batches := db.runs[r].batches[b := batch]);
    assert run.Definitions() == db.runs[r].Definitions();
    OperationalKeeps(c, db, r, run);
  }

  // ---- Life cycle ----

  lemma CreateKeeps(c: Config, db: Db, r: RunId)
    requires c.Ok() && DbInv(c, db) && r !in db.runs && !HasActive(db)
    ensures DbInv(c, WithRun(db, r, NEW_RUN))
  {
    hide DbInv;
    RunWriteKeeps(c, db, r, NEW_RUN);
  }

  lemma InitializedRunOk(c: Config, run: Run, rows: set<SnapshotRow>)
    requires c.Ok() && RunOk(c, run) && !run.initialized
    ensures var after := InitializedRun(c, run, rows);
            && RunOk(c, after)
            && after.snapshot == rows && after.initialized
            && after.status == run.status && after.startedAt == run.startedAt && after.startMark == run.startMark
            && after.staging == run.staging && after.endMark == run.endMark
            && after.batches == NewBatches(c, rows)
  {
    hide Partition, SortedSeq;
    var after := InitializedRun(c, run, rows);
    assert after.Scanned() == BinsOf(rows);
    assert after.Definitions() == Partition(SortedSeq(BinsOf(rows)), c.batchSize);
  }

  lemma InitializeKeeps(c: Config, db: Db, r: RunId, rows: set<SnapshotRow>)
    requires c.Ok() && DbInv(c, db) && r in db.runs && !db.runs[r].initialized
    requires FromHistory(db.history, rows)
    requires db.runs[r].Active() ==> CoversChecked(db.properties, db.coverage, rows)
    ensures DbInv(c, WithRun(db, r, InitializedRun(c, db.runs[r], rows)))
  {
    hide InitializedRun;
    var run := InitializedRun(c, db.runs[r], rows);
    hide DbInv, FromHistory, CoversChecked, RunOk;
    RunFacts(c, db, r);
    InitializedRunOk(c, db.runs[r], rows);
    RunWriteKeeps(c, db, r, run);
  }

  function StartedRun(run: Run, mark: nat, at: nat): Run {
    run.(status := Running, startMark := Some(mark), startedAt := Some(at))
  }

  lemma StartedRunOk(c: Config, run: Run, mark: nat, at: nat)
    requires c.Ok() && RunOk(c, run) && run.initialized
    ensures RunOk(c, StartedRun(run, mark, at))
  {
    hide Partition, SortedSeq;
    var after := StartedRun(run, mark, at);
    assert after.Scanned() == run.Scanned() && after.Definitions() == run.Definitions();
  }

  lemma StartKeeps(c: Config, db: Db, r: RunId, mark: nat, at: nat)
    requires c.Ok() && DbInv(c, db)
    requires r in db.runs && db.runs[r].status.Queued? && db.runs[r].initialized && db.runs[r].startMark.None?
    requires forall s :: s in db.runs && db.runs[s].startedAt.Some? ==> db.runs[s].startedAt.value < at
    ensures DbInv(c, WithRun(db, r, StartedRun(db.runs[r], mark, at)))
  {
    hide DbInv, FromHistory, CoversChecked;
    RunFacts(c, db, r);
    assert db.runs[r].startedAt.None?;
    StartedRunOk(c, db.runs[r], mark, at);
    hide RunOk;
    RunWriteKeeps(c, db, r, StartedRun(db.runs[r], mark, at));
  }

  // ---- Runs that end ----

  lemma MatchingExact(properties: map<PropertyId, Property>, history: map<(PropertyId, nat), set<Bin>>,
                      rows: set<SnapshotRow>, p: PropertyId)
    requires HistoryOk(properties, history) && FromHistory(history, rows)
    requires p in Matching(properties, rows)
    ensures SnapshotExact(rows, p, properties[p])
    ensures p !in Mismatching(properties, rows)
  {
    var row :| row in rows && row.property == p && p in properties && properties[p].version == row.version;
    assert SnapshotRow(p, row.version, row.bin) in rows;
    forall other | other in rows && other.property == p ensures other.version == properties[p].version {
      assert SnapshotRow(p, other.version, other.bin) in rows;
    }
  }

  lemma MatchingKnown(properties: map<PropertyId, Property>, rows: set<SnapshotRow>, p: PropertyId)
    requires p in Matching(properties, rows)
    ensures p in properties
  {
  }

  lemma ExactMatches(properties: map<PropertyId, Property>, rows: set<SnapshotRow>, p: PropertyId)
    requires p in properties && SnapshotExact(rows, p, properties[p])
    ensures p in Matching(properties, rows)
  {
    var b :| b in properties[p].bins;
    assert SnapshotRow(p, properties[p].version, b) in rows;
  }

  /** While a run is under way no run has started after it, so the newer-run guard never fires. */
  lemma NoNewerRun(db: Db, r: RunId, row: Coverage)
    requires Chronology(db.runs, db.accepted)
    requires r in db.runs && db.runs[r].Active() && db.runs[r].startedAt.Some?
    ensures !PublishedByNewer(db.runs, row, db.runs[r].startedAt.value)
  {
  }

  ghost predicate NoneActive(runs: map<RunId, Run>) {
    forall s :: s in runs ==> !runs[s].Active()
  }

  /** Ending the only active run leaves no active run. */
  lemma EndKeepsActive(runs: map<RunId, Run>, r: RunId, run: Run)
    requires OneActive(runs) && r in runs && runs[r].Active() && !run.Active()
    ensures NoneActive(runs[r := run])
  {
  }

  lemma NoneActiveSuffices(properties: map<PropertyId, Property>, coverage: map<PropertyId, Coverage>,
                           runs: map<RunId, Run>)
    requires NoneActive(runs)
    ensures OneActive(runs) && ActiveCovers(properties, coverage, runs)
  {
  }

  /** A run that fails leaves the log of acceptances, and the order of starts, as they were. */
  lemma FailureKeepsLog(runs: map<RunId, Run>, r: RunId, run: Run, accepted: seq<Acceptance>, live: Live)
    requires LogOk(runs, accepted, live) && LastScanned(runs, accepted) && Chronology(runs, accepted)
    requires OneActive(runs) && r in runs && runs[r].Active() && !run.Active() && !run.status.Completed?
    requires run.startedAt == runs[r].startedAt
    ensures LogOk(runs[r := run], accepted, live) && LastScanned(runs[r := run], accepted)
    ensures Chronology(runs[r := run], accepted)
  {
    EndKeepsActive(runs, r, run);
  }

  /** Rows the ending run does not write keep their facts: every other run is as it was. */
  lemma EndKeepsRow(property: Property, row: Coverage, p: PropertyId, runs: map<RunId, Run>, r: RunId, run: Run)
    requires CoverageRowOk(property, row, p, runs)
    requires r in runs && runs[r].Active()
    ensures CoverageRowOk(property, row, p, runs[r := run])
  {
  }

  // ---- Terminal publication ----

  lemma TerminateKeepsCoverage(db: Db, r: RunId, outcome: RunStatus, error: string, at: nat)
    requires CoverageOk(db.properties, db.coverage, db.runs)
    requires HistoryOk(db.properties, db.history) && SnapshotsOk(db.runs, db.history)
    requires TerminateAccepts(db, r, outcome, error)
    ensures var after := Terminated(db, r, outcome, error, at);
            CoverageOk(after.properties, after.coverage, after.runs)
  {
    var after := Terminated(db, r, outcome, error, at);
    var run := db.runs[r];
    forall p | p in after.coverage
      ensures p in after.properties && CoverageRowOk(after.properties[p], after.coverage[p], p, after.runs)
    {
      if run.initialized && p in Matching(db.properties, run.snapshot) {
        MatchingExact(db.properties, db.history, run.snapshot, p);
      } else {
        EndKeepsRow(db.properties[p], db.coverage[p], p, db.runs, r, after.runs[r]);
      }
    }
  }

  lemma TerminateKeepsChecked(db: Db, r: RunId, outcome: RunStatus, error: string, at: nat)
    requires CheckedByLast(db.coverage, db.accepted) && TerminateAccepts(db, r, outcome, error)
    ensures CheckedByLast(Terminated(db, r, outcome, error, at).coverage, db.accepted)
  {
    hide FailureReason, Matching, OneVersionEach;
  }

  /** An ended run keeps its scope, and with it what is known of the run and of its snapshot. */
  lemma EndedRunOk(c: Config, db: Db, r: RunId, run: Run)
    requires c.Ok() && RunsOk(c, db.runs) && SnapshotsOk(db.runs, db.history) && r in db.runs
    requires !run.Active() && (run.status.SourceChanged? || run.status.Completed? ==> db.runs[r].status.Running?)
    requires run == db.runs[r].(status := run.status, lastError := run.lastError)
    ensures RunsOk(c, db.runs[r := run]) && SnapshotsOk(db.runs[r := run], db.history)
  {
    hide Partition, SortedSeq, FromHistory;
    assert RunOk(c, db.runs[r]);
    assert run.Scanned() == db.runs[r].Scanned();
    assert run.Definitions() == db.runs[r].Definitions();
  }

  lemma TerminateKeeps(c: Config, db: Db, r: RunId, outcome: RunStatus, error: string, at: nat)
    requires c.Ok() && DbInv(c, db) && TerminateAccepts(db, r, outcome, error)
    ensures DbInv(c, Terminated(db, r, outcome, error, at))
  {
    hide RunsOk, SnapshotsOk, CoverageOk, FromHistory, HistoryOk, Replay, UpsertFailed, OneVersionEach, CheckedByLast,
         LogOk, LastScanned, Chronology, OneActive, ActiveCovers, NoneActive;
    var after := Terminated(db, r, outcome, error, at);
    EndedRunOk(c, db, r, after.runs[r]);
    TerminateKeepsCoverage(db, r, outcome, error, at);
    TerminateKeepsChecked(db, r, outcome, error, at);
    EndKeepsActive(db.runs, r, after.runs[r]);
    NoneActiveSuffices(after.properties, after.coverage, after.runs);
    FailureKeepsLog(db.runs, r, after.runs[r], db.accepted, db.live);
  }

  // ---- Accepted publication ----

  /** Promotion followed by reconciliation is the acceptance, since no row carried the run's stamp. */
  lemma PromotionThenReconciliation(live: Live, staged: map<SourceId, Violation>, scanned: set<Bin>, r: RunId,
                                    mark: nat)
    requires forall id :: id in live ==> live[id].stamp != r
    ensures Reconcile(Promote(live, staged, r), scanned, r) == Accept(live, Acceptance(r, mark, staged, scanned))
  {
  }

  /** Publication marks CHECKED exactly the snapshot properties whose identifiers are unchanged. */
  lemma PublishedCoverage(c: Config, db: Db, r: RunId, at: nat)
    requires c.Ok() && DbInv(c, db) && PublishAccepts(db, r)
    ensures var run := db.runs[r];
            var after := Published(db, r, at).coverage;
            && Matching(db.properties, run.snapshot) <= after.Keys
            && (forall p :: p in after && p in Matching(db.properties, run.snapshot) ==>
                  after[p] == Coverage(Checked, None, Some(r), Some(r), Some(at), Some(at), run.endMark, None))
            && (forall p :: p in after && p !in Matching(db.properties, run.snapshot) ==>
                  && p in db.properties
                  && !after[p].status.Checked?
                  && (after[p].status.NotChecked? || (p in db.coverage && after[p] == db.coverage[p])))
  {
    hide RunsOk, LogOk, Replay, LastScanned, CheckedByLast, AcceptanceChecks, CoverageChecks, Chronology;
    var run := db.runs[r];
    var matching := Matching(db.properties, run.snapshot);
    assert AcceptanceChecks(run);
    assert run.Active() && run.initialized && run.startedAt.Some? by { PublishAcceptsActive(run); }
    assert FromHistory(db.history, run.snapshot);
    assert CoversChecked(db.properties, db.coverage, run.snapshot);
    var first := UpsertChecked(db, r, at);
    forall p | p in first && p in matching
      ensures first[p] == Coverage(Checked, None, Some(r), Some(r), Some(at), Some(at), run.endMark, None)
    {
      if p in db.coverage { NoNewerRun(db, r, db.coverage[p]); }
    }
    var second := UpsertIdentifiersChanged(db, first, r);
    forall p | p in matching ensures p !in Mismatching(db.properties, run.snapshot) {
      MatchingExact(db.properties, db.history, run.snapshot, p);
    }
    forall p | p in second && p !in matching
      ensures p in db.properties && !second[p].status.Checked?
      ensures second[p].status.NotChecked? || (p in db.coverage && second[p] == db.coverage[p])
    {
      if p in db.coverage && db.coverage[p].status.Checked? {
        ExactMatches(db.properties, run.snapshot, p);
      }
    }
  }

  lemma PublishAcceptsActive(run: Run)
    requires AcceptanceChecks(run)
    ensures run.Active() && run.initialized && run.startedAt.Some? && run.startMark.Some? && run.endMark == run.startMark
  {
  }

  lemma PublishKeepsCoverage(c: Config, db: Db, r: RunId, at: nat)
    requires c.Ok() && DbInv(c, db) && PublishAccepts(db, r)
    ensures var after := Published(db, r, at);
            && CoverageOk(after.properties, after.coverage, after.runs)
            && CheckedByLast(after.coverage, after.accepted)
  {
    hide RunsOk, LogOk, Replay, LastScanned, Chronology, Matching, Mismatching, FromHistory, ActiveCovers, OneActive,
         UpsertChecked, UpsertIdentifiersChanged, CoverageChecks, Accept, Reconcile, Promote, CoverageRowOk;
    var run := db.runs[r];
    var after := Published(db, r, at);
    PublishAcceptsActive(run);
    PublishedCoverage(c, db, r, at);
    forall p | p in after.coverage
      ensures p in after.properties && CoverageRowOk(after.properties[p], after.coverage[p], p, after.runs)
    {
      if p in Matching(db.properties, run.snapshot) {
        MatchingKnown(db.properties, run.snapshot, p);
        MatchingExact(db.properties, db.history, run.snapshot, p);
        CheckedRowOk(db.properties[p], after.coverage[p], p, after.runs, r);
      } else if after.coverage[p].status.NotChecked? {
        NotCheckedRowOk(db.properties[p], after.coverage[p], p, after.runs);
      } else {
        EndKeepsRow(db.properties[p], db.coverage[p], p, db.runs, r, after.runs[r]);
      }
    }
  }

  lemma CheckedRowOk(property: Property, row: Coverage, p: PropertyId, runs: map<RunId, Run>, r: RunId)
    requires row.status.Checked? && row.lastAttempt == Some(r) && r in runs
    requires runs[r].status.Completed? && runs[r].initialized && SnapshotExact(runs[r].snapshot, p, property)
    ensures CoverageRowOk(property, row, p, runs)
  {
  }

  lemma NotCheckedRowOk(property: Property, row: Coverage, p: PropertyId, runs: map<RunId, Run>)
    requires row.status.NotChecked?
    ensures CoverageRowOk(property, row, p, runs)
  {
  }

  /** Every stamp after promotion and reconciliation is an earlier one or the run's own. */
  lemma PublishedStamps(live: Live, staged: map<SourceId, Violation>, scanned: set<Bin>, r: RunId)
    ensures var after := Reconcile(Promote(live, staged, r), scanned, r);
            forall id :: id in after ==> after[id].stamp == r || (id in live && after[id].stamp == live[id].stamp)
  {
  }

  lemma PublishKeepsLog(db: Db, r: RunId, at: nat)
    requires LogOk(db.runs, db.accepted, db.live) && PublishAccepts(db, r)
    ensures var after := Published(db, r, at); LogOk(after.runs, after.accepted, after.live)
  {
    hide CoverageChecks, UpsertChecked, UpsertIdentifiersChanged, Reconcile, Promote, CoversExactly, CompleteAndClean;
    var run := db.runs[r];
    var after := Published(db, r, at);
    PublishedStamps(db.live, run.staging, run.Scanned(), r);
    forall s | s in after.runs && after.runs[s].status.Completed?
      ensures exists i :: 0 <= i < |after.accepted| && after.accepted[i].run == s
    {
      if s == r {
        assert after.accepted[|db.accepted|].run == r;
      } else {
        var i :| 0 <= i < |db.accepted| && db.accepted[i].run == s;
        assert after.accepted[i].run == s;
      }
    }
  }

  lemma PublishKeepsScanned(db: Db, r: RunId, at: nat)
    requires LastScanned(db.runs, db.accepted) && PublishAccepts(db, r)
    ensures var after := Published(db, r, at); LastScanned(after.runs, after.accepted)
  {
    hide CoverageChecks, UpsertChecked, UpsertIdentifiersChanged, Reconcile, Promote, CoversExactly, CompleteAndClean;
    assert Published(db, r, at).runs[r].Scanned() == db.runs[r].Scanned();
  }

  lemma PublishReplays(db: Db, r: RunId, at: nat)
    requires LogOk(db.runs, db.accepted, db.live) && db.live == Replay(db.accepted) && PublishAccepts(db, r)
    ensures var after := Published(db, r, at); after.live == Replay(after.accepted)
  {
    hide CoverageChecks, UpsertChecked, UpsertIdentifiersChanged, Reconcile, Promote, CoversExactly, CompleteAndClean,
         Accept;
    var run := db.runs[r];
    var after := Published(db, r, at);
    assert forall id :: id in db.live ==> db.live[id].stamp != r;
    assert after.accepted[..|after.accepted| - 1] == db.accepted;
    PromotionThenReconciliation(db.live, run.staging, run.Scanned(), r, run.startMark.value);
  }

  lemma PublishKeepsChronology(db: Db, r: RunId, at: nat)
    requires Chronology(db.runs, db.accepted) && OneActive(db.runs) && PublishAccepts(db, r)
    ensures var after := Published(db, r, at); Chronology(after.runs, after.accepted)
  {
    hide CoverageChecks, UpsertChecked, UpsertIdentifiersChanged, Reconcile, Promote;
    var after := Published(db, r, at);
    PublishAcceptsActive(db.runs[r]);
    EndKeepsActive(db.runs, r, after.runs[r]);
  }

  lemma PublishKeeps(c: Config, db: Db, r: RunId, at: nat)
    requires c.Ok() && DbInv(c, db) && PublishAccepts(db, r)
    ensures DbInv(c, Published(db, r, at))
  {
    hide LogOk, LastScanned, Chronology, CoverageOk, CheckedByLast, UpsertChecked, UpsertIdentifiersChanged,
         Reconcile, Promote, Replay, CoverageChecks, HistoryOk, FromHistory, AcceptanceChecks,
         OneActive, ActiveCovers, NoneActive;
    var run := db.runs[r];
    var after := Published(db, r, at);
    PublishAcceptsActive(run);
    PublishKeepsCoverage(c, db, r, at);
    PublishKeepsLog(db, r, at);
    PublishKeepsScanned(db, r, at);
    PublishReplays(db, r, at);
    PublishKeepsChronology(db, r, at);
    EndKeepsActive(db.runs, r, after.runs[r]);
    NoneActiveSuffices(after.properties, after.coverage, after.runs);
    assert RunOk(c, run);
    assert after.runs[r].Scanned() == run.Scanned();
    assert after.runs[r].Definitions() == run.Definitions();
  }

  /** Every transaction, from any executor, keeps the invariant. */
  lemma ApplyKeeps(c: Config, db: Db, op: Op)
    requires c.Ok() && DbInv(c, db) && OpOk(db, op)
    ensures DbInv(c, Apply(c, db, op))
  {
    hide DbInv, Registered, WithBins, WithRun, WithBatch, Published, Terminated, PublishAccepts, TerminateAccepts,
         InitializedRun, HasActive, FromHistory, CoversChecked;
    match op
    case RegisterProperty(p, bins) =>
      if p !in db.properties { RegisterKeeps(c, db, p, bins); }
    case ApplyBins(p, bins) =>
      if p in db.properties && db.properties[p].bins != bins { ApplyBinsKeeps(c, db, p, bins); }
    case CreateQueued(r) =>
      if r !in db.runs && !HasActive(db) { CreateKeeps(c, db, r); }
    case Initialize(r, rows) =>
      if r in db.runs && !db.runs[r].initialized { InitializeKeeps(c, db, r, rows); }
    case Start(r, mark, at) =>
      if r in db.runs && db.runs[r].status.Queued? && db.runs[r].initialized && db.runs[r].startMark.None? {
        StartKeeps(c, db, r, mark, at);
      }
    case IncrementAttempt(r, b) =>
      if HasBatch(db, r, b) {
        var batch := db.runs[r].batches[b];
        BatchKeeps(c, db, r, b, batch.(attempts := batch.attempts + 1));
      }
    case MarkBatchRunning(r, b) =>
      if HasBatch(db, r, b) {
        BatchKeeps(c, db, r, b, db.runs[r].batches[b].(status := BatchRunning, lastError := None));
      }
    case StoreProgress(r, b, pages, fetched) =>
      if HasBatch(db, r, b) {
        BatchKeeps(c, db, r, b, db.runs[r].batches[b].(pages := pages, rows := fetched));
      }
    case CompleteBatch(r, b, pages, fetched) =>
      if HasBatch(db, r, b) {
        BatchKeeps(c, db, r, b, db.runs[r].batches[b].(pages := pages, rows := fetched, status := BatchCompleted,
                                                       completedAt := true, lastError := None));
      }
    case FailBatch(r, b, error) =>
      if HasBatch(db, r, b) && error != "" {
        BatchKeeps(c, db, r, b, db.runs[r].batches[b].(status := BatchFailed, lastError := Some(error)));
      }
    case Stage(r, id, violation) =>
      if r in db.runs {
        var run := db.runs[r].(staging := db.runs[r].staging[id := violation]);
        assert run.Definitions() == db.runs[r].Definitions();
        OperationalKeeps(c, db, r, run);
      }
    case StoreEndMark(r, mark) =>
      if r in db.runs {
        var run := db.runs[r].(endMark := Some(mark));
        assert run.Definitions() == db.runs[r].Definitions();
        OperationalKeeps(c, db, r, run);
      }
    case Publish(r, at) =>
      if PublishAccepts(db, r) { PublishKeeps(c, db, r, at); }
    case Terminate(r, outcome, error, at) =>
      if TerminateAccepts(db, r, outcome, error) { TerminateKeeps(c, db, r, outcome, error, at); }
  }
}
