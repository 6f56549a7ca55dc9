/**
 * The tables in the source's own form: fields that the services' transactions update statement by
 * statement. Each method is proved to have the effect of one transaction of `EcbTransactions`, and
 * to leave every table as it was when it rejects, loses authority or rolls back.
 */
module EcbStore {
  import opened Prelude
  import opened EcbTables
  import opened EcbTransactions
  import opened EcbLock

  datatype Outcome = Done | AlreadyCompleted | Rejected | AuthorityLost

  datatype RowOutcome = Staged | InvalidTransport | NormalizationFailed

  /** First observation of one source version: immutable evidence. */
  datatype RawRow = RawRow(firstSeenRun: RunId, payload: SourceRow)

  /** Element by element comparison of two sorted BIN lists. */
  method BinsAreEqual(left: seq<Bin>, right: seq<Bin>) returns (equal: bool)
    requires Increasing(left) && Increasing(right)
    ensures equal <==> ToSet(left) == ToSet(right)
  {
    if |left| != |right| {
      DistinctCount(left);
      DistinctCount(right);
      return false;
    }
    var i := 0;
    while i < |left|
      invariant i <= |left|
      invariant left[..i] == right[..i]
    {
      if left[i] != right[i] {
        DifferentSets(left, right);
        return false;
      }
      i := i + 1;
    }
    assert left == left[..i] == right[..i] == right;
    return true;
  }

  lemma DifferentSets(left: seq<Bin>, right: seq<Bin>)
    requires Increasing(left) && Increasing(right) && left != right
    ensures ToSet(left) != ToSet(right)
  {
    if ToSet(left) == ToSet(right) {
      assert forall x :: x in left <==> x in ToSet(right);
      IncreasingUnique(left, right);
    }
  }

  lemma PartitionStep(bins: seq<Bin>, size: nat, index: nat)
    requires 0 < size && index < |bins|
    ensures var end := if |bins| <= index + size then |bins| else index + size;
            Partition(bins[index..], size) == [bins[index..end]] + Partition(bins[end..], size)
  {
    var rest := bins[index..];
    if |rest| <= size {
      assert bins[index..|bins|] == rest && bins[|bins|..] == [];
    } else {
      assert rest[..size] == bins[index..index + size];
      assert rest[size..] == bins[index + size..];
    }
  }

  /** Cuts the sorted distinct BINs into consecutive batches. */
  method PartitionSortedBins(bins: seq<Bin>, size: nat) returns (batches: seq<seq<Bin>>)
    requires 0 < size
    ensures batches == Partition(bins, size)
  {
    batches := [];
    if |bins| == 0 {
      return;
    }
    var index := 0;
    assert bins[0..] == bins;
    while index < |bins|
      invariant index <= |bins|
      invariant batches + Partition(bins[index..], size) == Partition(bins, size)
      decreases |bins| - index
    {
      PartitionStep(bins, size, index);
      var end := if |bins| <= index + size then |bins| else index + size;
      batches := batches + [bins[index..end]];
      index := end;
    }
    assert bins[index..] == [];
  }

  class Store {
    const config: Config
    var properties: map<PropertyId, Property>
    var coverage: map<PropertyId, Coverage>
    var runs: map<RunId, Run>
    var live: Live
    var raw: map<(SourceId, int), RawRow>
    ghost var history: map<(PropertyId, nat), set<Bin>>
    ghost var accepted: seq<Acceptance>

    ghost function Value(): Db
      reads this
    {
      Db(properties, coverage, runs, live, history, accepted)
    }

    constructor (c: Config)
      requires c.Ok()
      ensures config == c && Value() == EMPTY_DB && raw == map[]
    {
      config := c;
      properties, coverage, runs, live, raw := map[], map[], map[], map[], map[];
      history, accepted := map[], [];
    }

    // ---- Property identity ----

    method FindOrCreateProperty(p: PropertyId, validBins: seq<Bin>)
      requires config.Ok()
      modifies this`properties, this`coverage, this`history
      ensures Value() == Apply(config, old(Value()), RegisterProperty(p, ToSet(validBins)))
    {
      if p in properties {
        return;
      }
      properties := properties[p := Property(1, ToSet(validBins))];
      coverage := coverage[p := InitialCoverage(ToSet(validBins))];
      history := history[(p, 1) := ToSet(validBins)];
    }

    /** The sole writer of effective BIN sets. Fails only when the property does not exist. */
    method ApplyEffectiveBinSet(p: PropertyId, nextBins: seq<Bin>) returns (outcome: Outcome, changed: bool)
      requires config.Ok() && Increasing(nextBins)
      modifies this`properties, this`coverage, this`history
      ensures outcome == (if p in old(properties) then Done else Rejected)
      ensures Value() == Apply(config, old(Value()), ApplyBins(p, ToSet(nextBins)))
      ensures changed <==> p in old(properties) && old(properties)[p].bins != ToSet(nextBins)
    {
      hide PublishAccepts, TerminateAccepts, Published, Terminated, InitializedRun, HasActive, WithBatch,
           WithBins, Registered, Increasing;
      if p !in properties {
        return Rejected, false;
      }
      var currentBins := SortedSeq(properties[p].bins);
      assert ToSet(currentBins) == properties[p].bins;
      var equal := BinsAreEqual(currentBins, nextBins);
      if equal {
        return Done, false;
      }
      ReplacePropertyBins(p, nextBins);
      return Done, true;
    }

    /** The BIN rows are replaced, then the version rises, then the coverage row is reset. */
    method ReplacePropertyBins(p: PropertyId, nextBins: seq<Bin>)
      requires p in properties
      modifies this`properties, this`coverage, this`history
      ensures Value() == WithBins(old(Value()), p, ToSet(nextBins))
    {
      hide CoverageAfterBinChange;
      properties := properties[p := properties[p].(bins := {})];
      properties := properties[p := properties[p].(bins := ToSet(nextBins))];
      properties := properties[p := properties[p].(version := properties[p].version + 1)];
      coverage := coverage[p := CoverageAfterBinChange(Lookup(coverage, p), ToSet(nextBins))];
      history := history[(p, properties[p].version) := ToSet(nextBins)];
    }

    // ---- Run repository ----

    /** The insert fails on the index that admits one active run. */
    method CreateQueued(r: RunId) returns (outcome: Outcome)
      requires config.Ok()
      modifies this`runs
      ensures Value() == Apply(config, old(Value()), Op.CreateQueued(r))
      ensures outcome.Done? <==> r !in old(runs) && !HasActive(old(Value()))
      ensures outcome.Done? || outcome.Rejected?
    {
      var active := FindActive();
      if active.Some? || r in runs {
        return Rejected;
      }
      runs := runs[r := NEW_RUN];
      return Done;
    }

    method FindActive() returns (r: Option<RunId>)
      ensures r.Some? <==> HasActive(Value())
      ensures r.Some? ==> r.value in runs && runs[r.value].Active()
    {
      if s :| s in runs && runs[s].Active() {
        return Some(s);
      }
      return None;
    }

    /** The transaction that stores the snapshot and the batch definitions and seals them. */
    method InitializeSnapshotAndBatches(r: RunId, rows: set<SnapshotRow>) returns (outcome: Outcome)
      requires config.Ok()
      modifies this`runs
      ensures Value() == Apply(config, old(Value()), Op.Initialize(r, rows))
      ensures outcome == (if r in old(runs) && !old(runs)[r].initialized then Done else Rejected)
    {
      if r !in runs {
        return Rejected;
      }
      var before := runs;
      runs := runs[r := runs[r].(snapshot := {}, batches := [])];
      runs := runs[r := runs[r].(snapshot := rows)];
      var chunks := PartitionSortedBins(SortedSeq(BinsOf(rows)), config.batchSize);
      var created := seq(|chunks|, i requires 0 <= i < |chunks| => NewBatch(chunks[i], config.pageSize));
      assert created == NewBatches(config, rows);
      hide Partition, SortedSeq, Increasing, NewBatches, BinsOf;
      runs := runs[r := runs[r].(batches := created)];
      if runs[r].initialized {
        // The guarded update finds no row; the transaction rolls back.
        runs := before;
        return Rejected;
      }
      runs := runs[r := runs[r].(expected := Some(Counts(|rows|, |BinsOf(rows)|, |created|)), initialized := true)];
      return Done;
    }

    method SetStartWatermarkAndRunning(r: RunId, mark: nat, at: nat) returns (outcome: Outcome)
      requires config.Ok()
      modifies this`runs
      ensures Value() == Apply(config, old(Value()), Op.Start(r, mark, at))
      ensures outcome == (if r in old(runs) && old(runs)[r].status.Queued? && old(runs)[r].initialized
                             && old(runs)[r].startMark.None? then Done else Rejected)
    {
      if r in runs && runs[r].status.Queued? && runs[r].initialized && runs[r].startMark.None? {
        runs := runs[r := runs[r].(startMark := Some(mark), status := Running, startedAt := Some(at))];
        return Done;
      }
      return Rejected;
    }

    method UpdateEndWatermark(r: RunId, mark: nat)
      requires config.Ok()
      modifies this`runs
      ensures Value() == Apply(config, old(Value()), Op.StoreEndMark(r, mark))
    {
      if r in runs {
        runs := runs[r := runs[r].(endMark := Some(mark))];
      }
    }

    // ---- Batch repository ----

    method IncrementAttempt(r: RunId, b: nat)
      requires config.Ok()
      modifies this`runs
      ensures Value() == Apply(config, old(Value()), Op.IncrementAttempt(r, b))
    {
      if r in runs && b < |runs[r].batches| {
        var batch := runs[r].batches[b];
        runs := runs[r := runs[r].(batches := runs[r].batches[b := batch.(attempts := batch.attempts + 1)])];
      }
    }

    method MarkRunning(r: RunId, b: nat)
      requires config.Ok()
      modifies this`runs
      ensures Value() == Apply(config, old(Value()), Op.MarkBatchRunning(r, b))
    {
      if r in runs && b < |runs[r].batches| {
        var batch := runs[r].batches[b].(status := BatchRunning, lastError := None);
        runs := runs[r := runs[r].(batches := runs[r].batches[b := batch])];
      }
    }

    method UpdateProgress(r: RunId, b: nat, pages: nat, fetched: nat)
      requires config.Ok()
      modifies this`runs
      ensures Value() == Apply(config, old(Value()), Op.StoreProgress(r, b, pages, fetched))
    {
      if r in runs && b < |runs[r].batches| {
        var batch := runs[r].batches[b].(pages := pages, rows := fetched);
        runs := runs[r := runs[r].(batches := runs[r].batches[b := batch])];
      }
    }

    method MarkCompleted(r: RunId, b: nat, pages: nat, fetched: nat)
      requires config.Ok()
      modifies this`runs
      ensures Value() == Apply(config, old(Value()), Op.CompleteBatch(r, b, pages, fetched))
    {
      if r in runs && b < |runs[r].batches| {
        var batch := runs[r].batches[b].(pages := pages, rows := fetched, status := BatchCompleted,
                                         completedAt := true, lastError := None);
        runs := runs[r := runs[r].(batches := runs[r].batches[b := batch])];
      }
    }

    /** A failed batch must carry a non-empty error. */
    method MarkFailed(r: RunId, b: nat, error: string) returns (outcome: Outcome)
      requires config.Ok()
      modifies this`runs
      ensures Value() == Apply(config, old(Value()), Op.FailBatch(r, b, error))
      ensures error == "" ==> outcome.Rejected? && Value() == old(Value())
    {
      if error == "" {
        return Rejected;
      }
      if r in runs && b < |runs[r].batches| {
        var batch := runs[r].batches[b].(status := BatchFailed, lastError := Some(error));
        runs := runs[r := runs[r].(batches := runs[r].batches[b := batch])];
      }
      return Done;
    }

    // ---- Raw evidence and staging ----

    /**
     * Raw evidence first, then normalization, then staging. `updatedAt` is the row's version when
     * the row can be identified at all.
     */
    method ProcessRow(r: RunId, id: SourceId, row: SourceRow, updatedAt: Option<int>) returns (outcome: RowOutcome)
      requires config.Ok()
      requires row.Valid? ==> updatedAt == Some(row.violation.updatedAt)
      modifies this`raw, this`runs
      ensures outcome == (if updatedAt.None? then InvalidTransport else if row.Valid? then Staged else NormalizationFailed)
      ensures Value() == if outcome.Staged? then Apply(config, old(Value()), Op.Stage(r, id, row.violation))
                         else old(Value())
      ensures forall k :: k in old(raw) ==> k in raw && raw[k] == old(raw)[k]
      ensures updatedAt.Some? ==>
                && (id, updatedAt.value) in raw
                && ((id, updatedAt.value) !in old(raw) ==> raw[(id, updatedAt.value)] == RawRow(r, row))
      ensures updatedAt.None? ==> raw == old(raw)
    {
      if updatedAt.None? {
        return InvalidTransport;
      }
      var key := (id, updatedAt.value);
      if key !in raw {
        raw := raw[key := RawRow(r, row)];
      }
      if row.Invalid? {
        return NormalizationFailed;
      }
      if r in runs {
        runs := runs[r := runs[r].(staging := runs[r].staging[id := row.violation])];
      }
      return Staged;
    }

    // ---- Accepted publication ----

    /** Two statements, the second relying on the stamps the first has just written. */
    method PromoteEcbLiveState(r: RunId) returns (promoted: nat, reconciled: nat)
      requires r in runs
      modifies this`live
      ensures live == Reconcile(Promote(old(live), runs[r].staging, r), runs[r].Scanned(), r)
      ensures promoted == |runs[r].staging|
      ensures reconciled == |set id | id in old(live) && id !in runs[r].staging && old(live)[id].current
                                      && old(live)[id].violation.bin in runs[r].Scanned() && old(live)[id].stamp != r|
    {
      hide Promote, Reconcile;
      live := Promote(live, runs[r].staging, r);
      promoted := |runs[r].staging|;
      var scannedBins := runs[r].Scanned();
      var absent := set id | id in live && live[id].current && live[id].violation.bin in scannedBins && live[id].stamp != r;
      AbsentAfterPromotion(old(live), runs[r].staging, scannedBins, r);
      ghost var promotedLive := live;
      live := map id | id in live :: if id in absent then live[id].(current := false) else live[id];
      ReconcileRetiresAbsent(promotedLive, scannedBins, r, absent);
      reconciled := |absent|;
    }

    /** Success-side coverage: its own validation, then two ordered upserts. */
    method PublishSuccessfulCoverage(r: RunId, at: nat) returns (outcome: Outcome)
      requires r in runs
      modifies this`coverage
      ensures outcome == (if CoverageChecks(properties, runs[r]) then Done else Rejected)
      ensures outcome.Done? ==>
                coverage == UpsertIdentifiersChanged(old(Value()), UpsertChecked(old(Value()), r, at), r)
      ensures outcome.Rejected? ==> coverage == old(coverage)
    {
      if !CoverageChecks(properties, runs[r]) {
        return Rejected;
      }
      hide CoverageChecks, UpsertChecked, UpsertIdentifiersChanged;
      MarkMatchingChecked(r, at);
      CoverageIgnores(old(Value()), Value(), coverage, r, at);
      MarkChangedNotChecked(r);
      return Done;
    }

    method MarkMatchingChecked(r: RunId, at: nat)
      requires r in runs && runs[r].startedAt.Some?
      modifies this`coverage
      ensures coverage == UpsertChecked(old(Value()), r, at)
    {
      hide Matching, UpsertChecked;
      var run := runs[r];
      var matching := Matching(properties, run.snapshot);
      var before := coverage;
      coverage := map p | p in before.Keys + matching ::
        if p in matching && !(p in before && PublishedByNewer(runs, before[p], run.startedAt.value))
        then Coverage(Checked, None, Some(r), Some(r), Some(at), Some(at), run.endMark, None)
        else before[p];
      CheckedStatement(old(Value()), r, at, coverage);
    }

    method MarkChangedNotChecked(r: RunId)
      requires r in runs && runs[r].startedAt.Some?
      modifies this`coverage
      ensures coverage == UpsertIdentifiersChanged(old(Value()), old(coverage), r)
    {
      hide Mismatching, UpsertIdentifiersChanged;
      var run := runs[r];
      var changed := Mismatching(properties, run.snapshot);
      var before := coverage;
      coverage := map p | p in before.Keys + changed ::
        if p in changed && p !in before then
          Coverage(NotChecked, Some(IdentifiersChangedAfterSnapshot), None, None, None, None, None, None)
        else if p in changed && !PublishedByNewer(runs, before[p], run.startedAt.value)
                && before[p].lastSuccess != Some(r) then
          before[p].(status := NotChecked, reason := Some(IdentifiersChangedAfterSnapshot))
        else before[p];
      ChangedStatement(old(Value()), before, r, coverage);
    }

    /** Live state, coverage and the COMPLETED status in one transaction, or none of them. */
    method Publish(r: RunId, at: nat, authority: IngestionExecutionAuthority) returns (outcome: Outcome)
      requires config.Ok()
      requires authority.Valid()
      modifies this`live, this`coverage, this`runs, this`accepted, authority
      ensures authority.Valid() && (old(authority.Unreleased()) ==> authority.Unreleased())
      ensures outcome.AuthorityLost? ==> !authority.authorized
      ensures outcome.Done? ==> PublishAccepts(old(Value()), r)
      ensures outcome.Done? ==> Value() == Published(old(Value()), r, at)
      ensures !outcome.Done? ==> Value() == old(Value())
      ensures outcome.AlreadyCompleted? ==> r in runs && runs[r].status.Completed?
      ensures outcome.Rejected? ==> !PublishAccepts(old(Value()), r)
    {
      hide AcceptanceChecks, Published, CoverageChecks, UpsertChecked, UpsertIdentifiersChanged, Reconcile, Promote;
      var authorized := authority.CheckAuthorized();
      if !authorized { return AuthorityLost; }
      if r !in runs { return Rejected; }
      if runs[r].status.Completed? { return AlreadyCompleted; }
      if !AcceptanceChecks(runs[r]) { return Rejected; }
      AcceptedHasMarks(runs[r]);
      authorized := authority.CheckAuthorized();
      if !authorized { return AuthorityLost; }

      var savedLive, savedCoverage := live, coverage;
      var promoted, reconciled := PromoteEcbLiveState(r);
      authorized := authority.CheckAuthorized();
      if !authorized {
        live := savedLive;
        return AuthorityLost;
      }
      CoverageIgnores(old(Value()), Value(), UpsertChecked(old(Value()), r, at), r, at);
      outcome := PublishSuccessfulCoverage(r, at);
      if outcome.Rejected? {
        live := savedLive;
        return;
      }
      authorized := authority.CheckAuthorized();
      if !authorized {
        live, coverage := savedLive, savedCoverage;
        return AuthorityLost;
      }
      accepted := accepted + [Acceptance(r, runs[r].startMark.value, runs[r].staging, runs[r].Scanned())];
      runs := runs[r := runs[r].(status := Completed, lastError := None)];
      PublicationAssembled(old(Value()), Value(), r, at);
      return Done;
    }

    // ---- Terminal publication ----

    /** The terminal status and the attempt side of coverage in one transaction, or neither. */
    method PublishTerminalFailure(r: RunId, terminal: RunStatus, error: string, at: nat,
                                  authority: IngestionExecutionAuthority)
      returns (outcome: Outcome)
      requires config.Ok()
      requires authority.Valid()
      modifies this`coverage, this`runs, authority
      ensures authority.Valid() && (old(authority.Unreleased()) ==> authority.Unreleased())
      ensures outcome.AuthorityLost? ==> !authority.authorized
      ensures outcome.Done? ==> TerminateAccepts(old(Value()), r, terminal, error)
      ensures outcome.Done? ==> Value() == Terminated(old(Value()), r, terminal, error, at)
      ensures !outcome.Done? ==> Value() == old(Value())
      ensures outcome.Rejected? ==> !TerminateAccepts(old(Value()), r, terminal, error)
      ensures !outcome.AlreadyCompleted?
    {
      hide OneVersionEach, UpsertFailed;
      if !terminal.RunFailed? && !terminal.SourceChanged? { return Rejected; }
      if error == "" { return Rejected; }
      if terminal.SourceChanged? && error != SOURCE_CHANGED_ERROR { return Rejected; }
      var authorized := authority.CheckAuthorized();
      if !authorized { return AuthorityLost; }
      if r !in runs || !runs[r].Active() { return Rejected; }
      if terminal.SourceChanged? && (!runs[r].status.Running? || !runs[r].initialized || runs[r].startMark.None?) {
        return Rejected;
      }
      var before := runs[r];
      runs := runs[r := before.(status := terminal, lastError := Some(error))];
      if before.initialized {
        authorized := authority.CheckAuthorized();
        if !authorized {
          runs := runs[r := before];
          return AuthorityLost;
        }
        if !OneVersionEach(before.snapshot) {
          runs := runs[r := before];
          return Rejected;
        }
        var run := runs[r];
        var eligible := Matching(properties, run.snapshot);
        var stored := coverage;
        coverage := map p | p in stored.Keys + eligible ::
          if p !in eligible then stored[p]
          else if p in stored then
            stored[p].(status := CoverageFailed, reason := None, lastAttempt := Some(r), lastAttemptAt := Some(at),
                       lastError := Some(FailureReason(run, terminal, p)))
          else Coverage(CoverageFailed, None, Some(r), None, Some(at), None, None, Some(FailureReason(run, terminal, p)));
        FailedStatement(old(Value()), r, before.(status := terminal, lastError := Some(error)), terminal, at, coverage);
      }
      return Done;
    }
  }

  lemma AcceptedHasMarks(run: Run)
    requires AcceptanceChecks(run)
    ensures run.startedAt.Some? && run.startMark.Some?
  {
  }

  lemma PublicationAssembled(before: Db, after: Db, r: RunId, at: nat)
    requires PublishAccepts(before, r) && before.runs[r].startMark.Some? && before.runs[r].startedAt.Some?
    requires var run := before.runs[r];
             after == before.(live := Reconcile(Promote(before.live, run.staging, r), run.Scanned(), r),
                              coverage := UpsertIdentifiersChanged(before, UpsertChecked(before, r, at), r),
                              runs := before.runs[r := run.(status := Completed, lastError := None)],
                              accepted := before.accepted
                                          + [Acceptance(r, run.startMark.value, run.staging, run.Scanned())])
    ensures after == Published(before, r, at)
  {
  }

  /** After promotion, a current row in scope under another stamp is one the run did not stage. */
  lemma AbsentAfterPromotion(live: Live, staged: map<SourceId, Violation>, scanned: set<Bin>, r: RunId)
    ensures var after := Promote(live, staged, r);
            (set id | id in after && after[id].current && after[id].violation.bin in scanned && after[id].stamp != r)
            == (set id | id in live && id !in staged && live[id].current && live[id].violation.bin in scanned
                         && live[id].stamp != r)
  {
  }

  lemma ReconcileRetiresAbsent(live: Live, scanned: set<Bin>, r: RunId, absent: set<SourceId>)
    requires absent
             == set id | id in live && live[id].current && live[id].violation.bin in scanned && live[id].stamp != r
    ensures (map id | id in live :: if id in absent then live[id].(current := false) else live[id])
            == Reconcile(live, scanned, r)
  {
  }

  lemma CheckedStatement(db: Db, r: RunId, at: nat, written: map<PropertyId, Coverage>)
    requires r in db.runs && db.runs[r].startedAt.Some?
    requires var run, before := db.runs[r], db.coverage;
             var matching := Matching(db.properties, run.snapshot);
             written == map p | p in before.Keys + matching ::
               if p in matching && !(p in before && PublishedByNewer(db.runs, before[p], run.startedAt.value))
               then Coverage(Checked, None, Some(r), Some(r), Some(at), Some(at), run.endMark, None)
               else before[p]
    ensures written == UpsertChecked(db, r, at)
  {
    hide Matching, PublishedByNewer;
  }

  lemma ChangedStatement(db: Db, first: map<PropertyId, Coverage>, r: RunId, written: map<PropertyId, Coverage>)
    requires r in db.runs && db.runs[r].startedAt.Some?
    requires var run := db.runs[r];
             var changed := Mismatching(db.properties, run.snapshot);
             written == map p | p in first.Keys + changed ::
               if p in changed && p !in first then
                 Coverage(NotChecked, Some(IdentifiersChangedAfterSnapshot), None, None, None, None, None, None)
               else if p in changed && !PublishedByNewer(db.runs, first[p], run.startedAt.value)
                       && first[p].lastSuccess != Some(r) then
                 first[p].(status := NotChecked, reason := Some(IdentifiersChangedAfterSnapshot))
               else first[p]
    ensures written == UpsertIdentifiersChanged(db, first, r)
  {
    hide Mismatching, PublishedByNewer;
  }

  /** The coverage statements read neither live rows nor, in the second, the stored coverage. */
  lemma CoverageIgnores(before: Db, after: Db, first: map<PropertyId, Coverage>, r: RunId, at: nat)
    requires after == before.(live := after.live, coverage := after.coverage)
    requires r in before.runs && before.runs[r].startedAt.Some?
    ensures after.coverage == before.coverage ==> UpsertChecked(after, r, at) == UpsertChecked(before, r, at)
    ensures UpsertIdentifiersChanged(after, first, r) == UpsertIdentifiersChanged(before, first, r)
  {
  }

  lemma FailedStatement(db: Db, r: RunId, ended: Run, terminal: RunStatus, at: nat, written: map<PropertyId, Coverage>)
    requires r in db.runs && ended == db.runs[r].(status := ended.status, lastError := ended.lastError)
    requires var stored, eligible := db.coverage, Matching(db.properties, ended.snapshot);
             written == map p | p in stored.Keys + eligible ::
               if p !in eligible then stored[p]
               else if p in stored then
                 stored[p].(status := CoverageFailed, reason := None, lastAttempt := Some(r), lastAttemptAt := Some(at),
                            lastError := Some(FailureReason(ended, terminal, p)))
               else Coverage(CoverageFailed, None, Some(r), None, Some(at), None, None,
                             Some(FailureReason(ended, terminal, p)))
    ensures written == UpsertFailed(db, r, terminal, at)
  {
    hide Matching, FailedBatchError;
    forall p ensures FailureReason(ended, terminal, p) == FailureReason(db.runs[r], terminal, p) {
      assert (set row | row in ended.snapshot && row.property == p :: row.bin)
          == (set row | row in db.runs[r].snapshot && row.property == p :: row.bin);
    }
  }
}
