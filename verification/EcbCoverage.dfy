/** What a coverage row tells, over every sequence of transactions. */
module EcbCoverage {
  import opened Prelude
  import opened EcbTables
  import opened EcbTransactions
  import opened EcbDatabaseInvariant
  import opened EcbDatabaseTheorems

  // ---- The success side ----

  /** What a row remembers of the latest complete success. */
  function SuccessSide(row: Coverage): (Option<RunId>, Option<nat>, Option<nat>) {
    (row.lastSuccess, row.lastSuccessAt, row.watermark)
  }

  /** An accepted publication that covers the property under its current identifiers. */
  ghost predicate Covers(db: Db, op: Op, p: PropertyId) {
    op.Publish? && PublishAccepts(db, op.run) && p in Matching(db.properties, db.runs[op.run].snapshot)
  }

  ghost predicate SuccessKept(db: Db, after: Db, op: Op, p: PropertyId) {
    p in db.coverage ==>
      && p in after.coverage
      && (SuccessSide(after.coverage[p]) == SuccessSide(db.coverage[p])
          || (Covers(db, op, p) && SuccessSide(after.coverage[p]) == (Some(op.run), Some(op.at), db.runs[op.run].startMark)))
  }

  lemma PublishKeepsSuccess(db: Db, r: RunId, at: nat, p: PropertyId)
    requires PublishAccepts(db, r)
    ensures SuccessKept(db, Published(db, r, at), Op.Publish(r, at), p)
    ensures p in Published(db, r, at).coverage && p !in db.coverage ==>
              var side := SuccessSide(Published(db, r, at).coverage[p]);
              side == (None, None, None) || side == (Some(r), Some(at), db.runs[r].startMark)
  {
    hide Matching, Mismatching, CoverageChecks, PublishedByNewer, Promote, Reconcile, CompleteAndClean, CoversExactly;
  }

  lemma TerminateKeepsSuccess(db: Db, r: RunId, outcome: RunStatus, error: string, at: nat, p: PropertyId)
    requires TerminateAccepts(db, r, outcome, error)
    ensures var after := Terminated(db, r, outcome, error, at).coverage;
            && (p in db.coverage ==> p in after && SuccessSide(after[p]) == SuccessSide(db.coverage[p]))
            && (p in after && p !in db.coverage ==> SuccessSide(after[p]) == (None, None, None))
  {
    hide Matching, FailureReason, OneVersionEach;
  }

  /**
   * No failure, source change or BIN change erases what is known of the last success: only an
   * accepted run that covers the property replaces it, by itself.
   */
  lemma SuccessSurvives(c: Config, db: Db, op: Op, p: PropertyId)
    requires c.Ok() && (p in db.coverage ==> p in db.properties)
    ensures SuccessKept(db, Apply(c, db, op), op, p)
  {
    hide PublishAccepts, TerminateAccepts, Published, Terminated, HasActive, InitializedRun, WithBatch, Covers;
    match op
    case Publish(r, at) => if PublishAccepts(db, r) { PublishKeepsSuccess(db, r, at, p); }
    case Terminate(r, outcome, error, at) =>
      if TerminateAccepts(db, r, outcome, error) { TerminateKeepsSuccess(db, r, outcome, error, at, p); }
    case RegisterProperty(_, _) =>
    case ApplyBins(q, bins) => ChangedSide(db.coverage, q, bins);
    case _ => RunWritesOnly(c, db, op);
  }

  /** A remembered success is an accepted run, with the mark it was accepted at. */
  ghost predicate Remembered(accepted: seq<Acceptance>, row: Coverage) {
    match row.lastSuccess
    case None => row.lastSuccessAt.None? && row.watermark.None?
    case Some(r) =>
      && row.lastSuccessAt.Some?
      && exists i :: 0 <= i < |accepted| && accepted[i].run == r && row.watermark == Some(accepted[i].mark)
  }

  ghost predicate AllRemembered(db: Db) {
    forall p :: p in db.coverage ==> p in db.properties && Remembered(db.accepted, db.coverage[p])
  }

  lemma RememberedLonger(accepted: seq<Acceptance>, a: Acceptance, row: Coverage)
    requires Remembered(accepted, row)
    ensures Remembered(accepted + [a], row)
  {
    if row.lastSuccess.Some? {
      var i :| 0 <= i < |accepted| && accepted[i].run == row.lastSuccess.value && row.watermark == Some(accepted[i].mark);
      assert (accepted + [a])[i] == accepted[i];
    }
  }

  lemma JustAccepted(accepted: seq<Acceptance>, a: Acceptance, row: Coverage, at: nat)
    requires SuccessSide(row) == (Some(a.run), Some(at), Some(a.mark))
    ensures Remembered(accepted + [a], row)
  {
    assert (accepted + [a])[|accepted|] == a;
  }

  lemma PublishRemembers(db: Db, r: RunId, at: nat)
    requires PublishAccepts(db, r) && AllRemembered(db)
    ensures AllRemembered(Published(db, r, at))
  {
    hide Remembered, SuccessKept, PublishAccepts, UpsertChecked, UpsertIdentifiersChanged, Reconcile, Promote;
    var after := Published(db, r, at);
    assert r in db.runs && db.runs[r].startMark.Some? by { PublishedLog(db, r, at); }
    var a := Acceptance(r, db.runs[r].startMark.value, db.runs[r].staging, db.runs[r].Scanned());
    assert after.accepted == db.accepted + [a] && after.properties == db.properties;
    forall p | p in after.coverage ensures p in after.properties && Remembered(after.accepted, after.coverage[p]) {
      PublishKeepsSuccess(db, r, at, p);
      OnlyKnown(db, r, at, p);
      RememberedIsSide(db.accepted, db.coverage, after.coverage, p);
      if SuccessSide(after.coverage[p]) == (Some(r), Some(at), db.runs[r].startMark) {
        JustAccepted(db.accepted, a, after.coverage[p], at);
      } else {
        NoSuccessYet(db.accepted, after.coverage[p]);
        SideOf(db, after, r, at, p);
        RememberedLonger(db.accepted, a, after.coverage[p]);
      }
    }
  }

  lemma PublishedLog(db: Db, r: RunId, at: nat)
    requires PublishAccepts(db, r)
    ensures r in db.runs && db.runs[r].startMark.Some?
  {
    hide CoverageChecks;
  }

  lemma OnlyKnown(db: Db, r: RunId, at: nat, p: PropertyId)
    requires PublishAccepts(db, r) && AllRemembered(db) && p in Published(db, r, at).coverage
    ensures p in db.properties
  {
    hide CoverageChecks, AcceptanceChecks, Remembered, PublishedByNewer;
  }

  /** Remembering depends on the success side alone. */
  lemma RememberedIsSide(accepted: seq<Acceptance>, before: map<PropertyId, Coverage>, after: map<PropertyId, Coverage>,
                         p: PropertyId)
    ensures p in before && p in after && SuccessSide(before[p]) == SuccessSide(after[p]) ==>
              (Remembered(accepted, before[p]) <==> Remembered(accepted, after[p]))
  {
  }

  lemma NoSuccessYet(accepted: seq<Acceptance>, row: Coverage)
    ensures SuccessSide(row) == (None, None, None) ==> Remembered(accepted, row)
  {
  }

  lemma SideOf(db: Db, after: Db, r: RunId, at: nat, p: PropertyId)
    requires AllRemembered(db) && p in after.coverage
    requires SuccessKept(db, after, Op.Publish(r, at), p) && PublishAccepts(db, r)
    requires SuccessSide(after.coverage[p]) != (Some(r), Some(at), db.runs[r].startMark)
    requires p !in db.coverage ==> SuccessSide(after.coverage[p]) == (None, None, None)
    ensures Remembered(db.accepted, after.coverage[p])
  {
    hide PublishAccepts, Remembered;
    NoSuccessYet(db.accepted, after.coverage[p]);
    RememberedIsSide(db.accepted, db.coverage, after.coverage, p);
  }

  lemma TerminateRemembers(db: Db, r: RunId, outcome: RunStatus, error: string, at: nat)
    requires TerminateAccepts(db, r, outcome, error) && AllRemembered(db)
    ensures AllRemembered(Terminated(db, r, outcome, error, at))
  {
    hide Remembered, FailureReason, OneVersionEach;
    var after := Terminated(db, r, outcome, error, at);
    forall p | p in after.coverage ensures p in after.properties && Remembered(after.accepted, after.coverage[p]) {
      TerminateKeepsSuccess(db, r, outcome, error, at, p);
      RememberedIsSide(db.accepted, db.coverage, after.coverage, p);
      NoSuccessYet(db.accepted, after.coverage[p]);
    }
  }

  lemma ApplyRemembers(c: Config, db: Db, op: Op)
    requires c.Ok() && AllRemembered(db)
    ensures AllRemembered(Apply(c, db, op))
  {
    hide PublishAccepts, TerminateAccepts, Published, Terminated, HasActive, InitializedRun, WithBatch, Remembered,
         InitialCoverage, CoverageAfterBinChange;
    var after := Apply(c, db, op);
    match op
    case Publish(r, at) => if PublishAccepts(db, r) { PublishRemembers(db, r, at); }
    case Terminate(r, outcome, error, at) =>
      if TerminateAccepts(db, r, outcome, error) { TerminateRemembers(db, r, outcome, error, at); }
    case RegisterProperty(p, bins) =>
      InitialSide(bins);
      NoSuccessYet(db.accepted, InitialCoverage(bins));
    case ApplyBins(p, bins) =>
      var row := CoverageAfterBinChange(Lookup(db.coverage, p), bins);
      ChangedSide(db.coverage, p, bins);
      NoSuccessYet(db.accepted, row);
      RememberedIsSide(db.accepted, db.coverage, map[p := row], p);
    case _ => RunWritesOnly(c, db, op);
  }

  lemma InitialSide(bins: set<Bin>)
    ensures SuccessSide(InitialCoverage(bins)) == (None, None, None)
  {
  }

  lemma ChangedSide(coverage: map<PropertyId, Coverage>, p: PropertyId, bins: set<Bin>)
    ensures SuccessSide(CoverageAfterBinChange(Lookup(coverage, p), bins))
            == if p in coverage then SuccessSide(coverage[p]) else (None, None, None)
  {
  }

  lemma RunWritesOnly(c: Config, db: Db, op: Op)
    requires c.Ok() && !op.Publish? && !op.Terminate? && !op.RegisterProperty? && !op.ApplyBins?
    ensures var after := Apply(c, db, op);
            after.coverage == db.coverage && after.properties == db.properties && after.accepted == db.accepted
  {
    hide HasActive, InitializedRun;
  }

  lemma {:induction false} AllRememberedAlways(c: Config, db: Db, ops: seq<Op>)
    requires c.Ok() && AllRemembered(db)
    ensures AllRemembered(ApplyAll(c, db, ops))
    decreases |ops|
  {
    hide Apply, AllRemembered;
    if ops != [] {
      ApplyRemembers(c, db, ops[0]);
      AllRememberedAlways(c, Apply(c, db, ops[0]), ops[1..]);
    }
  }

  /**
   * Over any transactions: what a row says of its last success is all there or not there at all,
   * and names a run that was accepted, at the mark it was accepted at.
   */
  lemma SuccessNamesAcceptance(c: Config, ops: seq<Op>, p: PropertyId)
    requires c.Ok() && p in ApplyAll(c, EMPTY_DB, ops).coverage
    ensures var db := ApplyAll(c, EMPTY_DB, ops); Remembered(db.accepted, db.coverage[p])
  {
    AllRememberedAlways(c, EMPTY_DB, ops);
  }

  // ---- Every property has a row that explains itself ----

  /** A reason stands with NOT_CHECKED and only there, and is true of the property. */
  ghost predicate Explained(property: Property, row: Coverage) {
    && 1 <= property.version
    && (row.status.NotChecked? <==> row.reason.Some?)
    && (row.reason == Some(NoValidBin) ==> property.bins == {})
    && (row.reason == Some(NeverIngested) ==>
          property.version == 1 && property.bins != {} && row.lastAttempt.None? && row.lastSuccess.None?)
    && (row.reason == Some(IdentifiersChanged) ==>
          1 < property.version && property.bins != {} && row.lastAttempt.None?)
  }

  ghost predicate AllExplained(db: Db) {
    && db.properties.Keys == db.coverage.Keys
    && forall p :: p in db.coverage ==> p in db.properties && Explained(db.properties[p], db.coverage[p])
  }

  lemma PublishExplains(db: Db, r: RunId, at: nat)
    requires PublishAccepts(db, r) && AllExplained(db)
    ensures AllExplained(Published(db, r, at))
  {
    hide CoverageChecks, PublishedByNewer, Promote, Reconcile, CompleteAndClean, CoversExactly;
    var after := Published(db, r, at);
    forall p | p in after.coverage ensures p in after.properties && Explained(after.properties[p], after.coverage[p]) {
    }
    assert forall p :: p in db.properties ==> p in after.coverage;
  }

  lemma TerminateExplains(db: Db, r: RunId, outcome: RunStatus, error: string, at: nat)
    requires TerminateAccepts(db, r, outcome, error) && AllExplained(db)
    ensures AllExplained(Terminated(db, r, outcome, error, at))
  {
    hide FailureReason, OneVersionEach;
  }

  lemma ApplyExplains(c: Config, db: Db, op: Op)
    requires c.Ok() && AllExplained(db)
    ensures AllExplained(Apply(c, db, op))
  {
    hide PublishAccepts, TerminateAccepts, Published, Terminated, HasActive, InitializedRun, WithBatch;
    match op
    case Publish(r, at) => if PublishAccepts(db, r) { PublishExplains(db, r, at); }
    case Terminate(r, outcome, error, at) =>
      if TerminateAccepts(db, r, outcome, error) { TerminateExplains(db, r, outcome, error, at); }
    case RegisterProperty(_, _) =>
    case ApplyBins(_, _) =>
    case _ => RunWritesOnly(c, db, op);
  }

  lemma {:induction false} AllExplainedAlways(c: Config, db: Db, ops: seq<Op>)
    requires c.Ok() && AllExplained(db)
    ensures AllExplained(ApplyAll(c, db, ops))
    decreases |ops|
  {
    hide Apply, AllExplained;
    if ops != [] {
      ApplyExplains(c, db, ops[0]);
      AllExplainedAlways(c, Apply(c, db, ops[0]), ops[1..]);
    }
  }

  /**
   * Over any transactions every property has a coverage row, no row is without its property, each
   * row's reason is true, and a property without BINs is never CHECKED or FAILED.
   */
  lemma EveryPropertyExplained(c: Config, ops: seq<Op>, p: PropertyId)
    requires c.Ok() && OpsOk(c, EMPTY_DB, ops)
    ensures var db := ApplyAll(c, EMPTY_DB, ops);
            && (p in db.properties <==> p in db.coverage)
            && (p in db.coverage ==>
                  && Explained(db.properties[p], db.coverage[p])
                  && (db.properties[p].bins == {} ==> db.coverage[p].status.NotChecked?))
  {
    AllExplainedAlways(c, EMPTY_DB, ops);
    EmptyDbInv(c);
    ReachableInv(c, EMPTY_DB, ops);
    hide Explained, OneActive, RunsOk, LogOk, Replay, HistoryOk, SnapshotsOk, ActiveCovers, CheckedByLast, LastScanned,
         Chronology;
    var db := ApplyAll(c, EMPTY_DB, ops);
    assert p in db.coverage ==> CoverageRowOk(db.properties[p], db.coverage[p], p, db.runs);
  }

  // ---- Failures ----

  /** A failed batch that explains why a property with these BINs was not promoted. */
  predicate Blames(batch: Batch, bins: set<Bin>) {
    batch.status.BatchFailed? && batch.lastError.Some? && batch.lastError.value != "" && ToSet(batch.bins) * bins != {}
  }

  lemma {:induction false} FirstBlamed(batches: seq<Batch>, bins: set<Bin>)
    ensures FailedBatchError(batches, bins).None? <==> forall i :: 0 <= i < |batches| ==> !Blames(batches[i], bins)
    ensures FailedBatchError(batches, bins).Some? ==>
              exists i :: 0 <= i < |batches| && Blames(batches[i], bins)
                          && FailedBatchError(batches, bins) == batches[i].lastError
                          && forall j :: 0 <= j < i ==> !Blames(batches[j], bins)
  {
    if batches == [] || Blames(batches[0], bins) {
    } else {
      FirstBlamed(batches[1..], bins);
      assert FailedBatchError(batches, bins) == FailedBatchError(batches[1..], bins);
      if FailedBatchError(batches, bins).Some? {
        var i :| 0 <= i < |batches[1..]| && Blames(batches[1..][i], bins)
                 && FailedBatchError(batches[1..], bins) == batches[1..][i].lastError
                 && forall j :: 0 <= j < i ==> !Blames(batches[1..][j], bins);
        assert batches[i + 1] == batches[1..][i];
        forall j | 0 <= j < i + 1 ensures !Blames(batches[j], bins) {
          if 0 < j { assert batches[j] == batches[1..][j - 1]; }
        }
      } else {
        forall i | 0 <= i < |batches| ensures !Blames(batches[i], bins) {
          if 0 < i { assert batches[i] == batches[1..][i - 1]; }
        }
      }
    }
  }

  /**
   * A failed or rejected run marks FAILED exactly the properties its committed snapshot still
   * describes, leaves every other row as it was, and before a committed snapshot marks none.
   */
  lemma FailureIsScoped(c: Config, db: Db, r: RunId, outcome: RunStatus, error: string, at: nat, p: PropertyId)
    requires c.Ok() && DbInv(c, db) && TerminateAccepts(db, r, outcome, error)
    ensures var after := Terminated(db, r, outcome, error, at).coverage;
            var affected := p in db.properties && db.runs[r].initialized
                            && SnapshotExact(db.runs[r].snapshot, p, db.properties[p]);
            && (p in after && after[p].status.CoverageFailed? && after[p].lastAttempt == Some(r) <==> affected)
            && (affected ==> after[p].reason.None? && after[p].lastAttemptAt == Some(at)
                             && after[p].lastError == Some(FailureReason(db.runs[r], outcome, p)))
            && (!affected ==> (p in after <==> p in db.coverage) && (p in after ==> after[p] == db.coverage[p]))
  {
    hide OneActive, RunsOk, LogOk, Replay, ActiveCovers, CheckedByLast, LastScanned, Chronology, FailureReason,
         OneVersionEach, Matching, SnapshotExact, FromHistory, HistoryOk;
    var snapshot := db.runs[r].snapshot;
    if db.runs[r].initialized {
      if p in Matching(db.properties, snapshot) {
        MatchingKnown(db.properties, snapshot, p);
        MatchingExact(db.properties, db.history, snapshot, p);
      }
      if p in db.properties && SnapshotExact(snapshot, p, db.properties[p]) {
        ExactMatches(db.properties, snapshot, p);
      }
    }
    assert p in db.coverage ==> CoverageRowOk(db.properties[p], db.coverage[p], p, db.runs);
  }

  /**
   * The error a failed run leaves on a property is that of its lowest-numbered failed batch with one
   * of the property's BINs, and the general one exactly when there is no such batch.
   */
  lemma FailureNamesFirstBatch(run: Run, p: PropertyId)
    ensures var bins := set row | row in run.snapshot && row.property == p :: row.bin;
            var reason := FailureReason(run, RunFailed, p);
            || (reason == RUN_NOT_PROMOTED_ERROR && forall i :: 0 <= i < |run.batches| ==> !Blames(run.batches[i], bins))
            || exists i :: 0 <= i < |run.batches| && Blames(run.batches[i], bins)
                           && Some(reason) == run.batches[i].lastError
                           && forall j :: 0 <= j < i ==> !Blames(run.batches[j], bins)
  {
    hide Blames, FailedBatchError;
    FirstBlamed(run.batches, set row | row in run.snapshot && row.property == p :: row.bin);
  }
}
