/**
 * A clean attempt of one batch: from its first request to its last decision, with no failure and
 * nothing changing around it.
 */
module EcbCleanAttempt {
  import opened Prelude
  import opened EcbTables
  import opened EcbTransactions
  import opened EcbDatabaseInvariant
  import opened EcbProtocol
  import opened EcbProtocolTheorems
  import P = EcbProtocolInvariant

  /** The steps an attempt takes when nothing fails. */
  predicate CleanAction(a: Action) {
    a.FetchPage? || a.StageRow? || a.StorePage? || a.NextPage? || a.FinishBatch? || a.PageLimitReached?
  }

  ghost predicate CleanRun(c: Config, trace: seq<World>, actions: seq<Action>)
    requires c.Ok()
  {
    && |trace| == |actions| + 1
    && forall i :: 0 <= i < |actions| ==>
         CleanAction(actions[i]) && Enabled(c, trace[i], actions[i]) && trace[i + 1] == Step(c, trace[i], actions[i])
  }

  predicate InAttempt(w: World, r: RunId, k: nat) {
    (w.exec.Fetching? || w.exec.Staging? || w.exec.PageStored?) && w.exec.run == r && w.exec.batch == k
  }

  /** The start mark is still current, and every source row of the batch passes validation. */
  ghost predicate Steady(c: Config, w: World, r: RunId, k: nat, source: Source, bins: seq<Bin>)
    requires c.Ok()
  {
    && Reachable(c, w)
    && w.source == source
    && r in w.db.runs && w.db.runs[r].startMark == Some(w.mark)
    && k < |w.db.runs[r].batches| && w.db.runs[r].batches[k].bins == bins
    && AllValidOn(source, ToSet(bins))
  }

  /** The one step open to a clean attempt. */
  function NextClean(c: Config, w: World): Action
    requires ExecBatch(w) && !w.exec.Counted?
  {
    if w.exec.Fetching? then FetchPage
    else if w.exec.Staging? then (if w.exec.next < |w.exec.page| then StageRow else StorePage)
    else if w.exec.count < TheBatch(w).pageSize then FinishBatch
    else if w.exec.pages < c.maxPages then NextPage
    else PageLimitReached
  }

  lemma AttemptPoint(c: Config, w: World, r: RunId, k: nat)
    requires c.Ok() && P.ExecOk(c, w) && InAttempt(w, r, k)
    ensures ExecBatch(w)
    ensures w.exec.Fetching? ==> w.exec.pages < c.maxPages
    ensures w.exec.Staging? ==> w.exec.pages < c.maxPages && w.exec.next <= |w.exec.page|
    ensures w.exec.PageStored? ==> w.exec.pages <= c.maxPages && w.exec.count <= c.pageSize
  {
  }

  lemma AttemptPage(c: Config, w: World, r: RunId, k: nat)
    requires P.ExecFresh(c, w) && InAttempt(w, r, k) && ExecBatch(w) && TheRun(w).startMark == Some(w.mark)
    ensures w.exec.Staging? ==>
              w.exec.page == Slice(BatchRows(w.source, TheBatch(w).bins), w.exec.offset, c.pageSize)
  {
    hide BatchRows, P.AllStaged, Slice;
  }

  lemma InvariantParts(c: Config, w: World)
    requires c.Ok() && P.WorldInv(c, w)
    ensures P.ExecOk(c, w) && P.ExecFresh(c, w) && P.RunsProgress(c, w) && P.SourcesOk(w)
  {
    hide DbInv, P.ExecOk, P.ExecFresh, P.RunsProgress, P.SourcesOk, P.RunsFresh, P.LogExact;
  }

  lemma SourceIsOk(w: World)
    requires P.SourcesOk(w)
    ensures w.source.Ok()
  {
  }

  lemma AttemptFacts(c: Config, w: World, r: RunId, k: nat)
    requires c.Ok() && Reachable(c, w) && InAttempt(w, r, k)
    ensures ExecBatch(w) && TheBatch(w).pageSize == c.pageSize
    ensures w.exec.Fetching? ==> w.exec.pages < c.maxPages
    ensures w.exec.Staging? ==> w.exec.pages < c.maxPages && w.exec.next <= |w.exec.page|
    ensures w.exec.PageStored? ==> w.exec.pages <= c.maxPages && w.exec.count <= c.pageSize
    ensures w.exec.Staging? && TheRun(w).startMark == Some(w.mark) ==>
              w.exec.page == Slice(BatchRows(w.source, TheBatch(w).bins), w.exec.offset, c.pageSize)
    ensures w.source.Ok()
  {
    hide Reachable, P.WorldInv, P.ExecOk, P.ExecFresh, P.RunsProgress, P.SourcesOk, BatchRows, Slice;
    P.ReachableInv(c, w);
    InvariantParts(c, w);
    SourceIsOk(w);
    AttemptPoint(c, w, r, k);
    P.CurrentBatchOk(c, w, r, k);
    if TheRun(w).startMark == Some(w.mark) { AttemptPage(c, w, r, k); }
  }

  lemma RowIsValid(source: Source, bins: seq<Bin>, offset: nat, size: nat, next: nat)
    requires source.Ok() && AllValidOn(source, ToSet(bins))
    requires next < |Slice(BatchRows(source, bins), offset, size)|
    ensures Slice(BatchRows(source, bins), offset, size)[next].row.Valid?
  {
    hide BatchRows;
    var rows := BatchRows(source, bins);
    var row := Slice(rows, offset, size)[next];
    assert row in rows;
    P.BatchRowsMembers(source, bins, row);
  }

  /** In a clean attempt exactly one step is open at each point. */
  lemma OneCleanStep(c: Config, w: World, r: RunId, k: nat, source: Source, bins: seq<Bin>)
    requires c.Ok() && Steady(c, w, r, k, source, bins) && InAttempt(w, r, k)
    ensures ExecBatch(w) && CleanAction(NextClean(c, w)) && Enabled(c, w, NextClean(c, w))
    ensures forall a :: CleanAction(a) && Enabled(c, w, a) ==> a == NextClean(c, w)
  {
    hide Reachable, AllValidOn, BatchRows, Slice;
    AttemptFacts(c, w, r, k);
    if w.exec.Staging? && w.exec.next < |w.exec.page| {
      RowIsValid(source, bins, w.exec.offset, c.pageSize, w.exec.next);
    }
  }

  /** The writes of a clean attempt: one more staged row, or one batch row rewritten. */
  predicate AttemptOp(op: Op, r: RunId, k: nat) {
    || (op.Stage? && op.run == r)
    || (op.StoreProgress? && op.run == r && op.batch == k)
    || (op.CompleteBatch? && op.run == r && op.batch == k)
    || (op.FailBatch? && op.run == r && op.batch == k && op.error == PAGE_LIMIT_ERROR)
  }

  lemma AttemptOpKeeps(c: Config, db: Db, op: Op, r: RunId, k: nat)
    requires c.Ok() && AttemptOp(op, r, k) && HasBatch(db, r, k)
    ensures var after := Apply(c, db, op);
            && HasBatch(after, r, k) && after.runs[r].startMark == db.runs[r].startMark
            && after.runs[r].batches[k].bins == db.runs[r].batches[k].bins
            && (op.FailBatch? ==> after.runs[r].batches[k].status.BatchFailed?
                                  && after.runs[r].batches[k].lastError == Some(PAGE_LIMIT_ERROR))
            && (op.CompleteBatch? ==> after.runs[r].batches[k].status.BatchCompleted?)
  {
  }

  lemma CleanStepShape(c: Config, w: World, r: RunId, k: nat)
    requires c.Ok() && InAttempt(w, r, k) && ExecBatch(w) && Enabled(c, w, NextClean(c, w))
    ensures var a := NextClean(c, w);
            var after := Step(c, w, a);
            && after.source == w.source && after.mark == w.mark
            && (after.exec == Batching(r) || after.exec == Failing(r, PAGE_LIMIT_ERROR) || InAttempt(after, r, k))
            && (OpOf(c, w, a).Some? ==> AttemptOp(OpOf(c, w, a).value, r, k))
            && (a.PageLimitReached? ==> OpOf(c, w, a).Some? && OpOf(c, w, a).value.FailBatch?)
            && (a.FinishBatch? ==> OpOf(c, w, a).Some? && OpOf(c, w, a).value.CompleteBatch?)
  {
    hide BatchRows, Slice, Apply;
  }

  lemma CleanStepKeepsRun(c: Config, w: World, r: RunId, k: nat)
    requires c.Ok() && InAttempt(w, r, k) && ExecBatch(w) && Enabled(c, w, NextClean(c, w))
    ensures var after := Step(c, w, NextClean(c, w));
            && after.source == w.source && after.mark == w.mark
            && r in after.db.runs && after.db.runs[r].startMark == w.db.runs[r].startMark
            && k < |after.db.runs[r].batches| && after.db.runs[r].batches[k].bins == w.db.runs[r].batches[k].bins
            && (after.exec == Batching(r) || after.exec == Failing(r, PAGE_LIMIT_ERROR) || InAttempt(after, r, k))
            && (NextClean(c, w).PageLimitReached? ==>
                  after.db.runs[r].batches[k].status.BatchFailed?
                  && after.db.runs[r].batches[k].lastError == Some(PAGE_LIMIT_ERROR))
            && (NextClean(c, w).FinishBatch? ==> after.db.runs[r].batches[k].status.BatchCompleted?)
  {
    hide Enabled, Step, OpOf, Apply, NextClean, AttemptOp;
    var a := NextClean(c, w);
    CleanStepShape(c, w, r, k);
    P.StepIsOp(c, w, a);
    if op :| OpOf(c, w, a) == Some(op) { AttemptOpKeeps(c, w.db, op, r, k); }
  }

  lemma CleanStepSteady(c: Config, w: World, r: RunId, k: nat, source: Source, bins: seq<Bin>)
    requires c.Ok() && Steady(c, w, r, k, source, bins) && InAttempt(w, r, k)
    ensures ExecBatch(w) && Enabled(c, w, NextClean(c, w))
    ensures Steady(c, Step(c, w, NextClean(c, w)), r, k, source, bins)
  {
    hide Reachable, AllValidOn, Step, Enabled, NextClean;
    OneCleanStep(c, w, r, k, source, bins);
    CleanStepKeepsRun(c, w, r, k);
    ReachableStep(c, w, NextClean(c, w));
  }

  // ---- How far an attempt still has to go ----

  function Phase(exec: Exec): nat {
    if exec.PageStored? then 2 else if exec.Fetching? then 1 else 0
  }

  function RowsLeft(exec: Exec): int {
    if exec.Staging? then |exec.page| - exec.next else 0
  }

  lemma CleanStepAdvances(c: Config, w: World, r: RunId, k: nat)
    requires c.Ok() && InAttempt(w, r, k) && ExecBatch(w) && Enabled(c, w, NextClean(c, w))
    ensures var after := Step(c, w, NextClean(c, w));
            InAttempt(after, r, k) ==>
              || w.exec.pages < after.exec.pages
              || (w.exec.pages == after.exec.pages && Phase(after.exec) < Phase(w.exec))
              || (w.exec.pages == after.exec.pages && Phase(after.exec) == Phase(w.exec)
                  && RowsLeft(after.exec) < RowsLeft(w.exec))
  {
    hide BatchRows, Slice, Apply;
  }

  // ---- How it ends ----

  /** Where a clean attempt over n rows ends. */
  ghost predicate EndsRight(c: Config, w: World, r: RunId, k: nat, source: Source, bins: seq<Bin>)
    requires c.Ok() && r in w.db.runs && k < |w.db.runs[r].batches|
  {
    var batch, n := w.db.runs[r].batches[k], |BatchRows(source, bins)|;
    if n / c.pageSize < c.maxPages
    then
      && w.exec == Batching(r) && batch.status.BatchCompleted?
      && batch.rows == n && batch.pages == n / c.pageSize + 1
      && StagedOn(w.db.runs[r].staging, ToSet(bins)) == NormalizedOn(source, ToSet(bins))
    else
      && w.exec == Failing(r, PAGE_LIMIT_ERROR) && batch.status.BatchFailed?
      && batch.lastError == Some(PAGE_LIMIT_ERROR)
  }

  lemma LastStep(c: Config, w: World, r: RunId, k: nat, source: Source, bins: seq<Bin>)
    requires c.Ok() && Steady(c, w, r, k, source, bins) && InAttempt(w, r, k)
    ensures ExecBatch(w) && Enabled(c, w, NextClean(c, w))
    ensures var after := Step(c, w, NextClean(c, w));
            && Steady(c, after, r, k, source, bins)
            && (InAttempt(after, r, k) || EndsRight(c, after, r, k, source, bins))
  {
    hide Reachable, AllValidOn, BatchRows, Step, Enabled, EndsRight;
    OneCleanStep(c, w, r, k, source, bins);
    CleanStepSteady(c, w, r, k, source, bins);
    CleanStepKeepsRun(c, w, r, k);
    var after := Step(c, w, NextClean(c, w));
    if !InAttempt(after, r, k) {
      EndingStep(c, w, r, k, source, bins);
    }
  }

  lemma LeavesAttempt(c: Config, w: World, r: RunId, k: nat)
    requires c.Ok() && InAttempt(w, r, k) && ExecBatch(w) && Enabled(c, w, NextClean(c, w))
    requires !InAttempt(Step(c, w, NextClean(c, w)), r, k)
    ensures w.exec.PageStored?
    ensures if w.exec.count < TheBatch(w).pageSize
            then NextClean(c, w).FinishBatch? && Step(c, w, NextClean(c, w)).exec == Batching(r)
            else c.maxPages <= w.exec.pages && NextClean(c, w).PageLimitReached?
                 && Step(c, w, NextClean(c, w)).exec == Failing(r, PAGE_LIMIT_ERROR)
  {
    hide BatchRows, Slice, Apply;
  }

  lemma EndingStep(c: Config, w: World, r: RunId, k: nat, source: Source, bins: seq<Bin>)
    requires c.Ok() && Steady(c, w, r, k, source, bins) && InAttempt(w, r, k) && ExecBatch(w)
    requires Enabled(c, w, NextClean(c, w)) && Steady(c, Step(c, w, NextClean(c, w)), r, k, source, bins)
    requires !InAttempt(Step(c, w, NextClean(c, w)), r, k)
    ensures EndsRight(c, Step(c, w, NextClean(c, w)), r, k, source, bins)
  {
    hide Reachable, AllValidOn, BatchRows, Step, Enabled, NextClean, StagedOn, NormalizedOn;
    var after := Step(c, w, NextClean(c, w));
    LeavesAttempt(c, w, r, k);
    CleanStepKeepsRun(c, w, r, k);
    AttemptFacts(c, w, r, k);
    P.ReachableInv(c, w);
    PageStoredFacts(c, w) by { hide P.WorldInv; }
    if w.exec.count < c.pageSize {
      CompletedBatchIsCleanAttempt(c, after, r, k);
      SizeKnown(c, after, r, k);
    }
  }

  // ---- The whole attempt ----

  ghost predicate CleanPath(c: Config, trace: seq<World>, actions: seq<Action>, r: RunId, k: nat, source: Source,
                            bins: seq<Bin>)
    requires c.Ok()
  {
    && CleanRun(c, trace, actions)
    && (forall i :: 0 <= i < |actions| ==> Steady(c, trace[i], r, k, source, bins) && InAttempt(trace[i], r, k))
    && Steady(c, trace[|actions|], r, k, source, bins)
    && !InAttempt(trace[|actions|], r, k)
    && EndsRight(c, trace[|actions|], r, k, source, bins)
  }

  lemma PathFrom(c: Config, w: World, after: World, r: RunId, k: nat, source: Source, bins: seq<Bin>,
                 trace: seq<World>, actions: seq<Action>)
    requires c.Ok() && Steady(c, w, r, k, source, bins) && InAttempt(w, r, k)
    requires ExecBatch(w) && Enabled(c, w, NextClean(c, w)) && after == Step(c, w, NextClean(c, w))
    requires CleanPath(c, trace, actions, r, k, source, bins) && trace[0] == after
    ensures CleanPath(c, [w] + trace, [NextClean(c, w)] + actions, r, k, source, bins)
  {
    hide Steady, Enabled, Step, EndsRight;
    var t, a := [w] + trace, [NextClean(c, w)] + actions;
    forall i | 0 <= i < |a|
      ensures CleanAction(a[i]) && Enabled(c, t[i], a[i]) && t[i + 1] == Step(c, t[i], a[i])
      ensures Steady(c, t[i], r, k, source, bins) && InAttempt(t[i], r, k)
    {
      if 0 < i { assert a[i] == actions[i - 1] && t[i] == trace[i - 1]; }
    }
  }

  lemma {:induction false} CleanAttemptEnds(c: Config, w: World, r: RunId, k: nat, source: Source, bins: seq<Bin>)
    returns (trace: seq<World>, actions: seq<Action>)
    requires c.Ok() && Steady(c, w, r, k, source, bins) && InAttempt(w, r, k)
    ensures CleanPath(c, trace, actions, r, k, source, bins) && trace[0] == w
    decreases c.maxPages - w.exec.pages, Phase(w.exec), RowsLeft(w.exec)
  {
    hide Steady, Enabled, Step, EndsRight, CleanPath, NextClean;
    LastStep(c, w, r, k, source, bins);
    CleanStepAdvances(c, w, r, k);
    var after := Step(c, w, NextClean(c, w));
    if InAttempt(after, r, k) {
      AttemptBounds(c, w, r, k, source, bins);
      AttemptBounds(c, after, r, k, source, bins);
      trace, actions := CleanAttemptEnds(c, after, r, k, source, bins);
    } else {
      trace, actions := [after], [];
      PathEnded(c, after, r, k, source, bins);
    }
    PathFrom(c, w, after, r, k, source, bins, trace, actions);
    trace, actions := [w] + trace, [NextClean(c, w)] + actions;
  }

  lemma PathEnded(c: Config, w: World, r: RunId, k: nat, source: Source, bins: seq<Bin>)
    requires c.Ok() && Steady(c, w, r, k, source, bins) && !InAttempt(w, r, k)
    requires EndsRight(c, w, r, k, source, bins)
    ensures CleanPath(c, [w], [], r, k, source, bins)
  {
    hide EndsRight, Steady;
  }

  lemma AttemptBounds(c: Config, w: World, r: RunId, k: nat, source: Source, bins: seq<Bin>)
    requires c.Ok() && Steady(c, w, r, k, source, bins) && InAttempt(w, r, k)
    ensures w.exec.pages <= c.maxPages && 0 <= RowsLeft(w.exec)
  {
    hide Reachable, AllValidOn;
    AttemptFacts(c, w, r, k);
  }

  /** Any clean run from the same state follows the same path, as far as it goes. */
  lemma {:induction false} OnlyPath(c: Config, trace: seq<World>, actions: seq<Action>, r: RunId, k: nat, source: Source,
                                    bins: seq<Bin>, t: seq<World>, a: seq<Action>, n: nat)
    requires c.Ok() && CleanPath(c, trace, actions, r, k, source, bins)
    requires CleanRun(c, t, a) && t[0] == trace[0] && n <= |a|
    ensures n <= |actions| && t[..n + 1] == trace[..n + 1] && a[..n] == actions[..n]
  {
    hide Steady, Enabled, Step, EndsRight;
    if n == 0 {
    } else {
      OnlyPath(c, trace, actions, r, k, source, bins, t, a, n - 1);
      assert t[..n][n - 1] == trace[..n][n - 1];
      if n - 1 == |actions| {
        NoCleanStep(c, trace[n - 1], r, k, source, bins, a[n - 1]);
      }
      OneCleanStep(c, trace[n - 1], r, k, source, bins);
      assert a[n - 1] == actions[n - 1] && t[n] == trace[n];
      assert t[..n + 1] == t[..n] + [t[n]] && trace[..n + 1] == trace[..n] + [trace[n]];
      assert a[..n] == a[..n - 1] + [a[n - 1]] && actions[..n] == actions[..n - 1] + [actions[n - 1]];
    }
  }

  lemma NoCleanStep(c: Config, w: World, r: RunId, k: nat, source: Source, bins: seq<Bin>, a: Action)
    requires c.Ok() && Steady(c, w, r, k, source, bins) && EndsRight(c, w, r, k, source, bins)
    requires CleanAction(a)
    ensures !Enabled(c, w, a)
  {
    hide Reachable, AllValidOn, BatchRows, StagedOn, NormalizedOn;
  }

  /**
   * From the first request of an attempt, while the start mark is current and every row of the batch
   * is valid, there is one clean run, and all clean runs are its beginnings. Over n rows it completes
   * the batch, with n rows and n / pageSize + 1 pages recorded and exactly the normalized rows staged,
   * if n / pageSize is below the page limit; and it fails the batch for the limit if it is not.
   */
  lemma CleanAttemptExactly(c: Config, w: World, r: RunId, k: nat)
    returns (trace: seq<World>, actions: seq<Action>)
    requires c.Ok() && Reachable(c, w) && w.exec == Fetching(r, k, 0, 0) && ExecBatch(w)
    requires TheRun(w).startMark == Some(w.mark) && AllValidOn(w.source, ToSet(TheBatch(w).bins))
    ensures CleanRun(c, trace, actions) && trace[0] == w
    ensures forall t, a :: CleanRun(c, t, a) && t[0] == w ==>
              |a| <= |actions| && t == trace[..|a| + 1] && a == actions[..|a|]
    ensures var last := trace[|actions|];
            && r in last.db.runs && k < |last.db.runs[r].batches|
            && EndsRight(c, last, r, k, w.source, TheBatch(w).bins)
  {
    hide Reachable, AllValidOn, Enabled, Step, EndsRight;
    var bins := TheBatch(w).bins;
    trace, actions := CleanAttemptEnds(c, w, r, k, w.source, bins);
    forall t, a | CleanRun(c, t, a) && t[0] == w
      ensures |a| <= |actions| && t == trace[..|a| + 1] && a == actions[..|a|]
    {
      OnlyPath(c, trace, actions, r, k, w.source, bins, t, a, |a|);
      assert t[..|a| + 1] == t && a[..|a|] == a;
    }
  }
}
