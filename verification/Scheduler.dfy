/**
 * Sprint runs, the atomic stage barrier with its rollback, focused runs and barrier reruns, over
 * task states and an integration head that is the list of merged tasks.
 */
module Scheduler {
  import opened Prelude
  import opened PathScope
  import R = Roadmap
  import opened TaskBudget

  type TaskId = R.TaskId

  /** `maxAttempts` is what the defaults leave the task for an automatic run. */
  datatype TaskSpec = TaskSpec(sprint: string, stage: nat, dependsOn: seq<TaskId>, allowedPaths: seq<string>,
                               maxAttempts: nat)

  type Plan = map<TaskId, TaskSpec>

  /** Dependencies are known tasks, and those in the same sprint lie in earlier stages. */
  ghost predicate StageRule(plan: Plan) {
    forall t, d :: t in plan && d in plan[t].dependsOn ==>
      && d in plan
      && (plan[d].sprint == plan[t].sprint ==> plan[d].stage < plan[t].stage)
  }

  datatype ValidationError = UnknownDependency(task: TaskId, dependency: TaskId) | LateDependency(task: TaskId, dependency: TaskId)

  predicate BadDependency(plan: Plan, t: TaskId, d: TaskId)
    requires t in plan
  {
    d !in plan || (plan[d].sprint == plan[t].sprint && plan[t].stage <= plan[d].stage)
  }

  /** The dependency checks over all tasks: no error is reported exactly when the stage rule holds. */
  method ValidateDependencies(plan: Plan) returns (errors: seq<ValidationError>)
    ensures errors == [] <==> StageRule(plan)
    ensures forall e :: e in errors ==> e.task in plan && e.dependency in plan[e.task].dependsOn
                                        && BadDependency(plan, e.task, e.dependency)
  {
    errors := [];
    var left := plan.Keys;
    while left != {}
      invariant left <= plan.Keys
      invariant errors == [] <==>
                  forall t, d :: t in plan && t !in left && d in plan[t].dependsOn ==> !BadDependency(plan, t, d)
      invariant forall e :: e in errors ==> e.task in plan && e.dependency in plan[e.task].dependsOn
                                            && BadDependency(plan, e.task, e.dependency)
      decreases |left|
    {
      var t :| t in left;
      var found := ValidateTask(plan, t);
      ghost var before := errors;
      errors := errors + found;
      assert errors == [] <==> before == [] && found == [];
      left := left - {t};
    }
  }

  method ValidateTask(plan: Plan, t: TaskId) returns (errors: seq<ValidationError>)
    requires t in plan
    ensures errors == [] <==> forall d :: d in plan[t].dependsOn ==> !BadDependency(plan, t, d)
    ensures forall e :: e in errors ==> e.task == t && e.dependency in plan[t].dependsOn
                                        && BadDependency(plan, e.task, e.dependency)
  {
    errors := [];
    var deps := plan[t].dependsOn;
    var i := 0;
    while i < |deps|
      invariant i <= |deps|
      invariant errors == [] <==> forall k :: 0 <= k < i ==> !BadDependency(plan, t, deps[k])
      invariant forall e :: e in errors ==> e.task == t && e.dependency in deps && BadDependency(plan, e.task, e.dependency)
    {
      if deps[i] !in plan {
        errors := errors + [UnknownDependency(t, deps[i])];
      } else if plan[deps[i]].sprint == plan[t].sprint && plan[deps[i]].stage >= plan[t].stage {
        errors := errors + [LateDependency(t, deps[i])];
      }
      i := i + 1;
    }
  }

  // ---- Parallel safety of a stage ----

  ghost predicate PairwiseSafe(plan: Plan, tasks: seq<TaskId>)
    requires forall t :: t in tasks ==> t in plan
  {
    forall i, j :: 0 <= i < j < |tasks| ==>
      !TasksMayConflict(plan[tasks[i]].allowedPaths, plan[tasks[j]].allowedPaths)
  }

  method AssertParallelSafe(plan: Plan, tasks: seq<TaskId>) returns (safe: bool)
    requires forall t :: t in tasks ==> t in plan
    ensures safe <==> PairwiseSafe(plan, tasks)
  {
    hide TasksMayConflict;
    var i := 0;
    while i < |tasks|
      invariant i <= |tasks|
      invariant forall a, b :: 0 <= a < i && a < b < |tasks| ==>
                  !TasksMayConflict(plan[tasks[a]].allowedPaths, plan[tasks[b]].allowedPaths)
    {
      var j := i + 1;
      while j < |tasks|
        invariant i < j <= |tasks|
        invariant forall b :: i < b < j ==> !TasksMayConflict(plan[tasks[i]].allowedPaths, plan[tasks[b]].allowedPaths)
      {
        var conflict := TestConflict(plan[tasks[i]].allowedPaths, plan[tasks[j]].allowedPaths);
        if conflict { return false; }
        j := j + 1;
      }
      i := i + 1;
    }
    return true;
  }

  /** The tasks of a stage that pass the test and the scope check have changed disjoint sets of files. */
  lemma StageEditsDisjoint(plan: Plan, tasks: seq<TaskId>, changed: map<TaskId, set<string>>,
                           admits: (string, char) -> bool, i: nat, j: nat)
    requires forall t :: t in tasks ==> t in plan && t in changed && InScope(changed[t], plan[t].allowedPaths, admits)
    requires forall t, p :: t in tasks && p in plan[t].allowedPaths ==> Reliable(p)
    requires PairwiseSafe(plan, tasks) && i < j < |tasks|
    ensures changed[tasks[i]] !! changed[tasks[j]]
  {
    hide TasksMayConflict, InScope, Reliable;
    assert tasks[i] in tasks && tasks[j] in tasks;
    DisjointEdits(plan[tasks[i]].allowedPaths, plan[tasks[j]].allowedPaths, changed[tasks[i]], changed[tasks[j]], admits);
  }

  // ---- The scheduler ----

  datatype SprintOutcome =
    | SprintCompleted
    | TasksFailed
    | SprintPaused
    | BarrierFailed(rolledBack: bool)
    | UnsafeStage(stage: nat)
    | NotReady(stage: nat)
    | Dirty

  ghost predicate StagesDone(plan: Plan, status: map<TaskId, Status>, sprint: string, stages: seq<nat>) {
    forall t :: t in plan && plan[t].sprint == sprint && plan[t].stage in stages ==> t in status && status[t].DoneTask?
  }

  lemma NextStageDone(plan: Plan, before: map<TaskId, Status>, after: map<TaskId, Status>, sprint: string,
                      stages: seq<nat>, i: nat)
    requires i < |stages| && before.Keys == plan.Keys == after.Keys && StagesDone(plan, before, sprint, stages[..i])
    requires forall t :: t in plan && before[t].DoneTask? ==> after[t].DoneTask?
    requires forall t :: t in plan && plan[t].sprint == sprint && plan[t].stage == stages[i] ==> after[t].DoneTask?
    ensures StagesDone(plan, after, sprint, stages[..i + 1])
  {
    assert stages[..i + 1] == stages[..i] + [stages[i]];
  }

  /** The stored counters of the tasks; a task without a record is fresh. */
  class StateStore {
    const config: Config
    var phases: map<TaskId, Phase>
    var ledgers: map<TaskId, Ledger>
    /** What the calls made for each task amount to. */
    ghost var tallies: map<TaskId, Tally>

    function LedgerOf(t: TaskId): Ledger
      reads this
    {
      if t in ledgers then ledgers[t] else FRESH
    }

    ghost function TallyOf(t: TaskId): Tally
      reads this
    {
      if t in tallies then tallies[t] else NO_CALLS
    }

    /** The counters of the task are what its calls amount to. */
    ghost predicate Accounted(t: TaskId)
      reads this
    {
      && Balanced(config, TallyOf(t))
      && TallyOf(t).ledger.(codexDisabled := LedgerOf(t).codexDisabled) == LedgerOf(t)
    }

    ghost predicate AllAccounted()
      reads this
    {
      forall t: TaskId :: Accounted(t)
    }

    constructor (c: Config)
      ensures AllAccounted() && config == c && forall t :: LedgerOf(t) == FRESH
    {
      config := c;
      phases, ledgers, tallies := map[], map[], map[];
    }

    /** The record of a task is loaded, its attempt loop runs, and the record is stored again. */
    method Run(t: TaskId, status: Status, focused: bool, limit: nat) returns (outcome: TaskOutcome, next: Status)
      requires AllAccounted() && !status.DoneTask? && !status.VerifiedTask?
      modifies this
      ensures AllAccounted()
      ensures forall o :: o != t ==> LedgerOf(o) == old(LedgerOf(o))
      ensures !next.DoneTask? && (outcome.TaskOk? <==> next.VerifiedTask?)
      ensures LedgerOf(t).attempt <= Larger(old(LedgerOf(t)).attempt, limit)
    {
      hide Balanced;
      assert Accounted(t);
      var phase := if t in phases then phases[t] else NoPhase;
      // Whether Codex is switched off is a matter of the sprint, not of the task.
      var codexDisabled: bool := *;
      var run := new TaskRun.Load(config, status, phase, LedgerOf(t).(codexDisabled := codexDisabled), TallyOf(t));
      outcome := run.RunTask(focused, limit);
      phases, ledgers := phases[t := run.waitingPhase], ledgers[t := run.Counters()];
      tallies := tallies[t := run.tally];
      next := run.status;
      forall o: TaskId ensures Accounted(o) {
        assert old(Accounted(o));
      }
    }

    /** A fresh budget forgets what the earlier calls amounted to. */
    method Forget(t: TaskId)
      requires AllAccounted()
      modifies this
      ensures AllAccounted()
      ensures forall o :: o != t ==> LedgerOf(o) == old(LedgerOf(o))
      ensures LedgerOf(t) == FRESH.(codexDisabled := old(LedgerOf(t)).codexDisabled)
    {
      ledgers := ledgers[t := FRESH.(codexDisabled := LedgerOf(t).codexDisabled)];
      tallies := tallies[t := NO_CALLS];
      forall o: TaskId ensures Accounted(o) {
        assert old(Accounted(o));
      }
    }
  }

  function Larger(a: nat, b: nat): nat { if a < b then b else a }

  class Scheduler {
    const plan: Plan
    const store: StateStore
    var status: map<TaskId, Status>
    var branches: set<TaskId>
    /** The tasks merged into the integration branch, oldest first. */
    var head: seq<TaskId>
    var clean: bool

    predicate DependenciesDone(t: TaskId)
      requires t in plan && status.Keys == plan.Keys && forall d | d in plan[t].dependsOn :: d in plan
      reads this
    {
      forall d | d in plan[t].dependsOn :: status[d].DoneTask?
    }

    /** Whatever is verified or done has all its dependencies done. */
    ghost predicate Valid()
      reads this
    {
      && StageRule(plan)
      && status.Keys == plan.Keys
      && forall t :: t in plan && (status[t].VerifiedTask? || status[t].DoneTask?) ==> DependenciesDone(t)
    }

    constructor (p: Plan, c: Config)
      requires StageRule(p)
      ensures Valid() && plan == p && fresh(store) && store.AllAccounted() && store.config == c
      ensures forall t :: t in p ==> status[t].PendingTask? && store.LedgerOf(t) == FRESH
    {
      plan := p;
      store := new StateStore(c);
      status := map t | t in p :: PendingTask;
      branches, head, clean := {}, [], true;
    }

    // ---- Git, as abstract steps ----

    method MergeBranch(t: TaskId) returns (ok: bool)
      modifies this`head
      ensures head == old(head) + if ok then [t] else []
    {
      ok := *;
      if ok { head := head + [t]; }
    }

    /** Resets to the checkpoint and checks that it worked. */
    method RollbackIntegration(checkpoint: seq<TaskId>) returns (ok: bool)
      modifies this`head, this`clean
      ensures ok ==> head == checkpoint && clean
    {
      var reset: bool := *;
      if !reset { return false; }
      head := checkpoint;
      clean := *;
      return clean;
    }

    method VerifyStage() returns (ok: bool)
      modifies this`clean
    {
      ok := *;
      clean := *;
    }

    // ---- Tasks ----

    /** A task may become verified or done only over done dependencies, and never stops being done. */
    method SetStatus(t: TaskId, next: Status)
      requires Valid() && t in plan
      requires next.VerifiedTask? || next.DoneTask? ==> DependenciesDone(t)
      requires status[t].DoneTask? ==> next.DoneTask?
      modifies this`status
      ensures Valid() && status == old(status)[t := next]
    {
      status := status[t := next];
      forall o | o in plan && (status[o].VerifiedTask? || status[o].DoneTask?) ensures DependenciesDone(o) {
      }
    }

    /** One task, from fresh or resumed, within its attempts; nothing else changes, and it does not become done. */
    method RunTask(t: TaskId, focused: bool) returns (outcome: TaskOutcome)
      requires Valid() && store.AllAccounted() && t in plan && DependenciesDone(t)
      modifies this`status, this`branches, store
      ensures Valid() && store.AllAccounted()
      ensures forall o :: o in plan && o != t ==> status[o] == old(status)[o]
      ensures forall o :: o != t ==> store.LedgerOf(o) == old(store.LedgerOf(o))
      ensures old(status)[t].DoneTask? || old(status)[t].VerifiedTask? ==> status[t] == old(status)[t] && outcome.TaskOk?
      ensures !old(status)[t].DoneTask? ==> !status[t].DoneTask?
      ensures outcome.TaskOk? ==> status[t].DoneTask? || status[t].VerifiedTask?
      ensures store.LedgerOf(t).attempt <= Larger(old(store.LedgerOf(t)).attempt, Limit(t, focused))
    {
      if status[t].DoneTask? || status[t].VerifiedTask? {
        return TaskOk;
      }
      branches := branches + {t};
      var next: Status;
      outcome, next := store.Run(t, status[t], focused, Limit(t, focused));
      SetStatus(t, next);
    }

    /** A focused run gets one attempt. */
    function Limit(t: TaskId, focused: bool): nat
      requires t in plan
    {
      if focused then 1 else plan[t].maxAttempts
    }

    /** The tasks of a stage that is about to run, in any order. */
    method RunAll(tasks: seq<TaskId>) returns (failed: bool, paused: bool)
      requires Valid() && store.AllAccounted() && forall t :: t in tasks ==> t in plan && DependenciesDone(t)
      modifies this`status, this`branches, store
      ensures Valid() && store.AllAccounted()
      ensures forall o :: o in plan && o !in tasks ==> status[o] == old(status)[o]
      ensures forall o :: o in plan ==> (status[o].DoneTask? <==> old(status)[o].DoneTask?)
      ensures !failed && !paused ==> forall t :: t in tasks ==> status[t].DoneTask? || status[t].VerifiedTask?
    {
      hide StateStore.AllAccounted;
      failed, paused := false, false;
      var i := 0;
      while i < |tasks|
        invariant i <= |tasks| && Valid() && store.AllAccounted()
        invariant forall o :: o in plan && o !in tasks ==> status[o] == old(status)[o]
        invariant forall o :: o in plan ==> (status[o].DoneTask? <==> old(status)[o].DoneTask?)
        invariant !failed && !paused ==> forall k :: 0 <= k < i ==> status[tasks[k]].DoneTask? || status[tasks[k]].VerifiedTask?
      {
        assert tasks[i] in tasks;
        var outcome := RunReady(tasks[i], old(status));
        failed := failed || outcome.TaskFailed?;
        paused := paused || outcome.QuotaPaused? || outcome.CapacityPaused?;
        i := i + 1;
      }
    }

    /** One task of the stage: whatever was done when the stage began is done, and nothing else. */
    method RunReady(t: TaskId, ghost before: map<TaskId, Status>) returns (outcome: TaskOutcome)
      requires Valid() && store.AllAccounted() && t in plan && before.Keys == plan.Keys
      requires forall d :: d in plan[t].dependsOn ==> d in plan && before[d].DoneTask?
      requires forall o :: o in plan ==> (status[o].DoneTask? <==> before[o].DoneTask?)
      modifies this`status, this`branches, store
      ensures Valid() && store.AllAccounted()
      ensures forall o :: o in plan && o != t ==> status[o] == old(status)[o]
      ensures forall o :: o in plan ==> (status[o].DoneTask? <==> before[o].DoneTask?)
      ensures outcome.TaskOk? ==> status[t].DoneTask? || status[t].VerifiedTask?
    {
      hide StateStore.AllAccounted;
      StillReady(before, t);
      outcome := RunTask(t, false);
    }

    lemma StillReady(before: map<TaskId, Status>, t: TaskId)
      requires Valid() && before.Keys == plan.Keys && t in plan
      requires forall d :: d in plan[t].dependsOn ==> d in plan && before[d].DoneTask?
      requires forall o :: o in plan ==> (status[o].DoneTask? <==> before[o].DoneTask?)
      ensures DependenciesDone(t)
    {
    }

    // ---- The barrier ----

    /** Merges in order; the first task that is not verified, has no branch or does not merge stops it. */
    method MergeAll(tasks: seq<TaskId>) returns (ok: bool)
      requires status.Keys == plan.Keys && forall t :: t in tasks ==> t in plan
      modifies this`head
      ensures ok ==> head == old(head) + tasks
      ensures ok ==> forall t :: t in tasks ==> status[t].VerifiedTask? && t in branches
    {
      var i := 0;
      while i < |tasks|
        invariant i <= |tasks| && head == old(head) + tasks[..i]
        invariant forall k :: 0 <= k < i ==> status[tasks[k]].VerifiedTask? && tasks[k] in branches
      {
        if !status[tasks[i]].VerifiedTask? || tasks[i] !in branches { return false; }
        var merged := MergeBranch(tasks[i]);
        if !merged { return false; }
        assert tasks[..i + 1] == tasks[..i] + [tasks[i]];
        i := i + 1;
      }
      assert tasks[..i] == tasks;
      return true;
    }

    method MarkDone(tasks: seq<TaskId>)
      requires Valid() && forall t :: t in tasks ==> t in plan && status[t].VerifiedTask?
      modifies this`status
      ensures Valid()
      ensures forall t :: t in tasks ==> status[t].DoneTask?
      ensures forall o :: o in plan && o !in tasks ==> status[o] == old(status)[o]
    {
      var i := 0;
      while i < |tasks|
        invariant i <= |tasks| && Valid()
        invariant forall k :: 0 <= k < i ==> status[tasks[k]].DoneTask?
        invariant forall k :: i <= k < |tasks| ==> status[tasks[k]].VerifiedTask? || status[tasks[k]].DoneTask?
        invariant forall o :: o in plan && o !in tasks ==> status[o] == old(status)[o]
      {
        SetStatus(tasks[i], DoneTask);
        i := i + 1;
      }
    }

    /**
     * The stage barrier. Either all the tasks are merged, in order, and all of them are done; or no
     * status has changed and the head has been rolled back to the checkpoint, unless the rollback
     * itself failed, which is reported.
     */
    method IntegrateStage(tasks: seq<TaskId>) returns (ok: bool, rolledBack: bool)
      requires Valid() && forall t :: t in tasks ==> t in plan
      modifies this`status, this`head, this`clean
      ensures Valid()
      ensures ok ==> head == old(head) + tasks && forall t :: t in tasks ==> status[t].DoneTask?
      ensures ok ==> forall o :: o in plan && o !in tasks ==> status[o] == old(status)[o]
      ensures !ok ==> status == old(status)
      ensures !ok && rolledBack ==> head == old(head) && clean
    {
      var checkpoint := head;
      var merged := MergeAll(tasks);
      if merged {
        var verified := VerifyStage();
        if verified && clean {
          MarkDone(tasks);
          return true, false;
        }
      }
      rolledBack := RollbackIntegration(checkpoint);
      return false, rolledBack;
    }

    // ---- Entry points ----

    function StageTasks(sprint: string, stage: nat): (r: set<TaskId>)
      ensures forall t :: t in r <==> t in plan && plan[t].sprint == sprint && plan[t].stage == stage
    {
      set t | t in plan && plan[t].sprint == sprint && plan[t].stage == stage
    }

    method Listed(tasks: set<TaskId>) returns (list: seq<TaskId>)
      ensures forall t :: t in list <==> t in tasks
      ensures Distinct(list)
    {
      list := [];
      var left := tasks;
      while left != {}
        invariant left <= tasks && Distinct(list)
        invariant forall t :: t in list <==> t in tasks && t !in left
        decreases |left|
      {
        var t :| t in left;
        list := list + [t];
        left := left - {t};
      }
    }

    /** The stages before this one are finished. */
    ghost predicate EarlierDone(sprint: string, stage: nat)
      requires status.Keys == plan.Keys
      reads this
    {
      forall t :: t in plan && plan[t].sprint == sprint && plan[t].stage < stage ==> status[t].DoneTask?
    }

    /** When a stage is reached, every dependency of its tasks inside the sprint is done. */
    lemma SprintDependenciesDone(sprint: string, stage: nat, t: TaskId, d: TaskId)
      requires Valid() && EarlierDone(sprint, stage)
      requires t in plan && plan[t].sprint == sprint && plan[t].stage == stage
      requires d in plan[t].dependsOn && plan[d].sprint == sprint
      ensures status[d].DoneTask?
    {
    }

    /** One stage: nothing to do, refused, failed, paused, or run and integrated. */
    method RunStage(sprint: string, stage: nat) returns (stopped: Option<SprintOutcome>)
      requires Valid() && store.AllAccounted() && EarlierDone(sprint, stage)
      modifies this`status, this`branches, store, this`head, this`clean
      ensures Valid() && store.AllAccounted() && EarlierDone(sprint, stage)
      ensures forall t :: t in plan && old(status)[t].DoneTask? ==> status[t].DoneTask?
      ensures stopped.None? ==> forall t :: t in StageTasks(sprint, stage) ==> status[t].DoneTask?
      ensures stopped.Some? ==>
                && stopped != Some(SprintCompleted)
                && (forall t :: t in plan ==> (status[t].DoneTask? <==> old(status)[t].DoneTask?))
                && (stopped.value.BarrierFailed? && stopped.value.rolledBack ==> head == old(head))
                && (!stopped.value.BarrierFailed? ==> head == old(head))
      ensures stopped.Some? && stopped.value.NotReady? ==>
                && stopped.value.stage == stage
                && exists t, d :: t in StageTasks(sprint, stage) && d in plan[t].dependsOn
                               && plan[d].sprint != sprint && !status[d].DoneTask?
    {
      hide StateStore.AllAccounted;
      var unfinished := set t | t in StageTasks(sprint, stage) && !status[t].DoneTask?;
      assert forall t :: t in StageTasks(sprint, stage) && !status[t].DoneTask? ==> t in unfinished;
      if unfinished == {} { return None; }
      var tasks := Listed(unfinished);
      var safe := AssertParallelSafe(plan, tasks);
      if !safe { return Some(UnsafeStage(stage)); }
      if t :| t in unfinished && !DependenciesDone(t) {
        var d :| d in plan[t].dependsOn && !status[d].DoneTask?;
        if plan[d].sprint == sprint { SprintDependenciesDone(sprint, stage, t, d); }
        return Some(NotReady(stage));
      }
      if !clean { return Some(Dirty); }
      var failed, paused := RunAll(tasks);
      if failed { return Some(TasksFailed); }
      if paused { return Some(SprintPaused); }
      var ok, rolledBack := IntegrateStage(tasks);
      if !ok { return Some(BarrierFailed(rolledBack)); }
      return None;
    }

    /**
     * Runs the stages of a sprint in order. A stage is refused for a dependency only if that lies in
     * another sprint; a completed sprint has all its tasks done.
     */
    method RunSprint(sprint: string) returns (outcome: SprintOutcome)
      requires Valid() && store.AllAccounted()
      modifies this`status, this`branches, store, this`head, this`clean
      ensures Valid() && store.AllAccounted()
      ensures forall t :: t in plan && old(status)[t].DoneTask? ==> status[t].DoneTask?
      ensures outcome.SprintCompleted? ==> forall t :: t in plan && plan[t].sprint == sprint ==> status[t].DoneTask?
      ensures outcome.NotReady? ==>
                exists t, d :: t in StageTasks(sprint, outcome.stage) && d in plan[t].dependsOn
                               && plan[d].sprint != sprint && !status[d].DoneTask?
    {
      hide StateStore.AllAccounted, Valid, StagesDone, Increasing;
      assert status.Keys == plan.Keys by { KnownStatuses(); }
      var stages := SortedSeq(set t | t in plan && plan[t].sprint == sprint :: plan[t].stage);
      var i := 0;
      assert StagesDone(plan, status, sprint, []) by { NoStages(sprint); }
      while i < |stages|
        invariant i <= |stages| && Valid() && store.AllAccounted() && status.Keys == plan.Keys
        invariant StagesDone(plan, status, sprint, stages[..i])
        invariant forall t :: t in plan && old(status)[t].DoneTask? ==> status[t].DoneTask?
      {
        ghost var before := status;
        EarlierStages(sprint, stages, i);
        var stopped := RunStage(sprint, stages[i]);
        KnownStatuses();
        if stopped.Some? {
          return stopped.value;
        }
        NextStageDone(plan, before, status, sprint, stages, i);
        i := i + 1;
      }
      assert stages[..i] == stages;
      SprintDone(sprint, stages);
      return SprintCompleted;
    }

    lemma KnownStatuses()
      requires Valid()
      ensures status.Keys == plan.Keys
    {
    }

    lemma NoStages(sprint: string)
      requires status.Keys == plan.Keys
      ensures StagesDone(plan, status, sprint, [])
    {
    }

    lemma SprintDone(sprint: string, stages: seq<nat>)
      requires status.Keys == plan.Keys && StagesDone(plan, status, sprint, stages)
      requires forall t :: t in plan && plan[t].sprint == sprint ==> plan[t].stage in stages
      ensures forall t :: t in plan && plan[t].sprint == sprint ==> status[t].DoneTask?
    {
    }

    lemma EarlierStages(sprint: string, stages: seq<nat>, i: nat)
      requires status.Keys == plan.Keys && Increasing(stages) && i < |stages|
      requires forall t :: t in plan && plan[t].sprint == sprint ==> plan[t].stage in stages
      requires StagesDone(plan, status, sprint, stages[..i])
      ensures EarlierDone(sprint, stages[i])
    {
      forall t | t in plan && plan[t].sprint == sprint && plan[t].stage < stages[i] ensures status[t].DoneTask? {
        var k :| 0 <= k < |stages| && stages[k] == plan[t].stage;
        assert k < i;
        assert stages[..i][k] == plan[t].stage;
      }
    }

    /** Runs the barrier of a stage again for its verified tasks. */
    method RerunStageBarrier(sprint: string, stage: nat) returns (ok: bool, rolledBack: bool)
      requires Valid()
      modifies this`status, this`head, this`clean
      ensures Valid()
      ensures forall t :: t in plan && old(status)[t].DoneTask? ==> status[t].DoneTask?
      ensures ok ==> forall t :: t in StageTasks(sprint, stage) ==> status[t].DoneTask?
      ensures !ok ==> status == old(status)
      ensures !ok && rolledBack ==> head == old(head)
    {
      var tasks := StageTasks(sprint, stage);
      if tasks == {} || exists t :: t in tasks && !status[t].VerifiedTask? && !status[t].DoneTask? {
        return false, true;
      }
      var pending := set t | t in tasks && !status[t].DoneTask?;
      assert forall t :: t in tasks && !status[t].DoneTask? ==> t in pending;
      if pending == {} { return true, true; }
      if !clean { return false, true; }
      var list := Listed(pending);
      ok, rolledBack := IntegrateStage(list);
    }

    /**
     * A focused run of one task: refused while a dependency is not done, and for a done task with a
     * fresh budget, which forgets what its earlier calls amounted to.
     */
    method RunFocused(t: TaskId, modelGiven: bool, freshBudget: bool) returns (outcome: Option<TaskOutcome>)
      requires Valid() && store.AllAccounted() && t in plan
      modifies this`status, this`branches, store
      ensures Valid() && store.AllAccounted()
      ensures forall o :: o in plan && o != t ==> status[o] == old(status)[o]
      ensures forall o :: o != t ==> store.LedgerOf(o) == old(store.LedgerOf(o))
      ensures forall o :: o in plan ==> (status[o].DoneTask? <==> old(status)[o].DoneTask?)
      ensures outcome.None? <==> (exists d :: d in plan[t].dependsOn && !old(status)[d].DoneTask?)
                                 || (freshBudget && old(status)[t].DoneTask?)
      ensures store.LedgerOf(t).attempt
              <= Larger(if freshBudget && outcome.Some? then 0 else old(store.LedgerOf(t)).attempt, Limit(t, modelGiven))
    {
      hide StateStore.AllAccounted;
      if !DependenciesDone(t) { return None; }
      if freshBudget {
        if status[t].DoneTask? { return None; }
        store.Forget(t);
        SetStatus(t, RetryTask);
      }
      var result := RunTask(t, modelGiven);
      return Some(result);
    }
  }
}
