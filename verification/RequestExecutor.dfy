/**
 * Logical request calls over a limiter with counted slots: a job holds its slot until its operation
 * settles, while a timeout or an abort by the caller settles only the outcome the caller waits for.
 */
module RequestExecutor {
  import opened Prelude

  datatype Limits = Limits(concurrency: nat, maxRetries: nat)
  {
    predicate Ok() { 0 < concurrency }
  }

  datatype Outcome = Pending | Resolved | Rejected(retryable: bool)

  datatype JobPhase = Waiting | Running | Settled

  /** One attempt as a limiter job, of the logical call `call`. */
  datatype Job = Job(call: nat, phase: JobPhase, outcome: Outcome)

  datatype CallPhase = Ready | Awaiting(job: nat) | Sleeping | Done

  /** A logical call: which attempt it is at, the requests it has started, whether its signal is aborted. */
  datatype Call = Call(phase: CallPhase, attempt: nat, requests: nat, aborted: bool)

  datatype State = State(calls: map<nat, Call>, jobs: map<nat, Job>, totalRequests: nat, totalRetries: nat)

  const IDLE := State(map[], map[], 0, 0)

  function RunningJobs(s: State): set<nat> {
    set j | j in s.jobs && s.jobs[j].phase.Running?
  }

  datatype Event =
    | Begin(call: nat)
    | Schedule(call: nat, job: nat)
    | Start(job: nat)
    | Drop(job: nat)
    | Timeout(job: nat)
    | Abort(call: nat)
    | Settle(job: nat, result: Outcome)
    | Observe(call: nat)
    | Wake(call: nat)

  // ---- Steps ----

  function Retries(requests: nat): nat { if requests == 0 then 0 else requests - 1 }

  /** The call ends; its counts go into the totals. */
  function Finished(s: State, id: nat): State
    requires id in s.calls
  {
    var call := s.calls[id];
    s.(calls := s.calls[id := call.(phase := Done)],
       totalRequests := s.totalRequests + call.requests,
       totalRetries := s.totalRetries + Retries(call.requests))
  }

  predicate Possible(l: Limits, s: State, e: Event) {
    match e
    case Begin(id) => id !in s.calls
    case Schedule(id, j) => id in s.calls && s.calls[id].phase.Ready? && !s.calls[id].aborted && j !in s.jobs
    case Start(j) =>
      && j in s.jobs && s.jobs[j].phase.Waiting? && s.jobs[j].call in s.calls
      && |RunningJobs(s)| < l.concurrency
    case Drop(j) => j in s.jobs && s.jobs[j].phase.Waiting?
    case Timeout(j) => j in s.jobs && s.jobs[j].phase.Running? && s.jobs[j].outcome.Pending?
    case Abort(id) => id in s.calls && !s.calls[id].aborted
    case Settle(j, result) => j in s.jobs && s.jobs[j].phase.Running? && !result.Pending?
    case Observe(id) =>
      && id in s.calls
      && ((s.calls[id].phase.Ready? && s.calls[id].aborted)
          || (s.calls[id].phase.Awaiting? && s.calls[id].phase.job in s.jobs
              && (s.calls[id].aborted || !s.jobs[s.calls[id].phase.job].outcome.Pending?)))
    case Wake(id) => id in s.calls && s.calls[id].phase.Sleeping?
  }

  /** Outcomes settle once; a later settlement changes nothing. */
  function SettledOutcome(outcome: Outcome, result: Outcome): Outcome {
    if outcome.Pending? then result else outcome
  }

  const ABORTED := Rejected(false)
  const TIMED_OUT := Rejected(true)
  const DROPPED := Rejected(false)

  function Next(l: Limits, s: State, e: Event): State
    requires Possible(l, s, e)
  {
    match e
    case Begin(id) => s.(calls := s.calls[id := Call(Ready, 0, 0, false)])
    case Schedule(id, j) =>
      s.(calls := s.calls[id := s.calls[id].(phase := Awaiting(j))], jobs := s.jobs[j := Job(id, Waiting, Pending)])
    case Start(j) =>
      var job := s.jobs[j];
      var call := s.calls[job.call];
      if call.aborted then s.(jobs := s.jobs[j := job.(phase := Settled, outcome := SettledOutcome(job.outcome, ABORTED))])
      else
        s.(jobs := s.jobs[j := job.(phase := Running)],
           calls := s.calls[job.call := call.(requests := call.requests + 1)])
    case Drop(j) =>
      s.(jobs := s.jobs[j := s.jobs[j].(phase := Settled, outcome := SettledOutcome(s.jobs[j].outcome, DROPPED))])
    case Timeout(j) => s.(jobs := s.jobs[j := s.jobs[j].(outcome := TIMED_OUT)])
    case Abort(id) =>
      s.(calls := s.calls[id := s.calls[id].(aborted := true)],
         jobs := map j | j in s.jobs ::
           if s.jobs[j].call == id && s.jobs[j].phase.Running?
           then s.jobs[j].(outcome := SettledOutcome(s.jobs[j].outcome, ABORTED)) else s.jobs[j])
    case Settle(j, result) =>
      s.(jobs := s.jobs[j := s.jobs[j].(phase := Settled, outcome := SettledOutcome(s.jobs[j].outcome, result))])
    case Observe(id) =>
      var call := s.calls[id];
      if call.phase.Ready? || call.aborted then Finished(s, id)
      else
        (match s.jobs[call.phase.job].outcome
         case Pending => s
         case Resolved => Finished(s, id)
         case Rejected(retryable) =>
           if l.maxRetries <= call.attempt || !retryable then Finished(s, id)
           else s.(calls := s.calls[id := call.(phase := Sleeping)]))
    case Wake(id) =>
      var call := s.calls[id];
      if call.aborted then Finished(s, id)
      else s.(calls := s.calls[id := call.(phase := Ready, attempt := call.attempt + 1)])
  }

  function After(l: Limits, s: State, events: seq<Event>): Option<State> {
    if events == [] then Some(s)
    else
      match After(l, s, events[..|events| - 1])
      case None => None
      case Some(before) =>
        if Possible(l, before, events[|events| - 1]) then Some(Next(l, before, events[|events| - 1])) else None
  }

  ghost predicate Reachable(l: Limits, s: State) {
    exists events :: After(l, IDLE, events) == Some(s)
  }

  // ---- Invariant ----

  /** A job that waits belongs to the attempt its call is waiting for, or to a call whose signal is aborted. */
  ghost predicate WaitingOwned(s: State) {
    forall j :: j in s.jobs && s.jobs[j].phase.Waiting? ==>
      && s.jobs[j].call in s.calls
      && s.jobs[j].outcome.Pending?
      && (s.calls[s.jobs[j].call].aborted || s.calls[s.jobs[j].call].phase == Awaiting(j))
  }

  /** The attempt a call waits for exists and is its own. */
  ghost predicate AwaitedOwned(s: State) {
    forall id :: id in s.calls && s.calls[id].phase.Awaiting? ==>
      s.calls[id].phase.job in s.jobs && s.jobs[s.calls[id].phase.job].call == id
  }

  /** Requests started so far: one for each attempt behind, and for the current one at most one. */
  ghost predicate CallCounts(l: Limits, s: State) {
    forall id :: id in s.calls ==>
      var call := s.calls[id];
      && call.attempt <= l.maxRetries
      && (call.phase.Sleeping? ==> call.attempt < l.maxRetries)
      && call.requests <= call.attempt + 1
      && (call.phase.Ready? ==> call.requests <= call.attempt)
      && (call.phase.Awaiting? && call.phase.job in s.jobs && s.jobs[call.phase.job].phase.Waiting? ==>
            call.requests <= call.attempt)
  }

  function StartedAndDone(s: State): set<nat> {
    set id | id in s.calls && s.calls[id].phase.Done? && 0 < s.calls[id].requests
  }

  ghost predicate Inv(l: Limits, s: State) {
    && |RunningJobs(s)| <= l.concurrency
    && WaitingOwned(s)
    && AwaitedOwned(s)
    && CallCounts(l, s)
    && s.totalRequests - s.totalRetries == |StartedAndDone(s)|
  }

  lemma CallsSame(s: State, after: State)
    requires forall id :: id in after.calls && after.calls[id].phase.Done? && 0 < after.calls[id].requests
                          <==> id in s.calls && s.calls[id].phase.Done? && 0 < s.calls[id].requests
    ensures StartedAndDone(after) == StartedAndDone(s)
  {
  }

  lemma FinishedCounts(s: State, id: nat)
    requires id in s.calls && !s.calls[id].phase.Done?
    requires s.totalRequests - s.totalRetries == |StartedAndDone(s)|
    ensures var after := Finished(s, id); after.totalRequests - after.totalRetries == |StartedAndDone(after)|
  {
    var after := Finished(s, id);
    if 0 < s.calls[id].requests {
      assert StartedAndDone(after) == StartedAndDone(s) + {id};
    } else {
      assert StartedAndDone(after) == StartedAndDone(s);
    }
  }

  lemma FinishedKeeps(l: Limits, s: State, id: nat)
    requires Inv(l, s) && id in s.calls && !s.calls[id].phase.Done?
    requires s.calls[id].aborted || !(s.calls[id].phase.Awaiting? && s.jobs[s.calls[id].phase.job].phase.Waiting?)
    ensures Inv(l, Finished(s, id))
  {
    var after := Finished(s, id);
    FinishedCounts(s, id);
    assert RunningJobs(after) == RunningJobs(s);
    forall j | j in after.jobs && after.jobs[j].phase.Waiting?
      ensures after.calls[after.jobs[j].call].aborted || after.calls[after.jobs[j].call].phase == Awaiting(j)
    {
      assert s.calls[s.jobs[j].call].aborted || s.calls[s.jobs[j].call].phase == Awaiting(j);
    }
  }

  lemma StartKeepsOwners(l: Limits, s: State, j: nat)
    requires WaitingOwned(s) && AwaitedOwned(s) && CallCounts(l, s) && Possible(l, s, Start(j))
    ensures var after := Next(l, s, Start(j)); WaitingOwned(after) && AwaitedOwned(after) && CallCounts(l, after)
  {
    hide RunningJobs, StartedAndDone;
  }

  lemma StartKeepsCounts(l: Limits, s: State, j: nat)
    requires |RunningJobs(s)| <= l.concurrency && WaitingOwned(s) && Possible(l, s, Start(j))
    requires s.totalRequests - s.totalRetries == |StartedAndDone(s)|
    ensures var after := Next(l, s, Start(j));
            && |RunningJobs(after)| <= l.concurrency
            && after.totalRequests - after.totalRetries == |StartedAndDone(after)|
  {
    var after := Next(l, s, Start(j));
    CallsSame(s, after);
    if s.calls[s.jobs[j].call].aborted {
      assert RunningJobs(after) == RunningJobs(s);
    } else {
      assert RunningJobs(after) == RunningJobs(s) + {j};
    }
  }

  lemma StartKeeps(l: Limits, s: State, j: nat)
    requires Inv(l, s) && Possible(l, s, Start(j))
    ensures Inv(l, Next(l, s, Start(j)))
  {
    hide Next, WaitingOwned, AwaitedOwned, CallCounts, RunningJobs, StartedAndDone, Possible;
    StartKeepsOwners(l, s, j);
    StartKeepsCounts(l, s, j);
  }

  lemma JobEventKeeps(l: Limits, s: State, e: Event)
    requires Inv(l, s) && Possible(l, s, e) && (e.Drop? || e.Timeout? || e.Settle?)
    ensures Inv(l, Next(l, s, e))
  {
    var after := Next(l, s, e);
    assert RunningJobs(after) == if e.Settle? then RunningJobs(s) - {e.job} else RunningJobs(s);
    CallsSame(s, after);
  }

  lemma AbortKeeps(l: Limits, s: State, id: nat)
    requires Inv(l, s) && Possible(l, s, Abort(id))
    ensures Inv(l, Next(l, s, Abort(id)))
  {
    var after := Next(l, s, Abort(id));
    assert RunningJobs(after) == RunningJobs(s);
    CallsSame(s, after);
  }

  lemma BeginKeeps(l: Limits, s: State, e: Event)
    requires Inv(l, s) && Possible(l, s, e) && (e.Begin? || e.Schedule?)
    ensures Inv(l, Next(l, s, e))
  {
    var after := Next(l, s, e);
    assert RunningJobs(after) == RunningJobs(s);
    CallsSame(s, after);
  }

  lemma WaitEndsKeeps(l: Limits, s: State, e: Event)
    requires Inv(l, s) && Possible(l, s, e) && (e.Observe? || e.Wake?)
    ensures Inv(l, Next(l, s, e))
  {
    var after := Next(l, s, e);
    if after == Finished(s, e.call) {
      hide Next;
      FinishedKeeps(l, s, e.call);
    } else {
      hide Finished;
      assert RunningJobs(after) == RunningJobs(s);
      CallsSame(s, after);
    }
  }

  lemma NextKeeps(l: Limits, s: State, e: Event)
    requires Inv(l, s) && Possible(l, s, e)
    ensures Inv(l, Next(l, s, e))
  {
    hide Inv, Next;
    match e
    case Start(j) => StartKeeps(l, s, j);
    case Abort(id) => AbortKeeps(l, s, id);
    case Drop(_) => JobEventKeeps(l, s, e);
    case Timeout(_) => JobEventKeeps(l, s, e);
    case Settle(_, _) => JobEventKeeps(l, s, e);
    case Begin(_) => BeginKeeps(l, s, e);
    case Schedule(_, _) => BeginKeeps(l, s, e);
    case Observe(_) => WaitEndsKeeps(l, s, e);
    case Wake(_) => WaitEndsKeeps(l, s, e);
  }

  lemma {:induction false} AfterKeeps(l: Limits, events: seq<Event>)
    ensures After(l, IDLE, events).Some? ==> Inv(l, After(l, IDLE, events).value)
    decreases |events|
  {
    hide Inv, Next, Possible;
    if events == [] {
      IdleInv(l);
    } else {
      AfterKeeps(l, events[..|events| - 1]);
      var before := After(l, IDLE, events[..|events| - 1]);
      var e := events[|events| - 1];
      if before.Some? && Possible(l, before.value, e) { NextKeeps(l, before.value, e); }
    }
  }

  lemma IdleInv(l: Limits)
    ensures Inv(l, IDLE)
  {
    assert RunningJobs(IDLE) == {} && StartedAndDone(IDLE) == {};
  }

  lemma ReachableInv(l: Limits, s: State)
    requires Reachable(l, s)
    ensures Inv(l, s)
  {
    hide Inv, After;
    var events :| After(l, IDLE, events) == Some(s);
    AfterKeeps(l, events);
  }

  // ---- Theorems ----

  /** Operations that have not settled never exceed the concurrency, also after timeouts and aborts. */
  lemma SlotsBounded(l: Limits, s: State)
    requires Reachable(l, s)
    ensures |set j | j in s.jobs && s.jobs[j].phase.Running?| <= l.concurrency
  {
    ReachableInv(l, s);
    assert RunningJobs(s) == set j | j in s.jobs && s.jobs[j].phase.Running?;
  }

  /** A logical call starts at most one request more than the retries allowed. */
  lemma RequestsBounded(l: Limits, s: State, id: nat)
    requires Reachable(l, s) && id in s.calls
    ensures s.calls[id].requests <= l.maxRetries + 1
  {
    ReachableInv(l, s);
  }

  /** Total requests less total retries is the number of finished calls that started a request. */
  lemma AccountsBalance(l: Limits, s: State)
    requires Reachable(l, s)
    ensures s.totalRequests - s.totalRetries
            == |set id | id in s.calls && s.calls[id].phase.Done? && 0 < s.calls[id].requests|
  {
    ReachableInv(l, s);
    assert StartedAndDone(s) == set id | id in s.calls && s.calls[id].phase.Done? && 0 < s.calls[id].requests;
  }

  /** A finished call starts no further request, so what it added to the totals stays right. */
  lemma DoneStaysDone(l: Limits, s: State, e: Event, id: nat)
    requires Reachable(l, s) && Possible(l, s, e)
    requires id in s.calls && s.calls[id].phase.Done?
    ensures var after := Next(l, s, e);
            id in after.calls && after.calls[id].phase.Done? && after.calls[id].requests == s.calls[id].requests
  {
    ReachableInv(l, s);
  }

  // ---- Overlap of a request with its own retry ----

  /** Two operations of one logical call are unsettled at once. */
  ghost predicate Overlapping(s: State) {
    exists i, j :: i in s.jobs && j in s.jobs && i != j
                   && s.jobs[i].phase.Running? && s.jobs[j].phase.Running? && s.jobs[i].call == s.jobs[j].call
  }

  lemma OneEventMore(l: Limits, events: seq<Event>, s: State, e: Event)
    requires After(l, IDLE, events) == Some(s) && Possible(l, s, e)
    ensures After(l, IDLE, events + [e]) == Some(Next(l, s, e))
  {
    hide Possible, Next;
    assert (events + [e])[..|events|] == events;
  }

  /** One call whose first attempt has timed out while its operation still runs. */
  lemma TimedOutCall(l: Limits) returns (events: seq<Event>, s: State)
    requires 1 <= l.concurrency
    ensures After(l, IDLE, events) == Some(s)
    ensures s == State(map[0 := Call(Awaiting(0), 0, 1, false)], map[0 := Job(0, Running, TIMED_OUT)], 0, 0)
  {
    events, s := [], IDLE;
    OneEventMore(l, events, s, Begin(0));
    events, s := events + [Begin(0)], Next(l, s, Begin(0));
    OneEventMore(l, events, s, Schedule(0, 0));
    events, s := events + [Schedule(0, 0)], Next(l, s, Schedule(0, 0));
    assert RunningJobs(s) == {};
    OneEventMore(l, events, s, Start(0));
    events, s := events + [Start(0)], Next(l, s, Start(0));
    OneEventMore(l, events, s, Timeout(0));
    events, s := events + [Timeout(0)], Next(l, s, Timeout(0));
  }

  /** With a second slot and a retry, a timed-out request still runs when its retry starts. */
  lemma OverlapHappens(l: Limits) returns (s: State)
    requires 2 <= l.concurrency && 1 <= l.maxRetries
    ensures Reachable(l, s) && Overlapping(s)
  {
    var events: seq<Event>;
    events, s := TimedOutCall(l);
    OneEventMore(l, events, s, Observe(0));
    events, s := events + [Observe(0)], Next(l, s, Observe(0));
    OneEventMore(l, events, s, Wake(0));
    events, s := events + [Wake(0)], Next(l, s, Wake(0));
    OneEventMore(l, events, s, Schedule(0, 1));
    events, s := events + [Schedule(0, 1)], Next(l, s, Schedule(0, 1));
    assert RunningJobs(s) == {0};
    OneEventMore(l, events, s, Start(1));
    events, s := events + [Start(1)], Next(l, s, Start(1));
    assert s.jobs[0].call == s.jobs[1].call;
  }

  lemma OneSlotNoOverlap(l: Limits, s: State)
    requires Reachable(l, s) && l.concurrency <= 1
    ensures !Overlapping(s)
  {
    ReachableInv(l, s);
    if Overlapping(s) {
      var i, j :| i in s.jobs && j in s.jobs && i != j && s.jobs[i].phase.Running? && s.jobs[j].phase.Running?;
      assert {i, j} <= RunningJobs(s);
      TwoAtLeast(RunningJobs(s), i, j);
      assert false;
    }
  }

  lemma TwoAtLeast(s: set<nat>, i: nat, j: nat)
    requires i in s && j in s && i != j
    ensures 2 <= |s|
  {
    assert j in s - {i};
    assert |s - {i}| == |s| - 1;
  }

  /** A call without retries has at most one request. */
  lemma NoRetryNoOverlap(l: Limits, s: State)
    requires Reachable(l, s) && l.maxRetries == 0
    ensures !Overlapping(s)
  {
    var events :| After(l, IDLE, events) == Some(s);
    NoRetryOneJob(l, events);
  }

  /** Without retries no call has a second job. */
  lemma {:induction false} NoRetryOneJob(l: Limits, events: seq<Event>)
    requires l.maxRetries == 0
    ensures After(l, IDLE, events).Some? ==> OneJobEach(After(l, IDLE, events).value)
    decreases |events|
  {
    if events != [] {
      var e := events[|events| - 1];
      NoRetryOneJob(l, events[..|events| - 1]);
      AfterKeeps(l, events[..|events| - 1]);
      var before := After(l, IDLE, events[..|events| - 1]);
      if before.Some? && Possible(l, before.value, e) { OneJobKeeps(l, before.value, e); }
    }
  }

  ghost predicate OneJobEach(s: State) {
    && (forall i, j :: i in s.jobs && j in s.jobs && s.jobs[i].call == s.jobs[j].call ==> i == j)
    && (forall j :: j in s.jobs ==> s.jobs[j].call in s.calls && !s.calls[s.jobs[j].call].phase.Ready?)
  }

  lemma OneJobKeeps(l: Limits, s: State, e: Event)
    requires l.maxRetries == 0 && Inv(l, s) && OneJobEach(s) && Possible(l, s, e)
    ensures OneJobEach(Next(l, s, e))
  {
    hide RunningJobs, StartedAndDone;
  }

  /** A cancelled request can run concurrently with its own retry exactly when there are two slots and a retry. */
  lemma OverlapExactly(l: Limits)
    requires l.Ok()
    ensures (exists s :: Reachable(l, s) && Overlapping(s)) <==> 2 <= l.concurrency && 1 <= l.maxRetries
  {
    if 2 <= l.concurrency && 1 <= l.maxRetries {
      var s := OverlapHappens(l);
    } else {
      forall s | Reachable(l, s) ensures !Overlapping(s) {
        if l.concurrency <= 1 { OneSlotNoOverlap(l, s); } else { NoRetryNoOverlap(l, s); }
      }
    }
  }

  // ---- One logical call, as the caller runs it ----

  /** How one attempt ends for the caller: a value, or an error that may be retried; a dropped job starts no request. */
  datatype Attempt = Attempt(started: bool, value: bool, retryable: bool, aborted: bool)

  class SocrataRequestExecutor {
    const maxRetries: nat
    var totalRequestCalls: nat
    var totalRetryCalls: nat

    constructor (maxRetries: nat)
      ensures this.maxRetries == maxRetries && totalRequestCalls == 0 && totalRetryCalls == 0
    {
      this.maxRetries := maxRetries;
      totalRequestCalls, totalRetryCalls := 0, 0;
    }

    /** One attempt through the limiter; only an attempt that started a request can return a value. */
    method RunAttempt() returns (attempt: Attempt)
      ensures attempt.value ==> attempt.started
    {
      attempt := *;
      if attempt.value && !attempt.started { attempt := attempt.(value := false); }
    }

    /** The retry loop; whatever happens, the counts of this call go into the totals once. */
    method ExecuteWithAccounting() returns (ok: bool, requestCalls: nat)
      modifies this`totalRequestCalls, this`totalRetryCalls
      ensures requestCalls <= maxRetries + 1
      ensures ok ==> 0 < requestCalls
      ensures totalRequestCalls == old(totalRequestCalls) + requestCalls
      ensures totalRequestCalls - totalRetryCalls
              == old(totalRequestCalls - totalRetryCalls) + if requestCalls == 0 then 0 else 1
    {
      ok, requestCalls := false, 0;
      var attempt := 0;
      while attempt <= maxRetries
        invariant attempt <= maxRetries + 1 && requestCalls <= attempt && !ok
        invariant totalRequestCalls == old(totalRequestCalls) && totalRetryCalls == old(totalRetryCalls)
        decreases maxRetries + 1 - attempt
      {
        var ended := RunAttempt();
        if ended.started { requestCalls := requestCalls + 1; }
        if ended.value {
          ok := true;
          break;
        }
        if ended.aborted || maxRetries <= attempt || !ended.retryable {
          break;
        }
        attempt := attempt + 1;
      }
      totalRequestCalls := totalRequestCalls + requestCalls;
      totalRetryCalls := totalRetryCalls + Retries(requestCalls);
    }
  }
}
