/**
 * Retry budgets of a task: the attempt counter of the scheduler, the attempts charged to each
 * provider, and the pauses that must not use up either.
 */
module TaskBudget {
  import opened Prelude

  datatype Provider = Codex | Cursor | OtherProvider

  datatype AgentResult = AgentResult(ok: bool, quota: bool, capacity: bool, transient: bool, auth: bool, model: bool)

  const UNAVAILABLE := AgentResult(false, false, false, false, true, false)
  const INTEGRATION_ERROR := AgentResult(false, false, false, true, false, false)

  /** Provider settings; the two sequences matter by their lengths. */
  datatype Config = Config(codexEnabled: bool, cursorEnabled: bool, codexSequence: nat, retrySequence: nat,
                           priority: seq<Provider>)

  /** Counters of one task, and whether Codex has been switched off for its sprint. */
  datatype Ledger = Ledger(attempt: nat, codex: nat, cursor: nat, codexDisabled: bool)

  const FRESH := Ledger(0, 0, 0, false)

  /** What Codex does with a call: it may be missing, fail with an exception, or answer. */
  datatype CodexAnswer = NotAvailable | Raises | Answers(result: AgentResult)

  datatype Scenario = Scenario(codex: CodexAnswer, cursor: AgentResult)

  // ---- Provider choice and budget ----

  predicate CodexUsable(c: Config, l: Ledger) { c.codexEnabled && !l.codexDisabled }

  function FirstUsable(c: Config, l: Ledger, priority: seq<Provider>): Option<Provider> {
    if priority == [] then None
    else if priority[0].Codex? && CodexUsable(c, l) then Some(Codex)
    else if priority[0].Cursor? && c.cursorEnabled then Some(Cursor)
    else FirstUsable(c, l, priority[1..])
  }

  function Preferred(c: Config, l: Ledger): Option<Provider> {
    match FirstUsable(c, l, c.priority)
    case Some(p) => Some(p)
    case None => if CodexUsable(c, l) then Some(Codex) else if c.cursorEnabled then Some(Cursor) else None
  }

  function CursorBudget(c: Config): nat { if c.retrySequence < 1 then 1 else c.retrySequence }

  predicate HasBudget(c: Config, l: Ledger, focused: bool) {
    if focused then c.cursorEnabled && l.cursor < 1
    else
      match Preferred(c, l)
      case Some(Codex) => l.codex < c.codexSequence
      case Some(Cursor) => l.cursor < CursorBudget(c)
      case _ => false
  }

  // ---- One implementation call ----

  predicate ProviderUnavailable(r: AgentResult) { r.quota || r.auth || r.model }

  /** A pause hands the attempt back. */
  predicate Paused(r: AgentResult) { r.quota || r.capacity || r.transient }

  /** The result of a call, with who answered it. */
  datatype Answer = Answer(result: AgentResult, from: Option<Provider>)

  function CursorCall(c: Config, l: Ledger, s: Scenario): (Ledger, Answer) {
    if !c.cursorEnabled then (l, Answer(UNAVAILABLE, None))
    else
      (if !s.cursor.quota && !s.cursor.capacity then l.(cursor := l.cursor + 1) else l, Answer(s.cursor, Some(Cursor)))
  }

  /** Switching off Codex for the sprint and going on with Cursor, in the same call. */
  function Switch(c: Config, l: Ledger, s: Scenario, otherwise: AgentResult): (Ledger, Answer) {
    if !c.cursorEnabled then (l, Answer(otherwise, None)) else CursorCall(c, l.(codexDisabled := true), s)
  }

  function ImplementCall(c: Config, l: Ledger, focused: bool, s: Scenario): (Ledger, Answer) {
    if focused || Preferred(c, l) != Some(Codex) then CursorCall(c, l, s)
    else
      match s.codex
      case NotAvailable => Switch(c, l, s, UNAVAILABLE)
      case Raises => Switch(c, l, s, INTEGRATION_ERROR)
      case Answers(r) =>
        if c.codexSequence <= l.codex then CursorCall(c, l, s)
        else if ProviderUnavailable(r) then Switch(c, l, s, r)
        else if r.capacity || r.transient then (l, Answer(r, Some(Codex)))
        else (l.(codex := l.codex + 1), Answer(r, Some(Codex)))
  }

  /** One pass of the attempt loop: the attempt is counted first and handed back on a pause. */
  function Pass(c: Config, l: Ledger, focused: bool, s: Scenario): (Ledger, Answer) {
    var (after, answer) := ImplementCall(c, l.(attempt := l.attempt + 1), focused, s);
    (if Paused(answer.result) then after.(attempt := after.attempt - 1) else after, answer)
  }

  // ---- Runs of calls ----

  /**
   * What happens to a task: a call its loop makes, or would make, with what the providers do; and
   * Codex being switched off for the sprint by another task, or on again by the start of a new run.
   */
  datatype Event =
    | Call(focused: bool, limit: nat, scenario: Scenario)
    | SprintSets(codexDisabled: bool)

  predicate Made(c: Config, l: Ledger, call: Event) {
    call.Call? && l.attempt < call.limit && HasBudget(c, l, call.focused)
  }

  /** What the calls made so far amount to. */
  datatype Tally = Tally(ledger: Ledger, charged: nat, cursorTransients: nat, unanswered: nat)

  const NO_CALLS := Tally(FRESH, 0, 0, 0)

  /** Cursor is charged for a call that the scheduler treats as a pause. */
  predicate CursorTransient(answer: Answer) {
    answer.from == Some(Cursor) && answer.result.transient && !answer.result.quota && !answer.result.capacity
  }

  /** A call that counts as an attempt although no provider was charged for it. */
  predicate Unanswered(answer: Answer) { answer.from.None? && !Paused(answer.result) }

  function AddEvent(c: Config, t: Tally, event: Event): Tally {
    if event.SprintSets? then t.(ledger := t.ledger.(codexDisabled := event.codexDisabled))
    else if !Made(c, t.ledger, event) then t
    else
      var (ledger, answer) := Pass(c, t.ledger, event.focused, event.scenario);
      Tally(ledger,
            t.charged + if Paused(answer.result) then 0 else 1,
            t.cursorTransients + if CursorTransient(answer) then 1 else 0,
            t.unanswered + if Unanswered(answer) then 1 else 0)
  }

  function AddEvents(c: Config, events: seq<Event>): Tally {
    if events == [] then NO_CALLS else AddEvent(c, AddEvents(c, events[..|events| - 1]), events[|events| - 1])
  }

  ghost predicate Balanced(c: Config, t: Tally) {
    && t.ledger.attempt == t.charged
    && t.ledger.attempt + t.cursorTransients == t.ledger.codex + t.ledger.cursor + t.unanswered
    && (c.cursorEnabled ==> t.unanswered == 0)
  }

  /** A call charges one provider unless it is a pause or unanswered; a Cursor transient error is charged all the same. */
  lemma CallCharges(c: Config, l: Ledger, focused: bool, s: Scenario)
    ensures var (after, answer) := ImplementCall(c, l, focused, s);
            && after.attempt == l.attempt
            && after.codex + after.cursor == l.codex + l.cursor
                 + (if Paused(answer.result) || Unanswered(answer) then 0 else 1)
                 + (if CursorTransient(answer) then 1 else 0)
            && (c.cursorEnabled ==> !Unanswered(answer))
            && (Unanswered(answer) ==> !Paused(answer.result))
  {
    hide FirstUsable;
  }

  lemma AddEventBalances(c: Config, t: Tally, event: Event)
    requires Balanced(c, t)
    ensures Balanced(c, AddEvent(c, t, event))
    ensures AddEvent(c, t, event).ledger.attempt
            <= if event.Call? && t.ledger.attempt < event.limit then event.limit else t.ledger.attempt
  {
    hide ImplementCall, HasBudget, CursorTransient, Unanswered, Paused;
    if event.Call? {
      CallCharges(c, t.ledger.(attempt := t.ledger.attempt + 1), event.focused, event.scenario);
    }
  }

  /**
   * Over any sequence of calls, with pauses, resumes, provider switches inside a call and Codex
   * switched off or on in between: the attempt counter is the number of calls that were neither quota,
   * capacity nor transient, and, with Cursor transient errors and unanswered calls accounted for, the
   * sum of provider attempts.
   */
  lemma {:induction false} AttemptsBalance(c: Config, events: seq<Event>)
    ensures Balanced(c, AddEvents(c, events))
    decreases |events|
  {
    if events != [] {
      AttemptsBalance(c, events[..|events| - 1]);
      AddEventBalances(c, AddEvents(c, events[..|events| - 1]), events[|events| - 1]);
    }
  }

  /** The attempt counter never exceeds the largest limit it was given. */
  lemma {:induction false} AttemptsWithinLimit(c: Config, events: seq<Event>, limit: nat)
    requires forall i :: 0 <= i < |events| && events[i].Call? ==> events[i].limit <= limit
    ensures AddEvents(c, events).ledger.attempt <= limit
    decreases |events|
  {
    if events != [] {
      AttemptsWithinLimit(c, events[..|events| - 1], limit);
      AttemptsBalance(c, events[..|events| - 1]);
      AddEventBalances(c, AddEvents(c, events[..|events| - 1]), events[|events| - 1]);
    }
  }

  // ---- When the counter is the sum of the provider attempts ----

  /** The call ends at Cursor: asked for it, preferred, or switched to. */
  predicate ReachesCursor(c: Config, l: Ledger, call: Event)
    requires call.Call?
  {
    && c.cursorEnabled
    && (|| call.focused
        || Preferred(c, l) != Some(Codex)
        || !call.scenario.codex.Answers?
        || c.codexSequence <= l.codex
        || ProviderUnavailable(call.scenario.codex.result))
  }

  predicate OnlyTransient(r: AgentResult) { r.transient && !r.quota && !r.capacity }

  /** Event `i` is a call that is made, reaches Cursor and is answered by a transient error. */
  predicate ChargedPause(c: Config, events: seq<Event>, i: nat)
    requires i < |events|
  {
    var l := AddEvents(c, events[..i]).ledger;
    Made(c, l, events[i]) && ReachesCursor(c, l, events[i]) && OnlyTransient(events[i].scenario.cursor)
  }

  lemma CursorAnswers(c: Config, l: Ledger, call: Event)
    requires call.Call?
    ensures CursorTransient(Pass(c, l, call.focused, call.scenario).1)
            <==> ReachesCursor(c, l, call) && OnlyTransient(call.scenario.cursor)
  {
    hide Preferred, ImplementCall;
    SamePreference(c, l, l.attempt + 1);
    CallAnswers(c, l.(attempt := l.attempt + 1), call);
  }

  lemma CallAnswers(c: Config, l: Ledger, call: Event)
    requires call.Call?
    ensures CursorTransient(ImplementCall(c, l, call.focused, call.scenario).1)
            <==> ReachesCursor(c, l, call) && OnlyTransient(call.scenario.cursor)
  {
    hide Preferred, ProviderUnavailable;
    var s := call.scenario;
    if c.cursorEnabled && (call.focused || Preferred(c, l) != Some(Codex)) {
      assert ImplementCall(c, l, call.focused, s).1 == Answer(s.cursor, Some(Cursor));
    } else {
      match s.codex
      case NotAvailable =>
      case Raises =>
      case Answers(_) =>
    }
  }

  lemma SamePreference(c: Config, l: Ledger, attempt: nat)
    ensures Preferred(c, l.(attempt := attempt)) == Preferred(c, l)
  {
    SameChoice(c, l, attempt, c.priority);
  }

  lemma {:induction false} SameChoice(c: Config, l: Ledger, attempt: nat, priority: seq<Provider>)
    ensures FirstUsable(c, l.(attempt := attempt), priority) == FirstUsable(c, l, priority)
  {
    if priority != [] { SameChoice(c, l, attempt, priority[1..]); }
  }

  lemma {:induction false} TransientsAreCharged(c: Config, events: seq<Event>)
    ensures AddEvents(c, events).cursorTransients == 0
            <==> forall i :: 0 <= i < |events| ==> !ChargedPause(c, events, i)
    decreases |events|
  {
    hide Pass, ReachesCursor, OnlyTransient, HasBudget, CursorTransient, Unanswered, Paused;
    if events != [] {
      var rest, last := events[..|events| - 1], events[|events| - 1];
      TransientsAreCharged(c, rest);
      if last.Call? { CursorAnswers(c, AddEvents(c, rest).ledger, last); }
      assert events[..|rest|] == rest;
      assert AddEvents(c, events).cursorTransients
          == AddEvents(c, rest).cursorTransients + if ChargedPause(c, events, |rest|) then 1 else 0;
      forall i | 0 <= i < |rest| ensures ChargedPause(c, events, i) <==> ChargedPause(c, rest, i) {
        assert events[..i] == rest[..i];
      }
    }
  }

  /**
   * With Cursor enabled the counter is the sum of the provider attempts exactly when no call that
   * reaches Cursor is answered there by a transient error, without quota or capacity.
   */
  lemma SumExactly(c: Config, events: seq<Event>)
    requires c.cursorEnabled
    ensures var l := AddEvents(c, events).ledger;
            l.attempt == l.codex + l.cursor <==> forall i :: 0 <= i < |events| ==> !ChargedPause(c, events, i)
  {
    AttemptsBalance(c, events);
    TransientsAreCharged(c, events);
  }

  /** The Cursor runner as it stands reports no transient error, so there the sum always holds. */
  lemma SumAsItStands(c: Config, events: seq<Event>)
    requires c.cursorEnabled && forall i :: 0 <= i < |events| && events[i].Call? ==> !events[i].scenario.cursor.transient
    ensures var l := AddEvents(c, events).ledger; l.attempt == l.codex + l.cursor
  {
    SumExactly(c, events);
  }

  /** A runner that reported one would break it: one focused call, charged to Cursor and handed back. */
  lemma SumCanFail(c: Config, codex: CodexAnswer)
    requires c.cursorEnabled
    ensures var l := AddEvents(c, [Call(true, 1, Scenario(codex, INTEGRATION_ERROR))]).ledger;
            l.attempt == 0 && l.codex == 0 && l.cursor == 1
  {
    var call := Call(true, 1, Scenario(codex, INTEGRATION_ERROR));
    assert [call][..0] == [] && AddEvents(c, [call][..0]) == NO_CALLS;
    assert AddEvents(c, [call]) == AddEvent(c, NO_CALLS, call);
  }

  // ---- The scheduler's loop over one task ----

  datatype Status = PendingTask | RunningTask | RetryTask | VerifiedTask | DoneTask | BlockedTask | WaitingForQuota
                  | WaitingForCapacity

  datatype Phase = NoPhase | ImplementPhase | ReviewPhase

  datatype TaskOutcome = TaskOk | TaskFailed | QuotaPaused | CapacityPaused

  class TaskRun {
    const config: Config
    var status: Status
    var waitingPhase: Phase
    var attempt: nat
    var codexAttempts: nat
    var cursorAttempts: nat
    var codexDisabled: bool
    /** What the calls made amount to. */
    ghost var tally: Tally

    function Counters(): Ledger
      reads this
    {
      Ledger(attempt, codexAttempts, cursorAttempts, codexDisabled)
    }

    ghost predicate Valid()
      reads this
    {
      && Balanced(config, tally)
      && tally.ledger.attempt == attempt && tally.ledger.codex == codexAttempts && tally.ledger.cursor == cursorAttempts
    }

    constructor (c: Config)
      ensures Valid() && config == c && attempt == 0 && status.PendingTask?
    {
      config := c;
      status, waitingPhase := PendingTask, NoPhase;
      attempt, codexAttempts, cursorAttempts, codexDisabled := 0, 0, 0, false;
      tally := NO_CALLS;
    }

    /** A task as its stored record has it, in a sprint where Codex may be switched off. */
    constructor Load(c: Config, status: Status, phase: Phase, l: Ledger, ghost t: Tally)
      requires Balanced(c, t) && t.ledger.(codexDisabled := l.codexDisabled) == l
      ensures Valid() && config == c && this.status == status && waitingPhase == phase && Counters() == l
    {
      config := c;
      this.status, waitingPhase := status, phase;
      attempt, codexAttempts, cursorAttempts, codexDisabled := l.attempt, l.codex, l.cursor, l.codexDisabled;
      tally := t;
    }

    /** The first usable provider in order of priority, else Codex, else Cursor. */
    method PreferredProvider() returns (p: Option<Provider>)
      ensures p == Preferred(config, Counters())
    {
      var i := 0;
      while i < |config.priority|
        invariant i <= |config.priority|
        invariant FirstUsable(config, Counters(), config.priority) == FirstUsable(config, Counters(), config.priority[i..])
      {
        if config.priority[i].Codex? && config.codexEnabled && !codexDisabled { return Some(Codex); }
        if config.priority[i].Cursor? && config.cursorEnabled { return Some(Cursor); }
        i := i + 1;
      }
      if config.codexEnabled && !codexDisabled { return Some(Codex); }
      if config.cursorEnabled { return Some(Cursor); }
      return None;
    }

    /** The provider router: Codex first where it is preferred, Cursor behind it. */
    method Implement(focused: bool, s: Scenario) returns (answer: Answer)
      modifies this`codexAttempts, this`cursorAttempts, this`codexDisabled
      ensures (Counters(), answer) == ImplementCall(config, old(Counters()), focused, s)
    {
      if !focused {
        var provider := PreferredProvider();
        if provider == Some(Codex) {
          match s.codex {
            case Answers(result) =>
              if codexAttempts < config.codexSequence {
                if ProviderUnavailable(result) {
                  if !config.cursorEnabled { return Answer(result, None); }
                  codexDisabled := true;
                } else if result.capacity || result.transient {
                  return Answer(result, Some(Codex));
                } else {
                  codexAttempts := codexAttempts + 1;
                  return Answer(result, Some(Codex));
                }
              }
            case NotAvailable =>
              if !config.cursorEnabled { return Answer(UNAVAILABLE, None); }
              codexDisabled := true;
            case Raises =>
              if !config.cursorEnabled { return Answer(INTEGRATION_ERROR, None); }
              codexDisabled := true;
          }
        }
      }
      if !config.cursorEnabled { return Answer(UNAVAILABLE, None); }
      if !s.cursor.quota && !s.cursor.capacity {
        cursorAttempts := cursorAttempts + 1;
      }
      return Answer(s.cursor, Some(Cursor));
    }

    /** Verification, review and commit: they may pass, ask for a retry, or pause in review. */
    method VerifyReviewCommit() returns (outcome: Option<TaskOutcome>)
      modifies this`status, this`waitingPhase
      ensures outcome == None ==> status.RetryTask?
      ensures outcome == Some(TaskOk) ==> status.VerifiedTask?
      ensures outcome == Some(QuotaPaused) ==> status.WaitingForQuota? && waitingPhase.ReviewPhase?
      ensures outcome == Some(CapacityPaused) ==> status.WaitingForCapacity? && waitingPhase.ReviewPhase?
      ensures outcome != Some(TaskFailed)
    {
      var event: nat := *;
      waitingPhase := NoPhase;
      if event == 0 {
        status := VerifiedTask;
        return Some(TaskOk);
      }
      if event == 1 {
        status, waitingPhase := WaitingForQuota, ReviewPhase;
        return Some(QuotaPaused);
      }
      if event == 2 {
        status, waitingPhase := WaitingForCapacity, ReviewPhase;
        return Some(CapacityPaused);
      }
      status := RetryTask;
      return None;
    }

    /** Other tasks of the sprint may switch Codex off at any time. */
    method SprintMoves()
      modifies this`codexDisabled
      ensures old(codexDisabled) ==> codexDisabled
    {
      var switched: bool := *;
      codexDisabled := codexDisabled || switched;
    }

    /** One attempt: counted, called, and handed back if the call was a pause. */
    method Attempt(focused: bool, limit: nat) returns (answer: Answer)
      requires Valid() && attempt < limit && HasBudget(config, Counters(), focused)
      modifies this
      ensures Valid() && attempt <= limit
      ensures attempt == old(attempt) + if Paused(answer.result) then 0 else 1
      ensures status == if answer.result.quota then WaitingForQuota
                        else if Paused(answer.result) then WaitingForCapacity else RunningTask
      ensures waitingPhase == if Paused(answer.result) then ImplementPhase else NoPhase
    {
      hide FirstUsable, HasBudget, Balanced, ImplementCall;
      CallKeepsAttempt(config, Counters().(attempt := attempt + 1), focused);
      ghost var before := AddEvent(config, tally, SprintSets(codexDisabled));
      var s: Scenario := *;
      AddEventBalances(config, tally, SprintSets(codexDisabled));
      AddEventBalances(config, before, Call(focused, limit, s));
      attempt := attempt + 1;
      status, waitingPhase := RunningTask, NoPhase;
      answer := Implement(focused, s);
      if Paused(answer.result) {
        attempt := attempt - 1;
        status := if answer.result.quota then WaitingForQuota else WaitingForCapacity;
        waitingPhase := ImplementPhase;
      }
      tally := AddEvent(config, before, Call(focused, limit, s));
    }

    /**
     * The attempt loop of one task, from fresh or resumed after a pause. A task that has used more
     * attempts than this run allows is blocked without another one.
     */
    method RunTask(focused: bool, limit: nat) returns (outcome: TaskOutcome)
      requires Valid()
      modifies this
      ensures Valid()
      ensures attempt <= if old(attempt) < limit then limit else old(attempt)
      ensures old(status.DoneTask? || status.VerifiedTask?) ==> outcome.TaskOk? && status == old(status)
      ensures outcome.TaskOk? ==> status.VerifiedTask? || status.DoneTask?
      ensures status.DoneTask? <==> old(status.DoneTask?)
      ensures status.VerifiedTask? ==> outcome.TaskOk?
      ensures outcome.TaskFailed? ==> status.BlockedTask?
      ensures outcome.QuotaPaused? ==> status.WaitingForQuota?
      ensures outcome.CapacityPaused? ==> status.WaitingForCapacity?
    {
      if status.DoneTask? || status.VerifiedTask? {
        return TaskOk;
      }
      var prepared: bool := *;
      if !prepared {
        status := BlockedTask;
        return TaskFailed;
      }
      if (status.WaitingForQuota? || status.WaitingForCapacity?) && waitingPhase.ReviewPhase? {
        var resumed := VerifyReviewCommit();
        if resumed.Some? { return resumed.value; }
      }
      while attempt < limit
        invariant Valid() && !status.DoneTask? && !status.VerifiedTask?
        invariant attempt <= if old(attempt) < limit then limit else old(attempt)
        decreases limit - attempt
      {
        SprintMoves();
        if !HasBudget(config, Counters(), focused) { break; }
        var answer := Attempt(focused, limit);
        if answer.result.quota { return QuotaPaused; }
        if answer.result.capacity || answer.result.transient { return CapacityPaused; }
        if !answer.result.ok {
          status := RetryTask;
          continue;
        }
        var finished := VerifyReviewCommit();
        if finished.Some? { return finished.value; }
      }
      status := BlockedTask;
      return TaskFailed;
    }
  }

  lemma CallKeepsAttempt(c: Config, l: Ledger, focused: bool)
    ensures forall s :: ImplementCall(c, l, focused, s).0.attempt == l.attempt
  {
    forall s ensures ImplementCall(c, l, focused, s).0.attempt == l.attempt {
      CallCharges(c, l, focused, s);
    }
  }
}
