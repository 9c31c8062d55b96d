/** What a Kysely session hands on to the transaction, read off its events: how the user's callback
    settled, and the first thing that went wrong in the driver. */
module KyselyValues {
  import opened Outcomes
  import opened Gates
  import opened OutboxTransaction
  import opened OutboxGuarantees
  import opened KyselyScope

  type Event = KyselyScope.Event

  /** How the user's callback settled: the first such event while the transaction awaits it. */
  function Settled(records: nat, events: seq<Event>): Option<Result<Value, Thrown>> {
    if events == [] then None
    else
      var before := events[..|events| - 1];
      SettledNext(Settled(records, before), Steps(Begin(records), before), events[|events| - 1])
  }

  function SettledNext(earlier: Option<Result<Value, Thrown>>, s: Session, e: Event): Option<Result<Value, Thrown>> {
    if earlier.None? && e.UserCallback? && s.tx.phase.InCallback? then Some(e.result) else earlier
  }

  /** The failure an event brings, if any: a lifecycle misuse while the callback runs, a call of
      the driver that ends badly, or a callback that throws. */
  function Cause(running: bool, s: Session, e: Event): Option<Error> {
    match e
    case Misuse => if running && s.tx.handedOut then Some(Unsupported) else None
    case EndCall(k, extra) => if CanHappen(s, e) then CauseOfCall(s.tx.tasks, s.calls[k], extra) else None
    case UserCallback(Failure(cause)) => if running && s.tx.phase.InCallback? then Some(AsError(cause)) else None
    case _ => None
  }

  /** A call fails with the transaction's own answer, or else with a failure of its own. */
  function CauseOfCall(tasks: seq<Task>, call: Call, extra: Option<Thrown>): Option<Error>
    requires call.TurnedAway? || (call.Delegated? && call.outer < |tasks| && tasks[call.outer].stage.Done?)
  {
    match call
    case TurnedAway => Some(CallbackFinished)
    case Delegated(outer) =>
      if tasks[outer].stage.failed.Some? then tasks[outer].stage.failed
      else if extra.Some? then Some(AsError(extra.value)) else None
  }

  function FirstCause(records: nat, events: seq<Event>): Option<Error> {
    if events == [] then None
    else
      var before := events[..|events| - 1];
      First(FirstCause(records, before),
            Cause(Settled(records, before).None?, Steps(Begin(records), before), events[|events| - 1]))
  }

  /** What the transaction is to be told: the first failure, else the value the callback returned. */
  function Told(settled: Result<Value, Thrown>, cause: Option<Error>): Result<Value, Error>
    requires settled.Failure? ==> cause.Some?
  {
    if cause.Some? then Failure(cause.value) else Success(settled.value)
  }

  /** How a session's variables stand to its events. */
  ghost predicate Tells(s: Session, settled: Option<Result<Value, Thrown>>, cause: Option<Error>) {
    && s.driver.failure == cause
    && (s.stage.Active? <==> settled.None?)
    && (settled.Some? && settled.value.Failure? ==> cause.Some?)
    && (s.stage.Emptying? ==>
          s.stage.value == if settled.value.Success? then Some(settled.value.value) else None)
    && (s.stage.Left? ==> s.stage.result == Told(settled.value, cause))
    && (s.stage.Over? ==> CallbackSettled(Told(settled.value, cause)) in s.tx.log)
    && (forall r | CallbackSettled(r) in s.tx.log :: s.stage.Over? && r == Told(settled.value, cause))
  }

  ghost predicate TellsNext(s: Session, e: Event, settled: Option<Result<Value, Thrown>>, cause: Option<Error>) {
    Tells(Step(s, e), SettledNext(settled, s, e), First(cause, Cause(settled.None?, s, e)))
  }

  lemma LogStays(s: Session, t: Session, settled: Option<Result<Value, Thrown>>, cause: Option<Error>)
    requires Tells(s, settled, cause) && Extends(s.tx.log, t.tx.log)
    requires t.stage == s.stage && t.driver.failure == s.driver.failure
    ensures Tells(t, settled, cause)
  {
    forall r | CallbackSettled(r) in t.tx.log ensures CallbackSettled(r) in s.tx.log {
      var i :| 0 <= i < |t.tx.log| && t.tx.log[i] == CallbackSettled(r);
      assert i < |s.tx.log|;
    }
  }

  lemma TellsNothing(s: Session, e: Event, settled: Option<Result<Value, Thrown>>, cause: Option<Error>)
    requires SessionInv(s) && Tells(s, settled, cause) && !CanHappen(s, e)
    ensures TellsNext(s, e, settled, cause)
  {
    hide Inv, QuietAtCallback, FailureMatches, CallsMatch;
  }

  lemma TellsByCall(s: Session, e: Event, settled: Option<Result<Value, Thrown>>, cause: Option<Error>)
    requires SessionInv(s) && Tells(s, settled, cause) && CanHappen(s, e) && (e.Use? || e.Misuse? || e.EndCall?)
    ensures TellsNext(s, e, settled, cause)
  {
    hide Inv, QuietAtCallback, FailureMatches;
    if e.EndCall? { assert CallMatches(s.calls[e.k], e.k, s.driver.pending, s.tx.tasks); }
  }

  lemma TellsByStart(s: Session, k: nat, settled: Option<Result<Value, Thrown>>, cause: Option<Error>)
    requires Tells(s, settled, cause) && CanHappen(s, StartCall(k))
    ensures TellsNext(s, StartCall(k), settled, cause)
  {
    ViewCallExtends(s.tx, s.calls[k].append);
    hide OnViewCall, Extends, Tells;
    LogStays(s, Step(s, StartCall(k)), settled, cause);
  }

  lemma TellsByCallback(s: Session, result: Result<Value, Thrown>,
      settled: Option<Result<Value, Thrown>>, cause: Option<Error>)
    requires Tells(s, settled, cause) && CanHappen(s, UserCallback(result))
    ensures TellsNext(s, UserCallback(result), settled, cause)
  {
  }

  lemma TellsByDrain(s: Session, settled: Option<Result<Value, Thrown>>, cause: Option<Error>)
    requires Tells(s, settled, cause) && CanHappen(s, DriverDrained)
    ensures TellsNext(s, DriverDrained, settled, cause)
  {
  }

  lemma TellsByResuming(s: Session, settled: Option<Result<Value, Thrown>>, cause: Option<Error>)
    requires Tells(s, settled, cause) && CanHappen(s, OuterResumes)
    ensures TellsNext(s, OuterResumes, settled, cause)
  {
    var result := if s.stage.result.Success? then Success(s.stage.result.value) else Failure(AnError(s.stage.result.error));
    var t := OnOuterResumes(s);
    CallbackWrites(s.tx, result);
    hide OnCallback;
    forall r | CallbackSettled(r) in t.tx.log ensures r == Told(settled.value, cause) {
      assert CallbackSettled(r) !in s.tx.log;
    }
  }

  lemma CallbackWrites(tx: Tx, result: Result<Value, Thrown>)
    requires tx.phase.InCallback?
    ensures var line := CallbackSettled(if result.Success? then Success(result.value) else Failure(AsError(result.error)));
            var log := OnCallback(tx, result).log;
            line in log && forall r | CallbackSettled(r) in log :: CallbackSettled(r) in tx.log || CallbackSettled(r) == line
  {
    var line := CallbackSettled(if result.Success? then Success(result.value) else Failure(AsError(result.error)));
    var log := OnCallback(tx, result).log;
    assert log[|tx.log|] == line;
    forall r | CallbackSettled(r) in log ensures CallbackSettled(r) in tx.log || CallbackSettled(r) == line {
      var i: nat :| i < |log| && log[i] == CallbackSettled(r);
      CallbackEntry(tx, result, i);
      if i < |tx.log| { assert log[i] == tx.log[i]; }
    }
  }

  lemma TellsByOuter(s: Session, e: OutboxTransaction.Event,
      settled: Option<Result<Value, Thrown>>, cause: Option<Error>)
    requires Tells(s, settled, cause) && CanHappen(s, Outer(e))
    ensures TellsNext(s, Outer(e), settled, cause)
  {
    OuterStepAdvances(s.tx, e);
    hide Apply, Extends, Tells, Possible;
    LogStays(s, Step(s, Outer(e)), settled, cause);
  }

  lemma TellsStep(s: Session, e: Event, settled: Option<Result<Value, Thrown>>, cause: Option<Error>)
    requires SessionInv(s) && Tells(s, settled, cause)
    ensures TellsNext(s, e, settled, cause)
  {
    hide SessionInv, Tells, TellsNext;
    if !CanHappen(s, e) { TellsNothing(s, e, settled, cause); }
    else {
      match e
      case StartCall(k) => TellsByStart(s, k, settled, cause);
      case UserCallback(result) => TellsByCallback(s, result, settled, cause);
      case DriverDrained => TellsByDrain(s, settled, cause);
      case OuterResumes => TellsByResuming(s, settled, cause);
      case Outer(o) => TellsByOuter(s, o, settled, cause);
      case _ => TellsByCall(s, e, settled, cause);
    }
  }

  lemma {:induction false} EverySessionTells(records: nat, events: seq<Event>)
    ensures Tells(Steps(Begin(records), events), Settled(records, events), FirstCause(records, events))
  {
    hide Tells, Step, SettledNext, Cause;
    if events == [] {
      BeginTells(records);
    } else {
      var before := events[..|events| - 1];
      EverySessionTells(records, before);
      EverySessionIsNested(records, before);
      TellsStep(Steps(Begin(records), before), events[|events| - 1], Settled(records, before), FirstCause(records, before));
      hide SessionInv, First;
    }
  }

  lemma BeginTells(records: nat)
    ensures Tells(Begin(records), None, None)
  {
  }

  // ----- the promises

  /** Some events lead to this session; among them the user's callback settled like this, if it has,
      and this was the first thing to go wrong in the driver, if anything has. */
  ghost predicate Reaches(records: nat, s: Session, settled: Option<Result<Value, Thrown>>, cause: Option<Error>) {
    exists events ::
      Steps(Begin(records), events) == s && Settled(records, events) == settled && FirstCause(records, events) == cause
  }

  lemma ReachesTells(records: nat, s: Session, settled: Option<Result<Value, Thrown>>, cause: Option<Error>)
    requires Reaches(records, s, settled, cause)
    ensures Tells(s, settled, cause) && SessionInv(s) && SessionReached(records, s)
  {
    hide Tells, SessionInv;
    var events :|
      Steps(Begin(records), events) == s && Settled(records, events) == settled && FirstCause(records, events) == cause;
    EverySessionTells(records, events);
    EverySessionIsNested(records, events);
  }

  /** What the transaction is told of the callback: the value the user's callback returned, exactly
      when nothing went wrong in the driver before; else the first thing that did. */
  lemma CallbackTellsTheUsersValue(
    records: nat, s: Session, settled: Option<Result<Value, Thrown>>, cause: Option<Error>, v: Value)
    requires Reaches(records, s, settled, cause)
    ensures var told := exists r :: CallbackSettled(r) in s.tx.log;
            && (CallbackSettled(Success(v)) in s.tx.log <==> told && settled == Some(Success(v)) && cause.None?)
            && (forall error :: CallbackSettled(Failure(error)) in s.tx.log <==> told && cause == Some(error))
  {
    ReachesTells(records, s, settled, cause);
  }

  /** The driver's memory is the first cause. */
  lemma DriverRemembersTheFirstCause(
    records: nat, s: Session, settled: Option<Result<Value, Thrown>>, cause: Option<Error>)
    requires Reaches(records, s, settled, cause)
    ensures s.driver.failure == cause
  {
    ReachesTells(records, s, settled, cause);
  }

  /** What a session's caller gets: a value only if the user's callback returned that very value,
      nothing went wrong in the driver, and COMMIT was acknowledged. */
  lemma CallerGetsTheUsersValue(
    records: nat, s: Session, settled: Option<Result<Value, Thrown>>, cause: Option<Error>)
    requires Reaches(records, s, settled, cause) && s.tx.phase.Closed? && s.tx.phase.outcome.Returned?
    ensures var value := s.tx.phase.outcome.value;
            value.Some? && settled == Some(Success(value.value)) && cause.None? && CommitSettled(None) in s.tx.log
  {
    ReachesTells(records, s, settled, cause);
    SessionReachedFacts(records, s);
    OutcomeOfEveryRun(records, s.tx);
  }

  /** The driver lets calls in exactly while the user's callback has not settled. */
  lemma AdmittedWhileTheCallbackRuns(
    records: nat, s: Session, settled: Option<Result<Value, Thrown>>, cause: Option<Error>, append: bool)
    requires Reaches(records, s, settled, cause)
    ensures Step(s, Use(append)).calls ==
            s.calls + (if s.tx.handedOut && settled.None? then [Waiting(append)] else [])
  {
    ReachesTells(records, s, settled, cause);
  }

  /** Nothing in a session waits for what cannot happen: until the transaction is over some reply,
      settlement or resumption is due, while the driver drains as well. */
  lemma SessionNeverStuck(records: nat, s: Session) returns (e: Event)
    requires SessionReached(records, s) && !s.tx.phase.Closed?
    ensures CanHappen(s, e) && !e.Use? && !e.Misuse?
    ensures e.Outer? ==> Internal(e.e)
  {
    SessionReachedFacts(records, s);
    var o := NeverStuck(records, s.tx);
    if !o.CallbackReply? { return Outer(o); }
    hide FailureMatches, QuietAtCallback;
    if s.stage.Active? { return UserCallback(Success(0)); }
    if s.stage.Left? { return OuterResumes; }
    if s.stage.waiting !! s.driver.pending { return DriverDrained; }
    var k :| k in s.stage.waiting && k in s.driver.pending;
    assert CallMatches(s.calls[k], k, s.driver.pending, s.tx.tasks);
    if s.calls[k].Waiting? { return StartCall(k); }
    var outer := s.calls[k].outer;
    e := if s.tx.tasks[outer].stage.Done? then EndCall(k, None) else Outer(Settle(outer, Some(AnError(Raised(0)))));
  }
}
