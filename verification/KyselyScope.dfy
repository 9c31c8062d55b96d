/** Kysely inside a managed transaction (kysely-outbox-scope.ts): a second gate whose work is
    done by calls on the outer transaction's view, and whose closing is the outer callback's
    return.  The combined machine interleaves both, and each of its steps is at most one step of
    the outer one. */
module KyselyScope {
  import opened Outcomes
  import opened Gates
  import opened OutboxTransaction
  import opened OutboxGuarantees

  /** A call admitted by the driver: not started yet, handed to the outer transaction as task
      `outer`, turned away by it, or settled. */
  datatype Call =
    | Waiting(append: bool)
    | Delegated(outer: nat)
    | TurnedAway
    | Ended(outer: nat, failed: Option<Error>)

  datatype Stage =
    | Active
    | Emptying(waiting: set<nat>, value: Option<Value>)
    | Left(result: Result<Value, Error>)
    | Over

  datatype Session = Session(tx: Tx, driver: Gate<Error>, calls: seq<Call>, stage: Stage)

  function Begin(records: nat): Session {
    Session(Start(records), Open(), [], Active)
  }

  datatype Event =
    | Use(append: bool)                          // db.execute… or append, by anyone, at any time
    | Misuse                                     // nested transaction, manual commit, streaming, destroy
    | StartCall(k: nat)                          // the admitted operation's microtask runs
    | EndCall(k: nat, extra: Option<Thrown>)     // its promise settles; `extra` is a failure of its own
    | UserCallback(result: Result<Value, Thrown>)
    | DriverDrained
    | OuterResumes
    | Outer(e: OutboxTransaction.Event)          // everything else that can happen to the transaction

  predicate CanHappen(s: Session, e: Event) {
    match e
    case Use(_) => s.tx.handedOut
    case Misuse => s.tx.handedOut
    case StartCall(k) => s.tx.handedOut && k < |s.calls| && s.calls[k].Waiting?
    case EndCall(k, extra) =>
      && k < |s.calls|
      && (s.calls[k].TurnedAway?
          || (s.calls[k].Delegated? && s.calls[k].outer < |s.tx.tasks| && s.tx.tasks[s.calls[k].outer].stage.Done?))
    case UserCallback(_) => s.stage.Active? && s.tx.phase.InCallback?
    case DriverDrained => s.stage.Emptying? && s.stage.waiting !! s.driver.pending
    case OuterResumes => s.stage.Left? && s.tx.phase.InCallback?
    case Outer(o) => Possible(s.tx, o) && !o.ViewCall? && !o.CallbackReply?
  }

  function OnUse(s: Session, append: bool): Session {
    if !s.driver.accepting then s
    else s.(driver := s.driver.Admit(|s.calls|), calls := s.calls + [Waiting(append)])
  }

  function OnMisuse(s: Session): Session {
    if s.driver.accepting then s.(driver := s.driver.Poison(Unsupported)) else s
  }

  function OnStartCall(s: Session, k: nat): Session
    requires CanHappen(s, StartCall(k))
  {
    var tx := OnViewCall(s.tx, s.calls[k].append);
    s.(tx := tx, calls := s.calls[k := if |tx.tasks| > |s.tx.tasks| then Delegated(|s.tx.tasks|) else TurnedAway])
  }

  function OnEndCall(s: Session, k: nat, extra: Option<Thrown>): Session
    requires CanHappen(s, EndCall(k, extra))
  {
    var inner := if s.calls[k].TurnedAway? then Some(CallbackFinished) else s.tx.tasks[s.calls[k].outer].stage.failed;
    var failed := if inner.Some? then inner else Map(extra);
    s.(driver := s.driver.Settle(k, failed),
       calls := s.calls[k := Ended(if s.calls[k].TurnedAway? then 0 else s.calls[k].outer, failed)])
  }

  function OnUserCallback(s: Session, result: Result<Value, Thrown>): Session {
    var driver := if result.Failure? then s.driver.Poison(AsError(result.error)) else s.driver;
    s.(driver := driver.Close(),
       stage := Emptying(driver.pending, if result.Success? then Some(result.value) else None))
  }

  /** What `value` holds if nothing was assigned. */
  const UNDEFINED: Value := 0

  /** `finish` throws the first failure; otherwise the callback's value is returned. */
  function OnDriverDrained(s: Session): Session
    requires CanHappen(s, DriverDrained)
  {
    match s.driver.failure
    case Some(error) => s.(stage := Left(Failure(error)))
    case None => s.(stage := Left(Success(if s.stage.value.Some? then s.stage.value.value else UNDEFINED)))
  }

  function OnOuterResumes(s: Session): Session
    requires CanHappen(s, OuterResumes)
  {
    var result := if s.stage.result.Success? then Success(s.stage.result.value) else Failure(AnError(s.stage.result.error));
    s.(tx := OnCallback(s.tx, result), stage := Over)
  }

  function Step(s: Session, e: Event): Session {
    if !CanHappen(s, e) then s
    else
      match e
      case Use(append) => OnUse(s, append)
      case Misuse => OnMisuse(s)
      case StartCall(k) => OnStartCall(s, k)
      case EndCall(k, extra) => OnEndCall(s, k, extra)
      case UserCallback(result) => OnUserCallback(s, result)
      case DriverDrained => OnDriverDrained(s)
      case OuterResumes => OnOuterResumes(s)
      case Outer(o) => s.(tx := Apply(s.tx, o))
  }

  function Steps(s: Session, events: seq<Event>): Session {
    if events == [] then s else Step(Steps(s, events[..|events| - 1]), events[|events| - 1])
  }

  // ----- refinement: a session's transaction is an ordinary managed transaction

  /** The outer event, if any, that a session event amounts to. */
  function Amounts(s: Session, e: Event): seq<OutboxTransaction.Event> {
    if !CanHappen(s, e) then []
    else
      match e
      case StartCall(k) => [ViewCall(s.calls[k].append)]
      case OuterResumes =>
        [CallbackReply(if s.stage.result.Success? then Success(s.stage.result.value)
                       else Failure(AnError(s.stage.result.error)))]
      case Outer(o) => [o]
      case _ => []
  }

  function Projection(records: nat, events: seq<Event>): seq<OutboxTransaction.Event> {
    if events == [] then []
    else
      var before := events[..|events| - 1];
      Projection(records, before) + Amounts(Steps(Begin(records), before), events[|events| - 1])
  }

  lemma {:induction false} RunOne(s: Tx, events: seq<OutboxTransaction.Event>, more: seq<OutboxTransaction.Event>)
    requires |more| <= 1
    ensures Run(s, events + more) == if more == [] then Run(s, events) else Apply(Run(s, events), more[0])
  {
    if more == [] {
      assert events + more == events;
    } else {
      assert (events + more)[..|events|] == events;
    }
  }

  lemma StepAmounts(s: Session, e: Event)
    ensures var more := Amounts(s, e);
            |more| <= 1 && Step(s, e).tx == if more == [] then s.tx else Apply(s.tx, more[0])
  {
    hide OnBegin, OnSend, OnSettle, OnClientError, OnCallback, OnAppendResumed, OnDrained, OnFinished, OnCommit, OnRollback;
  }

  /** Every interleaving of a Kysely session is, for the transaction, an interleaving of plain
      view calls: everything proved of the managed transaction holds here. */
  lemma {:induction false} SessionRefinesTransaction(records: nat, events: seq<Event>)
    ensures Steps(Begin(records), events).tx == Run(Start(records), Projection(records, events))
  {
    hide Step, Amounts, Apply, Run;
    if events == [] {
      NothingRun(Start(records));
    } else {
      var before := events[..|events| - 1];
      SessionRefinesTransaction(records, before);
      var s, e := Steps(Begin(records), before), events[|events| - 1];
      StepAmounts(s, e);
      RunOne(Start(records), Projection(records, before), Amounts(s, e));
    }
  }

  lemma NothingRun(s: Tx)
    ensures Run(s, []) == s
  {
  }

  // ----- what composition adds

  /** The two gates agree: the driver's open calls are its pending set, each started call is an
      outer task of its own, and the outer callback stays open until the driver has drained. */
  ghost predicate Nested(s: Session) {
    && CallsMatch(s)
    && StageMatches(s)
  }

  ghost predicate CallsMatch(s: Session) {
    && (forall k <- s.driver.pending :: k < |s.calls|)
    && (forall k | 0 <= k < |s.calls| :: CallMatches(s.calls[k], k, s.driver.pending, s.tx.tasks))
    && (forall id | 0 <= id < |s.tx.tasks| && !s.tx.tasks[id].kind.Declared? :: Owned(s.calls, id))
  }

  ghost predicate CallMatches(call: Call, k: nat, pending: set<nat>, tasks: seq<Task>) {
    && !call.TurnedAway?
    && (k in pending <==> !call.Ended?)
    && (call.Delegated? ==> call.outer < |tasks| && !tasks[call.outer].kind.Declared?)
    && (call.Ended? ==> call.outer < |tasks| && tasks[call.outer].stage.Done?
                        && (call.failed.None? ==> tasks[call.outer].stage == Done(None)))
  }

  ghost predicate Owned(calls: seq<Call>, id: nat) {
    exists k :: 0 <= k < |calls| && (calls[k] == Delegated(id) || (calls[k].Ended? && calls[k].outer == id))
  }

  ghost predicate StageMatches(s: Session) {
    && (!s.tx.handedOut ==> s.calls == [] && s.stage.Active? && s.driver.failure.None?)
    && (s.stage.Active? <==> s.driver.accepting)
    && (s.stage.Emptying? ==> s.driver.pending <= s.stage.waiting)
    && (s.stage.Emptying? && s.stage.value.None? ==> s.driver.failure.Some?)
    && (s.stage.Left? || s.stage.Over? ==> s.driver.pending == {})
    && (s.stage.Left? ==> s.stage.result.Failure? == s.driver.failure.Some?)
    && (s.stage.Active? && s.tx.handedOut ==> s.tx.phase.InCallback?)
    && (s.stage.Emptying? || s.stage.Left? ==> s.tx.phase.InCallback?)
    && (s.stage.Over? ==> !s.tx.phase.InCallback? && !s.tx.phase.Beginning? && s.tx.handedOut)
    && (forall k | 0 <= k < |s.calls| && s.calls[k].Ended? && s.calls[k].failed.Some? :: s.driver.failure.Some?)
  }

  /** Failures of the driver reach the outer callback. */
  ghost predicate FailureMatches(s: Session) {
    && (s.stage.Over? && s.driver.failure.Some? ==> CallbackSettled(Failure(s.driver.failure.value)) in s.tx.log)
    && (s.stage.Left? && s.stage.result.Failure? ==> s.driver.failure == Some(s.stage.result.error))
  }

  /** When the callback settles, nothing it admitted is in flight. */
  ghost predicate QuietAtCallback(log: seq<Entry>) {
    forall i | 0 <= i < |log| && log[i].CallbackSettled? :: Observed(log[..i]).unsettled == {}
  }

  /** The log only grows, and only by entries that do not settle the callback. */
  ghost predicate Extends(log: seq<Entry>, longer: seq<Entry>) {
    log <= longer && forall i | |log| <= i < |longer| :: !longer[i].CallbackSettled?
  }

  /** What every outer step other than a view call and the callback's return leaves alone. */
  ghost predicate Advances(tx: Tx, next: Tx) {
    && Extends(tx.log, next.log)
    && |tx.tasks| <= |next.tasks|
    && (forall id | 0 <= id < |tx.tasks| ::
          && next.tasks[id].kind == tx.tasks[id].kind
          && (tx.tasks[id].stage.Done? ==> next.tasks[id] == tx.tasks[id]))
    && (forall id | |tx.tasks| <= id < |next.tasks| :: next.tasks[id].kind.Declared?)
    && (tx.phase.InCallback? ==> next.phase.InCallback? && next.handedOut == tx.handedOut)
    && (!tx.phase.InCallback? && !tx.phase.Beginning? ==>
          !next.phase.InCallback? && !next.phase.Beginning? && next.handedOut == tx.handedOut)
    && (tx.phase.Beginning? ==>
          (next.handedOut == tx.handedOut && !next.phase.InCallback?) || (next.phase.InCallback? && next.handedOut))
  }

  lemma AdvancesByTask(tx: Tx, e: OutboxTransaction.Event)
    requires Possible(tx, e) && (e.Send? || e.Settle? || e.ClientError? || e.DrainResumes?)
    ensures Advances(tx, Apply(tx, e))
  {
    hide OnCommit, OnRollback, OnFinished, OnAppendResumed, OnBegin, OnCallback, OnViewCall;
  }

  lemma AdvancesByBegin(tx: Tx, failed: Option<Thrown>)
    requires tx.phase.Beginning?
    ensures Advances(tx, OnBegin(tx, failed))
  {
  }

  lemma AdvancesByAppend(tx: Tx)
    requires Possible(tx, AppendResumes)
    ensures Advances(tx, OnAppendResumed(tx))
  {
    if tx.tasks[tx.phase.id].stage.failed.None? {
      AdvancesByNextAppend(tx, tx.phase.k + 1);
    } else {
      hide Tx.AppendFrom;
    }
  }

  lemma AdvancesByNextAppend(tx: Tx, k: nat)
    requires tx.phase.Appending?
    ensures Advances(tx, tx.AppendFrom(k))
  {
  }

  lemma AdvancesByFinish(tx: Tx)
    requires Possible(tx, FinishResumes)
    ensures Advances(tx, OnFinished(tx))
  {
  }

  lemma AdvancesByRelease(before: Tx, tx: Tx, failed: Option<Thrown>)
    requires Advances(before, tx) && !before.phase.InCallback? && !before.phase.Beginning?
    ensures Advances(before, tx.Release(failed))
  {
  }

  lemma AdvancesByCommit(tx: Tx, failed: Option<Thrown>, release: Option<Thrown>)
    requires tx.phase.Committing?
    ensures Advances(tx, OnCommit(tx, failed, release))
  {
    hide Tx.Release;
    if failed.None? { AdvancesByRelease(tx, tx.Note(CommitSettled(None)).(committed := true), release); }
  }

  lemma AdvancesByRollback(tx: Tx, failed: Option<Thrown>, release: Option<Thrown>)
    requires tx.phase.RollingBack?
    ensures Advances(tx, OnRollback(tx, failed, release))
  {
    hide Tx.Release;
    var noted := tx.Note(RollbackSettled(Map(failed)));
    AdvancesByRelease(tx, noted, release);
    if failed.Some? {
      AdvancesByRelease(tx, noted.(discard := Map(failed), cleanup := tx.cleanup + [AsError(failed.value)]), release);
    }
  }

  lemma OuterStepAdvances(tx: Tx, e: OutboxTransaction.Event)
    requires Possible(tx, e) && !e.ViewCall? && !e.CallbackReply?
    ensures Advances(tx, Apply(tx, e))
  {
    hide Advances, OnCommit, OnRollback, OnFinished, OnAppendResumed, OnBegin, OnCallback, OnViewCall;
    match e
    case BeginReply(failed) => AdvancesByBegin(tx, failed);
    case AppendResumes => AdvancesByAppend(tx);
    case FinishResumes => AdvancesByFinish(tx);
    case CommitReply(failed, release) => AdvancesByCommit(tx, failed, release);
    case RollbackReply(failed, release) => AdvancesByRollback(tx, failed, release);
    case _ => AdvancesByTask(tx, e);
  }

  lemma CallbackLogs(tx: Tx, result: Result<Value, Thrown>)
    ensures tx.log <= OnCallback(tx, result).log
    ensures tx.phase.InCallback? && result.Failure? ==>
              CallbackSettled(Failure(AsError(result.error))) in OnCallback(tx, result).log
  {
    assert OnCallback(tx, result).log[..|tx.log|] == tx.log;
  }

  lemma QuietGrows(log: seq<Entry>, longer: seq<Entry>)
    requires QuietAtCallback(log) && Extends(log, longer)
    ensures QuietAtCallback(longer)
  {
    forall i | 0 <= i < |longer| && longer[i].CallbackSettled? ensures Observed(longer[..i]).unsettled == {} {
      assert longer[..i] == log[..i];
    }
  }

  ghost predicate SessionInv(s: Session) {
    Inv(s.tx) && Nested(s) && FailureMatches(s) && QuietAtCallback(s.tx.log)
  }

  lemma UseKeeps(s: Session, append: bool)
    requires Nested(s) && FailureMatches(s) && s.tx.handedOut
    ensures Nested(OnUse(s, append)) && FailureMatches(OnUse(s, append))
  {
    var t := OnUse(s, append);
    forall id | 0 <= id < |t.tx.tasks| && !t.tx.tasks[id].kind.Declared? ensures Owned(t.calls, id) {
      OwnedStays(s.calls, t.calls, id);
    }
  }

  /** A call keeps the outer task it owns. */
  lemma OwnedStays(calls: seq<Call>, later: seq<Call>, id: nat)
    requires Owned(calls, id) && |calls| <= |later|
    requires forall k | 0 <= k < |calls| ::
               (calls[k].Delegated? ==> later[k] == calls[k] || (later[k].Ended? && later[k].outer == calls[k].outer))
               && (calls[k].Ended? ==> later[k] == calls[k])
    ensures Owned(later, id)
  {
    var k :| 0 <= k < |calls| && (calls[k] == Delegated(id) || (calls[k].Ended? && calls[k].outer == id));
    assert later[k] == calls[k] || (later[k].Ended? && later[k].outer == id);
  }

  lemma ViewCallExtends(tx: Tx, append: bool)
    ensures Extends(tx.log, OnViewCall(tx, append).log)
  {
  }

  lemma StartKeeps(s: Session, k: nat)
    requires SessionInv(s) && CanHappen(s, StartCall(k))
    ensures SessionInv(OnStartCall(s, k))
  {
    ViewCallKeeps(s.tx, s.calls[k].append);
    StartKeepsCalls(s, k);
    ViewCallExtends(s.tx, s.calls[k].append);
    hide Matches, Monitored, OnViewCall, Nested, FailureMatches, QuietAtCallback, Extends;
    QuietGrows(s.tx.log, OnViewCall(s.tx, s.calls[k].append).log);
  }

  lemma StartKeepsCalls(s: Session, k: nat)
    requires Nested(s) && FailureMatches(s) && Matches(s.tx, Observed(s.tx.log)) && CanHappen(s, StartCall(k))
    ensures Nested(OnStartCall(s, k)) && FailureMatches(OnStartCall(s, k))
    ensures OnStartCall(s, k).calls[k] == Delegated(|s.tx.tasks|)
  {
    hide TasksMatch, ErrorsMatch, Observed;
    assert CallMatches(s.calls[k], k, s.driver.pending, s.tx.tasks);
    assert s.tx.callbackOpen && s.tx.scope.accepting;
    var t := OnStartCall(s, k);
    forall id | 0 <= id < |t.tx.tasks| && !t.tx.tasks[id].kind.Declared? ensures Owned(t.calls, id) {
      if id < |s.tx.tasks| { OwnedStays(s.calls, t.calls, id); } else { assert t.calls[k] == Delegated(id); }
    }
    forall i | 0 <= i < |t.calls| ensures CallMatches(t.calls[i], i, t.driver.pending, t.tx.tasks) {
      assert CallMatches(s.calls[i], i, s.driver.pending, s.tx.tasks);
    }
  }

  lemma EndKeeps(s: Session, k: nat, extra: Option<Thrown>)
    requires Nested(s) && FailureMatches(s) && CanHappen(s, EndCall(k, extra))
    ensures Nested(OnEndCall(s, k, extra)) && FailureMatches(OnEndCall(s, k, extra))
  {
    assert CallMatches(s.calls[k], k, s.driver.pending, s.tx.tasks);
    var t := OnEndCall(s, k, extra);
    forall id | 0 <= id < |t.tx.tasks| && !t.tx.tasks[id].kind.Declared? ensures Owned(t.calls, id) {
      OwnedStays(s.calls, t.calls, id);
    }
    forall i | 0 <= i < |t.calls| ensures CallMatches(t.calls[i], i, t.driver.pending, t.tx.tasks) {
      assert CallMatches(s.calls[i], i, s.driver.pending, s.tx.tasks);
    }
  }

  lemma UserCallbackKeeps(s: Session, result: Result<Value, Thrown>)
    requires Nested(s) && FailureMatches(s) && s.tx.handedOut && CanHappen(s, UserCallback(result))
    ensures Nested(OnUserCallback(s, result)) && FailureMatches(OnUserCallback(s, result))
  {
  }

  lemma DriverDrainedKeeps(s: Session)
    requires Nested(s) && FailureMatches(s) && CanHappen(s, DriverDrained)
    ensures Nested(OnDriverDrained(s)) && FailureMatches(OnDriverDrained(s))
  {
  }

  /** Nothing of the callback's is in flight once the driver has drained. */
  lemma DrainedMeansQuiet(s: Session, h: History)
    requires Nested(s) && Matches(s.tx, h) && s.tx.phase.InCallback? && s.driver.pending == {}
    ensures h.unsettled == {}
  {
    forall id | 0 <= id < |s.tx.tasks| ensures id !in h.unsettled {
      assert TaskMatches(s.tx.tasks[id], id, h, s.tx.phase);
      if !s.tx.tasks[id].kind.Declared? {
        var k :| 0 <= k < |s.calls| && (s.calls[k] == Delegated(id) || (s.calls[k].Ended? && s.calls[k].outer == id));
        assert CallMatches(s.calls[k], k, s.driver.pending, s.tx.tasks);
      }
    }
  }

  lemma ResumeKeeps(s: Session)
    requires SessionInv(s) && CanHappen(s, OuterResumes)
    ensures SessionInv(OnOuterResumes(s))
  {
    hide Matches, Monitored;
    var t := OnOuterResumes(s);
    var result := if s.stage.result.Success? then Success(s.stage.result.value) else Failure(AnError(s.stage.result.error));
    CallbackKeeps(s.tx, result);
    CallbackLogs(s.tx, result);
    ResumeKeepsNested(s, result);
    assert QuietAtCallback(t.tx.log) by {
      DrainedMeansQuiet(s, Observed(s.tx.log));
      forall i | 0 <= i < |t.tx.log| && t.tx.log[i].CallbackSettled? ensures Observed(t.tx.log[..i]).unsettled == {} {
        CallbackEntry(s.tx, result, i);
        assert t.tx.log[..i] == s.tx.log[..i];
        assert i < |s.tx.log| || s.tx.log[..i] == s.tx.log;
      }
    }
  }

  lemma CallbackEntry(tx: Tx, result: Result<Value, Thrown>, i: nat)
    requires tx.phase.InCallback? && i < |OnCallback(tx, result).log| && OnCallback(tx, result).log[i].CallbackSettled?
    ensures i <= |tx.log|
  {
  }

  lemma ResumeKeepsNested(s: Session, result: Result<Value, Thrown>)
    requires Nested(s) && FailureMatches(s) && CanHappen(s, OuterResumes)
    requires result == if s.stage.result.Success? then Success(s.stage.result.value) else Failure(AnError(s.stage.result.error))
    requires s.tx.handedOut
    ensures Nested(OnOuterResumes(s)) && FailureMatches(OnOuterResumes(s))
  {
    CallbackLogs(s.tx, result);
    var t := OnOuterResumes(s);
    forall i | 0 <= i < |t.calls| ensures CallMatches(t.calls[i], i, t.driver.pending, t.tx.tasks) {
      assert CallMatches(s.calls[i], i, s.driver.pending, s.tx.tasks);
    }
    forall id | 0 <= id < |t.tx.tasks| && !t.tx.tasks[id].kind.Declared? ensures Owned(t.calls, id) {
      assert t.tx.tasks[id] == s.tx.tasks[id];
    }
  }

  lemma OuterKeeps(s: Session, e: OutboxTransaction.Event)
    requires SessionInv(s) && CanHappen(s, Outer(e))
    ensures SessionInv(Step(s, Outer(e)))
  {
    hide Matches, Monitored, Apply, Possible;
    StepKeeps(s.tx, e);
    OuterStepAdvances(s.tx, e);
    QuietGrows(s.tx.log, Apply(s.tx, e).log);
    OuterKeepsNested(s, e);
  }

  lemma OuterKeepsNested(s: Session, e: OutboxTransaction.Event)
    requires Nested(s) && FailureMatches(s) && CanHappen(s, Outer(e))
    requires Possible(s.tx, e) && (s.tx.handedOut ==> !s.tx.phase.Beginning?)
    ensures Nested(Step(s, Outer(e))) && FailureMatches(Step(s, Outer(e)))
  {
    hide Apply, Possible;
    OuterStepAdvances(s.tx, e);
    var t := Step(s, Outer(e));
    forall i | 0 <= i < |t.calls| ensures CallMatches(t.calls[i], i, t.driver.pending, t.tx.tasks) {
      assert CallMatches(s.calls[i], i, s.driver.pending, s.tx.tasks);
    }
    forall id | 0 <= id < |t.tx.tasks| && !t.tx.tasks[id].kind.Declared? ensures Owned(t.calls, id) {
      assert id < |s.tx.tasks|;
    }
  }

  lemma SessionStepKeeps(s: Session, e: Event)
    requires SessionInv(s) && CanHappen(s, e)
    ensures SessionInv(Step(s, e))
  {
    hide Matches, Monitored, QuietAtCallback;
    match e
    case Use(append) => UseKeeps(s, append);
    case Misuse => MisuseKeeps(s);
    case StartCall(k) => StartKeeps(s, k);
    case EndCall(k, extra) => EndKeeps(s, k, extra);
    case UserCallback(result) => InCallbackWasHandedOut(s.tx); UserCallbackKeeps(s, result);
    case DriverDrained => DriverDrainedKeeps(s);
    case OuterResumes => ResumeKeeps(s);
    case Outer(o) => OuterKeeps(s, o);
  }

  lemma MisuseKeeps(s: Session)
    requires Nested(s) && FailureMatches(s) && s.tx.handedOut
    ensures Nested(OnMisuse(s)) && FailureMatches(OnMisuse(s))
  {
  }

  lemma InCallbackWasHandedOut(tx: Tx)
    requires Inv(tx) && tx.phase.InCallback?
    ensures tx.handedOut
  {
  }

  lemma SessionStarts(records: nat)
    ensures SessionInv(Begin(records))
  {
    StartInv(records);
  }

  lemma {:induction false} EverySessionIsNested(records: nat, events: seq<Event>)
    ensures SessionInv(Steps(Begin(records), events))
  {
    hide SessionInv, Step;
    if events == [] {
      SessionStarts(records);
    } else {
      var before, e := Steps(Begin(records), events[..|events| - 1]), events[|events| - 1];
      EverySessionIsNested(records, events[..|events| - 1]);
      if CanHappen(before, e) { SessionStepKeeps(before, e); } else { NoStep(before, e); }
    }
  }

  lemma NoStep(s: Session, e: Event)
    requires !CanHappen(s, e)
    ensures Step(s, e) == s
  {
  }

  // ----- the promises

  ghost predicate SessionReached(records: nat, s: Session) {
    exists events :: Steps(Begin(records), events) == s
  }

  lemma SessionReachedFacts(records: nat, s: Session)
    requires SessionReached(records, s)
    ensures SessionInv(s) && Reached(records, s.tx)
  {
    hide SessionInv, Run;
    var events :| Steps(Begin(records), events) == s;
    EverySessionIsNested(records, events);
    SessionRefinesTransaction(records, events);
  }

  /** Whatever the driver admits is admitted by the transaction as soon as it starts: no Kysely
      statement or append is ever turned away half-way. */
  lemma StartedCallsAreAdmitted(records: nat, s: Session, k: nat)
    requires SessionReached(records, s) && CanHappen(s, StartCall(k))
    ensures Step(s, StartCall(k)).calls[k] == Delegated(|s.tx.tasks|)
    ensures Step(s, StartCall(k)).tx.tasks == s.tx.tasks + [Task(if s.calls[k].append then Append else Query, Queued)]
  {
    SessionReachedFacts(records, s);
    StartKeepsCalls(s, k);
  }

  /** Every call on the transaction made through Kysely is admitted before the outer callback
      closes and settles before it: COMMIT or ROLLBACK is decided with none of it in flight. */
  lemma CallsSettleBeforeTheCallback(records: nat, s: Session, i: nat, j: nat)
    requires SessionReached(records, s)
    requires i < |s.tx.log| && s.tx.log[i].CallbackSettled?
    requires j < |s.tx.log| && s.tx.log[j].Admitted? && !s.tx.log[j].kind.Declared?
    ensures j < i && Settles(s.tx.log[..i], s.tx.log[j].id)
  {
    hide Nested, FailureMatches, Matches, Steps;
    SessionReachedFacts(records, s);
    SettlesFirst(s.tx.records, s.tx.log, i, j);
  }

  lemma SettlesFirst(records: nat, log: seq<Entry>, i: nat, j: nat)
    requires Monitored(records, log) && QuietAtCallback(log)
    requires i < |log| && log[i].CallbackSettled?
    requires j < |log| && log[j].Admitted? && !log[j].kind.Declared?
    ensures j < i && Settles(log[..i], log[j].id)
  {
    hide QuietAtCallback, Observed;
    if i < j { UserCallsComeFirst(records, log, i, j); }
    SettledByThen(records, log, i, j);
  }

  lemma UserCallsComeFirst(records: nat, log: seq<Entry>, i: nat, j: nat)
    requires Monitored(records, log) && i < j < |log| && log[i].CallbackSettled?
    ensures log[j].Admitted? ==> log[j].kind.Declared?
  {
    hide Observed;
    assert log[..j][i] == log[i];
    At(records, log, j);
  }

  lemma SettledByThen(records: nat, log: seq<Entry>, i: nat, j: nat)
    requires Monitored(records, log) && QuietAtCallback(log)
    requires j < i < |log| && log[i].CallbackSettled? && log[j].Admitted?
    ensures Settles(log[..i], log[j].id)
  {
    hide Observed, Monitored;
    At(records, log, i);
    assert log[..i][j] == log[j];
  }

  lemma FailedCallbackNeverCommits(records: nat, log: seq<Entry>, error: Error)
    requires Produced(records, log) && CallbackSettled(Failure(error)) in log
    ensures CommitSent !in log
  {
    var j: nat :| j < |log| && log[j] == CallbackSettled(Failure(error));
    forall i: nat | i < |log| ensures log[i] != CommitSent {
      if log[i] == CommitSent { CommitNeedsAllWork(records, log, i, j); }
    }
  }

  lemma NoCommitInsideCallback(s: Tx)
    requires Inv(s) && s.phase.InCallback?
    ensures CommitSent !in s.log
  {
    FactsHold(s.records, s.log);
  }

  /** A failure the driver has recorded — a failed statement or append, awaited or not, a thrown
      callback, or an unsupported operation — means COMMIT is never sent. */
  lemma DriverFailureNeverCommits(records: nat, s: Session)
    requires SessionReached(records, s) && s.driver.failure.Some?
    ensures CommitSent !in s.tx.log
  {
    SessionReachedFacts(records, s);
    if s.stage.Over? {
      assert Produced(records, s.tx.log) by {
        var events :| Run(Start(records), events) == s.tx;
      }
      FailedCallbackNeverCommits(records, s.tx.log, s.driver.failure.value);
    } else {
      NoCommitInsideCallback(s.tx);
    }
  }

  /** And a recorded failure is never forgotten, whatever happens next. */
  lemma {:induction false} DriverFailureSticks(s: Session, events: seq<Event>)
    requires s.driver.failure.Some?
    ensures Steps(s, events).driver.failure == s.driver.failure
  {
    if events != [] {
      DriverFailureSticks(s, events[..|events| - 1]);
      DriverFailureStays(Steps(s, events[..|events| - 1]), events[|events| - 1]);
    }
  }

  lemma DriverFailureStays(s: Session, e: Event)
    requires s.driver.failure.Some?
    ensures Step(s, e).driver.failure == s.driver.failure
  {
    hide Apply, OnViewCall, OnCallback;
  }

  /** An unsupported operation while the callback may still use the driver, and any call that
      ends badly, record a failure; so does a callback that throws. */
  lemma WhatPoisonsTheDriver(s: Session, e: Event)
    requires CanHappen(s, e)
    requires (e.Misuse? && s.driver.accepting)
             || (e.EndCall? && Step(s, e).calls[e.k].Ended? && Step(s, e).calls[e.k].failed.Some?)
             || (e.UserCallback? && e.result.Failure?)
    ensures Step(s, e).driver.failure.Some?
  {
  }

  /** After the driver's finish nothing reaches the transaction through it any more. */
  lemma NothingEscapes(records: nat, s: Session, e: Event)
    requires SessionReached(records, s) && (s.stage.Left? || s.stage.Over?) && !e.Outer? && !e.OuterResumes?
    ensures Step(s, e).tx == s.tx && Step(s, e).calls == s.calls
  {
    SessionReachedFacts(records, s);
    if e.StartCall? || e.EndCall? {
      if e.k < |s.calls| { assert CallMatches(s.calls[e.k], e.k, s.driver.pending, s.tx.tasks); }
    }
  }
}
