/** What the managed transaction's log has to do with the world: everything that reaches the
    function is on the log as it came, and the caller is told what is on the log. */
module OutboxReplies {
  import opened Outcomes
  import opened OutboxTransaction
  import opened OutboxGuarantees

  /** The line that an event from outside has to leave. */
  function Line(s: Tx, e: Event): Option<Entry> {
    match e
    case BeginReply(failed) => Some(BeginSettled(Map(failed)))
    case ViewCall(append) =>
      Some(if CallbackIsOver(s.log) then CallRefused else Admitted(|s.tasks|, if append then Append else Query))
    case Send(id) => Some(TaskSent(id))
    case Settle(id, cause) => Some(TaskSettled(id, Map(cause)))
    case ClientError(error) => Some(ClientErrored(error))
    case CallbackReply(Success(v)) => Some(CallbackSettled(Success(v)))
    case CallbackReply(Failure(cause)) => Some(CallbackSettled(Failure(AsError(cause))))
    case CommitReply(failed, _) => Some(CommitSettled(Map(failed)))
    case RollbackReply(failed, _) => Some(RollbackSettled(Map(failed)))
    case _ => None
  }

  predicate CallbackIsOver(log: seq<Entry>) {
    exists i | 0 <= i < |log| :: log[i].CallbackSettled?
  }

  /** The lines the function may write by itself; `release` is what releasing the client throws. */
  predicate Own(e: Event, line: Entry) {
    match line
    case Admitted(_, kind) => kind.Declared?
    case CommitSent => true
    case RollbackSent => true
    case Released(_, failed) => (e.CommitReply? || e.RollbackReply?) && failed == Map(e.release)
    case Finished(_) => true
    case _ => false
  }

  ghost predicate Logs(log: seq<Entry>, line: Option<Entry>, e: Event, longer: seq<Entry>) {
    var lines := log + (if line.Some? then [line.value] else []);
    lines <= longer && forall i | |lines| <= i < |longer| :: Own(e, longer[i])
  }

  lemma CallbackSeen(s: Tx)
    requires Inv(s)
    ensures s.handedOut ==> (s.callbackOpen <==> !CallbackIsOver(s.log))
  {
    FactsHold(s.records, s.log);
    if CallbackIsOver(s.log) {
      var i :| 0 <= i < |s.log| && s.log[i].CallbackSettled?;
      assert CallbackSettled(s.log[i].result) in s.log;
    }
  }

  lemma LogsReply(s: Tx, e: Event)
    requires Possible(s, e) && (e.CommitReply? || e.RollbackReply?)
    ensures Logs(s.log, Line(s, e), e, Apply(s, e).log)
  {
    match e
    case CommitReply(failed, release) =>
      var t := s.Note(CommitSettled(Map(failed)));
      if failed.Some? { assert Apply(s, e).log == t.log; }
      else { LogsRelease(t.(committed := true), release, e); }
    case RollbackReply(failed, release) =>
      var t := s.Note(RollbackSettled(Map(failed)));
      if failed.Some? {
        LogsRelease(t.(discard := Map(failed), cleanup := s.cleanup + [AsError(failed.value)]), release, e);
      } else { LogsRelease(t, release, e); }
  }

  lemma LogsRelease(s: Tx, release: Option<Thrown>, e: Event)
    requires (e.CommitReply? || e.RollbackReply?) && e.release == release
    ensures Logs(s.log, None, e, s.Release(release).log)
  {
  }

  lemma LogsCallback(s: Tx, e: Event)
    requires Possible(s, e) && e.CallbackReply? && s.scope.accepting
    ensures Logs(s.log, Line(s, e), e, Apply(s, e).log)
  {
    match e.result
    case Success(v) =>
      var noted := s.(callbackOpen := false, value := Some(v)).Note(CallbackSettled(Success(v)));
      LogsAppend(noted, 0, e);
    case Failure(cause) =>
      assert Apply(s, e).log == s.log + [CallbackSettled(Failure(AsError(cause)))];
  }

  lemma LogsAppend(s: Tx, k: nat, e: Event)
    ensures s.scope.accepting || k == s.records ==> Logs(s.log, None, e, s.AppendFrom(k).log)
  {
  }

  lemma LogsResumption(s: Tx)
    requires Possible(s, AppendResumes) && s.scope.accepting
    ensures Logs(s.log, None, AppendResumes, Apply(s, AppendResumes).log)
  {
    LogsAppend(s, s.phase.k + 1, AppendResumes);
  }

  lemma LogsBegin(s: Tx, e: Event)
    requires Possible(s, e) && e.BeginReply?
    ensures Logs(s.log, Line(s, e), e, Apply(s, e).log)
  {
  }

  lemma LogsDrain(s: Tx, e: Event)
    requires Possible(s, e) && (e.DrainResumes? || e.FinishResumes?)
    ensures Logs(s.log, Line(s, e), e, Apply(s, e).log)
  {
  }

  lemma LogsWork(s: Tx, e: Event)
    requires Possible(s, e) && (e.Send? || e.Settle? || e.ClientError?)
    ensures Logs(s.log, Line(s, e), e, Apply(s, e).log)
  {
  }

  lemma LogsCall(s: Tx, append: bool)
    requires s.handedOut && (s.callbackOpen <==> !CallbackIsOver(s.log)) && (s.callbackOpen ==> s.scope.accepting)
    ensures Logs(s.log, Line(s, ViewCall(append)), ViewCall(append), Apply(s, ViewCall(append)).log)
  {
  }

  lemma OpenViewOpenScope(s: Tx)
    requires Inv(s) && s.handedOut && s.callbackOpen
    ensures s.scope.accepting
  {
  }

  /** Every answer of the server, every settlement and error, and every call of the view is on the
      log as it came, right when it comes: a call is admitted exactly until the callback settles.
      Nothing else is ever written but the function's own sends, its release and its outcome. */
  lemma EverythingIsLogged(records: nat, s: Tx, e: Event)
    requires Reached(records, s) && Possible(s, e)
    ensures Logs(s.log, Line(s, e), e, Apply(s, e).log)
  {
    hide Logs, Apply, Possible, Line;
    ReachedIsInvariant(records, s);
    if e.ViewCall? { LogsViewCall(s, e.append); }
    else if e.Send? || e.Settle? || e.ClientError? { LogsWork(s, e); }
    else if e.CallbackReply? || e.AppendResumes? { LogsAppending(s, e); }
    else if e.CommitReply? || e.RollbackReply? { LogsReply(s, e); }
    else if e.BeginReply? { LogsBegin(s, e); }
    else { LogsDrain(s, e); }
  }

  lemma LogsAppending(s: Tx, e: Event)
    requires Inv(s) && Possible(s, e) && (e.CallbackReply? || e.AppendResumes?)
    ensures Logs(s.log, Line(s, e), e, Apply(s, e).log)
  {
    assert s.scope.accepting;
    hide Inv, Logs, Apply;
    if e.CallbackReply? { LogsCallback(s, e); } else { LogsResumption(s); }
  }

  lemma LogsViewCall(s: Tx, append: bool)
    requires Inv(s) && Possible(s, ViewCall(append))
    ensures Logs(s.log, Line(s, ViewCall(append)), ViewCall(append), Apply(s, ViewCall(append)).log)
  {
    CallbackSeen(s);
    if s.callbackOpen { OpenViewOpenScope(s); }
    hide Inv, Logs;
    LogsCall(s, append);
  }

  // ----- what the caller is told

  function Primary(outcome: Outcome): Option<Error> {
    match outcome
    case Rejected(error) => Some(error)
    case CleanupFailed(primary, _) => primary
    case _ => None
  }

  function Cleanup(outcome: Outcome): seq<Error> {
    if outcome.CleanupFailed? then outcome.cleanup else []
  }

  ghost predicate EndFacts(log: seq<Entry>, h: History) {
    && (forall f | CommitSettled(f) in log :: h.commit == Reply(f))
    && (forall f | RollbackSettled(f) in log :: h.rollback == Reply(f))
    && (h.rollback.Refused? ==> RollbackSettled(Some(h.rollback.error)) in log)
    && (h.released.Some? ==> exists d :: Released(d, h.released.value) in log)
    && (forall d, f | Released(d, f) in log :: h.released == Some(f))
    && (h.callback.Some? ==> h.begin == Some(None))
    && (!h.commit.Unsent? ==> h.callback.Some?)
  }

  lemma EndStep(records: nat, log: seq<Entry>, h: History, e: Entry)
    requires EndFacts(log, h) && Allowed(records, h, e)
    ensures EndFacts(log + [e], Observe(h, e))
  {
    var longer := log + [e];
    assert forall x :: x in longer <==> x in log || x == e;
    if e.Released? { assert Released(e.discard, e.failed) in longer; }
    else if h.released.Some? {
      var d :| Released(d, h.released.value) in log;
      assert Released(d, h.released.value) in longer;
    }
  }

  lemma {:induction false} EndFactsHold(records: nat, log: seq<Entry>)
    requires Monitored(records, log)
    ensures EndFacts(log, Observed(log))
  {
    hide Allowed, Observe;
    if log == [] {
      assert EndFacts([], NOTHING_YET);
    } else {
      hide EndFacts;
      var before, e := log[..|log| - 1], log[|log| - 1];
      PrefixMonitored(records, log, |log| - 1);
      EndFactsHold(records, before);
      assert log == before + [e];
      EndStep(records, before, Observed(before), e);
    }
  }

  lemma ClosedTells(s: Tx, h: History)
    requires Matches(s, h) && s.phase.Closed? && EndFacts(s.log, h) && CallbackFacts(s.log, h)
    ensures var outcome := s.phase.outcome;
            && (forall error :: BeginSettled(Some(error)) in s.log ==> Primary(outcome) == Some(error))
            && (forall error :: CommitSettled(Some(error)) in s.log ==> Primary(outcome) == Some(error))
            && (CommitSettled(None) in s.log ==> Primary(outcome).None?)
            && Cleanup(outcome) == CleanupErrors(h)
            && (outcome.CleanupFailed? <==> CleanupErrors(h) != [])
  {
    hide TasksMatch, ErrorsMatch;
    forall error | BeginSettled(Some(error)) in s.log ensures Primary(s.phase.outcome) == Some(error) {
      assert h.begin == Some(Some(error));
    }
    forall error | CommitSettled(Some(error)) in s.log ensures Primary(s.phase.outcome) == Some(error) {
      assert h.commit == Refused(error);
    }
  }

  /** What the caller is told when the transaction is over: an error of BEGIN or of COMMIT is the
      primary one, a COMMIT that was acknowledged leaves none, and the errors of ROLLBACK and of the
      release come after it, in this order. */
  lemma TheCallerIsTold(records: nat, s: Tx, rollback: seq<Error>, release: seq<Error>)
    requires Reached(records, s) && s.phase.Closed?
    requires |rollback| <= 1 && forall error :: error in rollback <==> RollbackSettled(Some(error)) in s.log
    requires |release| <= 1 && forall error :: error in release <==> exists d :: Released(d, Some(error)) in s.log
    ensures var outcome := s.phase.outcome;
            && (forall error :: BeginSettled(Some(error)) in s.log ==> Primary(outcome) == Some(error))
            && (forall error :: CommitSettled(Some(error)) in s.log ==> Primary(outcome) == Some(error))
            && (CommitSettled(None) in s.log ==> Primary(outcome).None?)
            && Cleanup(outcome) == rollback + release
            && (outcome.CleanupFailed? <==> rollback + release != [])
  {
    hide Matches, Monitored, Run, Observed, CleanupErrors, CallbackFacts, TaskFacts, WireFacts, DeclaredFacts, DoneFacts;
    ReachedIsInvariant(records, s);
    FactsHold(records, s.log);
    EndFactsHold(records, s.log);
    ClosedTells(s, Observed(s.log));
    SameErrors(s.log, Observed(s.log), rollback, release);
  }

  lemma SameErrors(log: seq<Entry>, h: History, rollback: seq<Error>, release: seq<Error>)
    requires EndFacts(log, h)
    requires |rollback| <= 1 && forall error :: error in rollback <==> RollbackSettled(Some(error)) in log
    requires |release| <= 1 && forall error :: error in release <==> exists d :: Released(d, Some(error)) in log
    ensures CleanupErrors(h) == rollback + release
  {
    Same(rollback, if h.rollback.Refused? then [h.rollback.error] else []);
    Same(release, match h.released case Some(Some(error)) => [error] case _ => []);
  }

  lemma Same(a: seq<Error>, b: seq<Error>)
    requires |a| <= 1 && |b| <= 1 && forall error :: error in a <==> error in b
    ensures a == b
  {
    if a != [] { assert a[0] in b; }
    if b != [] { assert b[0] in a; }
  }
}
