/** The managed PostgreSQL outbox transaction (postgres-outbox-transaction.ts).

    The event loop is a scheduler that may deliver any event at any time; an event that is
    not possible in the current state changes nothing, so a sequence of events is an arbitrary
    interleaving.  Every step appends what became visible to a log, and `Allowed` is a
    specification of that log alone: it never looks at the scope's or the function's variables. */
module OutboxTransaction {
  import opened Outcomes
  import opened Gates

  /** Values are only passed through, so an identity is enough. */
  type Value = nat

  /** What JavaScript code can throw, and what the code records for it. */
  datatype Error = Raised(id: nat) | TransactionFailed(cause: nat) | CallbackFinished | Unsupported
  datatype Thrown = AnError(error: Error) | NotAnError(id: nat)

  function AsError(cause: Thrown): Error {
    match cause
    case AnError(error) => error
    case NotAnError(id) => TransactionFailed(id)
  }

  /** Work admitted by the scope: the callback's own calls, or the k-th declared record. */
  datatype Kind = Query | Append | Declared(k: nat)
  datatype Stage = Queued | OnTheWire | Done(failed: Option<Error>)
  datatype Task = Task(kind: Kind, stage: Stage)

  datatype Outcome =
    | Returned(value: Option<Value>)
    | Rejected(error: Error)
    | CleanupFailed(primary: Option<Error>, cleanup: seq<Error>)
    | NotCommitted

  /** The await the function is suspended at. */
  datatype Phase =
    | Beginning
    | InCallback
    | Appending(k: nat, id: nat)
    | Draining
    | Drained(failed: Option<Error>)
    | Committing
    | DrainingAgain
    | DrainedAgain
    | RollingBack
    | Closed(outcome: Outcome)

  datatype Entry =
    | BeginSettled(failed: Option<Error>)
    | CallbackSettled(result: Result<Value, Error>)
    | Admitted(id: nat, kind: Kind)
    | CallRefused
    | TaskSent(id: nat)
    | TaskSettled(id: nat, failed: Option<Error>)
    | ClientErrored(error: Error)
    | CommitSent
    | CommitSettled(failed: Option<Error>)
    | RollbackSent
    | RollbackSettled(failed: Option<Error>)
    | Released(discard: Option<Error>, failed: Option<Error>)
    | Finished(outcome: Outcome)

  datatype Tx = Tx(
    records: nat,
    phase: Phase,
    scope: Gate<Error>,
    tasks: seq<Task>,
    waiting: set<nat>,
    handedOut: bool,
    callbackOpen: bool,
    primary: Option<Error>,
    discard: Option<Error>,
    cleanup: seq<Error>,
    value: Option<Value>,
    committed: bool,
    commitAttempted: bool,
    log: seq<Entry>
  ) {
    function Note(e: Entry): Tx {
      this.(log := log + [e])
    }

    /** `execute`: a closed scope refuses, an open one numbers and tracks the work. */
    function Execute(kind: Kind): Tx {
      if !scope.accepting then Note(CallRefused)
      else this.(scope := scope.Admit(|tasks|), tasks := tasks + [Task(kind, Queued)])
           .Note(Admitted(|tasks|, kind))
    }

    /** `finish` up to its await: close, and wait for what is in flight now. */
    function Finish(next: Phase): Tx {
      this.(scope := scope.Close(), waiting := scope.pending, phase := next)
    }

    /** One turn of the loop over the declared records. */
    function AppendFrom(k: nat): Tx {
      if k == records then Finish(Draining)
      else if !scope.accepting then
        Execute(Declared(k)).(scope := scope.Poison(CallbackFinished)).Finish(Draining)
      else Execute(Declared(k)).(phase := Appending(k, |tasks|))
    }

    function Fail(error: Error): Tx {
      this.(primary := Some(error), discard := if commitAttempted then Some(error) else discard)
      .Finish(DrainingAgain)
    }

    /** Everything after the last await: release the client and settle the result. */
    function Release(failed: Option<Thrown>): Tx {
      var error := if failed.Some? then Some(AsError(failed.value)) else None;
      var errors := if error.Some? then cleanup + [error.value] else cleanup;
      var outcome :=
        if errors != [] then CleanupFailed(primary, errors)
        else if primary.Some? then Rejected(primary.value)
        else if !committed then NotCommitted
        else Returned(value);
      this.(cleanup := errors, phase := Closed(outcome), callbackOpen := false)
      .Note(Released(discard, error)).Note(Finished(outcome))
    }
  }

  function Start(records: nat): Tx {
    Tx(records, Beginning, Open(), [], {}, false, true, None, None, [], None, false, false, [])
  }

  // ----- the steps, one per event the scheduler can deliver

  datatype Event =
    | BeginReply(failed: Option<Thrown>)
    | ViewCall(append: bool)
    | Send(id: nat)
    | Settle(id: nat, cause: Option<Thrown>)
    | ClientError(error: Error)
    | CallbackReply(result: Result<Value, Thrown>)
    | AppendResumes
    | DrainResumes
    | FinishResumes
    | CommitReply(failed: Option<Thrown>, release: Option<Thrown>)
    | RollbackReply(failed: Option<Thrown>, release: Option<Thrown>)

  predicate Possible(s: Tx, e: Event) {
    match e
    case BeginReply(_) => s.phase.Beginning?
    case ViewCall(_) => s.handedOut
    case Send(id) => id < |s.tasks| && s.tasks[id].stage.Queued?
    case Settle(id, cause) =>
      && id < |s.tasks| && !s.tasks[id].stage.Done?
      && (cause.None? ==> s.tasks[id].stage.OnTheWire?)
    case ClientError(_) => !s.phase.Closed?
    case CallbackReply(_) => s.phase.InCallback?
    case AppendResumes => s.phase.Appending? && s.phase.id < |s.tasks| && s.tasks[s.phase.id].stage.Done?
    case DrainResumes => (s.phase.Draining? || s.phase.DrainingAgain?) && s.waiting !! s.scope.pending
    case FinishResumes => s.phase.Drained? || s.phase.DrainedAgain?
    case CommitReply(_, _) => s.phase.Committing?
    case RollbackReply(_, _) => s.phase.RollingBack?
  }

  function Map(cause: Option<Thrown>): Option<Error> {
    if cause.Some? then Some(AsError(cause.value)) else None
  }

  function OnBegin(s: Tx, failed: Option<Thrown>): Tx {
    var noted := s.Note(BeginSettled(Map(failed)));
    if failed.Some? then noted.Fail(AsError(failed.value))
    else noted.(phase := InCallback, handedOut := true)
  }

  function OnViewCall(s: Tx, append: bool): Tx {
    if !s.callbackOpen then s.Note(CallRefused) else s.Execute(if append then Append else Query)
  }

  function OnSend(s: Tx, id: nat): Tx
    requires id < |s.tasks|
  {
    s.(tasks := s.tasks[id := s.tasks[id].(stage := OnTheWire)]).Note(TaskSent(id))
  }

  function OnSettle(s: Tx, id: nat, cause: Option<Thrown>): Tx
    requires id < |s.tasks|
  {
    s.(tasks := s.tasks[id := s.tasks[id].(stage := Done(Map(cause)))],
       scope := s.scope.Settle(id, Map(cause))).Note(TaskSettled(id, Map(cause)))
  }

  function OnClientError(s: Tx, error: Error): Tx {
    s.(discard := Some(error), scope := s.scope.Poison(error)).Note(ClientErrored(error))
  }

  function OnCallback(s: Tx, result: Result<Value, Thrown>): Tx {
    match result
    case Success(v) =>
      s.(callbackOpen := false, value := Some(v)).Note(CallbackSettled(Success(v))).AppendFrom(0)
    case Failure(cause) =>
      s.(callbackOpen := false, scope := s.scope.Poison(AsError(cause)))
      .Note(CallbackSettled(Failure(AsError(cause)))).Finish(Draining)
  }

  function OnAppendResumed(s: Tx): Tx
    requires Possible(s, AppendResumes)
  {
    match s.tasks[s.phase.id].stage.failed
    case None => s.AppendFrom(s.phase.k + 1)
    case Some(error) => s.(scope := s.scope.Poison(error)).Finish(Draining)
  }

  function OnDrained(s: Tx): Tx {
    s.(phase := if s.phase.Draining? then Drained(s.scope.failure) else DrainedAgain)
  }

  function OnFinished(s: Tx): Tx
    requires Possible(s, FinishResumes)
  {
    match s.phase
    case Drained(None) => s.(commitAttempted := true, phase := Committing).Note(CommitSent)
    case Drained(Some(error)) => s.Fail(error)
    case DrainedAgain =>
      s.(primary := if s.primary.None? then s.scope.failure else s.primary,
         callbackOpen := false, phase := RollingBack).Note(RollbackSent)
  }

  function OnCommit(s: Tx, failed: Option<Thrown>, release: Option<Thrown>): Tx {
    var noted := s.Note(CommitSettled(Map(failed)));
    if failed.Some? then noted.Fail(AsError(failed.value))
    else noted.(committed := true).Release(release)
  }

  function OnRollback(s: Tx, failed: Option<Thrown>, release: Option<Thrown>): Tx {
    var noted := s.Note(RollbackSettled(Map(failed)));
    if failed.Some? then
      noted.(discard := Map(failed), cleanup := s.cleanup + [AsError(failed.value)]).Release(release)
    else noted.Release(release)
  }

  function Apply(s: Tx, e: Event): Tx {
    if !Possible(s, e) then s
    else
      match e
      case BeginReply(failed) => OnBegin(s, failed)
      case ViewCall(append) => OnViewCall(s, append)
      case Send(id) => OnSend(s, id)
      case Settle(id, cause) => OnSettle(s, id, cause)
      case ClientError(error) => OnClientError(s, error)
      case CallbackReply(result) => OnCallback(s, result)
      case AppendResumes => OnAppendResumed(s)
      case DrainResumes => OnDrained(s)
      case FinishResumes => OnFinished(s)
      case CommitReply(failed, release) => OnCommit(s, failed, release)
      case RollbackReply(failed, release) => OnRollback(s, failed, release)
  }

  function Run(s: Tx, events: seq<Event>): Tx {
    if events == [] then s else Apply(Run(s, events[..|events| - 1]), events[|events| - 1])
  }

  // ----- the specification: what a log may contain, in terms of the log so far

  datatype Wire = Unsent | InFlight | Acknowledged | Refused(error: Error)

  /** What an observer of the log knows. */
  datatype History = History(
    begin: Option<Option<Error>>,
    callback: Option<Result<Value, Error>>,
    kinds: seq<Kind>,
    sent: set<nat>,
    unsettled: set<nat>,
    declared: nat,
    declaredDone: nat,
    firstFailure: Option<Error>,
    workFailed: bool,
    clientFault: Option<Error>,
    commit: Wire,
    rollback: Wire,
    released: Option<Option<Error>>,
    finished: bool
  )

  const NOTHING_YET := History(None, None, [], {}, {}, 0, 0, None, false, None, Unsent, Unsent, None, false)

  function First(earlier: Option<Error>, later: Option<Error>): Option<Error> {
    if earlier.Some? then earlier else later
  }

  function Reply(failed: Option<Error>): Wire {
    if failed.Some? then Refused(failed.value) else Acknowledged
  }

  function Observe(h: History, e: Entry): History {
    match e
    case BeginSettled(failed) => h.(begin := Some(failed))
    case CallbackSettled(Success(v)) => h.(callback := Some(Success(v)))
    case CallbackSettled(Failure(error)) =>
      h.(callback := Some(Failure(error)), workFailed := true, firstFailure := First(h.firstFailure, Some(error)))
    case Admitted(id, kind) =>
      h.(kinds := h.kinds + [kind], unsettled := h.unsettled + {id},
         declared := if kind.Declared? then h.declared + 1 else h.declared)
    case CallRefused => h
    case TaskSent(id) => h.(sent := h.sent + {id})
    case TaskSettled(id, None) =>
      h.(unsettled := h.unsettled - {id},
         declaredDone := if id < |h.kinds| && h.kinds[id].Declared? then h.declaredDone + 1 else h.declaredDone)
    case TaskSettled(id, Some(error)) =>
      h.(unsettled := h.unsettled - {id}, workFailed := true, firstFailure := First(h.firstFailure, Some(error)))
    case ClientErrored(error) =>
      h.(clientFault := Some(error), firstFailure := First(h.firstFailure, Some(error)))
    case CommitSent => h.(commit := InFlight)
    case CommitSettled(failed) =>
      h.(commit := Reply(failed), clientFault := if failed.Some? then failed else h.clientFault)
    case RollbackSent => h.(rollback := InFlight)
    case RollbackSettled(failed) =>
      h.(rollback := Reply(failed), clientFault := if failed.Some? then failed else h.clientFault)
    case Released(_, failed) => h.(released := Some(failed))
    case Finished(_) => h.(finished := true)
  }

  function Observed(log: seq<Entry>): History {
    if log == [] then NOTHING_YET else Observe(Observed(log[..|log| - 1]), log[|log| - 1])
  }

  /** The error the caller is told: BEGIN's, else COMMIT's, else the first failure recorded. */
  function Reported(h: History): Option<Error> {
    match h.begin
    case Some(Some(error)) => Some(error)
    case _ =>
      match h.commit
      case Acknowledged => None
      case Refused(error) => Some(error)
      case _ => h.firstFailure
  }

  function CleanupErrors(h: History): seq<Error> {
    (if h.rollback.Refused? then [h.rollback.error] else [])
    + (match h.released case Some(Some(error)) => [error] case _ => [])
  }

  /** How the caller's promise has to settle. */
  function Expected(h: History): Outcome {
    if CleanupErrors(h) != [] then CleanupFailed(Reported(h), CleanupErrors(h))
    else if Reported(h).Some? then Rejected(Reported(h).value)
    else
      match h.callback
      case Some(Success(v)) => Returned(Some(v))
      case _ => NotCommitted
  }

  predicate Quiet(h: History) {
    h.commit.Unsent? && h.rollback.Unsent? && h.released.None?
  }

  predicate Allowed(records: nat, h: History, e: Entry) {
    match e
    case BeginSettled(_) => h == NOTHING_YET || (h == NOTHING_YET.(clientFault := h.clientFault, firstFailure := h.firstFailure))
    case CallbackSettled(_) => h.begin == Some(None) && h.callback.None? && Quiet(h) && h.declared == 0
    case Admitted(id, kind) =>
      && Quiet(h) && id == |h.kinds|
      && (match kind
          case Declared(k) =>
            && h.callback.Some? && h.callback.value.Success?
            && k == h.declared == h.declaredDone && k < records
          case _ => h.begin == Some(None) && h.callback.None?)
    case CallRefused => h.callback.Some?
    case TaskSent(id) => Quiet(h) && id in h.unsettled && id !in h.sent
    case TaskSettled(id, failed) => Quiet(h) && id in h.unsettled && (failed.None? ==> id in h.sent)
    case ClientErrored(_) => h.released.None?
    case CommitSent =>
      && Quiet(h) && h.callback.Some? && h.callback.value.Success?
      && h.unsettled == {} && !h.workFailed && h.declared == h.declaredDone == records
    case CommitSettled(_) => h.commit.InFlight? && h.rollback.Unsent? && h.released.None?
    case RollbackSent =>
      && h.rollback.Unsent? && h.released.None? && h.unsettled == {}
      && (h.commit.Unsent? || h.commit.Refused?)
    case RollbackSettled(_) => h.rollback.InFlight? && h.released.None?
    case Released(discard, _) =>
      && h.released.None? && h.unsettled == {} && discard == h.clientFault
      && (h.commit.Acknowledged? <==> h.rollback.Unsent?)
      && !h.commit.InFlight? && !h.rollback.InFlight?
    case Finished(outcome) =>
      && h.released.Some? && !h.finished && !outcome.NotCommitted?
      && (outcome.Returned? ==> h.commit.Acknowledged?)
      && outcome == Expected(h)
  }

  ghost predicate Monitored(records: nat, log: seq<Entry>) {
    forall i :: 0 <= i < |log| ==> Allowed(records, Observed(log[..i]), log[i])
  }

  lemma MonitorNote(records: nat, log: seq<Entry>, e: Entry)
    requires Monitored(records, log) && Allowed(records, Observed(log), e)
    ensures Monitored(records, log + [e])
    ensures Observed(log + [e]) == Observe(Observed(log), e)
  {
    var longer := log + [e];
    assert longer[..|log|] == log;
    forall i | 0 <= i < |longer| ensures Allowed(records, Observed(longer[..i]), longer[i]) {
      if i < |log| { assert longer[..i] == log[..i]; }
    }
  }

  // ----- the invariant that ties the code's variables to what the log shows

  ghost predicate TasksMatch(s: Tx, h: History) {
    && |h.kinds| == |s.tasks|
    && s.scope.pending == h.unsettled
    && (forall id <- h.unsettled :: id < |s.tasks|)
    && (forall id <- h.sent :: id < |s.tasks|)
    && (forall id | 0 <= id < |s.tasks| ::
          TaskMatches(s.tasks[id], id, h, s.phase))
  }

  ghost predicate TaskMatches(task: Task, id: nat, h: History, phase: Phase)
    requires id < |h.kinds|
  {
    && task.kind == h.kinds[id]
    && (id in h.unsettled <==> !task.stage.Done?)
    && (task.stage.Queued? ==> id !in h.sent)
    && (task.stage.OnTheWire? ==> id in h.sent)
    && (task.kind.Declared? && !task.stage.Done? ==> phase.Appending? && phase.id == id)
  }

  ghost predicate WorkDone(s: Tx, h: History) {
    && !h.workFailed && h.unsettled == {} && h.declared == h.declaredDone == s.records
    && h.callback.Some? && h.callback.value.Success?
  }

  ghost predicate PhaseMatches(s: Tx, h: History) {
    && (s.phase.Beginning? <==> h.begin.None?)
    && (s.handedOut <==> h.begin == Some(None))
    && (s.handedOut ==> (s.callbackOpen <==> h.callback.None?) && (h.callback.None? <==> s.phase.InCallback?))
    && (s.phase.Beginning? ==> s.callbackOpen)
    && (!s.handedOut ==> s.tasks == [] && h.callback.None?)
    && (s.committed <==> h.commit.Acknowledged?)
    && (s.phase.Committing? <==> h.commit.InFlight?)
    && (s.phase.RollingBack? <==> h.rollback.InFlight?)
    && (s.phase.Closed? <==> h.released.Some?)
    && (s.phase.Closed? <==> h.finished)
    && (s.commitAttempted <==> !h.commit.Unsent?)
    && (!s.phase.RollingBack? && !s.phase.Closed? ==> h.rollback.Unsent?)
    && (!s.phase.Closed? ==> s.cleanup == [] && !s.committed)
    && (match s.phase
        case Beginning => s.scope.accepting && h == NOTHING_YET.(clientFault := h.clientFault, firstFailure := h.firstFailure)
        case InCallback => s.scope.accepting && s.handedOut && h.callback.None? && h.declared == h.declaredDone == 0
        case Appending(k, id) =>
          && s.scope.accepting && s.handedOut && k < s.records && id < |s.tasks|
          && h.callback.Some? && h.callback.value.Success?
          && s.tasks[id].kind == Declared(k) && h.declared == k + 1
          && h.declaredDone == (if s.tasks[id].stage == Done(None) then k + 1 else k)
          && (s.tasks[id].stage.Done? && s.tasks[id].stage.failed.Some? ==> h.workFailed)
        case Draining =>
          && !s.scope.accepting && s.handedOut && h.callback.Some? && h.unsettled <= s.waiting
          && (h.workFailed || (h.callback.value.Success? && h.declared == h.declaredDone == s.records))
        case Drained(failed) =>
          && !s.scope.accepting && s.handedOut && h.callback.Some? && h.unsettled == {}
          && (failed.None? ==> WorkDone(s, h)) && (failed.Some? ==> failed == h.firstFailure)
        case Committing => !s.scope.accepting && s.handedOut && WorkDone(s, h)
        case DrainingAgain =>
          !s.scope.accepting && h.unsettled <= s.waiting && (h.commit.Unsent? || h.unsettled == {})
        case DrainedAgain => !s.scope.accepting && h.unsettled == {}
        case RollingBack => !s.scope.accepting && h.unsettled == {}
        case Closed(outcome) =>
          && !s.scope.accepting && h.unsettled == {} && outcome == Expected(h) && !outcome.NotCommitted?
          && (outcome.Returned? ==> h.commit.Acknowledged?)
          && (h.commit.Acknowledged? ==> h.rollback.Unsent? && s.handedOut)
          && (h.commit.Acknowledged? || Reported(h).Some?))
  }

  ghost predicate ErrorsMatch(s: Tx, h: History) {
    && s.scope.failure == h.firstFailure
    && s.discard == h.clientFault
    && (h.workFailed ==> h.firstFailure.Some?)
    && (h.callback.Some? && h.callback.value.Success? ==> s.value == Some(h.callback.value.value))
    && (s.phase.DrainingAgain? || s.phase.DrainedAgain? || s.phase.RollingBack? ==>
          s.primary.Some? && s.primary == Reported(h) && !s.committed)
    && (s.phase.Committing? ==> s.primary.None?)
    && (Early(s.phase) ==> s.primary.None? && h.commit.Unsent?)
  }

  predicate Early(phase: Phase) {
    phase.Beginning? || phase.InCallback? || phase.Appending? || phase.Draining? || phase.Drained?
  }

  ghost predicate Matches(s: Tx, h: History) {
    TasksMatch(s, h) && PhaseMatches(s, h) && ErrorsMatch(s, h)
  }

  ghost predicate Inv(s: Tx) {
    Monitored(s.records, s.log) && Matches(s, Observed(s.log))
  }

  // ----- every step may write what it writes, and keeps the invariant

  lemma SendMatches(s: Tx, h: History, id: nat)
    requires Matches(s, h) && Possible(s, Send(id))
    ensures Allowed(s.records, h, TaskSent(id))
    ensures Matches(OnSend(s, id), Observe(h, TaskSent(id)))
  {
  }

  lemma SettleMatches(s: Tx, h: History, id: nat, cause: Option<Thrown>)
    requires Matches(s, h) && Possible(s, Settle(id, cause))
    ensures Allowed(s.records, h, TaskSettled(id, Map(cause)))
    ensures Matches(OnSettle(s, id, cause), Observe(h, TaskSettled(id, Map(cause))))
  {
  }

  lemma ClientErrorMatches(s: Tx, h: History, error: Error)
    requires Matches(s, h) && !s.phase.Closed?
    ensures Allowed(s.records, h, ClientErrored(error))
    ensures Matches(OnClientError(s, error), Observe(h, ClientErrored(error)))
  {
  }

  lemma BeginMatches(s: Tx, h: History, failed: Option<Thrown>)
    requires Matches(s, h) && s.phase.Beginning?
    ensures Allowed(s.records, h, BeginSettled(Map(failed)))
    ensures Matches(OnBegin(s, failed), Observe(h, BeginSettled(Map(failed))))
  {
  }

  lemma ViewCallMatches(s: Tx, h: History, append: bool)
    requires Matches(s, h) && s.handedOut
    ensures !s.callbackOpen ==> Allowed(s.records, h, CallRefused) && Matches(OnViewCall(s, append), h)
    ensures s.callbackOpen ==>
              var e := Admitted(|s.tasks|, if append then Append else Query);
              && OnViewCall(s, append).log == s.log + [e]
              && Allowed(s.records, h, e) && Matches(OnViewCall(s, append), Observe(h, e))
  {
  }

  /** Between two turns of the append loop: the records before `k` are appended, and no
      declared record is in flight. */
  ghost predicate Ready(s: Tx, h: History, k: nat) {
    && k == h.declared == h.declaredDone && k <= s.records
    && TasksMatch(s.(phase := Draining), h)
    && s.scope.accepting && s.handedOut && !s.callbackOpen && !s.committed && !s.commitAttempted
    && h.begin == Some(None) && h.callback.Some? && h.callback.value.Success?
    && s.value == Some(h.callback.value.value)
    && Quiet(h) && !h.finished && s.primary.None? && s.cleanup == []
    && s.scope.failure == h.firstFailure && s.discard == h.clientFault
    && (h.workFailed ==> h.firstFailure.Some?)
  }

  lemma AppendFromMatches(s: Tx, h: History, k: nat)
    requires Ready(s, h, k)
    ensures k == s.records ==> s.AppendFrom(k).log == s.log && Matches(s.AppendFrom(k), h)
    ensures k < s.records ==>
              var e := Admitted(|s.tasks|, Declared(k));
              && s.AppendFrom(k).log == s.log + [e]
              && Allowed(s.records, h, e) && Matches(s.AppendFrom(k), Observe(h, e))
  {
  }

  lemma CallbackMatches(s: Tx, h: History, v: Value)
    requires Matches(s, h) && s.phase.InCallback?
    ensures Allowed(s.records, h, CallbackSettled(Success(v)))
    ensures Ready(s.(callbackOpen := false, value := Some(v)).Note(CallbackSettled(Success(v))),
                  Observe(h, CallbackSettled(Success(v))), 0)
  {
  }

  lemma CallbackThrowMatches(s: Tx, h: History, cause: Thrown)
    requires Matches(s, h) && s.phase.InCallback?
    ensures Allowed(s.records, h, CallbackSettled(Failure(AsError(cause))))
    ensures Matches(OnCallback(s, Failure(cause)), Observe(h, CallbackSettled(Failure(AsError(cause)))))
  {
  }

  lemma AppendResumedMatches(s: Tx, h: History)
    requires Matches(s, h) && Possible(s, AppendResumes)
    ensures var failed := s.tasks[s.phase.id].stage.failed;
            && (failed.None? ==> Ready(s, h, s.phase.k + 1))
            && (failed.Some? ==> OnAppendResumed(s).log == s.log && Matches(OnAppendResumed(s), h))
  {
  }

  lemma DrainedMatches(s: Tx, h: History)
    requires Matches(s, h) && Possible(s, DrainResumes)
    ensures Matches(OnDrained(s), h)
  {
  }

  lemma FinishedMatches(s: Tx, h: History)
    requires Matches(s, h) && Possible(s, FinishResumes)
    ensures match s.phase
            case Drained(None) => Allowed(s.records, h, CommitSent) && Matches(OnFinished(s), Observe(h, CommitSent))
            case Drained(Some(_)) => OnFinished(s).log == s.log && Matches(OnFinished(s), h)
            case DrainedAgain => Allowed(s.records, h, RollbackSent) && Matches(OnFinished(s), Observe(h, RollbackSent))
  {
    match s.phase
    case Drained(None) => CommitBegins(s, h);
    case Drained(Some(_)) => hide Allowed, Observe;
    case DrainedAgain => RollbackBegins(s, h);
  }

  lemma CommitBegins(s: Tx, h: History)
    requires Matches(s, h) && s.phase == Drained(None)
    ensures Allowed(s.records, h, CommitSent) && Matches(OnFinished(s), Observe(h, CommitSent))
  {
  }

  lemma RollbackBegins(s: Tx, h: History)
    requires Matches(s, h) && s.phase.DrainedAgain?
    ensures Allowed(s.records, h, RollbackSent) && Matches(OnFinished(s), Observe(h, RollbackSent))
  {
  }

  /** The last stretch: everything is drained and the transaction has been ended one way. */
  ghost predicate Ending(s: Tx, h: History) {
    && !s.phase.Appending? && TasksMatch(s, h) && !s.scope.accepting && h.unsettled == {}
    && h.released.None? && !h.finished && h.begin.Some? && !s.phase.Beginning?
    && (s.handedOut <==> h.begin == Some(None)) && (s.handedOut ==> h.callback.Some?)
    && (!s.handedOut ==> s.tasks == [] && h.callback.None?)
    && (s.commitAttempted <==> !h.commit.Unsent?)
    && !h.commit.InFlight? && !h.rollback.InFlight?
    && (s.committed <==> h.commit.Acknowledged?) && (s.committed <==> h.rollback.Unsent?)
    && s.discard == h.clientFault && s.scope.failure == h.firstFailure
    && (h.workFailed ==> h.firstFailure.Some?)
    && s.primary == Reported(h) && (s.committed <==> s.primary.None?)
    && s.cleanup == (if h.rollback.Refused? then [h.rollback.error] else [])
    && (s.committed ==> h.callback.Some? && h.callback.value.Success?)
    && (h.callback.Some? && h.callback.value.Success? ==> s.value == Some(h.callback.value.value))
  }

  lemma ReleaseMatches(s: Tx, h: History, failed: Option<Thrown>)
    requires Ending(s, h)
    ensures var first := Released(s.discard, Map(failed)); var last := Finished(s.Release(failed).phase.outcome);
            && s.Release(failed).log == s.log + [first] + [last]
            && Allowed(s.records, h, first) && Allowed(s.records, Observe(h, first), last)
            && Matches(s.Release(failed), Observe(Observe(h, first), last))
  {
    ReleaseIsAllowed(s, h, failed);
    ReleasedMatches(s, h, failed);
    hide Matches, Allowed, Ending, Observe;
  }

  lemma ReleaseIsAllowed(s: Tx, h: History, failed: Option<Thrown>)
    requires Ending(s, h)
    ensures var first := Released(s.discard, Map(failed)); var last := Finished(s.Release(failed).phase.outcome);
            Allowed(s.records, h, first) && Allowed(s.records, Observe(h, first), last)
  {
  }

  lemma ReleasedMatches(s: Tx, h: History, failed: Option<Thrown>)
    requires Ending(s, h)
    ensures var first := Released(s.discard, Map(failed)); var last := Finished(s.Release(failed).phase.outcome);
            Matches(s.Release(failed), Observe(Observe(h, first), last))
  {
    hide Allowed;
  }

  lemma CommitMatches(s: Tx, h: History, failed: Option<Thrown>)
    requires Matches(s, h) && s.phase.Committing?
    ensures var e := CommitSettled(Map(failed)); var h' := Observe(h, e);
            && Allowed(s.records, h, e)
            && (failed.None? ==> Ending(s.Note(e).(committed := true), h'))
            && (failed.Some? ==> OnCommit(s, failed, None).log == s.log + [e] && Matches(OnCommit(s, failed, None), h'))
  {
  }

  lemma RollbackMatches(s: Tx, h: History, failed: Option<Thrown>)
    requires Matches(s, h) && s.phase.RollingBack?
    ensures var e := RollbackSettled(Map(failed)); var h' := Observe(h, e);
            && Allowed(s.records, h, e)
            && (failed.None? ==> Ending(s.Note(e), h'))
            && (failed.Some? ==>
                  Ending(s.Note(e).(discard := Map(failed), cleanup := s.cleanup + [AsError(failed.value)]), h'))
  {
  }

  lemma ReleaseKeeps(s: Tx, failed: Option<Thrown>)
    requires Monitored(s.records, s.log) && Ending(s, Observed(s.log))
    ensures Inv(s.Release(failed))
  {
    var h := Observed(s.log);
    ReleaseMatches(s, h, failed);
    var first, last := Released(s.discard, Map(failed)), Finished(s.Release(failed).phase.outcome);
    MonitorNote(s.records, s.log, first);
    MonitorNote(s.records, s.log + [first], last);
  }

  lemma AppendFromKeeps(s: Tx, k: nat)
    requires Monitored(s.records, s.log) && Ready(s, Observed(s.log), k)
    ensures Inv(s.AppendFrom(k))
  {
    AppendFromMatches(s, Observed(s.log), k);
    if k < s.records { MonitorNote(s.records, s.log, Admitted(|s.tasks|, Declared(k))); }
  }

  lemma BeginKeeps(s: Tx, failed: Option<Thrown>)
    requires Inv(s) && s.phase.Beginning?
    ensures Inv(OnBegin(s, failed))
  {
    BeginMatches(s, Observed(s.log), failed);
    MonitorNote(s.records, s.log, BeginSettled(Map(failed)));
  }

  lemma ViewCallKeeps(s: Tx, append: bool)
    requires Inv(s) && s.handedOut
    ensures Inv(OnViewCall(s, append))
  {
    ViewCallMatches(s, Observed(s.log), append);
    MonitorNote(s.records, s.log,
                if s.callbackOpen then Admitted(|s.tasks|, if append then Append else Query) else CallRefused);
  }

  lemma SendKeeps(s: Tx, id: nat)
    requires Inv(s) && Possible(s, Send(id))
    ensures Inv(OnSend(s, id))
  {
    SendMatches(s, Observed(s.log), id);
    MonitorNote(s.records, s.log, TaskSent(id));
  }

  lemma SettleKeeps(s: Tx, id: nat, cause: Option<Thrown>)
    requires Inv(s) && Possible(s, Settle(id, cause))
    ensures Inv(OnSettle(s, id, cause))
  {
    SettleMatches(s, Observed(s.log), id, cause);
    MonitorNote(s.records, s.log, TaskSettled(id, Map(cause)));
  }

  lemma ClientErrorKeeps(s: Tx, error: Error)
    requires Inv(s) && !s.phase.Closed?
    ensures Inv(OnClientError(s, error))
  {
    ClientErrorMatches(s, Observed(s.log), error);
    MonitorNote(s.records, s.log, ClientErrored(error));
  }

  lemma CallbackKeeps(s: Tx, result: Result<Value, Thrown>)
    requires Inv(s) && s.phase.InCallback?
    ensures Inv(OnCallback(s, result))
  {
    match result
    case Success(v) =>
      CallbackMatches(s, Observed(s.log), v);
      MonitorNote(s.records, s.log, CallbackSettled(Success(v)));
      AppendFromKeeps(s.(callbackOpen := false, value := Some(v)).Note(CallbackSettled(Success(v))), 0);
    case Failure(cause) =>
      CallbackThrowMatches(s, Observed(s.log), cause);
      MonitorNote(s.records, s.log, CallbackSettled(Failure(AsError(cause))));
  }

  lemma AppendResumedKeeps(s: Tx)
    requires Inv(s) && Possible(s, AppendResumes)
    ensures Inv(OnAppendResumed(s))
  {
    AppendResumedMatches(s, Observed(s.log));
    if s.tasks[s.phase.id].stage.failed.None? { AppendFromKeeps(s, s.phase.k + 1); }
  }

  lemma FinishedKeeps(s: Tx)
    requires Inv(s) && Possible(s, FinishResumes)
    ensures Inv(OnFinished(s))
  {
    FinishedMatches(s, Observed(s.log));
    match s.phase
    case Drained(None) => MonitorNote(s.records, s.log, CommitSent);
    case Drained(Some(_)) =>
    case DrainedAgain => MonitorNote(s.records, s.log, RollbackSent);
  }

  lemma CommitKeeps(s: Tx, failed: Option<Thrown>, release: Option<Thrown>)
    requires Inv(s) && s.phase.Committing?
    ensures Inv(OnCommit(s, failed, release))
  {
    CommitMatches(s, Observed(s.log), failed);
    var e := CommitSettled(Map(failed));
    MonitorNote(s.records, s.log, e);
    if failed.None? { ReleaseKeeps(s.Note(e).(committed := true), release); }
  }

  lemma RollbackKeeps(s: Tx, failed: Option<Thrown>, release: Option<Thrown>)
    requires Inv(s) && s.phase.RollingBack?
    ensures Inv(OnRollback(s, failed, release))
  {
    RollbackMatches(s, Observed(s.log), failed);
    var e := RollbackSettled(Map(failed));
    MonitorNote(s.records, s.log, e);
    if failed.None? { ReleaseKeeps(s.Note(e), release); }
    else {
      ReleaseKeeps(s.Note(e).(discard := Map(failed), cleanup := s.cleanup + [AsError(failed.value)]), release);
    }
  }

  lemma StepKeeps(s: Tx, e: Event)
    requires Inv(s) && Possible(s, e)
    ensures Inv(Apply(s, e))
  {
    match e
    case BeginReply(failed) => BeginKeeps(s, failed);
    case ViewCall(append) => ViewCallKeeps(s, append);
    case Send(id) => SendKeeps(s, id);
    case Settle(id, cause) => SettleKeeps(s, id, cause);
    case ClientError(error) => ClientErrorKeeps(s, error);
    case CallbackReply(result) => CallbackKeeps(s, result);
    case AppendResumes => AppendResumedKeeps(s);
    case DrainResumes => DrainedMatches(s, Observed(s.log));
    case FinishResumes => FinishedKeeps(s);
    case CommitReply(failed, release) => CommitKeeps(s, failed, release);
    case RollbackReply(failed, release) => RollbackKeeps(s, failed, release);
  }

  lemma StepRecords(s: Tx, e: Event)
    requires Possible(s, e)
    ensures Apply(s, e).records == s.records
  {
    hide OnCommit, OnRollback;
    match e
    case CommitReply(failed, release) => ReplyRecords(s, failed, release);
    case RollbackReply(failed, release) => ReplyRecords(s, failed, release);
    case CallbackReply(result) => assert OnCallback(s, result).records == s.records;
    case AppendResumes => assert OnAppendResumed(s).records == s.records;
    case _ =>
  }

  lemma ReplyRecords(s: Tx, failed: Option<Thrown>, release: Option<Thrown>)
    ensures OnCommit(s, failed, release).records == OnRollback(s, failed, release).records == s.records
  {
  }

  lemma StartInv(records: nat)
    ensures Inv(Start(records))
  {
    assert Matches(Start(records), NOTHING_YET);
  }

  /** Every interleaving of the callback, its stray calls, task settlements, client errors and
      server replies writes a log that the specification allows. */
  lemma {:induction false} EveryRunIsAllowed(records: nat, events: seq<Event>)
    ensures Inv(Run(Start(records), events))
    ensures Run(Start(records), events).records == records
  {
    if events == [] {
      StartInv(records);
    } else {
      var before, e := Run(Start(records), events[..|events| - 1]), events[|events| - 1];
      EveryRunIsAllowed(records, events[..|events| - 1]);
      if Possible(before, e) {
        StepRecords(before, e);
        StepKeeps(before, e);
      }
    }
  }
}
