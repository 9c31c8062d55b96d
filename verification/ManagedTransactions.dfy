/** The objects behind OutboxTransaction: the scope with its three fields, and one activation of
    the async function with its locals, resumed at each await.  Every method is the code between
    two awaits, and is proved to take the step the interleaving model takes. */
module ManagedTransactions {
  import opened Outcomes
  import opened Gates
  import opened OutboxTransaction

  class TransactionScope {
    var accepting: bool
    var pending: set<nat>
    var failure: Option<Error>

    constructor ()
      ensures View() == Open()
    {
      accepting, pending, failure := true, {}, None;
    }

    ghost function View(): Gate<Error>
      reads this
    {
      Gate(accepting, pending, failure)
    }

    method Poison(cause: Error)
      modifies this
      ensures View() == old(View()).Poison(cause)
    {
      if failure.None? { failure := Some(cause); }
    }

    method Execute(id: nat) returns (admitted: bool)
      modifies this
      ensures admitted == old(accepting)
      ensures View() == old(View()).Admit(id)
    {
      if !accepting { return false; }
      pending := pending + {id};
      return true;
    }

    method Completed(id: nat, failed: Option<Error>)
      modifies this
      ensures View() == old(View()).Settle(id, failed)
    {
      if failed.Some? { Poison(failed.value); }
      pending := pending - {id};
    }

    /** `finish` up to its await; the result is what Promise.all was given. */
    method Close() returns (waiting: set<nat>)
      modifies this
      ensures View() == old(View()).Close() && waiting == old(pending)
    {
      accepting := false;
      return pending;
    }
  }

  class Activation {
    const records: nat
    const scope: TransactionScope
    var phase: Phase
    var tasks: seq<Task>
    var waiting: set<nat>
    var handedOut: bool
    var callbackOpen: bool
    var primary: Option<Error>
    var discard: Option<Error>
    var cleanup: seq<Error>
    var value: Option<Value>
    var committed: bool
    var commitAttempted: bool
    ghost var log: seq<Entry>

    constructor (records: nat)
      ensures View() == Start(records)
      ensures fresh(scope)
    {
      this.records := records;
      scope := new TransactionScope();
      phase, tasks, waiting, handedOut, callbackOpen := Beginning, [], {}, false, true;
      primary, discard, cleanup, value, committed, commitAttempted := None, None, [], None, false, false;
      log := [];
    }

    ghost function View(): Tx
      reads this, scope
    {
      Tx(records, phase, scope.View(), tasks, waiting, handedOut, callbackOpen,
         primary, discard, cleanup, value, committed, commitAttempted, log)
    }

    ghost method Note(e: Entry)
      modifies this`log
      ensures View() == old(View()).Note(e)
    {
      log := log + [e];
    }

    method Execute(kind: Kind) returns (admitted: bool)
      modifies this`tasks, this`log, scope
      ensures View() == old(View()).Execute(kind)
      ensures admitted == old(scope.accepting)
    {
      admitted := scope.Execute(|tasks|);
      if admitted {
        Note(Admitted(|tasks|, kind));
        tasks := tasks + [Task(kind, Queued)];
      } else {
        Note(CallRefused);
      }
    }

    method Finish(next: Phase)
      modifies this`waiting, this`phase, scope
      ensures View() == old(View()).Finish(next)
    {
      waiting := scope.Close();
      phase := next;
    }

    method AppendFrom(k: nat)
      modifies this, scope
      ensures View() == old(View()).AppendFrom(k)
    {
      if k == records {
        Finish(Draining);
        return;
      }
      var id := |tasks|;
      var admitted := Execute(Declared(k));
      if admitted {
        phase := Appending(k, id);
      } else {
        scope.Poison(CallbackFinished);
        Finish(Draining);
      }
    }

    /** The outer catch. */
    method Fail(error: Error)
      modifies this, scope
      ensures View() == old(View()).Fail(error)
    {
      primary := Some(error);
      if commitAttempted { discard := primary; }
      Finish(DrainingAgain);
    }

    method Release(failed: Option<Thrown>)
      modifies this
      ensures View() == old(View()).Release(failed)
    {
      callbackOpen := false;
      if failed.Some? { cleanup := cleanup + [AsError(failed.value)]; }
      var outcome: Outcome;
      if cleanup != [] { outcome := CleanupFailed(primary, cleanup); }
      else if primary.Some? { outcome := Rejected(primary.value); }
      else if !committed { outcome := NotCommitted; }
      else { outcome := Returned(value); }
      phase := Closed(outcome);
      Note(Released(discard, OutboxTransaction.Map(failed)));
      Note(Finished(outcome));
    }

    method BeginReplied(failed: Option<Thrown>)
      requires phase.Beginning?
      modifies this, scope
      ensures View() == OnBegin(old(View()), failed)
    {
      Note(BeginSettled(OutboxTransaction.Map(failed)));
      if failed.Some? { Fail(AsError(failed.value)); }
      else { phase, handedOut := InCallback, true; }
    }

    /** `view.query` and `view.append`, called by anyone who kept the view. */
    method ViewCalled(append: bool)
      requires handedOut
      modifies this, scope
      ensures View() == OnViewCall(old(View()), append)
    {
      if !callbackOpen { Note(CallRefused); }
      else { var _ := Execute(if append then Append else Query); }
    }

    method TaskStarts(id: nat)
      requires id < |tasks| && tasks[id].stage.Queued?
      modifies this
      ensures View() == OnSend(old(View()), id)
    {
      tasks := tasks[id := tasks[id].(stage := OnTheWire)];
      Note(TaskSent(id));
    }

    method TaskEnds(id: nat, cause: Option<Thrown>)
      requires id < |tasks| && !tasks[id].stage.Done?
      modifies this, scope
      ensures View() == OnSettle(old(View()), id, cause)
    {
      var failed := OutboxTransaction.Map(cause);
      tasks := tasks[id := tasks[id].(stage := Done(failed))];
      scope.Completed(id, failed);
      Note(TaskSettled(id, failed));
    }

    method ClientFails(error: Error)
      modifies this, scope
      ensures View() == OnClientError(old(View()), error)
    {
      discard := Some(error);
      scope.Poison(error);
      Note(ClientErrored(error));
    }

    method CallbackSettles(result: Result<Value, Thrown>)
      requires phase.InCallback?
      modifies this, scope
      ensures View() == OnCallback(old(View()), result)
    {
      callbackOpen := false;
      match result
      case Success(v) =>
        value := Some(v);
        Note(CallbackSettled(Success(v)));
        AppendFrom(0);
      case Failure(cause) =>
        Note(CallbackSettled(Failure(AsError(cause))));
        scope.Poison(AsError(cause));
        Finish(Draining);
    }

    method AppendResumes()
      requires Possible(View(), OutboxTransaction.AppendResumes)
      modifies this, scope
      ensures View() == OnAppendResumed(old(View()))
    {
      match tasks[phase.id].stage.failed
      case None => AppendFrom(phase.k + 1);
      case Some(error) =>
        scope.Poison(error);
        Finish(Draining);
    }

    method DrainResumes()
      requires Possible(View(), OutboxTransaction.DrainResumes)
      modifies this`phase
      ensures View() == OnDrained(old(View()))
    {
      phase := if phase.Draining? then Drained(scope.failure) else DrainedAgain;
    }

    method FinishResumes()
      requires Possible(View(), OutboxTransaction.FinishResumes)
      modifies this, scope
      ensures View() == OnFinished(old(View()))
    {
      match phase
      case Drained(None) =>
        commitAttempted := true;
        phase := Committing;
        Note(CommitSent);
      case Drained(Some(error)) => Fail(error);
      case DrainedAgain =>
        if primary.None? { primary := scope.failure; }
        callbackOpen := false;
        phase := RollingBack;
        Note(RollbackSent);
    }

    method CommitReplied(failed: Option<Thrown>, release: Option<Thrown>)
      requires phase.Committing?
      modifies this, scope
      ensures View() == OnCommit(old(View()), failed, release)
    {
      Note(CommitSettled(OutboxTransaction.Map(failed)));
      if failed.Some? {
        Fail(AsError(failed.value));
      } else {
        committed := true;
        Release(release);
      }
    }

    method RollbackReplied(failed: Option<Thrown>, release: Option<Thrown>)
      requires phase.RollingBack?
      modifies this
      ensures View() == OnRollback(old(View()), failed, release)
    {
      Note(RollbackSettled(OutboxTransaction.Map(failed)));
      if failed.Some? {
        discard := Some(AsError(failed.value));
        cleanup := cleanup + [AsError(failed.value)];
      }
      Release(release);
    }

    /** What the event loop does with one event: nothing if it cannot happen now. */
    method Deliver(e: Event)
      modifies this, scope
      ensures View() == Apply(old(View()), e)
    {
      match e
      case BeginReply(failed) => if phase.Beginning? { BeginReplied(failed); }
      case ViewCall(append) => if handedOut { ViewCalled(append); }
      case Send(id) => if id < |tasks| && tasks[id].stage.Queued? { TaskStarts(id); }
      case Settle(id, cause) =>
        if id < |tasks| && !tasks[id].stage.Done? && (cause.None? ==> tasks[id].stage.OnTheWire?) {
          TaskEnds(id, cause);
        }
      case ClientError(error) => if !phase.Closed? { ClientFails(error); }
      case CallbackReply(result) => if phase.InCallback? { CallbackSettles(result); }
      case AppendResumes =>
        if phase.Appending? && phase.id < |tasks| && tasks[phase.id].stage.Done? { AppendResumes(); }
      case DrainResumes =>
        if (phase.Draining? || phase.DrainingAgain?) && waiting !! scope.pending { DrainResumes(); }
      case FinishResumes => if phase.Drained? || phase.DrainedAgain? { FinishResumes(); }
      case CommitReply(failed, release) => if phase.Committing? { CommitReplied(failed, release); }
      case RollbackReply(failed, release) => if phase.RollingBack? { RollbackReplied(failed, release); }
    }
  }
}
