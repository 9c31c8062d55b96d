/** The objects behind KyselyScope: the driver view with its three fields, and one activation of
    runKyselyOutbox on top of an activation of the managed transaction. */
module KyselyDriver {
  import opened Outcomes
  import opened Gates
  import opened OutboxTransaction
  import opened ManagedTransactions
  import KyselyScope

  class ScopedDriver {
    var accepting: bool
    var failure: Option<Error>
    var pending: set<nat>

    constructor ()
      ensures View() == Open()
    {
      accepting, failure, pending := true, None, {};
    }

    ghost function View(): Gate<Error>
      reads this
    {
      Gate(accepting, pending, failure)
    }

    method Poison(cause: Error)
      modifies this
      ensures View() == old(View()).Poison(cause)
    {
      if failure.None? { failure := Some(cause); }
    }

    /** Streaming, nested transactions, manual commit or rollback, destruction. */
    method Refuse()
      modifies this
      ensures View() == if old(accepting) then old(View()).Poison(Unsupported) else old(View())
    {
      if accepting { Poison(Unsupported); }
    }

    method Admit(id: nat) returns (admitted: bool)
      modifies this
      ensures admitted == old(accepting) && View() == old(View()).Admit(id)
    {
      if !accepting { return false; }
      pending := pending + {id};
      return true;
    }

    method Drained(id: nat, failed: Option<Error>)
      modifies this
      ensures View() == old(View()).Settle(id, failed)
    {
      if failed.Some? { Poison(failed.value); }
      pending := pending - {id};
    }

    method Close() returns (waiting: set<nat>)
      modifies this
      ensures View() == old(View()).Close() && waiting == old(pending)
    {
      accepting := false;
      return pending;
    }
  }

  class KyselyRun {
    const transaction: Activation
    const driver: ScopedDriver
    var calls: seq<KyselyScope.Call>
    var stage: KyselyScope.Stage

    constructor (transaction: Activation)
      ensures this.transaction == transaction && fresh(driver)
      ensures View() == KyselyScope.Session(transaction.View(), Open(), [], KyselyScope.Active)
    {
      this.transaction := transaction;
      driver := new ScopedDriver();
      calls, stage := [], KyselyScope.Active;
    }

    ghost function View(): KyselyScope.Session
      reads this, driver, transaction, transaction.scope
    {
      KyselyScope.Session(transaction.View(), driver.View(), calls, stage)
    }

    method Use(append: bool)
      modifies this, driver
      ensures View() == KyselyScope.OnUse(old(View()), append)
    {
      var admitted := driver.Admit(|calls|);
      if admitted { calls := calls + [KyselyScope.Waiting(append)]; }
    }

    method StartCall(k: nat)
      requires transaction.handedOut && k < |calls| && calls[k].Waiting?
      modifies this, transaction, transaction.scope
      ensures View() == KyselyScope.OnStartCall(old(View()), k)
    {
      var outer := |transaction.tasks|;
      transaction.ViewCalled(calls[k].append);
      calls := calls[k := if |transaction.tasks| > outer then KyselyScope.Delegated(outer) else KyselyScope.TurnedAway];
    }

    method EndCall(k: nat, extra: Option<Thrown>)
      requires KyselyScope.CanHappen(View(), KyselyScope.EndCall(k, extra))
      modifies this, driver
      ensures View() == KyselyScope.OnEndCall(old(View()), k, extra)
    {
      var failed, outer := Some(CallbackFinished), 0;
      if calls[k].Delegated? {
        outer := calls[k].outer;
        failed := transaction.tasks[outer].stage.failed;
      }
      if failed.None? { failed := OutboxTransaction.Map(extra); }
      driver.Drained(k, failed);
      calls := calls[k := KyselyScope.Ended(outer, failed)];
    }

    method CallbackSettles(result: Result<Value, Thrown>)
      modifies this, driver
      ensures View() == KyselyScope.OnUserCallback(old(View()), result)
    {
      var value := None;
      match result {
        case Success(v) => value := Some(v);
        case Failure(cause) => driver.Poison(AsError(cause));
      }
      var waiting := driver.Close();
      stage := KyselyScope.Emptying(waiting, value);
    }

    method DriverDrains()
      requires KyselyScope.CanHappen(View(), KyselyScope.DriverDrained)
      modifies this
      ensures View() == KyselyScope.OnDriverDrained(old(View()))
    {
      if driver.failure.Some? { stage := KyselyScope.Left(Failure(driver.failure.value)); }
      else {
        stage := KyselyScope.Left(Success(if stage.value.Some? then stage.value.value else KyselyScope.UNDEFINED));
      }
    }

    method OuterResumes()
      requires KyselyScope.CanHappen(View(), KyselyScope.OuterResumes)
      modifies this, transaction, transaction.scope
      ensures View() == KyselyScope.OnOuterResumes(old(View()))
    {
      match stage.result {
        case Success(v) => transaction.CallbackSettles(Success(v));
        case Failure(error) => transaction.CallbackSettles(Failure(AnError(error)));
      }
      stage := KyselyScope.Over;
    }

    /** What the event loop does with one event: nothing if it cannot happen now. */
    method Deliver(e: KyselyScope.Event)
      modifies this, driver, transaction, transaction.scope
      ensures View() == KyselyScope.Step(old(View()), e)
    {
      match e
      case Use(append) => if transaction.handedOut { Use(append); }
      case Misuse => if transaction.handedOut { driver.Refuse(); }
      case StartCall(k) => if transaction.handedOut && k < |calls| && calls[k].Waiting? { StartCall(k); }
      case EndCall(k, extra) =>
        if k < |calls|
           && (calls[k].TurnedAway?
               || (calls[k].Delegated? && calls[k].outer < |transaction.tasks|
                   && transaction.tasks[calls[k].outer].stage.Done?)) {
          EndCall(k, extra);
        }
      case UserCallback(result) => if stage.Active? && transaction.phase.InCallback? { CallbackSettles(result); }
      case DriverDrained => if stage.Emptying? && stage.waiting !! driver.pending { DriverDrains(); }
      case OuterResumes => if stage.Left? && transaction.phase.InCallback? { OuterResumes(); }
      case Outer(o) => if !o.ViewCall? && !o.CallbackReply? { transaction.Deliver(o); }
    }
  }
}
