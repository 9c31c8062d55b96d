/** The session object behind EngineLifecycle: its fields, and each stretch of its async methods
    between two awaits.  Every method is proved to take the step the interleaving model takes. */
module EngineSessions {
  import opened EngineLifecycle

  class EngineSession {
    const config: Config
    var currentState: EngineState
    var stopRequested: bool
    var acquired: seq<nat>
    var runtime: bool
    var hasPublisher: bool
    var hasScheduler: bool
    var handles: set<Kind>
    var starting: Init
    var cleaning: Cleanup
    var closing: Closing
    var activations: map<Kind, Activation>
    var failures: nat
    ghost var log: seq<Entry>

    constructor (config: Config)
      ensures View() == New(config)
    {
      this.config := config;
      currentState, stopRequested, acquired, runtime := Idle, false, [], false;
      hasPublisher, hasScheduler, handles := false, false, {};
      starting, cleaning, closing, activations, failures := NotStarted, NotBegun, NotRequested, map[], 0;
      log := [];
    }

    ghost function View(): Session
      reads this
    {
      Session(config, currentState, stopRequested, acquired, runtime, hasPublisher, hasScheduler, handles,
              starting, cleaning, closing, activations, failures, log)
    }

    ghost method Note(e: Entry)
      modifies this`log
      ensures View() == old(View()).Note(e)
    {
      log := log + [e];
    }

    method Become(next: EngineState)
      modifies this`currentState, this`log
      ensures View() == old(View()).Become(next)
    {
      currentState := next;
      Note(Became(next));
    }

    method Activated(kind: Kind) returns (a: Activation)
      ensures a == View().Activated(kind)
    {
      if kind in activations { return activations[kind]; }
      return NotAsked;
    }

    /** `cleaning ??= releaseResources()`, which runs up to disposal. */
    method BeginCleanup()
      modifies this`cleaning, this`log
      ensures View() == old(View()).BeginCleanup()
    {
      if cleaning.NotBegun? {
        cleaning := Disposing;
        if runtime { Note(DisposeBegan); }
      }
    }

    /** The catch of `initialize`. */
    method Rollback()
      modifies this`starting, this`cleaning, this`log
      ensures View() == old(View()).Rollback()
    {
      starting := RollingBack;
      BeginCleanup();
    }

    /** The acquisition loop from connection `i`, and what follows it up to making the runtime. */
    method AcquireFrom(i: nat)
      modifies this
      ensures View() == old(View()).AcquireFrom(i)
    {
      if stopRequested {
        Rollback();
      } else if i < config.connections {
        starting := Acquiring(i);
        Note(AcquireBegan(i));
      } else if config.connections == 0 && config.plans == 0 {
        starting := Over(true);
        Become(Ready);
      } else if !config.participants {
        Rollback();
      } else {
        hasScheduler := config.scheduler;
        hasPublisher := config.publisher;
        starting := Making;
        Note(MakeBegan);
      }
    }

    /** The checks of the stores from the `j`-th await on. */
    method ProbeFrom(j: nat)
      modifies this
      ensures View() == old(View()).ProbeFrom(j)
    {
      if j < |config.probes| {
        if config.probes[j] && stopRequested { Rollback(); return; }
        starting := Probing(j);
        Note(ProbeBegan(j));
      } else if stopRequested {
        Rollback();
      } else {
        starting := Over(true);
        Become(Ready);
      }
    }

    method Start()
      modifies this
      ensures View() == OnStart(old(View()))
    {
      if stopRequested || !starting.NotStarted? { return; }
      starting := Executing;
      Become(Starting);
      if !config.configured {
        starting := Over(true);
        Become(Disabled);
      } else if !config.valid {
        Rollback();
      } else {
        AcquireFrom(0);
      }
    }

    method AcquireReplied(ok: bool, usable: bool)
      requires starting.Acquiring?
      modifies this
      ensures View() == OnAcquire(old(View()), ok, usable)
    {
      var i := starting.i;
      starting := Executing;
      if !ok {
        Note(AcquireFailed(i));
        Rollback();
        return;
      }
      acquired := acquired + [i];
      Note(Acquired(i));
      if usable { AcquireFrom(i + 1); } else { Rollback(); }
    }

    method RuntimeReplied(ok: bool)
      modifies this
      ensures View() == OnRuntime(old(View()), ok)
    {
      starting := Executing;
      if ok {
        runtime := true;
        Note(RuntimeMade);
        ProbeFrom(0);
      } else {
        Note(MakeFailed);
        Rollback();
      }
    }

    method ProbeReplied(ok: bool)
      requires starting.Probing?
      modifies this
      ensures View() == OnProbe(old(View()), ok)
    {
      var j := starting.j;
      starting := Executing;
      Note(ProbeEnded(j));
      if ok { ProbeFrom(j + 1); } else { Rollback(); }
    }

    /** `activateWorkers`, `activateOutboxPublisher` or `activateScheduler`: the first call counts. */
    method Activate(kind: Kind)
      modifies this`activations, this`log
      ensures View() == OnActivate(old(View()), kind)
    {
      var asked := Activated(kind);
      if !asked.NotAsked? { return; }
      var awaits: nat;
      match kind {
        case Workers => awaits := 2 * config.plans;
        case Publisher => awaits := if hasPublisher then 1 else 0;
        case Scheduler => awaits := if hasScheduler then 1 else 0;
      }
      if awaits == 0 || !currentState.Ready? || !runtime || stopRequested {
        activations := activations[kind := Settled];
      } else {
        activations := activations[kind := Running(awaits)];
        Note(ActivationBegan(kind));
      }
    }

    method ActivationReplied(kind: Kind, ok: bool)
      requires View().Activated(kind).Running?
      modifies this`activations, this`handles, this`log
      ensures View() == OnActivation(old(View()), kind, ok)
    {
      var left := activations[kind].left;
      if ok && (kind != Workers || left <= config.plans) { handles := handles + {kind}; }
      if !ok || left <= 1 || stopRequested {
        activations := activations[kind := Settled];
        Note(ActivationEnded(kind));
      } else {
        activations := activations[kind := Running(left - 1)];
      }
    }

    /** `finishClose` about to look at one activation. */
    method CloseAt(kind: Kind)
      modifies this`closing, this`cleaning, this`log
      ensures View() == old(View()).CloseAt(kind)
      decreases match kind case Workers => 5 case Publisher => 3 case Scheduler => 1
    {
      var asked := Activated(kind);
      if !asked.NotAsked? { closing := AwaitActivation(kind); } else { CloseAfter(kind); }
    }

    method CloseAfter(kind: Kind)
      modifies this`closing, this`cleaning, this`log
      ensures View() == old(View()).CloseAfter(kind)
      decreases match kind case Workers => 4 case Publisher => 2 case Scheduler => 0
    {
      match kind {
        case Workers => closing := Proceeding(Publisher); CloseAt(Publisher);
        case Publisher => closing := Proceeding(Scheduler); CloseAt(Scheduler);
        case Scheduler => closing := AwaitCleanup; BeginCleanup();
      }
    }

    method Close()
      modifies this
      ensures View() == OnClose(old(View()))
    {
      if !closing.NotRequested? { return; }
      stopRequested := true;
      if starting.NotStarted? {
        closing := Proceeding(Workers);
        Become(Stopping);
        CloseAt(Workers);
      } else {
        closing := AwaitStart;
        Become(Stopping);
      }
    }

    method CloseResumed()
      requires Possible(View(), CloseResumes)
      modifies this
      ensures View() == OnCloseResumed(old(View()))
    {
      if closing.AwaitStart? {
        closing := Proceeding(Workers);
        CloseAt(Workers);
      } else if closing.AwaitActivation? {
        CloseAfter(closing.kind);
      } else {
        closing := Finished(cleaning.failed);
        Become(ClosedDown);
      }
    }

    /** One turn of the loop over the acquired resources, last first. */
    method Unwind()
      requires cleaning.Unwinding? && cleaning.k <= |acquired|
      modifies this`acquired, this`cleaning, this`log
      ensures View() == old(View()).Unwind()
    {
      var k := cleaning.k;
      if k == 0 {
        acquired := [];
        cleaning := Done(failures > 0);
      } else {
        cleaning := Releasing(k - 1);
        Note(ReleaseBegan(acquired[k - 1]));
      }
    }

    method DisposeReplied(ok: bool)
      requires cleaning.Disposing?
      modifies this
      ensures View() == OnDispose(old(View()), ok)
    {
      ghost var had := runtime;
      runtime, handles := false, {};
      if !ok { failures := failures + 1; }
      cleaning := Unwinding(|acquired|);
      if had { Note(DisposeEnded); }
      Unwind();
    }

    method ReleaseReplied(ok: bool)
      requires Possible(View(), ReleaseReply(ok))
      modifies this
      ensures View() == OnRelease(old(View()), ok)
    {
      if !ok { failures := failures + 1; }
      cleaning := Unwinding(cleaning.k);
      Note(ReleaseEnded(acquired[cleaning.k]));
      Unwind();
    }

    method InitializeResumed()
      modifies this
      ensures View() == OnInitResumed(old(View()))
    {
      starting := Over(false);
      if !stopRequested { Become(Failed); }
    }

    /** Whatever comes next. */
    method Deliver(e: Event)
      modifies this
      ensures View() == Step(old(View()), e)
    {
      match e
      case Start => Start();
      case AcquireReply(ok, usable) => if starting.Acquiring? { AcquireReplied(ok, usable); }
      case RuntimeReply(ok) => if starting.Making? { RuntimeReplied(ok); }
      case ProbeReply(ok) => if starting.Probing? { ProbeReplied(ok); }
      case Activate(kind) => Activate(kind);
      case ActivationReply(kind, ok) =>
        var activation := Activated(kind);
        if activation.Running? { ActivationReplied(kind, ok); }
      case Close => Close();
      case CloseResumes => DeliverCloseResumes();
      case DisposeReply(ok) => if cleaning.Disposing? { DisposeReplied(ok); }
      case ReleaseReply(ok) => if cleaning.Releasing? && cleaning.k < |acquired| { ReleaseReplied(ok); }
      case InitResumes => if starting.RollingBack? && cleaning.Done? { InitializeResumed(); }
    }

    /** The promise `finishClose` waits for may not have settled yet. */
    method DeliverCloseResumes()
      modifies this
      ensures View() == Step(old(View()), CloseResumes)
    {
      if closing.AwaitStart? && starting.Over? {
        CloseResumed();
      } else if closing.AwaitActivation? {
        var activation := Activated(closing.kind);
        if activation.Settled? { CloseResumed(); }
      } else if closing.AwaitCleanup? && cleaning.Done? {
        CloseResumed();
      }
    }
  }
}
