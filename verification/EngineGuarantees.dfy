/** What the lifecycle of the engine session promises for every interleaving of start, close, the
    activations, the clean-up and their replies (engine-session.ts). */
module EngineGuarantees {
  import opened EngineLifecycle

  /** `log` can be the record of a session so configured. */
  ghost predicate Produced(config: Config, log: seq<Entry>) {
    exists events :: Steps(New(config), events).log == log
  }

  ghost predicate Reached(config: Config, s: Session) {
    exists events :: Steps(New(config), events) == s
  }

  // ----- between two events every function stands at an await, and every reply brings the end nearer

  predicate Suspended(s: Session) {
    && !s.init.Executing? && !s.cleanup.Unwinding? && !s.closing.Proceeding?
    && (s.cleanup.Releasing? ==> s.cleanup.k < |s.acquired|)
  }

  function InitRank(c: Config, init: Init): int {
    match init
    case Acquiring(i) => c.connections - i + |c.probes| + 4
    case Making => |c.probes| + 3
    case Probing(j) => |c.probes| - j + 2
    case RollingBack => 1
    case _ => 0
  }

  function CleanupRank(c: Config, cleanup: Cleanup): int {
    match cleanup
    case NotBegun => c.connections + 3
    case Disposing => c.connections + 2
    case Unwinding(k) => k + 1
    case Releasing(k) => k + 1
    case Done(_) => 0
  }

  function KindRank(kind: Kind): int {
    match kind case Workers => 4 case Publisher => 3 case Scheduler => 2
  }

  function ClosingRank(closing: Closing): int {
    match closing
    case AwaitStart => 5
    case Proceeding(kind) => KindRank(kind)
    case AwaitActivation(kind) => KindRank(kind)
    case AwaitCleanup => 1
    case _ => 0
  }

  function Left(activations: map<Kind, Activation>, kind: Kind): nat {
    if kind in activations && activations[kind].Running? then activations[kind].left else 0
  }

  function ActivationRank(activations: map<Kind, Activation>): nat {
    Left(activations, Workers) + Left(activations, Publisher) + Left(activations, Scheduler)
  }

  /** Bounds how many replies can still arrive. */
  function Measure(s: Session): int {
    InitRank(s.config, s.init) + CleanupRank(s.config, s.cleanup) + ClosingRank(s.closing) + ActivationRank(s.activations)
  }

  predicate Sized(s: Session) {
    && |s.acquired| <= s.config.connections
    && (s.init.Acquiring? ==> s.init.i < s.config.connections)
    && (s.init.Probing? ==> s.init.j < |s.config.probes|)
    && (Working(s.init) ==> s.cleanup.NotBegun?)
    && (forall kind | s.Activated(kind).Running? :: s.Activated(kind).left > 0)
  }

  lemma InvIsSized(s: Session)
    requires Inv(s)
    ensures Sized(s) && Measure(s) >= 0
  {
    var h := Observed(s.log);
    assert Working(s.init) ==> Startup in h.busy;
  }

  /** From `s` to `t` nothing but the state of the functions and resources moved. */
  ghost predicate Onward(s: Session, t: Session, bound: int) {
    Suspended(t) && t.config == s.config && t.stopRequested == s.stopRequested && Measure(t) <= bound
  }

  function Others(s: Session): int {
    Measure(s) - InitRank(s.config, s.init)
  }

  lemma RollbackOnward(s: Session)
    requires s.init.Executing? && s.cleanup.NotBegun? && !s.closing.Proceeding?
    ensures Onward(s, s.Rollback(), Others(s))
  {
    hide ActivationRank, ClosingRank;
  }

  lemma AcquireFromOnward(s: Session, i: nat)
    requires s.init.Executing? && s.cleanup.NotBegun? && !s.closing.Proceeding? && i <= s.config.connections
    ensures Onward(s, s.AcquireFrom(i), Others(s) + s.config.connections - i + |s.config.probes| + 4)
  {
    hide ActivationRank, ClosingRank, CleanupRank;
    RollbackOnward(s);
  }

  lemma ProbeFromOnward(s: Session, j: nat)
    requires s.init.Executing? && s.cleanup.NotBegun? && !s.closing.Proceeding? && j <= |s.config.probes|
    ensures Onward(s, s.ProbeFrom(j), Others(s) + |s.config.probes| - j + 2)
  {
    hide ActivationRank, ClosingRank, CleanupRank;
    RollbackOnward(s);
  }

  /** The events that some pending call or promise must produce; the others are the callers' doing. */
  predicate IsReply(e: Event) {
    !e.Start? && !e.Activate? && !e.Close?
  }

  lemma AcquireOnward(s: Session, ok: bool, usable: bool)
    requires Sized(s) && Suspended(s) && s.init.Acquiring?
    ensures Onward(s, OnAcquire(s, ok, usable), Measure(s) - 1)
  {
    hide ActivationRank, ClosingRank, CleanupRank;
    var t := s.(init := Executing, acquired := s.acquired + [s.init.i]).Note(Acquired(s.init.i));
    if !ok {
      RollbackOnward(s.(init := Executing).Note(AcquireFailed(s.init.i)));
    } else if usable {
      AcquireFromOnward(t, s.init.i + 1);
    } else {
      RollbackOnward(t);
    }
  }

  lemma RuntimeOnward(s: Session, ok: bool)
    requires Sized(s) && Suspended(s) && s.init.Making?
    ensures Onward(s, OnRuntime(s, ok), Measure(s) - 1)
  {
    hide ActivationRank, ClosingRank, CleanupRank;
    if ok {
      ProbeFromOnward(s.(init := Executing, runtime := true).Note(RuntimeMade), 0);
    } else {
      RollbackOnward(s.(init := Executing).Note(MakeFailed));
    }
  }

  lemma ProbeOnward(s: Session, ok: bool)
    requires Sized(s) && Suspended(s) && s.init.Probing?
    ensures Onward(s, OnProbe(s, ok), Measure(s) - 1)
  {
    hide ActivationRank, ClosingRank, CleanupRank;
    var t := s.(init := Executing).Note(ProbeEnded(s.init.j));
    if ok { ProbeFromOnward(t, s.init.j + 1); } else { RollbackOnward(t); }
  }

  lemma FewerLeft(activations: map<Kind, Activation>, kind: Kind, next: Activation)
    requires kind in activations && activations[kind].Running? && activations[kind].left > 0
    requires next.Settled? || (next.Running? && next.left < activations[kind].left)
    ensures ActivationRank(activations[kind := next]) < ActivationRank(activations)
  {
    match kind case Workers => case Publisher => case Scheduler =>
  }

  lemma ActivationOnward(s: Session, kind: Kind, ok: bool)
    requires Sized(s) && Suspended(s) && s.Activated(kind).Running?
    ensures Onward(s, OnActivation(s, kind, ok), Measure(s) - 1)
  {
    hide ActivationRank, ClosingRank, CleanupRank, InitRank;
    var next := OnActivation(s, kind, ok).Activated(kind);
    FewerLeft(s.activations, kind, next);
  }

  lemma CloseAtOnward(s: Session, kind: Kind)
    requires s.closing == Proceeding(kind) && Suspended(s.(closing := NotRequested))
    ensures Onward(s, s.CloseAt(kind), Measure(s))
    decreases match kind case Workers => 5 case Publisher => 3 case Scheduler => 1
  {
    hide ActivationRank, InitRank;
    if s.Activated(kind).NotAsked? { CloseAfterOnward(s, kind); }
  }

  lemma CloseAfterOnward(s: Session, kind: Kind)
    requires Suspended(s.(closing := NotRequested))
    requires s.closing == Proceeding(kind) || s.closing == AwaitActivation(kind)
    ensures Onward(s, s.CloseAfter(kind), Measure(s) - 1)
    decreases match kind case Workers => 4 case Publisher => 2 case Scheduler => 0
  {
    hide ActivationRank, InitRank;
    if kind.Scheduler? {
      CleanupBeginsOnward(s);
    } else {
      var next := if kind.Workers? then Publisher else Scheduler;
      var t := s.(closing := Proceeding(next));
      assert s.CloseAfter(kind) == t.CloseAt(next);
      hide Session.CloseAfter, Session.CloseAt;
      assert Suspended(t.(closing := NotRequested));
      CloseAtOnward(t, next);
      assert Measure(t) <= Measure(s) - 1;
    }
  }

  lemma CleanupBeginsOnward(s: Session)
    requires Suspended(s.(closing := NotRequested))
    requires s.closing == Proceeding(Scheduler) || s.closing == AwaitActivation(Scheduler)
    ensures Onward(s, s.CloseAfter(Scheduler), Measure(s) - 1)
  {
    hide ActivationRank, InitRank;
    assert s.CloseAfter(Scheduler) == s.(closing := AwaitCleanup).BeginCleanup();
  }

  lemma CloseResumedOnward(s: Session)
    requires Suspended(s) && Possible(s, CloseResumes)
    ensures Onward(s, OnCloseResumed(s), Measure(s) - 1)
  {
    hide ActivationRank, InitRank;
    match s.closing
    case AwaitStart => CloseAtOnward(s.(closing := Proceeding(Workers)), Workers);
    case AwaitActivation(kind) => CloseAfterOnward(s, kind);
    case AwaitCleanup =>
  }

  lemma DisposeOnward(s: Session, ok: bool)
    requires Sized(s) && Suspended(s) && s.cleanup.Disposing?
    ensures Onward(s, OnDispose(s, ok), Measure(s) - 1)
  {
    hide ActivationRank, ClosingRank;
  }

  lemma ReleaseOnward(s: Session, ok: bool)
    requires Sized(s) && Suspended(s) && Possible(s, ReleaseReply(ok))
    ensures Onward(s, OnRelease(s, ok), Measure(s) - 1)
  {
    hide ActivationRank, ClosingRank;
  }

  lemma EveryReplyCounts(s: Session, e: Event)
    requires Inv(s) && Suspended(s) && Possible(s, e) && IsReply(e)
    ensures Onward(s, Step(s, e), Measure(s) - 1)
  {
    InvIsSized(s);
    hide Inv, Onward, Suspended, Measure, OnAcquire, OnRuntime, OnProbe, OnActivation, OnCloseResumed, OnDispose, OnRelease;
    match e
    case AcquireReply(ok, usable) => AcquireOnward(s, ok, usable);
    case RuntimeReply(ok) => RuntimeOnward(s, ok);
    case ProbeReply(ok) => ProbeOnward(s, ok);
    case ActivationReply(kind, ok) => ActivationOnward(s, kind, ok);
    case CloseResumes => CloseResumedOnward(s);
    case DisposeReply(ok) => DisposeOnward(s, ok);
    case ReleaseReply(ok) => ReleaseOnward(s, ok);
    case InitResumes => InitResumedOnward(s);
  }

  lemma InitResumedOnward(s: Session)
    requires Suspended(s) && Possible(s, InitResumes)
    ensures Onward(s, OnInitResumed(s), Measure(s) - 1)
  {
    hide ActivationRank, ClosingRank, CleanupRank;
  }

  lemma CallSuspends(s: Session, e: Event)
    requires Inv(s) && Suspended(s) && !IsReply(e)
    ensures Suspended(Step(s, e)) && Step(s, e).config == s.config
  {
    match e
    case Start => StartOnward(s);
    case Activate(_) =>
    case Close => CloseOnward(s);
  }

  lemma StartOnward(s: Session)
    requires Inv(s) && Suspended(s)
    ensures Suspended(OnStart(s)) && OnStart(s).config == s.config
  {
    if !s.stopRequested && s.init.NotStarted? {
      var t := s.(init := Executing).Become(Starting);
      OnStartKeeps(s);
      assert s.cleanup.NotBegun?;
      RollbackOnward(t);
      AcquireFromOnward(t, 0);
    }
  }

  lemma CloseOnward(s: Session)
    requires Suspended(s)
    ensures Suspended(OnClose(s)) && OnClose(s).config == s.config
  {
    if s.closing.NotRequested? && s.init.NotStarted? {
      CloseAtOnward(s.(stopRequested := true, closing := Proceeding(Workers)).Become(Stopping), Workers);
    }
  }

  lemma ImpossibleChangesNothing(s: Session, e: Event)
    requires !Possible(s, e)
    ensures Step(s, e) == s
  {
  }

  lemma {:induction false} EverySessionKeeps(config: Config, events: seq<Event>)
    ensures var s := Steps(New(config), events); Inv(s) && Suspended(s) && s.config == config
  {
    if events == [] {
    } else {
      hide Inv, Suspended, Step, Measure;
      EverySessionKeeps(config, events[..|events| - 1]);
      var s, e := Steps(New(config), events[..|events| - 1]), events[|events| - 1];
      StepKeeps(s, e);
      if IsReply(e) && Possible(s, e) {
        EveryReplyCounts(s, e);
      } else if IsReply(e) {
        ImpossibleChangesNothing(s, e);
      } else {
        CallSuspends(s, e);
      }
    }
  }

  // ----- what the observer's summary says about the entries themselves

  ghost predicate ResourceFacts(log: seq<Entry>, h: History) {
    && (forall k | 0 <= k < |h.acquired| :: h.acquired[k] == k && Acquired(k) in log)
    && (forall i: nat | Acquired(i) in log :: i < |h.acquired|)
    && |h.released| <= |h.acquired|
    && (forall k | 0 <= k < |h.released| :: h.released[k] == |h.acquired| - 1 - k)
    && (forall i: nat | ReleaseBegan(i) in log :: |h.acquired| - |h.released| <= i < |h.acquired|)
    && (forall i: nat | |h.acquired| - |h.released| <= i < |h.acquired| ::
          ReleaseEnded(i) in log || (h.releasing && i == |h.acquired| - |h.released|))
  }

  /** Disposal or the first release is under way. */
  predicate Leaving(h: History) {
    !h.disposal.NotYet? || h.released != []
  }

  ghost predicate RuntimeFacts(log: seq<Entry>, h: History) {
    && (RuntimeMade in log <==> h.made)
    && (DisposeBegan in log <==> !h.disposal.NotYet?)
    && (DisposeEnded in log <==> h.disposal.Ended?)
    && (h.disposal.NotYet? || h.made)
    && (h.releasing ==> h.released != [])
    && (Leaving(h) ==> h.busy == {})
    && (h.released != [] ==> Quiescent(h))
  }

  ghost predicate StateFacts(log: seq<Entry>, h: History) {
    && (Became(Stopping) in log <==> h.stop)
    && (Became(ClosedDown) in log ==> h.stop && h.state.ClosedDown?)
    && (h.state.Idle? ==> h.acquired == [] && !h.made && h.busy == {})
  }

  lemma StateStep(log: seq<Entry>, h: History, e: Entry)
    requires StateFacts(log, h) && Allowed(h, e)
    ensures StateFacts(log + [e], Observe(h, e))
  {
    assert forall x :: x in log + [e] <==> x in log || x == e;
  }

  lemma ResourceStep(log: seq<Entry>, h: History, e: Entry)
    requires ResourceFacts(log, h) && RuntimeFacts(log, h) && Allowed(h, e)
    ensures ResourceFacts(log + [e], Observe(h, e))
  {
    assert forall x :: x in log + [e] <==> x in log || x == e;
  }

  lemma RuntimeStep(log: seq<Entry>, h: History, e: Entry)
    requires RuntimeFacts(log, h) && Allowed(h, e)
    ensures RuntimeFacts(log + [e], Observe(h, e))
  {
    assert forall x :: x in log + [e] <==> x in log || x == e;
  }

  lemma MonitorInit(log: seq<Entry>)
    requires Monitored(log) && log != []
    ensures
      var init, e := log[..|log| - 1], log[|log| - 1];
      Monitored(init) && Allowed(Observed(init), e) && log == init + [e]
  {
    hide Observed, Allowed;
    var init := log[..|log| - 1];
    assert Allowed(Observed(log[..|init|]), log[|init|]);
    forall i | 0 <= i < |init| ensures Allowed(Observed(init[..i]), init[i]) {
      assert log[..i] == init[..i] && Allowed(Observed(log[..i]), log[i]);
    }
  }

  lemma {:induction false} FactsHold(log: seq<Entry>)
    requires Monitored(log)
    ensures ResourceFacts(log, Observed(log)) && RuntimeFacts(log, Observed(log)) && StateFacts(log, Observed(log))
  {
    if log != [] {
      hide Monitored, ResourceFacts, RuntimeFacts, StateFacts, Allowed, Observe;
      MonitorInit(log);
      var init, e := log[..|log| - 1], log[|log| - 1];
      FactsHold(init);
      ResourceStep(init, Observed(init), e);
      RuntimeStep(init, Observed(init), e);
      StateStep(init, Observed(init), e);
    }
  }

  lemma RecordsAreMonitored(config: Config, log: seq<Entry>)
    requires Produced(config, log)
    ensures Monitored(log)
  {
    var events :| Steps(New(config), events).log == log;
    EverySessionKeeps(config, events);
  }

  /** What was known when the entry at `p` was written. */
  lemma Before(log: seq<Entry>, p: nat)
    requires Monitored(log) && p < |log|
    ensures Allowed(Observed(log[..p]), log[p])
    ensures ResourceFacts(log[..p], Observed(log[..p])) && RuntimeFacts(log[..p], Observed(log[..p]))
    ensures StateFacts(log[..p], Observed(log[..p]))
    ensures forall q | 0 <= q < p :: log[q] in log[..p]
  {
    var past := log[..p];
    assert forall i | 0 <= i < p :: past[..i] == log[..i] && past[i] == log[i];
    FactsHold(past);
  }

  // ----- the theorems, over every record and every reachable session

  /** Connections are acquired in order, each once. */
  lemma AcquiredInOrder(config: Config, log: seq<Entry>, p: nat, q: nat)
    requires Produced(config, log) && p < q < |log|
    requires log[p].Acquired? && log[q].Acquired?
    ensures log[p].i < log[q].i
  {
    RecordsAreMonitored(config, log);
    Before(log, q);
  }

  /** Only an acquired resource is released, and the releases go strictly downwards: each resource
      at most once, in the reverse of the acquisition order, one release ending before the next. */
  lemma ReleasedInReverse(config: Config, log: seq<Entry>, p: nat, q: nat)
    requires Produced(config, log) && p < q < |log|
    requires log[p].ReleaseBegan? && log[q].ReleaseBegan?
    ensures log[q].i < log[p].i && ReleaseEnded(log[p].i) in log[..q] && Acquired(log[q].i) in log[..q]
  {
    RecordsAreMonitored(config, log);
    Before(log, q);
    var h, past := Observed(log[..q]), log[..q];
    assert log[p] in past;
    assert h.acquired[log[q].i] == log[q].i;
  }

  /** Once disposal or a release has begun, nothing is acquired, probed, activated or in use. */
  lemma NothingStartsAfterDisposal(config: Config, log: seq<Entry>, p: nat, q: nat)
    requires Produced(config, log) && p < q < |log|
    requires log[p].DisposeBegan? || log[p].ReleaseBegan?
    ensures log[q].DisposeEnded? || log[q].ReleaseBegan? || log[q].ReleaseEnded? || log[q].Became?
    ensures log[q].Became? ==> !log[q].state.Ready? && !log[q].state.Starting?
    ensures log[p].ReleaseBegan? ==> !log[q].DisposeEnded?
  {
    RecordsAreMonitored(config, log);
    Before(log, q);
    assert log[p] in log[..q];
    LeavingForbids(Observed(log[..q]), log[q], log[..q], p);
  }

  lemma LeavingForbids(h: History, e: Entry, past: seq<Entry>, p: nat)
    requires Allowed(h, e) && ResourceFacts(past, h) && RuntimeFacts(past, h) && StateFacts(past, h)
    requires p < |past| && (past[p].DisposeBegan? || past[p].ReleaseBegan?)
    ensures e.DisposeEnded? || e.ReleaseBegan? || e.ReleaseEnded? || e.Became?
    ensures e.Became? ==> !e.state.Ready? && !e.state.Starting?
    ensures past[p].ReleaseBegan? ==> !e.DisposeEnded?
  {
    assert past[p] in past;
    assert Leaving(h);
  }

  /** After a close request the state can only go from stopping to closed, once, and no connection,
      runtime or activation is begun. */
  lemma AfterCloseOnlyClosed(config: Config, log: seq<Entry>, p: nat, q: nat)
    requires Produced(config, log) && p < q < |log| && log[p] == Became(Stopping)
    ensures !log[q].AcquireBegan? && !log[q].MakeBegan? && !log[q].ActivationBegan?
    ensures log[q].Became? ==> log[q].state.ClosedDown? && Became(ClosedDown) !in log[..q]
  {
    RecordsAreMonitored(config, log);
    Before(log, q);
    assert log[p] in log[..q];
    StoppingForbids(Observed(log[..q]), log[q], log[..q]);
  }

  lemma StoppingForbids(h: History, e: Entry, past: seq<Entry>)
    requires Allowed(h, e) && StateFacts(past, h) && Became(Stopping) in past
    ensures !e.AcquireBegan? && !e.MakeBegan? && !e.ActivationBegan?
    ensures e.Became? ==> e.state.ClosedDown? && Became(ClosedDown) !in past
  {
  }

  /** When the session is closed, or its start failed, every acquired resource has been released and
      the runtime disposed, whatever disposal and releases threw; nothing is held or running. */
  lemma NothingIsLeftHeld(config: Config, s: Session)
    requires Reached(config, s) && (s.state.ClosedDown? || s.state.Failed?)
    ensures forall i: nat | Acquired(i) in s.log :: ReleaseEnded(i) in s.log
    ensures RuntimeMade in s.log ==> DisposeEnded in s.log
    ensures s.acquired == [] && !s.runtime && s.handles == {} && s.cleanup.Done?
    ensures Observed(s.log).busy == {}
  {
    var events :| Steps(New(config), events) == s;
    EverySessionKeeps(config, events);
    FactsHold(s.log);
    RestIsReleased(s, Observed(s.log));
  }

  lemma RestIsReleased(s: Session, h: History)
    requires Matches(s, h) && ResourceFacts(s.log, h) && RuntimeFacts(s.log, h)
    requires Suspended(s) && (s.state.ClosedDown? || s.state.Failed?)
    ensures forall i: nat | Acquired(i) in s.log :: ReleaseEnded(i) in s.log
    ensures RuntimeMade in s.log ==> DisposeEnded in s.log
    ensures s.acquired == [] && !s.runtime && s.handles == {} && s.cleanup.Done? && h.busy == {}
  {
    hide BusyMatches, InitMatches;
    assert s.cleanup.Done? by { FinishedMeansClean(s, h); }
  }

  lemma FinishedMeansClean(s: Session, h: History)
    requires Matches(s, h) && Suspended(s) && (s.state.ClosedDown? || s.state.Failed?)
    ensures s.cleanup.Done?
  {
  }

  /** A ready session holds every configured connection and, if it has anything to run, its runtime;
      no close was requested and nothing has been given back. */
  lemma ReadyIsComplete(config: Config, s: Session)
    requires Reached(config, s) && s.state.Ready?
    ensures forall i: nat | i < config.connections :: Acquired(i) in s.log && ReleaseBegan(i) !in s.log
    ensures config.connections > 0 || config.plans > 0 ==> s.runtime && RuntimeMade in s.log
    ensures Became(Stopping) !in s.log && DisposeBegan !in s.log && Startup !in Observed(s.log).busy
  {
    var events :| Steps(New(config), events) == s;
    EverySessionKeeps(config, events);
    FactsHold(s.log);
    ReadyHolds(s, Observed(s.log));
  }

  lemma ReadyHolds(s: Session, h: History)
    requires Matches(s, h) && ResourceFacts(s.log, h) && RuntimeFacts(s.log, h) && StateFacts(s.log, h)
    requires Suspended(s) && s.state.Ready?
    ensures forall i: nat | i < s.config.connections :: Acquired(i) in s.log && ReleaseBegan(i) !in s.log
    ensures s.config.connections > 0 || s.config.plans > 0 ==> s.runtime && RuntimeMade in s.log
    ensures Became(Stopping) !in s.log && DisposeBegan !in s.log && Startup !in h.busy
  {
  }

  // ----- closing always ends

  /** The reply that some pending call of a closing session is waiting to get. */
  function Awaited(s: Session): Event {
    match s.closing
    case AwaitStart =>
      (match s.init
       case Acquiring(_) => AcquireReply(true, true)
       case Making => RuntimeReply(true)
       case Probing(_) => ProbeReply(true)
       case RollingBack => AwaitedByCleanup(s, InitResumes)
       case _ => CloseResumes)
    case AwaitActivation(kind) => if s.Activated(kind).Running? then ActivationReply(kind, true) else CloseResumes
    case _ => AwaitedByCleanup(s, CloseResumes)
  }

  function AwaitedByCleanup(s: Session, next: Event): Event {
    if s.cleanup.Disposing? then DisposeReply(true)
    else if s.cleanup.Releasing? then ReleaseReply(true)
    else next
  }

  lemma AwaitedIsPossible(s: Session, h: History)
    requires Matches(s, h) && Suspended(s) && s.stopRequested && !s.state.ClosedDown?
    ensures IsReply(Awaited(s)) && Possible(s, Awaited(s))
  {
  }

  /** Starting again, activating or closing again on a session that was asked to close postpones
      nothing: no reply becomes due that was not due before. */
  lemma CallsPostponeNothing(s: Session, e: Event)
    requires Inv(s) && Suspended(s) && s.stopRequested && !IsReply(e)
    ensures Measure(Step(s, e)) == Measure(s) && Step(s, e).stopRequested
  {
    StopMeansClosing(s, Observed(s.log));
    hide Inv;
    if e.Activate? { SettlingIsFree(s.activations, e.kind); }
  }

  lemma StopMeansClosing(s: Session, h: History)
    requires StateMatches(s, h)
    ensures s.stopRequested ==> !s.closing.NotRequested?
  {
  }

  lemma SettlingIsFree(activations: map<Kind, Activation>, kind: Kind)
    ensures (kind !in activations || activations[kind].NotAsked?) ==>
      ActivationRank(activations[kind := Settled]) == ActivationRank(activations)
  {
    match kind case Workers => case Publisher => case Scheduler =>
  }

  function Fold(s: Session, events: seq<Event>): Session
    decreases |events|
  {
    if events == [] then s else Fold(Step(s, events[0]), events[1..])
  }

  /** How many of the events are replies that were due. */
  function Replies(s: Session, events: seq<Event>): nat
    decreases |events|
  {
    if events == [] then 0
    else (if IsReply(events[0]) && Possible(s, events[0]) then 1 else 0) + Replies(Step(s, events[0]), events[1..])
  }

  lemma {:induction false} RepliesRunOut(s: Session, events: seq<Event>)
    requires Inv(s) && Suspended(s) && s.stopRequested
    ensures Replies(s, events) <= Measure(s)
    ensures Inv(Fold(s, events)) && Suspended(Fold(s, events)) && Fold(s, events).stopRequested
    decreases |events|
  {
    if events == [] {
      InvIsSized(s);
    } else {
      hide Inv, Suspended, Measure, Possible, IsReply, Step;
      var e := events[0];
      StepKeeps(s, e);
      if !IsReply(e) {
        CallSuspends(s, e);
        CallsPostponeNothing(s, e);
      } else if Possible(s, e) {
        EveryReplyCounts(s, e);
      } else {
        ImpossibleChangesNothing(s, e);
      }
      RepliesRunOut(Step(s, e), events[1..]);
    }
  }

  /** Whatever happens to a session that was asked to close, further calls of start, close and the
      activations included: at most `Measure` replies are ever due, and while the session is not
      closed another one is.  Closing always ends. */
  lemma ClosingEnds(config: Config, s: Session, events: seq<Event>)
    requires Reached(config, s) && s.stopRequested
    ensures Replies(s, events) <= Measure(s)
    ensures var last := Fold(s, events);
      !last.state.ClosedDown? ==> exists e :: IsReply(e) && Possible(last, e)
  {
    var before :| Steps(New(config), before) == s;
    EverySessionKeeps(config, before);
    hide Steps;
    RepliesRunOut(s, events);
    var last := Fold(s, events);
    if !last.state.ClosedDown? {
      hide Fold, Replies;
      AwaitedIsPossible(last, Observed(last.log));
      assert IsReply(Awaited(last)) && Possible(last, Awaited(last));
    }
  }
}
