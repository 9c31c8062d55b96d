/** The engine session's lifecycle (engine-session.ts): start, close, the three activations and the
    clean-up race with each other, and any acquisition, probe, activation, disposal or release may
    fail.  One event is one reply or one resumption; impossible events change nothing. */
module EngineLifecycle {
  import opened Outcomes

  datatype EngineState = Idle | Disabled | Starting | Ready | Stopping | ClosedDown | Failed

  /** What the application was configured with.  `probes` lists the awaited checks after the runtime
      is made; an entry is true when the stop request is looked at right before that check. */
  datatype Config = Config(
    configured: bool,
    valid: bool,
    connections: nat,
    participants: bool,
    probes: seq<bool>,
    plans: nat,
    publisher: bool,
    scheduler: bool
  )

  datatype Kind = Workers | Publisher | Scheduler

  /** Where each of the concurrent async functions is suspended; `Executing`, `Unwinding` and
      `Proceeding` are the stretches between two awaits and never last beyond a step. */
  datatype Init = NotStarted | Executing | Acquiring(i: nat) | Making | Probing(j: nat) | RollingBack | Over(ok: bool)
  datatype Cleanup = NotBegun | Disposing | Unwinding(k: nat) | Releasing(k: nat) | Done(failed: bool)
  datatype Closing =
    | NotRequested | AwaitStart | Proceeding(kind: Kind) | AwaitActivation(kind: Kind) | AwaitCleanup | Finished(failed: bool)
  datatype Activation = NotAsked | Running(left: nat) | Settled

  datatype Entry =
    | Became(state: EngineState)
    | AcquireBegan(i: nat) | Acquired(i: nat) | AcquireFailed(i: nat)
    | MakeBegan | RuntimeMade | MakeFailed
    | ProbeBegan(j: nat) | ProbeEnded(j: nat)
    | ActivationBegan(kind: Kind) | ActivationEnded(kind: Kind)
    | DisposeBegan | DisposeEnded
    | ReleaseBegan(i: nat) | ReleaseEnded(i: nat)

  datatype Session = Session(
    config: Config,
    state: EngineState,
    stopRequested: bool,
    acquired: seq<nat>,
    runtime: bool,
    hasPublisher: bool,
    hasScheduler: bool,
    handles: set<Kind>,
    init: Init,
    cleanup: Cleanup,
    closing: Closing,
    activations: map<Kind, Activation>,
    failures: nat,
    log: seq<Entry>
  ) {
    function Note(e: Entry): Session {
      this.(log := log + [e])
    }

    function Become(next: EngineState): Session {
      this.(state := next).Note(Became(next))
    }

    /** `cleanup`: the first caller begins the release, later ones share it. */
    function BeginCleanup(): Session {
      if !cleanup.NotBegun? then this
      else if runtime then this.(cleanup := Disposing).Note(DisposeBegan)
      else this.(cleanup := Disposing)
    }

    /** The catch of `initialize`, up to its await. */
    function Rollback(): Session {
      this.(init := RollingBack).BeginCleanup()
    }

    function AcquireFrom(i: nat): Session {
      if stopRequested then Rollback()
      else if i < config.connections then this.(init := Acquiring(i)).Note(AcquireBegan(i))
      else if config.connections == 0 && config.plans == 0 then this.(init := Over(true)).Become(Ready)
      else if !config.participants then Rollback()
      else this.(init := Making, hasPublisher := config.publisher, hasScheduler := config.scheduler).Note(MakeBegan)
    }

    function ProbeFrom(j: nat): Session {
      if j < |config.probes| then
        if config.probes[j] && stopRequested then Rollback()
        else this.(init := Probing(j)).Note(ProbeBegan(j))
      else if stopRequested then Rollback()
      else this.(init := Over(true)).Become(Ready)
    }

    /** The resources before `k` are still to be released, last first. */
    function Unwind(): Session
      requires cleanup.Unwinding? && cleanup.k <= |acquired|
    {
      var k := cleanup.k;
      if k == 0 then this.(acquired := [], cleanup := Done(failures > 0))
      else this.(cleanup := Releasing(k - 1)).Note(ReleaseBegan(acquired[k - 1]))
    }

    function Activated(kind: Kind): Activation {
      if kind in activations then activations[kind] else NotAsked
    }

    /** `finishClose` past one activation. */
    function CloseAfter(kind: Kind): Session
      decreases match kind case Workers => 4 case Publisher => 2 case Scheduler => 0
    {
      match kind
      case Workers => this.(closing := Proceeding(Publisher)).CloseAt(Publisher)
      case Publisher => this.(closing := Proceeding(Scheduler)).CloseAt(Scheduler)
      case Scheduler => this.(closing := AwaitCleanup).BeginCleanup()
    }

    /** `finishClose` about to look at one activation. */
    function CloseAt(kind: Kind): Session
      decreases match kind case Workers => 5 case Publisher => 3 case Scheduler => 1
    {
      if !Activated(kind).NotAsked? then this.(closing := AwaitActivation(kind)) else CloseAfter(kind)
    }
  }

  function New(config: Config): Session {
    Session(config, Idle, false, [], false, false, false, {}, NotStarted, NotBegun, NotRequested, map[], 0, [])
  }

  datatype Event =
    | Start
    | AcquireReply(ok: bool, usable: bool)
    | RuntimeReply(ok: bool)
    | ProbeReply(ok: bool)
    | Activate(kind: Kind)
    | ActivationReply(kind: Kind, ok: bool)
    | Close
    | CloseResumes
    | DisposeReply(ok: bool)
    | ReleaseReply(ok: bool)
    | InitResumes

  predicate Possible(s: Session, e: Event) {
    match e
    case Start => true
    case AcquireReply(_, _) => s.init.Acquiring?
    case RuntimeReply(_) => s.init.Making?
    case ProbeReply(_) => s.init.Probing?
    case Activate(_) => true
    case ActivationReply(kind, _) => s.Activated(kind).Running?
    case Close => true
    case CloseResumes =>
      (match s.closing
       case AwaitStart => s.init.Over?
       case AwaitActivation(kind) => s.Activated(kind).Settled?
       case AwaitCleanup => s.cleanup.Done?
       case _ => false)
    case DisposeReply(_) => s.cleanup.Disposing?
    case ReleaseReply(_) => s.cleanup.Releasing? && s.cleanup.k < |s.acquired|
    case InitResumes => s.init.RollingBack? && s.cleanup.Done?
  }

  function OnStart(s: Session): Session {
    if s.stopRequested || !s.init.NotStarted? then s
    else
      var t := s.(init := Executing).Become(Starting);
      if !s.config.configured then t.(init := Over(true)).Become(Disabled)
      else if !s.config.valid then t.Rollback()
      else t.AcquireFrom(0)
  }

  function OnAcquire(s: Session, ok: bool, usable: bool): Session
    requires s.init.Acquiring?
  {
    var i := s.init.i;
    if !ok then s.(init := Executing).Note(AcquireFailed(i)).Rollback()
    else
      var t := s.(init := Executing, acquired := s.acquired + [i]).Note(Acquired(i));
      if usable then t.AcquireFrom(i + 1) else t.Rollback()
  }

  function OnRuntime(s: Session, ok: bool): Session {
    if ok then s.(init := Executing, runtime := true).Note(RuntimeMade).ProbeFrom(0)
    else s.(init := Executing).Note(MakeFailed).Rollback()
  }

  function OnProbe(s: Session, ok: bool): Session
    requires s.init.Probing?
  {
    var t := s.(init := Executing).Note(ProbeEnded(s.init.j));
    if ok then t.ProbeFrom(s.init.j + 1) else t.Rollback()
  }

  function Awaits(s: Session, kind: Kind): nat {
    match kind
    case Workers => 2 * s.config.plans
    case Publisher => if s.hasPublisher then 1 else 0
    case Scheduler => if s.hasScheduler then 1 else 0
  }

  function OnActivate(s: Session, kind: Kind): Session {
    if !s.Activated(kind).NotAsked? then s
    else if Awaits(s, kind) == 0 || !s.state.Ready? || !s.runtime || s.stopRequested then
      s.(activations := s.activations[kind := Settled])
    else s.(activations := s.activations[kind := Running(Awaits(s, kind))]).Note(ActivationBegan(kind))
  }

  /** Workers are recovered in a first round and started in a second; the others start at once. */
  function OnActivation(s: Session, kind: Kind, ok: bool): Session
    requires s.Activated(kind).Running?
  {
    var left := s.Activated(kind).left;
    var starts := kind != Workers || left <= s.config.plans;
    var t := if ok && starts then s.(handles := s.handles + {kind}) else s;
    if !ok || left <= 1 || s.stopRequested then
      t.(activations := s.activations[kind := Settled]).Note(ActivationEnded(kind))
    else t.(activations := s.activations[kind := Running(left - 1)])
  }

  function OnClose(s: Session): Session {
    if !s.closing.NotRequested? then s
    else
      var next := if s.init.NotStarted? then Proceeding(Workers) else AwaitStart;
      var t := s.(stopRequested := true, closing := next).Become(Stopping);
      if next.AwaitStart? then t else t.CloseAt(Workers)
  }

  function OnCloseResumed(s: Session): Session
    requires Possible(s, CloseResumes)
  {
    match s.closing
    case AwaitStart => s.(closing := Proceeding(Workers)).CloseAt(Workers)
    case AwaitActivation(kind) => s.CloseAfter(kind)
    case AwaitCleanup => s.(closing := Finished(s.cleanup.failed)).Become(ClosedDown)
  }

  /** `ok` is false when disposal threw or the runtime reported cleanup failures. */
  function OnDispose(s: Session, ok: bool): Session
    requires s.cleanup.Disposing?
  {
    var t := s.(cleanup := Unwinding(|s.acquired|), runtime := false, handles := {},
                failures := if ok then s.failures else s.failures + 1);
    (if s.runtime then t.Note(DisposeEnded) else t).Unwind()
  }

  function OnRelease(s: Session, ok: bool): Session
    requires Possible(s, ReleaseReply(ok))
  {
    s.(cleanup := Unwinding(s.cleanup.k), failures := if ok then s.failures else s.failures + 1)
    .Note(ReleaseEnded(s.acquired[s.cleanup.k])).Unwind()
  }

  function OnInitResumed(s: Session): Session {
    var t := s.(init := Over(false));
    if s.stopRequested then t else t.Become(Failed)
  }

  function Step(s: Session, e: Event): Session {
    if !Possible(s, e) then s
    else
      match e
      case Start => OnStart(s)
      case AcquireReply(ok, usable) => OnAcquire(s, ok, usable)
      case RuntimeReply(ok) => OnRuntime(s, ok)
      case ProbeReply(ok) => OnProbe(s, ok)
      case Activate(kind) => OnActivate(s, kind)
      case ActivationReply(kind, ok) => OnActivation(s, kind, ok)
      case Close => OnClose(s)
      case CloseResumes => OnCloseResumed(s)
      case DisposeReply(ok) => OnDispose(s, ok)
      case ReleaseReply(ok) => OnRelease(s, ok)
      case InitResumes => OnInitResumed(s)
  }

  function Steps(s: Session, events: seq<Event>): Session {
    if events == [] then s else Step(Steps(s, events[..|events| - 1]), events[|events| - 1])
  }

  // ----- the specification: what a log may contain, in terms of the log so far

  datatype User = Startup | Activating(kind: Kind)
  datatype Disposal = NotYet | Underway | Ended

  datatype History = History(
    state: EngineState,
    stop: bool,
    acquired: seq<nat>,
    released: seq<nat>,
    releasing: bool,
    made: bool,
    disposal: Disposal,
    busy: set<User>
  )

  const NOTHING_YET := History(Idle, false, [], [], false, false, NotYet, {})

  function Observe(h: History, e: Entry): History {
    match e
    case Became(next) => h.(state := next, stop := h.stop || next.Stopping?)
    case AcquireBegan(_) => h.(busy := h.busy + {Startup})
    case Acquired(i) => h.(busy := h.busy - {Startup}, acquired := h.acquired + [i])
    case AcquireFailed(_) => h.(busy := h.busy - {Startup})
    case MakeBegan => h.(busy := h.busy + {Startup})
    case RuntimeMade => h.(busy := h.busy - {Startup}, made := true)
    case MakeFailed => h.(busy := h.busy - {Startup})
    case ProbeBegan(_) => h.(busy := h.busy + {Startup})
    case ProbeEnded(_) => h.(busy := h.busy - {Startup})
    case ActivationBegan(kind) => h.(busy := h.busy + {Activating(kind)})
    case ActivationEnded(kind) => h.(busy := h.busy - {Activating(kind)})
    case DisposeBegan => h.(disposal := Underway)
    case DisposeEnded => h.(disposal := Ended)
    case ReleaseBegan(i) => h.(released := h.released + [i], releasing := true)
    case ReleaseEnded(_) => h.(releasing := false)
  }

  function Observed(log: seq<Entry>): History {
    if log == [] then NOTHING_YET else Observe(Observed(log[..|log| - 1]), log[|log| - 1])
  }

  /** Nobody is using the runtime or the resources, and the runtime, if any, is disposed. */
  predicate Quiescent(h: History) {
    h.busy == {} && (h.made ==> h.disposal.Ended?)
  }

  predicate AllReleased(h: History) {
    Quiescent(h) && !h.releasing && |h.released| == |h.acquired|
  }

  predicate Untouched(h: History) {
    h.released == [] && !h.releasing && h.disposal.NotYet?
  }

  predicate Allowed(h: History, e: Entry) {
    match e
    case Became(next) =>
      if h.stop then h.state.Stopping? && next.ClosedDown? && AllReleased(h)
      else
        (match next
         case Starting => h.state.Idle?
         case Disabled => h.state.Starting? && h.acquired == [] && !h.made && h.busy == {}
         case Ready => h.state.Starting? && h.busy == {} && Untouched(h)
         case Failed => h.state.Starting? && AllReleased(h)
         case Stopping => true
         case _ => false)
    case AcquireBegan(i) => !h.stop && h.state.Starting? && i == |h.acquired| && h.busy == {} && !h.made && Untouched(h)
    case Acquired(i) => Startup in h.busy && i == |h.acquired| && !h.made && Untouched(h)
    case AcquireFailed(_) => Startup in h.busy && !h.made && Untouched(h)
    case MakeBegan => !h.stop && h.state.Starting? && h.busy == {} && !h.made && Untouched(h)
    case RuntimeMade => Startup in h.busy && !h.made && Untouched(h)
    case MakeFailed => Startup in h.busy && !h.made && Untouched(h)
    case ProbeBegan(_) => h.busy == {} && h.made && Untouched(h)
    case ProbeEnded(_) => Startup in h.busy && h.made && Untouched(h)
    case ActivationBegan(kind) => !h.stop && h.state.Ready? && h.made && Untouched(h) && Activating(kind) !in h.busy
    case ActivationEnded(kind) => h.made && Untouched(h) && Activating(kind) in h.busy
    case DisposeBegan => h.busy == {} && h.made && Untouched(h)
    case DisposeEnded => h.disposal.Underway? && h.busy == {} && h.released == []
    case ReleaseBegan(i) =>
      && Quiescent(h) && !h.releasing && |h.released| < |h.acquired|
      && i == h.acquired[|h.acquired| - 1 - |h.released|]
    case ReleaseEnded(i) => Quiescent(h) && h.releasing && h.released != [] && i == h.released[|h.released| - 1]
  }

  ghost predicate Monitored(log: seq<Entry>) {
    forall i :: 0 <= i < |log| ==> Allowed(Observed(log[..i]), log[i])
  }

  lemma MonitorNote(log: seq<Entry>, e: Entry)
    requires Monitored(log) && Allowed(Observed(log), e)
    ensures Monitored(log + [e]) && Observed(log + [e]) == Observe(Observed(log), e)
  {
    var longer := log + [e];
    assert longer[..|log|] == log;
    forall i | 0 <= i < |longer| ensures Allowed(Observed(longer[..i]), longer[i]) {
      if i < |log| { assert longer[..i] == log[..i]; }
    }
  }

  // ----- the invariant

  predicate Working(init: Init) {
    init.Acquiring? || init.Making? || init.Probing?
  }

  ghost predicate BusyMatches(s: Session, h: History) {
    && (Startup in h.busy <==> Working(s.init))
    && (forall kind :: Activating(kind) in h.busy <==> s.Activated(kind).Running?)
    && (h.busy != {} ==> s.cleanup.NotBegun?)
    && (forall kind | s.Activated(kind).Running? :: s.init == Over(true) && s.runtime && s.Activated(kind).left > 0)
  }

  ghost predicate StateMatches(s: Session, h: History) {
    && s.state == h.state && s.stopRequested == h.stop
    && (s.closing.NotRequested? <==> !h.stop)
    && (h.stop ==> if s.closing.Finished? then s.state.ClosedDown? else s.state.Stopping?)
    && (!h.stop ==>
          (match s.init
           case NotStarted => s.state.Idle?
           case Over(true) => s.state.Ready? || s.state.Disabled?
           case Over(false) => s.state.Failed?
           case _ => s.state.Starting?))
  }

  ghost predicate CleanupMatches(s: Session, h: History) {
    && (s.runtime <==> h.made && !h.disposal.Ended?)
    && (match s.cleanup
        case NotBegun => Untouched(h) && s.acquired == h.acquired && !s.init.RollingBack? && !s.closing.AwaitCleanup?
        case Disposing => h.released == [] && !h.releasing && s.acquired == h.acquired
                          && h.disposal == if h.made then Underway else NotYet
        case Unwinding(k) =>
          && s.acquired == h.acquired && k <= |s.acquired| && !h.releasing
          && |h.released| == |h.acquired| - k && (h.made ==> h.disposal.Ended?) && s.handles == {}
        case Releasing(k) =>
          && s.acquired == h.acquired && k < |s.acquired| && h.releasing
          && |h.released| == |h.acquired| - k && h.released[|h.released| - 1] == s.acquired[k]
          && (h.made ==> h.disposal.Ended?) && s.handles == {}
        case Done(_) => AllReleased(h) && s.acquired == [] && s.handles == {})
    && (!s.cleanup.Done? ==> s.init != Over(false) && !s.closing.Finished?)
    && (!s.cleanup.NotBegun? ==> h.busy == {} && (h.stop || s.init.RollingBack? || s.init == Over(false)))
  }

  ghost predicate InitMatches(s: Session, h: History) {
    && (s.init.NotStarted? ==> h.acquired == [] && !h.made)
    && (s.init.Acquiring? ==> s.init.i == |h.acquired| && s.init.i < s.config.connections && !h.made)
    && (s.init.Executing? ==> s.cleanup.NotBegun?)
    && (s.init.Making? ==> !h.made)
    && (s.init.Probing? ==> h.made && s.init.j < |s.config.probes|)
    && |h.acquired| <= s.config.connections
    && (s.init.Making? || s.init.Probing? || h.made ==> |h.acquired| == s.config.connections)
    && (s.init == Over(true) && !s.state.Disabled? && s.cleanup.NotBegun? && !h.stop ==>
          |h.acquired| == s.config.connections && (h.made || (s.config.connections == 0 && s.config.plans == 0)))
    && (match s.closing
        case NotRequested => true
        case AwaitStart => !s.init.NotStarted?
        case Proceeding(kind) =>
          && (s.init.NotStarted? || s.init.Over?)
          && (!kind.Workers? ==> !s.Activated(Workers).Running?)
          && (kind.Scheduler? ==> !s.Activated(Publisher).Running?)
        case AwaitActivation(kind) =>
          && (s.init.NotStarted? || s.init.Over?) && !s.Activated(kind).NotAsked?
          && (!kind.Workers? ==> !s.Activated(Workers).Running?)
          && (kind.Scheduler? ==> !s.Activated(Publisher).Running?)
        case _ => s.init.NotStarted? || s.init.Over?)
  }

  ghost predicate Matches(s: Session, h: History) {
    BusyMatches(s, h) && StateMatches(s, h) && CleanupMatches(s, h) && InitMatches(s, h)
  }

  ghost predicate Inv(s: Session) {
    Monitored(s.log) && Matches(s, Observed(s.log))
  }

  // ----- every step may write what it writes, and keeps the invariant

  lemma NoteKeeps(s: Session, t: Session, e: Entry)
    requires Inv(s) && t.log == s.log + [e]
    requires Allowed(Observed(s.log), e) && Matches(t, Observe(Observed(s.log), e))
    ensures Inv(t)
  {
    MonitorNote(s.log, e);
  }

  /** The same, before the line is written. */
  lemma NotedKeeps(s: Session, t: Session, e: Entry)
    requires Inv(s) && t.log == s.log
    requires Allowed(Observed(s.log), e) && Matches(t, Observe(Observed(s.log), e))
    ensures Inv(t.Note(e))
  {
    hide Observe, Observed, Monitored, Allowed;
    var h := Observe(Observed(s.log), e);
    assert Matches(t.Note(e), h) by {
      forall kind ensures t.Note(e).Activated(kind) == t.Activated(kind) {}
    }
    NoteKeeps(s, t.Note(e), e);
  }

  /** One line of log at a time: how the matching of state and history moves along. */
  lemma BecomeMatches(s: Session, h: History, init: Init, next: EngineState)
    requires Matches(s, h) && s.init.Executing? && !h.stop && !next.Stopping?
    requires init == Over(true) && (next.Ready? || next.Disabled?)
    requires next.Ready? ==>
      |h.acquired| == s.config.connections && (h.made || (s.config.connections == 0 && s.config.plans == 0))
    ensures Matches(s.(init := init, state := next), Observe(h, Became(next)))
  {
  }

  lemma RollbackMatches(s: Session, h: History)
    requires Matches(s, h) && s.init.Executing?
    ensures s.runtime ==>
      Allowed(h, DisposeBegan) && Matches(s.(init := RollingBack, cleanup := Disposing), Observe(h, DisposeBegan))
    ensures !s.runtime ==> Matches(s.(init := RollingBack, cleanup := Disposing), h)
  {
    assert h.busy == {} by { NobodyBusy(s, h); }
  }

  lemma NobodyBusy(s: Session, h: History)
    requires BusyMatches(s, h) && !Working(s.init)
    requires forall kind :: !s.Activated(kind).Running?
    ensures h.busy == {}
  {
    forall user ensures user !in h.busy {
      match user
      case Startup =>
      case Activating(kind) => assert !s.Activated(kind).Running?;
    }
  }

  lemma RollbackKeeps(s: Session)
    requires Inv(s) && s.init.Executing?
    ensures Inv(s.Rollback())
  {
    var h := Observed(s.log);
    RollbackMatches(s, h);
    if s.runtime { NoteKeeps(s, s.Rollback(), DisposeBegan); }
  }

  lemma BeganMatches(s: Session, h: History, e: Entry, init: Init)
    requires Matches(s, h) && s.init.Executing?
    requires
      || (e.AcquireBegan? && init == Acquiring(e.i) && !s.runtime && !s.stopRequested
          && e.i == |s.acquired| < s.config.connections)
      || (e.ProbeBegan? && init == Probing(e.j) && s.runtime && e.j < |s.config.probes|)
    ensures Allowed(h, e) && Matches(s.(init := init), Observe(h, e))
  {
    NobodyBusy(s, h);
  }

  lemma MakeBeganMatches(s: Session, h: History, publisher: bool, scheduler: bool)
    requires Matches(s, h) && s.init.Executing? && !s.runtime && !s.stopRequested && |s.acquired| == s.config.connections
    ensures Allowed(h, MakeBegan)
    ensures Matches(s.(init := Making, hasPublisher := publisher, hasScheduler := scheduler), Observe(h, MakeBegan))
  {
    NobodyBusy(s, h);
  }

  /** Nothing more to do: the session is ready. */
  lemma ReadyMatches(s: Session, h: History)
    requires Matches(s, h) && s.init.Executing? && !s.stopRequested && |s.acquired| == s.config.connections
    requires s.runtime || (s.config.connections == 0 && s.config.plans == 0)
    ensures Allowed(h, Became(Ready)) && Matches(s.(init := Over(true), state := Ready), Observe(h, Became(Ready)))
  {
    NobodyBusy(s, h);
    BecomeMatches(s, h, Over(true), Ready);
  }

  lemma AcquireFromKeeps(s: Session, i: nat)
    requires Inv(s) && s.init.Executing? && !s.runtime && i == |s.acquired|
    ensures Inv(s.AcquireFrom(i))
  {
    AcquiredAtMost(s, Observed(s.log));
    hide Matches, Observe, Observed, Monitored, Allowed;
    var h := Observed(s.log);
    if s.stopRequested {
      RollbackKeeps(s);
    } else if i < s.config.connections {
      BeganMatches(s, h, AcquireBegan(i), Acquiring(i));
      NotedKeeps(s, s.(init := Acquiring(i)), AcquireBegan(i));
    } else if s.config.connections == 0 && s.config.plans == 0 {
      ReadyMatches(s, h);
      NotedKeeps(s, s.(init := Over(true), state := Ready), Became(Ready));
    } else if !s.config.participants {
      RollbackKeeps(s);
    } else {
      MakeBeganMatches(s, h, s.config.publisher, s.config.scheduler);
      NotedKeeps(s, s.(init := Making, hasPublisher := s.config.publisher, hasScheduler := s.config.scheduler), MakeBegan);
    }
  }

  lemma AcquiredAtMost(s: Session, h: History)
    requires Matches(s, h) && s.init.Executing?
    ensures |s.acquired| <= s.config.connections
    ensures s.runtime ==> |s.acquired| == s.config.connections
  {
  }

  lemma ProbeFromKeeps(s: Session, j: nat)
    requires Inv(s) && s.init.Executing? && s.runtime
    ensures Inv(s.ProbeFrom(j))
  {
    AcquiredAtMost(s, Observed(s.log));
    hide Matches, Observe, Observed, Monitored, Allowed;
    var h := Observed(s.log);
    if j < |s.config.probes| && !(s.config.probes[j] && s.stopRequested) {
      BeganMatches(s, h, ProbeBegan(j), Probing(j));
      NotedKeeps(s, s.(init := Probing(j)), ProbeBegan(j));
    } else if s.stopRequested {
      RollbackKeeps(s);
    } else {
      ReadyMatches(s, h);
      NotedKeeps(s, s.(init := Over(true), state := Ready), Became(Ready));
    }
  }

  lemma OnStartKeeps(s: Session)
    requires Inv(s)
    ensures Inv(OnStart(s))
  {
    if !s.stopRequested && s.init.NotStarted? {
      var t := s.(init := Executing).Become(Starting);
      NoteKeeps(s, t, Became(Starting));
      var h := Observed(t.log);
      NobodyBusy(t, h);
      if !t.config.configured {
        BecomeMatches(t, h, Over(true), Disabled);
        NoteKeeps(t, OnStart(s), Became(Disabled));
      } else if !t.config.valid {
        RollbackKeeps(t);
      } else {
        AcquireFromKeeps(t, 0);
      }
    }
  }

  lemma OnAcquireKeeps(s: Session, ok: bool, usable: bool)
    requires Inv(s) && s.init.Acquiring?
    ensures Inv(OnAcquire(s, ok, usable))
  {
    var i, h := s.init.i, Observed(s.log);
    if !ok {
      var t := s.(init := Executing).Note(AcquireFailed(i));
      NoteKeeps(s, t, AcquireFailed(i));
      RollbackKeeps(t);
    } else {
      var t := s.(init := Executing, acquired := s.acquired + [i]).Note(Acquired(i));
      NoteKeeps(s, t, Acquired(i));
      if usable { AcquireFromKeeps(t, i + 1); } else { RollbackKeeps(t); }
    }
  }

  lemma OnRuntimeKeeps(s: Session, ok: bool)
    requires Inv(s) && s.init.Making?
    ensures Inv(OnRuntime(s, ok))
  {
    if ok {
      var t := s.(init := Executing, runtime := true).Note(RuntimeMade);
      NoteKeeps(s, t, RuntimeMade);
      ProbeFromKeeps(t, 0);
    } else {
      var t := s.(init := Executing).Note(MakeFailed);
      NoteKeeps(s, t, MakeFailed);
      RollbackKeeps(t);
    }
  }

  lemma ProbeEndedMatches(s: Session, h: History)
    requires Matches(s, h) && s.init.Probing?
    ensures Allowed(h, ProbeEnded(s.init.j)) && s.runtime
    ensures Matches(s.(init := Executing), Observe(h, ProbeEnded(s.init.j)))
  {
  }

  lemma OnProbeKeeps(s: Session, ok: bool)
    requires Inv(s) && s.init.Probing?
    ensures Inv(OnProbe(s, ok))
  {
    hide Matches, Observe, Observed, Monitored, Allowed;
    var t := s.(init := Executing).Note(ProbeEnded(s.init.j));
    ProbeEndedMatches(s, Observed(s.log));
    NotedKeeps(s, s.(init := Executing), ProbeEnded(s.init.j));
    if ok { ProbeFromKeeps(t, s.init.j + 1); } else { RollbackKeeps(t); }
  }

  lemma ActivationMatches(s: Session, h: History, kind: Kind, next: Activation)
    requires Matches(s, h) && s.Activated(kind).NotAsked? && !next.NotAsked?
    requires next.Running? ==> s.runtime && s.state.Ready? && !h.stop && next.left > 0
    ensures next.Running? ==>
      Allowed(h, ActivationBegan(kind)) &&
      Matches(s.(activations := s.activations[kind := next]), Observe(h, ActivationBegan(kind)))
    ensures !next.Running? ==> Matches(s.(activations := s.activations[kind := next]), h)
  {
    var t := s.(activations := s.activations[kind := next]);
    forall other ensures t.Activated(other) == if other == kind then next else s.Activated(other) {}
  }

  lemma StopIsSeen(s: Session, h: History)
    requires StateMatches(s, h)
    ensures s.stopRequested == h.stop
  {
  }

  lemma OnActivateKeeps(s: Session, kind: Kind)
    requires Inv(s)
    ensures Inv(OnActivate(s, kind))
  {
    var t := OnActivate(s, kind);
    var next := t.Activated(kind);
    if s.Activated(kind).NotAsked? {
      StopIsSeen(s, Observed(s.log));
      hide Matches, Observe, Observed, Monitored, Allowed;
      ActivationMatches(s, Observed(s.log), kind, next);
      if next.Running? { NotedKeeps(s, s.(activations := s.activations[kind := next]), ActivationBegan(kind)); }
    }
  }

  lemma ActivationReplyMatches(s: Session, h: History, kind: Kind, next: Activation, handles: set<Kind>)
    requires Matches(s, h) && s.Activated(kind).Running?
    requires next.Settled? || (next.Running? && next.left > 0)
    ensures next.Settled? ==>
      Allowed(h, ActivationEnded(kind)) &&
      Matches(s.(activations := s.activations[kind := next], handles := handles), Observe(h, ActivationEnded(kind)))
    ensures next.Running? ==> Matches(s.(activations := s.activations[kind := next], handles := handles), h)
  {
    var t := s.(activations := s.activations[kind := next], handles := handles);
    assert Activating(kind) in h.busy;
    forall other ensures t.Activated(other) == if other == kind then next else s.Activated(other) {}
  }

  lemma OnActivationKeeps(s: Session, kind: Kind, ok: bool)
    requires Inv(s) && s.Activated(kind).Running?
    ensures Inv(OnActivation(s, kind, ok))
  {
    hide Matches, Observe, Observed, Monitored, Allowed;
    var t := OnActivation(s, kind, ok);
    var next := t.Activated(kind);
    ActivationReplyMatches(s, Observed(s.log), kind, next, t.handles);
    if next.Settled? {
      NotedKeeps(s, s.(activations := s.activations[kind := next], handles := t.handles), ActivationEnded(kind));
    }
  }

  /** `finishClose` has passed the start and the first activations. */
  lemma CloseAtKeeps(s: Session, kind: Kind)
    requires Inv(s) && s.closing == Proceeding(kind)
    ensures Inv(s.CloseAt(kind))
    decreases match kind case Workers => 5 case Publisher => 3 case Scheduler => 1
  {
    if s.Activated(kind).NotAsked? { CloseAfterKeeps(s, kind); }
  }

  lemma CloseAfterKeeps(s: Session, kind: Kind)
    requires Inv(s) && !s.Activated(kind).Running?
    requires s.closing == Proceeding(kind) || s.closing == AwaitActivation(kind)
    ensures Inv(s.CloseAfter(kind))
    decreases match kind case Workers => 4 case Publisher => 2 case Scheduler => 0
  {
    if kind.Scheduler? {
      CleanupBeginsAtLast(s);
    } else {
      var next := if kind.Workers? then Publisher else Scheduler;
      assert s.CloseAfter(kind) == s.(closing := Proceeding(next)).CloseAt(next);
      ProceedMatches(s, Observed(s.log), kind, next);
      hide Matches, Observed, Session.CloseAt, Session.CloseAfter;
      CloseAtKeeps(s.(closing := Proceeding(next)), next);
    }
  }

  lemma ProceedMatches(s: Session, h: History, kind: Kind, next: Kind)
    requires Matches(s, h) && !s.Activated(kind).Running?
    requires s.closing == Proceeding(kind) || s.closing == AwaitActivation(kind)
    requires (kind.Workers? && next.Publisher?) || (kind.Publisher? && next.Scheduler?)
    ensures Matches(s.(closing := Proceeding(next)), h)
  {
    forall other ensures s.(closing := Proceeding(next)).Activated(other) == s.Activated(other) {}
  }

  lemma CleanupBeginsMatches(s: Session, h: History)
    requires Matches(s, h) && !s.Activated(Scheduler).Running?
    requires s.closing == Proceeding(Scheduler) || s.closing == AwaitActivation(Scheduler)
    requires s.cleanup.NotBegun?
    ensures s.runtime ==>
      Allowed(h, DisposeBegan) && Matches(s.(closing := AwaitCleanup, cleanup := Disposing), Observe(h, DisposeBegan))
    ensures !s.runtime ==> Matches(s.(closing := AwaitCleanup, cleanup := Disposing), h)
  {
    assert h.busy == {} by {
      forall kind ensures !s.Activated(kind).Running? {
        match kind case Workers => case Publisher => case Scheduler =>
      }
      NobodyBusy(s, h);
    }
  }

  lemma CleanupBeginsAtLast(s: Session)
    requires Inv(s) && !s.Activated(Scheduler).Running?
    requires s.closing == Proceeding(Scheduler) || s.closing == AwaitActivation(Scheduler)
    ensures Inv(s.CloseAfter(Scheduler))
  {
    if s.cleanup.NotBegun? {
      CleanupBeginsMatches(s, Observed(s.log));
      if s.runtime { NoteKeeps(s, s.CloseAfter(Scheduler), DisposeBegan); }
    }
  }

  lemma StoppingMatches(s: Session, h: History, next: Closing)
    requires Matches(s, h) && s.closing.NotRequested?
    requires next == if s.init.NotStarted? then Proceeding(Workers) else AwaitStart
    ensures Allowed(h, Became(Stopping))
    ensures Matches(s.(stopRequested := true, closing := next, state := Stopping), Observe(h, Became(Stopping)))
  {
  }

  lemma OnCloseKeeps(s: Session)
    requires Inv(s)
    ensures Inv(OnClose(s))
  {
    if s.closing.NotRequested? {
      var next := if s.init.NotStarted? then Proceeding(Workers) else AwaitStart;
      var t := s.(stopRequested := true, closing := next, state := Stopping);
      StoppingMatches(s, Observed(s.log), next);
      hide Matches, Observe, Observed, Monitored, Allowed;
      NotedKeeps(s, t, Became(Stopping));
      if next.Proceeding? { CloseAtKeeps(t.Note(Became(Stopping)), Workers); }
    }
  }

  lemma OnCloseResumedKeeps(s: Session)
    requires Inv(s) && Possible(s, CloseResumes)
    ensures Inv(OnCloseResumed(s))
  {
    match s.closing
    case AwaitStart => CloseAtKeeps(s.(closing := Proceeding(Workers)), Workers);
    case AwaitActivation(kind) => CloseAfterKeeps(s, kind);
    case AwaitCleanup => NoteKeeps(s, OnCloseResumed(s), Became(ClosedDown));
  }

  lemma UnwindMatches(s: Session, h: History)
    requires Matches(s, h) && s.cleanup.Unwinding?
    ensures s.cleanup.k <= |s.acquired|
    ensures s.cleanup.k == 0 ==> Matches(s.(acquired := [], cleanup := Done(s.failures > 0)), h)
    ensures s.cleanup.k > 0 ==>
      var e := ReleaseBegan(s.acquired[s.cleanup.k - 1]);
      Allowed(h, e) && Matches(s.(cleanup := Releasing(s.cleanup.k - 1)), Observe(h, e))
  {
    var t := if s.cleanup.k > 0 then s.(cleanup := Releasing(s.cleanup.k - 1))
             else s.(acquired := [], cleanup := Done(s.failures > 0));
    forall kind ensures t.Activated(kind) == s.Activated(kind) {}
  }

  lemma UnwindKeeps(s: Session)
    requires Inv(s) && s.cleanup.Unwinding? && s.cleanup.k <= |s.acquired|
    ensures Inv(s.Unwind())
  {
    hide Matches, Observe, Observed, Monitored, Allowed;
    var k := s.cleanup.k;
    UnwindMatches(s, Observed(s.log));
    if k > 0 { NotedKeeps(s, s.(cleanup := Releasing(k - 1)), ReleaseBegan(s.acquired[k - 1])); }
  }

  lemma DisposeMatches(s: Session, h: History, failures: nat)
    requires Matches(s, h) && s.cleanup.Disposing?
    ensures
      var t := s.(cleanup := Unwinding(|s.acquired|), runtime := false, handles := {}, failures := failures);
      if s.runtime then Allowed(h, DisposeEnded) && Matches(t, Observe(h, DisposeEnded)) else Matches(t, h)
  {
  }

  lemma OnDisposeKeeps(s: Session, ok: bool)
    requires Inv(s) && s.cleanup.Disposing?
    ensures Inv(OnDispose(s, ok))
  {
    hide Matches, Observe, Observed, Monitored, Allowed;
    var failures := if ok then s.failures else s.failures + 1;
    var t := s.(cleanup := Unwinding(|s.acquired|), runtime := false, handles := {}, failures := failures);
    DisposeMatches(s, Observed(s.log), failures);
    if s.runtime {
      NotedKeeps(s, t, DisposeEnded);
      UnwindKeeps(t.Note(DisposeEnded));
    } else {
      UnwindKeeps(t);
    }
  }

  lemma ReleaseMatches(s: Session, h: History, failures: nat)
    requires Matches(s, h) && s.cleanup.Releasing?
    ensures s.cleanup.k < |s.acquired|
    ensures
      var e := ReleaseEnded(s.acquired[s.cleanup.k]);
      Allowed(h, e) && Matches(s.(cleanup := Unwinding(s.cleanup.k), failures := failures), Observe(h, e))
  {
  }

  lemma OnReleaseKeeps(s: Session, ok: bool)
    requires Inv(s) && Possible(s, ReleaseReply(ok))
    ensures Inv(OnRelease(s, ok))
  {
    hide Matches, Observe, Observed, Monitored, Allowed;
    var failures := if ok then s.failures else s.failures + 1;
    var t := s.(cleanup := Unwinding(s.cleanup.k), failures := failures);
    var e := ReleaseEnded(s.acquired[s.cleanup.k]);
    ReleaseMatches(s, Observed(s.log), failures);
    NotedKeeps(s, t, e);
    UnwindKeeps(t.Note(e));
  }

  lemma OnInitResumedKeeps(s: Session)
    requires Inv(s) && Possible(s, InitResumes)
    ensures Inv(OnInitResumed(s))
  {
    if !s.stopRequested { NoteKeeps(s, OnInitResumed(s), Became(Failed)); }
  }

  lemma StepKeeps(s: Session, e: Event)
    requires Inv(s)
    ensures Inv(Step(s, e))
  {
    hide Inv, OnStart, OnAcquire, OnRuntime, OnProbe, OnActivate, OnActivation, OnClose, OnCloseResumed,
         OnDispose, OnRelease, OnInitResumed;
    if Possible(s, e) {
      match e
      case Start => OnStartKeeps(s);
      case AcquireReply(ok, usable) => OnAcquireKeeps(s, ok, usable);
      case RuntimeReply(ok) => OnRuntimeKeeps(s, ok);
      case ProbeReply(ok) => OnProbeKeeps(s, ok);
      case Activate(kind) => OnActivateKeeps(s, kind);
      case ActivationReply(kind, ok) => OnActivationKeeps(s, kind, ok);
      case Close => OnCloseKeeps(s);
      case CloseResumes => OnCloseResumedKeeps(s);
      case DisposeReply(ok) => OnDisposeKeeps(s, ok);
      case ReleaseReply(ok) => OnReleaseKeeps(s, ok);
      case InitResumes => OnInitResumedKeeps(s);
    }
  }
}
