/** What the engine session makes of the answers it gets (engine-session.ts): which starts end ready,
    which activations run and leave a handle, and what the closing reports.  All of it is stated on
    the events of a session, counted by a reader who knows nothing of the session's variables but
    which answer was due. */
module EngineReplies {
  import opened Outcomes
  import opened EngineLifecycle
  import opened EngineGuarantees

  /** What a reader of the events has heard. */
  datatype Heard = Heard(
    faulty: bool,
    probed: nat,
    asked: set<Kind>,
    workers: nat,
    publisher: nat,
    scheduler: nat,
    failed: set<Kind>,
    cleanupFailures: nat
  ) {
    /** How many calls of an activation have been answered well. */
    function Good(kind: Kind): nat {
      match kind case Workers => workers case Publisher => publisher case Scheduler => scheduler
    }

    function OneMore(kind: Kind): Heard {
      match kind
      case Workers => this.(workers := workers + 1)
      case Publisher => this.(publisher := publisher + 1)
      case Scheduler => this.(scheduler := scheduler + 1)
    }
  }

  const NOTHING_HEARD := Heard(false, 0, {}, 0, 0, 0, {}, 0)

  function Hear(h: Heard, s: Session, e: Event): Heard {
    if !Possible(s, e) then h
    else
      match e
      case AcquireReply(ok, usable) => h.(faulty := h.faulty || !ok || !usable)
      case RuntimeReply(ok) => h.(faulty := h.faulty || !ok)
      case ProbeReply(ok) => if ok then h.(probed := h.probed + 1) else h.(faulty := true)
      case Activate(kind) => h.(asked := h.asked + {kind})
      case ActivationReply(kind, ok) => if ok then h.OneMore(kind) else h.(failed := h.failed + {kind})
      case DisposeReply(ok) => if ok then h else h.(cleanupFailures := h.cleanupFailures + 1)
      case ReleaseReply(ok) => if ok then h else h.(cleanupFailures := h.cleanupFailures + 1)
      case _ => h
  }

  function HeardFrom(config: Config, events: seq<Event>): Heard {
    if events == [] then NOTHING_HEARD
    else
      var before := events[..|events| - 1];
      Hear(HeardFrom(config, before), Steps(New(config), before), events[|events| - 1])
  }

  // ----- what a configuration asks for

  predicate Idle(c: Config) {
    c.connections == 0 && c.plans == 0
  }

  predicate Startable(c: Config) {
    c.configured && c.valid && (c.participants || Idle(c))
  }

  /** The calls of a complete activation: each plan is recovered and then started. */
  function Calls(c: Config, kind: Kind): nat {
    match kind
    case Workers => 2 * c.plans
    case Publisher => if c.publisher then 1 else 0
    case Scheduler => if c.scheduler then 1 else 0
  }

  /** Those of them that come before anything is started. */
  function Recoveries(c: Config, kind: Kind): nat {
    if kind.Workers? then c.plans else 0
  }

  // ----- how the session's variables stand to what was heard

  predicate NoVerdict(log: seq<Entry>) {
    Became(Ready) !in log && Became(Disabled) !in log && Became(Failed) !in log
  }

  ghost predicate StartTells(s: Session, faulty: bool, probed: nat) {
    var c := s.config;
    && (Became(Ready) in s.log <==> s.init == Over(true) && c.configured)
    && (Became(Disabled) in s.log <==> s.init == Over(true) && !c.configured)
    && (Became(Failed) in s.log ==> s.init == Over(false))
    && (s.init.Over? && !s.stopRequested ==>
          s.state == if !s.init.ok then Failed else if c.configured then Ready else Disabled)
    && (match s.init
        case NotStarted => !faulty && probed == 0
        case Acquiring(_) => !faulty && probed == 0 && c.configured && c.valid
        case Making => !faulty && probed == 0 && Startable(c) && !Idle(c)
        case Probing(j) => !faulty && probed == j && Startable(c) && !Idle(c)
        case Over(true) =>
          && !faulty
          && (c.configured ==> Startable(c) && (Idle(c) || probed == |c.probes|))
        case _ => c.configured && (s.stopRequested || !Startable(c) || faulty))
  }

  ghost predicate ActivationTells(s: Session, h: Heard, kind: Kind) {
    && (kind in h.asked <==> !s.Activated(kind).NotAsked?)
    && (ActivationBegan(kind) in s.log ==> kind in h.asked)
    && (match s.Activated(kind)
        case NotAsked => h.Good(kind) == 0 && kind !in h.failed
        case Running(left) =>
          && ActivationBegan(kind) in s.log && kind !in h.failed
          && h.Good(kind) + left == Calls(s.config, kind)
        case Settled =>
          ActivationBegan(kind) in s.log ==>
            kind in h.failed || h.Good(kind) == Calls(s.config, kind) || s.stopRequested)
    && (s.cleanup.NotBegun? || s.cleanup.Disposing? ==>
          (kind in s.handles <==> h.Good(kind) > Recoveries(s.config, kind)))
  }

  ghost predicate CleanupTells(s: Session, failures: nat) {
    && s.failures == failures
    && (s.cleanup.Done? ==> s.cleanup.failed == (failures > 0))
    && (s.closing.Finished? ==> s.cleanup.Done? && s.closing.failed == (failures > 0))
  }

  /** What making the runtime fixed. */
  ghost predicate RuntimeTells(s: Session) {
    s.init.Making? || s.init.Probing? || s.runtime ==>
      s.hasPublisher == s.config.publisher && s.hasScheduler == s.config.scheduler
  }

  ghost predicate Tells(s: Session, h: Heard) {
    && StartTells(s, h.faulty, h.probed)
    && (forall kind :: ActivationTells(s, h, kind))
    && CleanupTells(s, h.cleanupFailures)
    && RuntimeTells(s)
  }

  // ----- every step keeps it

  predicate Plain(e: Entry) {
    !e.ActivationBegan? && (e.Became? ==> e.state.Starting? || e.state.Stopping? || e.state.ClosedDown?)
  }

  /** Neither a verdict on the start nor an activation is written. */
  ghost predicate Quietly(log: seq<Entry>, longer: seq<Entry>) {
    log <= longer && forall i | |log| <= i < |longer| :: Plain(longer[i])
  }

  lemma QuietLines(log: seq<Entry>, longer: seq<Entry>, e: Entry)
    requires Quietly(log, longer) && !Plain(e)
    ensures e in longer <==> e in log
  {
    if e in longer {
      var i :| 0 <= i < |longer| && longer[i] == e;
      assert i < |log|;
    }
  }

  lemma StartStays(s: Session, t: Session, faulty: bool, probed: nat)
    requires StartTells(s, faulty, probed) && Quietly(s.log, t.log)
    requires t.config == s.config && t.init == s.init && (s.stopRequested ==> t.stopRequested)
    requires t.stopRequested || t.state == s.state
    ensures StartTells(t, faulty, probed)
  {
    QuietLines(s.log, t.log, Became(Ready));
    QuietLines(s.log, t.log, Became(Disabled));
    QuietLines(s.log, t.log, Became(Failed));
  }

  /** Whatever does not touch an activation leaves what is known of it. */
  lemma ActivationStays(s: Session, t: Session, h: Heard, kind: Kind)
    requires ActivationTells(s, h, kind)
    requires ActivationBegan(kind) in t.log <==> ActivationBegan(kind) in s.log
    requires t.config == s.config && t.Activated(kind) == s.Activated(kind) && (s.stopRequested ==> t.stopRequested)
    requires t.cleanup.NotBegun? || t.cleanup.Disposing? ==>
      (s.cleanup.NotBegun? || s.cleanup.Disposing?) && (kind in t.handles <==> kind in s.handles)
    ensures ActivationTells(t, h, kind)
  {
  }

  lemma RollbackTells(s: Session, faulty: bool, probed: nat)
    requires NoVerdict(s.log) && s.config.configured
    requires s.stopRequested || !Startable(s.config) || faulty
    ensures StartTells(s.Rollback(), faulty, probed) && Begins(s, s.Rollback())
  {
  }

  /** From `s` to `t` the start goes on, and nothing else but the clean-up can begin. */
  ghost predicate Begins(s: Session, t: Session) {
    && (forall kind :: ActivationBegan(kind) in t.log <==> ActivationBegan(kind) in s.log)
    && t.config == s.config && t.activations == s.activations && t.stopRequested == s.stopRequested
    && t.handles == s.handles && t.failures == s.failures && t.closing == s.closing
    && (t.cleanup == s.cleanup || (s.cleanup.NotBegun? && t.cleanup.Disposing?))
  }

  lemma AcquireFromTells(s: Session, i: nat)
    requires NoVerdict(s.log) && s.config.configured && s.config.valid && s.init.Executing? && !s.runtime
    ensures StartTells(s.AcquireFrom(i), false, 0) && Begins(s, s.AcquireFrom(i))
  {
    hide Session.Rollback;
    if s.stopRequested || !Startable(s.config) { RollbackTells(s, false, 0); }
  }

  lemma ProbeFromTells(s: Session, j: nat)
    requires NoVerdict(s.log) && Startable(s.config) && !Idle(s.config) && s.init.Executing? && s.runtime
    requires j <= |s.config.probes|
    ensures StartTells(s.ProbeFrom(j), false, j) && Begins(s, s.ProbeFrom(j))
  {
    hide Session.Rollback;
    if s.stopRequested { RollbackTells(s, false, j); }
  }

  lemma NoVerdictYet(s: Session, faulty: bool, probed: nat)
    requires StartTells(s, faulty, probed) && !s.init.Over?
    ensures NoVerdict(s.log)
  {
  }

  lemma OnStartTells(s: Session)
    requires StartTells(s, false, 0) && s.init.NotStarted? && !s.stopRequested && !s.runtime
    ensures StartTells(OnStart(s), false, 0) && Begins(s, OnStart(s))
  {
    hide Session.Rollback, Session.AcquireFrom;
    var t := s.(init := Executing).Become(Starting);
    assert NoVerdict(t.log);
    if t.config.configured {
      if t.config.valid { AcquireFromTells(t, 0); } else { RollbackTells(t, false, 0); }
    }
  }

  lemma OnAcquireTells(s: Session, ok: bool, usable: bool)
    requires StartTells(s, false, 0) && s.init.Acquiring? && !s.runtime
    ensures StartTells(OnAcquire(s, ok, usable), !ok || !usable, 0) && Begins(s, OnAcquire(s, ok, usable))
  {
    NoVerdictYet(s, false, 0);
    assert s.config.configured && s.config.valid;
    hide OnAcquire, StartTells;
    if ok && usable { AcquiredTells(s); } else { NotAcquiredTells(s, ok, usable); }
  }

  lemma AcquiredTells(s: Session)
    requires NoVerdict(s.log) && s.config.configured && s.config.valid && s.init.Acquiring? && !s.runtime
    ensures StartTells(OnAcquire(s, true, true), false, 0) && Begins(s, OnAcquire(s, true, true))
  {
    hide Session.AcquireFrom, StartTells;
    var i := s.init.i;
    AcquireFromTells(s.(init := Executing, acquired := s.acquired + [i]).Note(Acquired(i)), i + 1);
  }

  lemma NotAcquiredTells(s: Session, ok: bool, usable: bool)
    requires NoVerdict(s.log) && s.config.configured && s.init.Acquiring? && (!ok || !usable)
    ensures StartTells(OnAcquire(s, ok, usable), true, 0) && Begins(s, OnAcquire(s, ok, usable))
  {
    hide Session.Rollback, Session.AcquireFrom, StartTells;
    var i := s.init.i;
    RollbackTells(
      if ok then s.(init := Executing, acquired := s.acquired + [i]).Note(Acquired(i))
      else s.(init := Executing).Note(AcquireFailed(i)), true, 0);
  }

  lemma OnRuntimeTells(s: Session, ok: bool)
    requires StartTells(s, false, 0) && s.init.Making?
    ensures StartTells(OnRuntime(s, ok), !ok, 0) && Begins(s, OnRuntime(s, ok))
  {
    NoVerdictYet(s, false, 0);
    hide Session.Rollback, Session.ProbeFrom;
    if ok { ProbeFromTells(s.(init := Executing, runtime := true).Note(RuntimeMade), 0); }
    else { RollbackTells(s.(init := Executing).Note(MakeFailed), true, 0); }
  }

  lemma OnProbeTells(s: Session, ok: bool)
    requires s.init.Probing? && StartTells(s, false, s.init.j) && s.runtime && s.init.j < |s.config.probes|
    ensures StartTells(OnProbe(s, ok), !ok, if ok then s.init.j + 1 else s.init.j) && Begins(s, OnProbe(s, ok))
  {
    NoVerdictYet(s, false, s.init.j);
    hide Session.Rollback, Session.ProbeFrom;
    var t := s.(init := Executing).Note(ProbeEnded(s.init.j));
    if ok { ProbeFromTells(t, s.init.j + 1); } else { RollbackTells(t, true, s.init.j); }
  }

  lemma OnInitResumedTells(s: Session, faulty: bool, probed: nat)
    requires StartTells(s, faulty, probed) && s.init.RollingBack?
    ensures StartTells(OnInitResumed(s), faulty, probed) && Begins(s, OnInitResumed(s))
  {
    NoVerdictYet(s, faulty, probed);
  }

  lemma StartEventTells(s: Session, e: Event, h: Heard)
    requires Inv(s) && Tells(s, h) && Possible(s, e)
    requires e.Start? || e.AcquireReply? || e.RuntimeReply? || e.ProbeReply? || e.InitResumes?
    ensures var h' := Hear(h, s, e);
            && StartTells(Step(s, e), h'.faulty, h'.probed) && Begins(s, Step(s, e))
            && h' == h.(faulty := h'.faulty, probed := h'.probed)
  {
    Nothing(s);
    hide Inv, Session.Rollback, Session.ProbeFrom, Session.AcquireFrom, ActivationTells, CleanupTells, RuntimeTells;
    match e
    case Start =>
      if s.init.NotStarted? && !s.stopRequested {
        OnStartTells(s);
      }
    case AcquireReply(ok, usable) => OnAcquireTells(s, ok, usable);
    case RuntimeReply(ok) => OnRuntimeTells(s, ok);
    case ProbeReply(ok) => OnProbeTells(s, ok);
    case InitResumes => OnInitResumedTells(s, h.faulty, h.probed);
  }

  lemma Nothing(s: Session)
    requires Inv(s)
    ensures s.init.NotStarted? || s.init.Acquiring? || s.init.Making? ==> !s.runtime
    ensures s.init.Probing? ==> s.runtime && s.init.j < |s.config.probes|
    ensures forall kind | s.Activated(kind).Running? :: s.cleanup.NotBegun? && s.runtime
  {
    var h := Observed(s.log);
    forall kind | s.Activated(kind).Running? ensures s.cleanup.NotBegun? && s.runtime {
      assert Activating(kind) in h.busy;
    }
    assert s.init.Probing? ==> Startup in h.busy;
  }

  /** The rest of what is known is not touched by the start. */
  lemma StartStepTells(s: Session, e: Event, h: Heard)
    requires Inv(s) && Tells(s, h) && Possible(s, e)
    requires e.Start? || e.AcquireReply? || e.RuntimeReply? || e.ProbeReply? || e.InitResumes?
    ensures Tells(Step(s, e), Hear(h, s, e))
  {
    StartEventTells(s, e, h);
    RuntimeStep(s, e);
    var t, h' := Step(s, e), Hear(h, s, e);
    hide Step, Hear, Inv, StartTells, RuntimeTells;
    forall kind ensures ActivationTells(t, h', kind) {
      assert ActivationTells(s, h, kind);
      assert forall other :: h'.Good(other) == h.Good(other);
      assert ActivationTells(s, h', kind);
      ActivationStays(s, t, h', kind);
    }
  }

  /** What making the runtime fixed changes only with the start. */
  lemma RuntimeStays(s: Session, t: Session)
    requires RuntimeTells(s) && t.config == s.config && t.init == s.init && (t.runtime ==> s.runtime)
    requires t.hasPublisher == s.hasPublisher && t.hasScheduler == s.hasScheduler
    ensures RuntimeTells(t)
  {
  }

  lemma RuntimeStep(s: Session, e: Event)
    requires Inv(s) && RuntimeTells(s) && Possible(s, e)
    requires e.Start? || e.AcquireReply? || e.RuntimeReply? || e.ProbeReply? || e.InitResumes?
    ensures RuntimeTells(Step(s, e))
  {
    Nothing(s);
    hide Inv;
    match e
    case Start => RuntimeByStart(s);
    case AcquireReply(ok, usable) => RuntimeByAcquire(s, ok, usable);
    case RuntimeReply(ok) => RuntimeByMaking(s, ok);
    case ProbeReply(ok) => RuntimeByProbe(s, ok);
    case InitResumes =>
  }

  lemma RuntimeByStart(s: Session)
    requires RuntimeTells(s) && (s.init.NotStarted? ==> !s.runtime)
    ensures RuntimeTells(OnStart(s))
  {
  }

  lemma RuntimeByAcquire(s: Session, ok: bool, usable: bool)
    requires s.init.Acquiring? && !s.runtime
    ensures RuntimeTells(OnAcquire(s, ok, usable))
  {
  }

  lemma RuntimeByMaking(s: Session, ok: bool)
    requires s.init.Making? && RuntimeTells(s)
    ensures RuntimeTells(OnRuntime(s, ok))
  {
  }

  lemma RuntimeByProbe(s: Session, ok: bool)
    requires s.init.Probing? && RuntimeTells(s)
    ensures RuntimeTells(OnProbe(s, ok))
  {
  }

  /** What closing leaves alone, until the clean-up has been awaited. */
  ghost predicate Closes(s: Session, t: Session) {
    && Quietly(s.log, t.log) && t.config == s.config && t.init == s.init && t.runtime == s.runtime
    && t.hasPublisher == s.hasPublisher && t.hasScheduler == s.hasScheduler
    && t.activations == s.activations && t.handles == s.handles && t.failures == s.failures
    && (s.stopRequested ==> t.stopRequested) && (t.stopRequested || t.state == s.state)
    && (t.cleanup == s.cleanup || (s.cleanup.NotBegun? && t.cleanup.Disposing?))
  }

  lemma CloseAtCloses(s: Session, kind: Kind)
    ensures Closes(s, s.CloseAt(kind)) && !s.CloseAt(kind).closing.Finished?
    decreases match kind case Workers => 5 case Publisher => 3 case Scheduler => 1
  {
    if s.Activated(kind).NotAsked? { CloseAfterCloses(s, kind); }
  }

  lemma CloseAfterCloses(s: Session, kind: Kind)
    ensures Closes(s, s.CloseAfter(kind)) && !s.CloseAfter(kind).closing.Finished?
    decreases match kind case Workers => 4 case Publisher => 2 case Scheduler => 0
  {
    if !kind.Scheduler? {
      var next := if kind.Workers? then Publisher else Scheduler;
      assert s.CloseAfter(kind) == s.(closing := Proceeding(next)).CloseAt(next);
      hide Session.CloseAt, Session.CloseAfter;
      CloseAtCloses(s.(closing := Proceeding(next)), next);
    }
  }

  lemma CloseCloses(s: Session)
    ensures Closes(s, OnClose(s)) && (OnClose(s).closing == s.closing || !OnClose(s).closing.Finished?)
  {
    hide Session.CloseAt;
    if s.closing.NotRequested? && s.init.NotStarted? {
      CloseAtCloses(s.(stopRequested := true, closing := Proceeding(Workers)).Become(Stopping), Workers);
    }
  }

  lemma CloseResumedCloses(s: Session)
    requires Possible(s, CloseResumes) && s.stopRequested
    ensures Closes(s, OnCloseResumed(s))
    ensures OnCloseResumed(s).closing.Finished? ==> s.cleanup.Done? && OnCloseResumed(s).closing.failed == s.cleanup.failed
  {
    hide Session.CloseAt, Session.CloseAfter;
    match s.closing
    case AwaitStart => CloseAtCloses(s.(closing := Proceeding(Workers)), Workers);
    case AwaitActivation(kind) => CloseAfterCloses(s, kind);
    case AwaitCleanup =>
  }

  lemma ClosesTells(s: Session, t: Session, h: Heard)
    requires Tells(s, h) && Closes(s, t)
    requires t.closing.Finished? ==> t.closing == s.closing || (s.cleanup.Done? && t.closing.failed == s.cleanup.failed)
    ensures Tells(t, h)
  {
    StartStays(s, t, h.faulty, h.probed);
    RuntimeStays(s, t);
    hide StartTells, RuntimeTells, Quietly;
    forall kind ensures ActivationTells(t, h, kind) {
      QuietLines(s.log, t.log, ActivationBegan(kind));
      ActivationStays(s, t, h, kind);
    }
  }

  lemma CloseStepTells(s: Session, e: Event, h: Heard)
    requires Tells(s, h) && Possible(s, e) && (e.Close? || (e.CloseResumes? && s.stopRequested))
    ensures Tells(Step(s, e), Hear(h, s, e))
  {
    if e.Close? { CloseCloses(s); } else { CloseResumedCloses(s); }
    hide Tells, Closes, OnClose, OnCloseResumed;
    ClosesTells(s, Step(s, e), h);
  }

  /** The clean-up's own replies. */
  lemma ReleaseStepTells(s: Session, e: Event, h: Heard)
    requires Tells(s, h) && Possible(s, e) && (e.DisposeReply? || e.ReleaseReply?)
    requires !s.closing.Finished?
    ensures Tells(Step(s, e), Hear(h, s, e))
  {
    CleanupReplyTells(s, e, h.cleanupFailures);
    hide Step, Tells, Cleans, CleanupTells;
    CleansTells(s, Step(s, e), h, if e.ok then h.cleanupFailures else h.cleanupFailures + 1);
  }

  lemma CleansTells(s: Session, t: Session, h: Heard, failures: nat)
    requires Tells(s, h) && Cleans(s, t) && CleanupTells(t, failures)
    ensures Tells(t, h.(cleanupFailures := failures))
  {
    var h' := h.(cleanupFailures := failures);
    RuntimeStays(s, t);
    StartStays(s, t, h.faulty, h.probed);
    hide StartTells, RuntimeTells, Quietly, CleanupTells;
    forall kind ensures ActivationTells(t, h', kind) {
      assert ActivationTells(s, h, kind) && ActivationTells(s, h', kind);
      QuietLines(s.log, t.log, ActivationBegan(kind));
      ActivationStays(s, t, h', kind);
    }
  }

  ghost predicate Cleans(s: Session, t: Session) {
    && Quietly(s.log, t.log) && t.config == s.config && t.init == s.init && (t.runtime ==> s.runtime)
    && t.hasPublisher == s.hasPublisher && t.hasScheduler == s.hasScheduler
    && t.activations == s.activations && t.stopRequested == s.stopRequested && t.state == s.state
    && !t.cleanup.NotBegun? && !t.cleanup.Disposing?
  }

  lemma UnwindTells(s: Session)
    requires s.cleanup.Unwinding? && s.cleanup.k <= |s.acquired| && !s.closing.Finished?
    ensures Cleans(s, s.Unwind()) && CleanupTells(s.Unwind(), s.failures)
  {
  }

  lemma CleanupReplyTells(s: Session, e: Event, failures: nat)
    requires CleanupTells(s, failures) && Possible(s, e) && (e.DisposeReply? || e.ReleaseReply?)
    requires !s.closing.Finished?
    ensures Cleans(s, Step(s, e)) && CleanupTells(Step(s, e), if e.ok then failures else failures + 1)
  {
    hide Session.Unwind;
    var after := if e.ok then failures else failures + 1;
    match e
    case DisposeReply(ok) =>
      var t := s.(cleanup := Unwinding(|s.acquired|), runtime := false, handles := {}, failures := after);
      UnwindTells(if s.runtime then t.Note(DisposeEnded) else t);
    case ReleaseReply(ok) =>
      UnwindTells(s.(cleanup := Unwinding(s.cleanup.k), failures := after).Note(ReleaseEnded(s.acquired[s.cleanup.k])));
  }

  // ----- the activations

  /** Only `kind` is touched, and at most one line of its own is written. */
  ghost predicate Touches(s: Session, t: Session, kind: Kind) {
    && t == s.(activations := t.activations, handles := t.handles, log := t.log)
    && (forall other | other != kind ::
          t.Activated(other) == s.Activated(other) && (other in t.handles <==> other in s.handles))
    && (t.log == s.log || t.log == s.log + [ActivationBegan(kind)] || t.log == s.log + [ActivationEnded(kind)])
  }

  ghost predicate HearsOf(h: Heard, h': Heard, kind: Kind) {
    && h'.faulty == h.faulty && h'.probed == h.probed && h'.cleanupFailures == h.cleanupFailures
    && (forall other | other != kind ::
          && h'.Good(other) == h.Good(other)
          && (other in h'.asked <==> other in h.asked) && (other in h'.failed <==> other in h.failed))
  }

  lemma OtherStays(s: Session, t: Session, h: Heard, h': Heard, kind: Kind, other: Kind)
    requires ActivationTells(s, h, other) && other != kind && Touches(s, t, kind) && HearsOf(h, h', kind)
    ensures ActivationTells(t, h', other)
  {
    assert ActivationBegan(other) in t.log <==> ActivationBegan(other) in s.log;
  }

  lemma StartUntouched(s: Session, t: Session, kind: Kind, faulty: bool, probed: nat)
    requires StartTells(s, faulty, probed) && Touches(s, t, kind)
    ensures StartTells(t, faulty, probed)
  {
    assert forall next :: Became(next) in t.log <==> Became(next) in s.log;
  }

  lemma TouchTells(s: Session, t: Session, h: Heard, h': Heard, kind: Kind)
    requires Tells(s, h) && Touches(s, t, kind) && HearsOf(h, h', kind) && ActivationTells(t, h', kind)
    ensures Tells(t, h')
  {
    StartUntouched(s, t, kind, h.faulty, h.probed);
    hide StartTells, ActivationTells;
    forall other ensures ActivationTells(t, h', other) {
      if other != kind { OtherStays(s, t, h, h', kind, other); }
    }
  }

  lemma ActivateStepTells(s: Session, kind: Kind, h: Heard)
    requires Tells(s, h)
    ensures Tells(Step(s, Activate(kind)), Hear(h, s, Activate(kind)))
  {
    var t, h' := Step(s, Activate(kind)), Hear(h, s, Activate(kind));
    if s.runtime { AwaitsAreCalls(s, kind); }
    assert ActivationTells(s, h, kind);
    ActivateOne(s, kind, h);
    ActivateTouches(s, kind);
    hide Step, StartTells, ActivationTells, CleanupTells, RuntimeTells, Touches;
    TouchTells(s, t, h, h', kind);
  }

  lemma ActivateTouches(s: Session, kind: Kind)
    ensures Touches(s, Step(s, Activate(kind)), kind)
  {
  }

  lemma AwaitsAreCalls(s: Session, kind: Kind)
    requires RuntimeTells(s) && s.runtime
    ensures Awaits(s, kind) == Calls(s.config, kind)
  {
  }

  lemma ActivateOne(s: Session, kind: Kind, h: Heard)
    requires ActivationTells(s, h, kind) && (s.runtime ==> Awaits(s, kind) == Calls(s.config, kind))
    ensures ActivationTells(Step(s, Activate(kind)), Hear(h, s, Activate(kind)), kind)
  {
  }

  lemma ActivationReplyTouches(s: Session, kind: Kind, ok: bool)
    requires s.Activated(kind).Running?
    ensures Touches(s, OnActivation(s, kind, ok), kind)
  {
  }

  lemma ReplyOne(s: Session, kind: Kind, ok: bool, h: Heard)
    requires ActivationTells(s, h, kind) && s.Activated(kind).Running? && s.Activated(kind).left > 0
    requires s.cleanup.NotBegun?
    ensures ActivationTells(OnActivation(s, kind, ok), if ok then h.OneMore(kind) else h.(failed := h.failed + {kind}), kind)
  {
  }

  lemma ReplyStepTells(s: Session, kind: Kind, ok: bool, h: Heard)
    requires Tells(s, h) && s.Activated(kind).Running? && s.Activated(kind).left > 0 && s.cleanup.NotBegun?
    ensures Tells(Step(s, ActivationReply(kind, ok)), Hear(h, s, ActivationReply(kind, ok)))
  {
    hide StartTells, CleanupTells, RuntimeTells, Touches;
    assert ActivationTells(s, h, kind);
    ReplyOne(s, kind, ok, h);
    ActivationReplyTouches(s, kind, ok);
    hide OnActivation, ActivationTells;
    TouchTells(s, OnActivation(s, kind, ok), h, Hear(h, s, ActivationReply(kind, ok)), kind);
  }

  lemma RunningHasMore(s: Session, h: History, kind: Kind)
    requires BusyMatches(s, h) && s.Activated(kind).Running?
    ensures s.Activated(kind).left > 0
  {
  }

  lemma Running(s: Session, kind: Kind)
    requires Inv(s) && s.Activated(kind).Running?
    ensures s.Activated(kind).left > 0
  {
    RunningHasMore(s, Observed(s.log), kind);
  }

  lemma OnlyAfterClose(s: Session, h: History)
    requires StateMatches(s, h) && !s.closing.NotRequested?
    ensures s.stopRequested
  {
  }

  lemma NotFinishedYet(s: Session, h: History)
    requires CleanupMatches(s, h) && !s.cleanup.Done?
    ensures !s.closing.Finished?
  {
  }

  lemma TellsStep(s: Session, e: Event, h: Heard)
    requires Inv(s) && Tells(s, h)
    ensures Tells(Step(s, e), Hear(h, s, e))
  {
    hide Tells, OnStart, OnAcquire, OnRuntime, OnProbe, OnActivate, OnActivation, OnClose, OnCloseResumed,
         OnDispose, OnRelease, OnInitResumed;
    if Possible(s, e) {
      match e
      case Activate(kind) => ActivateStepTells(s, kind, h);
      case ActivationReply(kind, ok) => Nothing(s); Running(s, kind); ReplyStepTells(s, kind, ok, h);
      case Close => CloseStepTells(s, e, h);
      case CloseResumes => OnlyAfterClose(s, Observed(s.log)); CloseStepTells(s, e, h);
      case DisposeReply(_) => NotFinishedYet(s, Observed(s.log)); ReleaseStepTells(s, e, h);
      case ReleaseReply(_) => NotFinishedYet(s, Observed(s.log)); ReleaseStepTells(s, e, h);
      case _ => StartStepTells(s, e, h);
    }
  }

  lemma NewTells(config: Config)
    ensures Tells(New(config), NOTHING_HEARD)
  {
  }

  lemma {:induction false} EverySessionTells(config: Config, events: seq<Event>)
    ensures var s := Steps(New(config), events);
            && Tells(s, HeardFrom(config, events)) && Inv(s) && Suspended(s) && s.config == config
  {
    hide Tells, Inv, Step, Hear;
    EverySessionKeeps(config, events);
    if events == [] {
      NewTells(config);
    } else {
      var before := events[..|events| - 1];
      EverySessionTells(config, before);
      TellsStep(Steps(New(config), before), events[|events| - 1], HeardFrom(config, before));
    }
  }

  // ----- the promises

  /** Some events lead to this session, and this is what their reader has heard. */
  ghost predicate Hears(config: Config, s: Session, h: Heard) {
    exists events :: Steps(New(config), events) == s && HeardFrom(config, events) == h
  }

  lemma HearsTells(config: Config, s: Session, h: Heard)
    requires Hears(config, s, h)
    ensures Tells(s, h) && Inv(s) && Suspended(s) && s.config == config
  {
    hide Tells, Inv, Suspended;
    var events :| Steps(New(config), events) == s && HeardFrom(config, events) == h;
    EverySessionTells(config, events);
  }

  /** How a start ends when nobody closes the session meanwhile: disabled without a configuration;
      ready when the configuration is sound, every acquisition, the runtime and every probe were
      answered well; failed otherwise. */
  lemma StartupOutcome(config: Config, s: Session, h: Heard)
    requires Hears(config, s, h) && s.init.Over? && Became(Stopping) !in s.log
    ensures s.state.Disabled? <==> !config.configured
    ensures s.state.Ready? <==> Startable(config) && !h.faulty
    ensures s.state.Failed? <==> config.configured && !(Startable(config) && !h.faulty)
    ensures s.init.ok == !s.state.Failed?
  {
    HearsTells(config, s, h);
    StopIsLogged(s);
    OverMeans(s, h);
    hide Inv, Suspended, Tells;
  }

  lemma StopIsLogged(s: Session)
    requires Inv(s)
    ensures s.stopRequested <==> Became(Stopping) in s.log
  {
    FactsHold(s.log);
    hide ResourceFacts, RuntimeFacts, Monitored, Observed, BusyMatches, CleanupMatches, InitMatches;
  }

  lemma OverMeans(s: Session, h: Heard)
    requires Tells(s, h) && s.init.Over? && !s.stopRequested
    ensures s.state.Disabled? <==> !s.config.configured
    ensures s.state.Ready? <==> Startable(s.config) && !h.faulty
    ensures s.state.Failed? <==> s.config.configured && !(Startable(s.config) && !h.faulty)
    ensures s.init.ok == !s.state.Failed?
  {
  }

  /** A session that ever was ready has a sound configuration, and every answer to its start was
      good: no acquisition failed, no connection was unusable, the runtime was made, and every
      configured probe ended, and ended well.  So no bad answer comes before or after that line. */
  lemma ReadyNeedsEveryAnswer(config: Config, s: Session, h: Heard)
    requires Hears(config, s, h) && Became(Ready) in s.log
    ensures Startable(config) && !h.faulty && (!Idle(config) ==> h.probed == |config.probes|)
  {
    HearsTells(config, s, h);
  }

  /** After a good answer of the runtime or of a probe the next probe begins, unless it is one before
      which the session looks for a close request and finds one; after the last probe the session is
      ready, unless one came. */
  lemma ProbesGoOn(config: Config, s: Session, h: Heard, e: Event)
    requires Hears(config, s, h) && (e == RuntimeReply(true) || e == ProbeReply(true)) && Possible(s, e)
    ensures var stop := Became(Stopping) in s.log; var j := Hear(h, s, e).probed;
            Step(s, e).log == s.log + [if e.RuntimeReply? then RuntimeMade else ProbeEnded(j - 1)]
              + [if j < |config.probes| && !(config.probes[j] && stop) then ProbeBegan(j)
                 else if stop then DisposeBegan
                 else Became(Ready)]
  {
    hide *;
    HearsTells(config, s, h);
    ProbeFacts(s, e, h);
    ProbeAnswered(s, e, h);
  }

  lemma ProbeFacts(s: Session, e: Event, h: Heard)
    requires Inv(s) && Tells(s, h) && (e == RuntimeReply(true) || e == ProbeReply(true)) && Possible(s, e)
    ensures (e == RuntimeReply(true) && s.init.Making?) || (e == ProbeReply(true) && s.init.Probing?)
    ensures s.stopRequested <==> Became(Stopping) in s.log
    ensures s.init.Making? ==> h.probed == 0
    ensures s.init.Probing? ==> h.probed == s.init.j < |s.config.probes| && s.runtime
    ensures s.cleanup.NotBegun?
  {
    StopIsLogged(s);
    Nothing(s);
    StartIsUndisturbed(s, Observed(s.log));
    ProbedSoFar(s, h.faulty, h.probed);
    hide Inv, Tells;
  }

  lemma ProbedSoFar(s: Session, faulty: bool, probed: nat)
    requires StartTells(s, faulty, probed)
    ensures s.init.Making? ==> probed == 0
    ensures s.init.Probing? ==> probed == s.init.j
  {
  }

  lemma ProbeAnswered(s: Session, e: Event, h: Heard)
    requires (e == RuntimeReply(true) && s.init.Making?) || (e == ProbeReply(true) && s.init.Probing?)
    requires s.init.Making? ==> h.probed == 0
    requires s.init.Probing? ==> h.probed == s.init.j < |s.config.probes| && s.runtime
    requires s.cleanup.NotBegun?
    ensures var j := Hear(h, s, e).probed;
            Step(s, e).log == s.log + [if e.RuntimeReply? then RuntimeMade else ProbeEnded(j - 1)]
              + [if j < |s.config.probes| && !(s.config.probes[j] && s.stopRequested) then ProbeBegan(j)
                 else if s.stopRequested then DisposeBegan
                 else Became(Ready)]
  {
    hide Session.ProbeFrom;
    if e.RuntimeReply? {
      MadeGoesOn(s.(init := Executing, runtime := true).Note(RuntimeMade), 0);
    } else {
      MadeGoesOn(s.(init := Executing).Note(ProbeEnded(s.init.j)), s.init.j + 1);
    }
  }

  lemma StartIsUndisturbed(s: Session, h: History)
    requires BusyMatches(s, h) && Working(s.init)
    ensures s.cleanup.NotBegun?
  {
    assert Startup in h.busy;
  }

  lemma MadeGoesOn(s: Session, j: nat)
    requires s.cleanup.NotBegun? && s.runtime && j <= |s.config.probes|
    ensures s.ProbeFrom(j).log == s.log
      + [if j < |s.config.probes| && !(s.config.probes[j] && s.stopRequested) then ProbeBegan(j)
         else if s.stopRequested then DisposeBegan
         else Became(Ready)]
  {
  }

  /** The first request of an activation starts it exactly when the session is ready, has a runtime
      and was configured with something to activate; no later request starts anything. */
  lemma ActivatesExactlyOnce(config: Config, s: Session, h: Heard, kind: Kind)
    requires Hears(config, s, h)
    ensures Step(s, Activate(kind)).log ==
            s.log + if kind !in h.asked && s.state.Ready? && RuntimeMade in s.log && Calls(config, kind) > 0
                    then [ActivationBegan(kind)] else []
  {
    HearsTells(config, s, h);
    assert ActivationTells(s, h, kind);
    if s.runtime { AwaitsAreCalls(s, kind); }
    if s.state.Ready? { ReadyRuns(s); }
    hide Inv, Suspended, Tells, StartTells, Step;
    Activates(s, h, kind);
  }

  lemma Activates(s: Session, h: Heard, kind: Kind)
    requires kind in h.asked <==> !s.Activated(kind).NotAsked?
    requires s.runtime ==> Awaits(s, kind) == Calls(s.config, kind)
    requires s.state.Ready? ==> !s.stopRequested && (s.runtime <==> RuntimeMade in s.log)
    ensures Step(s, Activate(kind)).log ==
            s.log + if kind !in h.asked && s.state.Ready? && RuntimeMade in s.log && Calls(s.config, kind) > 0
                    then [ActivationBegan(kind)] else []
  {
  }

  lemma ReadyRuns(s: Session)
    requires Inv(s) && Suspended(s) && s.state.Ready?
    ensures !s.stopRequested && (s.runtime <==> RuntimeMade in s.log)
  {
    FactsHold(s.log);
    hide ResourceFacts, Monitored, Observed, BusyMatches;
  }

  /** While nothing has been given back, an activation has left a handle exactly when one of its
      starts was answered well, which for workers comes after every plan was recovered; and it goes
      on until all its calls were answered well, one was not, or a close was requested. */
  lemma ActivationsCount(config: Config, s: Session, h: Heard, kind: Kind)
    requires Hears(config, s, h)
    ensures s.cleanup.NotBegun? ==> (kind in s.handles <==> h.Good(kind) > Recoveries(config, kind))
    ensures ActivationBegan(kind) in s.log && Became(Stopping) !in s.log ==>
              kind in h.failed || h.Good(kind) == Calls(config, kind) || Possible(s, ActivationReply(kind, true))
    ensures Possible(s, ActivationReply(kind, true)) ==> kind !in h.failed && h.Good(kind) < Calls(config, kind)
  {
    HearsTells(config, s, h);
    assert ActivationTells(s, h, kind);
    StopIsLogged(s);
    if s.Activated(kind).Running? { Running(s, kind); }
    hide Inv, Suspended, StartTells;
  }

  /** The closing reports a failure exactly when disposal or some release failed. */
  lemma ClosingReportsTheCleanup(config: Config, s: Session, h: Heard)
    requires Hears(config, s, h) && s.state.ClosedDown?
    ensures s.closing == Finished(h.cleanupFailures > 0)
  {
    HearsTells(config, s, h);
    ClosedIsFinished(s, Observed(s.log));
  }

  lemma ClosedIsFinished(s: Session, h: History)
    requires StateMatches(s, h) && Suspended(s) && s.state.ClosedDown?
    ensures s.closing.Finished?
  {
  }
}
