/** The interceptor chain: `dispatch` of mq-enhancers.ts with the single-use `next` of
    mq-interceptor.ts at every level.  Interceptors are arbitrary: they may call `next` never, twice,
    without waiting for it, or long after they returned. */
module Interceptors {
  import opened Outcomes

  type Value = nat
  datatype Cause = Violation | Thrown(code: nat) | Aborted | Unresolved(code: nat)
  type Settlement = Result<Value, Cause>

  /** `Entering` while the provider is resolved, `Active` while `intercept` or the handler runs,
      `Draining` in the `finally`. */
  datatype Stage = Idle | Entering | Active | Draining(result: Settlement) | Settled(result: Settlement)

  /** One invocation of `invokeMqInterceptor`, or of the handler at the last level. */
  datatype Level = Level(stage: Stage, open: bool, admitted: bool, violation: bool) {
    function Next(): Level {
      if !open || admitted then this.(violation := true) else this.(admitted := true)
    }

    function Returned(result: Settlement): Level {
      this.(stage := Draining(result), open := false)
    }

    /** After `await drained`. */
    function Drained(): Level
      requires stage.Draining?
    {
      this.(stage := Settled(if stage.result.Success? && violation then Failure(Violation) else stage.result))
    }
  }

  datatype Entry =
    | Began(i: nat)
    | NextAdmitted(i: nat)
    | NextRefused(i: nat)
    | Returned(i: nat, result: Settlement)
    | Ended(i: nat, result: Settlement)

  /** Whether the n-th look of the delivery at its abort signal finds it aborted. */
  type Signal = nat -> bool

  /** Once aborted it stays so. */
  ghost predicate Monotone(signal: Signal) {
    forall n: nat :: signal(n) ==> signal(n + 1)
  }

  /** The last level is the handler; `looks` is how often the delivery has looked at the signal. */
  datatype Chain = Chain(levels: seq<Level>, log: seq<Entry>, signal: Signal, looks: nat) {
    function Set(i: nat, level: Level): Chain
      requires i < |levels|
    {
      this.(levels := levels[i := level])
    }

    function Note(e: Entry): Chain {
      this.(log := log + [e])
    }

    function Look(): Chain {
      this.(looks := looks + 1)
    }
  }

  function New(interceptors: nat, signal: Signal, looks: nat): Chain {
    Chain(seq(interceptors + 1, _ => Level(Idle, true, false, false)), [], signal, looks)
  }

  datatype Event =
    | Dispatch(i: nat)
    | Resolve(i: nat, found: Result<(), nat>)
    | Next(i: nat)
    | Return(i: nat, result: Settlement)
    | Drain(i: nat)

  predicate Handler(c: Chain, i: nat) {
    i + 1 == |c.levels|
  }

  predicate Possible(c: Chain, e: Event) {
    && e.i < |c.levels|
    && var level := c.levels[e.i];
       match e
       case Dispatch(i) => level.stage.Idle? && (i == 0 || c.levels[i - 1].admitted)
       case Resolve(_, _) => level.stage.Entering?
       case Next(i) => !Handler(c, i) && !level.stage.Idle? && !level.stage.Entering? && Invoked(c, i)
       case Return(_, _) => level.stage.Active?
       case Drain(i) =>
         level.stage.Draining? && (level.admitted && !Handler(c, i) ==> c.levels[i + 1].stage.Settled?)
  }

  /** `next` exists once `intercept` was called with it. */
  predicate Invoked(c: Chain, i: nat)
    requires i < |c.levels|
  {
    c.levels[i].stage.Settled? ==> !c.levels[i].open
  }

  /** `dispatch` throws before anything was entered. */
  function Unentered(c: Chain, i: nat, cause: Cause): Chain
    requires i < |c.levels|
  {
    c.Set(i, c.levels[i].(stage := Settled(Failure(cause)))).Note(Ended(i, Failure(cause)))
  }

  predicate NotEntered(result: Settlement) {
    result.Failure? && (result.error.Aborted? || result.error.Unresolved?)
  }

  function Step(c: Chain, e: Event): Chain {
    if !Possible(c, e) then c
    else
      var level := c.levels[e.i];
      match e
      case Dispatch(i) =>
        if c.signal(c.looks) then Unentered(c.Look().Note(Began(i)), i, Aborted)
        else c.Look().Set(i, level.(stage := if Handler(c, i) then Active else Entering)).Note(Began(i))
      case Resolve(i, found) =>
        if found.Failure? then Unentered(c, i, Unresolved(found.error))
        else if c.signal(c.looks) then Unentered(c.Look(), i, Aborted)
        else c.Look().Set(i, level.(stage := Active))
      case Next(i) => c.Set(i, level.Next()).Note(if level.open && !level.admitted then NextAdmitted(i) else NextRefused(i))
      case Return(i, result) => c.Set(i, level.Returned(result)).Note(Returned(i, result))
      case Drain(i) => c.Set(i, level.Drained()).Note(Ended(i, level.Drained().stage.result))
  }

  function Steps(c: Chain, events: seq<Event>): Chain {
    if events == [] then c else Step(Steps(c, events[..|events| - 1]), events[|events| - 1])
  }

  // ----- the specification: what a log may contain, in terms of the log so far

  datatype History = History(
    begun: nat,
    admitted: set<nat>,
    refused: set<nat>,
    returned: map<nat, Settlement>,
    ended: map<nat, Settlement>
  )

  function Observe(h: History, e: Entry): History {
    match e
    case Began(i) => h.(begun := h.begun + 1)
    case NextAdmitted(i) => h.(admitted := h.admitted + {i})
    case NextRefused(i) => h.(refused := h.refused + {i})
    case Returned(i, result) => h.(returned := h.returned[i := result])
    case Ended(i, result) => h.(ended := h.ended[i := result])
  }

  const NOTHING_YET := History(0, {}, {}, map[], map[])

  function Observed(log: seq<Entry>): History {
    if log == [] then NOTHING_YET else Observe(Observed(log[..|log| - 1]), log[|log| - 1])
  }

  ghost predicate Allowed(h: History, e: Entry) {
    match e
    case Began(i) => i == h.begun && (i > 0 ==> i - 1 in h.admitted && i - 1 !in h.ended)
    case NextAdmitted(i) => i < h.begun && i !in h.admitted && i !in h.returned && i !in h.ended
    case NextRefused(i) => i < h.begun && (i in h.admitted || i in h.returned)
    case Returned(i, _) => i < h.begun && i !in h.returned && i !in h.ended
    case Ended(i, result) =>
      && i < h.begun && i !in h.ended
      && (forall j | i < j < h.begun :: j in h.ended)
      && (i in h.admitted ==> i + 1 < h.begun)
      && if i in h.returned
         then result == if h.returned[i].Success? && i in h.refused then Failure(Violation) else h.returned[i]
         else NotEntered(result) && i !in h.admitted && i !in h.refused
  }

  ghost predicate Monitored(log: seq<Entry>) {
    forall k :: 0 <= k < |log| ==> Allowed(Observed(log[..k]), log[k])
  }

  lemma MonitorNote(log: seq<Entry>, e: Entry)
    requires Monitored(log) && Allowed(Observed(log), e)
    ensures Monitored(log + [e]) && Observed(log + [e]) == Observe(Observed(log), e)
  {
    var longer := log + [e];
    assert longer[..|log|] == log;
    forall i | 0 <= i < |longer| ensures Allowed(Observed(longer[..i]), longer[i]) {
      if i < |log| { assert longer[..i] == log[..i]; }
    }
  }

  // ----- the invariant

  ghost predicate LevelMatches(level: Level, i: nat, h: History) {
    && (level.stage.Idle? <==> i >= h.begun)
    && (level.admitted <==> i in h.admitted)
    && (level.violation <==> i in h.refused)
    && (level.stage.Settled? <==> i in h.ended)
    && (i in h.returned <==> !level.open)
    && (match level.stage
        case Idle => level == Level(Idle, true, false, false)
        case Entering => level == Level(Entering, true, false, false)
        case Active => level.open
        case Draining(result) => !level.open && h.returned[i] == result
        case Settled(result) => h.ended[i] == result && (level.open ==> !level.admitted && !level.violation))
  }

  /** The level was begun by the one around it, which cannot have ended before it. */
  predicate Within(h: History, i: nat) {
    i > 0 ==> i - 1 in h.admitted && (i - 1 in h.ended ==> i in h.ended)
  }

  ghost predicate Matches(levels: seq<Level>, h: History) {
    && |levels| > 0
    && (forall i: nat | i < |levels| :: LevelMatches(levels[i], i, h))
    && h.begun <= |levels|
    && (forall i: nat | i < h.begun :: Within(h, i))
    && (forall i: nat | i in h.admitted :: i + 1 < |levels| && (i in h.ended ==> i + 1 < h.begun))
    && (forall i: nat | i in h.returned || i in h.ended || i in h.refused :: i < h.begun)
  }

  ghost predicate Inv(c: Chain) {
    Monitored(c.log) && Matches(c.levels, Observed(c.log))
  }

  lemma {:induction false} EndedBelow(levels: seq<Level>, h: History, i: nat, j: nat)
    requires Matches(levels, h) && i <= j < h.begun && i in h.ended
    ensures j in h.ended
    decreases j
  {
    if j > i {
      EndedBelow(levels, h, i, j - 1);
      assert Within(h, j);
    }
  }

  // ----- every step keeps it

  lemma NotedKeeps(c: Chain, i: nat, level: Level, e: Entry)
    requires Inv(c) && i < |c.levels| && e.i == i && Allowed(Observed(c.log), e)
    requires LevelMatches(level, i, Observe(Observed(c.log), e))
    requires e.NextAdmitted? ==> i + 1 < |c.levels|
    ensures Inv(c.Set(i, level).Note(e))
  {
    MonitorNote(c.log, e);
    LevelMoves(c.levels, Observed(c.log), i, level, e);
  }

  lemma LevelMoves(levels: seq<Level>, h: History, i: nat, level: Level, e: Entry)
    requires Matches(levels, h) && i < |levels| && e.i == i && Allowed(h, e)
    requires LevelMatches(level, i, Observe(h, e))
    requires e.NextAdmitted? ==> i + 1 < |levels|
    ensures Matches(levels[i := level], Observe(h, e))
  {
    var h', levels' := Observe(h, e), levels[i := level];
    forall k: nat | k < |levels'| ensures LevelMatches(levels'[k], k, h') {
      assert LevelMatches(levels[k], k, h);
    }
    forall k: nat | k < h'.begun ensures Within(h', k) {
      if k < h.begun { assert Within(h, k); }
    }
  }

  /** Nothing begun is left open inside a level whose own `next` has been answered. */
  lemma InnerHaveEnded(levels: seq<Level>, h: History, i: nat)
    requires Matches(levels, h) && i < |levels| && i < h.begun
    requires i in h.admitted ==> i + 1 < |levels| && levels[i + 1].stage.Settled?
    ensures forall j | i < j < h.begun :: j in h.ended
    ensures i in h.admitted ==> i + 1 < h.begun
  {
    if i in h.admitted { assert LevelMatches(levels[i + 1], i + 1, h); }
    forall j | i < j < h.begun ensures j in h.ended {
      assert Within(h, i + 1);
      EndedBelow(levels, h, i + 1, j);
    }
  }

  lemma BeginKeeps(c: Chain, i: nat, stage: Stage)
    requires Inv(c) && i < |c.levels| && c.levels[i].stage.Idle? && (stage.Active? || stage.Entering?)
    requires i > 0 ==> c.levels[i - 1].admitted
    ensures Inv(c.Set(i, c.levels[i].(stage := stage)).Note(Began(i)))
  {
    var h := Observed(c.log);
    assert LevelMatches(c.levels[i], i, h);
    if i > 0 { assert LevelMatches(c.levels[i - 1], i - 1, h); }
    NotedKeeps(c, i, c.levels[i].(stage := stage), Began(i));
  }

  lemma NotEnteredKeeps(c: Chain, i: nat, cause: Cause)
    requires Inv(c) && i < |c.levels| && c.levels[i].stage.Entering? && NotEntered(Failure(cause))
    ensures Inv(Unentered(c, i, cause))
  {
    var h := Observed(c.log);
    assert LevelMatches(c.levels[i], i, h);
    InnerHaveEnded(c.levels, h, i);
    NotedKeeps(c, i, c.levels[i].(stage := Settled(Failure(cause))), Ended(i, Failure(cause)));
  }

  lemma LookKeeps(c: Chain)
    requires Inv(c)
    ensures Inv(c.Look())
  {
  }

  lemma RefusedKeeps(c: Chain, i: nat)
    requires Inv(c) && i < |c.levels| && c.levels[i].stage.Idle? && (i > 0 ==> c.levels[i - 1].admitted)
    ensures Inv(Unentered(c.Note(Began(i)), i, Aborted))
  {
    hide Inv;
    BeginKeeps(c, i, Entering);
    var begun := c.Set(i, c.levels[i].(stage := Entering)).Note(Began(i));
    NotEnteredKeeps(begun, i, Aborted);
    var level := c.levels[i].(stage := Settled(Failure(Aborted)));
    assert begun.levels[i := level] == c.levels[i := level];
  }

  lemma DispatchKeeps(c: Chain, i: nat)
    requires Inv(c) && Possible(c, Dispatch(i))
    ensures Inv(Step(c, Dispatch(i)))
  {
    hide Inv, Unentered;
    LookKeeps(c);
    if c.signal(c.looks) {
      RefusedKeeps(c.Look(), i);
    } else {
      BeginKeeps(c.Look(), i, if Handler(c, i) then Active else Entering);
    }
  }

  lemma ResolveKeeps(c: Chain, i: nat, found: Result<(), nat>)
    requires Inv(c) && Possible(c, Resolve(i, found))
    ensures Inv(Step(c, Resolve(i, found)))
  {
    LookKeeps(c);
    if found.Failure? {
      NotEnteredKeeps(c, i, Unresolved(found.error));
    } else if c.signal(c.looks) {
      NotEnteredKeeps(c.Look(), i, Aborted);
    } else {
      var h, levels := Observed(c.log), c.levels[i := c.levels[i].(stage := Active)];
      forall k: nat | k < |levels| ensures LevelMatches(levels[k], k, h) {
        assert LevelMatches(c.levels[k], k, h);
      }
    }
  }

  lemma NextKeeps(c: Chain, i: nat)
    requires Inv(c) && Possible(c, Next(i))
    ensures Inv(Step(c, Next(i)))
  {
    var level := c.levels[i];
    assert LevelMatches(level, i, Observed(c.log));
    NotedKeeps(c, i, level.Next(), if level.open && !level.admitted then NextAdmitted(i) else NextRefused(i));
  }

  lemma ReturnKeeps(c: Chain, i: nat, result: Settlement)
    requires Inv(c) && Possible(c, Return(i, result))
    ensures Inv(Step(c, Return(i, result)))
  {
    assert LevelMatches(c.levels[i], i, Observed(c.log));
    NotedKeeps(c, i, c.levels[i].Returned(result), Returned(i, result));
  }

  lemma DrainKeeps(c: Chain, i: nat)
    requires Inv(c) && Possible(c, Drain(i))
    ensures Inv(Step(c, Drain(i)))
  {
    var h, level := Observed(c.log), c.levels[i];
    assert LevelMatches(level, i, h);
    InnerHaveEnded(c.levels, h, i);
    NotedKeeps(c, i, level.Drained(), Ended(i, level.Drained().stage.result));
  }

  lemma StepKeeps(c: Chain, e: Event)
    requires Inv(c)
    ensures Inv(Step(c, e)) && |Step(c, e).levels| == |c.levels|
    ensures Step(c, e).signal == c.signal && c.looks <= Step(c, e).looks
  {
    if Possible(c, e) {
      match e
      case Dispatch(i) => DispatchKeeps(c, i);
      case Resolve(i, found) => ResolveKeeps(c, i, found);
      case Next(i) => NextKeeps(c, i);
      case Return(i, result) => ReturnKeeps(c, i, result);
      case Drain(i) => DrainKeeps(c, i);
    }
  }

  lemma {:induction false} EveryChainKeeps(interceptors: nat, signal: Signal, looks: nat, events: seq<Event>)
    ensures var c := Steps(New(interceptors, signal, looks), events);
      Inv(c) && |c.levels| == interceptors + 1 && c.signal == signal && looks <= c.looks
  {
    if events != [] {
      hide Inv;
      EveryChainKeeps(interceptors, signal, looks, events[..|events| - 1]);
      StepKeeps(Steps(New(interceptors, signal, looks), events[..|events| - 1]), events[|events| - 1]);
    } else {
      var c := New(interceptors, signal, looks);
      assert Inv(c);
    }
  }

  // ----- what the observer's summary says about the entries themselves

  ghost predicate HasEnded(log: seq<Entry>, i: nat) {
    exists result :: Ended(i, result) in log
  }

  ghost predicate HasReturned(log: seq<Entry>, i: nat) {
    exists result :: Returned(i, result) in log
  }

  ghost predicate Facts(log: seq<Entry>, h: History) {
    && (forall i: nat :: Began(i) in log <==> i < h.begun)
    && (forall i: nat :: NextAdmitted(i) in log <==> i in h.admitted)
    && (forall i: nat :: NextRefused(i) in log <==> i in h.refused)
    && (forall i: nat :: HasEnded(log, i) <==> i in h.ended)
    && (forall i: nat, r | Ended(i, r) in log :: i in h.ended)
    && (forall i: nat :: HasReturned(log, i) <==> i in h.returned)
    && (forall i: nat, r | Returned(i, r) in log :: i in h.returned && h.returned[i] == r)
  }

  /** The levels that have begun are nested, and an inner one ends before those around it. */
  ghost predicate Nested(h: History) {
    && (forall i: nat | i < h.begun :: Within(h, i))
    && (forall i: nat | i in h.admitted || i in h.ended :: i < h.begun)
    && (forall i: nat | i in h.ended && i in h.admitted :: i + 1 < h.begun)
    && (forall i: nat, j: nat | i < j < h.begun && i in h.ended :: j in h.ended)
  }

  lemma FactsStep(log: seq<Entry>, h: History, e: Entry)
    requires Facts(log, h) && Allowed(h, e)
    ensures Facts(log + [e], Observe(h, e))
  {
    var longer, h' := log + [e], Observe(h, e);
    assert forall x :: x in longer <==> x in log || x == e;
    forall i: nat ensures HasEnded(longer, i) <==> i in h'.ended {
      if HasEnded(log, i) {
        var r :| Ended(i, r) in log;
        assert Ended(i, r) in longer;
      }
      if e.Ended? && e.i == i { assert Ended(i, e.result) in longer; }
    }
    forall i: nat ensures HasReturned(longer, i) <==> i in h'.returned {
      if HasReturned(log, i) {
        var r :| Returned(i, r) in log;
        assert Returned(i, r) in longer;
      }
      if e.Returned? && e.i == i { assert Returned(i, e.result) in longer; }
    }
  }

  lemma NestedStep(h: History, e: Entry)
    requires Nested(h) && Allowed(h, e)
    ensures Nested(Observe(h, e))
  {
    var h' := Observe(h, e);
    forall i: nat | i < h'.begun ensures Within(h', i) {
      if i < h.begun { assert Within(h, i); }
    }
  }

  lemma {:induction false} FactsHold(log: seq<Entry>)
    requires Monitored(log)
    ensures Facts(log, Observed(log)) && Nested(Observed(log))
  {
    if log != [] {
      var init, e := log[..|log| - 1], log[|log| - 1];
      assert forall i | 0 <= i < |init| :: log[..i] == init[..i] && log[i] == init[i];
      assert log == init + [e];
      hide Facts, Nested;
      FactsHold(init);
      FactsStep(init, Observed(init), e);
      NestedStep(Observed(init), e);
    } else {
      forall i: nat ensures !HasEnded([], i) && !HasReturned([], i) {}
    }
  }

  // ----- the theorems, over every record of a chain of any length

  /** `log` can be the record of one delivery through this many interceptors. */
  ghost predicate Produced(interceptors: nat, log: seq<Entry>) {
    exists signal, looks, events :: Steps(New(interceptors, signal, looks), events).log == log
  }

  lemma RecordsAreMonitored(interceptors: nat, log: seq<Entry>)
    requires Produced(interceptors, log)
    ensures Monitored(log)
  {
    var signal, looks, events :| Steps(New(interceptors, signal, looks), events).log == log;
    EveryChainKeeps(interceptors, signal, looks, events);
  }

  /** What was known when the entry at `q` was written. */
  lemma Before(interceptors: nat, log: seq<Entry>, q: nat)
    requires Produced(interceptors, log) && q < |log|
    ensures Allowed(Observed(log[..q]), log[q])
    ensures Facts(log[..q], Observed(log[..q])) && Nested(Observed(log[..q]))
    ensures forall p | 0 <= p < q :: log[p] in log[..q]
  {
    RecordsAreMonitored(interceptors, log);
    var past := log[..q];
    assert forall i | 0 <= i < q :: past[..i] == log[..i] && past[i] == log[i];
    FactsHold(past);
  }

  /** Every level begins at most once, from the outside in, through the one admitted call of the
      `next` around it and while that level is still open. */
  lemma BegunOnceInOrder(interceptors: nat, log: seq<Entry>, p: nat, q: nat)
    requires Produced(interceptors, log) && p < q < |log| && log[p].Began? && log[q].Began?
    ensures log[p].i < log[q].i
    ensures
      && Began(log[q].i - 1) in log[..q] && NextAdmitted(log[q].i - 1) in log[..q]
      && !HasEnded(log[..q], log[q].i - 1)
  {
    Before(interceptors, log, q);
    var h := Observed(log[..q]);
    assert Began(log[p].i) in log[..q];
  }

  /** A level ends after every level that began inside it. */
  lemma EndedInsideOut(interceptors: nat, log: seq<Entry>, p: nat, q: nat)
    requires Produced(interceptors, log) && p < q < |log| && log[p].Began? && log[q].Ended? && log[q].i < log[p].i
    ensures HasEnded(log[..q], log[p].i)
  {
    Before(interceptors, log, q);
    assert Began(log[p].i) in log[..q];
  }

  /** Once any level has ended, nothing begins any more and no `next` is admitted, however late or
      often it is called. */
  lemma NothingBeginsAfterAnEnd(interceptors: nat, log: seq<Entry>, p: nat, q: nat)
    requires Produced(interceptors, log) && p < q < |log| && log[p].Ended?
    ensures !log[q].Began? && !log[q].NextAdmitted?
  {
    Before(interceptors, log, q);
    var h, i := Observed(log[..q]), log[p].i;
    assert Ended(i, log[p].result) in log[..q];
    assert i in h.ended && h.begun - 1 in h.ended;
    if log[q].NextAdmitted? && log[q].i < i { AdmittedAround(h, log[q].i, i); }
  }

  lemma {:induction false} AdmittedAround(h: History, i: nat, j: nat)
    requires Nested(h) && i < j < h.begun
    ensures i in h.admitted
    decreases j
  {
    assert Within(h, j);
    if i < j - 1 { AdmittedAround(h, i, j - 1); }
  }

  /** `next` is single-use: of the calls at one level at most one is admitted, and none after the
      interceptor has returned. */
  lemma NextIsSingleUse(interceptors: nat, log: seq<Entry>, p: nat, q: nat)
    requires Produced(interceptors, log) && p < q < |log| && log[q].NextAdmitted?
    ensures log[p] != log[q]
    ensures log[p].Returned? ==> log[p].i != log[q].i
  {
    Before(interceptors, log, q);
  }

  /** A level answers what its interceptor answered, except that a value is replaced by the violation
      exactly when some call of its `next` was refused before the level ended; a level that was never
      entered used no `next`. */
  lemma AnswerOfEveryLevel(interceptors: nat, log: seq<Entry>, q: nat)
    requires Produced(interceptors, log) && q < |log| && log[q].Ended?
    ensures forall result | Returned(log[q].i, result) in log[..q] ::
      log[q].result ==
      if result.Success? && NextRefused(log[q].i) in log[..q] then Failure(Violation) else result
    ensures !HasReturned(log[..q], log[q].i) ==>
      NotEntered(log[q].result) && NextAdmitted(log[q].i) !in log[..q]
  {
    Before(interceptors, log, q);
  }

  lemma AllHaveEnded(log: seq<Entry>, h: History, i: nat)
    requires Facts(log, h) && Nested(h) && Began(i) in log && HasEnded(log, 0)
    ensures HasEnded(log, i)
  {
    hide HasEnded, HasReturned;
    assert 0 in h.ended && i < h.begun;
  }

  /** When the delivery has its answer, everything that began has ended. */
  lemma DeliveryLeavesNothingRunning(interceptors: nat, log: seq<Entry>, p: nat)
    requires Produced(interceptors, log) && p < |log| && log[p].Began? && HasEnded(log, 0)
    ensures HasEnded(log, log[p].i)
  {
    RecordsAreMonitored(interceptors, log);
    FactsHold(log);
    hide *;
    assert Began(log[p].i) in log;
    AllHaveEnded(log, Observed(log), log[p].i);
  }

  // ----- a delivery always gets its answer

  function Rank(stage: Stage): nat {
    match stage case Idle => 4 case Entering => 3 case Active => 2 case Draining(_) => 1 case Settled(_) => 0
  }

  /** Bounds how many more times a level can move; calls of `next` do not count. */
  function Measure(levels: seq<Level>): nat {
    if levels == [] then 0 else Rank(levels[0].stage) + Measure(levels[1..])
  }

  lemma {:induction false} MeasureOf(levels: seq<Level>, i: nat, level: Level)
    requires i < |levels|
    ensures Measure(levels[i := level]) + Rank(levels[i].stage) == Measure(levels) + Rank(level.stage)
  {
    if i == 0 {
      assert levels[0 := level][1..] == levels[1..];
    } else {
      assert levels[i := level][1..] == levels[1..][i - 1 := level];
      MeasureOf(levels[1..], i - 1, level);
    }
  }

  lemma EveryMoveCounts(c: Chain, e: Event)
    requires Possible(c, e) && !e.Next?
    ensures Measure(Step(c, e).levels) < Measure(c.levels)
  {
    MeasureOf(c.levels, e.i, Step(c, e).levels[e.i]);
  }

  lemma {:induction false} SomeLevelMoves(c: Chain, i: nat) returns (e: Event)
    requires Inv(c) && i < Observed(c.log).begun && i < |c.levels|
    requires i + 1 < Observed(c.log).begun ==> i + 1 in Observed(c.log).ended
    requires 0 !in Observed(c.log).ended
    ensures Possible(c, e) && !e.Next?
    decreases i
  {
    var h, level := Observed(c.log), c.levels[i];
    assert LevelMatches(level, i, h);
    match level.stage
    case Entering => e := Resolve(i, Success(()));
    case Active => e := Return(i, Failure(Thrown(0)));
    case Settled(_) => e := SomeLevelMoves(c, i - 1);
    case Draining(_) =>
      if i + 1 < |c.levels| {
        assert LevelMatches(c.levels[i + 1], i + 1, h);
        if level.admitted && c.levels[i + 1].stage.Idle? { e := Dispatch(i + 1); }
        else { e := Drain(i); }
      } else {
        e := Drain(i);
      }
  }

  ghost predicate Reached(interceptors: nat, c: Chain) {
    exists signal, looks, events :: Steps(New(interceptors, signal, looks), events) == c
  }

  /** Until the delivery has its answer, some level can move, and each move lowers `Measure`. */
  lemma NeverStuck(interceptors: nat, c: Chain)
    requires Reached(interceptors, c) && c.levels != [] && !c.levels[0].stage.Settled?
    ensures exists e :: Possible(c, e) && !e.Next? && Measure(Step(c, e).levels) < Measure(c.levels)
  {
    var signal, looks, events :| Steps(New(interceptors, signal, looks), events) == c;
    EveryChainKeeps(interceptors, signal, looks, events);
    var h := Observed(c.log);
    assert LevelMatches(c.levels[0], 0, h);
    var e: Event;
    if h.begun == 0 {
      e := Dispatch(0);
    } else {
      e := SomeLevelMoves(c, h.begun - 1);
    }
    EveryMoveCounts(c, e);
  }

  // ----- the signal

  lemma {:induction false} ClearBefore(signal: Signal, n: nat, m: nat)
    requires Monotone(signal) && !signal(n) && m <= n
    ensures !signal(m)
    decreases n - m
  {
    if m < n { ClearBefore(signal, n, m + 1); }
  }

  /** An interceptor or the handler is entered only while no look of the delivery, in this chain or
      before it, has found the signal aborted. */
  lemma EnteredWithClearSignal(c: Chain, e: Event, i: nat, m: nat)
    requires Monotone(c.signal) && Possible(c, e) && i < |c.levels|
    requires !c.levels[i].stage.Active? && Step(c, e).levels[i].stage.Active?
    requires m < Step(c, e).looks
    ensures !c.signal(m)
  {
    ClearBefore(c.signal, c.looks, m);
  }

  /** What an event leaves on the record: what an interceptor or the handler settled with is there as
      it came, a call of `next` is admitted exactly if it is the first and the interceptor has not
      settled, and a level is entered exactly if its provider was found and its look at the signal is
      clear; otherwise the record says which of the two it was. */
  lemma EveryEventShows(interceptors: nat, c: Chain, e: Event)
    requires Reached(interceptors, c) && Possible(c, e)
    ensures var t := Step(c, e); var aborted := c.signal(c.looks);
      match e
      case Dispatch(i) =>
        && t.looks == c.looks + 1
        && t.log == c.log + [Began(i)] + (if aborted then [Ended(i, Failure(Aborted))] else [])
        && (t.levels[i].stage.Active? <==> !aborted && i == interceptors)
      case Resolve(i, Failure(code)) => t.looks == c.looks && t.log == c.log + [Ended(i, Failure(Unresolved(code)))]
      case Resolve(i, Success(_)) =>
        && t.looks == c.looks + 1
        && t.log == c.log + (if aborted then [Ended(i, Failure(Aborted))] else [])
        && (t.levels[i].stage.Active? <==> !aborted)
      case Next(i) =>
        && t.looks == c.looks
        && t.log == c.log + [if NextAdmitted(i) in c.log || HasReturned(c.log, i) then NextRefused(i) else NextAdmitted(i)]
      case Return(i, result) => t.looks == c.looks && t.log == c.log + [Returned(i, result)]
      case Drain(i) => t.looks == c.looks && exists result :: t.log == c.log + [Ended(i, result)]
  {
    var signal, looks, events :| Steps(New(interceptors, signal, looks), events) == c;
    EveryChainKeeps(interceptors, signal, looks, events);
    FactsHold(c.log);
    assert LevelMatches(c.levels[e.i], e.i, Observed(c.log));
    hide Matches, Monitored, Nested, HasReturned, HasEnded;
    match e
    case Drain(i) => assert Step(c, e).log == c.log + [Ended(i, c.levels[i].Drained().stage.result)];
    case _ =>
  }

  lemma OneStepMore(c: Chain, events: seq<Event>, e: Event)
    ensures Steps(c, events + [e]) == Step(Steps(c, events), e)
  {
    assert (events + [e])[..|events|] == events;
  }

  /** A chain of one interceptor whose handler the signal kept from being entered, and which answers
      a value all the same: the interceptor caught what its `next` was rejected with. */
  lemma AbortInsideCanBeAnswered(value: Value) returns (signal: Signal, events: seq<Event>)
    ensures Monotone(signal) && !signal(0) && !signal(1) && signal(2)
    ensures
      var c := Steps(New(1, signal, 0), events);
      && |c.levels| == 2 && c.looks == 3
      && c.levels[1].stage == Settled(Failure(Aborted)) && c.levels[0].stage == Settled(Success(value))
  {
    signal := n => n >= 2;
    var c := New(1, signal, 0);
    var called := CallsNext(c);
    var answered := AnswersAnyway(called, value);
    var path := [Dispatch(0), Resolve(0, Success(())), Next(0)];
    var rest := [Dispatch(1), Return(0, Success(value)), Drain(0)];
    hide Step;
    ThreeSteps(c, [], path);
    ThreeSteps(c, path, rest);
    events := path + rest;
    assert [] + path == path;
  }

  lemma ThreeSteps(c: Chain, events: seq<Event>, more: seq<Event>)
    requires |more| == 3
    ensures Steps(c, events + more) == Step(Step(Step(Steps(c, events), more[0]), more[1]), more[2])
  {
    hide Step;
    OneStepMore(c, events, more[0]);
    OneStepMore(c, events + [more[0]], more[1]);
    OneStepMore(c, events + [more[0]] + [more[1]], more[2]);
    assert events + more == events + [more[0]] + [more[1]] + [more[2]];
  }

  /** Up to the admitted `next`, with two clear looks. */
  lemma CallsNext(c: Chain) returns (called: Chain)
    requires c == New(1, c.signal, 0) && !c.signal(0) && !c.signal(1)
    ensures called == Step(Step(Step(c, Dispatch(0)), Resolve(0, Success(()))), Next(0))
    ensures called.levels == [Level(Active, true, true, false), Level(Idle, true, false, false)]
    ensures called.signal == c.signal && called.looks == 2
  {
    var idle := Level(Idle, true, false, false);
    var entering := Step(c, Dispatch(0));
    assert entering.levels == [Level(Entering, true, false, false), idle] && entering.looks == 1;
    var active := Step(entering, Resolve(0, Success(())));
    assert active.levels == [Level(Active, true, false, false), idle] && active.looks == 2;
    called := Step(active, Next(0));
  }

  /** The handler's look finds the signal aborted, and the interceptor answers a value. */
  lemma AnswersAnyway(c: Chain, value: Value) returns (answered: Chain)
    requires c.levels == [Level(Active, true, true, false), Level(Idle, true, false, false)]
    requires c.signal(c.looks)
    ensures answered == Step(Step(Step(c, Dispatch(1)), Return(0, Success(value))), Drain(0))
    ensures |answered.levels| == 2 && answered.looks == c.looks + 1
    ensures answered.levels[0].stage == Settled(Success(value)) && answered.levels[1].stage == Settled(Failure(Aborted))
  {
    var kept := Level(Settled(Failure(Aborted)), true, false, false);
    var refused := Step(c, Dispatch(1));
    assert refused.levels == [Level(Active, true, true, false), kept] && refused.looks == c.looks + 1;
    var returned := Step(refused, Return(0, Success(value)));
    assert returned.levels == [Level(Draining(Success(value)), false, true, false), kept];
    answered := Step(returned, Drain(0));
  }

  /** The closure of `invokeMqInterceptor`: its captured variables, changed by `next` whoever calls it. */
  class Invocation {
    var stage: Stage
    var open: bool
    var admitted: bool
    var violation: bool

    constructor ()
      ensures View() == Level(Active, true, false, false)
    {
      stage, open, admitted, violation := Active, true, false, false;
    }

    ghost function View(): Level
      reads this
    {
      Level(stage, open, admitted, violation)
    }

    /** `next`; the result says whether the inner level will be dispatched. */
    method Next() returns (dispatches: bool)
      modifies this`admitted, this`violation
      ensures View() == old(View()).Next()
      ensures dispatches <==> !old(admitted) && admitted
    {
      if !open || admitted {
        violation := true;
        return false;
      }
      admitted := true;
      return true;
    }

    /** `intercept` settled: the `finally`, up to its await. */
    method Intercepted(result: Settlement)
      modifies this`stage, this`open
      ensures View() == old(View()).Returned(result)
    {
      stage, open := Draining(result), false;
    }

    /** After `await drained`. */
    method Finish() returns (result: Settlement)
      requires stage.Draining?
      modifies this`stage
      ensures View() == old(View()).Drained() && stage == Settled(result)
    {
      result := stage.result;
      if result.Success? && violation { result := Failure(Violation); }
      stage := Settled(result);
    }
  }
}
