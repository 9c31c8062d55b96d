/** One delivery through guards, pipes, the interceptor chain and filters (mq-enhancers.ts). */
module Pipeline {
  import opened Outcomes
  import opened Schema
  import Interceptors

  datatype GuardAnswer = Accepts | Rejects | NotBoolean | GuardThrows(code: nat)

  datatype PipeFault = PipeThrows(code: nat) | SchemaFails(error: SchemaError)

  datatype Cause =
    | Aborted
    | GuardRejected | GuardMisbehaved | GuardThrew(code: nat)
    | PipeFailed(fault: PipeFault)
    | DispatchFailed(cause: Interceptors.Cause)
    | FilterMisbehaved | FilterThrew(code: nat)

  /** What `supports`, and then `catch`, make of a cause; `catch` may throw anything of its own. */
  datatype FilterAnswer<V> = Takes(answer: Result<V, nat>) | Declines | SupportsNotBoolean | SupportsThrows(code: nat)

  type Guard<!V> = V -> GuardAnswer
  type Pipe<!V> = V -> Result<V, nat>
  type Filter<!V> = (Cause, V) -> FilterAnswer<V>

  /** The abort signal of the delivery: whether the n-th look at it finds it aborted.  Once aborted it
      stays so. */
  class Signal {
    const abortedAt: nat -> bool
    var looks: nat

    constructor (abortedAt: nat -> bool)
      requires Interceptors.Monotone(abortedAt)
      ensures Valid() && looks == 0 && this.abortedAt == abortedAt
    {
      this.abortedAt := abortedAt;
      looks := 0;
    }

    ghost predicate Valid() {
      Interceptors.Monotone(abortedAt)
    }

    /** `throwIfAborted`. */
    method Aborts() returns (aborted: bool)
      modifies this
      ensures looks == old(looks) + 1 && aborted == abortedAt(old(looks))
    {
      aborted := abortedAt(looks);
      looks := looks + 1;
    }
  }

  /** None of these looks found the signal aborted. */
  ghost predicate Clear(abortedAt: nat -> bool, from: nat, to: nat) {
    forall n: nat | from <= n < to :: !abortedAt(n)
  }

  // ----- guards

  function CauseOf(answer: GuardAnswer): Cause
    requires !answer.Accepts?
  {
    match answer
    case Rejects => GuardRejected
    case NotBoolean => GuardMisbehaved
    case GuardThrows(code) => GuardThrew(code)
  }

  /** The cause says what the guard did instead of accepting. */
  predicate TellsGuard(cause: Cause, answer: GuardAnswer) {
    match answer
    case Accepts => false
    case Rejects => cause.GuardRejected?
    case NotBoolean => cause.GuardMisbehaved?
    case GuardThrows(code) => cause == GuardThrew(code)
  }

  /** The first guard, if any, that did not accept. */
  ghost predicate StoppedAt<V>(guards: seq<Guard<V>>, payload: V, k: nat) {
    k < |guards| && !guards[k](payload).Accepts? && forall i | 0 <= i < k :: guards[i](payload).Accepts?
  }

  ghost predicate AllAccept<V>(guards: seq<Guard<V>>, payload: V) {
    forall i | 0 <= i < |guards| :: guards[i](payload).Accepts?
  }

  lemma OneStop<V>(guards: seq<Guard<V>>, payload: V, i: nat, k: nat)
    requires StoppedAt(guards, payload, i) && StoppedAt(guards, payload, k)
    ensures i == k
  {
    assert !guards[i](payload).Accepts? && !guards[k](payload).Accepts?;
  }

  method RunGuards<V>(guards: seq<Guard<V>>, payload: V, signal: Signal) returns (refused: Option<Cause>)
    modifies signal
    ensures old(signal.looks) <= signal.looks
    ensures refused == Some(Aborted) <==> !Clear(signal.abortedAt, old(signal.looks), signal.looks)
    ensures refused == Some(Aborted) ==> signal.looks > 0 && signal.abortedAt(signal.looks - 1)
    ensures refused.None? ==> AllAccept(guards, payload)
    ensures refused.Some? && refused != Some(Aborted) ==> !AllAccept(guards, payload)
    ensures refused != Some(Aborted) ==>
      forall k: nat | StoppedAt(guards, payload, k) :: refused.Some? && TellsGuard(refused.value, guards[k](payload))
    // Two looks come before every guard that is asked.
    ensures refused.None? ==> signal.looks == old(signal.looks) + 2 * |guards|
    ensures refused.Some? && refused != Some(Aborted) ==>
      forall k: nat | StoppedAt(guards, payload, k) :: signal.looks == old(signal.looks) + 2 * (k + 1)
  {
    for i := 0 to |guards|
      invariant signal.looks == old(signal.looks) + 2 * i
      invariant Clear(signal.abortedAt, old(signal.looks), signal.looks)
      invariant forall k | 0 <= k < i :: guards[k](payload).Accepts?
    {
      var aborted := signal.Aborts();
      if aborted { return Some(Aborted); }
      aborted := signal.Aborts();
      if aborted { return Some(Aborted); }
      var answer := guards[i](payload);
      if !answer.Accepts? {
        forall k: nat | StoppedAt(guards, payload, k) ensures k == i { OneStop(guards, payload, i, k); }
        return Some(CauseOf(answer));
      }
    }
    return None;
  }

  // ----- pipes

  /** The pipes alone, without the storage boundary in between. */
  function Piped<V>(pipes: seq<Pipe<V>>, payload: V): Option<V> {
    if pipes == [] then Some(payload)
    else
      var before := Piped(pipes[..|pipes| - 1], payload);
      if before.None? then None
      else
        var transformed := pipes[|pipes| - 1](before.value);
        if transformed.Success? then Some(transformed.value) else None
  }

  /** One pipe, and the storage boundary after it. */
  function OnePipe<V, T>(j: Json<V, T>, c: Contract<V>, pipe: Pipe<V>, current: V): Result<V, PipeFault> {
    match pipe(current)
    case Failure(code) => Failure(PipeThrows(code))
    case Success(transformed) =>
      match EncodeSchema(j, c, transformed)
      case Failure(error) => Failure(SchemaFails(error))
      case Success(text) =>
        match DecodeSchema(j, c, text)
        case Failure(error) => Failure(SchemaFails(error))
        case Success(next) => Success(next)
  }

  /** The pipes with the boundary after each, up to the first that fails. */
  function Threaded<V, T>(j: Json<V, T>, c: Contract<V>, pipes: seq<Pipe<V>>, payload: V): Result<V, PipeFault> {
    if pipes == [] then Success(payload)
    else
      match Threaded(j, c, pipes[..|pipes| - 1], payload)
      case Failure(fault) => Failure(fault)
      case Success(current) => OnePipe(j, c, pipes[|pipes| - 1], current)
  }

  lemma {:induction false} ThreadStops<V, T>(j: Json<V, T>, c: Contract<V>, pipes: seq<Pipe<V>>, i: nat, payload: V)
    requires i <= |pipes| && Threaded(j, c, pipes[..i], payload).Failure?
    ensures Threaded(j, c, pipes, payload) == Threaded(j, c, pipes[..i], payload)
    decreases |pipes|
  {
    if i < |pipes| {
      var init := pipes[..|pipes| - 1];
      assert init[..i] == pipes[..i];
      ThreadStops(j, c, init, i, payload);
    } else {
      assert pipes[..i] == pipes;
    }
  }

  /** How far the pipes got: the first `k` were done, with this payload. */
  ghost predicate GotTo<V, T>(j: Json<V, T>, c: Contract<V>, pipes: seq<Pipe<V>>, payload: V, current: V, k: nat) {
    k <= |pipes| && Threaded(j, c, pipes[..k], payload) == Success(current)
  }

  /** `current` is what the first pipe that fails was given. */
  ghost predicate StoppedIn<V, T>(j: Json<V, T>, c: Contract<V>, pipes: seq<Pipe<V>>, payload: V, current: V) {
    exists k: nat :: k < |pipes| && GotTo(j, c, pipes, payload, current, k) && OnePipe(j, c, pipes[k], current).Failure?
  }

  ghost predicate RespectfulPipe<V(!new)>(same: (V, V) -> bool, pipe: Pipe<V>) {
    forall a, b | same(a, b) ::
      match pipe(a)
      case Success(value) => pipe(b).Success? && same(value, pipe(b).value)
      case Failure(_) => pipe(b).Failure?
  }

  lemma SameTransitive<V(!new)>(same: (V, V) -> bool, a: V, b: V, c: V)
    requires Equivalence(same) && same(a, b) && same(b, c)
    ensures same(a, c)
  {
  }

  lemma PipeStep<V(!new)>(same: (V, V) -> bool, pipe: Pipe<V>, a: V, b: V)
    requires Equivalence(same) && RespectfulPipe(same, pipe) && same(a, b)
    ensures
      match pipe(a)
      case Success(value) => pipe(b).Success? && same(value, pipe(b).value)
      case Failure(_) => pipe(b).Failure?
  {
  }

  lemma {:induction false} PipedStops<V>(pipes: seq<Pipe<V>>, i: nat, payload: V)
    requires i <= |pipes| && Piped(pipes[..i], payload).None?
    ensures Piped(pipes, payload).None?
    decreases |pipes|
  {
    if i < |pipes| {
      var init := pipes[..|pipes| - 1];
      assert init[..i] == pipes[..i];
      PipedStops(init, i, payload);
    } else {
      assert pipes[..i] == pipes;
    }
  }

  /** Nobody can tell deeply equal values apart: not the validator, nor any pipe. */
  ghost predicate Lawful<V(!new), T>(j: Json<V, T>, c: Contract<V>, pipes: seq<Pipe<V>>) {
    && Equivalence(j.same) && Respectful(j.same, c.validate)
    && forall i | 0 <= i < |pipes| :: RespectfulPipe(j.same, pipes[i])
  }

  /** What a value is after it was encoded and decoded with its contract. */
  ghost predicate RoundTrip<V(!new), T(!new)>(j: Json<V, T>, c: Contract<V>, value: V, next: V) {
    exists text :: EncodeSchema(j, c, value) == Success(text) && DecodeSchema(j, c, text) == Success(next)
  }

  /** One round through the loop, from the value `pure` that the pipes alone have reached. */
  lemma PipeKeepsPace<V(!new), T(!new)>(
    j: Json<V, T>, c: Contract<V>, pipes: seq<Pipe<V>>, i: nat, payload: V, current: V)
    requires Lawful(j, c, pipes) && i < |pipes|
    requires Piped(pipes[..i], payload).Some? && j.same(current, Piped(pipes[..i], payload).value)
    ensures pipes[i](current).Failure? ==> Piped(pipes, payload).None?
    ensures pipes[i](current).Success? ==>
      && Piped(pipes[..i + 1], payload).Some?
      && forall next | RoundTrip(j, c, pipes[i](current).value, next) :: j.same(next, Piped(pipes[..i + 1], payload).value)
  {
    assert pipes[..i + 1][..i] == pipes[..i];
    var pure := Piped(pipes[..i], payload).value;
    PipeStep(j.same, pipes[i], current, pure);
    if pipes[i](current).Failure? {
      PipedStops(pipes, i + 1, payload);
    } else {
      var transformed := pipes[i](current).value;
      forall next | RoundTrip(j, c, transformed, next) ensures j.same(next, Piped(pipes[..i + 1], payload).value) {
        var text :| EncodeSchema(j, c, transformed) == Success(text) && DecodeSchema(j, c, text) == Success(next);
        EncodedValuesDecode(j, c, transformed, text);
        SameTransitive(j.same, next, transformed, pipes[i](pure).value);
      }
    }
  }

  /** The body of the pipe loop. */
  method PipeOnce<V(!new), T(!new)>(j: Json<V, T>, c: Contract<V>, pipe: Pipe<V>, current: V, signal: Signal)
    returns (failed: Option<Cause>, next: V)
    modifies signal
    ensures old(signal.looks) <= signal.looks
    ensures failed == Some(Aborted) <==> !Clear(signal.abortedAt, old(signal.looks), signal.looks)
    ensures failed.Some? ==> next == current
    ensures failed.None? ==> pipe(current).Success? && RoundTrip(j, c, pipe(current).value, next)
    // Two looks, and then the pipe and the boundary decide.
    ensures failed != Some(Aborted) ==> signal.looks == old(signal.looks) + 2
    ensures failed == Some(Aborted) ==> signal.looks <= old(signal.looks) + 2
    ensures failed != Some(Aborted) ==>
      match OnePipe(j, c, pipe, current)
      case Success(value) => failed.None? && next == value
      case Failure(fault) => failed == Some(PipeFailed(fault))
  {
    hide EncodeSchema, DecodeSchema;
    next := current;
    var aborted := signal.Aborts();
    if aborted { return Some(Aborted), current; }
    aborted := signal.Aborts();
    if aborted { return Some(Aborted), current; }
    var transformed := pipe(current);
    if transformed.Failure? { return Some(PipeFailed(PipeThrows(transformed.error))), current; }
    var text := EncodeSchema(j, c, transformed.value);
    if text.Failure? { return Some(PipeFailed(SchemaFails(text.error))), current; }
    var decoded := DecodeSchema(j, c, text.value);
    if decoded.Failure? { return Some(PipeFailed(SchemaFails(decoded.error))), current; }
    return None, decoded.value;
  }

  function Fault<V>(threaded: Result<V, PipeFault>): Option<Cause> {
    if threaded.Failure? then Some(PipeFailed(threaded.error)) else None
  }

  lemma OneMorePipe<V, T>(j: Json<V, T>, c: Contract<V>, pipes: seq<Pipe<V>>, i: nat, payload: V, current: V)
    requires i < |pipes| && GotTo(j, c, pipes, payload, current, i)
    ensures OnePipe(j, c, pipes[i], current).Success? ==>
      GotTo(j, c, pipes, payload, OnePipe(j, c, pipes[i], current).value, i + 1)
    ensures OnePipe(j, c, pipes[i], current).Failure? ==>
      Threaded(j, c, pipes, payload) == OnePipe(j, c, pipes[i], current)
  {
    assert pipes[..i + 1][..i] == pipes[..i];
    hide OnePipe;
    assert Threaded(j, c, pipes[..i + 1], payload) == OnePipe(j, c, pipes[i], current);
    if OnePipe(j, c, pipes[i], current).Failure? { ThreadStops(j, c, pipes, i + 1, payload); }
  }

  /** When deep equality is respected, only a pipe that throws and an encoding that is refused can
      stop the pipes: what was encoded always decodes. */
  lemma {:induction false} WhatStopsThePipes<V(!new), T(!new)>(
    j: Json<V, T>, c: Contract<V>, pipes: seq<Pipe<V>>, payload: V) returns (k: nat, current: V)
    requires Lawful(j, c, pipes) && Threaded(j, c, pipes, payload).Failure?
    ensures k < |pipes| && GotTo(j, c, pipes, payload, current, k)
    ensures match Threaded(j, c, pipes, payload).error
            case PipeThrows(code) => pipes[k](current) == Failure(code)
            case SchemaFails(error) =>
              pipes[k](current).Success? && EncodeSchema(j, c, pipes[k](current).value) == Failure(error)
  {
    hide EncodeSchema, DecodeSchema;
    var init := pipes[..|pipes| - 1];
    if Threaded(j, c, init, payload).Failure? {
      k, current := WhatStopsThePipes(j, c, init, payload);
      assert init[..k] == pipes[..k];
    } else {
      k, current := |pipes| - 1, Threaded(j, c, init, payload).value;
      var transformed := pipes[k](current);
      if transformed.Success? && EncodeSchema(j, c, transformed.value).Success? {
        EncodedValuesDecode(j, c, transformed.value, EncodeSchema(j, c, transformed.value).value);
      }
    }
  }

  /** The pipe loop of `run`: each transformed payload passes through the contract before the next
      pipe sees it; `current` is the last one that did.  When deep equality is respected, what comes
      out is what the pipes alone make of the payload, up to deep equality. */
  method RunPipes<V(!new), T(!new)>(j: Json<V, T>, c: Contract<V>, pipes: seq<Pipe<V>>, payload: V, signal: Signal)
    returns (failed: Option<Cause>, current: V)
    modifies signal
    ensures old(signal.looks) <= signal.looks
    ensures failed == Some(Aborted) <==> !Clear(signal.abortedAt, old(signal.looks), signal.looks)
    ensures failed.None? ==> Prepared(j, c, pipes, payload, current)
    ensures pipes == [] ==> failed.None?
    ensures failed.Some? && failed.value.PipeFailed? && failed.value.fault.PipeThrows? && Lawful(j, c, pipes) ==>
      Piped(pipes, payload).None?
    // Without an abort the threaded pipes decide, which failure comes out included.
    ensures failed != Some(Aborted) ==> failed == Fault(Threaded(j, c, pipes, payload))
    ensures failed.None? ==> GotTo(j, c, pipes, payload, current, |pipes|) && signal.looks == old(signal.looks) + 2 * |pipes|
    ensures failed.Some? && failed != Some(Aborted) ==> StoppedIn(j, c, pipes, payload, current)
    // A pipe that is not done leaves the payload as it was before it, after one or two looks.
    ensures failed.Some? ==> exists k: nat ::
      GotTo(j, c, pipes, payload, current, k) && 2 * k < signal.looks - old(signal.looks) <= 2 * k + 2
  {
    current := payload;
    ghost var lawful := Lawful(j, c, pipes);
    assert lawful ==> j.same(payload, payload);
    assert Piped(pipes[..0], payload) == Some(payload);
    assert GotTo(j, c, pipes, payload, payload, 0);
    hide Lawful, EncodeSchema, DecodeSchema, Piped, Clear, GotTo, OnePipe, Threaded;
    NoLooks(signal.abortedAt, signal.looks);
    for i := 0 to |pipes|
      invariant signal.looks == old(signal.looks) + 2 * i && GotTo(j, c, pipes, payload, current, i)
      invariant Clear(signal.abortedAt, old(signal.looks), signal.looks)
      invariant lawful ==> Piped(pipes[..i], payload).Some? && j.same(current, Piped(pipes[..i], payload).value)
      invariant i > 0 ==> exists text :: DecodeSchema(j, c, text) == Success(current)
      invariant i == 0 ==> current == payload
    {
      ghost var middle := signal.looks;
      if lawful { PipeKeepsPace(j, c, pipes, i, payload, current); }
      OneMorePipe(j, c, pipes, i, payload, current);
      failed, current := PipeOnce(j, c, pipes[i], current, signal);
      ClearParts(signal.abortedAt, old(signal.looks), middle, signal.looks);
      if failed.Some? { return; }
    }
    assert pipes[..|pipes|] == pipes;
    AllThreaded(j, c, pipes, payload, current);
    failed := None;
  }

  lemma AllThreaded<V, T>(j: Json<V, T>, c: Contract<V>, pipes: seq<Pipe<V>>, payload: V, current: V)
    requires GotTo(j, c, pipes, payload, current, |pipes|)
    ensures Threaded(j, c, pipes, payload) == Success(current)
  {
    assert pipes[..|pipes|] == pipes;
  }

  lemma NoLooks(abortedAt: nat -> bool, n: nat)
    ensures Clear(abortedAt, n, n)
  {
  }

  /** What the pipes hand on: decoded from the contract, and up to deep equality their own doing. */
  ghost predicate Prepared<V(!new), T(!new)>(j: Json<V, T>, c: Contract<V>, pipes: seq<Pipe<V>>, payload: V, current: V) {
    && (Lawful(j, c, pipes) ==> Piped(pipes, payload).Some? && j.same(current, Piped(pipes, payload).value))
    && (pipes != [] ==> exists text :: DecodeSchema(j, c, text) == Success(current))
    && (pipes == [] ==> current == payload)
  }

  // ----- filters

  /** The filters before `k` declined the cause. */
  ghost predicate DeclinedBefore<V>(filters: seq<Filter<V>>, cause: Cause, payload: V, k: nat) {
    k <= |filters| && forall i | 0 <= i < k :: filters[i](cause, payload).Declines?
  }

  function Answered<V>(answer: Result<V, nat>): Result<V, Cause> {
    match answer
    case Success(value) => Success(value)
    case Failure(code) => Failure(FilterThrew(code))
  }

  ghost predicate CaughtAt<V>(filters: seq<Filter<V>>, cause: Cause, payload: V, r: Result<V, Cause>, k: nat) {
    DeclinedBefore(filters, cause, payload, k) &&
      if k == |filters| then r == Failure(cause)
      else
        match filters[k](cause, payload)
        case Takes(Success(value)) => r == Success(value)
        case Takes(Failure(code)) => r == Failure(FilterThrew(code))
        case Declines => false
        case SupportsNotBoolean => r == Failure(FilterMisbehaved)
        case SupportsThrows(code) => r == Failure(FilterThrew(code))
  }

  /** A cause goes to the first filter that does not decline it, and to no other; if all decline, it
      is thrown on. */
  ghost predicate Caught<V>(filters: seq<Filter<V>>, cause: Cause, payload: V, r: Result<V, Cause>) {
    exists k: nat :: CaughtAt(filters, cause, payload, r, k)
  }

  /** The looks made by the time the k-th filter has taken the cause, or all have declined it. */
  function LooksAt<V>(filters: seq<Filter<V>>, cause: Cause, payload: V, k: nat): nat {
    if k >= |filters| then 2 * |filters|
    else if filters[k](cause, payload).SupportsThrows? then 2 * k + 1
    else 2 * k + 2
  }

  lemma CaughtOnce<V>(filters: seq<Filter<V>>, cause: Cause, payload: V, r: Result<V, Cause>, r': Result<V, Cause>)
    requires Caught(filters, cause, payload, r) && Caught(filters, cause, payload, r')
    ensures r == r'
  {
    var k: nat :| CaughtAt(filters, cause, payload, r, k);
    var k': nat :| CaughtAt(filters, cause, payload, r', k');
    assert k < |filters| ==> !filters[k](cause, payload).Declines?;
    assert k' < |filters| ==> !filters[k'](cause, payload).Declines?;
  }

  /** The catch of `run`: an aborted delivery is not shown to any filter. */
  method Catch<V>(filters: seq<Filter<V>>, cause: Cause, payload: V, signal: Signal) returns (r: Result<V, Cause>)
    modifies signal
    ensures old(signal.looks) < signal.looks
    ensures signal.abortedAt(old(signal.looks)) ==> r == Failure(Aborted)
    ensures !Clear(signal.abortedAt, old(signal.looks), signal.looks) ==> r == Failure(Aborted)
    ensures Clear(signal.abortedAt, old(signal.looks), signal.looks) ==> Caught(filters, cause, payload, r)
    // One look before the filters, one before each of them is asked and one after its answer.
    ensures Clear(signal.abortedAt, old(signal.looks), signal.looks) ==>
      exists k: nat :: CaughtAt(filters, cause, payload, r, k)
        && signal.looks == old(signal.looks) + 1 + LooksAt(filters, cause, payload, k)
  {
    var aborted := signal.Aborts();
    if aborted { return Failure(Aborted); }
    for i := 0 to |filters|
      invariant signal.looks == old(signal.looks) + 1 + 2 * i
      invariant Clear(signal.abortedAt, old(signal.looks), signal.looks)
      invariant DeclinedBefore(filters, cause, payload, i)
    {
      aborted := signal.Aborts();
      if aborted { return Failure(Aborted); }
      var answer := filters[i](cause, payload);
      if answer.SupportsThrows? {
        r := Failure(FilterThrew(answer.code));
        assert CaughtAt(filters, cause, payload, r, i);
        return;
      }
      aborted := signal.Aborts();
      if aborted { return Failure(Aborted); }
      match answer {
        case Takes(taken) => r := Answered(taken);
        case SupportsNotBoolean => r := Failure(FilterMisbehaved);
        case Declines => continue;
      }
      assert CaughtAt(filters, cause, payload, r, i);
      return;
    }
    r := Failure(cause);
    assert CaughtAt(filters, cause, payload, r, |filters|);
  }

  // ----- the interceptor chain, with its own looks at the signal

  /** What a chain came to, if it has settled; `stands` is what its values stand for. */
  function ChainAnswer<V>(c: Interceptors.Chain, stands: nat -> V): Option<Result<V, Interceptors.Cause>> {
    if c.levels == [] || !c.levels[0].stage.Settled? then None
    else
      match c.levels[0].stage.result
      case Success(value) => Some(Success(stands(value)))
      case Failure(cause) => Some(Failure(cause))
  }

  /** The interceptors and the handler: how many interceptors there are, everything that they do with
      a payload and when, and what their values stand for. */
  datatype Middleware<!V> = Middleware(interceptors: nat, course: (V, nat) -> seq<Interceptors.Event>, stands: nat -> V)

  function ChainOf<V>(m: Middleware<V>, payload: V, abortedAt: nat -> bool, looks: nat): Interceptors.Chain {
    Interceptors.Steps(Interceptors.New(m.interceptors, abortedAt, looks), m.course(payload, looks))
  }

  /** `dispatch(0)`; no answer yet while the chain has not settled. */
  method Dispatch<V>(m: Middleware<V>, payload: V, signal: Signal) returns (answer: Option<Result<V, Interceptors.Cause>>)
    modifies signal
    ensures old(signal.looks) <= signal.looks
    ensures var c := ChainOf(m, payload, signal.abortedAt, old(signal.looks));
      signal.looks == c.looks && answer == ChainAnswer(c, m.stands)
  {
    Interceptors.EveryChainKeeps(m.interceptors, signal.abortedAt, signal.looks, m.course(payload, signal.looks));
    var c := ChainOf(m, payload, signal.abortedAt, signal.looks);
    signal.looks := c.looks;
    return ChainAnswer(c, m.stands);
  }

  // ----- the delivery

  lemma {:induction false} StaysAborted(abortedAt: nat -> bool, n: nat, m: nat)
    requires Interceptors.Monotone(abortedAt) && abortedAt(n) && n <= m
    ensures abortedAt(m)
    decreases m - n
  {
    if n < m { StaysAborted(abortedAt, n + 1, m); }
  }

  lemma NotClearLater(abortedAt: nat -> bool, from: nat, to: nat, later: nat)
    requires Interceptors.Monotone(abortedAt) && !Clear(abortedAt, from, to) && to <= later
    ensures abortedAt(later)
  {
    var n: nat :| from <= n < to && abortedAt(n);
    StaysAborted(abortedAt, n, later);
  }

  lemma ClearParts(abortedAt: nat -> bool, from: nat, middle: nat, to: nat)
    requires from <= middle <= to
    ensures Clear(abortedAt, from, to) <==> Clear(abortedAt, from, middle) && Clear(abortedAt, middle, to)
  {
  }

  /** The guards and the pipes. */
  method Prepare<V(!new), T(!new)>(
    j: Json<V, T>, c: Contract<V>, guards: seq<Guard<V>>, pipes: seq<Pipe<V>>, payload: V, signal: Signal)
    returns (stopped: Option<Cause>, current: V)
    modifies signal
    ensures old(signal.looks) <= signal.looks
    ensures stopped == Some(Aborted) <==> !Clear(signal.abortedAt, old(signal.looks), signal.looks)
    ensures stopped.None? ==> AllAccept(guards, payload) && Prepared(j, c, pipes, payload, current)
    ensures stopped.Some? && stopped != Some(Aborted) && !AllAccept(guards, payload) ==>
      current == payload && forall k: nat | StoppedAt(guards, payload, k) :: TellsGuard(stopped.value, guards[k](payload))
    ensures stopped != Some(Aborted) && AllAccept(guards, payload) ==> stopped == Fault(Threaded(j, c, pipes, payload))
    ensures AllAccept(guards, payload) && stopped != Some(Aborted) && stopped.Some? ==>
      StoppedIn(j, c, pipes, payload, current)
    ensures stopped.None? ==> Threaded(j, c, pipes, payload) == Success(current)
    ensures stopped.None? ==> signal.looks == old(signal.looks) + 2 * |guards| + 2 * |pipes|
  {
    hide Clear, Piped, Lawful, EncodeSchema, DecodeSchema, StoppedAt, OnePipe, Threaded, GotTo, AllAccept, StoppedIn;
    var refused := RunGuards(guards, payload, signal);
    ghost var middle := signal.looks;
    if refused.Some? { return refused, payload; }
    stopped, current := RunPipes(j, c, pipes, payload, signal);
    ClearParts(signal.abortedAt, old(signal.looks), middle, signal.looks);
    if stopped.None? { AllThreaded(j, c, pipes, payload, current); }
  }

  /** How a delivery went: what was handed to the chain and what it answered, what was thrown and with
      which payload, and how many looks had been made when the chain began and when it had ended. */
  datatype Course<V> = Course(
    handed: Option<V>,
    answer: Option<Result<V, Interceptors.Cause>>,
    cause: Option<Cause>,
    context: V,
    began: nat,
    ended: nat
  )

  /** The chain answered a value: the one case in which nobody looks at the signal any more. */
  predicate Valued<V>(course: Course<V>) {
    course.handed.Some? && course.answer.Some? && course.answer.value.Success?
  }

  /** Some look at the signal outside the chain found it aborted. */
  ghost predicate SeenOutside<V>(abortedAt: nat -> bool, course: Course<V>, from: nat, to: nat) {
    !Clear(abortedAt, from, course.began) || !Clear(abortedAt, course.ended, to)
  }

  /** What comes out of the part of `run` after the pipes, given the looks from `from` to `to`. */
  ghost predicate Concluded<V>(
    filters: seq<Filter<V>>, r: Option<Result<V, Cause>>, course: Course<V>, abortedAt: nat -> bool, from: nat, to: nat)
  {
    && from <= course.began <= course.ended <= to
    && (r.None? <==> course.handed.Some? && course.answer.None?)
    && (Valued(course) ==> r == Some(Success(course.answer.value.value)) && course.cause.None? && course.ended == to)
    && (r.Some? && SeenOutside(abortedAt, course, from, to) ==> r == Some(Failure(Aborted)))
    && (r.Some? && !SeenOutside(abortedAt, course, from, to) && !Valued(course) ==>
          course.cause.Some? && !course.cause.value.Aborted? && Caught(filters, course.cause.value, course.context, r.value))
    && (course.answer.Some? && course.answer.value.Failure? ==>
          course.cause == Some(DispatchFailed(course.answer.value.error)) && course.handed == Some(course.context))
  }

  /** Nothing that the filters make of another cause is the abort. */
  lemma CaughtIsNotAborted<V>(filters: seq<Filter<V>>, cause: Cause, payload: V, r: Result<V, Cause>)
    requires Caught(filters, cause, payload, r) && !cause.Aborted?
    ensures r != Failure(Aborted)
  {
  }

  /** The chain, and the catch if it threw. */
  method Conclude<V>(m: Middleware<V>, filters: seq<Filter<V>>, payload: V, signal: Signal)
    returns (r: Option<Result<V, Cause>>, ghost course: Course<V>)
    modifies signal
    ensures course.handed == Some(payload) && course.began == old(signal.looks)
    ensures course.answer == ChainAnswer(ChainOf(m, payload, signal.abortedAt, course.began), m.stands)
    ensures course.ended == ChainOf(m, payload, signal.abortedAt, course.began).looks
    ensures Concluded(filters, r, course, signal.abortedAt, old(signal.looks), signal.looks)
    ensures course.answer.Some? && !Valued(course) ==> course.ended < signal.looks
  {
    hide ChainOf, ChainAnswer, Caught;
    ghost var began := signal.looks;
    var answer := Dispatch(m, payload, signal);
    ghost var ended := signal.looks;
    course := Course(Some(payload), answer, None, payload, began, ended);
    if answer.None? { return None, course; }
    if answer.value.Success? { return Some(Success(answer.value.value)), course; }
    course := course.(cause := Some(DispatchFailed(answer.value.error)));
    var caught := Catch(filters, DispatchFailed(answer.value.error), payload, signal);
    r := Some(caught);
  }

  /** Something was thrown before the chain. */
  method Recover<V>(cause: Cause, filters: seq<Filter<V>>, payload: V, signal: Signal, ghost from: nat)
    returns (r: Option<Result<V, Cause>>, ghost course: Course<V>)
    requires signal.Valid() && from <= signal.looks
    requires cause == Aborted <==> !Clear(signal.abortedAt, from, signal.looks)
    modifies signal
    ensures course == Course(None, None, Some(cause), payload, old(signal.looks), old(signal.looks))
    ensures Concluded(filters, r, course, signal.abortedAt, from, signal.looks)
    ensures old(signal.looks) < signal.looks
  {
    hide Caught;
    ghost var before := signal.looks;
    course := Course(None, None, Some(cause), payload, before, before);
    if !Clear(signal.abortedAt, from, before) { NotClearLater(signal.abortedAt, from, before, before); }
    var caught := Catch(filters, cause, payload, signal);
    r := Some(caught);
  }

  /** `run`.  The chain is reached only if every guard accepted, every pipe and its round trip through
      the contract succeeded and no look found the signal aborted, and it is given what the pipes made
      of the payload; everything thrown on the way goes to the filters, with the payload as it then
      was.  No answer means that the chain has not settled yet. */
  method Run<V(!new), T(!new)>(
    j: Json<V, T>, c: Contract<V>, guards: seq<Guard<V>>, pipes: seq<Pipe<V>>, m: Middleware<V>,
    filters: seq<Filter<V>>, payload: V, signal: Signal)
    returns (r: Option<Result<V, Cause>>, ghost course: Course<V>)
    requires signal.Valid()
    modifies signal
    ensures Concluded(filters, r, course, signal.abortedAt, old(signal.looks), signal.looks)
    // The chain: who reaches it, with what, and what it answers.
    ensures course.handed.Some? ==>
      && AllAccept(guards, payload) && Prepared(j, c, pipes, payload, course.handed.value)
      && Threaded(j, c, pipes, payload) == Success(course.handed.value)
      && course.began == old(signal.looks) + 1 + 2 * |guards| + 2 * |pipes|
      && Clear(signal.abortedAt, old(signal.looks), course.began)
      && course.answer == ChainAnswer(ChainOf(m, course.handed.value, signal.abortedAt, course.began), m.stands)
    // What is thrown before it.
    ensures course.handed.None? ==> course.cause.Some?
    ensures course.handed.None? && course.cause != Some(Aborted) && !AllAccept(guards, payload) ==>
      course.context == payload
      && forall k: nat | StoppedAt(guards, payload, k) :: TellsGuard(course.cause.value, guards[k](payload))
    ensures course.handed.None? && course.cause != Some(Aborted) && AllAccept(guards, payload) ==>
      && course.cause == Fault(Threaded(j, c, pipes, payload))
      && StoppedIn(j, c, pipes, payload, course.context)
    // When the abort is what comes out.
    ensures r.Some? ==>
      (r == Some(Failure(Aborted)) <==> SeenOutside(signal.abortedAt, course, old(signal.looks), signal.looks))
    ensures r.Some? && !Clear(signal.abortedAt, old(signal.looks), signal.looks) ==>
      (r == Some(Failure(Aborted)) <==> !Valued(course))
  {
    hide Concluded, Clear, Caught, Prepared, ChainOf, ChainAnswer, StoppedAt, Threaded, GotTo, AllAccept, StoppedIn;
    ghost var from, abortedAt := signal.looks, signal.abortedAt;
    var aborted := signal.Aborts();
    if aborted {
      course := Course(None, None, Some(Aborted), payload, signal.looks, signal.looks);
      r := Some(Failure(Aborted));
      AbortedAtOnce(filters, course, abortedAt, from);
      return;
    }
    ghost var first := signal.looks;
    OneClearLook(abortedAt, from);
    var stopped, current := Prepare(j, c, guards, pipes, payload, signal);
    ghost var prepared := signal.looks;
    ClearParts(abortedAt, from, first, prepared);
    if stopped.Some? {
      r, course := Recover(stopped.value, filters, current, signal, from);
    } else {
      r, course := Conclude(m, filters, current, signal);
      ConcludedFrom(filters, r, course, abortedAt, from, prepared, signal.looks);
    }
    if r.Some? { WhenTheAbortComesOut(filters, r, course, abortedAt, from, signal.looks); }
  }

  lemma OneClearLook(abortedAt: nat -> bool, from: nat)
    ensures Clear(abortedAt, from, from + 1) <==> !abortedAt(from)
  {
  }

  lemma AbortedAtOnce<V>(filters: seq<Filter<V>>, course: Course<V>, abortedAt: nat -> bool, from: nat)
    requires abortedAt(from) && course.began == course.ended == from + 1 && course.handed.None? && course.answer.None?
    ensures Concluded(filters, Some(Failure(Aborted)), course, abortedAt, from, from + 1)
    ensures SeenOutside(abortedAt, course, from, from + 1) && !Clear(abortedAt, from, from + 1)
  {
  }

  /** Clear looks before the chain change nothing. */
  lemma ConcludedFrom<V>(
    filters: seq<Filter<V>>, r: Option<Result<V, Cause>>, course: Course<V>, abortedAt: nat -> bool,
    from: nat, began: nat, to: nat)
    requires Concluded(filters, r, course, abortedAt, began, to) && course.began == began
    requires from <= began && Clear(abortedAt, from, began)
    ensures Concluded(filters, r, course, abortedAt, from, to)
  {
    hide Caught;
  }

  /** The abort comes out exactly if a look outside the chain found it; and if any look at all did,
      exactly if the chain did not answer a value. */
  lemma WhenTheAbortComesOut<V>(
    filters: seq<Filter<V>>, r: Option<Result<V, Cause>>, course: Course<V>, abortedAt: nat -> bool, from: nat, to: nat)
    requires Concluded(filters, r, course, abortedAt, from, to) && Interceptors.Monotone(abortedAt) && r.Some?
    requires course.handed.None? ==> course.began == course.ended
    requires course.answer.Some? && !Valued(course) ==> course.ended < to
    requires course.handed.Some? ==> Clear(abortedAt, from, course.began)
    ensures r == Some(Failure(Aborted)) <==> SeenOutside(abortedAt, course, from, to)
    ensures !Clear(abortedAt, from, to) ==> (r == Some(Failure(Aborted)) <==> !Valued(course))
  {
    if !SeenOutside(abortedAt, course, from, to) && !Valued(course) {
      CaughtIsNotAborted(filters, course.cause.value, course.context, r.value);
    }
    ClearParts(abortedAt, from, course.began, to);
    ClearParts(abortedAt, course.began, course.ended, to);
    if !Clear(abortedAt, course.began, course.ended) && course.ended < to {
      NotClearLater(abortedAt, course.began, course.ended, course.ended);
    }
    hide Caught;
  }

  /** A delivery whose chain saw the abort and which answers a value: one interceptor around a handler
      that was not entered. */
  lemma AbortInsideTheChain<V>(value: V, payload: V) returns (m: Middleware<V>, abortedAt: nat -> bool)
    ensures Interceptors.Monotone(abortedAt)
    ensures var c := ChainOf(m, payload, abortedAt, 0);
      ChainAnswer(c, m.stands) == Some(Success(value)) && !Clear(abortedAt, 0, c.looks)
  {
    var signal, events := Interceptors.AbortInsideCanBeAnswered(0);
    abortedAt := signal;
    m := Middleware(1, (v, looks) => events, identity => value);
    assert abortedAt(2);
  }
}
