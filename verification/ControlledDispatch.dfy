/** The controlled-store dispatch (controlled-store.ts): which operation a mutation goes to, which
    errors it may surface, and the recovery of stalled jobs under one budget. */
module ControlledDispatch {
  import opened Outcomes
  import opened ControlledClock

  // ----- settle, release and cancel

  function Name(r: Request): string {
    match r
    case Settling(_, _, _) => "settle"
    case Releasing(_, _) => "release"
    case Cancelling(_) => "cancel"
  }

  /** `normalize`: a store failure passes, anything else becomes one. */
  function Normalize<T>(r: Result<T, StoreError>, operation: string): Result<T, StoreError> {
    match r
    case Success(_) => r
    case Failure(StoreFailure(_, _)) => r
    case Failure(error) => Failure(StoreFailure(operation, error.RevisionMismatch?))
  }

  /** The errors an operation hands to the supervisor as they are. */
  predicate Typed(r: Request, e: StoreError) {
    match r
    case Settling(_, _, _) => e.LeaseLost? || e.Conflict?
    case Releasing(_, _) => e.LeaseLost?
    case Cancelling(_) => e.NotCancellable?
  }

  function Surface(r: Request, raw: Result<Status, StoreError>): Result<Status, StoreError> {
    if raw.Failure? && Typed(r, raw.error) then raw else Normalize(raw, Name(r))
  }

  /** What the supervisor sees of a controlled mutation: success and the operation's own errors as
      they are, a store failure as it is, and every other error as a failure of the operation, which
      can be retried exactly if the policy had been redeployed. */
  lemma SurfacedErrors(r: Request, raw: Result<Status, StoreError>)
    ensures var seen := Surface(r, raw);
            && (seen.Success? <==> raw.Success?) && (seen.Success? ==> seen == raw)
            && (raw.Failure? && (OwnError(r, raw.error) || raw.error.StoreFailure?) ==> seen == raw)
            && (raw.Failure? && !OwnError(r, raw.error) && !raw.error.StoreFailure? ==>
                  && seen.Failure? && seen.error.StoreFailure?
                  && seen.error.retryable == raw.error.RevisionMismatch?
                  && (r.Settling? ==> seen.error.operation == "settle")
                  && (r.Releasing? ==> seen.error.operation == "release")
                  && (r.Cancelling? ==> seen.error.operation == "cancel"))
  {
  }

  /** The errors by which the supervisor tells how a mutation ended. */
  predicate OwnError(r: Request, e: StoreError) {
    || (r.Settling? && (e.LeaseLost? || e.Conflict?))
    || (r.Releasing? && e.LeaseLost?)
    || (r.Cancelling? && e.NotCancellable?)
  }

  // ----- why a mutation is not applied

  /** The record takes the mutation but for its date: the token holds the lease, unexpired at the
      mutation's time, or nobody needs to and the job is not over. */
  predicate TakenButForItsDate(job: Job, r: Request) {
    match r
    case Settling(token, now, _) => job.lease.Some? && job.lease.value.token == token && now < job.lease.value.expiresAt
    case Releasing(token, now) => job.lease.Some? && job.lease.value.token == token && now < job.lease.value.expiresAt
    case Cancelling(_) => !job.finished
  }

  /** The job was removed, the record does not take the mutation whatever its date, or others dated
      the record again in all three windows between a look and the next attempt. */
  ghost predicate NotToBeApplied(trace: seq<Attempt>, looks: seq<Option<Job>>) {
    && trace != []
    && var last := trace[|trace| - 1];
       || last.found.None?
       || !TakenButForItsDate(last.found.value, last.request)
       || (|looks| == |trace| && looks[|looks| - 1].None?)
       || (|trace| == 4 && |looks| == 3 && forall i: nat | i < 3 :: Overtaken(trace, looks, i))
  }

  lemma RefusalExplained(rules: Rules, found: Option<Job>, r: Request)
    requires SoundIfAny(found) && Answer(rules, found, r).Failure?
    ensures found.None? || !TakenButForItsDate(found.value, r) || IsClockRejection(Answer(rules, found, r).error)
  {
  }

  lemma LastIsSound(store: JobStore, trace: seq<Attempt>)
    requires store.Valid() && trace != [] && |trace| <= |store.attempts|
    requires store.attempts[|store.attempts| - |trace|..] == trace
    ensures SoundIfAny(trace[|trace| - 1].found)
  {
    var last := trace[|trace| - 1];
    assert last == store.attempts[|store.attempts| - 1];
    assert RecordedAt(store.first, store.history, last);
    HistoriesAreSound(store.first, store.history[..last.at]);
  }

  /** A success is true: what is reported as applied was applied by the last attempt, and a
      settlement that is acknowledged again was settled by its own token, once. */
  ghost predicate SuccessIsTrue(store: JobStore, request: Request, trace: seq<Attempt>, status: Status)
    reads store
  {
    && trace != []
    && (status.Applied? ==> trace[|trace| - 1].applied)
    && (status.AlreadyApplied? ==> request.Settling?)
    && (request.Settling? ==>
          HasSettled(store.first, request.token) || SettledEver(store.first, store.history, request.token))
  }

  lemma ReportedIsTrue(store: JobStore, request: Request, trace: seq<Attempt>)
    requires store.Valid() && trace != [] && Attempted(trace, request) && trace[|trace| - 1].reply.Success?
    requires request.Settling? ==> HasSettled(store.job, request.token)
    ensures SuccessIsTrue(store, request, trace, trace[|trace| - 1].reply.value)
  {
    var last := trace[|trace| - 1];
    assert Honest(last) && last.request == At(request, last.request.now);
    if request.Settling? && !HasSettled(store.first, request.token) {
      OnRecordMeansSettled(store.first, store.history, request.token);
    }
  }

  /** `jobPolicy` then the mutation.  `enabled` is what reading the queue's policy answers, `first`
      the record as the first look saw it. */
  method Mutation(store: JobStore, request: Request, enabled: Result<bool, StoreError>, wall: nat -> int)
    returns (result: Result<Status, StoreError>, ghost first: Option<Job>, ghost trace: seq<Attempt>, ghost looks: seq<Option<Job>>)
    requires store.Valid()
    modifies store
    ensures store.Valid() && old(store.history) <= store.history && old(store.calls) < store.calls
    ensures store.attempts == old(store.attempts) + trace && store.looks == old(store.looks) + [first] + looks
    ensures |trace| <= 4 && Attempted(trace, request) && Refreshed(trace, looks, wall)
    ensures trace != [] ==> trace[0].request == request
    ensures result.Success? ==> SuccessIsTrue(store, request, trace, result.value)
    // Nothing is sent exactly when the look fails, or the policy cannot be read for a job that exists.
    ensures trace == [] <==> !store.faults(old(store.calls)).Healthy? || (first.Some? && enabled.Failure?)
    ensures trace == [] ==> result.Failure? && result.error.StoreFailure?
    // Without a job or an enabled policy the native operation is called once, and its answer passed on.
    ensures trace != [] && (first.None? || enabled == Success(false)) ==>
              |trace| == 1 && looks == [] && result == trace[0].reply
    // With them the supervisor sees success, the operation's own errors or a store failure.
    ensures first.Some? && enabled == Success(true) && result.Failure? ==>
              || result.error.StoreFailure?
              || (request.Settling? && (result.error.LeaseLost? || result.error.Conflict?))
              || (request.Releasing? && result.error.LeaseLost?)
              || (request.Cancelling? && result.error.NotCancellable?)
    // A success and an error of its own are those of the last attempt, and always get through.
    ensures trace != [] && trace[|trace| - 1].reply.Success? ==> result == trace[|trace| - 1].reply
    ensures trace != [] && trace[|trace| - 1].reply.Failure? && OwnError(request, trace[|trace| - 1].reply.error) ==>
              result == trace[|trace| - 1].reply
    // If every call went through, a mutation that the record takes but for its date is applied.
    ensures first.Some? && enabled == Success(true) && result.Failure? ==>
              AllHealthy(store.faults, old(store.calls), store.calls) ==> NotToBeApplied(trace, looks)
  {
    hide SuccessIsTrue, Commit, CommitAll, Recorded, Sound, Answer, Honest, Refreshed, Attempted, Answered, NotToBeApplied,
         AllHealthy, Overtaken, Surface;
    trace, looks := [], [];
    NoAttempts(request, wall);
    var job := store.GetJob();
    first := store.job;
    OneIsHealthy(store.faults, old(store.calls));
    if job.Failure? {
      result := Normalize<Status>(Failure(job.error), "getJob");
      return;
    }
    var controlled := false;
    if job.value.Some? {
      if enabled.Failure? {
        result := Normalize<Status>(Failure(enabled.error), "getControls");
        return;
      }
      controlled := enabled.value;
    }
    ghost var sent := store.calls;
    if controlled {
      var raw;
      raw, trace, looks := WithFreshControlledClock(store, request, wall);
      SurfacedErrors(request, raw);
      result := Surface(request, raw);
      if result.Success? { ReportedIsTrue(store, request, trace); }
      if AllHealthy(store.faults, old(store.calls), store.calls) {
        HealthyParts(store.faults, old(store.calls), sent, store.calls);
        if raw.Failure? { UnappliedBecause(store, trace, looks, raw); }
      }
    } else {
      ghost var attempt;
      result, attempt := Send(store, request);
      trace := [attempt];
      OneAttempt(store.rules, request, attempt);
      FirstIsRefreshed(attempt, wall);
      assert Attempted(trace, request) by { GoingShows(request, trace, [], request.now, attempt.reply); }
      if result.Success? { ReportedIsTrue(store, request, trace); }
    }
  }

  lemma NoAttempts(request: Request, wall: nat -> int)
    ensures Attempted([], request) && Refreshed([], [], wall)
  {
  }

  lemma UnappliedBecause(store: JobStore, trace: seq<Attempt>, looks: seq<Option<Job>>, raw: Result<Status, StoreError>)
    requires store.Valid() && trace != [] && |trace| <= |store.attempts|
    requires store.attempts[|store.attempts| - |trace|..] == trace && Answered(store.rules, trace)
    requires raw.Failure? && (raw == trace[|trace| - 1].reply || Rejected(trace[|trace| - 1]))
    requires raw == trace[|trace| - 1].reply || |looks| == |trace|
    requires IsClockRejection(raw.error) ==>
      || (|looks| == |trace| && looks[|looks| - 1].None?)
      || (|trace| == 4 && |looks| == 3 && forall i: nat | i < 3 :: Overtaken(trace, looks, i))
    requires Rejected(trace[|trace| - 1]) ==> IsClockRejection(raw.error)
    ensures NotToBeApplied(trace, looks)
  {
    LastIsSound(store, trace);
    var last := trace[|trace| - 1];
    hide Answer, Sound;
    if !IsClockRejection(raw.error) { RefusalExplained(store.rules, last.found, last.request); }
  }

  // ----- claims

  datatype Policy = Policy(enabled: bool, revision: nat)

  datatype ClaimCall = NativeClaim | ControlledClaim(revision: nat)

  /** The store as a claim meets it: which operation was called, and what it will answer. */
  class ClaimStore {
    var calls: seq<ClaimCall>
    const answer: ClaimCall -> Result<nat, StoreError>

    constructor (answer: ClaimCall -> Result<nat, StoreError>)
      ensures calls == [] && this.answer == answer
    {
      calls, this.answer := [], answer;
    }

    method Claim(call: ClaimCall) returns (r: Result<nat, StoreError>)
      modifies this`calls
      ensures calls == old(calls) + [call] && r == answer(call)
    {
      calls := calls + [call];
      return answer(call);
    }
  }

  /** `claim` fails closed: a queue that declares controls is never claimed natively, a controlled
      claim names the revision that was read, and nothing is claimed on an unreadable policy. */
  method Claim(store: ClaimStore, declared: bool, controls: Result<Option<Policy>, StoreError>)
    returns (result: Result<nat, StoreError>, ghost sent: seq<ClaimCall>)
    modifies store
    ensures store.calls == old(store.calls) + sent && |sent| <= 1
    ensures NativeClaim in sent ==> !declared
    ensures forall revision | ControlledClaim(revision) in sent :: controls == Success(Some(Policy(true, revision)))
    ensures sent == [] <==> controls.Failure? || (declared && !IsEnabled(controls.value))
    ensures sent == [] ==> result.Failure? && result.error.StoreFailure?
    ensures NativeClaim in sent ==> !IsEnabled(controls.value)
    // What was sent decides the answer: as it is, but for the errors of a controlled claim.
    ensures sent != [] && (sent[0].NativeClaim? || store.answer(sent[0]).Success?) ==> result == store.answer(sent[0])
    ensures sent != [] && sent[0].ControlledClaim? && store.answer(sent[0]).Failure? ==>
              var raw := store.answer(sent[0]).error;
              result == Failure(if raw.StoreFailure? then raw else StoreFailure("claim", raw.RevisionMismatch?))
  {
    sent := [];
    if controls.Failure? { return Normalize(Failure(controls.error), "getControls"), sent; }
    var enabled := IsEnabled(controls.value);
    if declared && !enabled { return Failure(StoreFailure("claim", false)), sent; }
    if !enabled {
      sent := [NativeClaim];
      result := store.Claim(NativeClaim);
      return;
    }
    var call := ControlledClaim(controls.value.value.revision);
    sent := [call];
    result := store.Claim(call);
    result := Normalize(result, "claim");
  }

  predicate IsEnabled(policy: Option<Policy>) {
    policy.Some? && policy.value.enabled
  }

  // ----- recovery of stalled jobs

  type JobId = nat
  type QueueName = nat

  datatype Transition = Transition(job: JobId, queue: QueueName, fenced: bool)

  predicate Allows(limit: Option<nat>, n: nat) {
    limit.Some? ==> n < limit.value
  }

  function Jobs(ts: seq<Transition>): set<JobId> {
    set t | t in ts :: t.job
  }

  /** The jobs whose lease has run out at the request's time, by queue, and the deployed policies.
      Nobody else writes while a recovery runs.  A recovery operation takes at most `limit` jobs
      of the queues it covers, and fewer only when none are left; `lost(k)` says
      whether the reply of the k-th call gets lost. */
  class StalledStore {
    var stalled: map<JobId, QueueName>
    var calls: nat
    const policies: map<QueueName, Policy>
    const lost: nat -> bool
    ghost var log: seq<Transition>

    constructor (stalled: map<JobId, QueueName>, policies: map<QueueName, Policy>, lost: nat -> bool)
      ensures this.stalled == stalled && this.policies == policies && this.lost == lost && calls == 0 && log == []
    {
      this.stalled, this.policies, this.lost, calls, log := stalled, policies, lost, 0, [];
    }

    method GetControls(queue: QueueName) returns (r: Result<Option<Policy>, StoreError>)
      modifies this`calls
      ensures calls == old(calls) + 1
      ensures r == if lost(old(calls)) then Failure(StoreFailure("getControls", true))
                   else Success(if queue in policies then Some(policies[queue]) else None)
    {
      calls := calls + 1;
      if lost(calls - 1) { return Failure(StoreFailure("getControls", true)); }
      return Success(if queue in policies then Some(policies[queue]) else None);
    }

    /** One recovery operation, fenced for a queue or native for one queue or the namespace. */
    method Recover(queue: Option<QueueName>, limit: Option<nat>, fenced: bool)
      returns (r: Result<seq<Transition>, StoreError>, ghost taken: seq<Transition>)
      modifies this
      ensures calls == old(calls) + 1 && log == old(log) + taken && stalled == old(stalled) - Jobs(taken)
      ensures r == if lost(old(calls)) then Failure(StoreFailure("recoverStalled", true)) else Success(taken)
      ensures Takes(taken, old(stalled), queue, fenced)
      ensures limit.Some? ==> |taken| <= limit.value
      ensures Allows(limit, |taken|) ==> NoneLeft(stalled, queue)
    {
      hide Takes, Jobs;
      var got: seq<Transition> := [];
      ghost var before := stalled;
      TakesNothing(before, queue, fenced);
      while Allows(limit, |got|) && exists j :: j in stalled && Covers(queue, stalled[j])
        invariant calls == old(calls) && log == old(log) && stalled == before - Jobs(got) && Takes(got, before, queue, fenced)
        invariant limit.Some? ==> |got| <= limit.value
        decreases stalled.Keys
      {
        var j :| j in stalled && Covers(queue, stalled[j]);
        var t := Transition(j, stalled[j], fenced);
        TakesOneMore(got, before, queue, fenced, t);
        got := got + [t];
        ghost var keys := stalled.Keys;
        stalled := stalled - {j};
        assert stalled.Keys == keys - {j};
      }
      taken := got;
      log := log + taken;
      calls := calls + 1;
      if lost(calls - 1) { r := Failure(StoreFailure("recoverStalled", true)); } else { r := Success(got); }
    }
  }

  predicate Covers(queue: Option<QueueName>, of: QueueName) {
    queue.Some? ==> queue.value == of
  }

  ghost predicate NoneLeft(stalled: map<JobId, QueueName>, queue: Option<QueueName>) {
    forall j | j in stalled :: !Covers(queue, stalled[j])
  }

  /** Distinct stalled jobs of the covered queues, each taken by the same kind of operation. */
  ghost predicate Takes(taken: seq<Transition>, stalled: map<JobId, QueueName>, queue: Option<QueueName>, fenced: bool) {
    && Distinct(taken)
    && forall t | t in taken :: t.job in stalled && t.queue == stalled[t.job] && Covers(queue, t.queue) && t.fenced == fenced
  }

  ghost predicate Distinct(ts: seq<Transition>) {
    forall i, j | 0 <= i < j < |ts| :: ts[i].job != ts[j].job
  }

  lemma TakesNothing(stalled: map<JobId, QueueName>, queue: Option<QueueName>, fenced: bool)
    ensures Takes([], stalled, queue, fenced) && stalled - Jobs([]) == stalled
  {
    assert Jobs([]) == {};
  }

  lemma TakesOneMore(got: seq<Transition>, stalled: map<JobId, QueueName>, queue: Option<QueueName>, fenced: bool, t: Transition)
    requires Takes(got, stalled, queue, fenced)
    requires t.job in stalled - Jobs(got) && t.queue == stalled[t.job] && Covers(queue, t.queue) && t.fenced == fenced
    ensures Takes(got + [t], stalled, queue, fenced)
    ensures stalled - Jobs(got + [t]) == stalled - Jobs(got) - {t.job}
  {
    assert forall x :: x in got + [t] <==> x in got || x == t;
    assert Jobs(got + [t]) == Jobs(got) + {t.job};
    forall i | 0 <= i < |got| ensures got[i].job != t.job {
      assert got[i] in got;
      assert got[i].job in Jobs(got);
    }
  }

  predicate Enabled(policies: map<QueueName, Policy>, queue: QueueName) {
    queue in policies && policies[queue].enabled
  }

  /** Recovered jobs were stalled, none is taken twice, the unfenced operation took none whose queue
      is registered with an enabled policy, and the fenced one only jobs of queues with one. */
  ghost predicate FairlyTaken(taken: seq<Transition>, stalled: map<JobId, QueueName>, policies: map<QueueName, Policy>,
                              queues: set<QueueName>) {
    && Distinct(taken)
    && forall t | t in taken :: t.job in stalled && t.queue == stalled[t.job]
                                && (t.queue in queues && Enabled(policies, t.queue) ==> t.fenced)
                                && (t.fenced ==> Enabled(policies, t.queue))
  }

  /** The jobs a recovery of the whole namespace is responsible for: those of the registered
      queues, and everything else too when a registered queue has no enabled policy. */
  predicate Responsible(queue: QueueName, queues: seq<QueueName>, policies: map<QueueName, Policy>) {
    queues == [] || queue in queues || exists q :: q in queues && !Enabled(policies, q)
  }

  /** Every registered queue with an enabled policy has nothing left. */
  ghost predicate FencedQueuesDone(stalled: map<JobId, QueueName>, policies: map<QueueName, Policy>, queues: seq<QueueName>) {
    forall q | q in queues && Enabled(policies, q) :: NoneLeft(stalled, Some(q))
  }

  lemma NothingFair(stalled: map<JobId, QueueName>, policies: map<QueueName, Policy>, queues: set<QueueName>)
    ensures FairlyTaken([], stalled, policies, queues) && stalled - Jobs([]) == stalled
  {
    assert Jobs([]) == {};
  }

  /** A further operation on what is left keeps the whole fair. */
  lemma TakenTogether(taken: seq<Transition>, more: seq<Transition>, stalled: map<JobId, QueueName>,
                      policies: map<QueueName, Policy>, queues: seq<QueueName>, queue: Option<QueueName>, fenced: bool)
    requires FairlyTaken(taken, stalled, policies, set q | q in queues)
    requires Takes(more, stalled - Jobs(taken), queue, fenced)
    requires fenced || FencedQueuesDone(stalled - Jobs(taken), policies, queues)
    requires fenced ==> more == [] || (queue.Some? && Enabled(policies, queue.value))
    ensures FairlyTaken(taken + more, stalled, policies, set q | q in queues)
    ensures stalled - Jobs(taken) - Jobs(more) == stalled - Jobs(taken + more)
  {
    assert Jobs(taken + more) == Jobs(taken) + Jobs(more) by {
      assert forall t :: t in taken + more <==> t in taken || t in more;
    }
    forall i, j | 0 <= i < |taken| && 0 <= j < |more| ensures taken[i].job != more[j].job {
      assert taken[i] in taken && more[j] in more;
      assert taken[i].job in Jobs(taken);
    }
  }

  lemma NoneDone(stalled: map<JobId, QueueName>, policies: map<QueueName, Policy>)
    ensures FencedQueuesDone(stalled, policies, []) && AllEnabled(policies, [])
  {
  }

  lemma OneMoreDone(stalled: map<JobId, QueueName>, gone: set<JobId>, policies: map<QueueName, Policy>,
                    queues: seq<QueueName>, i: nat)
    requires i < |queues| && FencedQueuesDone(stalled, policies, queues[..i])
    requires Enabled(policies, queues[i]) ==> NoneLeft(stalled - gone, Some(queues[i]))
    ensures FencedQueuesDone(stalled - gone, policies, queues[..i + 1])
  {
    assert queues[..i + 1] == queues[..i] + [queues[i]];
  }

  lemma SweepAlone(taken: seq<Transition>, stalled: map<JobId, QueueName>, policies: map<QueueName, Policy>)
    requires Takes(taken, stalled, None, false)
    ensures FairlyTaken(taken, stalled, policies, {})
  {
  }

  lemma StillDone(stalled: map<JobId, QueueName>, gone: set<JobId>, policies: map<QueueName, Policy>, queues: seq<QueueName>)
    requires FencedQueuesDone(stalled, policies, queues)
    ensures FencedQueuesDone(stalled - gone, policies, queues)
  {
  }

  /** Nothing left anywhere, or nothing left in the fenced queues and no other registered queue. */
  lemma NothingResponsibleLeft(stalled: map<JobId, QueueName>, policies: map<QueueName, Policy>, queues: seq<QueueName>, swept: bool)
    requires queues != [] && FencedQueuesDone(stalled, policies, queues)
    requires swept ==> NoneLeft(stalled, None)
    requires !swept ==> AllEnabled(policies, queues)
    ensures forall j | j in stalled :: !Responsible(stalled[j], queues, policies)
  {
  }

  function Remaining(limit: Option<nat>, n: nat): (rest: Option<nat>)
    requires limit.Some? ==> n <= limit.value
  {
    if limit.Some? then Some(limit.value - n) else None
  }

  /** Some call's reply was lost. */
  ghost predicate AnyLost(lost: nat -> bool, from: nat, end: nat) {
    exists k: nat :: from <= k < end && lost(k)
  }

  lemma OneMoreCall(lost: nat -> bool, from: nat, end: nat)
    requires from <= end
    ensures AnyLost(lost, from, end + 1) <==> AnyLost(lost, from, end) || lost(end)
  {
  }

  ghost predicate AllEnabled(policies: map<QueueName, Policy>, queues: seq<QueueName>) {
    forall q | q in queues :: Enabled(policies, q)
  }

  lemma OneMoreEnabled(policies: map<QueueName, Policy>, queues: seq<QueueName>, i: nat)
    requires i < |queues| && AllEnabled(policies, queues[..i]) && Enabled(policies, queues[i])
    ensures AllEnabled(policies, queues[..i + 1])
  {
    assert queues[..i + 1] == queues[..i] + [queues[i]];
  }

  lemma NothingLost(lost: nat -> bool, from: nat)
    ensures !AnyLost(lost, from, from)
    ensures AnyLost(lost, from, from + 1) <==> lost(from)
  {
    assert lost(from) ==> from <= from < from + 1 && lost(from);
  }

  lemma EverythingDone(stalled: map<JobId, QueueName>, policies: map<QueueName, Policy>)
    requires NoneLeft(stalled, None)
    ensures forall j | j in stalled :: !Responsible(stalled[j], [], policies)
  {
  }

  /** A recovery asked for one queue: fenced by its policy if that is enabled, native otherwise. */
  method RecoverOne(store: StalledStore, queue: QueueName, limit: Option<nat>)
    returns (result: Result<seq<Transition>, StoreError>, ghost taken: seq<Transition>)
    modifies store
    ensures store.log == old(store.log) + taken && store.stalled == old(store.stalled) - Jobs(taken)
    ensures result.Success? ==> result.value == taken
    ensures old(store.calls) <= store.calls
    ensures result.Failure? <==> AnyLost(store.lost, old(store.calls), store.calls)
    ensures result.Failure? ==> result.error.StoreFailure?
    ensures limit.Some? ==> |taken| <= limit.value
    ensures FairlyTaken(taken, old(store.stalled), store.policies, {queue})
    ensures result.Success? && Allows(limit, |taken|) ==> NoneLeft(store.stalled, Some(queue))
  {
    taken := [];
    ghost var start, first := store.calls, store.stalled;
    NothingLost(store.lost, start);
    OneMoreCall(store.lost, start, start + 1);
    NothingFair(first, store.policies, {queue});
    hide AnyLost;
    var controls := store.GetControls(queue);
    if controls.Failure? { return Failure(controls.error), taken; }
    var fenced := controls.value.Some? && controls.value.value.enabled;
    result, taken := store.Recover(Some(queue), limit, fenced);
    if fenced { result := Normalize(result, "recoverStalled"); }
  }

  lemma LostInParts(lost: nat -> bool, from: nat, mid: nat, end: nat)
    requires from <= mid <= end
    ensures AnyLost(lost, from, end) <==> AnyLost(lost, from, mid) || AnyLost(lost, mid, end)
  {
  }

  /** One turn of the loop over the registered queues. */
  datatype QueueTurn = Failed(error: StoreError) | Full | Uncontrolled | Recovered(more: seq<Transition>)

  /** `count` transitions have been recovered so far. */
  method RecoverNext(store: StalledStore, queue: QueueName, limit: Option<nat>, count: nat)
    returns (turn: QueueTurn, ghost more: seq<Transition>)
    requires limit.Some? ==> count <= limit.value
    modifies store
    ensures store.log == old(store.log) + more && store.stalled == old(store.stalled) - Jobs(more)
    ensures Takes(more, old(store.stalled), Some(queue), true)
    ensures old(store.calls) <= store.calls
    ensures turn.Failed? <==> AnyLost(store.lost, old(store.calls), store.calls)
    ensures turn.Failed? ==> turn.error.StoreFailure?
    ensures limit.Some? ==> count + |more| <= limit.value
    ensures turn.Full? ==> more == [] && limit == Some(count)
    ensures turn.Uncontrolled? ==> more == [] && !Enabled(store.policies, queue)
    ensures more != [] || turn.Recovered? ==> Enabled(store.policies, queue)
    ensures turn.Recovered? ==> turn.more == more
    ensures turn.Recovered? && Allows(limit, count + |more|) ==> NoneLeft(store.stalled, Some(queue))
  {
    more := [];
    ghost var start := store.calls;
    NothingLost(store.lost, start);
    OneMoreCall(store.lost, start, start + 1);
    TakesNothing(store.stalled, Some(queue), true);
    hide AnyLost, Takes, Jobs;
    var controls := store.GetControls(queue);
    if controls.Failure? { return Failed(controls.error), more; }
    if controls.value.None? || !controls.value.value.enabled { return Uncontrolled, more; }
    var rest := Remaining(limit, count);
    if rest == Some(0) { return Full, more; }
    var recovered;
    recovered, more := store.Recover(Some(queue), rest, true);
    turn := if recovered.Failure? then Failed(recovered.error) else Recovered(recovered.value);
  }

  /** The loop over the registered queues.  It stops early with an answer, or goes to its end with the
      fenced queues recovered and the word whether some queue is left to the native operation. */
  method RecoverQueues(store: StalledStore, queues: seq<QueueName>, limit: Option<nat>, validName: QueueName -> bool)
    returns (stop: Option<Result<seq<Transition>, StoreError>>, transitions: seq<Transition>, nativeSweepNeeded: bool,
             ghost taken: seq<Transition>)
    modifies store
    ensures store.log == old(store.log) + taken && store.stalled == old(store.stalled) - Jobs(taken)
    ensures FairlyTaken(taken, old(store.stalled), store.policies, set q | q in queues)
    ensures old(store.calls) <= store.calls && (limit.Some? ==> |taken| <= limit.value)
    ensures AnyLost(store.lost, old(store.calls), store.calls) ==> stop.Some? && stop.value.Failure?
    ensures stop.Some? && stop.value.Failure? ==>
              stop.value.error.StoreFailure?
              && (AnyLost(store.lost, old(store.calls), store.calls) || exists q :: q in queues && !validName(q))
    ensures stop.Some? && stop.value.Success? ==> stop.value.value == taken && limit == Some(|taken|)
    ensures stop.None? ==>
              && transitions == taken && (!nativeSweepNeeded ==> AllEnabled(store.policies, queues))
              && (Allows(limit, |taken|) ==> FencedQueuesDone(store.stalled, store.policies, queues))
  {
    hide Takes, Jobs, FairlyTaken, FencedQueuesDone, AnyLost, AllEnabled;
    ghost var first, policies, start := store.stalled, store.policies, store.calls;
    NothingFair(first, policies, set q | q in queues);
    taken, transitions, nativeSweepNeeded := [], [], false;
    var i := 0;
    NoneDone(first, policies);
    NothingLost(store.lost, start);
    while i < |queues|
      invariant 0 <= i <= |queues| && start <= store.calls && !AnyLost(store.lost, start, store.calls)
      invariant store.log == old(store.log) + taken && store.stalled == first - Jobs(taken)
      invariant transitions == taken && (limit.Some? ==> |taken| <= limit.value)
      invariant FairlyTaken(taken, first, policies, set q | q in queues)
      invariant !nativeSweepNeeded ==> AllEnabled(policies, queues[..i])
      invariant Allows(limit, |taken|) ==> FencedQueuesDone(store.stalled, policies, queues[..i])
    {
      if !validName(queues[i]) {
        stop := Some(Failure(StoreFailure("recoverStalled", false)));
        return;
      }
      ghost var before, called := store.stalled, store.calls;
      var turn; ghost var more;
      turn, more := RecoverNext(store, queues[i], limit, |transitions|);
      TakenTogether(taken, more, first, policies, queues, Some(queues[i]), true);
      LostInParts(store.lost, start, called, store.calls);
      taken := taken + more;
      match turn {
        case Failed(error) => stop := Some(Failure(error)); return;
        case Full => stop := Some(Success(transitions)); return;
        case Uncontrolled => nativeSweepNeeded := true;
        case Recovered(recovered) =>
          transitions := transitions + recovered;
          if !nativeSweepNeeded { OneMoreEnabled(policies, queues, i); }
      }
      if Allows(limit, |taken|) { OneMoreDone(before, Jobs(more), policies, queues, i); }
      i := i + 1;
    }
    assert queues[..i] == queues;
    stop := None;
  }

  method RecoverStalled(store: StalledStore, queues: seq<QueueName>, queue: Option<QueueName>, limit: Option<nat>,
                        validName: QueueName -> bool)
    returns (result: Result<seq<Transition>, StoreError>, ghost taken: seq<Transition>)
    modifies store
    ensures store.log == old(store.log) + taken && store.stalled == old(store.stalled) - Jobs(taken)
    // What is reported is what was recovered, and all of it unless a reply was lost or a name is bad.
    ensures result.Success? ==> result.value == taken
    ensures old(store.calls) <= store.calls
    ensures AnyLost(store.lost, old(store.calls), store.calls) ==> result.Failure?
    ensures result.Failure? ==>
              || AnyLost(store.lost, old(store.calls), store.calls)
              || (queue.None? && exists q :: q in queues && !validName(q))
    ensures result.Failure? ==> result.error.StoreFailure?
    ensures limit.Some? ==> |taken| <= limit.value
    // Even when the answer is an error, everything taken was taken fairly.
    ensures FairlyTaken(taken, old(store.stalled), store.policies,
                        if queue.Some? then {queue.value} else set q | q in queues)
    // Fewer than asked for, or no limit, means nothing of its responsibility is left behind.
    ensures result.Success? && Allows(limit, |taken|) ==>
              forall j | j in store.stalled ::
                if queue.Some? then store.stalled[j] != queue.value
                else !Responsible(store.stalled[j], queues, store.policies)
  {
    ghost var start := store.calls;
    if queue.Some? {
      result, taken := RecoverOne(store, queue.value, limit);
      return;
    }
    hide Takes, Jobs, FairlyTaken, FencedQueuesDone, Responsible, AnyLost, AllEnabled;
    ghost var first, policies := store.stalled, store.policies;
    if queues == [] {
      NothingLost(store.lost, start);
      result, taken := store.Recover(None, limit, false);
      SweepAlone(taken, first, policies);
      if result.Success? && Allows(limit, |taken|) { EverythingDone(store.stalled, policies); }
      return;
    }
    var stop, transitions, nativeSweepNeeded;
    stop, transitions, nativeSweepNeeded, taken := RecoverQueues(store, queues, limit, validName);
    if stop.Some? { return stop.value, taken; }
    if nativeSweepNeeded {
      var rest := Remaining(limit, |transitions|);
      if rest != Some(0) {
        var recovered; ghost var more;
        ghost var before := store.stalled;
        OneMoreCall(store.lost, start, store.calls);
        recovered, more := store.Recover(None, rest, false);
        TakenTogether(taken, more, first, policies, queues, None, false);
        StillDone(before, Jobs(more), policies, queues);
        taken := taken + more;
        if recovered.Failure? { return Failure(recovered.error), taken; }
        transitions := transitions + recovered.value;
      }
    }
    if Allows(limit, |taken|) { NothingResponsibleLeft(store.stalled, policies, queues, nativeSweepNeeded); }
    return Success(transitions), taken;
  }
}
