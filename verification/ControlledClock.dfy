/** Refreshing a rejected mutation time (controlled-clock.ts) against a job record that other
    processes keep changing.

    The record is modelled with the store's stated rules.  A mutation dated before `updatedAt` is
    rejected and changes nothing; settling and releasing need the current token and a lease
    unexpired at the mutation's own time; a cancellation needs no lease, only asks for the end of an
    active job and leaves its lease alone; a settlement may be acknowledged again, without a further
    change, for a token that has settled the job; lease tokens are issued once.  What other
    processes commit between our calls, what the wall clock reads, whether the store looks at the
    clock or at its memory first and which calls fail are arbitrary. */
module ControlledClock {
  import opened Outcomes

  datatype Lease = Lease(token: nat, expiresAt: int)

  /** `settled` are the tokens whose settlements took effect, oldest first. */
  datatype Job = Job(
    updatedAt: int,
    lease: Option<Lease>,
    issued: set<nat>,
    settled: seq<nat>,
    finished: bool,
    runAt: int,
    cancelRequestedAt: Option<int>
  )

  /** The mutation sent, at its time: a settlement, whose `runAt` says when a retry should run, and
      a release speak for a lease; a cancellation for nobody. */
  datatype Request =
    | Settling(token: nat, now: int, runAt: Option<int>)
    | Releasing(token: nat, now: int)
    | Cancelling(now: int)

  predicate Leased(r: Request) {
    !r.Cancelling?
  }

  predicate Holds(job: Job, token: nat, now: int) {
    job.lease.Some? && job.lease.value.token == token && now < job.lease.value.expiresAt
  }

  /** The record can take the mutation: not in its past, and fenced by the lease if it has one to
      speak for. */
  predicate Fits(job: Job, r: Request) {
    && job.updatedAt <= r.now
    && if Leased(r) then Holds(job, r.token, r.now) else !job.finished
  }

  function Effect(job: Job, r: Request): Job {
    match r
    case Settling(token, now, runAt) =>
      job.(updatedAt := now, lease := None, settled := job.settled + [token], finished := runAt.None?,
           runAt := if runAt.Some? then runAt.value else job.runAt)
    case Releasing(_, now) => job.(updatedAt := now, lease := None)
    case Cancelling(now) =>
      if job.lease.Some? then job.(updatedAt := now, cancelRequestedAt := Some(now))
      else job.(updatedAt := now, finished := true)
  }

  /** One commit by anybody. */
  datatype Writer =
    | Heartbeat(token: nat, now: int, duration: nat)
    | Claim(token: nat, now: int, duration: nat)
    | Recover(now: int, exhausted: bool)
    | Mutates(request: Request)
    | Remove

  function Commit(found: Option<Job>, w: Writer): Option<Job> {
    match found
    case None => None
    case Some(job) =>
      match w
      case Remove => None
      case Heartbeat(token, now, duration) =>
        if now < job.updatedAt || !Holds(job, token, now) then found
        else Some(job.(updatedAt := now, lease := Some(Lease(token, now + duration))))
      case Claim(token, now, duration) =>
        if now < job.updatedAt || job.lease.Some? || job.finished || token in job.issued then found
        else Some(job.(updatedAt := now, lease := Some(Lease(token, now + duration)), issued := job.issued + {token}))
      case Recover(now, exhausted) =>
        if now < job.updatedAt || job.lease.None? || now < job.lease.value.expiresAt then found
        else Some(job.(updatedAt := now, lease := None, finished := exhausted))
      case Mutates(r) => if Fits(job, r) then Some(Effect(job, r)) else found
  }

  function CommitAll(found: Option<Job>, ws: seq<Writer>): Option<Job> {
    if ws == [] then found else Commit(CommitAll(found, ws[..|ws| - 1]), ws[|ws| - 1])
  }

  lemma {:induction false} CommitFurther(found: Option<Job>, ws: seq<Writer>, more: seq<Writer>)
    ensures CommitAll(found, ws + more) == CommitAll(CommitAll(found, ws), more)
  {
    if more == [] {
      assert ws + more == ws;
    } else {
      assert (ws + more)[..|ws + more| - 1] == ws + more[..|more| - 1];
      CommitFurther(found, ws, more[..|more| - 1]);
    }
  }

  /** A removed job stays removed, and the record's date never goes back. */
  predicate NotEarlier(before: Option<Job>, after: Option<Job>) {
    after.Some? ==> before.Some? && before.value.updatedAt <= after.value.updatedAt
  }

  lemma {:induction false} OthersNeverBackdate(found: Option<Job>, ws: seq<Writer>)
    ensures NotEarlier(found, CommitAll(found, ws))
  {
    if ws != [] { OthersNeverBackdate(found, ws[..|ws| - 1]); }
  }

  // ----- over any history of the record

  /** A token that holds the lease has not settled, a finished job is held by nobody, and no token
      has settled twice. */
  ghost predicate Sound(job: Job) {
    && (job.lease.Some? ==> job.lease.value.token in job.issued && job.lease.value.token !in job.settled && !job.finished)
    && (forall t | t in job.settled :: t in job.issued)
    && (forall i, j | 0 <= i < j < |job.settled| :: job.settled[i] != job.settled[j])
  }

  ghost predicate SoundIfAny(found: Option<Job>) {
    found.Some? ==> Sound(found.value)
  }

  lemma CommitSound(found: Option<Job>, w: Writer)
    requires SoundIfAny(found)
    ensures SoundIfAny(Commit(found, w))
  {
  }

  lemma {:induction false} HistoriesAreSound(first: Option<Job>, ws: seq<Writer>)
    requires SoundIfAny(first)
    ensures SoundIfAny(CommitAll(first, ws))
  {
    if ws != [] {
      HistoriesAreSound(first, ws[..|ws| - 1]);
      CommitSound(CommitAll(first, ws[..|ws| - 1]), ws[|ws| - 1]);
    }
  }

  /** The k-th commit was a settlement with this token, and it took effect. */
  ghost predicate SettledAt(first: Option<Job>, ws: seq<Writer>, k: int, token: nat) {
    && 0 <= k < |ws| && ws[k].Mutates? && ws[k].request.Settling? && ws[k].request.token == token
    && var found := CommitAll(first, ws[..k]);
       found.Some? && Fits(found.value, ws[k].request)
  }

  predicate HasSettled(found: Option<Job>, token: nat) {
    found.Some? && token in found.value.settled
  }

  /** What settled once stays on record, until the job is removed. */
  lemma {:induction false} SettledStays(first: Option<Job>, ws: seq<Writer>, k: nat, n: nat, token: nat)
    requires SettledAt(first, ws, k, token) && k < n <= |ws|
    ensures HasSettled(CommitAll(first, ws[..n]), token) || CommitAll(first, ws[..n]).None?
    decreases n
  {
    assert ws[..n][..n - 1] == ws[..n - 1];
    if n > k + 1 { SettledStays(first, ws, k, n - 1, token); }
  }

  /** However often, by whomever and with whatever replies a settlement is sent for one token, the
      record is settled by it at most once. */
  lemma SettledAtMostOnce(first: Option<Job>, ws: seq<Writer>, i: nat, j: nat, token: nat)
    requires SoundIfAny(first) && SettledAt(first, ws, i, token) && SettledAt(first, ws, j, token)
    ensures i == j
  {
    var a, b := if i < j then i else j, if i < j then j else i;
    if a < b {
      SettledStays(first, ws, a, b, token);
      HistoriesAreSound(first, ws[..b]);
    }
  }

  ghost predicate SettledEver(first: Option<Job>, ws: seq<Writer>, token: nat) {
    exists k :: SettledAt(first, ws, k, token)
  }

  /** And a token is on record as having settled only if one of those settlements took effect. */
  lemma {:induction false} OnRecordMeansSettled(first: Option<Job>, ws: seq<Writer>, token: nat)
    requires HasSettled(CommitAll(first, ws), token) && !HasSettled(first, token)
    ensures SettledEver(first, ws, token)
  {
    var init, n := ws[..|ws| - 1], |ws| - 1;
    assert forall k | 0 <= k <= n :: init[..k] == ws[..k];
    if HasSettled(CommitAll(first, init), token) {
      OnRecordMeansSettled(first, init, token);
      var k :| SettledAt(first, init, k, token);
      assert SettledAt(first, ws, k, token);
    } else {
      assert SettledAt(first, ws, n, token);
    }
  }

  /** A token that was issued and no longer holds the lease, or a job that is gone. */
  predicate Lost(found: Option<Job>, token: nat) {
    found.Some? ==>
      token in found.value.issued && !(found.value.lease.Some? && found.value.lease.value.token == token)
  }

  lemma {:induction false} LostStays(found: Option<Job>, ws: seq<Writer>, token: nat)
    requires Lost(found, token)
    ensures Lost(CommitAll(found, ws), token)
  {
    if ws != [] { LostStays(found, ws[..|ws| - 1], token); }
  }

  // ----- what the store answers

  datatype StoreError =
    | Definition(field: string, message: string)
    | NotFound
    | LeaseLost
    | Conflict
    | NotCancellable
    | RevisionMismatch
    | StoreFailure(operation: string, retryable: bool)

  const STALE_CLOCK := Definition("now", "must not be earlier than updatedAt")

  predicate IsClockRejection(e: StoreError) {
    e.Definition? && e.field == "now" && e.message == "must not be earlier than updatedAt"
  }

  datatype Status = Applied | AlreadyApplied

  datatype Recall = Acknowledges | Conflicts | Forgotten

  /** What may differ between stores: which check comes first, and how a store answers a settlement
      with a token that has settled the job before. */
  datatype Rules = Rules(clockFirst: bool, recall: (Job, Request) -> Recall)

  function Recalled(rules: Rules, job: Job, r: Request): Recall {
    if r.Settling? && r.token in job.settled then rules.recall(job, r) else Forgotten
  }

  function Answer(rules: Rules, found: Option<Job>, r: Request): Result<Status, StoreError> {
    match found
    case None => Failure(NotFound)
    case Some(job) =>
      if rules.clockFirst && r.now < job.updatedAt then Failure(STALE_CLOCK)
      else
        match Recalled(rules, job, r)
        case Acknowledges => Success(AlreadyApplied)
        case Conflicts => Failure(Conflict)
        case Forgotten =>
          if r.Cancelling? && job.finished then Failure(NotCancellable)
          else if r.now < job.updatedAt then Failure(STALE_CLOCK)
          else if !Fits(job, r) then Failure(LeaseLost)
          else Success(Applied)
  }

  /** On a sound record an answer says exactly what was done: "applied" whenever the record takes
      the mutation, "already applied" only for a token that has settled it and then changes nothing. */
  lemma AnswersAreTrue(rules: Rules, found: Option<Job>, r: Request)
    requires SoundIfAny(found)
    ensures
      var answer := Answer(rules, found, r);
      && (answer == Success(Applied) <==> found.Some? && Fits(found.value, r))
      && (answer == Success(AlreadyApplied) ==>
            r.Settling? && HasSettled(found, r.token) && Commit(found, Mutates(r)) == found)
      && (answer.Failure? ==> Commit(found, Mutates(r)) == found)
  {
  }

  /** What can go wrong with one call besides the rules: it may be refused before it runs, or it
      may run and its reply be lost. */
  datatype Fault = Healthy | RefusedWith(error: StoreError) | ReplyLost

  /** One attempt as it happened: after how many commits it arrived, the record it met, whether it
      was applied, what was replied, the record it left. */
  datatype Attempt = Attempt(
    request: Request, at: nat, found: Option<Job>, applied: bool, reply: Result<Status, StoreError>, after: Option<Job>)

  /** The token was the current one and its lease had not expired at the mutation's own time. */
  predicate Fenced(a: Attempt) {
    Leased(a.request) && a.found.Some? && Holds(a.found.value, a.request.token, a.request.now)
  }

  predicate Rejected(a: Attempt) {
    a.reply.Failure? && IsClockRejection(a.reply.error)
  }

  /** A rejected attempt changed nothing, an applied one was taken by the record it met, "applied"
      was applied, and "already applied" met a record its token had settled. */
  predicate Honest(a: Attempt) {
    && (Rejected(a) ==> !a.applied)
    && (a.applied ==> a.found.Some? && Fits(a.found.value, a.request) && a.after == Some(Effect(a.found.value, a.request)))
    && (!a.applied ==> a.after == a.found)
    && (a.reply == Success(Applied) ==> a.applied)
    && (a.reply == Success(AlreadyApplied) ==> a.request.Settling? && HasSettled(a.found, a.request.token))
  }

  lemma AppliedNext(first: Option<Job>, history: seq<Writer>, r: Request)
    requires var job := CommitAll(first, history); SoundIfAny(job) && job.Some? && Fits(job.value, r)
    ensures
      var job := CommitAll(first, history);
      && CommitAll(first, history + [Mutates(r)]) == Some(Effect(job.value, r)) && Sound(Effect(job.value, r))
  {
    assert (history + [Mutates(r)])[..|history|] == history;
    CommitSound(CommitAll(first, history), Mutates(r));
  }

  /** The attempts have their places in the history of the record, in order. */
  ghost predicate Recorded(first: Option<Job>, history: seq<Writer>, attempts: seq<Attempt>) {
    && (forall i | 0 <= i < |attempts| :: RecordedAt(first, history, attempts[i]))
    && (forall i, j | 0 <= i < j < |attempts| && attempts[i].applied :: attempts[i].at < attempts[j].at)
  }

  ghost predicate RecordedAt(first: Option<Job>, history: seq<Writer>, a: Attempt) {
    && a.at <= |history| && a.found == CommitAll(first, history[..a.at])
    && (a.applied ==> a.at < |history| && history[a.at] == Mutates(a.request)
                      && a.found.Some? && Fits(a.found.value, a.request)
                      && a.after == CommitAll(first, history[..a.at + 1]))
  }

  lemma RecordedGrows(first: Option<Job>, history: seq<Writer>, attempts: seq<Attempt>, more: seq<Writer>)
    requires Recorded(first, history, attempts)
    ensures Recorded(first, history + more, attempts)
  {
    forall i | 0 <= i < |attempts| ensures RecordedAt(first, history + more, attempts[i]) {
      assert RecordedAt(first, history, attempts[i]);
      assert (history + more)[..attempts[i].at] == history[..attempts[i].at];
      if attempts[i].applied { assert (history + more)[..attempts[i].at + 1] == history[..attempts[i].at + 1]; }
    }
  }

  lemma RecordedAfter(first: Option<Job>, history: seq<Writer>, attempts: seq<Attempt>, a: Attempt)
    requires Recorded(first, history, attempts) && a.at == |history| && a.found == CommitAll(first, history)
    requires a.applied ==> a.found.Some? && Fits(a.found.value, a.request) && a.after == Some(Effect(a.found.value, a.request))
    ensures Recorded(first, if a.applied then history + [Mutates(a.request)] else history, attempts + [a])
  {
    var later := if a.applied then history + [Mutates(a.request)] else history;
    RecordedGrows(first, history, attempts, if a.applied then [Mutates(a.request)] else []);
    assert history + [] == history;
    assert later[..a.at] == history;
    if a.applied { assert later[..a.at + 1] == later && later[..|later| - 1] == history; }
    forall i | 0 <= i < |attempts| && attempts[i].applied ensures attempts[i].at < a.at {
      assert RecordedAt(first, history, attempts[i]);
    }
  }

  /** The store as this process meets it.  `others(k)` is what other processes commit before the
      k-th call takes effect, `faults(k)` what happens to that call; `history` is everything anybody
      committed since the record was as in `first`. */
  class JobStore {
    var job: Option<Job>
    var calls: nat
    const rules: Rules
    const others: nat -> seq<Writer>
    const faults: nat -> Fault
    ghost const first: Option<Job>
    ghost var history: seq<Writer>
    ghost var attempts: seq<Attempt>
    ghost var looks: seq<Option<Job>>

    constructor (job: Option<Job>, rules: Rules, others: nat -> seq<Writer>, faults: nat -> Fault)
      requires SoundIfAny(job)
      ensures Valid() && this.job == first == job
      ensures this.rules == rules && this.others == others && this.faults == faults
      ensures calls == 0 && history == [] && attempts == [] && looks == []
    {
      this.job, this.rules, this.others, this.faults, calls := job, rules, others, faults, 0;
      first, history, attempts, looks := job, [], [], [];
    }

    ghost predicate Valid()
      reads this
    {
      && job == CommitAll(first, history) && SoundIfAny(first) && SoundIfAny(job)
      && Recorded(first, history, attempts)
    }

    /** Other processes get in before the call takes effect. */
    method Await()
      requires Valid()
      modifies this`job, this`history
      ensures Valid() && job == CommitAll(old(job), others(calls)) && history == old(history) + others(calls)
    {
      CommitFurther(first, history, others(calls));
      HistoriesAreSound(first, history + others(calls));
      RecordedGrows(first, history, attempts, others(calls));
      job := CommitAll(job, others(calls));
      history := history + others(calls);
    }

    method Mutate(r: Request) returns (reply: Result<Status, StoreError>, ghost attempt: Attempt)
      requires Valid()
      modifies this
      ensures Valid() && calls == old(calls) + 1 && looks == old(looks) && old(history) <= history
      ensures attempts == old(attempts) + [attempt]
      ensures attempt.request == r && attempt.reply == reply && Honest(attempt)
      ensures attempt.found == CommitAll(old(job), others(old(calls)))
      ensures job == (if attempt.applied then Some(Effect(attempt.found.value, r)) else attempt.found)
      ensures reply == (match faults(old(calls))
                        case Healthy => Answer(rules, attempt.found, r)
                        case RefusedWith(error) => Failure(error)
                        case ReplyLost => Failure(StoreFailure("mutate", true)))
    {
      Await();
      hide Recorded, Sound, Fits, Answer;
      var answer := Answer(rules, job, r);
      var applies := !faults(calls).RefusedWith? && answer == Success(Applied);
      AnswersAreTrue(rules, job, r);
      match faults(calls) {
        case Healthy => reply := answer;
        case RefusedWith(error) => reply := Failure(error);
        case ReplyLost => reply := Failure(StoreFailure("mutate", true));
      }
      attempt := Attempt(r, |history|, job, applies, reply, if applies then Some(Effect(job.value, r)) else job);
      RecordedAfter(first, history, attempts, attempt);
      if applies {
        AppliedNext(first, history, r);
        job := Some(Effect(job.value, r));
        history := history + [Mutates(r)];
      }
      attempts := attempts + [attempt];
      calls := calls + 1;
    }

    method GetJob() returns (reply: Result<Option<Job>, StoreError>)
      requires Valid()
      modifies this
      ensures Valid() && calls == old(calls) + 1 && attempts == old(attempts)
      ensures job == CommitAll(old(job), others(old(calls)))
      ensures looks == old(looks) + [job] && old(history) <= history
      ensures reply == (match faults(old(calls))
                        case Healthy => Success(job)
                        case RefusedWith(error) => Failure(error)
                        case ReplyLost => Failure(StoreFailure("getJob", true)))
    {
      Await();
      match faults(calls) {
        case Healthy => reply := Success(job);
        case RefusedWith(error) => reply := Failure(error);
        case ReplyLost => reply := Failure(StoreFailure("getJob", true));
      }
      looks := looks + [job];
      calls := calls + 1;
    }
  }

  function Max(a: int, b: int): int {
    if a < b then b else a
  }

  /** The mutation sent for time `now`: the same token, and a retry moved along with the time. */
  function At(sampled: Request, now: int): Request {
    match sampled
    case Settling(token, sampledAt, runAt) =>
      Settling(token, now, if runAt.Some? then Some(runAt.value + (now - sampledAt)) else None)
    case Releasing(token, _) => Releasing(token, now)
    case Cancelling(_) => Cancelling(now)
  }

  // ----- what one refreshed mutation amounts to, as a trace of attempts and looks

  /** Attempts at growing times for the same request, each but the last turned away for its clock. */
  ghost predicate Attempted(trace: seq<Attempt>, sampled: Request) {
    && (forall i | 0 <= i < |trace| :: trace[i].request == At(sampled, trace[i].request.now))
    && (forall i, j | 0 <= i < j < |trace| :: trace[i].request.now < trace[j].request.now)
    && (forall i | 0 <= i < |trace| - 1 :: Rejected(trace[i]))
    && (forall i | 0 <= i < |trace| :: Honest(trace[i]))
  }

  /** Between the i-th look and the next attempt somebody else dated the record again. */
  predicate Overtaken(trace: seq<Attempt>, looks: seq<Option<Job>>, i: nat)
    requires i < |looks| && i + 1 < |trace|
  {
    && looks[i].Some? && trace[i + 1].found.Some?
    && looks[i].value.updatedAt < trace[i + 1].found.value.updatedAt
  }

  lemma AtIsFixed(sampled: Request, now: int)
    ensures At(sampled, now).now == now && At(sampled, sampled.now) == sampled
    ensures At(sampled, now).Settling? == sampled.Settling? && Leased(At(sampled, now)) == Leased(sampled)
    ensures Leased(sampled) ==> At(sampled, now).token == sampled.token
  {
  }

  /** With no fault: what the last attempt met and was told, and who got in between so far. */
  ghost predicate Undisturbed(rules: Rules, trace: seq<Attempt>, looks: seq<Option<Job>>) {
    && |trace| == |looks| + 1
    && trace[|looks|].reply == Answer(rules, trace[|looks|].found, trace[|looks|].request)
    && (Rejected(trace[|looks|]) ==> forall i: nat | i < |looks| :: Overtaken(trace, looks, i))
  }

  ghost predicate Unapplied(trace: seq<Attempt>) {
    forall i | 0 <= i < |trace| :: !trace[i].applied
  }

  /** Where the loop stands: one attempt more than looks, the last of them at `now` and answered so. */
  ghost predicate Going(
    sampled: Request, trace: seq<Attempt>, looks: seq<Option<Job>>, now: int, result: Result<Status, StoreError>)
  {
    && |trace| == |looks| + 1 && trace[0].request == sampled && Attempted(trace, sampled)
    && trace[|looks|].request.now == now && trace[|looks|].reply == result
  }

  lemma GoingShows(
    sampled: Request, trace: seq<Attempt>, looks: seq<Option<Job>>, now: int, result: Result<Status, StoreError>)
    requires Going(sampled, trace, looks, now, result)
    ensures |trace| == |looks| + 1 && trace[0].request == sampled && Attempted(trace, sampled)
    ensures trace[|looks|].request.now == now && trace[|looks|].reply == result
    ensures result.Failure? && IsClockRejection(result.error) <==> Rejected(trace[|looks|])
  {
  }

  lemma OneAttempt(rules: Rules, sampled: Request, a: Attempt)
    requires Honest(a) && a.request == sampled
    ensures Going(sampled, [a], [], sampled.now, a.reply)
    ensures a.reply == Answer(rules, a.found, a.request) ==> Undisturbed(rules, [a], [])
    ensures !a.applied ==> Unapplied([a])
  {
    AtIsFixed(sampled, sampled.now);
  }

  lemma OneMoreAttempt(
    rules: Rules, sampled: Request, trace: seq<Attempt>, looks: seq<Option<Job>>, now: int,
    result: Result<Status, StoreError>, look: Option<Job>, a: Attempt)
    requires Going(sampled, trace, looks, now, result) && result.Failure? && IsClockRejection(result.error)
    requires Honest(a) && now < a.request.now && a.request == At(sampled, a.request.now)
    requires look.Some? && look.value.updatedAt <= a.request.now && NotEarlier(look, a.found)
    ensures Going(sampled, trace + [a], looks + [look], a.request.now, a.reply)
    ensures Unapplied(trace) && !a.applied ==> Unapplied(trace + [a])
    ensures Undisturbed(rules, trace, looks) && a.reply == Answer(rules, a.found, a.request) ==>
      Undisturbed(rules, trace + [a], looks + [look])
  {
    if Undisturbed(rules, trace, looks) && a.reply == Answer(rules, a.found, a.request) {
      OneMoreLook(rules, trace, looks, look, a);
    }
  }

  lemma OneMoreLook(rules: Rules, trace: seq<Attempt>, looks: seq<Option<Job>>, look: Option<Job>, a: Attempt)
    requires Undisturbed(rules, trace, looks) && Rejected(trace[|looks|])
    requires look.Some? && look.value.updatedAt <= a.request.now && NotEarlier(look, a.found)
    requires a.reply == Answer(rules, a.found, a.request)
    ensures Undisturbed(rules, trace + [a], looks + [look])
  {
    var longer, more := trace + [a], looks + [look];
    forall i: nat | Rejected(a) && i < |more| ensures Overtaken(longer, more, i) {
      if i < |looks| { assert Overtaken(trace, looks, i); }
    }
  }

  lemma RejectionExplained(rules: Rules, trace: seq<Attempt>, looks: seq<Option<Job>>)
    requires Undisturbed(rules, trace, looks) && Rejected(trace[|looks|])
    ensures trace[|looks|].found.Some? && trace[|looks|].request.now < trace[|looks|].found.value.updatedAt
    ensures forall i: nat | i < |looks| :: Overtaken(trace, looks, i)
  {
  }

  ghost predicate Answered(rules: Rules, trace: seq<Attempt>) {
    trace != [] && var last := trace[|trace| - 1]; last.reply == Answer(rules, last.found, last.request)
  }

  lemma UndisturbedIsAnswered(rules: Rules, trace: seq<Attempt>, looks: seq<Option<Job>>)
    requires Undisturbed(rules, trace, looks)
    ensures Answered(rules, trace)
  {
  }

  ghost predicate AllHealthy(faults: nat -> Fault, from: nat, end: nat) {
    forall k: nat | from <= k < end :: faults(k).Healthy?
  }

  lemma OneIsHealthy(faults: nat -> Fault, k: nat)
    ensures AllHealthy(faults, k, k + 1) ==> faults(k).Healthy?
  {
  }

  lemma HealthyParts(faults: nat -> Fault, from: nat, mid: nat, end: nat)
    requires from <= mid <= end && AllHealthy(faults, from, end)
    ensures AllHealthy(faults, from, mid) && AllHealthy(faults, mid, end)
  {
  }

  /** The mutation is lost: its token was issued, and no longer holds the lease. */
  predicate LostFor(found: Option<Job>, r: Request) {
    Leased(r) && Lost(found, r.token)
  }

  /** One turn of the loop: it ends with an answer, or the mutation was sent again at a later time. */
  datatype Turn = Ends(result: Result<Status, StoreError>) | Again(now: int, result: Result<Status, StoreError>)

  /** One call on the store, for the loop: the attempt, and what a lost token means for it. */
  method Send(store: JobStore, r: Request) returns (reply: Result<Status, StoreError>, ghost attempt: Attempt)
    requires store.Valid()
    modifies store
    ensures store.Valid() && store.calls == old(store.calls) + 1 && old(store.history) <= store.history
    ensures store.looks == old(store.looks) && store.attempts == old(store.attempts) + [attempt]
    ensures attempt.request == r && attempt.reply == reply && Honest(attempt)
    ensures NotEarlier(old(store.job), attempt.found) && (!attempt.applied ==> store.job == attempt.found)
    ensures store.faults(old(store.calls)).Healthy? ==> reply == Answer(store.rules, attempt.found, r)
    ensures LostFor(old(store.job), r) ==> !attempt.applied && LostFor(store.job, r)
    ensures reply.Success? && r.Settling? ==> HasSettled(store.job, r.token)
  {
    hide Commit, CommitAll, Recorded, Sound;
    ghost var before, calls := store.job, store.calls;
    OthersNeverBackdate(before, store.others(calls));
    if LostFor(before, r) { LostStays(before, store.others(calls), r.token); }
    reply, attempt := store.Mutate(r);
  }

  /** `now` is the later of two times. */
  predicate IsLater(now: int, a: int, b: int) {
    a <= now && b <= now && (now == a || now == b)
  }

  /** Each further attempt is dated by the record just looked at or by the wall clock, whichever is
      later, and that is later than the attempt before. */
  ghost predicate Refreshed(trace: seq<Attempt>, looks: seq<Option<Job>>, wall: nat -> int) {
    |trace| <= |looks| + 1 && forall i: nat | i < |trace| - 1 :: RefreshedAt(trace, looks, wall, i)
  }

  predicate RefreshedAt(trace: seq<Attempt>, looks: seq<Option<Job>>, wall: nat -> int, i: nat)
    requires i < |looks| && i + 1 < |trace|
  {
    && looks[i].Some? && IsLater(trace[i + 1].request.now, looks[i].value.updatedAt, wall(i))
    && trace[i].request.now < trace[i + 1].request.now
  }

  lemma FirstIsRefreshed(a: Attempt, wall: nat -> int)
    ensures Refreshed([a], [], wall)
  {
  }

  lemma OneMoreRefresh(trace: seq<Attempt>, looks: seq<Option<Job>>, wall: nat -> int, look: Option<Job>, a: Attempt)
    requires Refreshed(trace, looks, wall) && |trace| == |looks| + 1 && look.Some?
    requires IsLater(a.request.now, look.value.updatedAt, wall(|looks|)) && trace[|looks|].request.now < a.request.now
    ensures Refreshed(trace + [a], looks + [look], wall)
  {
    var longer, more := trace + [a], looks + [look];
    forall i: nat | i < |longer| - 1 ensures RefreshedAt(longer, more, wall, i) {
      if i < |looks| { assert RefreshedAt(trace, looks, wall, i); }
    }
  }

  lemma OneMoreLookRefreshes(trace: seq<Attempt>, looks: seq<Option<Job>>, wall: nat -> int, look: Option<Job>)
    requires Refreshed(trace, looks, wall)
    ensures Refreshed(trace, looks + [look], wall)
  {
    forall i: nat | i < |trace| - 1 ensures RefreshedAt(trace, looks + [look], wall, i) {
      assert RefreshedAt(trace, looks, wall, i);
    }
  }

  /** What a refresh that sends nothing answers: the failure of its look, else the rejection. */
  function LookFails(fault: Fault, rejected: StoreError): Result<Status, StoreError> {
    match fault
    case Healthy => Failure(rejected)
    case RefusedWith(error) => Failure(error)
    case ReplyLost => Failure(StoreFailure("getJob", true))
  }

  method Refresh(store: JobStore, sampled: Request, now: int, wall: int, rejected: StoreError)
    returns (turn: Turn, ghost look: Option<Job>, ghost attempt: Attempt)
    requires store.Valid()
    modifies store
    ensures store.Valid() && old(store.calls) < store.calls && old(store.history) <= store.history
    ensures store.looks == old(store.looks) + [look] && NotEarlier(old(store.job), look)
    ensures turn.Ends? ==> store.attempts == old(store.attempts) && turn.result.Failure?
    ensures turn.Ends? ==> store.calls == old(store.calls) + 1
    ensures turn.Ends? ==> turn.result == LookFails(store.faults(old(store.calls)), rejected)
    ensures turn.Ends? && AllHealthy(store.faults, old(store.calls), store.calls) ==>
      turn.result == Failure(rejected) && (look.Some? ==> look.value.updatedAt <= now)
    ensures turn.Again? ==>
      && store.attempts == old(store.attempts) + [attempt] && attempt.reply == turn.result && Honest(attempt)
      && now < turn.now && attempt.request == At(sampled, turn.now)
      && look.Some? && IsLater(turn.now, look.value.updatedAt, wall) && NotEarlier(look, attempt.found)
      && (!attempt.applied ==> store.job == attempt.found)
      && (AllHealthy(store.faults, old(store.calls), store.calls) ==>
            turn.result == Answer(store.rules, attempt.found, attempt.request))
      && (LostFor(old(store.job), sampled) ==> !attempt.applied && LostFor(store.job, sampled))
      && (turn.result.Success? && sampled.Settling? ==> HasSettled(store.job, sampled.token))
  {
    hide Commit, CommitAll, Recorded, Sound, Answer, Honest, NotEarlier, At, Lost;
    attempt := Attempt(sampled, 0, None, false, Failure(rejected), None);
    ghost var before, calls := store.job, store.calls;
    OthersNeverBackdate(before, store.others(calls));
    if LostFor(before, sampled) { LostStays(before, store.others(calls), sampled.token); }
    var current := store.GetJob();
    look := store.job;
    if current.Failure? { return Ends(Failure(current.error)), look, attempt; }
    if current.value.None? { return Ends(Failure(rejected)), look, attempt; }
    var refreshedNow := Max(Max(now, current.value.value.updatedAt), wall);
    if refreshedNow <= now { return Ends(Failure(rejected)), look, attempt; }
    AtIsFixed(sampled, refreshedNow);
    var result;
    result, attempt := Send(store, At(sampled, refreshedNow));
    turn := Again(refreshedNow, result);
  }

  /** The loop gave up after a look that found nothing newer than the rejected time: with no fault
      the job is gone. */
  lemma NothingNewer(
    rules: Rules, sampled: Request, trace: seq<Attempt>, looks: seq<Option<Job>>, now: int,
    result: Result<Status, StoreError>, before: Option<Job>, look: Option<Job>)
    requires Going(sampled, trace, looks, now, result) && Undisturbed(rules, trace, looks)
    requires result.Failure? && IsClockRejection(result.error)
    requires !trace[|looks|].applied ==> before == trace[|looks|].found
    requires NotEarlier(before, look) && (look.Some? ==> look.value.updatedAt <= now)
    ensures look.None?
  {
    assert Honest(trace[|looks|]);
    RejectionExplained(rules, trace, looks);
    LookIsLater(before, look, now);
  }

  method WithFreshControlledClock(store: JobStore, sampled: Request, wall: nat -> int)
    returns (result: Result<Status, StoreError>, ghost trace: seq<Attempt>, ghost looks: seq<Option<Job>>)
    requires store.Valid()
    modifies store
    // What the store saw: between one and four attempts, the first at the sampled time.
    ensures store.Valid() && old(store.history) <= store.history
    ensures store.attempts == old(store.attempts) + trace && store.looks == old(store.looks) + looks
    ensures 1 <= |trace| <= 4 && trace[0].request == sampled
    ensures Attempted(trace, sampled) && Refreshed(trace, looks, wall)
    // The caller hears about the last attempt, or about a failed look.
    ensures |looks| + 1 == |trace| || (|looks| == |trace| && Rejected(trace[|trace| - 1]))
    ensures old(store.calls) < store.calls
    ensures result == if |looks| < |trace| then trace[|trace| - 1].reply
                      else LookFails(store.faults(store.calls - 1), trace[|trace| - 1].reply.error)
    // A settlement that is reported, now or again, is on record.
    ensures result.Success? && sampled.Settling? ==> HasSettled(store.job, sampled.token)
    // A token that lost its lease before the call never applies, however often the clock is refreshed.
    ensures LostFor(old(store.job), sampled) ==> Unapplied(trace)
    // If every call went through, the last attempt was answered by the store's rules, and a clock
    // rejection means the job is gone, or that another writer got in between look and attempt all
    // three times.
    ensures AllHealthy(store.faults, old(store.calls), store.calls) ==> Answered(store.rules, trace)
    ensures AllHealthy(store.faults, old(store.calls), store.calls)
            && result.Failure? && IsClockRejection(result.error) ==>
              || (|looks| == |trace| && looks[|looks| - 1].None?)
              || (|trace| == 4 && |looks| == 3 && forall i: nat | i < 3 :: Overtaken(trace, looks, i))
  {
    hide At, Commit, CommitAll, Attempted, Refreshed, Undisturbed, Unapplied, Honest, Recorded, Sound, Answer, LostFor, Overtaken,
         NotEarlier, HasSettled, Answered, LookFails, AllHealthy, Rejected, IsClockRejection, Going;
    var now := sampled.now;
    ghost var last;
    result, last := Send(store, sampled);
    assert AllHealthy(store.faults, old(store.calls), store.calls) ==> store.faults(old(store.calls)).Healthy? by {
      OneIsHealthy(store.faults, old(store.calls));
    }
    trace, looks := [last], [];
    OneAttempt(store.rules, sampled, last);
    GoingShows(sampled, trace, looks, now, result);
    FirstIsRefreshed(last, wall);
    var refresh := 0;
    while refresh < 3 && result.Failure?
      invariant 0 <= refresh <= 3 && old(store.calls) < store.calls && store.Valid() && old(store.history) <= store.history
      invariant store.attempts == old(store.attempts) + trace && store.looks == old(store.looks) + looks
      invariant |looks| == refresh && |trace| == refresh + 1 && Going(sampled, trace, looks, now, result) && Refreshed(trace, looks, wall)
      invariant !trace[refresh].applied ==> store.job == trace[refresh].found
      invariant result.Success? && sampled.Settling? ==> HasSettled(store.job, sampled.token)
      invariant LostFor(old(store.job), sampled) ==> LostFor(store.job, sampled) && Unapplied(trace)
      invariant AllHealthy(store.faults, old(store.calls), store.calls) ==> Undisturbed(store.rules, trace, looks)
    {
      if !IsClockRejection(result.error) { break; }
      GoingShows(sampled, trace, looks, now, result);
      ghost var before, sent := store.job, store.calls;
      var turn; ghost var look, attempt;
      turn, look, attempt := Refresh(store, sampled, now, wall(refresh), result.error);
      if AllHealthy(store.faults, old(store.calls), store.calls) {
        HealthyParts(store.faults, old(store.calls), sent, store.calls);
      }
      if turn.Ends? {
        if AllHealthy(store.faults, old(store.calls), store.calls) {
          NothingNewer(store.rules, sampled, trace, looks, now, result, before, look);
          UndisturbedIsAnswered(store.rules, trace, looks);
        }
        OneMoreLookRefreshes(trace, looks, wall, look);
        looks, result := looks + [look], turn.result;
        return;
      }
      AtIsFixed(sampled, turn.now);
      OneMoreAttempt(store.rules, sampled, trace, looks, now, result, look, attempt);
      OneMoreRefresh(trace, looks, wall, look, attempt);
      now, result := turn.now, turn.result;
      trace, looks := trace + [attempt], looks + [look];
      GoingShows(sampled, trace, looks, now, result);
      refresh := refresh + 1;
    }
    GoingShows(sampled, trace, looks, now, result);
    if AllHealthy(store.faults, old(store.calls), store.calls) {
      UndisturbedIsAnswered(store.rules, trace, looks);
      if result.Failure? && IsClockRejection(result.error) { RejectionExplained(store.rules, trace, looks); }
    }
  }

  /** A look at a record that rejected a time for its date can only show that date or a later one. */
  lemma LookIsLater(found: Option<Job>, look: Option<Job>, now: int)
    requires NotEarlier(found, look)
    requires found.Some? && now < found.value.updatedAt
    ensures look.Some? ==> now < look.value.updatedAt
  {
  }

  // ----- what such a trace guarantees

  /** At most one attempt changed the record and only the last one can have; if the mutation speaks
      for a lease it held it then, unexpired, with the token it was sampled with.  Even a reply that
      was lost is never followed by a second application. */
  lemma AppliedAtMostOnce(trace: seq<Attempt>, sampled: Request, i: nat, j: nat)
    requires Attempted(trace, sampled) && i < |trace| && j < |trace|
    ensures trace[i].applied ==> i == |trace| - 1 && trace[i].found.Some? && Fits(trace[i].found.value, trace[i].request)
    ensures trace[i].applied && Leased(sampled) ==> Fenced(trace[i]) && trace[i].request.token == sampled.token
    ensures trace[i].applied && trace[j].applied ==> i == j
  {
    assert Honest(trace[i]) && Honest(trace[j]);
    assert trace[i].request == At(sampled, trace[i].request.now);
  }

  /** Over any number of calls of any operations by anybody, lost replies included: of all the
      commits that settle with one token, ours or another's, only one took effect. */
  lemma TokenSettlesOnce(store: JobStore, i: nat, j: nat)
    requires store.Valid() && i < |store.attempts| && j < |store.attempts|
    requires store.attempts[i].applied && store.attempts[i].request.Settling?
    ensures
      var a, b := store.attempts[i], store.attempts[j];
      && (b.applied && b.request.Settling? && b.request.token == a.request.token ==> i == j)
      && (forall k | SettledAt(store.first, store.history, k, a.request.token) :: k == a.at)
  {
    var a, b := store.attempts[i], store.attempts[j];
    assert RecordedAt(store.first, store.history, a) && RecordedAt(store.first, store.history, b);
    assert SettledAt(store.first, store.history, a.at, a.request.token);
    forall k | SettledAt(store.first, store.history, k, a.request.token) ensures k == a.at {
      SettledAtMostOnce(store.first, store.history, k, a.at, a.request.token);
    }
    if b.applied && b.request.Settling? && b.request.token == a.request.token {
      assert SettledAt(store.first, store.history, b.at, a.request.token);
    }
  }

  /** What is on record was settled by exactly one commit of the history. */
  lemma SettledByOne(store: JobStore, token: nat)
    requires store.Valid() && HasSettled(store.job, token) && !HasSettled(store.first, token)
    ensures exists k: nat ::
      && SettledAt(store.first, store.history, k, token)
      && forall n: nat :: SettledAt(store.first, store.history, n, token) ==> n == k
  {
    OnRecordMeansSettled(store.first, store.history, token);
    var k: nat :| SettledAt(store.first, store.history, k, token);
    forall n: nat | SettledAt(store.first, store.history, n, token) ensures n == k {
      SettledAtMostOnce(store.first, store.history, n, k, token);
    }
  }

  /** A cancellation takes no lease away and settles nothing: it asks an active job to end, and ends
      one that nobody holds. */
  lemma CancellationIsCooperative(job: Job, now: int)
    requires Fits(job, Cancelling(now))
    ensures
      var after := Effect(job, Cancelling(now));
      && after.lease == job.lease && after.settled == job.settled && after.updatedAt == now
      && (job.lease.Some? ==> after.cancelRequestedAt == Some(now) && after.finished == job.finished)
      && (job.lease.None? ==> after.finished)
      && forall token :: Holds(job, token, now) ==> Holds(after, token, now)
  {
  }

  /** Whichever attempt is applied, it does to the record what the caller asked for when it sampled
      the time.  A settlement ends the lease and finishes the job exactly if it asked for no retry; a
      retry runs as long after the new date as it was to run after the sample, and without one the
      job's own time stays.  A release only gives the lease up.  A cancellation keeps the lease, asks
      for the end of a job that is held and ends one that is not.  No attempt is dated before the
      sample, and one that is not applied leaves the record as it was. */
  lemma OutcomeIsKept(trace: seq<Attempt>, sampled: Request, i: nat)
    requires Attempted(trace, sampled) && i < |trace| && trace[0].request.now == sampled.now
    ensures sampled.now <= trace[i].request.now
    ensures !trace[i].applied ==> trace[i].after == trace[i].found
    ensures trace[i].applied ==> trace[i].found.Some? && trace[i].after.Some?
    ensures trace[i].applied ==> IsOutcome(sampled, trace[i].request.now, trace[i].found.value, trace[i].after.value)
  {
    assert Honest(trace[i]);
    assert trace[i].request == At(sampled, trace[i].request.now);
  }

  /** What the caller asked for, done at `now`. */
  predicate IsOutcome(sampled: Request, now: int, before: Job, after: Job) {
    && before.updatedAt <= after.updatedAt == now && after.issued == before.issued
    && match sampled
       case Settling(token, sampledAt, runAt) =>
         && after.settled == before.settled + [token] && after.lease.None?
         && (after.finished <==> runAt.None?)
         && (runAt.None? ==> after.runAt == before.runAt)
         && (runAt.Some? ==> after.runAt - now == runAt.value - sampledAt)
         && after.cancelRequestedAt == before.cancelRequestedAt
       case Releasing(_, _) =>
         && after.lease.None? && after.settled == before.settled && after.finished == before.finished
         && after.runAt == before.runAt && after.cancelRequestedAt == before.cancelRequestedAt
       case Cancelling(_) =>
         && after.lease == before.lease && after.settled == before.settled && after.runAt == before.runAt
         && (before.lease.Some? ==> after.cancelRequestedAt == Some(now) && after.finished == before.finished)
         && (before.lease.None? ==> after.finished && after.cancelRequestedAt == before.cancelRequestedAt)
  }
}
