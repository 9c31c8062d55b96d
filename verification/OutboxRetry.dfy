/** Administrative retry of failed publications (outbox-retry.ts, postgres-outbox-retry.ts,
    outbox-coordinator.ts, retry-options.ts): the guarded arithmetic, the conditional UPDATE of
    one row, and the protocol between any number of administrators and the publisher. */
module OutboxRetry {
  import opened Outcomes
  import opened SafeIntegers
  import opened Gates

  datatype State = Pending | Active | Published | Failed
  datatype Lease = Lease(owner: nat, token: nat, expiresAt: int)
  datatype JobRequest = JobRequest(id: Option<nat>, body: nat)

  datatype Record = Record(
    id: nat,
    state: State,
    target: nat,
    request: JobRequest,
    digest: nat,
    attemptsMade: int,
    attemptsMax: int,
    createdAt: int,
    updatedAt: int,
    runAt: int,
    publishedAt: Option<int>,
    failure: Option<nat>,
    lease: Option<Lease>
  )

  /** The version an administrator inspected, and what is asked for. */
  datatype Expected = Expected(updatedAt: int, attemptsMade: int, attemptsMax: int)
  datatype Options = Options(expected: Expected, attempts: int, runAt: Option<int>)

  datatype RetryError = NotFailed | Conflict | NoStableJobId | BadTimestamp | Overflow | Invalid | BadOptions
                      | Unconfirmed | Unprepared

  function Version(r: Record): Expected {
    Expected(r.updatedAt, r.attemptsMade, r.attemptsMax)
  }

  /** `copyOutboxRetryOptions`. */
  predicate Acceptable(o: Options) {
    && IsSafe(o.attempts) && o.attempts >= 1
    && IsSafe(o.expected.updatedAt) && o.expected.updatedAt >= 0
    && IsSafe(o.expected.attemptsMade) && o.expected.attemptsMade >= 0
    && IsSafe(o.expected.attemptsMax) && o.expected.attemptsMax >= 1
    && o.expected.attemptsMade <= o.expected.attemptsMax
    && (o.runAt.Some? ==> IsSafe(o.runAt.value) && o.runAt.value >= 0)
  }

  function Max(a: int, b: int): int {
    if a < b then b else a
  }

  /** `retryOutboxRecord`.  `valid` is the record validator of the storage library. */
  function Retried(record: Record, options: Options, now: int, valid: Record -> bool): Result<Record, RetryError> {
    if record.state != Failed then Failure(NotFailed)
    else if Version(record) != options.expected then Failure(Conflict)
    else if record.request.id.None? then Failure(NoStableJobId)
    else if !IsSafe(now) || now < 0 then Failure(BadTimestamp)
    else
      var updatedAt := Max(now, Plus(record.updatedAt, 1));
      var attemptsMax := Plus(record.attemptsMade, options.attempts);
      if !IsSafe(updatedAt) || !IsSafe(attemptsMax) then Failure(Overflow)
      else
        var runAt := Max(if options.runAt.Some? then options.runAt.value else updatedAt, updatedAt);
        var next := record.(state := Pending, attemptsMax := attemptsMax, updatedAt := updatedAt, runAt := runAt);
        if valid(next) then Success(next) else Failure(Invalid)
  }

  /** What a retry may change, in exact arithmetic. */
  predicate IsRetryOf(next: Record, record: Record, options: Options, now: int) {
    && next.state == Pending
    && next.updatedAt == Max(now, record.updatedAt + 1)
    && next.attemptsMax == record.attemptsMade + options.attempts
    && next.runAt == Max(if options.runAt.Some? then options.runAt.value else next.updatedAt, next.updatedAt)
    && next == record.(state := next.state, updatedAt := next.updatedAt, attemptsMax := next.attemptsMax, runAt := next.runAt)
  }

  /** What is asked of a record before a retry of it is built: it is the failed version that was
      inspected, keeps its job id, and the exact new date and budget are safe integers. */
  predicate Guarded(record: Record, options: Options, now: int) {
    && record.state == Failed && Version(record) == options.expected && record.request.id.Some?
    && 0 <= now && IsSafe(now) && IsSafe(record.updatedAt + 1) && IsSafe(record.attemptsMade + options.attempts)
  }

  lemma OneRetry(next: Record, other: Record, record: Record, options: Options, now: int)
    requires IsRetryOf(next, record, options, now) && IsRetryOf(other, record, options, now)
    ensures next == other
  {
  }

  /** A valid retry of the record can be built now. */
  ghost predicate Grantable(record: Record, options: Options, now: int, valid: Record -> bool) {
    Guarded(record, options, now) && exists next :: IsRetryOf(next, record, options, now) && valid(next)
  }

  /** A retry is granted exactly when the guards hold and the one retry of the record is valid, and
      refused as invalid exactly when they hold and it is not.  A granted retry moves time strictly
      forward, is not due before that, and leaves exactly the requested attempts. */
  lemma RetryIsExact(record: Record, options: Options, now: int, valid: Record -> bool)
    requires Acceptable(options)
    ensures var r := Retried(record, options, now, valid);
            && (r.Success? <==> Grantable(record, options, now, valid))
            && (r == Failure(Invalid) <==>
                  Guarded(record, options, now) && exists next :: IsRetryOf(next, record, options, now) && !valid(next))
            && (r.Success? ==>
                  && IsRetryOf(r.value, record, options, now) && valid(r.value)
                  && record.updatedAt < r.value.updatedAt && now <= r.value.updatedAt <= r.value.runAt
                  && (now < r.value.updatedAt ==> r.value.updatedAt == record.updatedAt + 1)
                  && r.value.attemptsMax - r.value.attemptsMade == options.attempts
                  && IsSafe(r.value.updatedAt) && IsSafe(r.value.runAt) && IsSafe(r.value.attemptsMax))
  {
    if Version(record) == options.expected {
      SafeSumIsExact(record.updatedAt, 1);
      SafeSumIsExact(record.attemptsMade, options.attempts);
    }
    if Guarded(record, options, now) {
      var updatedAt := Max(now, record.updatedAt + 1);
      var runAt := Max(if options.runAt.Some? then options.runAt.value else updatedAt, updatedAt);
      var next := record.(state := Pending, attemptsMax := record.attemptsMade + options.attempts,
                          updatedAt := updatedAt, runAt := runAt);
      assert IsRetryOf(next, record, options, now);
      forall other | IsRetryOf(other, record, options, now) ensures other == next {
        OneRetry(other, next, record, options, now);
      }
    }
  }

  /** The other refusals, each with its reason: the first guard that fails, in this order. */
  lemma RefusalIsExact(record: Record, options: Options, now: int, valid: Record -> bool)
    requires Acceptable(options)
    ensures var r := Retried(record, options, now, valid);
            && (record.state != Failed <==> r == Failure(NotFailed))
            && (record.state == Failed ==>
                  && (Version(record) != options.expected <==> r == Failure(Conflict))
                  && (Version(record) == options.expected ==>
                        && (record.request.id.None? <==> r == Failure(NoStableJobId))
                        && (record.request.id.Some? ==>
                              && (!IsSafe(now) || now < 0 <==> r == Failure(BadTimestamp))
                              && (IsSafe(now) && 0 <= now && !Guarded(record, options, now) <==> r == Failure(Overflow)))))
  {
    if Version(record) == options.expected {
      SafeSumIsExact(record.updatedAt, 1);
      SafeSumIsExact(record.attemptsMade, options.attempts);
    }
  }

  // ----- the conditional UPDATE

  /** The WHERE clause. */
  predicate Unchanged(row: Record, previous: Record) {
    && row.id == previous.id && row.state == Failed
    && row.attemptsMade == previous.attemptsMade && row.attemptsMax == previous.attemptsMax
    && row.updatedAt == previous.updatedAt
    && row.target == previous.target && row.digest == previous.digest && row.request == previous.request
    && row.createdAt == previous.createdAt && row.runAt == previous.runAt && row.failure == previous.failure
    && row.publishedAt.None? && row.lease.None?
  }

  /** The SET clause. */
  function Updated(row: Record, next: Record): Record {
    row.(state := Pending, attemptsMax := next.attemptsMax, runAt := next.runAt, updatedAt := next.updatedAt)
  }

  /** The statement may fail before it runs, or run and lose its reply. */
  datatype Fault = Healthy | NotRun | ReplyLost

  class OutboxRow {
    var row: Record

    constructor (row: Record)
      ensures this.row == row
    {
      this.row := row;
    }

    /** `postgresOutboxRetry`: compare and swap on the whole inspected content. */
    method ConditionalRetry(previous: Record, next: Record, fault: Fault) returns (result: Result<(), RetryError>)
      modifies this
      ensures row == if !fault.NotRun? && Unchanged(old(row), previous) then Updated(old(row), next) else old(row)
      ensures result == (if !fault.Healthy? then Failure(Unconfirmed)
                         else if Unchanged(old(row), previous) then Success(()) else Failure(Conflict))
    {
      if fault.NotRun? { return Failure(Unconfirmed); }
      var rows := 0;
      if Unchanged(row, previous) {
        row := Updated(row, next);
        rows := 1;
      }
      if fault.ReplyLost? { return Failure(Unconfirmed); }
      if rows != 1 { return Failure(Conflict); }
      return Success(());
    }
  }

  /** The adapter bound to an acquired store: a gate that remembers no failure. */
  class OutboxRetryAdapter {
    var closed: bool
    var pending: set<nat>

    constructor ()
      ensures View() == Open()
    {
      closed, pending := false, {};
    }

    ghost function View(): Gate<RetryError>
      reads this
    {
      Gate(!closed, pending, None)
    }

    method Retry(id: nat) returns (admitted: bool)
      modifies this
      ensures admitted == !old(closed) && View() == old(View()).Admit(id)
    {
      if closed { return false; }
      pending := pending + {id};
      return true;
    }

    method Drained(id: nat)
      modifies this
      ensures View() == old(View()).Settle(id, None)
    {
      pending := pending - {id};
    }

    /** `close` up to its await: what it waits for is what is pending now, which by
        Gates.ClosingWaitsForEverything is everything there will ever be. */
    method Close() returns (waiting: set<nat>)
      modifies this
      ensures View() == old(View()).Close() && waiting == old(pending)
    {
      closed := true;
      return pending;
    }
  }
}
