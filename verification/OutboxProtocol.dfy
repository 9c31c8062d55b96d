/** Any number of administrators retrying one outbox record while publishers work on it.

    Stated assumptions about the storage library's publisher: every publisher write needs the
    current lease or takes a free or expired one, is dated at or after `updatedAt`, a claim counts
    one attempt and needs budget left, an expired lease without budget ends in a failure, and only a settled record is
    failed or published, with its lease gone. */
module OutboxProtocol {
  import opened Outcomes
  import opened OutboxRetry

  /** One `retryFailed` call: the record it read, the record it wants to write, its end. */
  datatype Call =
    | Reading(options: Options)
    | Preparing(options: Options, record: Record)
    | Writing(options: Options, record: Record, next: Record)
    | Done(options: Options, result: Result<Record, RetryError>)

  /** A retry that took effect: whose, from which row to which. */
  datatype Grant = Grant(call: nat, attempts: int, before: Record, after: Record)

  datatype World = World(row: Record, calls: seq<Call>, grants: seq<Grant>)

  datatype Event =
    | NewCall(options: Options)
    | Read(a: nat, now: int, readable: bool)
    | Prepared(a: nat, now: int, same: bool)
    | Write(a: nat, fault: Fault)
    | Claim(owner: nat, token: nat, now: int, duration: nat)
    | Heartbeat(token: nat, now: int, duration: nat)
    | Publish(token: nat, now: int)
    | Fail(token: nat, now: int, failure: nat)
    | Reschedule(token: nat, now: int, runAt: int)
    | Exhaust(now: int, failure: nat)
    | Reroute(target: nat)

  predicate Owns(row: Record, token: nat, now: int) {
    row.state.Active? && row.lease.Some? && row.lease.value.token == token
    && now < row.lease.value.expiresAt && row.updatedAt <= now
  }

  function OnRead(w: World, a: nat, now: int, readable: bool, valid: Record -> bool): Call
    requires a < |w.calls|
  {
    var options := w.calls[a].options;
    if !Acceptable(options) then Done(options, Failure(BadOptions))
    else if !readable then Done(options, Failure(Unprepared))
    else
      match Retried(w.row, options, now, valid)
      case Success(_) => Preparing(options, w.row)
      case Failure(error) => Done(options, Failure(error))
  }

  /** After the asynchronous re-preparation: compare the request, and build the record again from
      what was read before, at the new time. */
  function OnPrepared(w: World, a: nat, now: int, same: bool, valid: Record -> bool): Call
    requires a < |w.calls| && w.calls[a].Preparing?
  {
    var options, record := w.calls[a].options, w.calls[a].record;
    if !same then Done(options, Failure(Unprepared))
    else
      match Retried(record, options, now, valid)
      case Success(next) => Writing(options, record, next)
      case Failure(error) => Done(options, Failure(error))
  }

  function OnWrite(w: World, a: nat, fault: Fault): World
    requires a < |w.calls| && w.calls[a].Writing?
  {
    var Writing(options, record, next) := w.calls[a];
    var applied := !fault.NotRun? && Unchanged(w.row, record);
    var row := if applied then Updated(w.row, next) else w.row;
    var result :=
      if !fault.Healthy? then Failure(Unconfirmed)
      else if Unchanged(w.row, record) then Success(next)
      else Failure(Conflict);
    World(row, w.calls[a := Done(options, result)],
          if applied then w.grants + [Grant(a, options.attempts, w.row, row)] else w.grants)
  }

  function Publisher(row: Record, e: Event): Record {
    match e
    case Claim(owner, token, now, duration) =>
      if (row.state.Pending? || (row.state.Active? && row.lease.Some? && row.lease.value.expiresAt <= now))
         && row.updatedAt <= now && row.runAt <= now && row.attemptsMade < row.attemptsMax
      then row.(state := Active, attemptsMade := row.attemptsMade + 1, updatedAt := now,
                lease := Some(Lease(owner, token, now + duration)))
      else row
    case Heartbeat(token, now, duration) =>
      if Owns(row, token, now)
      then row.(updatedAt := now, lease := Some(row.lease.value.(expiresAt := now + duration)))
      else row
    case Publish(token, now) =>
      if Owns(row, token, now) then row.(state := Published, updatedAt := now, publishedAt := Some(now), lease := None)
      else row
    case Fail(token, now, failure) =>
      if Owns(row, token, now) then row.(state := Failed, updatedAt := now, failure := Some(failure), lease := None)
      else row
    case Reschedule(token, now, runAt) =>
      if Owns(row, token, now) then row.(state := Pending, updatedAt := now, runAt := runAt, lease := None)
      else row
    case Exhaust(now, failure) =>
      if row.state.Active? && row.lease.Some? && row.lease.value.expiresAt <= now && row.updatedAt <= now
         && row.attemptsMade >= row.attemptsMax
      then row.(state := Failed, updatedAt := now, failure := Some(failure), lease := None)
      else row
    case Reroute(target) => row.(target := target)
    case _ => row
  }

  function Step(w: World, e: Event, valid: Record -> bool): World {
    match e
    case NewCall(options) => w.(calls := w.calls + [Reading(options)])
    case Read(a, now, readable) =>
      if a < |w.calls| && w.calls[a].Reading? then w.(calls := w.calls[a := OnRead(w, a, now, readable, valid)]) else w
    case Prepared(a, now, same) =>
      if a < |w.calls| && w.calls[a].Preparing? then w.(calls := w.calls[a := OnPrepared(w, a, now, same, valid)]) else w
    case Write(a, fault) => if a < |w.calls| && w.calls[a].Writing? then OnWrite(w, a, fault) else w
    case _ => w.(row := Publisher(w.row, e))
  }

  function Steps(w: World, events: seq<Event>, valid: Record -> bool): World {
    if events == [] then w else Step(Steps(w, events[..|events| - 1], valid), events[|events| - 1], valid)
  }

  /** A record as the outbox first holds it. */
  predicate Fresh(row: Record) {
    && 0 <= row.attemptsMade <= row.attemptsMax
    && (row.lease.Some? <==> row.state.Active?)
    && (row.publishedAt.Some? <==> row.state.Published?)
  }

  function Initial(row: Record): World {
    World(row, [], [])
  }

  // ----- what every step keeps

  /** The attempts all grants together handed out. */
  function Granted(grants: seq<Grant>): int {
    if grants == [] then 0 else Granted(grants[..|grants| - 1]) + grants[|grants| - 1].attempts
  }

  predicate IsFailedVersion(record: Record, options: Options) {
    record.state.Failed? && Version(record) == options.expected
  }

  /** What a call holds on to while it waits: the inspected failed version, and a retry of it. */
  ghost predicate CallOk(call: Call, row: Record, valid: Record -> bool) {
    && (call.Preparing? || call.Writing? ==>
          && Acceptable(call.options) && IsFailedVersion(call.record, call.options) && Fresh(call.record)
          && call.record.updatedAt <= row.updatedAt)
    && (call.Writing? ==> valid(call.next) && exists now :: IsRetryOf(call.next, call.record, call.options, now))
  }

  /** A grant consumes a failed version its caller named, moves the record's date on and leaves a row
      that the validator accepted. */
  ghost predicate GrantOk(g: Grant, calls: seq<Call>, row: Record, valid: Record -> bool) {
    && g.call < |calls| && calls[g.call].Done?
    && IsFailedVersion(g.before, calls[g.call].options) && g.attempts == calls[g.call].options.attempts >= 1
    && g.after == Updated(g.before, g.after) && g.after.state.Pending? && valid(g.after)
    && g.before.updatedAt < g.after.updatedAt <= row.updatedAt
    && g.after.updatedAt <= g.after.runAt
    && g.after.attemptsMax - g.after.attemptsMade == g.attempts
  }

  ghost predicate GrantsOrdered(grants: seq<Grant>) {
    && (forall i, j | 0 <= i < j < |grants| :: grants[i].after.updatedAt <= grants[j].before.updatedAt)
    && (forall i, j | 0 <= i < j < |grants| :: grants[i].call != grants[j].call)
  }

  ghost predicate Inv(w: World, first: Record, valid: Record -> bool) {
    && Fresh(w.row)
    && (forall a | 0 <= a < |w.calls| :: CallOk(w.calls[a], w.row, valid))
    && (forall i | 0 <= i < |w.grants| :: GrantOk(w.grants[i], w.calls, w.row, valid))
    && GrantsOrdered(w.grants)
    && w.row.attemptsMax <= first.attemptsMax + Granted(w.grants)
    && first.updatedAt <= w.row.updatedAt
  }

  lemma PublisherKeeps(row: Record, e: Event)
    requires Fresh(row)
    ensures var next := Publisher(row, e);
            Fresh(next) && row.updatedAt <= next.updatedAt && next.attemptsMax == row.attemptsMax
  {
  }

  lemma CallsAfter(calls: seq<Call>, row: Record, later: Record, valid: Record -> bool)
    requires row.updatedAt <= later.updatedAt
    requires forall a | 0 <= a < |calls| :: CallOk(calls[a], row, valid)
    ensures forall a | 0 <= a < |calls| :: CallOk(calls[a], later, valid)
  {
  }

  lemma ReadKeeps(w: World, a: nat, now: int, readable: bool, valid: Record -> bool)
    requires a < |w.calls| && Fresh(w.row)
    ensures CallOk(OnRead(w, a, now, readable, valid), w.row, valid)
  {
  }

  lemma PreparedKeeps(w: World, a: nat, now: int, same: bool, valid: Record -> bool)
    requires a < |w.calls| && w.calls[a].Preparing? && CallOk(w.calls[a], w.row, valid)
    ensures CallOk(OnPrepared(w, a, now, same, valid), w.row, valid)
  {
    RetryIsExact(w.calls[a].record, w.calls[a].options, now, valid);
    var call := OnPrepared(w, a, now, same, valid);
    if call.Writing? { assert IsRetryOf(call.next, call.record, call.options, now); }
  }

  /** A retry that meets the row it inspected writes exactly the record it built. */
  lemma WriteGrants(w: World, a: nat, fault: Fault, first: Record, valid: Record -> bool)
    requires Inv(w, first, valid) && a < |w.calls| && w.calls[a].Writing?
    requires !fault.NotRun? && Unchanged(w.row, w.calls[a].record)
    ensures var t := OnWrite(w, a, fault);
            && t.row == w.calls[a].next && Fresh(t.row) && w.row.updatedAt < t.row.updatedAt
            && t.grants == w.grants + [Grant(a, w.calls[a].options.attempts, w.row, t.row)]
            && GrantOk(t.grants[|w.grants|], t.calls, t.row, valid)
            && t.row.attemptsMax <= w.row.attemptsMax + w.calls[a].options.attempts
  {
    var call := w.calls[a];
    assert CallOk(call, w.row, valid);
    var now :| IsRetryOf(call.next, call.record, call.options, now);
  }

  lemma WriteKeeps(w: World, a: nat, fault: Fault, first: Record, valid: Record -> bool)
    requires Inv(w, first, valid) && a < |w.calls| && w.calls[a].Writing?
    ensures Inv(OnWrite(w, a, fault), first, valid)
  {
    hide IsRetryOf, Version, Acceptable;
    var t := OnWrite(w, a, fault);
    assert CallOk(w.calls[a], w.row, valid);
    if !fault.NotRun? && Unchanged(w.row, w.calls[a].record) {
      WriteGrants(w, a, fault, first, valid);
      CallsAfter(w.calls, w.row, t.row, valid);
      assert t.grants[..|w.grants|] == w.grants;
      forall i | 0 <= i < |t.grants| ensures GrantOk(t.grants[i], t.calls, t.row, valid) {
        if i < |w.grants| { assert GrantOk(w.grants[i], w.calls, w.row, valid); }
      }
      forall i | 0 <= i < |w.grants| ensures w.grants[i].call != a && w.grants[i].after.updatedAt <= w.row.updatedAt {
        assert GrantOk(w.grants[i], w.calls, w.row, valid);
      }
    } else {
      forall i | 0 <= i < |t.grants| ensures GrantOk(t.grants[i], t.calls, t.row, valid) {
        assert GrantOk(w.grants[i], w.calls, w.row, valid);
      }
    }
  }

  lemma StepKeeps(w: World, e: Event, first: Record, valid: Record -> bool)
    requires Inv(w, first, valid)
    ensures Inv(Step(w, e, valid), first, valid)
  {
    hide IsRetryOf, OnWrite, OnRead, OnPrepared, Granted;
    var t := Step(w, e, valid);
    match e
    case Read(a, now, readable) => if a < |w.calls| { ReadKeeps(w, a, now, readable, valid); GrantsStay(w, t, first, valid); }
    case Prepared(a, now, same) =>
      if a < |w.calls| && w.calls[a].Preparing? { PreparedKeeps(w, a, now, same, valid); GrantsStay(w, t, first, valid); }
    case Write(a, fault) => if a < |w.calls| && w.calls[a].Writing? { WriteKeeps(w, a, fault, first, valid); }
    case _ =>
      PublisherKeeps(w.row, e);
      CallsAfter(w.calls, w.row, t.row, valid);
      GrantsStay(w, t, first, valid);
  }

  /** Steps that neither grant nor touch a finished call leave every grant as it was. */
  lemma GrantsStay(w: World, t: World, first: Record, valid: Record -> bool)
    requires Inv(w, first, valid) && t.grants == w.grants && |w.calls| <= |t.calls| && w.row.updatedAt <= t.row.updatedAt
    requires forall a | 0 <= a < |w.calls| && w.calls[a].Done? :: t.calls[a] == w.calls[a]
    ensures forall i | 0 <= i < |t.grants| :: GrantOk(t.grants[i], t.calls, t.row, valid)
  {
    forall i | 0 <= i < |t.grants| ensures GrantOk(t.grants[i], t.calls, t.row, valid) {
      assert GrantOk(w.grants[i], w.calls, w.row, valid);
    }
  }

  lemma {:induction false} EveryWorldKeeps(first: Record, events: seq<Event>, valid: Record -> bool)
    requires Fresh(first)
    ensures Inv(Steps(Initial(first), events, valid), first, valid)
  {
    if events != [] {
      EveryWorldKeeps(first, events[..|events| - 1], valid);
      StepKeeps(Steps(Initial(first), events[..|events| - 1], valid), events[|events| - 1], first, valid);
    }
  }

  // ----- the promises

  ghost predicate Reached(first: Record, valid: Record -> bool, w: World) {
    exists events :: Steps(Initial(first), events, valid) == w
  }

  lemma ReachedKeeps(first: Record, valid: Record -> bool, w: World)
    requires Fresh(first) && Reached(first, valid, w)
    ensures Inv(w, first, valid)
  {
    var events :| Steps(Initial(first), events, valid) == w;
    EveryWorldKeeps(first, events, valid);
  }

  /** Of all the retries that ever take effect, each consumes another failed version of the record,
      exactly the one its caller had inspected, and no call takes effect twice. */
  lemma VersionsAreConsumedOnce(first: Record, valid: Record -> bool, w: World, i: nat, j: nat)
    requires Fresh(first) && Reached(first, valid, w) && i < |w.grants| && j < |w.grants|
    ensures var g := w.grants[i];
            g.call < |w.calls| && g.before.state.Failed? && Version(g.before) == w.calls[g.call].options.expected
    ensures i != j ==> Version(w.grants[i].before) != Version(w.grants[j].before) && w.grants[i].call != w.grants[j].call
  {
    ReachedKeeps(first, valid, w);
    assert GrantOk(w.grants[i], w.calls, w.row, valid) && GrantOk(w.grants[j], w.calls, w.row, valid);
  }

  /** Whatever row a retry left was accepted by the validator. */
  lemma GrantsAreValid(first: Record, valid: Record -> bool, w: World, i: nat)
    requires Fresh(first) && Reached(first, valid, w) && i < |w.grants|
    ensures valid(w.grants[i].after) && w.grants[i].after.state.Pending?
    ensures w.grants[i].after.attemptsMax - w.grants[i].after.attemptsMade == w.grants[i].attempts
  {
    ReachedKeeps(first, valid, w);
    assert GrantOk(w.grants[i], w.calls, w.row, valid);
  }

  /** What a call goes on with.  It is refused, with nothing written, exactly when its options are
      not acceptable, the record cannot be read or no valid retry of it can be built, and after the
      preparation when the request came out different or no valid retry can be built any more. */
  lemma WhatEndsACall(w: World, a: nat, now: int, good: bool, valid: Record -> bool)
    requires a < |w.calls|
    ensures w.calls[a].Reading? ==>
              var t := Step(w, Read(a, now, good), valid); var options := w.calls[a].options;
              && t == w.(calls := w.calls[a := t.calls[a]])
              && (if good && Acceptable(options) && Grantable(w.row, options, now, valid)
                  then t.calls[a] == Preparing(options, w.row)
                  else t.calls[a].Done? && t.calls[a].options == options && t.calls[a].result.Failure?)
    ensures w.calls[a].Preparing? && Acceptable(w.calls[a].options) ==>
              var t := Step(w, Prepared(a, now, good), valid);
              var options, record := w.calls[a].options, w.calls[a].record;
              && t == w.(calls := w.calls[a := t.calls[a]])
              && (if good && Grantable(record, options, now, valid)
                  then t.calls[a].Writing? && IsRetryOf(t.calls[a].next, record, options, now)
                       && t.calls[a] == Writing(options, record, t.calls[a].next)
                  else t.calls[a].Done? && t.calls[a].options == options && t.calls[a].result.Failure?)
  {
    hide Retried, Grantable, IsRetryOf, Acceptable;
    var call := w.calls[a];
    if call.Reading? && Acceptable(call.options) { RetryIsExact(w.row, call.options, now, valid); }
    if call.Preparing? && Acceptable(call.options) { RetryIsExact(call.record, call.options, now, valid); }
  }

  /** A retry that nobody disturbs, all of whose calls go through, does what it is for: it resets the
      record exactly when the record can be retried, and tells its caller what is stored. */
  lemma UndisturbedRetry(first: Record, valid: Record -> bool, w: World, options: Options, now: int, later: int)
    requires Fresh(first) && Reached(first, valid, w)
    ensures
      var a := |w.calls|;
      var read := Step(Step(w, NewCall(options), valid), Read(a, now, true), valid);
      var t := Step(Step(read, Prepared(a, later, true), valid), Write(a, Healthy), valid);
      && |t.calls| == a + 1 && t.calls[a].Done?
      && (if Acceptable(options) && Grantable(w.row, options, now, valid) && Grantable(w.row, options, later, valid)
          then IsRetryOf(t.row, w.row, options, later) && t.calls[a].result == Success(t.row)
               && t.grants == w.grants + [Grant(a, options.attempts, w.row, t.row)]
          else t.row == w.row && t.grants == w.grants && t.calls[a].result.Failure?)
  {
    ReachedKeeps(first, valid, w);
    var a, begun := |w.calls|, Step(w, NewCall(options), valid);
    WhatEndsACall(begun, a, now, true, valid);
    var read := Step(begun, Read(a, now, true), valid);
    WhatEndsACall(read, a, later, true, valid);
    var ready := Step(read, Prepared(a, later, true), valid);
    hide Grantable, Acceptable, Inv;
    if ready.calls[a].Writing? {
      RetriesMeet(w, ready, a, options, later, first, valid);
    }
  }

  lemma RetriesMeet(w: World, ready: World, a: nat, options: Options, later: int, first: Record, valid: Record -> bool)
    requires Fresh(w.row) && ready.row == w.row && ready.grants == w.grants && a < |ready.calls|
    requires ready.calls[a].Writing? && ready.calls[a] == Writing(options, w.row, ready.calls[a].next)
    requires w.row.state.Failed? && IsRetryOf(ready.calls[a].next, w.row, options, later)
    ensures var t := Step(ready, Write(a, Healthy), valid);
            && IsRetryOf(t.row, w.row, options, later) && t.calls[a] == Done(options, Success(t.row))
            && |t.calls| == |ready.calls| && t.grants == w.grants + [Grant(a, options.attempts, w.row, t.row)]
  {
  }

  /** A consumed version never comes back, so a call still holding its guard can change nothing,
      now or after any further events. */
  lemma StaleGuardNeverSucceeds(first: Record, valid: Record -> bool, w: World, i: nat, a: nat, fault: Fault)
    requires Fresh(first) && Reached(first, valid, w) && i < |w.grants|
    ensures Version(w.row) != Version(w.grants[i].before)
    ensures a < |w.calls| && w.calls[a].options.expected == Version(w.grants[i].before) ==>
              Step(w, Write(a, fault), valid).row == w.row
  {
    ReachedKeeps(first, valid, w);
    assert GrantOk(w.grants[i], w.calls, w.row, valid);
    if a < |w.calls| { assert CallOk(w.calls[a], w.row, valid); }
  }

  /** Whatever administrators do, a record is only ever reset from `failed`; and once it is
      published no event of anyone changes its state again. */
  lemma OnlyFailedRecordsAreReset(first: Record, valid: Record -> bool, w: World, e: Event)
    requires Fresh(first) && Reached(first, valid, w)
    ensures (e.NewCall? || e.Read? || e.Prepared? || e.Write?) && Step(w, e, valid).row != w.row ==>
              w.row.state.Failed? && Step(w, e, valid).row.state.Pending?
    ensures w.row.state.Published? ==> Step(w, e, valid).row.state.Published?
  {
    ReachedKeeps(first, valid, w);
  }

  lemma {:induction false} GrantedSinceIsNatural(
      grants: seq<Grant>, calls: seq<Call>, row: Record, valid: Record -> bool)
    requires forall i | 0 <= i < |grants| :: GrantOk(grants[i], calls, row, valid)
    ensures Granted(grants) >= |grants|
  {
    if grants != [] {
      assert GrantOk(grants[|grants| - 1], calls, row, valid);
      GrantedSinceIsNatural(grants[..|grants| - 1], calls, row, valid);
    }
  }

  /** Attempts ever made never exceed the first budget plus everything granted since. */
  lemma AttemptsAreBudgeted(first: Record, valid: Record -> bool, w: World)
    requires Fresh(first) && Reached(first, valid, w)
    ensures w.row.attemptsMade <= first.attemptsMax + Granted(w.grants)
    ensures |w.grants| <= Granted(w.grants)
  {
    ReachedKeeps(first, valid, w);
    GrantedSinceIsNatural(w.grants, w.calls, w.row, valid);
  }

  /** What a caller is told about its write: success is a grant that stored exactly the reported
      record, a conflict changed nothing, and only an unconfirmed write is either. */
  lemma ReportedRetryIsStored(first: Record, valid: Record -> bool, w: World, a: nat, fault: Fault)
    requires Fresh(first) && Reached(first, valid, w) && a < |w.calls| && w.calls[a].Writing?
    ensures var t := Step(w, Write(a, fault), valid); var result := t.calls[a].result;
            && (result.Success? ==> t.row == result.value && |t.grants| == |w.grants| + 1)
            && (result == Failure(Conflict) ==> t.row == w.row && t.grants == w.grants)
            && (t.row == w.row || t.row == w.calls[a].next)
            && (result.Success? || result == Failure(Conflict) || result == Failure(Unconfirmed))
  {
    ReachedKeeps(first, valid, w);
    if !fault.NotRun? && Unchanged(w.row, w.calls[a].record) { WriteGrants(w, a, fault, first, valid); }
  }
}
