/** What the managed transaction promises, read off the log of an arbitrary run. */
module OutboxGuarantees {
  import opened Outcomes
  import opened OutboxTransaction

  predicate Failed(e: Entry) {
    (e.TaskSettled? && e.failed.Some?) || (e.CallbackSettled? && e.result.Failure?)
  }

  // ----- what the observer's summary says about the entries themselves

  ghost predicate CallbackFacts(log: seq<Entry>, h: History) {
    && (forall r | CallbackSettled(r) in log :: h.callback == Some(r))
    && (h.callback.Some? ==> CallbackSettled(h.callback.value) in log)
    && (forall e | e in log && Failed(e) :: h.workFailed)
    && (forall f | BeginSettled(f) in log :: h.begin == Some(f))
    && (h.begin.Some? ==> BeginSettled(h.begin.value) in log)
  }

  ghost predicate TaskFacts(log: seq<Entry>, h: History) {
    && (forall id: nat, kind | Admitted(id, kind) in log :: id < |h.kinds| && h.kinds[id] == kind)
    && (forall id: nat | id < |h.kinds| :: Admitted(id, h.kinds[id]) in log)
    && (forall id: nat | id < |h.kinds| && id !in h.unsettled :: Settles(log, id))
  }

  ghost predicate Settles(log: seq<Entry>, id: nat) {
    exists f :: TaskSettled(id, f) in log
  }

  ghost predicate Releases(log: seq<Entry>) {
    exists d, f :: Released(d, f) in log
  }

  ghost predicate WireFacts(log: seq<Entry>, h: History) {
    && (CommitSent in log <==> !h.commit.Unsent?)
    && (CommitSettled(None) in log <==> h.commit.Acknowledged?)
    && (RollbackSent in log <==> !h.rollback.Unsent?)
    && (Releases(log) <==> h.released.Some?)
    && (forall d, f | Released(d, f) in log :: h.released == Some(f))
  }

  ghost predicate DeclaredFacts(h: History) {
    && (forall k: nat | k < h.declared :: DeclaredAt(h.kinds, k))
    && (forall i, j | 0 <= i < j < |h.kinds| && h.kinds[i].Declared? && h.kinds[j].Declared? ::
          h.kinds[i].k < h.kinds[j].k)
    && (forall i | 0 <= i < |h.kinds| && h.kinds[i].Declared? :: h.kinds[i].k < h.declared)
  }

  /** Declared appends are admitted one at a time: those before the last have settled well. */
  ghost predicate DoneFacts(log: seq<Entry>, h: History) {
    && h.declaredDone <= h.declared <= h.declaredDone + 1
    && (forall i: nat | i < |h.kinds| && h.kinds[i].Declared? && h.kinds[i].k < h.declaredDone ::
          i !in h.unsettled && TaskSettled(i, None) in log)
  }

  ghost predicate DeclaredAt(kinds: seq<Kind>, k: nat) {
    exists i :: 0 <= i < |kinds| && kinds[i] == Declared(k)
  }

  lemma TaskStep(records: nat, log: seq<Entry>, h: History, e: Entry)
    requires TaskFacts(log, h) && Allowed(records, h, e)
    ensures TaskFacts(log + [e], Observe(h, e))
  {
    var longer, h' := log + [e], Observe(h, e);
    assert forall x :: x in longer <==> x in log || x == e;
    forall id: nat | id < |h'.kinds| && id !in h'.unsettled ensures Settles(longer, id) {
      if e.TaskSettled? && e.id == id {
        assert TaskSettled(id, e.failed) in longer;
      } else {
        assert Settles(log, id);
        var f :| TaskSettled(id, f) in log;
        assert TaskSettled(id, f) in longer;
      }
    }
  }

  lemma CallbackStep(records: nat, log: seq<Entry>, h: History, e: Entry)
    requires CallbackFacts(log, h) && Allowed(records, h, e)
    ensures CallbackFacts(log + [e], Observe(h, e))
  {
    assert forall x :: x in log + [e] <==> x in log || x == e;
  }

  lemma WireStep(records: nat, log: seq<Entry>, h: History, e: Entry)
    requires WireFacts(log, h) && Allowed(records, h, e)
    ensures WireFacts(log + [e], Observe(h, e))
  {
    assert forall x :: x in log + [e] <==> x in log || x == e;
    if e.Released? { assert Released(e.discard, e.failed) in log + [e]; }
    if Releases(log) {
      var d, f :| Released(d, f) in log;
      assert Released(d, f) in log + [e];
    }
  }

  lemma DeclaredStep(records: nat, h: History, e: Entry)
    requires DeclaredFacts(h) && Allowed(records, h, e)
    ensures DeclaredFacts(Observe(h, e))
  {
    var h' := Observe(h, e);
    forall k: nat | k < h'.declared ensures DeclaredAt(h'.kinds, k) {
      if k < h.declared {
        assert DeclaredAt(h.kinds, k);
        var i :| 0 <= i < |h.kinds| && h.kinds[i] == Declared(k);
        assert h'.kinds[i] == Declared(k);
      } else {
        assert h'.kinds[|h.kinds|] == Declared(k);
      }
    }
  }

  lemma DoneStep(records: nat, log: seq<Entry>, h: History, e: Entry)
    requires DeclaredFacts(h) && TaskFacts(log, h) && DoneFacts(log, h) && Allowed(records, h, e)
    ensures DoneFacts(log + [e], Observe(h, e))
  {
    assert forall x :: x in log + [e] <==> x in log || x == e;
  }

  ghost predicate Facts(log: seq<Entry>, h: History) {
    CallbackFacts(log, h) && TaskFacts(log, h) && WireFacts(log, h) && DeclaredFacts(h) && DoneFacts(log, h)
  }

  lemma NoFactsYet()
    ensures Facts([], NOTHING_YET)
  {
  }

  lemma FactsStep(records: nat, log: seq<Entry>, h: History, e: Entry)
    requires Facts(log, h) && Allowed(records, h, e)
    ensures Facts(log + [e], Observe(h, e))
  {
    hide Allowed, Observe, TaskFacts, CallbackFacts, WireFacts, DeclaredFacts, DoneFacts;
    TaskStep(records, log, h, e);
    CallbackStep(records, log, h, e);
    WireStep(records, log, h, e);
    DeclaredStep(records, h, e);
    DoneStep(records, log, h, e);
  }

  lemma {:induction false} FactsHold(records: nat, log: seq<Entry>)
    requires Monitored(records, log)
    ensures Facts(log, Observed(log))
  {
    hide Allowed, Observe, Facts;
    if log == [] {
      NoFactsYet();
    } else {
      var before, e := log[..|log| - 1], log[|log| - 1];
      PrefixMonitored(records, log, |log| - 1);
      FactsHold(records, before);
      assert log == before + [e];
      FactsStep(records, before, Observed(before), e);
    }
  }

  lemma PrefixMonitored(records: nat, log: seq<Entry>, n: nat)
    requires Monitored(records, log) && n <= |log|
    ensures Monitored(records, log[..n])
  {
    forall i | 0 <= i < n ensures Allowed(records, Observed(log[..n][..i]), log[..n][i]) {
      assert log[..n][..i] == log[..i];
    }
  }

  /** Every prefix of an allowed log has the facts, and its next entry was allowed. */
  lemma At(records: nat, log: seq<Entry>, i: nat)
    requires Monitored(records, log) && i < |log|
    ensures var h := Observed(log[..i]);
            && Facts(log[..i], h)
            && Allowed(records, h, log[i])
  {
    PrefixMonitored(records, log, i);
    FactsHold(records, log[..i]);
  }

  // ----- the promises

  /** The logs some interleaving writes, and the states some interleaving ends in. */
  ghost predicate Produced(records: nat, log: seq<Entry>) {
    exists events :: Run(Start(records), events).log == log
  }

  ghost predicate Reached(records: nat, s: Tx) {
    exists events :: Run(Start(records), events) == s
  }

  lemma ProducedIsMonitored(records: nat, log: seq<Entry>)
    requires Produced(records, log)
    ensures Monitored(records, log)
  {
    var events :| Run(Start(records), events).log == log;
    EveryRunIsAllowed(records, events);
  }

  lemma ReachedIsInvariant(records: nat, s: Tx)
    requires Reached(records, s)
    ensures Inv(s) && s.records == records
  {
    var events :| Run(Start(records), events) == s;
    EveryRunIsAllowed(records, events);
  }

  /** What an entry may not be once COMMIT is on the wire. */
  predicate IsWork(e: Entry) {
    e.TaskSent? || e.Admitted? || e.CommitSent? || Failed(e)
  }

  lemma NothingAfterCommit(records: nat, log: seq<Entry>, i: nat, j: nat)
    requires Monitored(records, log) && i < j < |log| && log[i] == CommitSent
    ensures !IsWork(log[j])
  {
    At(records, log, j);
    assert log[..j][i] == CommitSent;
  }

  lemma CleanBeforeCommit(records: nat, log: seq<Entry>, i: nat, e: Entry)
    requires Monitored(records, log) && i < |log| && log[i] == CommitSent && e in log[..i]
    ensures !Failed(e)
    ensures e.Admitted? ==> TaskSettled(e.id, None) in log[..i]
  {
    At(records, log, i);
    if e.Admitted? {
      assert Settles(log[..i], e.id);
      var f :| TaskSettled(e.id, f) in log[..i];
      NotFailed(log[..i], Observed(log[..i]), TaskSettled(e.id, f));
    }
  }

  lemma NotFailed(log: seq<Entry>, h: History, e: Entry)
    requires CallbackFacts(log, h) && !h.workFailed && e in log
    ensures !Failed(e)
  {
  }

  /** COMMIT is sent at most once, after the callback returned, and only when everything ever
      admitted, awaited or not, has settled successfully before it; no failure is recorded by a
      task or the callback at any time, and no work reaches the client afterwards. */
  lemma CommitNeedsAllWork(records: nat, log: seq<Entry>, i: nat, j: nat)
    requires Produced(records, log)
    requires i < |log| && log[i] == CommitSent && j < |log|
    ensures && (exists v :: CallbackSettled(Success(v)) in log[..i])
            && !Failed(log[j])
            && (log[j].CommitSent? ==> j == i)
            && (log[j].TaskSent? ==> j < i)
            && (log[j].Admitted? ==> j < i && TaskSettled(log[j].id, None) in log[..i])
  {
    ProducedIsMonitored(records, log);
    At(records, log, i);
    var v := Observed(log[..i]).callback.value.value;
    assert CallbackSettled(Success(v)) in log[..i];
    if j < i {
      assert log[..i][j] == log[j];
      CleanBeforeCommit(records, log, i, log[j]);
      At(records, log, i);
      if log[j].CommitSent? { NothingAfterCommit(records, log, j, i); }
    } else if i < j {
      NothingAfterCommit(records, log, i, j);
    }
  }

  /** The k-th declared record is admitted only when all the earlier ones have settled well. */
  lemma DeclaredInOrder(records: nat, log: seq<Entry>, a: nat, b: nat)
    requires Monitored(records, log) && a < b < |log|
    requires log[a].Admitted? && log[b].Admitted? && log[a].kind.Declared? && log[b].kind.Declared?
    ensures log[a].kind.k < log[b].kind.k && TaskSettled(log[a].id, None) in log[..b]
  {
    At(records, log, b);
    assert log[..b][a] == log[a];
    var h := Observed(log[..b]);
    assert Admitted(log[a].id, log[a].kind) in log[..b];
    assert h.kinds[log[a].id] == log[a].kind;
  }

  /** By the time COMMIT is sent the declared records are all appended, each exactly once and in
      list order: the next admission comes after the previous one has settled. */
  lemma CommitAppendsTheRecordsInOrder(records: nat, log: seq<Entry>, i: nat, k: nat, a: nat, b: nat)
    requires Produced(records, log)
    requires i < |log| && log[i] == CommitSent
    ensures && (k < records <==> exists id: nat :: Admitted(id, Declared(k)) in log[..i])
            && (a < b < i && log[a].Admitted? && log[b].Admitted? && log[a].kind.Declared? && log[b].kind.Declared? ==>
                  log[a].kind.k < log[b].kind.k && TaskSettled(log[a].id, None) in log[..b])
  {
    ProducedIsMonitored(records, log);
    At(records, log, i);
    var h := Observed(log[..i]);
    if k < records {
      assert DeclaredAt(h.kinds, k);
      var id: nat :| id < |h.kinds| && h.kinds[id] == Declared(k);
      assert Admitted(id, Declared(k)) in log[..i];
    }
    if a < b < i && log[a].Admitted? && log[b].Admitted? && log[a].kind.Declared? && log[b].kind.Declared? {
      DeclaredInOrder(records, log, a, b);
    }
  }

  // ----- the end of the transaction

  ghost predicate Discards(log: seq<Entry>) {
    exists e :: e in log && DiscardsClient(e)
  }

  predicate DiscardsClient(e: Entry) {
    e.ClientErrored? || (e.CommitSettled? && e.failed.Some?) || (e.RollbackSettled? && e.failed.Some?)
  }

  lemma {:induction false} ClientFaults(log: seq<Entry>)
    ensures Observed(log).clientFault.Some? <==> Discards(log)
  {
    if log != [] {
      var before, e := log[..|log| - 1], log[|log| - 1];
      ClientFaults(before);
      assert log == before + [e];
      assert forall x :: x in log <==> x in before || x == e;
      if Discards(before) {
        var x :| x in before && DiscardsClient(x);
        assert x in log && DiscardsClient(x);
      }
      if DiscardsClient(e) { assert e in log && DiscardsClient(e); }
    }
  }

  lemma NothingAfterRelease(records: nat, log: seq<Entry>, i: nat, j: nat)
    requires Monitored(records, log) && i < j < |log| && log[i].Released?
    ensures !log[j].Released? && !log[j].TaskSent? && !log[j].CommitSent? && !log[j].RollbackSent? && !log[j].Admitted?
  {
    At(records, log, j);
    assert log[..j][i] == log[i];
    assert Releases(log[..j]);
  }

  /** The client is released at most once, after everything admitted has settled; ROLLBACK was
      attempted exactly when COMMIT did not succeed; and the client is handed back for reuse
      exactly when it reported no error and neither COMMIT nor ROLLBACK failed. */
  lemma ReleasedOnceAndDrained(records: nat, log: seq<Entry>, i: nat, j: nat)
    requires Produced(records, log)
    requires i < |log| && log[i].Released? && j < |log|
    ensures && (log[j].Released? ==> j == i)
            && (log[j].TaskSent? || log[j].CommitSent? || log[j].RollbackSent? ==> j < i)
            && (log[j].Admitted? ==> j < i && Settles(log[..i], log[j].id))
            && (RollbackSent in log[..i] <==> CommitSettled(None) !in log[..i])
            && (log[i].discard.Some? <==> Discards(log[..i]))
  {
    ProducedIsMonitored(records, log);
    if j < i {
      assert log[..i][j] == log[j];
      if log[j].Released? { NothingAfterRelease(records, log, j, i); }
    } else if i < j {
      NothingAfterRelease(records, log, i, j);
    }
    At(records, log, i);
    ClientFaults(log[..i]);
  }

  /** An entry that records a failure, and what it records. */
  function Recorded(e: Entry): Option<Error> {
    match e
    case CallbackSettled(Failure(error)) => Some(error)
    case TaskSettled(_, failed) => failed
    case ClientErrored(error) => Some(error)
    case _ => None
  }

  lemma FirstFailureStep(h: History, e: Entry)
    ensures Observe(h, e).firstFailure == First(h.firstFailure, Recorded(e))
  {
  }

  ghost predicate FirstRecorded(log: seq<Entry>, i: nat, error: Error) {
    i < |log| && Recorded(log[i]) == Some(error) && forall j | 0 <= j < i :: Recorded(log[j]).None?
  }

  lemma {:induction false} FirstFailureIsFirst(log: seq<Entry>)
    ensures Observed(log).firstFailure.None? ==> forall i | 0 <= i < |log| :: Recorded(log[i]).None?
    ensures Observed(log).firstFailure.Some? ==> exists i: nat :: FirstRecorded(log, i, Observed(log).firstFailure.value)
  {
    if log != [] {
      var before, e := log[..|log| - 1], log[|log| - 1];
      FirstFailureIsFirst(before);
      FirstFailureStep(Observed(before), e);
      assert forall i | 0 <= i < |before| :: log[i] == before[i];
      if Observed(before).firstFailure.Some? {
        var error := Observed(before).firstFailure.value;
        var i: nat :| FirstRecorded(before, i, error);
        assert FirstRecorded(log, i, error);
      } else if Recorded(e).Some? {
        assert FirstRecorded(log, |before|, Recorded(e).value);
      }
    }
  }

  /** How the promise settles.  It returns exactly when COMMIT was acknowledged and the release
      did not throw, and then with the callback's own value; the "did not commit" fallback is
      unreachable. */
  lemma OutcomeOfEveryRun(records: nat, s: Tx)
    requires Reached(records, s) && s.phase.Closed?
    ensures var outcome := s.phase.outcome;
            && (outcome.Returned? <==> CommitSettled(None) in s.log && exists d :: Released(d, None) in s.log)
            && (outcome.Returned? ==> outcome.value.Some? && CallbackSettled(Success(outcome.value.value)) in s.log)
            && !outcome.NotCommitted?
  {
    hide Matches, Monitored, Run;
    ReachedIsInvariant(records, s);
    FactsHold(records, s.log);
    ReturnedMeansCommitted(s, Observed(s.log));
  }

  lemma ReturnedMeansCommitted(s: Tx, h: History)
    requires Matches(s, h) && s.phase.Closed? && Facts(s.log, h)
    ensures !s.phase.outcome.NotCommitted?
    ensures s.phase.outcome.Returned? <==> CommitSettled(None) in s.log && exists d :: Released(d, None) in s.log
    ensures s.phase.outcome.Returned? ==>
              var v := s.phase.outcome.value;
              v.Some? && CallbackSettled(Success(v.value)) in s.log
  {
    if s.phase.outcome.Returned? {
      assert h.released == Some(None);
      assert Releases(s.log);
      var d, f :| Released(d, f) in s.log;
      assert Released(d, None) in s.log;
    }
  }

  lemma UncommittedReportsFirst(s: Tx, h: History)
    requires Matches(s, h) && s.phase.Closed? && Facts(s.log, h)
    requires BeginSettled(None) in s.log && CommitSent !in s.log
    ensures h.firstFailure.Some?
    ensures var outcome := s.phase.outcome;
            outcome == Rejected(h.firstFailure.value)
            || (outcome.CleanupFailed? && outcome.primary == Some(h.firstFailure.value))
  {
  }

  /** When BEGIN worked and COMMIT was never sent, the error the caller gets is the earliest
      failure recorded by any task, the callback or the client, caught or not. */
  lemma FirstFailureIsReported(records: nat, s: Tx)
    requires Reached(records, s)
    requires s.phase.Closed? && BeginSettled(None) in s.log && CommitSent !in s.log
    ensures var outcome := s.phase.outcome;
            exists i: nat, error ::
              && FirstRecorded(s.log, i, error)
              && (outcome == Rejected(error) || (outcome.CleanupFailed? && outcome.primary == Some(error)))
  {
    hide Matches, Monitored, Run, Observed, Facts;
    ReachedIsInvariant(records, s);
    FactsHold(records, s.log);
    UncommittedReportsFirst(s, Observed(s.log));
    FirstFailureIsFirst(s.log);
    var error := Observed(s.log).firstFailure.value;
    var i: nat :| FirstRecorded(s.log, i, error);
  }

  // ----- the moment at which COMMIT is decided

  lemma DrainedWaits(s: Tx, e: Event)
    requires s.phase.Drained? && !e.FinishResumes?
    ensures Apply(s, e).phase == s.phase
  {
  }

  lemma {:induction false} DrainedWaitsOn(s: Tx, between: seq<Event>)
    requires s.phase.Drained? && forall e | e in between :: !e.FinishResumes?
    ensures Run(s, between).phase == s.phase
  {
    if between != [] {
      DrainedWaitsOn(s, between[..|between| - 1]);
      DrainedWaits(Run(s, between[..|between| - 1]), between[|between| - 1]);
    }
  }

  lemma FailureIsFirst(s: Tx)
    requires Inv(s)
    ensures s.scope.failure == Observed(s.log).firstFailure
  {
  }

  /** Whether COMMIT is sent is decided when the drain ends: exactly if no task, callback or client
      has recorded a failure until then.  What happens between that look and the resumption of the
      transaction, a client error included, has no influence. */
  lemma CommitIsDecidedAtTheDrain(records: nat, s: Tx, between: seq<Event>)
    requires Reached(records, s) && s.phase.Draining? && Possible(s, DrainResumes)
    requires forall e | e in between :: !e.FinishResumes?
    ensures var later := Run(Apply(s, DrainResumes), between);
            Apply(later, FinishResumes).phase.Committing? <==>
              forall i | 0 <= i < |s.log| :: Recorded(s.log[i]).None?
  {
    ReachedIsInvariant(records, s);
    FailureIsFirst(s);
    hide Inv, Observed, Reached, Run;
    FirstFailureIsFirst(s.log);
    DrainedWaitsOn(Apply(s, DrainResumes), between);
    if s.scope.failure.Some? {
      var i: nat :| FirstRecorded(s.log, i, s.scope.failure.value);
      assert Recorded(s.log[i]).Some?;
    }
  }

  /** So a client error that comes late is met by a COMMIT.  Only promise jobs run between that look
      and the resumption, so an error that a socket delivers through the event loop cannot come there;
      the run needs an 'error' emitted from within a promise job. */
  lemma LateClientErrorMeetsCommit(error: Error)
    ensures Run(Start(0), [BeginReply(None), CallbackReply(Success(0)), DrainResumes, ClientError(error), FinishResumes]).log
            == [BeginSettled(None), CallbackSettled(Success(0)), ClientErrored(error), CommitSent]
  {
    var events := [BeginReply(None), CallbackReply(Success(0)), DrainResumes, ClientError(error), FinishResumes];
    RunStep(0, [], BeginReply(None));
    RunStep(0, events[..1], CallbackReply(Success(0)));
    RunStep(0, events[..2], DrainResumes);
    RunStep(0, events[..3], ClientError(error));
    RunStep(0, events[..4], FinishResumes);
    hide Apply;
    assert [] + [events[0]] == events[..1] && events[..1] + [events[1]] == events[..2];
    assert events[..2] + [events[2]] == events[..3] && events[..3] + [events[3]] == events[..4];
    assert events[..4] + [events[4]] == events;
    assert Run(Start(0), []) == Start(0);
    hide Run;
    LateSteps(error);
  }

  lemma LateSteps(error: Error)
    ensures
      var drained := Apply(Apply(Apply(Start(0), BeginReply(None)), CallbackReply(Success(0))), DrainResumes);
      Apply(Apply(drained, ClientError(error)), FinishResumes).log ==
      [BeginSettled(None), CallbackSettled(Success(0)), ClientErrored(error), CommitSent]
  {
    hide Apply;
    EarlySteps();
    LastSteps(Apply(Apply(Apply(Start(0), BeginReply(None)), CallbackReply(Success(0))), DrainResumes), error);
  }

  lemma EarlySteps()
    ensures
      var drained := Apply(Apply(Apply(Start(0), BeginReply(None)), CallbackReply(Success(0))), DrainResumes);
      drained.phase == Drained(None) && drained.log == [BeginSettled(None), CallbackSettled(Success(0))]
  {
    var begun := Apply(Start(0), BeginReply(None));
    assert begun == OnBegin(Start(0), None);
    var returned := Apply(begun, CallbackReply(Success(0)));
    assert returned == OnCallback(begun, Success(0));
    hide Apply;
    assert returned.phase == Draining && returned.waiting == {} && returned.scope.failure.None?;
    DrainedStep(returned);
  }

  lemma DrainedStep(s: Tx)
    requires s.phase.Draining? && s.waiting == {}
    ensures Apply(s, DrainResumes) == s.(phase := Drained(s.scope.failure))
  {
    hide Tx.AppendFrom, Tx.Release, Tx.Fail;
  }

  lemma LastSteps(s: Tx, error: Error)
    requires s.phase == Drained(None)
    requires s.log == [BeginSettled(None), CallbackSettled(Success(0))]
    ensures Apply(Apply(s, ClientError(error)), FinishResumes).log == s.log + [ClientErrored(error)] + [CommitSent]
  {
    hide Tx.AppendFrom, Tx.Release, Tx.Fail;
    var met := Apply(s, ClientError(error));
    assert met == OnClientError(s, error);
  }

  lemma RunStep(records: nat, events: seq<Event>, e: Event)
    ensures Run(Start(records), events + [e]) == Apply(Run(Start(records), events), e)
  {
    assert (events + [e])[..|events|] == events;
  }

  // ----- the transaction always gets to its end

  /** Events that are not up to the callback's goodwill or to the socket. */
  predicate Internal(e: Event) {
    !e.ViewCall? && !e.ClientError?
  }

  function Rank(s: Tx): int {
    match s.phase
    case Beginning => s.records + 9
    case InCallback => s.records + 8
    case Appending(k, _) => s.records - k + 6
    case Draining => 6
    case Drained(_) => 5
    case Committing => 4
    case DrainingAgain => 3
    case DrainedAgain => 2
    case RollingBack => 1
    case Closed(_) => 0
  }

  function Weight(task: Task): nat {
    if task.stage.Queued? then 2 else if task.stage.OnTheWire? then 1 else 0
  }

  function Work(tasks: seq<Task>): nat {
    if tasks == [] then 0 else Weight(tasks[0]) + Work(tasks[1..])
  }

  lemma {:induction false} WorkAfterUpdate(tasks: seq<Task>, id: nat, task: Task)
    requires id < |tasks|
    ensures Work(tasks[id := task]) == Work(tasks) - Weight(tasks[id]) + Weight(task)
  {
    if id == 0 {
      assert tasks[id := task][1..] == tasks[1..];
    } else {
      assert tasks[id := task][1..] == tasks[1..][id - 1 := task];
      WorkAfterUpdate(tasks[1..], id - 1, task);
    }
  }

  /** Some reply, settlement or resumption is always due before the transaction is over: the
      drain never waits for something that cannot happen. */
  lemma NeverStuck(records: nat, s: Tx) returns (e: Event)
    requires Reached(records, s) && !s.phase.Closed?
    ensures Possible(s, e) && Internal(e)
  {
    ReachedIsInvariant(records, s);
    if s.phase.Beginning? { e := BeginReply(None); }
    else if s.phase.InCallback? { e := CallbackReply(Success(0)); }
    else if s.phase.Drained? || s.phase.DrainedAgain? { e := FinishResumes; }
    else if s.phase.Committing? { e := CommitReply(None, None); }
    else if s.phase.RollingBack? { e := RollbackReply(None, None); }
    else if s.phase.Appending? {
      e := if s.tasks[s.phase.id].stage.Done? then AppendResumes else Settle(s.phase.id, Some(AnError(Raised(0))));
    } else if s.waiting !! s.scope.pending {
      e := DrainResumes;
    } else {
      var id :| id in s.waiting && id in s.scope.pending;
      assert TaskMatches(s.tasks[id], id, Observed(s.log), s.phase);
      e := Settle(id, Some(AnError(Raised(0))));
    }
  }

  lemma RankDropsOnReply(s: Tx, e: Event)
    requires Possible(s, e) && (e.CommitReply? || e.RollbackReply?)
    ensures 0 <= Rank(Apply(s, e)) < Rank(s)
  {
    match e
    case CommitReply(failed, release) =>
      assert OnCommit(s, failed, release).phase.Closed? || OnCommit(s, failed, release).phase.DrainingAgain?;
    case RollbackReply(failed, release) =>
      assert OnRollback(s, failed, release).phase.Closed?;
  }

  lemma RankDropsAtTheEnds(s: Tx, e: Event)
    requires Possible(s, e) && (e.BeginReply? || e.FinishResumes?)
    ensures 0 <= Rank(Apply(s, e)) < Rank(s)
  {
  }

  lemma RankDrops(s: Tx, e: Event)
    requires Possible(s, e) && (e.CallbackReply? || e.AppendResumes? || e.DrainResumes?)
    requires s.phase.Appending? ==> s.phase.k < s.records
    ensures 0 <= Rank(Apply(s, e)) < Rank(s)
  {
  }

  lemma RankStays(s: Tx, e: Event)
    requires Possible(s, e) && (e.Send? || e.Settle?)
    ensures Rank(Apply(s, e)) == Rank(s) && Work(Apply(s, e).tasks) < Work(s.tasks)
  {
    match e
    case Send(id) => WorkAfterUpdate(s.tasks, id, s.tasks[id].(stage := OnTheWire));
    case Settle(id, cause) => WorkAfterUpdate(s.tasks, id, s.tasks[id].(stage := Done(OutboxTransaction.Map(cause))));
  }

  /** And every such event brings the end nearer, so only an unending supply of new calls from
      the callback itself can keep a transaction open. */
  lemma EveryEventCountsDown(records: nat, s: Tx, e: Event)
    requires Reached(records, s) && Possible(s, e) && Internal(e)
    ensures var t := Apply(s, e);
            0 <= Rank(t) && (Rank(t) < Rank(s) || (Rank(t) == Rank(s) && Work(t.tasks) < Work(s.tasks)))
  {
    hide Apply, Possible;
    ReachedIsInvariant(records, s);
    if e.Send? || e.Settle? { RankStays(s, e); }
    else if e.CallbackReply? || e.AppendResumes? || e.DrainResumes? { RankDrops(s, e); }
    else if e.BeginReply? || e.FinishResumes? { RankDropsAtTheEnds(s, e); }
    else { RankDropsOnReply(s, e); }
  }
}
