# Verification of the message-queue module

A Dafny model of the parts of this repository that reason for themselves: the concurrent protocols around the outbox
transaction, the controlled clock, the administrative retry and the engine session; the graph, paging and interceptor
algorithms; the deployment of queue policies; and the round trips and keys that everything else relies on.
`dafny verify dfyconfig.toml` checks the whole project.

## How the model is built

**The event loop is a scheduler.** An async function is split at its awaits. What happens between two awaits is one
event; events arrive in any order that the code allows, each reply may be a success or a failure, and an impossible
event changes nothing. A *run* is any finite sequence of events, so a theorem over every run is a theorem over every
interleaving.

**Logs are judged from outside.** The three big machines (`OutboxTransaction`, `EngineLifecycle`, `Interceptors`) write
a log of what the outside world sees. What a log may contain is defined by a second, much smaller description: a
summary of the log so far (`History`, `Observe`) and a rule for the next line (`Allowed`). It knows nothing of phases,
promises or flags. One invariant ties the machine to the summary; the theorems are then read off the logs alone.
A second set of theorems (`OutboxReplies`, `KyselyValues`, `EngineReplies`, `Interceptors.EveryEventShows`) ties the logs
and the outcomes to the events: every answer and every value that comes in is counted by a reader who only knows which
answer was due, and what comes out is stated in those counts.

**Objects are classes.** `TransactionScope`, `ScopedDriver`, `EngineSession`, `FlowResultReader`,
`OutboxRetryAdapter`, `MqRegistry`, `QueueControlsCoordinator` and the closures of `postgresOutboxTransaction`,
`runKyselyOutbox` and `invokeMqInterceptor` keep their fields, and every method is proved to take exactly the step of
the interleaving model (`View() == Step(old(View()), …)`), so the theorems are about the objects too.

| files | model of |
|---|---|
| `Gates` | the admit / poison / drain / close gate shared by four classes |
| `OutboxTransaction`, `OutboxGuarantees`, `OutboxReplies`, `ManagedTransactions` | `src/integrations/postgres-outbox-transaction.ts` |
| `KyselyScope`, `KyselyValues`, `KyselyDriver` | `src/integrations/kysely-outbox-scope.ts`, nested in the above |
| `ControlledClock`, `ControlledDispatch` | `src/engine/controlled-clock.ts`, `src/engine/controlled-store.ts` |
| `SafeIntegers`, `OutboxRetry`, `OutboxProtocol` | `src/engine/outbox-retry.ts`, `src/integrations/postgres-outbox-retry.ts`, `src/engine/outbox-coordinator.ts` |
| `EngineLifecycle`, `EngineGuarantees`, `EngineReplies`, `EngineSessions` | `src/engine/engine-session.ts` |
| `Graphs`, `FlowDiscovery`, `FlowInput` | `src/engine/flow-discovery.ts`, `src/flows/validation.ts` |
| `FlowResults` | `src/engine/flow-results.ts` |
| `Interceptors`, `Pipeline` | `src/engine/mq-interceptor.ts`, `src/engine/mq-enhancers.ts` |
| `JsonText`, `JobIdentities`, `QueueDefinitions`, `Registry`, `RetryReferences` | the JSON tuple keys and who uses them |
| `Schema` | `src/contracts/schema.ts` |
| `QueueControls` | `src/engine/queue-controls.ts` |

## What is assumed of code outside the repository

- Job store: `updatedAt` never decreases; a mutation dated before it is rejected and changes nothing; a settlement or
  release is applied only with the current token and a lease unexpired at its own time; a cancellation needs no lease,
  records a request on an active job without touching its lease, and ends a job that nobody holds; lease tokens are
  issued once. A settlement with a token that has settled the job may be acknowledged as already applied, refused as
  conflicting or forgotten, and a store may look at its clock or at its memory first: both are arbitrary.
- Recovery: one operation takes at most `limit` jobs of the queues it covers, and fewer only when none are left. Nobody
  else writes during one `recoverStalled` call; any reply may still be lost.
- Outbox publisher: every write needs the current lease or takes a free one and is dated at or after `updatedAt`; a
  claim counts one attempt and needs budget left; settling gives the lease up; a lease that expires with no budget left
  ends in a failure.
- Policy store: reconciling one connection is all or nothing, though its reply may be lost; it keeps a record whose
  policy is in force and otherwise writes it with the next revision.
- `isDeepStrictEqual` is an equivalence, and validators cannot tell deeply equal inputs apart. JSON itself is arbitrary
  there; only for keys is `JSON.stringify` modelled character by character (ECMAScript's escaping, section 7 of
  RFC 8259).
- Values, SQL and records are identities; validators, pipes, guards, filters, the flow compiler and the policy resolver
  are arbitrary deterministic functions; clocks, signals and other processes are arbitrary inputs.

## What the proofs turned up

- A client error after `finish` has looked at the failure and before COMMIT is sent does not hold COMMIT back; the client
  is still discarded. Only promise jobs run in that window, so a socket error delivered by the event loop cannot fall
  into it; it takes an `error` emitted from a promise job. `LateClientErrorMeetsCommit` is such a run,
  `CommitIsDecidedAtTheDrain` says exactly when COMMIT is sent, and no failure of a task or of the callback can slip
  through.
- The fallback "The transaction did not commit" cannot be reached.
- The early exit of the clock refresh (`refreshedNow <= now`) is never taken while the store keeps its rules: if every
  call goes through, a final clock rejection means the job is gone or all three windows were used by another writer.
- `recoverStalled` on several queues reports nothing when a later queue fails, although earlier jobs were recovered.
  The contract states it: what was taken is fair even when the answer is an error.
- The rejection of a duplicate job key in `MqRegistry.initialize` cannot be reached: it follows from distinct queues.
- After `onModuleDestroy` the registry stays marked as initialized, so a second `initialize` publishes nothing.
- Collecting all results ends for *every* store, not only for finite cursor sets: a cursor outside 1 to 256 code units is
  refused before it is followed, so there are finitely many to follow.
- Reconciling policies is two-phase but not atomic: a failing write leaves the earlier connections written, and its own if
  only the reply was lost. It can always be resumed: the next successful run ends in the state of one undisturbed run.
- An abort seen by a look inside the interceptor chain need not come out of a delivery: an outer interceptor may catch
  what its `next` was rejected with and answer a value, which is returned without another look
  (`AbortInsideTheChain`). The abort comes out exactly when a look outside the chain found it, or, once any look did,
  exactly when the chain did not answer a value (`Pipeline.Run`).
- Success of a settlement does not mean that this call applied it: a store acknowledges a token that has settled the job
  already. What holds is that the token settled it exactly once (`TokenSettlesOnce`, `SettledByOne`).

## Model

| member | source | states |
|---|---|---|
| Gates.FirstFailureIsRemembered | src/integrations/postgres-outbox-transaction.ts:36-54 | over any history of a gate, the remembered failure is the oldest one recorded |
| Gates.ClosedGateOnlyDrains | src/engine/flow-results.ts:29-50 | a closed gate admits nothing: what is in flight can only shrink |
| Gates.ClosingWaitsForEverything | src/integrations/postgres-outbox-transaction.ts:87-91 | when what was in flight at closing has settled, nothing is in flight and nothing ever will be |
| OutboxTransaction.EveryRunIsAllowed | src/integrations/postgres-outbox-transaction.ts:95-180 | in every interleaving of callback, tasks, client errors, BEGIN, COMMIT, ROLLBACK and release replies the log obeys the rules of the specification |
| OutboxGuarantees.CommitNeedsAllWork | src/integrations/postgres-outbox-transaction.ts:129-144 | COMMIT is sent at most once, after the callback returned and everything admitted, awaited or not, settled successfully; no task or callback failure occurs in such a run at any time and no work reaches the client later |
| OutboxGuarantees.CommitAppendsTheRecordsInOrder | src/integrations/postgres-outbox-transaction.ts:137-143 | at COMMIT exactly the declared records are admitted, in list order, each after the one before it was appended |
| OutboxGuarantees.DeclaredInOrder | src/integrations/postgres-outbox-transaction.ts:137 | a declared record is admitted only after all earlier ones settled without error |
| OutboxGuarantees.ReleasedOnceAndDrained | src/integrations/postgres-outbox-transaction.ts:145-169 | the client is released once, after all admitted work settled; ROLLBACK was attempted exactly when COMMIT did not succeed; the client is discarded exactly when it errored or COMMIT or ROLLBACK failed |
| OutboxGuarantees.ClientFaults | src/integrations/postgres-outbox-transaction.ts:124-128 | the discard reason is set exactly by a client error, a failed COMMIT or a failed ROLLBACK |
| OutboxGuarantees.OutcomeOfEveryRun | src/integrations/postgres-outbox-transaction.ts:170-179 | a value is returned exactly when COMMIT was acknowledged and release did not throw, and it is the callback's; the last fallback is unreachable |
| OutboxGuarantees.FirstFailureIsReported | src/integrations/postgres-outbox-transaction.ts:36-38 | when BEGIN worked and COMMIT was never sent, the caller gets the earliest failure recorded, caught or not |
| OutboxGuarantees.FirstFailureIsFirst | src/integrations/postgres-outbox-transaction.ts:87-91 | the summary's first failure is the earliest failing line of the log |
| OutboxGuarantees.CommitIsDecidedAtTheDrain | src/integrations/postgres-outbox-transaction.ts:89-143 | COMMIT is sent exactly when no task, callback or client had recorded a failure by the end of the drain; nothing that happens between that look and the resumption matters |
| OutboxGuarantees.LateClientErrorMeetsCommit | src/integrations/postgres-outbox-transaction.ts:124-143 | a run in which a client error after that look is followed by COMMIT; such an error must be emitted from a promise job, since nothing else runs between the look and COMMIT |
| OutboxGuarantees.NeverStuck | src/integrations/postgres-outbox-transaction.ts:87-91 | until it is over, a transaction always awaits something that can come |
| OutboxGuarantees.EveryEventCountsDown | src/integrations/postgres-outbox-transaction.ts:129-180 | every reply or settlement brings the end nearer; only new calls of the callback can postpone it |
| OutboxReplies.EverythingIsLogged | src/integrations/postgres-outbox-transaction.ts:40-63 | every answer of the server, every settlement, error and callback result is on the log as it came; a call of the view is admitted, as the kind it is, exactly until the callback settles; nothing else is written but the function's own sends, release and outcome |
| OutboxReplies.TheCallerIsTold | src/integrations/postgres-outbox-transaction.ts:145-179 | the error of BEGIN or of COMMIT is the primary one, an acknowledged COMMIT leaves none, and the errors of ROLLBACK and of the release follow it in this order; they are exactly what makes the outcome a cleanup failure |
| ManagedTransactions.Activation.Deliver | src/integrations/postgres-outbox-transaction.ts:24-180 | the scope and the suspended function take the model's step for every event, handler by handler |
| KyselyScope.SessionRefinesTransaction | src/integrations/kysely-outbox-scope.ts:111-143 | whatever happens in a Kysely session, its transaction goes through a run of the managed transaction, so all promises above hold for it |
| KyselyScope.EverySessionIsNested | src/integrations/kysely-outbox-scope.ts:18-109 | in every reachable session each inner call belongs to one outer task and the outer callback is quiet when it returns |
| KyselyScope.StartedCallsAreAdmitted | src/integrations/kysely-outbox-scope.ts:83-103 | what the driver admitted is admitted by the transaction, an append as an append and a statement as a query |
| KyselyScope.CallsSettleBeforeTheCallback | src/integrations/kysely-outbox-scope.ts:104-142 | every statement and append is admitted and settled before the outer callback returns, hence before COMMIT or ROLLBACK |
| KyselyScope.WhatPoisonsTheDriver | src/integrations/kysely-outbox-scope.ts:25-55 | an unsupported operation during the callback, a failing call and a throwing callback all record a failure |
| KyselyScope.DriverFailureSticks | src/integrations/kysely-outbox-scope.ts:25-30 | a recorded failure is never replaced or forgotten |
| KyselyScope.DriverFailureNeverCommits | src/integrations/kysely-outbox-scope.ts:104-139 | once the driver recorded a failure, COMMIT is never sent |
| KyselyScope.NothingEscapes | src/integrations/kysely-outbox-scope.ts:41-42 | after the driver's finish nothing reaches the transaction through it |
| KyselyValues.CallbackTellsTheUsersValue | src/integrations/kysely-outbox-scope.ts:129-142 | over the events of any session: the transaction is told the value v exactly if the user's callback returned v and nothing went wrong in the driver, and otherwise the first thing that did |
| KyselyValues.DriverRemembersTheFirstCause | src/integrations/kysely-outbox-scope.ts:25-55 | the failure kept is the first one the events bring: a misuse while the callback runs, a call that ends badly, or a throwing callback |
| KyselyValues.CallerGetsTheUsersValue | src/integrations/kysely-outbox-scope.ts:133-142 | a value that the caller of a session gets is the one the user's callback returned, with nothing gone wrong and COMMIT acknowledged |
| KyselyValues.AdmittedWhileTheCallbackRuns | src/integrations/kysely-outbox-scope.ts:41-55 | the driver lets calls in exactly until the user's callback settles |
| KyselyValues.SessionNeverStuck | src/integrations/kysely-outbox-scope.ts:104-108 | until the transaction is over something that a session awaits can come, while the driver drains as well |
| KyselyDriver.KyselyRun.Deliver | src/integrations/kysely-outbox-scope.ts:18-143 | the driver and the run on top of a transaction object take the model's step for every event, handler by handler; what value that makes them return is stated by the KyselyValues rows |
| ControlledClock.WithFreshControlledClock | src/engine/controlled-clock.ts:8-36 | one to four attempts for the same request, each but the last turned away for its clock and each further one dated by the look before it or the wall clock, whichever is later; the answer is the last attempt's or that of a failed look; a reported settlement is on record; a token that lost its lease before the call never applies; if all calls go through, a final clock rejection means the job is gone or three other writers got in between |
| ControlledClock.Refresh | src/engine/controlled-clock.ts:25-33 | one look, and one more attempt at the latest known time if that is later: otherwise the rejection or the failed look is the answer |
| ControlledClock.AppliedAtMostOnce | src/engine/controlled-clock.ts:16-35 | at most one attempt of a call changed the record and only the last can have; a settlement or release then held the current unexpired lease; a lost reply is never replayed |
| ControlledClock.OutcomeIsKept | src/engine/controlled-store.ts:156-189 | whichever attempt is applied, the record after it is what the caller asked for when it sampled the time: a settlement finishes the job exactly if it asked for no retry, and then the job's own time stays; a retry is due the requested delay after its new date; a release only gives the lease up; a cancellation keeps it |
| ControlledClock.LostStays | src/engine/controlled-clock.ts:31-33 | a token that was issued and no longer holds the lease never holds it again, whatever others commit |
| ControlledClock.SettledAtMostOnce | src/engine/controlled-clock.ts:31-33 | in any history of a record, with any number of settlements sent for one token by anybody, at most one takes effect |
| ControlledClock.TokenSettlesOnce | src/engine/controlled-clock.ts:5-7 | over all calls ever made through the store, lost replies included, a token's applied settlement is the only one of the whole history |
| ControlledClock.SettledByOne | src/engine/controlled-store.ts:151-170 | what is on record as settled by a token was settled by exactly one commit |
| ControlledClock.OnRecordMeansSettled | src/engine/controlled-store.ts:151-170 | a token is on record only if one of its settlements took effect |
| ControlledClock.HistoriesAreSound | src/engine/controlled-clock.ts:31-33 | over any history no token settles twice, none that settled holds the lease, and a finished job is held by nobody |
| ControlledClock.AnswersAreTrue | src/engine/controlled-clock.ts:16-33 | the assumed store answers "applied" exactly when the record takes the mutation, and "already applied" only for a token that settled it, changing nothing |
| ControlledClock.CancellationIsCooperative | src/engine/controlled-store.ts:183-194 | a cancellation needs no lease and takes none: it records a request on an active job and ends one that nobody holds |
| ControlledClock.OthersNeverBackdate | src/engine/controlled-clock.ts:28 | over any writes of others the record's date does not go back and a removed job stays removed |
| ControlledDispatch.Mutation | src/engine/controlled-store.ts:111-194 | settle, release and cancel: success means that the last attempt was applied or, for a settlement only, that one with the same token was; nothing is sent exactly when the job or its policy cannot be read; without an enabled policy one native call whose answer is passed on; with one, the caller sees success, the operation's own errors or a store failure, and if every call goes through a mutation is applied unless the job is gone, the record refuses it whatever its date, or others dated the record again in all three windows |
| ControlledDispatch.SurfacedErrors | src/engine/controlled-store.ts:67-80 | the operation's own errors and store failures pass as they are; every other error becomes a failure of that operation, retryable exactly if the policy was redeployed |
| ControlledDispatch.Claim | src/engine/controlled-store.ts:94-150 | fails closed: a queue declaring controls is never claimed natively, nor is one whose policy is enabled; a controlled claim names the revision just read, an unreadable policy claims nothing, and what was claimed is answered |
| ControlledDispatch.RecoverStalled | src/engine/controlled-store.ts:195-257 | what was recovered is reported unless a reply was lost or a name is bad, and then the answer is a failure; it is distinct and within the limit; the unfenced sweep takes no job of a registered queue with an enabled policy, and a fenced recovery only jobs of queues with one, even when the answer is an error; below the limit nothing it is responsible for is left |
| ControlledDispatch.TakenTogether | src/engine/controlled-store.ts:210-255 | a further operation on what is left keeps the whole free of duplicates and of unfenced recoveries |
| ControlledDispatch.NothingResponsibleLeft | src/engine/controlled-store.ts:244-256 | after the loop and the sweep no expired job of a registered queue is left |
| SafeIntegers.SafeSumIsExact | src/engine/outbox-retry.ts:26-28 | a rounded double sum of safe integers passes the safe-integer check exactly when the true sum is safe, and is then exact |
| SafeIntegers.WhenSumsAreExact | src/engine/outbox-retry.ts:28 | without the check a sum is right exactly up to 2^53 or when it is even |
| OutboxRetry.RetryIsExact | src/engine/outbox-retry.ts:7-45 | granted exactly when the inspected failed version with a job id, a valid clock and exact safe sums meets the one retry of it that the validator accepts, and invalid exactly when the validator refuses that one; then the date strictly grows, the record is not due before it, exactly the requested attempts are left and nothing else changes |
| OutboxRetry.RefusalIsExact | src/engine/outbox-retry.ts:12-32 | every other refusal gives the first guard that fails as its reason |
| OutboxRetry.OutboxRow.ConditionalRetry | src/integrations/postgres-outbox-retry.ts:14-55 | compare and swap on the whole inspected content; the only uncertain answer is "unconfirmed" |
| OutboxRetry.OutboxRetryAdapter.Retry | src/engine/outbox-retry.ts:54-67 | admits exactly while open |
| OutboxRetry.OutboxRetryAdapter.Drained | src/engine/outbox-retry.ts:63-65 | a settled write leaves the pending set |
| OutboxRetry.OutboxRetryAdapter.Close | src/engine/outbox-retry.ts:68-71 | closes and waits for what is pending now |
| OutboxProtocol.EveryWorldKeeps | src/engine/outbox-coordinator.ts:38-70 | any interleaving of administrators and publisher keeps the invariant behind the rows below |
| OutboxProtocol.VersionsAreConsumedOnce | src/engine/outbox-coordinator.ts:57-68 | every retry that takes effect consumes another failed version, the one its caller inspected, and no call takes effect twice |
| OutboxProtocol.StaleGuardNeverSucceeds | src/integrations/postgres-outbox-retry.ts:17-26 | the guard triple of a consumed version never recurs, so a call holding it changes nothing ever after |
| OutboxProtocol.OnlyFailedRecordsAreReset | src/engine/outbox-retry.ts:12-13 | administrators only move a record from failed to pending, and a published record stays published |
| OutboxProtocol.AttemptsAreBudgeted | src/engine/outbox-retry.ts:27 | attempts ever made never exceed the first budget plus everything granted |
| OutboxProtocol.ReportedRetryIsStored | src/engine/outbox-coordinator.ts:66-68 | success means the reported record is the stored one, a conflict changed nothing, "unconfirmed" is one of the two |
| OutboxProtocol.WriteGrants | src/integrations/postgres-outbox-retry.ts:16-43 | a write that meets the inspected row stores exactly the record it built |
| OutboxProtocol.GrantsAreValid | src/engine/outbox-retry.ts:33-44 | whatever row a retry left behind was accepted by the validator |
| OutboxProtocol.WhatEndsACall | src/engine/outbox-coordinator.ts:43-66 | a call is refused, with nothing written, exactly for unacceptable options, an unreadable record, a changed request or a record no valid retry of which can be built at that moment |
| OutboxProtocol.UndisturbedRetry | src/engine/outbox-coordinator.ts:38-70 | a retry that nobody disturbs resets the record exactly when it can be retried, and reports the row that is stored |
| EngineLifecycle.StepKeeps | src/engine/engine-session.ts:147-805 | every event of start, close, activations, clean-up and their replies writes only lines the specification allows and keeps the invariant |
| EngineGuarantees.EverySessionKeeps | src/engine/engine-session.ts:147-805 | hence so does every run, and between events all functions stand at an await |
| EngineGuarantees.AcquiredInOrder | src/engine/engine-session.ts:197-209 | connections are acquired in order, each at most once |
| EngineGuarantees.ReleasedInReverse | src/engine/engine-session.ts:796-803 | each acquired resource is released at most once, in reverse order, each release ending before the next begins |
| EngineGuarantees.NothingIsLeftHeld | src/engine/engine-session.ts:772-805 | once closed or failed, every acquired resource has been released and the runtime disposed whatever threw; no handle, resource or activation remains |
| EngineGuarantees.NothingStartsAfterDisposal | src/engine/engine-session.ts:755-805 | after disposal or the first release began nothing is acquired, probed or activated, the state never becomes ready, and disposal never follows a release |
| EngineGuarantees.AfterCloseOnlyClosed | src/engine/engine-session.ts:746-765 | after a close request the state only goes from stopping to closed, once, and no acquisition, runtime or activation begins |
| EngineGuarantees.ReadyIsComplete | src/engine/engine-session.ts:197-474 | a ready session holds every configured connection and, if it has anything to run, its runtime; it was not asked to close and has given nothing back |
| EngineReplies.ReadyNeedsEveryAnswer | src/engine/engine-session.ts:197-472 | a session that ever became ready has a sound configuration, and no answer to its start was bad: no acquisition failed, no connection was unusable, the runtime was made, and every configured probe ended and ended well |
| EngineReplies.StartupOutcome | src/engine/engine-session.ts:167-495 | a start that nobody closes ends disabled exactly without a configuration, ready exactly if the configuration is sound and every answer was good, and failed otherwise |
| EngineReplies.ProbesGoOn | src/engine/engine-session.ts:289-465 | after a good answer the next probe begins, unless the session looks for a close request before it and finds one; after the last the session is ready, unless one came |
| EngineReplies.ActivatesExactlyOnce | src/engine/engine-session.ts:574-640 | the first request of an activation starts it exactly when the session is ready, has a runtime and something to activate; later requests start nothing |
| EngineReplies.ActivationsCount | src/engine/engine-session.ts:606-651 | an activation has left a handle exactly when one of its starts was answered well, for workers after every plan was recovered; it goes on until all its calls were answered well, one was not or a close was requested |
| EngineReplies.ClosingReportsTheCleanup | src/engine/engine-session.ts:755-805 | closing reports a failure exactly when disposal or some release failed |
| EngineGuarantees.ClosingEnds | src/engine/engine-session.ts:755-765 | whatever happens to a session that was asked to close, further calls included, the replies that ever become due are bounded, and until it is closed one is due |
| EngineGuarantees.CallsPostponeNothing | src/engine/engine-session.ts:147-161 | on a session that was asked to close, start, close and the activations make no further reply due |
| EngineGuarantees.EveryReplyCounts | src/engine/engine-session.ts:147-805 | every reply lowers the bound |
| EngineSessions.EngineSession.Deliver | src/engine/engine-session.ts:72-805 | the session object takes the model's step for every event, handler by handler; what its answers lead to is stated by the EngineReplies rows |
| Graphs.AcceptsMeansNoReachableCycle | src/engine/flow-discovery.ts:147-157 | depth-first search with a path set accepts a node exactly when it reaches no cycle |
| Graphs.AllAcceptMeansAcyclic | src/engine/flow-discovery.ts:157 | accepting every node means the graph is acyclic, and conversely |
| FlowDiscovery.Visit | src/engine/flow-discovery.ts:147-156 | the recursion on sets of names decides that search on flows, terminating by the flows not yet on the path |
| FlowDiscovery.IndexParents | src/engine/flow-discovery.ts:146 | finds every flow by the identity of its parent job, and nothing else |
| FlowDiscovery.CheckNesting | src/engine/flow-discovery.ts:145-157 | accepts flows with distinct names and parents exactly when no flow is nested in itself all the way round |
| FlowDiscovery.CyclesAreNestingCycles | src/engine/flow-discovery.ts:145-156 | cycles of the search graph are exactly the chains "a child of the one is the parent job of the next" that close |
| FlowDiscovery.ResolveChildren | src/engine/flow-discovery.ts:100-127 | accepts exactly registered, undelayed, unkeyed children no two of which share connection, name and version |
| FlowDiscovery.Examine | src/engine/flow-discovery.ts:52-142 | accepts a provider exactly when it is a sound flow service with a new name and parent, or no flow at all |
| FlowDiscovery.DiscoverFlows | src/engine/flow-discovery.ts:44-158 | succeeds exactly for sound, distinct declarations without a nesting cycle, with their flows in order |
| FlowDiscovery.FlowsAreDistinct | src/engine/flow-discovery.ts:91-94 | flows discovered so far have distinct names and parent identities |
| FlowDiscovery.FlowsAreAsDeclared | src/engine/flow-discovery.ts:68-140 | the flows are those of the providers that declare one, in their order, each with its worker, its references resolved one by one and its one fan-out and one collect method |
| FlowInput.Inspector.InspectJson | src/flows/validation.ts:34-50 | decides the inspection below the current path and restores `seen` on return; terminates on every finite heap |
| FlowInput.AcceptsPlainAcyclicData | src/flows/validation.ts:34-50 | the inspection accepts exactly plain data with no reachable cycle |
| FlowInput.SharingIsAccepted | src/flows/validation.ts:49 | an object reached twice but not below itself is accepted |
| FlowInput.ObjectStore.Parse | src/flows/validation.ts:62 | parsing makes new objects only, which look exactly like the text |
| FlowInput.ObjectStore.Freeze | src/flows/validation.ts:51-56 | freezes everything below a copy and nothing that was there before |
| FlowInput.ObjectStore.CopyFlowInput | src/flows/validation.ts:57-74 | succeeds exactly for inspected input that JSON reproduces; the copy is deeply equal, and everything reachable from it is new and frozen |
| FlowInput.ReachableIsFrozen | src/flows/validation.ts:51-56 | frozen at every depth means every reachable object is frozen |
| FlowInput.ReachableStaysInside | src/flows/validation.ts:62 | nothing old can be reached from a copy |
| FlowResults.FlowResultReader.Enter | src/engine/flow-results.ts:29-42 | admits exactly while open |
| FlowResults.FlowResultReader.Leave | src/engine/flow-results.ts:43-45 | a settled read is no longer active |
| FlowResults.FlowResultReader.Close | src/engine/flow-results.ts:47-50 | closes and waits for what is active now |
| FlowResults.FlowResultReader.ReadPage | src/engine/flow-results.ts:57-108 | a foreign or ill-sized cursor, a bad limit and an unknown job are refused without asking the store; otherwise the page is filtered by the job's definition and only its cursor is added to those known |
| FlowResults.FlowResultReader.NextPage | src/engine/flow-results.ts:121-135 | one turn of the loop ends the collection rightly or goes on with a cursor never followed before |
| FlowResults.FlowResultReader.Collect | src/engine/flow-results.ts:117-137 | ends for every store, with the outcome its answers determine |
| FlowResults.FlowResultReader.All | src/engine/flow-results.ts:109-138 | a bound beyond the flow's limit is refused before any read; otherwise the above |
| FlowResults.CollectionIsDetermined | src/engine/flow-results.ts:117-137 | a collection has exactly one outcome for given answers of the store |
| FlowResults.EveryCollectionEnds | src/engine/flow-results.ts:117-137 | whatever the store answers, now and later, the collection comes to an outcome |
| FlowResults.CollectionIsTheFilter | src/engine/flow-results.ts:117-137 | for any paging of a manifest the result is the in-order filter of the whole manifest, or an error when that exceeds maxItems: never a truncation |
| FlowResults.SelectIsExact | src/engine/flow-results.ts:84-105 | what is selected are exactly the children of the definition, each once and in their order, each told with its own key and outcome |
| FlowResults.EndsOrGoesOn | src/engine/flow-results.ts:126-134 | store error, overflow, end of manifest and repeated cursor are the ends, and a fresh cursor the one way on |
| Interceptors.EveryChainKeeps | src/engine/mq-enhancers.ts:112-121 | for a chain of any length and any abort signal every run obeys the specification |
| Interceptors.BegunOnceInOrder | src/engine/mq-enhancers.ts:112-121 | every level begins at most once, outside in, through the admitted `next` of an interceptor that has not ended |
| Interceptors.EndedInsideOut | src/engine/mq-interceptor.ts:30-37 | a level ends only after every level begun inside it |
| Interceptors.NothingBeginsAfterAnEnd | src/engine/mq-interceptor.ts:17-28 | after any end nothing begins and no `next` is admitted: a late `next` never dispatches |
| Interceptors.NextIsSingleUse | src/engine/mq-interceptor.ts:17-24 | at most one call of a level's `next` is admitted, and none after its interceptor returned |
| Interceptors.AnswerOfEveryLevel | src/engine/mq-interceptor.ts:31-39 | a level answers what its interceptor answered, except that a value becomes the violation exactly when some `next` was refused before the level ended |
| Interceptors.DeliveryLeavesNothingRunning | src/engine/mq-interceptor.ts:34-37 | when the delivery has its answer everything begun has ended |
| Interceptors.NeverStuck | src/engine/mq-interceptor.ts:34-37 | until then some level can move, and every move lowers a bound |
| Interceptors.EnteredWithClearSignal | src/engine/mq-enhancers.ts:112-118 | an interceptor or the handler is entered only while no look of the delivery has found the signal aborted |
| Interceptors.EveryEventShows | src/engine/mq-interceptor.ts:17-39 | what an interceptor or the handler settles with is recorded as it came; a `next` is admitted exactly if it is the first and its interceptor has not settled; a level is entered exactly if its provider was found and its one look at the signal was clear |
| Interceptors.AbortInsideCanBeAnswered | src/engine/mq-enhancers.ts:112-120 | a run in which the handler's look finds the signal aborted and the interceptor around it answers a value |
| Interceptors.Invocation.Next | src/engine/mq-interceptor.ts:17-29 | the first call while open is admitted, any other is a violation |
| Interceptors.Invocation.Intercepted | src/engine/mq-interceptor.ts:31-36 | closes `next` when the interceptor settles |
| Interceptors.Invocation.Finish | src/engine/mq-interceptor.ts:37-39 | a violation replaces a value but not the interceptor's own error |
| Pipeline.RunGuards | src/engine/mq-enhancers.ts:94-102 | passes exactly when all guards accepted with a clear signal, otherwise reports what the first that did not did; two looks come before every guard that is asked |
| Pipeline.RunPipes | src/engine/mq-enhancers.ts:103-111 | the payload that comes out was decoded from its contract and is what the pipes alone make of the input, up to deep equality; without an abort it fails exactly as the pipes threaded through the storage boundary do, with the payload the failing pipe was given; two looks come before every pipe |
| Pipeline.WhatStopsThePipes | src/engine/mq-enhancers.ts:103-111 | when deep equality is respected, only a pipe that throws or an encoding that is refused stops the pipes: what was encoded always decodes |
| Pipeline.PipeOnce | src/engine/mq-enhancers.ts:103-111 | one pipe: two looks, and then the transformation and the boundary decide what comes out and what fails |
| Pipeline.Prepare | src/engine/mq-enhancers.ts:93-111 | guards, then pipes; aborted exactly if one of their looks was, and otherwise stopped by the first guard that refuses or exactly as the threaded pipes are |
| Pipeline.Dispatch | src/engine/mq-enhancers.ts:112-121 | runs the whole chain of `Interceptors` with the looks it makes |
| Pipeline.Conclude | src/engine/mq-enhancers.ts:112-134 | the chain's value is returned without another look; what it throws goes to the catch |
| Pipeline.Catch | src/engine/mq-enhancers.ts:121-134 | a cause goes to the first filter that does not decline it, with one look before each filter is asked and one after its answer; an aborted delivery is shown to none |
| Pipeline.CaughtOnce | src/engine/mq-enhancers.ts:123-134 | what the filters make of a cause is determined |
| Pipeline.Run | src/engine/mq-enhancers.ts:74-134 | the chain is reached only after all guards and pipes with a clear signal, with what the pipes produced; everything thrown goes to the filters; the abort comes out exactly if a look outside the chain found it and, once any look did, exactly if the chain answered no value |
| Pipeline.WhenTheAbortComesOut | src/engine/mq-enhancers.ts:112-134 | the two exact conditions for the abort to come out of a delivery |
| Pipeline.AbortInsideTheChain | src/engine/mq-enhancers.ts:112-120 | a delivery whose chain saw the abort and answers a value |
| Schema.EncodedValuesDecode | src/contracts/schema.ts:73-134 | whenever a value is encoded, decoding its text succeeds with a deeply equal value, for codecs and plain schemas |
| Schema.TextsTellValuesApart | src/contracts/schema.ts:100-120 | two values encoded to one text are deeply equal |
| Schema.EncodesExactlyWhen | src/contracts/schema.ts:73-120 | a value is encoded as a text exactly if its validated or encoded form survives JSON as that text, validation leaves it deeply equal, and with a codec the text reads back as the value |
| Schema.DecodesExactlyWhen | src/contracts/schema.ts:123-134 | a text decodes to a value exactly if it parses and the validator accepts it with that result |
| Schema.ValidatorByIdentityBreaksTheRoundTrip | src/contracts/schema.ts:115-119 | a validator that accepts one object by its identity encodes it and rejects every copy: the assumption on validators is needed |
| JsonText.BodyRoundTrip | src/contracts/queue-definition.ts:17-18 | every string, with controls, quotes and lone surrogates, reads back from its JSON text |
| JsonText.IntegerRoundTrip | src/contracts/queue-definition.ts:17-18 | every integer reads back |
| JsonText.TupleRoundTrip | src/contracts/queue-definition.ts:72-74 | every tuple of strings and integers reads back from its JSON text |
| JsonText.TupleTextIsInjective | src/contracts/queue-definition.ts:17-18 | different tuples never have the same text |
| JobIdentities.KeysTellIdentitiesApart | src/contracts/queue-definition.ts:72 | two jobs have the same key exactly when connection, queue, name and version agree |
| JobIdentities.NameKeysTellApart | src/engine/flow-discovery.ts:106 | two children have the same key exactly when connection, name and version agree |
| JobIdentities.QueueKeysTellApart | src/module/mq.registry.ts:70 | two queues have the same key exactly when connection and name agree |
| QueueDefinitions.GetQueueDefinition | src/contracts/queue-definition.ts:38-103 | rejects a class exactly when it declares something unsound or two jobs of one name and version |
| QueueDefinitions.JobsOfDefinition | src/contracts/queue-definition.ts:57-102 | a definition has the queue's names and one job for each property in order, named and versioned as declared, with the policy resolved for it, the contract it holds and a key of its own |
| Registry.MqRegistry.Initialize | src/module/mq.registry.ts:46-85 | publishes everything or nothing, once; succeeds exactly for usable, well declared providers with distinct queues, and otherwise names a fault that is there; the map then finds every job by its key and nothing else |
| Registry.InstancesAreExact | src/module/mq.registry.ts:52-68 | the instances registered are exactly those some provider has, each once |
| Registry.MqRegistry.Gather | src/module/mq.registry.ts:48-80 | the loop succeeds exactly then, and never through the duplicate-job rejection |
| Registry.MqRegistry.AddJobs | src/module/mq.registry.ts:74-78 | adds all jobs of a new queue; no duplicate can occur |
| Registry.MqRegistry.Get | src/module/mq.registry.ts:37-39 | looks a job up by its key |
| Registry.MqRegistry.OnModuleDestroy | src/module/mq.registry.ts:87-91 | clears the snapshots |
| Registry.JobsOfOtherQueues | src/module/mq.registry.ts:70-78 | jobs of distinct queues have distinct keys |
| RetryReferences.WorkerAcceptsExactlyTheSamePolicy | src/engine/retry-reference.ts:27-67 | a worker accepts a publication exactly when its contract names the publisher's custom policy and version, or neither names one |
| RetryReferences.OverrideKeepsThePolicy | src/engine/retry-reference.ts:14-25 | an override for one message is accepted exactly when it is valid and names the declared policy and version |
| RetryReferences.MetadataIsKept | src/engine/retry-reference.ts:27-56 | metadata is refused only for not being string data or naming the reserved field, and is otherwise published unchanged |
| QueueControls.QueueControlsCoordinator.Check | src/engine/queue-controls.ts:33-57 | passes exactly for a capable store, an own or absent record and, when validating, the declared policy in force; otherwise the answer is the first check that fails |
| QueueControls.QueueControlsCoordinator.CheckAll | src/engine/queue-controls.ts:113-156 | passes exactly when every queue does, grouping them by connection without writing; otherwise it says why the first queue that does not pass does not |
| QueueControls.QueueControlsCoordinator.WriteAll | src/engine/queue-controls.ts:158-181 | writes connection by connection; a failing write leaves exactly the earlier ones written, and its own if only the reply was lost |
| QueueControls.QueueControlsCoordinator.Synchronize | src/engine/queue-controls.ts:110-183 | a failed check says why the first queue that does not pass does not, and leaves every store unchanged; validating never writes; success deploys every policy and reports of each queue whether its policy was created, updated or kept; a failed write leaves a prefix of the connections written, including its own exactly if only the reply was lost |
| QueueControls.DeployedPoliciesValidate | src/engine/queue-controls.ts:133-147 | after a successful reconcile a validating run with the same declarations and group succeeds |
| QueueControls.DeployingTwiceIsDeployingOnce | src/engine/queue-controls.ts:158-176 | a second reconcile keeps every record and revision |
| QueueControls.DeployingResumes | src/engine/queue-controls.ts:158-181 | a reconcile after one that stopped half-way ends where a single undisturbed one would |
| QueueControls.DeploymentTouchesOnlyDeclared | src/engine/queue-controls.ts:161-168 | records of undeclared queues and other connections are untouched |

## Left out

- The upstream engine and adapters (claim algorithms, permits, rate windows, schedule ticks, flow storage) are not in the repository; the rules assumed of them are listed above.
- SQL text, `pg` and Kysely internals, SQLite hosts and pragmas: foreign calls. Of the retry statement only its condition and its assignment are modelled.
- Nest wiring, decorators, service facades, `verifyProviders` and the lookup of providers: nothing to prove; what they find is an input.
- Field-by-field option validation (schedule, worker, SQLite, outbox and flow options) and `resolveJobPolicy`: easy members, taken as arbitrary predicates.
- Snapshot accessors of the engine session (`withStore`, `workers`, `scheduler`, `probe` and the like): each is one guard on `ready`.
- `EngineLifecycle` sums up the store checks of `initialize` as a list of awaits, each a success or a failure; the error classes and texts are not modelled.
- `outboxRetryAdapter` and its bind and close functions: one weak map entry per store.
- `flowChildEntry` and the identity of reference objects: references are compared by queue and property.
- `isDeepStrictEqual` ignores the order of properties; FlowInput.ObjectStore.CopyFlowInput compares in order, which JSON keeps. Non-enumerable own properties, which JSON drops without a trace, are not modelled.
- FlowDiscovery.DiscoverFlows: does not say which of the two error codes a rejected application gets, because several faults may be present at once.
- QueueControls.QueueControlsCoordinator.Synchronize: does not fix the record snapshots inside a report, which copy what the store answers.
- Time, timers and grace periods: a wait is a reply that may come at any moment.
- Hashes and record digests: compared as they are.
