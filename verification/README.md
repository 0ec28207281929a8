# Deckhand broker: verified model

Deckhand's broker accepts typed requests, turns them into durable jobs, and lets
workers, reconcilers and cancellers move those jobs through one SQLite store while
plugin adapters do the remote work. This project models that engine and proves what
holds of **every run, for any number of concurrent actors and any interleaving**.
`dafny verify dfyconfig.toml` checks all of it.

## How it is built

| file | models |
|---|---|
| `Clock.dfy` | UTC `datetime`s, `isoformat()` text, SQLite's text comparison |
| `Models.dfy` | job states and transition table, requests, digested projections, development policy |
| `JobStore.dfy` | the three tables as values, one function per transaction |
| `Store.dfy` | the store object: tables updated in place, hash-chained audit rows, each method proved against its transaction function |
| `AuditReplay.dfy` | what can be read back from the audit log: replay, state paths, counts |
| `AuditChain.dfy` | the hash chain: joining, appending, verifying, binding |
| `EventFeed.dfy` | the event stream's cursor loop beside concurrent appends |
| `Engine.dfy` | workers, reconcilers, cancellers, expirers and API handlers as one labelled state machine |
| `EngineInvariant.dfy`, `EngineSteps.dfy`, `EngineEvolution.dfy`, `Approvals.dfy` | the inductive invariants and their preservation by every step |
| `EngineHistory.dfy` | the record of claims and adapter calls is determined by the run's steps |
| `EngineTheorems.dfy`, `ApprovalTransfer.dfy` | the results over whole runs |
| `Attendance.dfy` | which jobs are in an actor's hands; a job in nobody's hands keeps its row |
| `Stranded.dfy`, `Parked.dfy`, `Offering.dfy` | when an interrupted job is taken up again, and when it is not |
| `Passes.dfy` | what a whole pass of a worker, reconciler or canceller writes, read off its labels |
| `Endings.dfy`, `Evidence.dfy` | exactly when a job ends in each terminal state, and when a recorded execution is lost |
| `Requests.dfy` | who asked: jobs go back to submissions, cancellations and spent confirmations to their owners |
| `Progress.dfy` | which steps can happen in a reachable state, each in one way; a queued job can always be claimed |
| `Scenarios.dfy`, `Crowding.dfy` | concrete runs that reach what the files above describe |
| `Resilience.dfy`, `GuardRuns.dfy`, `GuardCalls.dfy` | the resilience guard object, any number of concurrent calls through it, and one call's way among them |
| `Framing.dfy`, `JsonGate.dfy` | the plugin host's frames over a splitting socket, and its JSON gate |

One engine step is one store transaction or one adapter reply. Between two of its own
steps an actor carries only what the program carries in local variables: the fence it
was given, the candidates it claimed, the possibly stale view it read. Adapters may
return anything; an exception the program does not catch, a catalog refusal and process
death are all the same step, `Crash`. A transaction that raises changes nothing
(apps/broker/src/deckhand/store.py:106-118). No safety result assumes that clocks
advance, that lease tokens are fresh, or that an adapter behaves.

## Where code and documentation differ

- The startup comment says the chain check detects truncation
  (apps/broker/src/deckhand/api.py:86-87). It does not: every prefix of a valid chain
  verifies (`AuditChain.PrefixVerifies`). A cut shows only against a remembered last
  hash (`AuditChain.TamperingShows`).
- A plan-time approval is meant to authorize the matching execution
  (apps/broker/src/deckhand/digests.py:28-34). It does so **if and only if** the mode is
  not typed or the target's name is ASCII: `hmac.compare_digest` raises on any other
  text, so such a challenge can never be answered
  (`ApprovalTransfer.PlannedApprovalTransfers`, with the input in
  `ApprovalTransfer.NonAsciiNameCannotBeConfirmed`).
- Not every interrupted job is recovered. A reconciler that dies after its first write
  leaves a VERIFYING job without a lease (`Scenarios.StrandedIsReachable` is such a run).
  From then on its row does not change until somebody asks to cancel it
  (`Stranded.StrandedStaysStranded`). A VERIFYING job can move without such a request
  **if and only if** it has a lease or somebody is at work on it
  (`Stranded.MovesExactlyWhenHeld`); the canceller is the way out, to CANCELLED or back to
  UNKNOWN_OUTCOME (`Stranded.CancellerIsTheWayOut`).
- An UNKNOWN_OUTCOME job within its budget is not always offered again, although only spent
  jobs are described as parked (apps/broker/src/deckhand/store.py:406-410): the limit of 100
  rows is applied before spent jobs are skipped, and a spent job keeps its old update time.
  The next pass may offer a job **if and only if** its budget lasts and fewer than 100
  UNKNOWN_OUTCOME jobs are strictly older by update time (`Parked.PassOffersExactly`). While
  nobody asks to cancel them, spent jobs stay parked (`Parked.SpentStaysParked`), and once
  there are 100 of them no pass selects a job updated after all of them
  (`Parked.CrowdedOut`), which then keeps its row for good (`Parked.WaitingStaysParked`).
  Over all continuations without a request to cancel, a job in nobody's hands can be offered
  **if and only if** its budget lasts and fewer than 100 spent jobs are strictly older, given
  that those too are in nobody's hands (`Offering.OfferableExactly`).
  `Crowding.CrowdedOutIsReachable` is a run into that state.
- A job that ran may end FAILED. It is FAILED **if and only if** a worker that held the lease
  reported an error that needs no reconciliation, or a reconciler an error never to be
  retried (`Endings.EndedExactly`, step by step `Endings.EndsExactly`);
  `Scenarios.FailsAfterRunning` is a run in which the execution had been recorded, because
  the adapter's guard reports an `observe` that times out as such an error
  (apps/broker/src/deckhand/resilience.py:287-305). A failed job's execution, if it had one, may
  also be lost, as follows.
- A recorded execution is not always kept. It survives a step **if and only if** the step
  is neither a worker's failure write under the held lease nor an allowed unfenced write
  from a view that lacks it (`Evidence.ExecutionSurvivesStep`, over runs
  `Evidence.ExecutionSurvivesExactly`). Each of the four kinds of erasing write happens in a
  concrete run (`Scenarios.WorkerErases`, `Scenarios.CancellerErases`,
  `Scenarios.BeginningErases`, `Scenarios.SettlingErases`); the compare-and-set on QUEUED
  never erases (`Evidence.CompareErasure`), and the lease sweep keeps the result
  (`EngineTheorems.SweepParks`).
- Submitting a confirmed request a second time with its spent token does not return the job
  it created. Any request reaches the lookup of its key **if and only if** the catalog takes
  it, it is no dry run and, for a mutation, mutations are on and the store accepts the
  confirmation its action asks for (`ApprovalTransfer.LookupReachedExactly`); a spent token is
  never accepted again (`ApprovalTransfer.SpentTokenIsRefused`). Replays that return the
  existing job (`Requests.ReplayDecides`) are those that get past that point.

## Model

| member | source | states |
|---|---|---|
| `EngineTheorems.AtMostOnceExecution` | apps/broker/src/deckhand/worker.py:28-39 | in every run `execute` is called at most once per job, counted over the run's own steps, and at most once per idempotency key, and each job is claimed at most once |
| `EngineTheorems.BoundedLife` | apps/broker/src/deckhand/store.py:405-435 | with budget k a job's audit path has at most 2k+5 entries, i.e. 2k+4 state changes; moves back into VERIFYING plus claims not yet begun never exceed the attempts counted, which never exceed k |
| `EngineTheorems.ExhaustedOnce` | apps/broker/src/deckhand/store.py:428-433 | `reconcile_exhausted` is in the log once if the budget is used up and not at all otherwise |
| `EngineTheorems.AuditRebuildsJobs` | apps/broker/src/deckhand/store.py:162-182 | in every reachable state, folding the audit log from empty gives exactly the jobs table's ids, digests, subjects, states, results and errors |
| `EngineTheorems.AuditPathIsAllowed` | apps/broker/src/deckhand/state_machine.py:8-36 | the state events of a job form a path of allowed transitions from QUEUED to its current state; an unknown id has none |
| `EngineTheorems.LeasesAreWellFormed` | apps/broker/src/deckhand/store.py:232-243 | lease columns are all set or all null, RUNNING has a lease, a lease means RUNNING or VERIFYING, a VERIFYING job without one has a counted reconcile attempt |
| `EngineTheorems.LostFenceStaysLost` | apps/broker/src/deckhand/store.py:254-304 | once a claimed job no longer carries a token, every later transition or renewal under it fails and changes nothing, in every continuation of the run |
| `EngineTheorems.ObservedBeforeSuccess` | apps/broker/src/deckhand/worker.py:47-66 | a SUCCEEDED job's result holds an observation that `observe` returned for it and a satisfied verification that `verify` later returned from that observation and the recorded execution; which passes succeed is stated by the rows on passes and endings |
| `Passes.WorkerWritesWhatItHeard` | apps/broker/src/deckhand/worker.py:28-79 | over any interleaving, by labels and rows: a worker's pass that ends in its last write leaves the job SUCCEEDED, with exactly the execution, observation and verification its calls returned, if and only if `verify` returned a satisfied one; otherwise UNKNOWN_OUTCOME or FAILED as the error says, with that error, and `conflict` for an unsatisfied verification; without the row's token nothing changes |
| `Passes.WorkerRecordsExecution` | apps/broker/src/deckhand/worker.py:39-43 | over any interleaving, what `execute` returned is in the row, VERIFYING under the same lease, before the worker goes on, exactly if it still holds the RUNNING job; otherwise its pass ends with nothing changed |
| `Passes.ReconcilerWritesWhatItHeard` | apps/broker/src/deckhand/reconciler.py:37-80 | over any interleaving, a reconciler's pass over a job leaves it SUCCEEDED with the evidence added to what the view held if and only if `verify` returned a satisfied verification and the job is still open; FAILED for an error never to be retried, UNKNOWN_OUTCOME for any other |
| `Passes.ReconcilerBegins` | apps/broker/src/deckhand/reconciler.py:34-36 | the first write makes the job VERIFYING with the view's result and error exactly if it is UNKNOWN_OUTCOME or RUNNING; otherwise the pass ends with nothing changed |
| `Passes.PassTakes` | apps/broker/src/deckhand/store.py:405-435 | in every run a pass takes exactly the selected jobs whose budget lasts, as their rows stood, in the query's order |
| `Passes.CancellerWritesWhatItHeard` | apps/broker/src/deckhand/cancellation.py:54-97 | over any interleaving, the row becomes what the adapter's reply says about the row as the canceller had read it: CANCELLED with the cancellation added to the result, UNKNOWN_OUTCOME from a busy state, or nothing |
| `Passes.RaceOnQueued` | apps/broker/src/deckhand/cancellation.py:32-52 | over any interleaving, the compare-and-set cancels exactly a job that is still QUEUED; otherwise it changes nothing, and the canceller reads again and asks the adapter exactly if the job has not ended |
| `Passes.ClaimGivesTime` | apps/broker/src/deckhand/worker.py:21-30 | in every run a claim makes a QUEUED job RUNNING under the worker's token, and while nobody writes the row a sweep takes it if and only if its clock is past the claim plus the action's timeout plus 15 seconds (30 seconds for a request the catalog no longer takes) |
| `Passes.RenewalGivesTime` | apps/broker/src/deckhand/worker.py:44-46 | in every run the same holds from the renewal on for a worker whose token the row carries; for any other the renewal changes nothing |
| `Endings.EndsExactly` | apps/broker/src/deckhand/worker.py:57-79 | after any step a job is in a given terminal state if and only if it was, or the step is a write that ends it so, listed by label, actor and row: success of a worker or reconciler, a fatal error, an owner's cancellation, queue expiry |
| `Endings.EndedExactly` | apps/broker/src/deckhand/reconciler.py:37-80 | in every run a job is SUCCEEDED, FAILED, CANCELLED or EXPIRED if and only if one of the steps so far was such a write |
| `Requests.HonestCancellation` | apps/broker/src/deckhand/cancellation.py:23-97 | a CANCELLED job has an earlier request to cancel it by its own subject name and device, and either went straight from QUEUED, never claimed nor executed, or its adapter had reported `cancelled` |
| `Requests.RequestGoesForward` | apps/broker/src/deckhand/cancellation.py:23-31 | in every step a request to cancel changes anything if and only if it comes from the owner's name and device for a known job that has not ended, and then only where its canceller stands |
| `Requests.JobWasSubmitted` | apps/broker/src/deckhand/api.py:346-383 | in every run every job goes back to a submission of exactly its request by exactly its subject that was no dry run, and, if its action is a mutation, came with mutations on and, if one is asked for, an accepted confirmation |
| `Requests.SubmissionMakesTheJob` | apps/broker/src/deckhand/api.py:357-384 | over any interleaving, submit, authorize, create adds one QUEUED row that is the request's in every column, or nothing if its key has a job |
| `Requests.PlanIssuesExactly` | apps/broker/src/deckhand/api.py:290-329 | a plan issues a challenge if and only if its action is an allowed mutation that asks for one, unused and in every column the request's, and records a denial exactly for a mutation while mutations are off |
| `Requests.UsedExactly` | apps/broker/src/deckhand/store.py:511-579 | in every run a confirmation is used if and only if one of the steps so far was a submission by its own subject that answers it, or its own subject dropping it |
| `Requests.DropNeedsOwner` | apps/broker/src/deckhand/store.py:558-579 | a request to drop a confirmation changes anything if and only if it comes from its own name and device while it is unused, and then marks just that row |
| `Requests.ReplayDecides` | apps/broker/src/deckhand/store.py:148-161 | in every run, under a hash that tells requests apart, a later request under a job's key is answered with the job as it stands if and only if it agrees with the job's request in every field but token and typed answer; any other is refused, and no row is added |
| `Progress.NobodyIsStuck` | apps/broker/src/deckhand/worker.py:28-79 | in every reachable state a step can happen if and only if the actor's place and the queried rows, compared by instants, allow it, whatever the reply, and then it has one outcome |
| `Progress.QueuedCanBeClaimed` | apps/broker/src/deckhand/store.py:203-252 | in every reachable state with a queued job and an idle worker, a claim of an oldest queued job is possible at any clock reading the calendar leaves room for |
| `EngineTheorems.TransitionAnswers` | apps/broker/src/deckhand/store.py:276-334 | the answer of a transition is the row as written, with the state, result and error asked for, and otherwise the first check that failed with nothing changed |
| `EngineTheorems.OffersAsSelected` | apps/broker/src/deckhand/store.py:418-435 | the views handed to the reconciler are the selected rows within budget as they stood before the transaction, each once, in the query's order |
| `EngineTheorems.TerminalIsFinal` | apps/broker/src/deckhand/state_machine.py:25-30 | a terminal row never changes again in any column, a row never disappears, QUEUED is never entered again |
| `EngineTheorems.ReplayedSubmission` | apps/broker/src/deckhand/store.py:148-161 | a key belongs to one job for good: any later submission under it finds that job, returns it unchanged when the digests agree and is refused otherwise |
| `EngineTheorems.ApprovalsAreConserved` | apps/broker/src/deckhand/api.py:346-383 | jobs that need a confirmation map one-to-one into consumed confirmations with the same digest, subject name, device and control |
| `EngineTheorems.SpentAtMostOnce` | apps/broker/src/deckhand/store.py:523-579 | a confirmation is consumed or cancelled at most once in total, exactly when its row is marked used |
| `EngineTheorems.SweepFollowsTheClock` | apps/broker/src/deckhand/store.py:341-345 | the text query selects exactly the RUNNING or VERIFYING jobs whose lease instant is past |
| `EngineTheorems.QueueExpiryFollowsTheClock` | apps/broker/src/deckhand/store.py:375-382 | the text query selects exactly the QUEUED jobs created before the cutoff instant |
| `EngineTheorems.ClaimsTheOldest` | apps/broker/src/deckhand/store.py:219-224 | no queued, unleased job is older than the one a worker claims |
| `EngineTheorems.LeaseCoversTheAction` | apps/broker/src/deckhand/worker.py:21-26 | a sweep takes a freshly claimed job if and only if its clock is past claim time plus the action's timeout plus 15 seconds |
| `EngineTheorems.RenewalCoversTheAction` | apps/broker/src/deckhand/store.py:254-274 | a renewal is granted only to the token's holder, and then a sweep takes the job if and only if its clock is past the renewal plus the lease |
| `EngineTheorems.SweepParks` | apps/broker/src/deckhand/store.py:346-369 | each selected row becomes UNKNOWN_OUTCOME with its lease cleared, its result kept and the error `lease_expired` that asks for reconciliation, every other row stays, and the log grows by one lease-expired event per row in the rows' order |
| `EngineTheorems.BudgetDecidesOffers` | apps/broker/src/deckhand/store.py:418-435 | a selected job is offered, with one attempt counted, exactly while its attempts are below the budget; nothing else about any row changes |
| `EngineTheorems.QueueExpiryRetires` | apps/broker/src/deckhand/store.py:383-395 | exactly the selected rows become EXPIRED with their result kept, every other row stays |
| `Stranded.StrandedStaysStranded` | apps/broker/src/deckhand/store.py:342-344 | over any stretch of any run, a VERIFYING row without a lease that no reconciler or canceller is working on is unchanged in every column as long as nobody asks to cancel that job |
| `Stranded.StuckStep` | apps/broker/src/deckhand/store.py:276-334 | every step other than a request to cancel that job keeps its row, and nobody takes it up |
| `Stranded.MovesExactlyWhenHeld` | apps/broker/src/deckhand/reconciler.py:20-36 | in every reachable state, given for a leased job a clock reading past its lease, a VERIFYING job can be changed by some continuation without a new request to cancel it if and only if it has a lease or a reconciler or canceller is working on it |
| `Stranded.CancellerIsTheWayOut` | apps/broker/src/deckhand/cancellation.py:54-96 | for any VERIFYING job the owner's request, a reply that calls for a write and that write are a path that takes the row to CANCELLED or UNKNOWN_OUTCOME as the reply says |
| `Attendance.UnattendedStep` | apps/broker/src/deckhand/store.py:276-334 | a leaseless VERIFYING or UNKNOWN_OUTCOME job in nobody's hands keeps its row in every step but a request to cancel it or a pass that offers it, and stays in nobody's hands |
| `Parked.SelectedExactly` | apps/broker/src/deckhand/store.py:413-417 | the query can return an UNKNOWN_OUTCOME row if and only if fewer than `limit` of them are strictly older by update instant |
| `Parked.PassOffersExactly` | apps/broker/src/deckhand/store.py:411-435 | in every state with a reconciler at that point, some pass offers the job if and only if its attempts are below the budget and fewer than 100 UNKNOWN_OUTCOME jobs are strictly older |
| `Parked.SpentStaysParked` | apps/broker/src/deckhand/store.py:405-422 | over any stretch of any run, a spent job in nobody's hands keeps its row in every column until somebody asks to cancel it |
| `Parked.CrowdedOut` | apps/broker/src/deckhand/store.py:413-422 | over any stretch of any run in which nobody asks to cancel any of 100 or more spent jobs, they keep their rows and no pass selects a job updated after all of them |
| `Parked.WaitingStaysParked` | apps/broker/src/deckhand/store.py:413-435 | a job behind such a crowd, whatever is left of its budget, keeps its row until somebody asks to cancel it or one of them |
| `Offering.OfferableExactly` | apps/broker/src/deckhand/reconciler.py:20-81 | in every reachable state, an UNKNOWN_OUTCOME job in nobody's hands, whose spent elders are too, is offered by some continuation without a request to cancel if and only if its budget lasts and fewer than 100 spent jobs are strictly older |
| `Crowding.CrowdedOutIsReachable` | apps/broker/src/deckhand/store.py:411-422 | a run, for any budget of at least one, ends with 100 spent jobs and a job within its budget behind them that no continuation without a request to cancel offers |
| `Scenarios.SuccessIsReachable` | apps/broker/src/deckhand/worker.py:28-66 | a run of one worker from the empty store to a SUCCEEDED job with its evidence |
| `Scenarios.FailsAfterRunning` | apps/broker/src/deckhand/worker.py:39-79 | a run in which a job whose execution is recorded becomes FAILED because observing it raised |
| `Scenarios.StrandedIsReachable` | apps/broker/src/deckhand/reconciler.py:34-38 | submit, claim, crash, sweep, take, begin, crash ends in a VERIFYING row without a lease and with every actor idle |
| `Evidence.ExecutionSurvivesStep` | apps/broker/src/deckhand/store.py:305-321 | a row that holds an execution still holds it after a step if and only if the step is not a failure write under the held lease nor an allowed unfenced write from a view without it |
| `Evidence.ExecutionSurvivesExactly` | apps/broker/src/deckhand/worker.py:38-79 | over any stretch of any run the execution stays on the row throughout if and only if no step of the stretch is such a write |
| `Evidence.CargoStepOk` | apps/broker/src/deckhand/worker.py:39-46 | every step keeps: no result before VERIFYING, and a worker that still holds the lease carries exactly the execution its row records |
| `Evidence.CompareErasure` | apps/broker/src/deckhand/cancellation.py:38-45 | the compare-and-set on QUEUED never erases an execution, whatever view it writes from |
| `Scenarios.WorkerErases` | apps/broker/src/deckhand/worker.py:72-79 | a run in which the worker's own failure write erases the execution it recorded |
| `Scenarios.CancellerErases` | apps/broker/src/deckhand/cancellation.py:82-96 | a run in which a canceller that read the job before erases the execution recorded since |
| `Scenarios.BeginningErases` | apps/broker/src/deckhand/reconciler.py:34-36 | a run in which a second reconciler's first write erases an execution |
| `Scenarios.SettlingErases` | apps/broker/src/deckhand/reconciler.py:67-80 | a run in which a reconciler's last write erases an execution |
| `EngineTheorems.RunOk` | apps/broker/src/deckhand/store.py:148-579 | both invariants hold in every state of every run |
| `EngineHistory.HistoryIsFaithful` | apps/broker/src/deckhand/worker.py:38-66 | the recorded claims and adapter traffic are exactly what the run's steps did, in order |
| `EngineSteps.EngineStepOk` | apps/broker/src/deckhand/worker.py:28-79 | every step of every actor keeps the engine invariant |
| `EngineSteps.SettleOk` | apps/broker/src/deckhand/reconciler.py:37-80 | the last write of a worker's or reconciler's pass, with all its targets and failures, keeps the invariant |
| `EngineSteps.BeginReconcileOk` | apps/broker/src/deckhand/reconciler.py:23-36 | the unfenced move to VERIFYING spends one claim and keeps the invariant |
| `EngineSteps.ApplyCancelOk` | apps/broker/src/deckhand/cancellation.py:54-97 | every write a cancellation reply leads to keeps the invariant |
| `EngineSteps.CompareAndCancelOk` | apps/broker/src/deckhand/cancellation.py:32-52 | the compare-and-set on QUEUED, won or lost, keeps the invariant |
| `EngineEvolution.StepAdvances` | apps/broker/src/deckhand/store.py:276-334 | in every step rows only advance (identity and creation time fixed, attempts never fall, terminal rows frozen, tokens never reinstated) and log and history only grow |
| `Approvals.ApprovalsStepOk` | apps/broker/src/deckhand/policy.py:53-70 | every step keeps the one-to-one assignment of consumed confirmations to jobs and to handlers in flight |
| `AuditReplay.WalkIsBounded` | apps/broker/src/deckhand/state_machine.py:8-31 | any path of allowed transitions from QUEUED is at most 2r+5 long when it re-verifies r times, stays within eight states and never returns to QUEUED |
| `AuditReplay.EveryStateHasItsPlace` | apps/broker/src/deckhand/state_machine.py:8-36 | every state is reached from RECEIVED, exactly the terminal ones cannot be left, only UNKNOWN_OUTCOME leads back; rejection, expiry, cancellation and outcomes are possible exactly in their stages |
| `ApprovalTransfer.PlannedApprovalTransfers` | apps/broker/src/deckhand/store.py:437-556 | at any later moment at which a plan-time challenge is the newest unused one, every execute request with the same authority and control is accepted in time with token and name, if and only if the mode is not typed or the name is ASCII |
| `ApprovalTransfer.NonAsciiNameCannotBeConfirmed` | apps/broker/src/deckhand/store.py:552-555 | the right answer for a non-ASCII name raises |
| `ApprovalTransfer.RefusedAttemptChangesNothing` | apps/broker/src/deckhand/store.py:511-556 | an attempt that is not accepted leaves confirmations and jobs alone; a rejection is logged with its reason, and each reason is given exactly for the first thing wrong, a raise exactly for a comparison outside ASCII; an accepted attempt marks exactly the selected row |
| `ApprovalTransfer.AcceptedMeansIntended` | apps/broker/src/deckhand/store.py:533-556 | with injective hashes, acceptance implies the same authority, control, subject, token and, when typed, answer, before expiry |
| `ApprovalTransfer.RunKeepsRow` | apps/broker/src/deckhand/store.py:558-579 | over any run a confirmation row stays as issued until it is marked used, and then for good |
| `ApprovalTransfer.JobWasPlannedAndApproved` | apps/broker/src/deckhand/digests.py:25-47 | every job that needs a confirmation goes back to an earlier plan in the run for the same action, version, target, parameters and control by the same subject and device, whose challenge it alone consumed |
| `ApprovalTransfer.LookupReachedExactly` | apps/broker/src/deckhand/api.py:357-381 | any request gets to `create_job` if and only if the catalog takes it, it is no dry run and, if its action is a mutation, mutations are on and a confirmation its action asks for was accepted; otherwise the handler ends with jobs and confirmations as they were and at most the policy's denial recorded |
| `ApprovalTransfer.SpentTokenIsRefused` | apps/broker/src/deckhand/store.py:511-531 | in every run, resubmitting with the token of a spent challenge, under any key, changes neither jobs nor confirmations and ends before the key is looked up, as long as no other challenge has that token |
| `Clock.TextOrderIsTimeOrder` | apps/broker/src/deckhand/store.py:219-230 | comparing `isoformat` texts, with or without a fraction, is comparing instants, for all years 1 to 9999 |
| `Clock.IsoIsInjective` | apps/broker/src/deckhand/store.py:149 | distinct times have distinct texts |
| `Clock.NoInstantIsMissing` | apps/broker/src/deckhand/store.py:226-230 | every microsecond up to the end of year 9999 is some datetime, so the calendar's instants are fixed by their order |
| `AuditChain.LastHashBindsLog` | apps/broker/src/deckhand/store.py:612-629 | under an injective hash that never yields the genesis value, two verifying tables with the same last hash and separator-free fields are equal row for row |
| `AuditChain.LastHashBindsEvents` | apps/broker/src/deckhand/store.py:683-713 | two tables the store wrote that end in the same hash hold the same events at the same instants, given that distinct events of the two logs have distinct types or payload texts |
| `AuditChain.MaterialIsInjective` | apps/broker/src/deckhand/store.py:676-678 | the 0x1f join determines sequence, previous hash, time, type and payload |
| `AuditChain.RowIsBound` | apps/broker/src/deckhand/store.py:663-713 | in an intact table each row's hash is that of its number, previous hash, time, type and payload joined by 0x1f in this order, and the first previous hash is sixty-four zeros |
| `AuditChain.AppendKeepsChain` | apps/broker/src/deckhand/store.py:683-713 | an appended row links to its predecessor and keeps the chain intact |
| `AuditChain.WrittenTableVerifies` | apps/broker/src/deckhand/store.py:683-713 | every table made of appends verifies and is numbered 1, 2, 3, ... |
| `AuditChain.PrefixVerifies` | apps/broker/src/deckhand/store.py:612-629 | every prefix of a verifying table verifies |
| `AuditChain.TamperingShows` | apps/broker/src/deckhand/store.py:663-681 | a table that differs from a verifying one fails verification or ends in another hash |
| `AuditChain.VerifyChain` | apps/broker/src/deckhand/store.py:612-629 | the loop answers intact exactly for linked chains of ASCII hashes, broken only for broken ones, and raises only on broken ones when the hash is ASCII |
| `Store.Store.CreateJob` | apps/broker/src/deckhand/store.py:148-186 | tables and answer are those of the transaction function for the row the key lookup finds |
| `Store.Store.ClaimNextJob` | apps/broker/src/deckhand/store.py:203-252 | the oldest claimable job, if any, is leased under the given token; otherwise nothing changes |
| `Store.Store.RenewLease` | apps/broker/src/deckhand/store.py:254-274 | the lease is extended exactly for the holder of a RUNNING or VERIFYING job |
| `Store.Store.TransitionJob` | apps/broker/src/deckhand/store.py:276-334 | fence, expected state and allowed edge are checked in that order; state, result, error, lease and event change together or not at all |
| `Store.Store.ExpireLeases` | apps/broker/src/deckhand/store.py:336-369 | exactly the lapsed leases are expired, one after the other, in one transaction |
| `Store.Store.ExpireStaleQueued` | apps/broker/src/deckhand/store.py:371-395 | exactly the jobs queued before the cutoff expire |
| `Store.Store.ClaimReconcileCandidates` | apps/broker/src/deckhand/store.py:405-435 | the least recently updated unknown jobs, up to the limit, are offered and counted within the budget |
| `Store.Store.CreateConfirmation` | apps/broker/src/deckhand/store.py:437-488 | one unused row bound to digest, subject, control and, when typed, the target's name |
| `Store.Store.ConsumeConfirmation` | apps/broker/src/deckhand/store.py:490-531 | the newest unused row for the digest and subject is judged, and marked used exactly on acceptance |
| `Store.Store.CancelConfirmation` | apps/broker/src/deckhand/store.py:558-579 | an unused row is marked used exactly for its own subject and device |
| `Store.Store.RecordPolicyDenial` | apps/broker/src/deckhand/store.py:581-601 | the denial is one more audit event and nothing else |
| `Store.Store.AppendAudit` | apps/broker/src/deckhand/store.py:683-713 | one more chained row, the earlier ones untouched |
| `Store.Store.ListAuditEvents` | apps/broker/src/deckhand/store.py:603-610 | a page is the first rows beyond the cursor, at most 1000 |
| `Store.Store.VerifyAuditChain` | apps/broker/src/deckhand/store.py:612-629 | a store changed only by its own methods always verifies |
| `EventFeed.SentIsPrefix` | apps/broker/src/deckhand/api.py:448-465 | at every moment of every interleaving with appends, what was sent is a prefix of the rows beyond `after` |
| `EventFeed.EmptyPollMeansCaughtUp` | apps/broker/src/deckhand/api.py:452-459 | a poll returns nothing if and only if everything in the table has been sent |
| `EventFeed.PageIsExact` | apps/broker/src/deckhand/store.py:603-610 | a page is the first rows beyond the cursor, all of them unless the limit or a thousand cuts it off |
| `EventFeed.EventSource` | apps/broker/src/deckhand/api.py:448-465 | the loop over growing tables sends such a prefix, and one poll sends exactly one page |
| `GuardRuns.CircuitIsConsistent` | apps/broker/src/deckhand/resilience.py:100-180 | in every reachable state CLOSED means failures below the threshold, HALF_OPEN means a probe is marked, an opening time means not CLOSED, and the bucket is within bounds |
| `GuardRuns.AdmitsExactly` | apps/broker/src/deckhand/resilience.py:100-126 | in every run a call is admitted if and only if the circuit is CLOSED, or OPEN since at least `recovery_seconds`; any other is told that the plugin is unavailable |
| `GuardRuns.CircuitMovesExactly` | apps/broker/src/deckhand/resilience.py:144-180 | in every step of every run state, failure count and opening time move exactly as the recorded end of a call calls for: a transient failure counts, opens at the threshold and while half open; a success, or a permanent error while half open, closes |
| `GuardRuns.ClosedExactly` | apps/broker/src/deckhand/resilience.py:152-172 | in every run the failure count is the number of counting failures recorded since the circuit was last closed, and it is CLOSED if and only if they are fewer than the threshold |
| `GuardRuns.OneProbePerEpisode` | apps/broker/src/deckhand/resilience.py:115-126 | each half-open episode admits exactly one call, the one that began it |
| `GuardRuns.RefusalChangesNothing` | apps/broker/src/deckhand/resilience.py:108-125 | a refused call leaves the guard as it was |
| `GuardRuns.OpenCircuitHoldsBack` | apps/broker/src/deckhand/resilience.py:144-180 | a call admitted within `recovery_seconds` of an opening is preceded, since then, by a recorded success, and the first such success belongs to a call that a step before the circuit was seen open had admitted |
| `GuardRuns.RateIsBounded` | apps/broker/src/deckhand/resilience.py:128-142 | in every window of every run at most burst + rate * length tokens are handed out |
| `GuardRuns.GrantsExactly` | apps/broker/src/deckhand/resilience.py:128-141 | in every run a try gets a token if and only if one has accrued by then, and one token, plus what runs over the brim, is all that leaves the bucket |
| `GuardRuns.TokensAreConserved` | apps/broker/src/deckhand/resilience.py:128-141 | in every run tokens handed out, left and spilled add up to the burst plus the refill |
| `GuardRuns.SlotsAreConserved` | apps/broker/src/deckhand/resilience.py:182-252 | free permits plus holders equal `max_concurrency` after every step, so at most that many operations run |
| `GuardRuns.AllPermitsReturn` | apps/broker/src/deckhand/resilience.py:240-243 | when all calls are done, through whichever exits, every permit is back |
| `GuardRuns.TimeOutReports` | apps/broker/src/deckhand/resilience.py:212-223 | a call that times out reports an unknown outcome if and only if it is a mutation whose operation had started |
| `GuardRuns.UnknownMeansStarted` | apps/broker/src/deckhand/resilience.py:208-231 | in every run a call that reports an unknown outcome had started its operation, which timed out as a mutation or said so itself |
| `GuardCalls.RecordSaysWhatHappened` | apps/broker/src/deckhand/resilience.py:195-239 | whatever other calls do in between, a call's record does to the guard exactly what its last step before calls for |
| `GuardCalls.CallerHearsWhatHappened` | apps/broker/src/deckhand/resilience.py:195-239 | whatever other calls do in between, the caller gets the refusal, the value, the error, the timeout or the cancellation that ended its call |
| `GuardCalls.CancellationSkipsRecord` | apps/broker/src/deckhand/resilience.py:222-230 | a cancelled call that finishes without a record was about to record a failure or a cancellation, of which the guard never hears |
| `GuardCalls.SlotHeldExactly` | apps/broker/src/deckhand/resilience.py:202-243 | in every run a call holds a permit if and only if it was granted one and has not finished |
| `GuardCalls.StepsExactly` | apps/broker/src/deckhand/resilience.py:182-243 | in every reachable state a call's step is possible if and only if its place, and for the semaphore a free permit, allows it, and then has one outcome |
| `GuardCalls.SomeCallGoesOn` | apps/broker/src/deckhand/resilience.py:182-243 | the guard never deadlocks: while a call is not done some call can go on by itself at once, and a call waiting for a permit waits for a holder that can |
| `Resilience.SleeperSucceeds` | apps/broker/src/deckhand/resilience.py:138-142 | a waiter that sleeps the computed time undisturbed gets a token on its next try |
| `Resilience.ResilienceGuard.constructor` | apps/broker/src/deckhand/resilience.py:71-82 | a closed circuit, a full bucket and all permits |
| `Resilience.ResilienceGuard.EnterCircuit` | apps/broker/src/deckhand/resilience.py:100-126 | from a consistent guard, admission if and only if the circuit is CLOSED, or OPEN since at least `recovery_seconds`; a refusal changes nothing, and an admission into HALF_OPEN only marks the probe |
| `Resilience.ResilienceGuard.AcquireRateToken` | apps/broker/src/deckhand/resilience.py:128-142 | alone, the loop ends after at most one sleep however long the sleep overruns, having taken exactly one token |
| `Resilience.ResilienceGuard.RecordSuccess` | apps/broker/src/deckhand/resilience.py:144-150 | the circuit closes and forgets its failures |
| `Resilience.ResilienceGuard.RecordFailure` | apps/broker/src/deckhand/resilience.py:152-172 | refusals are ignored, other errors count or close as specified, consistency is kept |
| `Resilience.ResilienceGuard.RecordCancellation` | apps/broker/src/deckhand/resilience.py:174-180 | only a half-open circuit reacts, by opening again |
| `Framing.AllFramesParse` | apps/broker/src/deckhand/wasm_host_transport.py:275-313 | any sequence of framed payloads, followed by anything, is read back in full and in order |
| `Framing.ParsedIsFrame` | apps/broker/src/deckhand/wasm_host_transport.py:306-313 | whatever a read accepts is an encoding within the limit |
| `Framing.SizeOrderIsByteOrder` | apps/broker/src/deckhand/wasm_host_transport.py:306-307 | headers are ordered as the sizes they give, first differing byte deciding, which with the two inverse laws fixes the reading of all four-byte headers |
| `Framing.ReadFailsExactly` | apps/broker/src/deckhand/wasm_host_transport.py:294-309 | a bad size is reported exactly for a header that no allowed frame has, with its four bytes gone; an early close exactly inside a header or inside a frame |
| `Framing.EncodesExactly` | apps/broker/src/deckhand/wasm_host_transport.py:275-283 | a payload is sent as exactly the bytes that read back as it with nothing left over, and refused if there are none |
| `Framing.ObjectErrorsExactly` | apps/broker/src/deckhand/wasm_host_transport.py:310-313 | a framed payload is refused as not JSON exactly if it does not decode, as no object exactly if it decodes to something else |
| `Framing.Peer.RecvExact` | apps/broker/src/deckhand/wasm_host_transport.py:294-303 | exactly the next bytes, or a failure exactly when the peer closes first, however they are split |
| `Framing.Peer.ReadFrame` | apps/broker/src/deckhand/wasm_host_transport.py:306-309 | a zero or oversized length is refused with only the four header bytes consumed |
| `Framing.Peer.ReadObject` | apps/broker/src/deckhand/wasm_host_transport.py:306-313 | a value is returned if and only if the bytes begin with a frame whose payload decodes to it and it is an object; otherwise the failure and the bytes left are those of the parse |
| `Framing.ReadsExactlyObjects` | apps/broker/src/deckhand/wasm_host_transport.py:306-313 | parsing, decoding and the object check together accept exactly the framed objects |
| `Framing.RoundTrip` | apps/broker/src/deckhand/wasm_host_transport.py:275-313 | framing, sending in arbitrary chunks and reading gives back exactly the payloads |
| `JsonGate.GateIsExact` | apps/broker/src/deckhand/wasm_host_transport.py:316-346 | accepted are exactly the values whose every node is at most eight levels down and locally legal: sizes within 8192, 256 and 128, numbers finite, keys texts whose lower-cased form is no concatenation around one of eight words |
| `JsonGate.SecretKeyIsRefused` | apps/broker/src/deckhand/wasm_host_transport.py:337-344 | a value with, eight levels down or less, an object with a key whose lower-cased form is `before + word + after` for one of the eight words is not accepted |
| `JsonGate.SensitiveExactly` | apps/broker/src/deckhand/wasm_host_transport.py:341-343 | the key test finds a word if and only if the lower-cased key is such a concatenation, so a short key without one is never why a value is refused |
| `JsonGate.RefusalIsWitnessed` | apps/broker/src/deckhand/wasm_host_transport.py:316-346 | whatever is refused contains a node, at the depth of the traversal, that shows the reason given |
| `JsonGate.AcceptedIsBounded` | apps/broker/src/deckhand/wasm_host_transport.py:316-346 | an accepted value has at most (256^9 - 1) / 255 nodes |
| `JsonGate.BoundIsAttained` | apps/broker/src/deckhand/wasm_host_transport.py:329-345 | the full tree of that size is accepted |

## Left out

- SQLite itself, schema migration and the write probe: tables are maps and sequences, transactions are atomic, and a query's answer is any answer its text allows (ties included).
- SHA-256, HMAC, UUIDs and random tokens: hashes are arbitrary functions, injective only where a result says so; ids are fresh, lease tokens need not be.
- Worker, Reconciler and Canceller as objects: they are places in the engine's state machine, because what matters about them is their interleaving; `get_job` and `get_job_context` in a cancellation are one read, since the second reads only immutable columns.
- The plan handler's intermediate awaits: it makes at most one transaction, so it is one step; its adapter call has no effect on the store.
- Policies other than the development one: the rego policy is not part of this model.
- Metric updates, the texts of exceptions that reach no table, and the parts of a job view derived from the request: presentation only. The codes and messages of stored job errors are text; rejection and denial reasons are enumerations.
- `Resilience.TakeTokenKeepsBucket`, `GuardRuns.RateIsBounded`, `GuardRuns.GrantsExactly`, `GuardRuns.TokensAreConserved`: over exact reals; floating-point rounding of tokens and times is not modelled.
- `Framing.Peer.ReadObject`: the JSON decoder is a parameter; socket errors and timeouts are not modelled, nor is the asynchronous reader, which has the same framing.
- `str.lower` in the JSON gate is an arbitrary function; the results hold for any.
- Identity tokens, plugin loading, catalog and inventory schemas, the MCP server, the CLI, the macOS agent and the Stream Deck plugin: none of them writes the jobs, confirmations or audit tables except through the handlers modelled here, so they carry no property of jobs, approvals or the log beyond the request they hand over.
