# FerricStore client protocols in Dafny

FerricStore's Python SDK mostly builds commands.  What is hard about it sits in
the stateful protocols around those commands, and that is what this project
models and proves, with Dafny 4.11:

- **DurableStep** – a named step runs its closure at most when no result is
  journalled, and commits result and state move in one fenced command, among
  crashing workers, lease takeovers and lost replies.
- **WakeCredit**, **RateLimiter** – the per-worker wake queues with credit, and
  the token bucket with a multiplicative rate controller.
- **BudgetSettlement**, **EffectSettlement** – single-flight settlement tasks
  shared by callers that can be cancelled at any await.
- **QueueWorker**, **Completion**, **Rotation** – the claim-handle-finish loop,
  batched completion against per-job completion, and round-robin partitions.
- **WakeSubscription**, **TransactionMode**, **ProducerLoop** – lifecycle
  machines of the wake subscription, of transaction mode with its sessions, and
  of the background producer loop.
- **PredictedPipeline**, **WirePayload** (with **Doubles**), **SourceEdits** (with **Utf8**) –
  refinements: predicted tokens against the sequential chain, cyclic bulk
  payloads against single commands, right-to-left edits against left-to-right
  assembly.

`dafny verify dfyconfig.toml` checks everything.

## How to read it

Concurrent code is a state machine: a `State`, an `Action` type and a total
`Step` (an action that cannot happen changes nothing), so that "in every
interleaving" is a quantifier over action sequences (`Runs.Run`).  One step of
asyncio code is everything between two awaits; one step of threaded code is one
lock region or one queue operation.  An object whose methods update its fields is
a class; each method is one stretch of code without an await, or a whole method
where nothing interleaves, and is proved equal to the function that the machine
uses for that stretch.  Errors, failures and cancellations are actions or
parameters chosen by the environment.

Assumptions about what is not the SDK's own code:

- *Server of durable steps*: every claim and every continue issues a new fencing
  token, extending a lease changes no token, and no other mutation adds, changes
  or drops an entry of the step journal.  The first is what
  `examples/protocol_restate_latency_benchmark.py:135-136` predicts.
- *Errors of the commit command*: which errors can follow an applied commit is a
  parameter of the model.  `DurableStep.FinalIffClassified` says exactly for
  which the classification of `durable_step.py` is right;
  `DurableStep.AfterApply` names those of a usual deployment.  Its members do
  not include TypeError, ValueError and OverflowError: these are taken to mean
  that nothing was sent.
- *Names* of journal entries are digested; different names are taken to have
  different digests.
- *Batch matching* compares fingerprints; equal objects have equal fingerprints.
- *Locks of asyncio* are fair: a waiter that queued first is served first.
- *Time* is an input; rates and latencies are reals.

## What turned out false, and when it holds

- `docs/workflow.md:145-148` says that a reclaimed workflow with a committed
  result reads that result.  The code raises when the record has moved past the
  step's target state.  `DurableStep.ReplayReturnsIffInTargetState` gives the
  exact condition, `DurableStep.ReplayPastTheTargetRaises` an example.  The model
  follows the code.
- A call of `_take_credit` with a non-positive limit drops a wake token
  (`WakeCredit.TokenDroppedIffLimitNotPositive`); `next_partitions` never makes
  one.  `take_credit` can leave a second token for a partition behind
  (`WakeCredit.TakeCreditBreaksUniqueness`); a run keeps exactly one token per
  pending partition if and only if no `take_credit` hits a pending one
  (`WakeCredit.OneTokenIffNoTakeHitsPending`).
- A definite error of `step` is final if and only if no error that can follow an
  applied commit is classified as definite (`DurableStep.FinalIffClassified`).
- A limited rate stays below the release cap in all runs exactly when the minimum
  rate is below it (`RateLimiter.BelowCapIffMinimumIs`), and a request larger
  than a quarter of the rate never returns at that rate
  (`RateLimiter.GrantableIffWithinBurst`).
- `confirm` on an effect returns the result of a `fail` when a fail has closed the
  effect or is under way; `EffectSettlement.ConfirmReportsWhatSettles` says for
  every state of the helper what it reports, and
  `EffectSettlement.ConfirmReturnsAFail` is such a run.
- A worker cancelled from outside after `stop` ends normally and leaves the jobs
  in hand unsettled; of all steps it is the only one (`QueueWorker.NormalEndLosesIff`,
  with a run in `QueueWorker.StoppedAndCancelledLosesJob`).
  A run loses no job if and only if nothing breaks it off with jobs in hand
  (`QueueWorker.NothingLostIff`).  A worker whose task is cancelled before its
  first step stays marked running (`QueueWorker.EndsMarkedRunningIff`).
- Heartbeat and transaction mode fall out of step exactly when a pause raises
  after taking effect or a resume does not take effect
  (`TransactionMode.InStepIffNothingBreaks`, `TransactionMode.OneFailureBreaksStep`),
  and plain commands never repair it (`TransactionMode.StaysPaused`).
- A session whose MULTI fails on a shared client that was already in a
  transaction leaves that transaction on
  (`TransactionMode.FailedEnterKeepsForeignMode`); `TransactionMode.SessionsEndClean`
  has the exact condition.
- The producer loop waits for futures, not for coroutines: a cancelled operation
  can still be on the loop when the client is closed
  (`ProducerLoop.CancelledOperationCanOutliveClose`).  An operation is unfinished
  then if and only if its future was cancelled and its coroutine has not ended
  since (`ProducerLoop.UnfinishedAtCloseIffCancelled`).
- A `close` of the wake coordinator can return without having turned the
  subscription off: exactly when an earlier attempt was cancelled while it waited
  for the subscription lock (`WakeSubscription.WakeLifecycleIsSafe`).  A subscriber
  can then still acquire an owned client that stays open until the next close
  (`WakeSubscription.UnsealedReturnLeavesClient`,
  `WakeSubscription.NextCloseClosesClient`); no task is created any more
  (`WakeSubscription.ClosedCreatesNothing`).

## Model

| member | source | states |
|---|---|---|
| `DurableStep.DurableStepIsSafe` | src/ferricstore/async_client_mutations.py:224-294 | Over every interleaving of any number of calls with crashes, takeovers, delayed commits and lost replies: at most one result committed per name, every normal return carries it, no closure runs on a preflight that could have seen it, and, where the classification covers the errors that can follow an apply, a definite failure means this call committed nothing |
| `DurableStep.StepKeepsInv` | src/ferricstore/async_client_mutations.py:212-294 | The inductive invariant behind it (journal, snapshots, requests in the air, replies, phases) survives every action |
| `DurableStep.AcceptedNameIsFresh` | src/ferricstore/async_client_mutations.py:256-294 | A commit that passes the fence has a name the journal does not hold yet: the preflight that cleared it saw the current journal |
| `DurableStep.DefiniteFailureIsFinal` | src/ferricstore/async_client_mutations.py:278-294 | There, after a definite error the call's result is never committed, whatever happens later; only "outcome unknown" leaves it open |
| `DurableStep.FinalIffClassified` | src/ferricstore/durable_step.py:69-80 | Definite errors are final in all runs if and only if every error that can follow an applied commit is classified as unknown (or nothing can be encoded at all) |
| `DurableStep.DeploymentIsClassified` | src/ferricstore/durable_step.py:69-80 | For broken connections, timeouts and HTTP failures of a server that had the commit in hand, the classification is right |
| `DurableStep.RefusalIsDefinite` | src/ferricstore/durable_step.py:69-80 | A commit that the fence refused ends the call with a definite error |
| `DurableStep.UnclassifiedErrorLies` | src/ferricstore/async_client_mutations.py:278-289 | One misclassified error suffices: a run in which the call raises a definite error and has committed |
| `DurableStep.CommittedResultIsPermanent` | src/ferricstore/async_client_mutations.py:238-294 | Every return under a name, then or later, carries the result committed under it |
| `DurableStep.ReplayReturnsIffInTargetState` | src/ferricstore/async_client_mutations.py:230-249 | A current claim whose step is committed gets the result if and only if the record is in the target state, else it raises; the closure does not run and nothing changes |
| `DurableStep.ReplayPastTheTargetRaises` | docs/workflow.md:145-148 | A run from the start: a step is committed, the record moved on and reclaimed; the second call's claim is current, the result journalled, and it raises |
| `DurableStep.AloneIsARun` | src/ferricstore/async_client_mutations.py:212-294 | The sequential effect of one call on a quiet server is one run of the machine |
| `DurableStep.FirstCallReturnsIff` | src/ferricstore/async_client_mutations.py:250-294 | With a current claim, a name not journalled and a result that can be encoded, the call runs its closure once, commits result and state move, and returns the renewed claim (every field written out) with the result if and only if the server issued a lease that is neither empty nor the old one; else the outcome is unknown |
| `DurableStep.StaleClaimRaises` | src/ferricstore/async_client_mutations.py:230-238 | A claim that differs from the record in any field ends in a definite error, runs nothing and changes nothing |
| `DurableStep.StepAlone` | src/ferricstore/async_client_mutations.py:212-294 | `step` await by await against a quiet server, with any error in place of the commit's answer, has that effect, rejects without a command exactly the jobs that lack an id, tokens, a run state or a target or are not running, and runs the closure only for a name not journalled |
| `DurableStep.FlowServer.StepContinue` | src/ferricstore/async_client_mutations.py:256-279 | The fenced commit: applied with its state move exactly when the tokens are current, refused without effect otherwise |
| `WakeCredit.NoWakeupIsEverLost` | examples/dbos_style_benchmark.py:665-799 | In every interleaving over all workers: pending exactly when credited, every pending partition has a token queued, held or about to be put, batches respect their limits, and credit is conserved |
| `WakeCredit.OneTokenIffNoTakeHitsPending` | examples/dbos_style_benchmark.py:665-799 | In a run every partition always has exactly one token when pending and none otherwise, if and only if no `take_credit` of the run hits a pending partition |
| `WakeCredit.TokenDroppedIffLimitNotPositive` | examples/dbos_style_benchmark.py:744-767 | `_take_credit` loses the token of a pending partition if and only if its limit is not positive |
| `WakeCredit.TakeCreditBreaksUniqueness` | examples/dbos_style_benchmark.py:796-799 | A run from the start in which `take_credit` leads to two tokens |
| `WakeCredit.LaneStepKeepsInv` | examples/dbos_style_benchmark.py:665-799 | Every step of a lane keeps the no-lost-wakeup invariant with tokens in flight counted |
| `WakeCredit.TakeAddsUp` | examples/dbos_style_benchmark.py:744-767 | Credit taken plus credit left equals the credit before |
| `WakeCredit.TakeMovesCredit` | examples/dbos_style_benchmark.py:744-767 | What a take removes from a partition's credit is what the batch books for that partition, and no other partition changes |
| `WakeCredit.AddedLists` | examples/dbos_style_benchmark.py:716-742 | A batch in the machine lists exactly the partitions it took credit from |
| `WakeCredit.TakeGoesOn` | examples/dbos_style_benchmark.py:716-742 | Where a batch that drew a token goes: another group's token is put back and ends it, a token without credit is dropped, one with credit is listed and put back when credit is left |
| `WakeCredit.GoesOnWhileThereIsMore` | examples/dbos_style_benchmark.py:724-742 | A batch below its limits goes on while the queue holds a token |
| `WakeCredit.PartitionWakeCoordinator.NotifyPartition` | examples/dbos_style_benchmark.py:665-683 | The owner's credit grows by the count, it becomes pending with one token if it was not, and other lanes are unchanged |
| `WakeCredit.PartitionWakeCoordinator.NextPartitions` | examples/dbos_style_benchmark.py:692-742 | The list names exactly the partitions whose credit went down, all of the first one's group where one group is asked for; at most `max_partitions` of them and `max_credit` credit, positive exactly when the list is not empty; credit conserved; it stops only at a limit or an empty queue; a waiting call on a pending worker returns work |
| `WakeCredit.PartitionWakeCoordinator.TakeCreditUpTo` | examples/dbos_style_benchmark.py:744-767 | `_take_credit` without contention: the smaller of credit and limit is taken, the rest stays, and the token is put back when credit remains |
| `WakeCredit.PartitionWakeCoordinator.ReturnCredit` | examples/dbos_style_benchmark.py:769-783 | Returned credit is added and the partition pending with a token again |
| `WakeCredit.PartitionWakeCoordinator.WorkerCredit` | examples/dbos_style_benchmark.py:792-794 | The total is the sum of the lane's credits |
| `RateLimiter.GrantsAreCovered` | examples/dbos_style_benchmark.py:167-232 | In every run tokens stay between 0 and a quarter of the rate, the rate stays at or above the minimum, and creates granted never exceed starting tokens plus the sum of rate times elapsed |
| `RateLimiter.BelowCapIffMinimumIs` | examples/dbos_style_benchmark.py:167-206 | A limited rate stays strictly below the release cap in all runs if and only if the minimum rate is |
| `RateLimiter.QuietRunLiftsTheLimit` | examples/dbos_style_benchmark.py:167-206 | From any legal state a run of quiet samples lifts the limit within a number of observations fixed beforehand |
| `RateLimiter.SurgeReachesMinimum` | examples/dbos_style_benchmark.py:184-192 | And a run of surges brings the rate to the minimum within a number of observations fixed beforehand |
| `RateLimiter.ObserveAnswers` | examples/dbos_style_benchmark.py:171-203 | When an observation cuts, raises, lifts or keeps the rate, and to what, with the thresholds and the weights of the average written out |
| `RateLimiter.AttemptAnswers` | examples/dbos_style_benchmark.py:219-226 | A pass grants exactly when the tokens accrued up to a quarter of the rate cover the request, and takes exactly that many |
| `RateLimiter.PatientRequestReturns` | examples/dbos_style_benchmark.py:208-232 | A request within a quarter of the rate returns at a reading a quarter of a second later |
| `RateLimiter.GrantableIffWithinBurst` | examples/dbos_style_benchmark.py:208-232 | A request can be granted at a rate if and only if it is at most a quarter of it |
| `RateLimiter.OversizedRequestNeverReturns` | examples/dbos_style_benchmark.py:208-232 | Above that, waiting never ends while the rate stays |
| `RateLimiter.Configured` | examples/dbos_style_benchmark.py:142-165 | The constructor's clamps keep every value that is in range, move the others to the nearest bound, and always give a legal configuration |
| `RateLimiter.AdaptiveProducerBackpressure.ObserveQueueLatencies` | examples/dbos_style_benchmark.py:167-203 | One observation is the controller's step on the mean of the sample |
| `RateLimiter.AdaptiveProducerBackpressure.WaitForCreates` | examples/dbos_style_benchmark.py:208-232 | The waiting loop grants at the first pass that finds enough tokens and takes exactly that many |
| `BudgetSettlement.SettlementIsSafe` | src/ferricstore/async_workflow_budget.py:63-183 | Over every interleaving of commit, release, exits, failures and cancellations: never two settlements outstanding, at most one succeeds, closed exactly with its result, a normal exit implies closed, nothing is sent without a reservation |
| `BudgetSettlement.SettlementIsFinal` | src/ferricstore/async_workflow_budget.py:99-183 | Once closed the result never changes and no new settlement starts |
| `BudgetSettlement.ReleaseTakesOver` | src/ferricstore/async_workflow_budget.py:139-183 | A release that joined a broken commit goes on with another settlement instead of surfacing the commit's failure |
| `BudgetSettlement.CallsStartTheirKind` | src/ferricstore/async_workflow_budget.py:77-183 | On an open helper with a free slot, `commit` and a normal exit start a commit, `release` and a raising exit a release |
| `BudgetSettlement.SettlementsHaveAReason` | src/ferricstore/async_workflow_budget.py:77-183 | Over every run: each commit goes back to a commit call or a normal exit, each release to a release call, a raising exit, or a caller behind a commit that broke or was given up at the exit |
| `BudgetSettlement.SuccessEndsTheCall` | src/ferricstore/async_workflow_budget.py:77-183 | An undisturbed call whose settlement succeeds returns its result, leaves the context normally, or leaves it with the error it came with, and the helper is closed with that result |
| `BudgetSettlement.ClosedAnswers` | src/ferricstore/async_workflow_budget.py:77-79 | On a closed helper every call answers with the settled result and starts nothing |
| `BudgetSettlement.FailedCommitFreesTheSlot` | src/ferricstore/async_workflow_budget.py:125-137 | A commit that failed raises and frees the slot |
| `BudgetSettlement.FailedReleaseFreesTheSlot` | src/ferricstore/async_workflow_budget.py:160-183 | So does a release that failed, by a call or by a raising exit |
| `BudgetSettlement.FailedExitReleases` | src/ferricstore/async_workflow_budget.py:80-91 | A normal exit whose commit failed goes on with a release of its own, and will raise |
| `BudgetSettlement.CancelledCallerLeavesSettlement` | src/ferricstore/async_workflow_budget.py:125-172 | A cancelled caller raises and leaves a running settlement alone |
| `BudgetSettlement.EnteredOnce` | src/ferricstore/async_workflow_budget.py:63-66 | Over every run at most one caller enters the context |
| `BudgetSettlement.AsyncWorkflowBudget.CommitAfter` | src/ferricstore/async_workflow_budget.py:125-137 | `commit` after its await: return, raise, and when the slot is cleared |
| `BudgetSettlement.AsyncWorkflowBudget.ReleaseAfter` | src/ferricstore/async_workflow_budget.py:160-183 | `release` after an await: return, raise, or the next round with the slot handed over |
| `EffectSettlement.EffectIsSafe` | src/ferricstore/async_workflow_context.py:597-743 | Over every run: never two reservations or two settlements outstanding, none before a recorded reservation, no fail beside an outstanding or successful confirm, at most one succeeds, and returns carry its result |
| `EffectSettlement.EffectIsFinal` | src/ferricstore/async_workflow_context.py:632-723 | Once closed the result never changes and no settlement is started or settled again |
| `EffectSettlement.ConfirmReportsWhatSettles` | src/ferricstore/async_workflow_context.py:632-671 | In every state with a reservation an undisturbed `confirm` raises if and only if the slot holds a broken settlement, and otherwise returns the one settlement's result, a confirm's if and only if the slot was free or held a confirm |
| `EffectSettlement.FailReportsWhatSettles` | src/ferricstore/async_workflow_context.py:673-723 | In every state with a reservation an undisturbed `fail` goes on with a fail of its own exactly behind a broken confirm, raises exactly behind a broken fail, and otherwise returns the one settlement's result, a fail's if and only if the slot was free or held a fail |
| `EffectSettlement.SettleStartsItsKind` | src/ferricstore/async_workflow_context.py:654-704 | On an open, reserved effect with a free slot `confirm` starts a confirm and `fail` a fail |
| `EffectSettlement.FailTakesOver` | src/ferricstore/async_workflow_context.py:692-723 | A fail that joined a confirm moves on when the confirm breaks, to a fail of its own or to what somebody else started |
| `EffectSettlement.FunctionSettles` | src/ferricstore/async_workflow_context.py:732-743 | Under `call`, a function that ended well is confirmed and one that raised is failed |
| `EffectSettlement.CallEndsAsItsFunction` | src/ferricstore/async_workflow_context.py:725-743 | Undisturbed, `call` returns exactly when its function did |
| `EffectSettlement.CallRunsOrReplays` | src/ferricstore/async_workflow_context.py:725-731 | A replayed effect runs nothing; any other runs the function |
| `EffectSettlement.SettlementsWereAskedFor` | src/ferricstore/async_workflow_context.py:632-743 | Over every run: a confirm exists only if somebody called `confirm` or a function ended well, a fail only if somebody called `fail` or a function raised |
| `EffectSettlement.ReserveAnswers` | src/ferricstore/async_workflow_context.py:597-619 | A recorded reservation is handed out without a task; otherwise one task is shared or started |
| `EffectSettlement.ReservationEnds` | src/ferricstore/async_workflow_context.py:620-630 | Whoever awaits the shared reservation gets it when it succeeds; a broken one is forgotten |
| `EffectSettlement.CancelledCallerLeavesSettlement` | src/ferricstore/async_workflow_context.py:661-716 | A cancelled caller raises and leaves a running settlement alone |
| `EffectSettlement.ConfirmReturnsAFail` | src/ferricstore/async_workflow_context.py:632-671 | A run from the start in which a confirm joins a fail and returns its result |
| `EffectSettlement.UnreservedCallStartsItsOwn` | src/ferricstore/async_workflow_context.py:638-704 | Without a reservation `confirm` and `fail` reserve first and then start a settlement of their own kind, or raise when the shared reservation broke |
| `EffectSettlement.AsyncWorkflowEffect.ReserveAfter` | src/ferricstore/async_workflow_context.py:621-630 | `reserve` after its await |
| `EffectSettlement.AsyncWorkflowEffect.ConfirmAfter` | src/ferricstore/async_workflow_context.py:660-671 | `confirm` after its await |
| `EffectSettlement.AsyncWorkflowEffect.FailAfter` | src/ferricstore/async_workflow_context.py:706-723 | `fail` after an await: return, raise, or the next round after a failed confirm |
| `QueueWorker.WorkerConservesJobs` | src/ferricstore/async_queue_runtime.py:349-405 | In every run, at every await: jobs handed out are through, in hand or prefetched, in order and none twice; claimed equals completed plus retried plus failed; no claim is issued after `stop`; `stop` cancels only where no job is held; nothing is prefetched outside the loop head |
| `QueueWorker.SettlesEverythingIff` | src/ferricstore/async_queue_runtime.py:504-622 | A worker that has ended is through with every job it was handed, and has counted all of them if and only if the run never lost any |
| `QueueWorker.NothingLostIff` | src/ferricstore/async_queue_runtime.py:349-389 | A run loses no job if and only if no error escapes and no outside cancellation comes with jobs in hand, and no failure is raised out of a finished batch |
| `QueueWorker.TallyIsSent` | src/ferricstore/async_queue_runtime.py:368-374 | A settled round keeps the totals equal to the mutations sent, and the jobs gone equal to the jobs mutated, each once |
| `QueueWorker.NormalEndLosesIff` | src/ferricstore/async_queue_runtime.py:383-389 | Of all steps exactly one ends a run normally and loses jobs: an outside cancellation after `stop` with jobs in hand |
| `QueueWorker.StoppedAndCancelledLosesJob` | src/ferricstore/async_queue_runtime.py:383-389 | A run from the start that ends normally and loses the job in hand |
| `QueueWorker.EndsMarkedRunningIff` | src/ferricstore/async_queue_runtime.py:341-355 | A step ends a run with the worker still marked running if and only if it cancels the task before its first step |
| `QueueWorker.FusesIff` | src/ferricstore/async_queue_runtime.py:585-598 | A handled batch is completed by the fused command exactly when fusing is on, possible and not stopped and all of the batch went the same way |
| `QueueWorker.StopAnswers` | src/ferricstore/async_queue_runtime.py:391-405 | `stop` clears running and cancels exactly from another task in the subscribe or idle phase |
| `QueueWorker.BreaksEnd` | src/ferricstore/async_queue_runtime.py:383-389 | A run that is broken off ends with its error, or with a cancellation that is swallowed exactly after `stop` |
| `QueueWorker.LoopGoesOn` | src/ferricstore/async_queue_runtime.py:360-382 | Behind a round the loop handles what was prefetched, even after `stop`; else it claims while running, and else ends normally with nothing lost |
| `QueueWorker.FailuresCountedByPolicy` | src/ferricstore/async_queue_runtime.py:368-374 | In every run failures count as failed under "fail", as retried under "retry" and not at all under "raise", and no claim is counted that was not made |
| `QueueWorker.AsyncQueueFlowWorker.NextJobs` | src/ferricstore/async_queue_runtime.py:564-576 | The prefetched batch without a claim, or one claim |
| `QueueWorker.AsyncQueueFlowWorker.FinishOrFuse` | src/ferricstore/async_queue_runtime.py:578-622 | Every job of the batch is mutated exactly once and counted, by the fused command exactly under its conditions and by `_finish_batch` otherwise; it prefetches exactly what the fused command brought and never claims after `stop`; it raises exactly for an error a reply brought or for failures under "raise" |
| `QueueWorker.AsyncQueueFlowWorker.RunLoop` | src/ferricstore/async_queue_runtime.py:349-389 | Leaving the loop normally leaves nothing prefetched, every job handed out mutated exactly once, the totals equal to the mutations sent and to the claims made, and no error of a reply passed over |
| `QueueWorker.AsyncQueueFlowWorker.Stop` | src/ferricstore/async_queue_runtime.py:391-405 | Clears running, sets the event, and cancels if and only if a live task other than the caller is in the subscribe or idle phase |
| `Completion.HandledFromResults` | src/ferricstore/async_queue_runtime.py:707-746 | Successes and failures each in order, the uniform path if and only if all results match the first, and every recorded value matches its own job's result |
| `Completion.HandledByBatchHandler` | src/ferricstore/async_queue_runtime.py:693-705 | A batch handler's one value or one error stands for every job |
| `Completion.EveryOutcomeIsOneOrTheOther` | src/ferricstore/async_queue_runtime.py:718-739 | Successes and failures together are the batch, job for job |
| `Completion.GroupFailures` | src/ferricstore/async_worker_completion.py:88-91 | Grouping by message keeps every failure, with its own message and in order within it |
| `Completion.RegroupingPermutes` | src/ferricstore/async_worker_completion.py:88-134 | The grouped mutations are a permutation of one mutation per failure |
| `Completion.EveryJobSettledOnce` | src/ferricstore/async_worker_completion.py:34-37 | A batch settled that way settles every job of the batch exactly once |
| `Completion.WorkerCompletion.CompleteSuccesses` | src/ferricstore/async_worker_completion.py:39-75 | Uniform, mixed and one-by-one paths complete each success, in order, with a value of the same fingerprint as its own result; on an error a prefix of them; every error a reply brings is reported |
| `Completion.WorkerCompletion.HandleFailures` | src/ferricstore/async_worker_completion.py:77-134 | One mutation per failure with its own message; on an error whole message groups, and the error of the reply is the one reported; with "raise" the first failure and nothing sent |
| `Completion.WorkerCompletion.FinishBatch` | src/ferricstore/async_worker_completion.py:34-37 | The batch is settled as per-job completion would and the counts add up to it; it breaks exactly with the error a reply brought or, with "raise", with the first failure after all successes |
| `Completion.WorkerCompletion.Settle` | src/ferricstore/async_queue_runtime.py:578-622 | The fused command exactly for uniform batches without failures when allowed; every job mutated once as per-job completion would, the counts those of successes and failures; it breaks exactly as it must |
| `Completion.SettledBatchTallies` | src/ferricstore/async_worker_completion.py:34-37 | A batch settled as per-job completion would mutates exactly its jobs, and the returned counts are those of its mutations |
| `Completion.FirstError` | src/ferricstore/worker_core.py:90-97 | A reply is clean if and only if it has the right number of items and none is an error; else the error is the raised one, the cardinality error, or that of the first refused item |
| `Rotation.RotationIsFair` | src/ferricstore/async_queue_runtime.py:748-764 | After any number of calls the visit counts of two partitions differ by at most one |
| `Rotation.CeilingCovers` | src/ferricstore/async_queue_runtime.py:748-764 | Any ceil(n/c) consecutive calls visit every partition |
| `Rotation.FewerMisses` | src/ferricstore/async_queue_runtime.py:748-764 | Fewer than n visits miss the position just behind the cursor |
| `Rotation.CallVisitsDistinct` | src/ferricstore/async_queue_runtime.py:756-760 | Within one call no position comes twice |
| `Rotation.PartitionCursor.NextClaimPartition` | src/ferricstore/async_queue_runtime.py:748-764 | All five outcomes: fixed key, no keys configured, empty list, one key, a list; the keys sit at the call's positions and the cursor moves past them |
| `WakeSubscription.WakeLifecycleIsSafe` | src/ferricstore/async_wake.py:74-223 | In every interleaving: closed implies not enabled, no two live pumps, no two live activations, the generation counts the events, an owned client is closed at most once; and after any normal return of `close` the locked section has run if and only if no attempt was cancelled waiting for it, and then no activation is live, no client owned, and a pump live only if an attempt broke off on an activation's error |
| `WakeSubscription.SealIsForever` | src/ferricstore/async_wake.py:187-223 | After the locked section of `close` the subscription stays off and no pump, activation or owned client is created again |
| `WakeSubscription.ClosedCreatesNothing` | src/ferricstore/async_wake.py:74-118 | From the moment a close began, sealed or not, the coordinator is never enabled again and no pump or activation is created |
| `WakeSubscription.CloseReturnsUnsealed` | src/ferricstore/async_wake.py:187-201 | A run from the start in which a close returns although the locked section never ran |
| `WakeSubscription.UnsealedReturnLeavesClient` | src/ferricstore/async_wake.py:100-109 | That run goes on to an owned client that is open after a close has returned |
| `WakeSubscription.NextCloseClosesClient` | src/ferricstore/async_wake.py:188-220 | The next close that is neither cancelled nor fails closes it |
| `WakeSubscription.AsyncFlowWakeCoordinator.SubscribeAlone` | src/ferricstore/async_wake.py:74-98 | Without contention a subscription that succeeds leaves the coordinator open, enabled and subscribed with a pump and no activation; what makes it return false or raise |
| `WakeSubscription.AsyncFlowWakeCoordinator.PumpAlone` | src/ferricstore/async_wake.py:225-251 | Without contention the pump counts exactly the events before the first failure, and none once closed |
| `WakeSubscription.AsyncFlowWakeCoordinator.CloseAlone` | src/ferricstore/async_wake.py:187-223 | Without contention a close returns only with the coordinator off, its tasks handed out and no client owned; a client that fails to close stays owned for a retry |
| `WakeSubscription.MissedEventIsReported` | src/ferricstore/async_wake.py:163-185 | A wait with a positive timeout on an enabled coordinator after newer events reports a wake, whatever happens before its turn |
| `WakeSubscription.WaitAnswersAtLock` | src/ferricstore/async_wake.py:163-175 | At the lock a waiter is told of a newer generation before an error and of an error before the closing, each exactly then; otherwise it sleeps |
| `WakeSubscription.WaitAnswersAfterSleep` | src/ferricstore/async_wake.py:175-185 | It sleeps on until there is something to tell or its time is over; then it is told of an error first, then of a newer generation; of the closing, or out of time, of nothing |
| `WakeSubscription.SubscribeSucceeds` | src/ferricstore/async_wake.py:74-161 | Undisturbed, `subscribe` on an open coordinator that has its client activates once and returns true: on, without error, subscribed, with a live pump |
| `WakeSubscription.RecoveryRestores` | src/ferricstore/async_wake.py:253-271 | Undisturbed, a pump that lost its subscription activates once more and listens again, on a coordinator that is on and without error |
| `WakeSubscription.OnceAnswers` | src/ferricstore/async_wake.py:119-126 | What whoever awaits the shared activation is told: its answer, its error, or a cancellation, which is answered with false once closed; a live task is left in the field |
| `WakeSubscription.OnceEnds` | src/ferricstore/async_wake.py:125-130 | The task is taken out of the field if it is still there, and true is said only on an open coordinator |
| `WakeSubscription.PumpAnswers` | src/ferricstore/async_wake.py:225-251 | An event is counted, nothing heard changes nothing, a failure turns the coordinator off and starts a recovery |
| `WakeSubscription.CloseReturns` | src/ferricstore/async_wake.py:187-223 | An undisturbed close without live tasks turns everything off, closes an owned client, and returns |
| `WakeSubscription.OvertakenReturnsFalse` | src/ferricstore/async_wake.py:86-118 | Overtaken by a close, a subscriber returns false from every lock it still comes to, and changes nothing |
| `WakeSubscription.SubscribeJoins` | src/ferricstore/async_wake.py:74-85 | A subscriber that finds it subscribed with a live pump starts nothing and reports whether it is on |
| `WakeSubscription.StepKeepsInv` | src/ferricstore/async_wake.py:74-271 | Every step of subscribers, pump, recovery, activation, closers and waiters keeps the lifecycle invariant |
| `WakeSubscription.AsyncFlowWakeCoordinator.ActivateOnce` | src/ferricstore/async_wake.py:111-118 | Joins the live activation or installs a new one; nothing when closed |
| `WakeSubscription.OnceKeeps` | src/ferricstore/async_wake.py:111-130 | Every step of `_activate_once`, by whoever runs it, keeps at most one live activation and leaves only a finished one to be cleared |
| `WakeSubscription.StartPumpKeeps` | src/ferricstore/async_wake.py:92-98 | Starting a pump on an open coordinator keeps at most one live pump, the one in the field, and all other parts of the lifecycle invariant |
| `WakeSubscription.AsyncFlowWakeCoordinator.WaitSection` | src/ferricstore/async_wake.py:166-172 | Reports a wake if and only if the generation differs, before looking at errors |
| `WakeSubscription.SealKeeps` | src/ferricstore/async_wake.py:196-201 | Whatever is live when `close` runs its locked section was in the fields, so that taking the tasks out of them leaves the closer knowing everything it has to await |
| `TransactionMode.InStepIffNothingBreaks` | src/ferricstore/async_client_core.py:156-203 | For every command sequence and failure pattern: paused exactly in transaction mode between all commands if and only if no pause raised after taking effect and no resume failed to take effect |
| `TransactionMode.OneFailureBreaksStep` | src/ferricstore/async_client_core.py:170-180 | Either kind of failure on the first MULTI of a new client puts it out of step |
| `TransactionMode.CommandKeepsStep` | src/ferricstore/async_client_core.py:156-191 | The same for one command |
| `TransactionMode.OnlyRaisingCommandsBreakStep` | src/ferricstore/async_client_core.py:173-191 | A command that returns leaves both in step |
| `TransactionMode.StaysPaused` | src/ferricstore/async_client_core.py:167-191 | A client left paused outside a transaction stays so over all commands but MULTI |
| `TransactionMode.AsyncFlowClient.Command` | src/ferricstore/async_client_core.py:156-191 | Mode, heartbeat and what is sent, for every name and failure; wrapped exactly for plain commands in transaction mode |
| `TransactionMode.AsyncFlowClient.Close` | src/ferricstore/async_client_core.py:137-145 | Ends the mode and resumes before closing; a resume that raises prevents the close |
| `TransactionMode.SessionsEndClean` | src/ferricstore/async_client_sessions.py:242-326 | In every run of session calls with every failure, over a shared client in any state commands can leave it in: not active implies no client held and every owned client closed exactly once, and transaction mode on if and only if the shared client already had it and no call got beyond a failed enter |
| `TransactionMode.LeaveSends` | src/ferricstore/async_client_sessions.py:267-276 | Leaving an open session first sends EXEC after a block that ended well and DISCARD after one that raised; EXEC is sent exactly in the first case, DISCARD exactly in the second and behind an EXEC that failed, and the connection is invalidated exactly on failure |
| `TransactionMode.NothingExecutedUnasked` | src/ferricstore/async_client_sessions.py:242-315 | In every run without an execute, a normal leave or an EXEC command, no EXEC is sent |
| `TransactionMode.AsyncTransactionSession.LeaveSession` | src/ferricstore/async_client_sessions.py:267-276 | `__aexit__`: nothing on a settled session, else the settling above, after which the session is over |
| `TransactionMode.EnterSends` | src/ferricstore/async_client_sessions.py:242-265 | Entering sends WATCH, if the session watches, then MULTI behind a pause; the session is active exactly when all went well, and otherwise what got sent is undone and the client given up |
| `TransactionMode.SettleSends` | src/ferricstore/async_client_sessions.py:278-315 | Everything that `execute` and `discard` send, in order, and when they succeed |
| `TransactionMode.CommandAnswers` | src/ferricstore/async_client_core.py:156-191 | What one command makes the executor do, in order, when it returns, and which commands are wrapped |
| `TransactionMode.SettleKeeps` | src/ferricstore/async_client_sessions.py:278-315 | A settled session has mode off, no reference, and the connection invalidated just before the close exactly when settling failed |
| `TransactionMode.EnterKeeps` | src/ferricstore/async_client_sessions.py:242-265 | A failed enter unwatches, invalidates, then closes an owned client, with mode off |
| `TransactionMode.FailedEnterKeepsForeignMode` | src/ferricstore/async_client_sessions.py:251-264 | On a shared client a failed enter leaves the mode as it was |
| `TransactionMode.AsyncTransactionSession.SettleSession` | src/ferricstore/async_client_sessions.py:278-315 | `execute` and `discard` |
| `TransactionMode.AsyncTransactionSession.EnterSession` | src/ferricstore/async_client_sessions.py:242-265 | `__aenter__`, with owned and shared clients |
| `TransactionMode.AsyncTransactionSession.Release` | src/ferricstore/async_client_sessions.py:317-326 | Drops the reference first, then invalidates if asked, then closes if owned |
| `ProducerLoop.ShutdownIsSafe` | src/ferricstore/async_producer.py:102-145 | In every interleaving: a client close starts only when closing began and every accepted operation's future is resolved, and the loop stops only after a client close succeeded |
| `ProducerLoop.NoNewOperations` | src/ferricstore/async_producer.py:35-50 | No operation is accepted after closing began |
| `ProducerLoop.CloseCanBeRetried` | src/ferricstore/async_producer.py:133-145 | After failed attempts a new one still closes the client and stops the loop |
| `ProducerLoop.AttemptFails` | src/ferricstore/async_producer.py:106-145 | A close attempt fails on a loop that did not start or is gone and where an await fails, and changes nothing else |
| `ProducerLoop.RunAnswers` | src/ferricstore/async_producer.py:35-50 | Behind the startup an operation is accepted on an open loop, and `run` raises without a trace on a closed or failed one |
| `ProducerLoop.CancelledOperationCanOutliveClose` | src/ferricstore/async_producer.py:122-139 | A concrete run in which the client is closed while a cancelled operation's coroutine is still on the loop |
| `ProducerLoop.UnfinishedAtCloseIffCancelled` | src/ferricstore/async_producer.py:102-139 | Once a client close was started, an accepted operation is unfinished if and only if its future was cancelled while its coroutine ran and the coroutine has not ended since |
| `ProducerLoop.UncancelledOperationsEndFirst` | src/ferricstore/async_producer.py:122-139 | Where no caller is cancelled, every accepted operation has ended before the client is closed |
| `ProducerLoop.StepKeepsInv` | src/ferricstore/async_producer.py:35-145 | Every lock region, future, callback and close attempt keeps the shutdown invariant |
| `ProducerLoop.AsyncProducerLoop.Accept` | src/ferricstore/async_producer.py:44-49 | Accepts into the active set, or refuses when closed |
| `ProducerLoop.AsyncProducerLoop.Start` | src/ferricstore/async_producer.py:55-77 | Starts once; a thread that cannot start leaves no trace |
| `ProducerLoop.AsyncProducerLoop.RunAlone` | src/ferricstore/async_producer.py:35-50 | Without contention an operation runs exactly on an open loop that started or can start, and has left the active set afterwards |
| `ProducerLoop.AsyncProducerLoop.CloseAlone` | src/ferricstore/async_producer.py:106-145 | Without contention the client is closed only after every operation of the snapshot left the active set, and the loop stopped only after that |
| `ProducerLoop.AttemptKeeps` | src/ferricstore/async_producer.py:106-145 | The snapshot that a close attempt takes covers every unresolved operation, at every step of every attempt |
| `PredictedPipeline.AcceptedIffNewAndDistinct` | examples/protocol_restate_latency_benchmark.py:430-472 | The whole interleaved batch is accepted if and only if the flows are new and different, for every list of specs and every number of steps |
| `PredictedPipeline.PredictionRefinesChain` | examples/protocol_restate_latency_benchmark.py:360-472 | Whatever times the chain reads, both leave every flow the same up to the time in the lease token; with equal times the same server |
| `PredictedPipeline.PredictionCompletesWave` | examples/protocol_restate_latency_benchmark.py:311-331 | Every flow ends completed with fencing token max(steps, 1) and its predicted lease; all other flows are untouched |
| `PredictedPipeline.BatchInOrder` | examples/protocol_restate_latency_benchmark.py:438-471 | The batch command by command: starts with the payload, the waves in the order of the steps with their predicted tokens and times, completions with the result |
| `PredictedPipeline.PredictionReaches` | examples/protocol_restate_latency_benchmark.py:311-331 | Each predicted step token is the one the server issued |
| `PredictedPipeline.ChainReaches` | examples/protocol_restate_latency_benchmark.py:390-427 | The sequential chain reaches every step with the tokens it read |
| `PredictedPipeline.TextIdentifiesLease` | examples/protocol_restate_latency_benchmark.py:135-136 | The text of a lease token determines worker, time and fencing token |
| `PredictedPipeline.TextIdentifiesFlow` | examples/protocol_restate_latency_benchmark.py:127-128 | The text of a flow id determines run and index |
| `PredictedPipeline.BuildPredictedCommands` | examples/protocol_restate_latency_benchmark.py:438-471 | The command list built by the loop |
| `PredictedPipeline.RunPredictedPipelineWaveBatch` | examples/protocol_restate_latency_benchmark.py:430-472 | Fails on the empty list without a command; otherwise all replies are accepted if and only if flows are new and different, and then every flow is finished |
| `PredictedPipeline.RunWaveBatch` | examples/protocol_restate_latency_benchmark.py:360-427 | The sequential mode, which stops at the first refused wave |
| `WirePayload.KeyBatch` | examples/protocol_kv_benchmark.py:265-284 | The fast slice and the wrapping loop both give item i the pool entry at (sequence + i) mod size, for every count |
| `WirePayload.WireKeyPayloadBatch` | examples/protocol_kv_benchmark.py:287-330 | The payload decodes to exactly the keys of the single commands; a count of 2^32 or more raises |
| `WirePayload.WireKeyValuePayloadBatch` | examples/protocol_kv_benchmark.py:333-356 | The payload decodes to exactly the key and value pairs of the single commands |
| `WirePayload.WireZaddPayloadBatch` | examples/protocol_kv_benchmark.py:474-502 | The payload decodes to keys, scores (as the nearest doubles) and members of the single commands, in mode 0x80 plus 26; it raises exactly for a count of 2^32 or more, a key count of zero, or a score beyond the doubles |
| `WirePayload.ItemsAreCommands` | examples/protocol_kv_benchmark.py:217-245 | Over the benchmark's own pool, item i carries the key and score of `build_command` number sequence + i |
| `WirePayload.PayloadRoundTrip` | examples/protocol_kv_benchmark.py:17-21 | Header and length-prefixed items decode to mode and items, scores as the nearest doubles, with nothing left over |
| `WirePayload.ItemsRoundTrip` | examples/protocol_kv_benchmark.py:248-255 | Length prefixes recover every item when lengths fit 32 bits |
| `WirePayload.F64RoundTrip` | examples/protocol_kv_benchmark.py:497-497 | The packed double of any score that `float` accepts reads back as the double nearest to it |
| `WirePayload.HeaderBytes` | examples/protocol_kv_benchmark.py:17-21 | The six bytes of a header, the count in network byte order |
| `WirePayload.ItemBytes` | examples/protocol_kv_benchmark.py:248-255 | Where key, score and value of an item stand, each string behind its four bytes of length |
| `WirePayload.KeysIdentifyNumbers` | examples/protocol_kv_benchmark.py:237-239 | Keys of one prefix are equal if and only if their numbers are, modulo the key count, and the number can be read off the key |
| `Doubles.NearestIsNear` | examples/protocol_kv_benchmark.py:218-218 | The double of a whole number is that number below 2^53 and never more than half a unit away above |
| `Doubles.TieGoesToEven` | examples/protocol_kv_benchmark.py:218-218 | Of two doubles equally near it is the even one |
| `Doubles.BitsAreIeee` | examples/protocol_kv_benchmark.py:21-21 | The bits are those of IEEE 754 for a normal number: exponent biased by 1023, fraction of 52 bits |
| `Doubles.DoubleRoundTrip` | examples/protocol_kv_benchmark.py:21-21 | The bits of the format say the nearest double and fit 64 bits |
| `SourceEdits.ApplyEdits` | tools/generate_async_commands.py:120-122 | The right-to-left loop over the sorted edits equals the left-to-right assembly for disjoint edits |
| `SourceEdits.UntouchedKept` | tools/generate_async_commands.py:120-122 | Every untouched character is kept, moved by what the edits before it grew |
| `SourceEdits.OrderKept` | tools/generate_async_commands.py:120-122 | Untouched characters keep their order |
| `SourceEdits.TextPlaced` | tools/generate_async_commands.py:120-122 | Every replacement text stands where its edit starts, moved likewise |
| `SourceEdits.AssemblyLength` | tools/generate_async_commands.py:120-122 | Nothing else is in the outcome |
| `SourceEdits.OrderDoesNotMatter` | tools/generate_async_commands.py:121-121 | For disjoint edits only the set of them matters |
| `SourceEdits.LineOffsets` | tools/generate_async_commands.py:72-77 | Each line's offset is the length of all text before it |
| `SourceEdits.OffsetIffBoundary` | tools/generate_async_commands.py:54-62 | A byte column maps to an offset if and only if, cut off at the end of the line, it is a character boundary; the offset then points at that character in the source |
| `Utf8.DecodePrefix` | tools/generate_async_commands.py:61-61 | A byte prefix of an encoded text decodes if and only if it ends at a character boundary, and then to that many characters |
| `Utf8.RoundTrip` | tools/generate_async_commands.py:61-61 | Decoding undoes encoding (section 3 of RFC 3629) |
| `Utf8.EncodesByTheTable` | tools/generate_async_commands.py:61-61 | Every character is encoded by its row of the syntax in section 4 of RFC 3629 |
| `WakeCredit.PartitionWakeCoordinator.TakeCredit` | examples/dbos_style_benchmark.py:796-799 | All credit of a partition is taken and it is no longer pending |
| `WakeCredit.PartitionWakeCoordinator.FirstPartition` | examples/dbos_style_benchmark.py:707-723 | The first loop of `next_partitions`: the partition returned is the one whose credit went down, by what is reported; or nothing, with an empty queue |
| `RateLimiter.AdaptiveProducerBackpressure.Pass` | examples/dbos_style_benchmark.py:212-232 | One pass under the lock: refill capped at a quarter of the rate, then grant or not |
| `BudgetSettlement.AsyncWorkflowBudget.Commit` | src/ferricstore/async_workflow_budget.py:99-125 | `commit` up to its await: the stored result, an error, the running settlement, or a new commit |
| `BudgetSettlement.AsyncWorkflowBudget.Release` | src/ferricstore/async_workflow_budget.py:139-160 | `release` up to its first await, likewise |
| `BudgetSettlement.TaskStepKeepsInv` | src/ferricstore/async_workflow_budget.py:108-118 | Whatever a settlement task does (send, succeed and record, fail, be cancelled), the slot, the closed flag and the result stay in step |
| `EffectSettlement.AsyncWorkflowEffect.Reserve` | src/ferricstore/async_workflow_context.py:597-621 | `reserve` up to its await: the recorded reservation, the running one, or a new one |
| `EffectSettlement.AsyncWorkflowEffect.Settle` | src/ferricstore/async_workflow_context.py:632-660 | `confirm` and `fail` up to their await: join what runs or start their own |
| `QueueWorker.AsyncQueueFlowWorker.BeginRun` | src/ferricstore/async_queue_runtime.py:341-347 | Refused exactly when the worker is closing or its task is at work; otherwise a run starts with the stop event clear |
| `QueueWorker.AsyncQueueFlowWorker.RunOnce` | src/ferricstore/async_queue_runtime.py:504-529 | One pass takes the prefetched batch or a claim; without an error each job with a good verdict is counted completed and each other one failed or retried by policy; it raises only for an error a reply brought or a failure under "raise", and claims nothing after `stop` |
| `Completion.WorkerCompletion.SendGroups` | src/ferricstore/async_worker_completion.py:106-134 | One call per group, until one is refused |
| `WakeSubscription.FirstLockKeeps` | src/ferricstore/async_wake.py:77-85 | The first locked section of `subscribe` keeps the lifecycle invariant, whether it acquires a client, returns or goes on to activate |
| `WakeSubscription.MarkingKeeps` | src/ferricstore/async_wake.py:88-91 | Marking an open coordinator subscribed keeps the lifecycle invariant |
| `WakeSubscription.SetActiveKeeps` | src/ferricstore/async_wake.py:154-161 | Setting active can never enable a closed coordinator |
| `WakeSubscription.PumpedKeeps` | src/ferricstore/async_wake.py:248-251 | An event keeps the generation equal to the events pumped, and every wake reported so far different from its caller's generation |
| `WakeSubscription.BeginCloseKeeps` | src/ferricstore/async_wake.py:188-196 | From the moment a close begins, somebody holds the close lock until the locked section has run or was given up |
| `PredictedPipeline.RunChain` | examples/protocol_restate_latency_benchmark.py:386-425 | The waves before the last, each built from the replies of the one before |

## Left out

- Command wrappers and argument builders, sockets, TLS, HTTP, connection pools, the client facades, metrics and benchmark drivers: no protocol of their own, or only easy members.
- `_execute_producer_write` and its backpressure controller, wall-clock timing, thread fairness and exception chaining.
- Other worker and workflow runtimes (`async_workflow_runtime.py`, the synchronous twins): the same loops again.
- A coroutine closed by garbage collection in the middle of an await (`GeneratorExit`): only cancellations and errors are modelled.
- `advance` and `complete_flows_and_claim_flows`: the first is the commit of `step` without a journal, the second appears as the fused claim of the worker loop; their argument lists are not modelled.
- `run_once` called by hand beside a running worker loop.
- Transaction commands that overlap on one client: `TransactionMode` takes them one after the other, as a connection does.
- An executor without heartbeat methods: pausing and resuming are then no-ops and there is nothing to keep in step.
- `close` of the wake coordinator called by the pump task itself.
- The single-flight wrapper around `_close_once`: `ProducerLoop` allows any number of overlapping attempts instead, which includes its behaviour.
- `run_steps_many_wave_batch`, and payload layouts other than keys, pairs and scored members (ranges, fields): the same loop with other tails.
- The text search for the class name and the docstring, the parser, and `splitlines`: the edits and the lines are taken as given.
- NextPartitions: stated without contention; what holds under contention is `NoWakeupIsEverLost`.
- FirstPartition: stated without contention, as the first half of `NextPartitions`.
- StepAlone: the sequential contract for a server nobody else talks to; what holds among other callers is `DurableStepIsSafe`.
- RunLoop: drives one run from a script of rounds in which `stop` may come at any await and the server may refuse any call; errors that escape elsewhere and outside cancellations are in `NothingLostIff`.
- RunAlone: a whole call with nobody else about; under contention `ShutdownIsSafe` and `NoNewOperations` hold.
- CloseAlone: likewise, for the producer loop and the wake coordinator; under contention `ShutdownIsSafe` and `WakeLifecycleIsSafe` hold.
- SubscribeAlone: likewise; under contention `WakeLifecycleIsSafe` holds.
- PumpAlone: likewise, up to the first failure; recovery is in the machine.
