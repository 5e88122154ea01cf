# A verified model of the runState task runtime

runState executes workflows of a fixed list of steps. PostgreSQL rows are the only durable state: workers
compete for tasks by leases, a scheduler wakes and ends them, an API creates, cancels and approves them, and
any of these may crash, come back late, or never learn whether its last commit took effect. This project
models that runtime as a protocol of atomic transactions and proves what it promises over every run.

## How it is built

* `Model.dfy`: one `Task` is a task row with its step rows and its event log. `Resolve.dfy`: JSON values and
  the references in a step's input.
* `Transactions.dfy`: what each transaction of the store does to the row it locks. `Perform` gathers them;
  the clock is read once after the lock (`t1`) and again in the statements that follow (`t2`).
* `Store.dfy`: the class `Store`, one method per transaction, written statement by statement as in
  `internal/store/store.go`, each proved against its transaction in `Transactions.dfy`. `Valid()` says that
  the database is at the end of a legal run.
* `Runs.dfy`: a run is a sequence of transactions sent by anybody, with any arguments, over a clock that
  never goes back. A crashed worker is one that sends nothing more, a stale one keeps sending its old token,
  and a lost commit response is a transaction whose reply nobody uses, so no crash needs a step of its own.
* `Invariant.dfy` is what holds of one task in every reachable state; `History.dfy` is a preorder `Grows` that
  every transaction respects, which turns facts about one transaction into facts about any two points of
  a run. `EventLog.dfy` replays the log and counts in it.
* `Happenings.dfy` says on the columns of a row, before a call, what the call makes happen; `Guards.dfy` proves that
  the transactions test exactly that. `Columns.dfy` then tells for every column, step and log what each happening
  makes of it and that nothing else moves it, and `Answers.dfy` what each call is answered: the same transactions
  described a second time, by column instead of by call.
* On these rest the results: `Service.dfy`, `Guarantees.dfy`, `CommitChecks.dfy`, `RetryTiming.dfy`, `Takeovers.dfy`,
  `Availability.dfy`, `Blocked.dfy`, `Tenure.dfy`, `UnstableChecks.dfy`, `Reference.dfy`, `Completion.dfy`.
* `FakeTool.dfy`, `Scheduler.dfy` and `Worker.dfy` put the idempotency ledger, the drain loop and the step
  loop beside the store.

Runs begin at an empty database; a `Store` or a `Tool` attaches to whatever some run has left there.

An executor is a function from a step's kind and resolved input to the bytes of an output and a checkpoint,
their sizes included; it may also fail in any way and any number of times. Executions take no time of their own:
a step that cannot finish within its timeout is one whose every execution fails, and for the question whether a
task can succeed at all it must be given a product that cannot be stored. Nothing is assumed of callers except
where a lemma says so: `Honest` (a reported success comes from an attempt that was handed out, and from the
executor) is needed only for the results in `Reference.dfy`, `Completion.dfy` and `Worker.dfy`; `QuietFrom` (only
one party moves steps with a token) only in `Tenure.dfy` and for the absence of conflicts in `Worker.dfy`; in
`FakeTool.dfy` a tool call carries the key and input of an attempt that was handed out; in `Takeovers.dfy`,
`Availability.dfy` and `RenewalProtects` the stores' lease durations are bounded; and what `Worker.dfy` says of a
worker `Alone` supposes that nobody else acts and the clock stands still meanwhile.

Some results are about what the code does not do:

* An accepted definition need not be able to succeed. A step may use the output of the approval before it
  (`internal/api/handler.go:208`), which has none (`AcceptedButStuck`), and an output may outgrow the size limit of
  `FinishStep`, as when an echo is given an earlier echo's output twice (`AcceptedButTooLarge`).
  `CanSucceedExactlyWhen` is the exact condition for every definition and executor. `AcceptedSucceedsExactlyWhen` is
  the one that can be read off an accepted definition when the products it comes to can be stored and are not
  null, and `FreeSucceedsExactlyWhen` the one for definitions without references, step by step.
  `StartUnresolvableExactlyWhen` is the one for a single start, and `BlockedUntilEnded` says what becomes of a task
  that meets it.
* Starts and ends of attempts do not always balance: `finishControlledTask` logs STEP_FAILED even for a step that
  was not running (`UnbalancedCancellation`). They balance in every open, SUCCEEDED or FAILED task, and in a
  CANCELLED or TIMED_OUT one at every step but the current; `BalancedExactlyWhen` is the exact condition.
* `CreateTask` takes a definition without steps, which the API refuses. Such a task is claimed with nothing to do,
  and the branch of `recoverExpiredTask` that converges a task to SUCCEEDED is taken by these tasks and by no others
  (`RecoverKeeps`, `EmptySucceeds`).
* The `default` branch of `ProcessDueControl` is never taken (`Store.Store.ProcessDueControl`, `ServiceOrder`).

## Model

| member | source | states |
|---|---|---|
| Reference.CrashTransparency | internal/store/store.go:470-497 | In every reachable state of every run with honest workers, through crashes, takeovers, retries, stale calls and approvals, the succeeded prefix's outputs and the checkpoint are those of an uninterrupted sequential execution of the definition |
| Reference.SuccessIsReference | internal/store/store.go:849-875 | A SUCCEEDED task has exactly the outputs and the checkpoint of the whole reference execution |
| Reference.NeverPassesReference | internal/store/store.go:470-497 | A task never gets past the step at which the reference execution stops |
| Reference.MirrorsNext | internal/store/store.go:849-875 | One transaction, whichever it is, keeps a task's committed prefix equal to the reference's |
| Completion.CanSucceedExactlyWhen | internal/store/store.go:419-884 | Some honest run takes an accepted definition to SUCCEEDED if and only if the reference execution gets through it, with every input resolved and every product within the size limits |
| Completion.StepOnward | internal/store/store.go:419-884 | From any poised state one more step can be done, ordinary or approval, when the reference can do it; the report carries the executor's own bytes |
| Completion.AcceptedSucceedsExactlyWhen | internal/api/handler.go:206-211 | For inputs that validation accepts, when the products that this definition comes to can be stored and are not null, it can succeed if and only if no step uses the output of an approval before it |
| Completion.AcceptedButStuck | internal/api/handler.go:203-211 | An approval followed by an echo of its output is accepted and can never succeed, whatever the executor |
| Completion.TooLargeNeverSucceeds | internal/store/store.go:793-802 | A task whose reference execution comes to an output or checkpoint over the limit can never succeed |
| Completion.AcceptedButTooLarge | internal/executor/executor.go:144-156 | With the echo executor, an echo of a text that fits the limit followed by an echo of that output twice over is accepted, uses no approval and can never succeed |
| Completion.FreeSucceedsExactlyWhen | internal/store/store.go:793-802 | A definition without references can succeed if and only if what each ordinary step yields for its configured input can be stored, null or not |
| Completion.EmptySucceeds | internal/store/store.go:325-336 | A task without steps succeeds once its lease has expired and is claimed again |
| Completion.ReferenceGoesOn | internal/task/resolve.go:36-42 | Where no step uses an approval's output, validation and usable products along the way carry the reference execution to the end |
| Blocked.StuckAfterApproval | internal/store/store.go:470-486 | In every run, whoever takes part, a step that uses the output of the approval before it is never passed, and its task never succeeds |
| Blocked.BlockedUntilEnded | internal/store/store.go:483-486 | A task whose current input cannot be resolved never starts an attempt of that step, however often it is claimed, and can only end CANCELLED or TIMED_OUT |
| Blocked.NothingToUse | internal/store/store.go:472-486 | An open task at a step that uses the output of the approval before it can neither start nor wait |
| Tenure.Undisturbed | internal/store/store.go:1314-1330 | An owner that finds its lease has had it all the time, and if nobody else moves steps with its token the steps, progress and checkpoint are as it left them |
| Tenure.LeftAlone | internal/store/store.go:1314-1330 | Other parties never take away what an owner may do next: begin the step it loaded, or finish the attempt it began |
| Tenure.GrantIsFresh | internal/store/store.go:229-273 | A granted claim finds no attempt of the current step running |
| Tenure.AimedStarts | internal/store/store.go:453-469 | The owner's StartStep of its current ordinary step is never refused for a conflict |
| Tenure.AimedWaits | internal/store/store.go:546-559 | The owner's WaitForApproval at its current approval step is never refused for a conflict |
| Tenure.BegunFinishes | internal/store/store.go:790-792 | The owner's FinishStep of the attempt it began is never refused for a conflict, and leaves it ready for the next step |
| Tenure.StartsUnlessUnresolvable | internal/store/store.go:453-486 | The owner's StartStep of its current step returns an attempt unless the input cannot be resolved, and the owner may go on |
| Tenure.FinishesUnlessMalformed | internal/store/store.go:774-852 | The owner's report on the attempt it began is accepted unless it is malformed, and the owner may go on or the task is no longer running |
| Guarantees.WorkflowShape | internal/store/store.go:456-469 | Steps before the current one are SUCCEEDED, later ones PENDING at attempt 0, the current one in a state its task's status allows; exactly FAILED steps carry an error; an open task with steps has a current one, and a failed current step has budget left |
| Guarantees.LogAgreement | internal/store/store.go:1332-1350 | Replaying the event log gives the task's status, progress, owner, lease version and every step's status, attempt and error |
| Guarantees.AttemptConservation | internal/store/store.go:487-507 | A step's attempt counts its STEP_STARTED events and stays in its budget; starts are successes plus failures plus the running attempt, except that the current step of a CANCELLED or TIMED_OUT task may have one failure more |
| Guarantees.BalancedExactlyWhen | internal/store/store.go:1111-1144 | A call on an open task unbalances a step if and only if its guard ends the task while that step is current and has no attempt running |
| Guarantees.ControlledBalance | internal/store/store.go:1121-1132 | After an ending a step balances if and only if it was not the current one or was RUNNING |
| Guarantees.UnbalancedCancellation | internal/store/store.go:1121-1132 | Cancelling a task that was never claimed logs one failure of a step that never started |
| Guarantees.OnlyEndingsControl | internal/store/store.go:898-992 | An open task becomes CANCELLED or TIMED_OUT exactly by Cancel when not running, CancelOwned by the owner of a requested one, TimeoutOwned by the owner past the deadline, or the scheduler on a requested or overdue one |
| Guarantees.SingleOutcome | internal/store/store.go:693-725 | A log holds one ending if its task is terminal and none otherwise; terminal tasks and succeeded steps never change again, so no completed step is executed again |
| Guarantees.FencedForever | internal/store/store.go:1314-1330 | A granted token once found without the lease never owns the task again, and whatever it sends changes nothing |
| Guarantees.FinishedByStarter | internal/store/store.go:774-792 | An accepted FinishStep comes from the very token that started that attempt, the only one that owns the task |
| Guarantees.CancelIrrevocable | internal/store/store.go:941-948 | After a cancel request nothing starts, succeeds, is renewed or reassigned; CANCELLED is the only end, even when the deadline passes |
| Guarantees.CancelAnswer | internal/store/store.go:922-959 | A cancelled answer is for good, a recorded request can only lead to CANCELLED, and only a task that ended otherwise is refused, for good |
| Guarantees.DeadlineHolds | internal/store/store.go:268-269 | The deadline is set by the first claim to its time plus the timeout and never moves; once it has passed a task stays exactly as it is until it is asked to cancel, cancelled or timed out |
| Guarantees.ApprovalOnce | internal/store/store.go:648-726 | A decision is recorded once, under exactly one event, for good; repeating it changes nothing and answers with it and the present status, the opposite one conflicts, and deciding another step leaves it as it is |
| Guarantees.ResolvedInputCoherent | internal/store/store.go:470-497 | Idempotency key, definition and stored input are write-once, and the current step's stored input is always what resolving it afresh would give |
| Guarantees.StartUnresolvableExactlyWhen | internal/store/store.go:470-486 | For a validated input the owner's StartStep fails to resolve if and only if the input uses a missing or null previous output or a null checkpoint |
| Takeovers.TakeoversBounded | internal/store/store.go:229-273 | The lease version counts the claims and is at most one, plus the retries the budgets allow, plus the approvals, plus the takeovers of expired leases, whose leases together are shorter than the task's timeout |
| Takeovers.OnlyTakeoversCount | internal/store/store.go:274-289 | TASK_RECOVERED is logged by a granted claim of an expired lease and by nothing else |
| Takeovers.BudgetStays | internal/store/store.go:810-822 | Every transaction keeps claims and queued returns within what steps' budgets and takeovers pay for |
| Takeovers.LeaseStays | internal/store/store.go:394-417 | Every transaction keeps the takeovers' leases within the time since the first claim |
| Availability.NeverStranded | internal/store/store.go:229-240 | Once the start time, one lease and the longest back-off have passed, every open task can be claimed, is due for the scheduler, or waits for a decision that would be accepted |
| Availability.PromptStays | internal/store/store.go:810-827 | Every transaction leaves a lease that ends within one lease duration and a back-off that ends within a minute |
| Availability.NeverBeforeRunAt | internal/store/store.go:114-118 | No open task is past SCHEDULED, and none was first claimed, before the start time on its row |
| Service.CreatedAsAsked | internal/store/store.go:102-167 | In every state after its creation a task has the steps, keys, timeout and start time that were asked for; before that time it is never claimed and open only as SCHEDULED, and its deadline is the first claim plus the timeout asked for |
| Service.BornAsAsked | internal/store/store.go:113-162 | A new task is SCHEDULED exactly when the start time asked for lies ahead, else RUNNABLE, with nothing owned, done or decided |
| Service.InsertableExactlyWhen | internal/migrations/sql/001_init.sql:1-43 | The tables accept a definition if and only if its numbers are positive and its identifiers and keys are new |
| Service.RetryRuns | internal/store/store.go:1075-1078 | From a retry that is due, the scheduler, a claim and a StartStep return the next attempt of the same step with its stored input |
| Service.WokenAndClaimed | internal/store/store.go:1178-1188 | Waking and claiming a due retry leaves steps, progress and checkpoint alone, and the new token may write |
| Service.RenewalProtects | internal/store/store.go:394-417 | After an accepted renewal, as long as the task stays RUNNING, its token holds the lease for a whole lease duration and no claim is granted |
| Service.EndingIsTold | internal/store/store.go:304-307 | In every reachable state a CANCELLED task's stopped step says user_cancelled and a TIMED_OUT one's says task_timeout |
| Columns.StatusLaw | internal/store/store.go:212-1188 | The whole table of status changes: what each guarded happening makes of an open task, and that nothing else changes its status |
| Columns.WokenExactlyWhen | internal/store/store.go:1066-1085 | A task leaves RETRY_WAIT or SCHEDULED for RUNNABLE exactly when found due, in time and not asked to cancel; only status, retry time and log change, by one event |
| Columns.LeaseLaw | internal/store/store.go:247-273 | Owner, version and expiry are given by a granted claim, the expiry moved by the owner's renewal, and all dropped with RUNNING |
| Columns.RetryLaw | internal/store/store.go:810-827 | The retry time is set by a failure to be retried, to the exact back-off, and dropped with RETRY_WAIT |
| Columns.OriginLaw | internal/store/store.go:268-269 | The first claim sets first start and deadline; only a request to a running task marks it; what the task was created with stays |
| Columns.ProgressLaw | internal/store/store.go:859-875 | Success and approval advance the task by one, and only a success with a checkpoint replaces it |
| Columns.StepLaw | internal/store/store.go:804-857 | Only the current step moves: its attempt, stored input, output, decision, status and the very text of its error for each happening |
| Columns.LogLaw | internal/store/store.go:1332-1350 | Each happening appends exactly its events, in order and with their fields, and nothing else is logged |
| Columns.Dispatch | internal/store/store.go:212-1188 | Which of its effects a transaction has on an open task is decided by the guards of the happenings |
| Answers.ClaimAnswer | internal/store/store.go:229-306 | A claim is granted exactly on its guard, with a token of that worker that the row accepts from now until the stated expiry, and the row's deadline |
| Answers.ClaimableIsGranted | internal/store/store.go:229-273 | A claimable task is granted to a named worker unless recovery ends it |
| Answers.RenewAnswer | internal/store/store.go:394-417 | The owner's renewal sets the expiry one lease ahead and changes nothing else; everybody else learns why not, the lease before the cancellation before the deadline |
| Answers.StartAnswer | internal/store/store.go:419-514 | The attempt returned is the current step's, next number, own key, input, budget and timeout; each refusal has its exact cause |
| Answers.WaitAnswer | internal/store/store.go:519-596 | A wait is granted or refused for its exact cause |
| Answers.DecideAnswer | internal/store/store.go:618-726 | A first decision answers with itself and the status the task has from then on; replays, unknown steps and late decisions have their own answers |
| Answers.FinishAnswer | internal/store/store.go:774-792 | A report is accepted as success or failure, or refused for its exact cause |
| Answers.TimeoutAnswer | internal/store/store.go:898-912 | The owner's timeout is done past the deadline, and refused first for the lease, then for a cancellation |
| Answers.CancelAnswer | internal/store/store.go:930-955 | A cancellation is done, requested of a running task, or refused for a task that ended otherwise |
| Answers.CancelOwnedAnswer | internal/store/store.go:973-990 | The owner's cancellation is done once requested, and refused first for the lease |
| Answers.WakeAnswer | internal/store/store.go:1066-1089 | The scheduler reports progress exactly when it ended or woke the task |
| RetryTiming.NoEarlyRetry | internal/store/store.go:810-827 | After a retryable failure of attempt n at time t no step of the task starts before t + min(2^(n-1), 60) seconds, whatever happens in between |
| RetryTiming.DelayIsCappedPower | internal/store/store.go:814-818 | The shift capped at six bits and at 60 is min(2^(n-1), 60) for every attempt |
| RetryTiming.FailsExactlyWhen | internal/store/store.go:356-369 | An open task becomes FAILED by a first rejection, by a recorded failure that is not temporary or was the last attempt's, or by an expired lease on the last attempt, and by nothing else |
| RetryTiming.HeldStays | internal/store/store.go:1075-1078 | No transaction ends a back-off early |
| CommitChecks.FinishCheckExact | internal/store/store.go:1232-1269 | At any later time the check on a reported success answers yes if and only if a FinishStep of that attempt with that output was committed |
| CommitChecks.CommittedIsConfirmed | internal/store/store.go:1232-1269 | A committed success is confirmed from then on, under any interleaving |
| CommitChecks.SucceededWasCommitted | internal/store/store.go:849-875 | A step that is SUCCEEDED with an output got there by a FinishStep of that very attempt and output |
| CommitChecks.StartCheckSafe | internal/store/store.go:1210-1230 | A confirmed start is the caller's own, or every FinishStep the caller sends from then on is refused for its lease |
| CommitChecks.StartConfirmedNow | internal/store/store.go:1210-1230 | The check on a start answers yes right after its own commit |
| CommitChecks.DecisionCheckExact | internal/store/store.go:733-754 | At any later time the decision check answers yes if and only if a DecideApproval that recorded that decision for that step was committed |
| CommitChecks.DecisionCheckStable | internal/store/store.go:733-754 | The decision check is true after every answered decision, first or repeated, true precisely when that decision is recorded, and once true stays true |
| CommitChecks.BecameDecided | internal/store/store.go:674-726 | A step's decision is set by a DecideApproval of that step with that decision and by nothing else |
| CommitChecks.RecordedWasCommitted | internal/store/store.go:674-726 | A recorded decision got there by a committed DecideApproval of it |
| CommitChecks.SuccessSticks | internal/store/store.go:1232-1269 | A true check on a success is true in every later state |
| CommitChecks.DecisionSticks | internal/store/store.go:733-754 | A true check on a decision is true in every later state |
| UnstableChecks.FailureCheckSound | internal/store/store.go:1232-1269 | A confirmed failure was committed: by a FinishStep of that attempt with that error, or, for an attempt that started, by a recovery if the text is worker_lost |
| UnstableChecks.FailureConfirmedNow | internal/store/store.go:1232-1269 | The check on a failed finish answers yes right after its own commit |
| UnstableChecks.BecameFailed | internal/store/store.go:804-835 | A step ends up FAILED in a failed or waiting task by such a report, by the recovery of a lost last attempt, or by a rejection |
| UnstableChecks.WaitCheckExact | internal/store/store.go:597-613 | The check on a wait says exactly that the task waits at that step now, and then a WaitForApproval of it was committed |
| UnstableChecks.WaitConfirmedNow | internal/store/store.go:597-613 | The check on a wait answers yes right after its own commit |
| UnstableChecks.WaitingWasCommitted | internal/store/store.go:519-596 | A task waits at a step only by a committed and logged WaitForApproval of it |
| Invariant.Preserved | internal/store/store.go:212-1188 | Every transaction, whoever sends it and with whatever arguments, keeps the invariant: shape, row constraints, stored input, agreement with the log, and the running attempt's starter |
| Invariant.NewTaskInv | internal/store/store.go:102-164 | A created task satisfies the invariant, with or without steps |
| Invariant.RecoverKeeps | internal/store/store.go:309-370 | Recovery of an expired lease keeps the invariant; it converges the task to SUCCEEDED if and only if the task has no steps, and otherwise finds a current step and ends the task only as FAILED |
| Invariant.ControlledKeeps | internal/store/store.go:1111-1144 | Ending an open task by cancellation or deadline keeps the invariant, whatever its current step was doing |
| History.PerformGrows | internal/store/store.go:1314-1330 | Every transaction respects the preorder: write-once fields, append-only log, frozen terminal tasks, fencing, and the fates of a cancelled and of an overdue task |
| History.CancelHonoured | internal/store/store.go:905-907 | A transaction leaves a task with a cancel request alone or cancels it |
| History.DeadlineHonoured | internal/store/store.go:908-911 | A transaction leaves an overdue task alone, asks it to cancel, or ends it by timeout or cancellation |
| History.FencingHonoured | internal/store/store.go:247-273 | A lease version never changes owner, and an expired lease is not revived |
| History.TerminalFrozen | internal/store/store.go:935-940 | No transaction changes a terminal task |
| Runs.ReachableInv | internal/store/store.go:1283-1301 | The invariant, distinct idempotency keys, and the truth of every attempt ever handed out hold at the end of every run |
| Runs.RunGrows | internal/store/store.go:1283-1301 | Between any two points of a run no task is lost, and each has grown |
| Runs.NextUniqueKeys | internal/store/store.go:141-149 | An idempotency key names one step of one task, whatever is created or done |
| Runs.NextIssued | internal/store/store.go:497-514 | Every attempt ever handed out keeps carrying its step's own key, kind and stored input |
| Progress.Advances | internal/store/store.go:859-875 | A task advances by an accepted success or approval of its current step and by nothing else; nothing else touches the checkpoint |
| Resolve.ValidateReferences | internal/task/resolve.go:44-79 | Validation accepts exactly the values whose every "$ref" object is a known reference that is allowed there; a refusal names a fault that some node has |
| Resolve.ResolveValue | internal/task/resolve.go:81-129 | Resolution succeeds exactly when every reference is known and available, and then is one-pass substitution; a failure names a fault that some node has |
| Resolve.ResolveInput | internal/task/resolve.go:12-34 | The same for a step's input, a missing and a null previous output being both unavailable |
| Resolve.AcceptedResolves | internal/task/resolve.go:36-42 | A validated input resolves exactly when what it uses is there, so always with a checkpoint and an allowed previous output |
| Resolve.SubstituteIgnoresUnused | internal/task/resolve.go:81-129 | The result depends only on the values that the input refers to |
| Resolve.FirstStepIgnoresPrevious | internal/task/resolve.go:36-42 | Input validated with the previous output disallowed resolves independently of it |
| Resolve.ReferenceFreeUnchanged | internal/task/resolve.go:81-129 | A value without references resolves to itself |
| FakeTool.OneEffectPerStep | internal/faketool/handler.go:48-120 | Calls carrying the key and input of any attempt ever handed out, even to a fenced worker, never conflict, have one effect, get the first result, and are all counted |
| FakeTool.InvokeAnswer | internal/faketool/handler.go:48-120 | Exactly which calls are malformed, too large, in conflict or recorded; a new key's result is the payload's value, and a repeated key gets what was recorded |
| FakeTool.LedgerExact | internal/faketool/handler.go:85-120 | In every reachable state a key's entry has one effect, as many requests as calls, the result of its payload, and the payload of an attempt handed out |
| FakeTool.SameKeySameInput | internal/store/store.go:470-497 | Attempts that share an idempotency key share their stored input |
| FakeTool.StoreRuns | internal/faketool/handler.go:85-120 | Tool calls interleave with the store without disturbing its runs |
| FakeTool.Tool.Record | internal/faketool/handler.go:85-120 | The ledger row is inserted or its request count raised; a different payload conflicts and rolls back |
| FakeTool.Tool.Invoke | internal/faketool/handler.go:48-80 | Malformed or oversized calls leave the ledger alone; others are recorded with the result of their payload |
| FakeTool.Tool.constructor | internal/faketool/handler.go:39-46 | The tool attaches to the ledger as it is |
| Scheduler.Drain | internal/scheduler/scheduler.go:31-47 | The loop ends after exactly as many rounds as there are due tasks, each has made its one transition, no other task changed, and none is due |
| Scheduler.ServiceOrder | internal/store/store.go:1040-1085 | The chosen row always makes progress; a requested cancellation anywhere is served before deadlines, those before wake-ups, and of equal rank the earliest wake-up first |
| Scheduler.ProcessedIsNotDue | internal/store/store.go:1066-1085 | A processed task is no longer due |
| Worker.ExecuteClaim | internal/worker/worker.go:84-156 | The step loop ends; its task mirrors the reference; it stops only when its token no longer owns the task, the failure of the attempt of its last round is on record, there are no steps, a cancellation was requested, the deadline passed, the current input cannot be resolved, that attempt yielded no JSON, or the context ended that very round and none before; a conflict only if somebody else moves steps with its token; alone, it begins its step and stops only at a task that no longer runs or an input or output that will not do |
| Worker.RunSlot | internal/worker/worker.go:66-82 | A turn executes exactly what it was granted, under a token of its own name, and ends as the step loop does; alone, it starts the current step or puts it to its approval |
| Worker.Round | internal/worker/worker.go:93-154 | Going round again means the task is strictly nearer its end |
| Worker.AwaitDecision | internal/worker/worker.go:103-114 | After an approval step the claim is over, also when the wait was refused for a cancellation or the deadline |
| Worker.Begin | internal/worker/worker.go:115-119 | A started attempt is one the store handed out for this task |
| Worker.Report | internal/worker/worker.go:132-153 | A recorded success goes on with the step's output and checkpoint the product's own; a recorded error is on the step under its own text, with the task in RETRY_WAIT exactly if it was temporary and budget is left, else FAILED; a lost lease or passed deadline ends the claim |
| Worker.ReportIsKept | internal/worker/worker.go:132-139 | What an accepted report leaves behind, told from the execution: text, failure class and product are passed on as they are |
| Worker.WorkOn | internal/worker/worker.go:115-154 | Start, execute, report: going on means the task is strictly nearer its end; alone, the step is started |
| Worker.TimeoutClaim | internal/worker/worker.go:158-162 | Once the deadline has passed the claim is over, a pending cancellation winning over the deadline |
| Worker.CancelClaim | internal/worker/worker.go:202-204 | Once a cancellation is requested the claim is over |
| Worker.OversizedNeverRetries | internal/worker/worker.go:132-139 | An output or checkpoint over the limit ends the task as FAILED whatever budget is left |
| Worker.Later | internal/store/store.go:1327-1330 | Neither time nor other parties bring back a lost lease, withdraw a cancel request, lift a passed deadline or undo progress |
| Store.Store.constructor | internal/store/store.go:94-100 | The store attaches to whatever database a run has left; a non-positive lease duration becomes 30 seconds |
| Store.Store.CreateTask | internal/store/store.go:102-167 | Task, steps, of any number, and first events are inserted together, or nothing is when a key or CHECK constraint is violated |
| Store.Store.ClaimTask | internal/store/store.go:212-307 | The first claimable row in creation order is claimed or recovered as its transaction says; with none, nothing changes |
| Store.Store.RecoverExpiredTask | internal/store/store.go:309-370 | Recovery computes the model's transition and says whether it ended the task |
| Store.Store.RenewLease | internal/store/store.go:394-417 | The owner's lease runs from now; everyone else is refused without effect |
| Store.Store.InputOf | internal/store/store.go:470-486 | The stored input, else the configured one resolved against the previous output and the checkpoint |
| Store.Store.StartStep | internal/store/store.go:419-514 | The start transaction, its refusals and the attempt it returns |
| Store.Store.WaitForApproval | internal/store/store.go:519-616 | The approval wait, which releases the lease, and its refusals |
| Store.Store.DecideApproval | internal/store/store.go:618-758 | The decision transaction, its replay and its refusals |
| Store.Store.FinishStep | internal/store/store.go:760-884 | The finish transaction: success, retry, final failure, size limits and refusals |
| Store.Store.FinishControlledTask | internal/store/store.go:1111-1144 | Ending by cancellation or timeout, with its step and task events |
| Store.Store.TimeoutOwnedTask | internal/store/store.go:886-920 | The owner's timeout and its refusals in their order |
| Store.Store.CancelTask | internal/store/store.go:922-959 | Request on a running task, immediate end on any other open one, repeat and conflict on terminal ones |
| Store.Store.CancelOwnedTask | internal/store/store.go:961-992 | The owner's cancellation and its refusals |
| Store.Store.ProcessDueControl | internal/store/store.go:1026-1090 | The least due row in query order makes its transition and progress is reported, the default branch being unreachable; with none due nothing changes |
| Store.Store.WakeDueRetry | internal/store/store.go:1146-1188 | The earliest due retry is made runnable; with none due nothing changes |
| Store.SelectFirst | internal/store/store.go:1040-1055 | ORDER BY and LIMIT 1 return the least row exactly when there is one, and no other row could be the answer |
| Store.ClaimOrder | internal/store/store.go:238 | No other claimable row was created earlier than the one claimed, and ids settle ties |
| Store.DueOrder | internal/store/store.go:1048-1054 | No other due row outranks the one processed: cancellations, then passed deadlines, then the earliest wake-up, then the id |
| Store.RetryOrder | internal/store/store.go:1146-1176 | No other wakeable retry was due earlier than the one woken |

## Left out

- HTTP routing, JSON decoding and `validateDefinition`: one-branch checks. What validation guarantees is a precondition where it is needed.
- pgx, SQL text, lock and statement timeouts, connection failures, and PostgreSQL's isolation: each transaction is atomic, and its clock reads are no earlier than those of transactions committed before it, across all tasks. Transactions on different rows really overlap; an overlap commutes with a serial order except for these clock reads.
- Which rows other transactions hold locked (SKIP LOCKED) is a parameter.
- Concrete executors, network and timers: an executor is a function of kind and input to bytes, and a failure is any error with any class. The step timeout is one of those errors. How large an output is for an input is left to the executor; of echo only what `AcceptedButTooLarge` needs is stated.
- JSON at the level of bytes, and jsonb's normalisation of numbers: values are compared as values, and for the size limits of `FinishStep` and the fake tool a value of bytes has a length beside the JSON it spells.
- Goroutines, tickers and contexts: the heartbeat and the control poll are transactions that other parties send between any two calls of the worker, and the context is an oracle that the worker consults where the code does. That they are sent in time is not claimed, nor any wall-clock liveness; `NeverStranded` says only what could be done. The outer loops of `runSlot` and the polling intervals are not modelled, only one turn.
- `LoadTask`, `LoadEvents` and `CancellationRequested`: reads without effect. A failed read ends the step loop like a disturbed context.
- Identifier generation: ids are parameters, subject to the tables' primary keys and UNIQUE constraints.
- `tenant_id`, `updated_at`, `started_at`, `finished_at`, event times, and the copies of step and task fields in the payloads of events that the log's replay does not read.
- UnstableChecks.FailureCheckSound: one direction only. A later attempt or an ending overwrites a failed finish, so a committed one may go unconfirmed; likewise for an approval wait.
- The fake tool's `block_first_response` wait and Go's case-insensitive matching of field names.
- Logging, configuration and the migrations runner.
- Store.Store.Close: stands for COMMIT, and for ROLLBACK when a refused transaction's row is written back unchanged; a row is a value that the method edits and puts back, so partial writes visible inside the transaction are local variables.
- Scheduler.Drain: assumes that the clock stands still and nobody else acts; with others at work the loop has no bound, since they may keep making tasks due. The outer polling loop is not modelled.
- Worker.Others: stands for everybody else's transactions, so its contract allows any legal continuation of the run within the given company while its body does nothing; `ReadClock` likewise allows any later time.
- Worker.ExecuteClaim: a start or a finish refused for a cancellation ends the loop without cancelling the task, as in the code, so the claim may then still hold its lease until the heartbeat, the scheduler or expiry settles it.
- Takeovers.TakeoversBounded: counts granted takeovers; a recovery that ends the task grants no claim.
- RetryTiming.NoEarlyRetry: bounds the start from below only; an upper bound would be about when somebody asks.
