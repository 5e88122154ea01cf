/** The rows of tasks, task_steps and task_events (internal/migrations/sql/001_init.sql,
    internal/task/model.go), gathered per task, and the values the store exchanges with its callers. */
module Model {
  import opened Basics
  import opened Resolve

  const APPROVAL := "approval"
  const APPROVED := "approved"
  const REJECTED := "rejected"
  /** The error of a rejected step. */
  const REJECTION := "approval_rejected"

  datatype TaskStatus =
    | Scheduled | Runnable | Running | RetryWait | WaitingApproval
    | Succeeded | Failed | Cancelled | TimedOut

  datatype StepStatus = Pending | Running | WaitingApproval | Succeeded | Failed

  /** The columns that the trigger task_step_definition_immutable protects. */
  datatype StepDef = StepDef(kind: string, input: Json, timeoutSeconds: int, maxAttempts: int)

  datatype Definition = Definition(runAt: Option<Time>, timeoutSeconds: int, steps: seq<StepDef>)

  datatype Step = Step(
    id: Id, key: string, def: StepDef,
    status: StepStatus, attempt: nat,
    resolved: Option<Json>, output: Option<Json>, error: Option<string>, decision: Option<string>)

  datatype Event =
    | TaskCreated(stepCount: nat)
    | TaskScheduled(runAt: Time)
    | TaskRunnable(runAt: Time)
    | TaskClaimed(worker: string, version: nat)
    | LeaseExpired(lostWorker: Option<string>, lostVersion: nat)
    | TaskRecovered(lostWorker: Option<string>, lostVersion: nat, worker: string, version: nat)
    | StepStarted(stepId: Id, index: int, attempt: int, worker: string, version: nat)
    | StepSucceeded(stepId: Id, index: int, attempt: int, worker: string, version: nat)
    | StepFailed(stepId: Id, index: int, attempt: int, error: string, owner: Option<Token>)
    | TaskRetryWait(stepId: Id, attempt: int)
    | TaskRetryReady
    | TaskWaitingApproval(stepId: Id, index: int)
    | TaskApproved(stepId: Id, index: int, decision: string)
    | TaskRejected(stepId: Id, index: int, decision: string)
    | TaskSucceeded
    | TaskFailed
    | TaskCancelled(index: int, error: string)
    | TaskTimedOut(index: int, error: string)

  /** One task row with its step rows in step_index order and its events in id order. */
  datatype Task = Task(
    status: TaskStatus, createdAt: Time, runAt: Time, timeoutSeconds: int,
    workerId: Option<string>, leaseVersion: nat, leaseExpiresAt: Option<Time>,
    retryAt: Option<Time>, cancelRequested: bool,
    currentStep: nat, checkpoint: Json,
    firstStartedAt: Option<Time>, deadlineAt: Option<Time>,
    steps: seq<Step>, log: seq<Event>)

  /** A lease token; its task is given beside it. */
  datatype Token = Token(worker: string, version: nat)

  datatype StepAttempt = StepAttempt(
    taskId: Id, stepId: Id, index: int, kind: string, attempt: int, maxAttempts: int,
    key: string, resolved: Json, timeoutSeconds: int)

  /** Raw bytes, of which only the length and the JSON value they spell (if any) matter. */
  datatype Bytes = Bytes(size: nat, json: Option<Json>)

  const MAX_JSON_BYTES := 1_048_576

  datatype FailureClass = Unclassified | Permanent | Temporary

  /** What a worker reports about an attempt; an empty error means success. */
  datatype Outcome = Outcome(output: Bytes, checkpoint: Bytes, error: string, failureClass: FailureClass)

  datatype Err = NotFound | NoTask | LeaseLost | Conflict | TaskCancelledErr | DeadlineExceeded | Invalid

  datatype Reply =
    | Done
    | Refused(error: Err)
    | Granted(token: Token, expiresAt: Time, deadlineAt: Time)
    | Attempt(attempt: StepAttempt)
    | Decided(decision: string, status: TaskStatus)
    | CancelledNow
    | CancellationRequested
    | Processed(progress: bool)

  predicate Terminal(status: TaskStatus) {
    status.Succeeded? || status.Failed? || status.Cancelled? || status.TimedOut?
  }

  predicate IsApproval(s: Step) {
    s.def.kind == APPROVAL
  }

  /** SELECT ... FROM task_steps WHERE task_id = $1 AND id = $2. */
  function Lookup(steps: seq<Step>, id: Id): (found: Option<nat>)
    ensures found.Some? ==> found.value < |steps| && steps[found.value].id == id
    ensures found.None? ==> forall i | 0 <= i < |steps| :: steps[i].id != id
  {
    if steps == [] then None
    else if steps[|steps| - 1].id == id then Some(|steps| - 1)
    else Lookup(steps[..|steps| - 1], id)
  }

  function Defs(steps: seq<Step>): (d: seq<StepDef>)
    ensures |d| == |steps|
  {
    seq(|steps|, i requires 0 <= i < |steps| => steps[i].def)
  }

  predicate DistinctIds(steps: seq<Step>) {
    forall i, j | 0 <= i < j < |steps| :: steps[i].id != steps[j].id
  }

  predicate PredecessorsSucceeded(steps: seq<Step>, index: nat) {
    forall i | 0 <= i < index && i < |steps| :: steps[i].status.Succeeded?
  }

  /** The output that "previous_output" names for the step at this index. */
  function PreviousOutput(steps: seq<Step>, index: nat): Option<Json>
    requires index <= |steps|
  {
    if index == 0 then None else steps[index - 1].output
  }
}
