/** What each transaction of internal/store/store.go does to the task it locks. A transaction that
    is refused rolls back, so its task is returned as it was. Times are database clock reads:
    t1 after the row is locked, t2 in the statements that follow. */
module Transactions {
  import opened Basics
  import opened Resolve
  import opened Model

  datatype Tx = Tx(task: Task, reply: Reply)

  datatype Op =
    | Claim(worker: string, lease: Time, statement: Time)
    | Renew(tok: Token, lease: Time)
    | Start(tok: Token, stepId: Id)
    | Wait(tok: Token, stepId: Id)
    | Decide(stepId: Id, decision: string)
    | Finish(tok: Token, att: StepAttempt, out: Outcome)
    | TimeoutOwned(tok: Token)
    | Cancel
    | CancelOwned(tok: Token)
    | DueControl
    | WakeRetry

  function Perform(id: Id, t: Task, op: Op, t1: Time, t2: Time): Tx {
    match op
    case Claim(worker, lease, statement) => ClaimTx(t, worker, lease, t1, statement, t2)
    case Renew(tok, lease) => RenewTx(t, tok, lease, t1, t2)
    case Start(tok, stepId) => StartTx(id, t, tok, stepId, t1)
    case Wait(tok, stepId) => WaitTx(t, tok, stepId, t1)
    case Decide(stepId, decision) => DecideTx(t, stepId, decision, t1)
    case Finish(tok, att, out) => FinishTx(t, tok, att, out, t1, t2)
    case TimeoutOwned(tok) => TimeoutOwnedTx(t, tok, t1)
    case Cancel => CancelTx(t)
    case CancelOwned(tok) => CancelOwnedTx(t, tok, t1)
    case DueControl => DueControlTx(t, t1, t2)
    case WakeRetry => WakeRetryTx(t, t1)
  }

  // ----- Ownership -----

  predicate Owns(t: Task, tok: Token, now: Time) {
    && t.status.Running? && t.workerId == Some(tok.worker) && t.leaseVersion == tok.version
    && t.leaseExpiresAt.Some? && now < t.leaseExpiresAt.value
  }

  predicate DeadlinePassed(t: Task, now: Time) {
    t.deadlineAt.Some? && t.deadlineAt.value <= now
  }

  /** validateOwnership: None when the token may write. */
  function OwnershipError(t: Task, tok: Token, now: Time): Option<Err> {
    if !Owns(t, tok, now) then Some(LeaseLost)
    else if t.cancelRequested then Some(TaskCancelledErr)
    else if DeadlinePassed(t, now) then Some(DeadlineExceeded)
    else None
  }

  // ----- Claiming -----

  predicate Claimable(t: Task, now: Time) {
    && (|| (t.status.Runnable? && t.runAt <= now)
        || (t.status.Running? && t.leaseExpiresAt.Some? && t.leaseExpiresAt.value <= now))
    && !t.cancelRequested && !DeadlinePassed(t, now)
  }

  /** recoverExpiredTask. A task it ends is left without a lease. */
  function Recover(t: Task): Task {
    var expired := t.(log := t.log + [LeaseExpired(t.workerId, t.leaseVersion)]);
    if |t.steps| <= t.currentStep then
      expired.(status := TaskStatus.Succeeded, workerId := None, leaseExpiresAt := None,
               log := expired.log + [TaskSucceeded])
    else if !t.steps[t.currentStep].status.Running? then
      expired
    else if t.steps[t.currentStep].attempt < t.steps[t.currentStep].def.maxAttempts then
      Abandon(expired)
    else
      Exhaust(expired)
  }

  function Abandon(t: Task): Task
    requires t.currentStep < |t.steps|
  {
    var s := t.steps[t.currentStep];
    var owner := match t.workerId case None => None case Some(w) => Some(Token(w, t.leaseVersion));
    t.(steps := t.steps[t.currentStep := s.(status := StepStatus.Failed, error := Some("worker_lost"))],
       log := t.log + [StepFailed(s.id, t.currentStep, s.attempt, "worker_lost", owner)])
  }

  /** The lost attempt was the step's last. */
  function Exhaust(t: Task): Task
    requires t.currentStep < |t.steps|
  {
    var lost := Abandon(t);
    lost.(status := TaskStatus.Failed, workerId := None, leaseExpiresAt := None, log := lost.log + [TaskFailed])
  }

  function Assign(t: Task, worker: string, lease: Time, statement: Time, now: Time): Task {
    t.(status := TaskStatus.Running, workerId := Some(worker), leaseVersion := t.leaseVersion + 1,
       leaseExpiresAt := Some(now + lease),
       firstStartedAt := if t.firstStartedAt.Some? then t.firstStartedAt else Some(statement),
       deadlineAt := if t.deadlineAt.Some? then t.deadlineAt else Some(statement + t.timeoutSeconds * SECOND),
       log := t.log + [TaskClaimed(worker, t.leaseVersion + 1)])
  }

  /** The takeover event, written between recovery and assignment. */
  function Announce(t: Task, worker: string): Task {
    t.(log := t.log + [TaskRecovered(t.workerId, t.leaseVersion, worker, t.leaseVersion + 1)])
  }

  function ClaimTx(t: Task, worker: string, lease: Time, t1: Time, statement: Time, t2: Time): Tx {
    if worker == "" then
      Tx(t, Refused(Invalid))
    else if !Claimable(t, t1) then
      Tx(t, Refused(NoTask))
    else if t.status.Running? && Terminal(Recover(t).status) then
      Tx(Recover(t), Refused(NoTask))
    else
      var owned := Assign(if t.status.Running? then Announce(Recover(t), worker) else t, worker, lease, statement, t2);
      Tx(owned, Granted(Token(worker, owned.leaseVersion), t2 + lease, owned.deadlineAt.value))
  }

  function RenewTx(t: Task, tok: Token, lease: Time, t1: Time, t2: Time): Tx {
    match OwnershipError(t, tok, t1)
    case Some(e) => Tx(t, Refused(e))
    case None => Tx(t.(leaseExpiresAt := Some(t2 + lease)), Done)
  }

  // ----- Starting a step -----

  /** The input an attempt runs on: the stored one, else the configured one resolved now. */
  function InputFor(t: Task, index: nat): Option<Json>
    requires index < |t.steps|
  {
    if t.steps[index].resolved.Some? then t.steps[index].resolved
    else Resolution(t.steps[index].def.input, PreviousOutput(t.steps, index), t.checkpoint)
  }

  predicate Startable(t: Task, index: nat)
    requires index < |t.steps|
  {
    var s := t.steps[index];
    && !IsApproval(s) && index == t.currentStep && (s.status.Pending? || s.status.Failed?)
    && s.attempt < s.def.maxAttempts && PredecessorsSucceeded(t.steps, index)
  }

  function StartTx(id: Id, t: Task, tok: Token, stepId: Id, t1: Time): Tx {
    match OwnershipError(t, tok, t1)
    case Some(e) => Tx(t, Refused(e))
    case None =>
      match Lookup(t.steps, stepId)
      case None => Tx(t, Refused(Conflict))
      case Some(k) =>
        if !Startable(t, k) then Tx(t, Refused(Conflict))
        else if InputFor(t, k).None? then Tx(t, Refused(Invalid))
        else
          var started := StartStep(t, k, tok, InputFor(t, k).value);
          Tx(started, Attempt(AttemptOf(id, started.steps[k], k)))
  }

  function StartStep(t: Task, k: nat, tok: Token, input: Json): (t': Task)
    requires k < |t.steps|
    ensures |t'.steps| == |t.steps| && t'.steps[k].resolved.Some?
  {
    var s := t.steps[k];
    var n := s.attempt + 1;
    t.(steps := t.steps[k := s.(status := StepStatus.Running, attempt := n, resolved := Some(input), error := None)],
       log := t.log + [StepStarted(s.id, k, n, tok.worker, tok.version)])
  }

  /** What StartStep returns about the attempt it began. */
  function AttemptOf(taskId: Id, s: Step, index: int): StepAttempt
    requires s.resolved.Some?
  {
    StepAttempt(taskId, s.id, index, s.def.kind, s.attempt, s.def.maxAttempts, s.key, s.resolved.value,
                s.def.timeoutSeconds)
  }

  // ----- Approval -----

  predicate Waitable(t: Task, index: nat)
    requires index < |t.steps|
  {
    var s := t.steps[index];
    && IsApproval(s) && index == t.currentStep && s.status.Pending? && s.attempt == 0
    && PredecessorsSucceeded(t.steps, index)
  }

  function WaitTx(t: Task, tok: Token, stepId: Id, t1: Time): Tx {
    match OwnershipError(t, tok, t1)
    case Some(e) => Tx(t, Refused(e))
    case None =>
      match Lookup(t.steps, stepId)
      case None => Tx(t, Refused(Conflict))
      case Some(k) =>
        if !Waitable(t, k) then Tx(t, Refused(Conflict))
        else if InputFor(t, k).None? then Tx(t, Refused(Invalid))
        else Tx(AwaitApproval(t, k, InputFor(t, k).value), Done)
  }

  function AwaitApproval(t: Task, k: nat, input: Json): Task
    requires k < |t.steps|
  {
    var s := t.steps[k];
    t.(steps := t.steps[k := s.(status := StepStatus.WaitingApproval, resolved := Some(input), error := None)],
       status := TaskStatus.WaitingApproval, workerId := None, leaseExpiresAt := None, retryAt := None,
       log := t.log + [TaskWaitingApproval(s.id, k)])
  }

  predicate Decidable(t: Task, index: nat, now: Time)
    requires index < |t.steps|
  {
    var s := t.steps[index];
    && t.status.WaitingApproval? && IsApproval(s) && s.status.WaitingApproval? && index == t.currentStep
    && !t.cancelRequested && !DeadlinePassed(t, now)
  }

  function DecideTx(t: Task, stepId: Id, decision: string, t1: Time): Tx {
    if decision != APPROVED && decision != REJECTED then
      Tx(t, Refused(Conflict))
    else
      match Lookup(t.steps, stepId)
      case None => Tx(t, Refused(NotFound))
      case Some(k) =>
        var s := t.steps[k];
        if s.decision.Some? then
          Tx(t, if s.decision.value == decision then Decided(decision, t.status) else Refused(Conflict))
        else if !Decidable(t, k, t1) then
          Tx(t, Refused(Conflict))
        else if decision == APPROVED then
          Tx(Approve(t, k), Decided(decision, Approve(t, k).status))
        else
          Tx(Reject(t, k), Decided(decision, TaskStatus.Failed))
  }

  function Approve(t: Task, k: nat): Task
    requires k < |t.steps|
  {
    var s := t.steps[k];
    var last := k + 1 == |t.steps|;
    t.(steps := t.steps[k := s.(decision := Some(APPROVED), status := StepStatus.Succeeded, error := None)],
       status := if last then TaskStatus.Succeeded else TaskStatus.Runnable,
       currentStep := k + 1, workerId := None, leaseExpiresAt := None, retryAt := None,
       log := t.log + [TaskApproved(s.id, k, APPROVED)] + (if last then [TaskSucceeded] else []))
  }

  function Reject(t: Task, k: nat): Task
    requires k < |t.steps|
  {
    var s := t.steps[k];
    t.(steps := t.steps[k := s.(decision := Some(REJECTED), status := StepStatus.Failed, error := Some(REJECTION))],
       status := TaskStatus.Failed, workerId := None, leaseExpiresAt := None, retryAt := None,
       log := t.log + [TaskRejected(s.id, k, REJECTED)] + [TaskFailed])
  }

  // ----- Finishing a step -----

  function Pow2(n: int): (p: int)
    ensures p >= 1
  {
    if n <= 0 then 1 else 2 * Pow2(n - 1)
  }

  /** Back-off in seconds after the n-th attempt failed: a shift capped at 6 bits and at 60. */
  function DelaySeconds(n: int): int {
    var shifted := Pow2(if n - 1 < 6 then n - 1 else 6);
    if shifted > 60 then 60 else shifted
  }

  function EffectiveError(out: Outcome): string {
    if out.checkpoint.size > MAX_JSON_BYTES then "checkpoint_too_large"
    else if out.output.size > MAX_JSON_BYTES then "output_too_large"
    else out.error
  }

  predicate Retries(s: Step, att: StepAttempt, out: Outcome) {
    out.failureClass.Temporary? && att.attempt < s.def.maxAttempts
  }

  predicate Finishable(t: Task, index: nat, att: StepAttempt)
    requires index < |t.steps|
  {
    t.steps[index].status.Running? && t.steps[index].attempt == att.attempt && index == t.currentStep
  }

  predicate WellFormedOutcome(out: Outcome) {
    && out.output.size > 0 && out.output.json.Some?
    && (out.checkpoint.size > 0 ==> out.checkpoint.json.Some?)
  }

  function FinishTx(t: Task, tok: Token, att: StepAttempt, out: Outcome, t1: Time, t2: Time): Tx {
    match OwnershipError(t, tok, t1)
    case Some(e) => Tx(t, Refused(e))
    case None =>
      match Lookup(t.steps, att.stepId)
      case None => Tx(t, Refused(Conflict))
      case Some(k) =>
        var error := EffectiveError(out);
        if !Finishable(t, k, att) then Tx(t, Refused(Conflict))
        else if error != "" then Tx(FailStep(t, k, tok, att, error, Retries(t.steps[k], att, out), t2), Done)
        else if !WellFormedOutcome(out) then Tx(t, Refused(Invalid))
        else Tx(SucceedStep(t, k, tok, att, out), Done)
  }

  function FailStep(t: Task, k: nat, tok: Token, att: StepAttempt, error: string, retrying: bool, t2: Time): Task
    requires k < |t.steps|
  {
    var s := t.steps[k];
    t.(steps := t.steps[k := s.(status := StepStatus.Failed, output := None, error := Some(error))],
       status := if retrying then TaskStatus.RetryWait else TaskStatus.Failed,
       retryAt := if retrying then Some(t2 + DelaySeconds(att.attempt) * SECOND) else None,
       workerId := None, leaseExpiresAt := None,
       log := t.log + [StepFailed(att.stepId, att.index, att.attempt, error, Some(tok))]
                    + [if retrying then TaskRetryWait(att.stepId, att.attempt) else TaskFailed])
  }

  function SucceedStep(t: Task, k: nat, tok: Token, att: StepAttempt, out: Outcome): Task
    requires k < |t.steps|
  {
    var s := t.steps[k];
    var last := k + 1 == |t.steps|;
    t.(steps := t.steps[k := s.(status := StepStatus.Succeeded, output := out.output.json, error := None)],
       currentStep := k + 1,
       checkpoint := if out.checkpoint.size > 0 then Decoded(out.checkpoint.json) else t.checkpoint,
       status := if last then TaskStatus.Succeeded else t.status,
       workerId := if last then None else t.workerId,
       leaseExpiresAt := if last then None else t.leaseExpiresAt,
       log := t.log + [StepSucceeded(att.stepId, att.index, att.attempt, tok.worker, tok.version)]
                    + (if last then [TaskSucceeded] else []))
  }

  // ----- Cancellation, deadline, wake-up -----

  datatype Ending = ByCancel | ByTimeout

  function Reason(e: Ending): string {
    match e case ByCancel => "user_cancelled" case ByTimeout => "task_timeout"
  }

  /** finishControlledTask. */
  function Controlled(t: Task, e: Ending): Task {
    var ended := t.(
      status := match e case ByCancel => TaskStatus.Cancelled case ByTimeout => TaskStatus.TimedOut,
      retryAt := None, workerId := None, leaseExpiresAt := None);
    var event := match e
      case ByCancel => TaskCancelled(t.currentStep, Reason(e))
      case ByTimeout => TaskTimedOut(t.currentStep, Reason(e));
    if t.currentStep < |t.steps| && !t.steps[t.currentStep].status.Succeeded? then
      var s := t.steps[t.currentStep];
      ended.(steps := t.steps[t.currentStep := s.(status := StepStatus.Failed, output := None,
                                                  error := Some(Reason(e)))],
             log := t.log + [StepFailed(s.id, t.currentStep, s.attempt, Reason(e), None)] + [event])
    else
      ended.(log := t.log + [event])
  }

  function TimeoutOwnedTx(t: Task, tok: Token, t1: Time): Tx {
    if t.status.TimedOut? then Tx(t, Done)
    else if !Owns(t, tok, t1) then Tx(t, Refused(LeaseLost))
    else if t.cancelRequested then Tx(t, Refused(TaskCancelledErr))
    else if !DeadlinePassed(t, t1) then Tx(t, Refused(Conflict))
    else Tx(Controlled(t, ByTimeout), Done)
  }

  function CancelTx(t: Task): Tx {
    if t.status.Cancelled? then Tx(t, CancelledNow)
    else if Terminal(t.status) then Tx(t, Refused(Conflict))
    else if t.status.Running? then Tx(t.(cancelRequested := true), CancellationRequested)
    else Tx(Controlled(t, ByCancel), CancelledNow)
  }

  function CancelOwnedTx(t: Task, tok: Token, t1: Time): Tx {
    if t.status.Cancelled? then Tx(t, Done)
    else if !Owns(t, tok, t1) then Tx(t, Refused(LeaseLost))
    else if !t.cancelRequested then Tx(t, Refused(Conflict))
    else Tx(Controlled(t, ByCancel), Done)
  }

  predicate RetryDue(t: Task, now: Time) {
    t.status.RetryWait? && t.retryAt.Some? && t.retryAt.value <= now
  }

  predicate ScheduleDue(t: Task, now: Time) {
    t.status.Scheduled? && t.runAt <= now
  }

  predicate Due(t: Task, now: Time) {
    && !Terminal(t.status)
    && (t.cancelRequested || DeadlinePassed(t, now) || RetryDue(t, now) || ScheduleDue(t, now))
  }

  function WokenRetry(t: Task): Task {
    t.(status := TaskStatus.Runnable, retryAt := None, log := t.log + [TaskRetryReady])
  }

  function WokenSchedule(t: Task): Task {
    t.(status := TaskStatus.Runnable, log := t.log + [TaskRunnable(t.runAt)])
  }

  /** ProcessDueControl on the row its query selected at t1, judged again at t2. */
  function DueControlTx(t: Task, t1: Time, t2: Time): Tx {
    if !Due(t, t1) then Tx(t, Processed(false))
    else if t.cancelRequested then Tx(Controlled(t, ByCancel), Processed(true))
    else if DeadlinePassed(t, t2) then Tx(Controlled(t, ByTimeout), Processed(true))
    else if RetryDue(t, t2) then Tx(WokenRetry(t), Processed(true))
    else if ScheduleDue(t, t2) then Tx(WokenSchedule(t), Processed(true))
    else Tx(t, Processed(false))
  }

  predicate RetryWakeable(t: Task, now: Time) {
    RetryDue(t, now) && !t.cancelRequested && !DeadlinePassed(t, now)
  }

  function WakeRetryTx(t: Task, t1: Time): Tx {
    if RetryWakeable(t, t1) then Tx(WokenRetry(t), Processed(true)) else Tx(t, Processed(false))
  }

  // ----- Creation -----

  const EMPTY_CHECKPOINT: Json := Obj(map[])

  function NewStep(taskId: Id, stepId: Id, def: StepDef): Step {
    Step(stepId, taskId + ":" + stepId, def, StepStatus.Pending, 0, None, None, None, None)
  }

  function NewSteps(taskId: Id, stepIds: seq<Id>, defs: seq<StepDef>): seq<Step>
    requires |stepIds| == |defs|
  {
    seq(|defs|, i requires 0 <= i < |defs| => NewStep(taskId, stepIds[i], defs[i]))
  }

  function NewTask(taskId: Id, stepIds: seq<Id>, d: Definition, t1: Time, t2: Time): Task
    requires |stepIds| == |d.steps|
  {
    var runAt := if d.runAt.Some? then d.runAt.value else t1;
    var later := t1 < runAt;
    Task(if later then TaskStatus.Scheduled else TaskStatus.Runnable, t2, runAt, d.timeoutSeconds,
         None, 0, None, None, false, 0, EMPTY_CHECKPOINT, None, None,
         NewSteps(taskId, stepIds, d.steps),
         [TaskCreated(|d.steps|)] + (if later then [TaskScheduled(runAt)] else []))
  }
}
