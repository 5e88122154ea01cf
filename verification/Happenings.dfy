/** What can happen to an open task, told from the task, the call and the clock alone, before the call. The
    guards are written out on the columns of the row, apart from the transactions that test them. */
module Happenings {
  import opened Basics
  import opened Resolve
  import opened Model
  import opened Transactions

  predicate InTime(t: Task, now: Time) {
    t.deadlineAt.Some? ==> now < t.deadlineAt.value
  }

  predicate Holds(t: Task, tok: Token, now: Time) {
    && t.status.Running? && t.workerId == Some(tok.worker) && t.leaseVersion == tok.version
    && t.leaseExpiresAt.Some? && now < t.leaseExpiresAt.value
  }

  /** The sender holds the lease, in time, and was not asked to stop. */
  predicate MayWrite(t: Task, tok: Token, now: Time) {
    Holds(t, tok, now) && !t.cancelRequested && InTime(t, now)
  }

  predicate AtCurrent(t: Task, stepId: Id) {
    t.currentStep < |t.steps| && t.steps[t.currentStep].id == stepId
  }

  // ----- Claims -----

  predicate Expired(t: Task, now: Time) {
    t.status.Running? && t.leaseExpiresAt.Some? && t.leaseExpiresAt.value <= now
  }

  predicate Takes(t: Task, op: Op, t1: Time) {
    op.Claim? && op.worker != "" && !t.cancelRequested && InTime(t, t1)
  }

  /** A claim finds the lease of a running attempt expired. */
  predicate Loses(t: Task, op: Op, t1: Time) {
    Takes(t, op, t1) && Expired(t, t1) && t.currentStep < |t.steps| && t.steps[t.currentStep].status.Running?
  }

  predicate LosesLast(t: Task, op: Op, t1: Time) {
    Loses(t, op, t1) && t.steps[t.currentStep].attempt >= t.steps[t.currentStep].def.maxAttempts
  }

  predicate Converges(t: Task, op: Op, t1: Time) {
    Takes(t, op, t1) && Expired(t, t1) && |t.steps| <= t.currentStep
  }

  predicate Grants(t: Task, op: Op, t1: Time) {
    && Takes(t, op, t1)
    && (|| (t.status.Runnable? && t.runAt <= t1)
        || (Expired(t, t1) && t.currentStep < |t.steps| && !LosesLast(t, op, t1)))
  }

  /** A granted claim of an expired lease. */
  predicate TakesOver(t: Task, op: Op, t1: Time) {
    Grants(t, op, t1) && t.status.Running?
  }

  predicate Renews(t: Task, op: Op, t1: Time) {
    op.Renew? && MayWrite(t, op.tok, t1)
  }

  // ----- Steps -----

  predicate Begins(t: Task, op: Op, t1: Time) {
    && op.Start? && MayWrite(t, op.tok, t1) && AtCurrent(t, op.stepId)
    && var s := t.steps[t.currentStep];
       && s.def.kind != "approval" && (s.status.Pending? || s.status.Failed?) && s.attempt < s.def.maxAttempts
       && InputFor(t, t.currentStep).Some?
  }

  predicate Pauses(t: Task, op: Op, t1: Time) {
    && op.Wait? && MayWrite(t, op.tok, t1) && AtCurrent(t, op.stepId)
    && t.steps[t.currentStep].def.kind == "approval" && t.steps[t.currentStep].status.Pending?
    && InputFor(t, t.currentStep).Some?
  }

  /** A first decision on the step that waits for one. */
  predicate Decides(t: Task, op: Op, t1: Time) {
    && op.Decide? && t.status.WaitingApproval? && AtCurrent(t, op.stepId)
    && t.steps[t.currentStep].status.WaitingApproval? && !t.cancelRequested && InTime(t, t1)
  }

  predicate Approves(t: Task, op: Op, t1: Time) {
    Decides(t, op, t1) && op.decision == "approved"
  }

  predicate Rejects(t: Task, op: Op, t1: Time) {
    Decides(t, op, t1) && op.decision == "rejected"
  }

  /** The owner reports on the running attempt. */
  predicate Finishes(t: Task, op: Op, t1: Time) {
    && op.Finish? && MayWrite(t, op.tok, t1) && AtCurrent(t, op.att.stepId)
    && t.steps[t.currentStep].status.Running? && t.steps[t.currentStep].attempt == op.att.attempt
  }

  const LIMIT := 1_048_576

  predicate TooLarge(out: Outcome) {
    out.output.size > LIMIT || out.checkpoint.size > LIMIT
  }

  predicate Succeeds(t: Task, op: Op, t1: Time) {
    && Finishes(t, op, t1) && op.out.error == "" && !TooLarge(op.out)
    && op.out.output.size > 0 && op.out.output.json.Some?
    && (op.out.checkpoint.size > 0 ==> op.out.checkpoint.json.Some?)
  }

  predicate FailsStep(t: Task, op: Op, t1: Time) {
    Finishes(t, op, t1) && (op.out.error != "" || TooLarge(op.out))
  }

  predicate WillRetry(t: Task, op: Op, t1: Time) {
    && FailsStep(t, op, t1) && op.out.failureClass.Temporary?
    && t.steps[t.currentStep].attempt < t.steps[t.currentStep].def.maxAttempts
  }

  predicate GivesUp(t: Task, op: Op, t1: Time) {
    FailsStep(t, op, t1) && !WillRetry(t, op, t1)
  }

  /** The text under which a failure is recorded. */
  function FailureText(out: Outcome): string {
    if out.checkpoint.size > LIMIT then "checkpoint_too_large"
    else if out.output.size > LIMIT then "output_too_large"
    else out.error
  }

  // ----- Endings and wake-ups -----

  predicate Cancels(t: Task, op: Op, t1: Time) {
    match op
    case Cancel => !t.status.Running?
    case CancelOwned(tok) => t.cancelRequested && Holds(t, tok, t1)
    case DueControl => t.cancelRequested
    case _ => false
  }

  predicate TimesOut(t: Task, op: Op, t1: Time, t2: Time) {
    match op
    case TimeoutOwned(tok) => !t.cancelRequested && Holds(t, tok, t1) && !InTime(t, t1)
    case DueControl =>
      !t.cancelRequested && !InTime(t, t2) && (!InTime(t, t1) || RetryIsDue(t, t1) || StartIsDue(t, t1))
    case _ => false
  }

  /** The calls that end an open task by cancellation or by its deadline. */
  predicate EndsTask(t: Task, op: Op, t1: Time, t2: Time) {
    Cancels(t, op, t1) || TimesOut(t, op, t1, t2)
  }

  predicate RetryIsDue(t: Task, now: Time) {
    t.status.RetryWait? && t.retryAt.Some? && t.retryAt.value <= now
  }

  predicate StartIsDue(t: Task, now: Time) {
    t.status.Scheduled? && t.runAt <= now
  }

  predicate WakesRetry(t: Task, op: Op, t1: Time, t2: Time) {
    RetryIsDue(t, t1) && ((op.WakeRetry? && InTime(t, t1)) || (op.DueControl? && InTime(t, t2)))
  }

  predicate WakesSchedule(t: Task, op: Op, t1: Time, t2: Time) {
    StartIsDue(t, t1) && op.DueControl? && InTime(t, t2)
  }

  // ----- Summaries -----

  /** What fails the current step, and under which text. */
  predicate Breaks(t: Task, op: Op, t1: Time, t2: Time, text: string) {
    || (FailsStep(t, op, t1) && text == FailureText(op.out))
    || (Loses(t, op, t1) && text == "worker_lost")
    || (Rejects(t, op, t1) && text == "approval_rejected")
    || (Cancels(t, op, t1) && text == "user_cancelled")
    || (TimesOut(t, op, t1, t2) && text == "task_timeout")
  }

  predicate IsLast(t: Task) { t.currentStep + 1 == |t.steps| }

  function After(t: Task, op: Op, t1: Time, t2: Time): TaskStatus {
    if Cancels(t, op, t1) then TaskStatus.Cancelled
    else if TimesOut(t, op, t1, t2) then TaskStatus.TimedOut
    else if LosesLast(t, op, t1) || Rejects(t, op, t1) || GivesUp(t, op, t1) then TaskStatus.Failed
    else if Converges(t, op, t1) then TaskStatus.Succeeded
    else if (Succeeds(t, op, t1) || Approves(t, op, t1)) && IsLast(t) then TaskStatus.Succeeded
    else if Grants(t, op, t1) then TaskStatus.Running
    else if Pauses(t, op, t1) then TaskStatus.WaitingApproval
    else if WillRetry(t, op, t1) then TaskStatus.RetryWait
    else if WakesRetry(t, op, t1, t2) || WakesSchedule(t, op, t1, t2) || Approves(t, op, t1) then TaskStatus.Runnable
    else t.status
  }
}
