/** The transactions seen from the other side: for every column of the row, for every step, for the log and for
    the answer, what each happening makes of it and that nothing else moves it. */
module Columns {
  import opened Basics
  import opened Resolve
  import opened Model
  import opened Transactions
  import opened Happenings
  import opened Guards
  import opened Invariant

  /** A cancellation that can only be asked for. */
  predicate Asks(t: Task, op: Op) {
    op.Cancel? && t.status.Running?
  }

  /** Which effect a call on an open task has. */
  function Effect(t: Task, op: Op, t1: Time, t2: Time): Task {
    match op
    case Claim(worker, lease, statement) =>
      if LosesLast(t, op, t1) || Converges(t, op, t1) then Recover(t)
      else if TakesOver(t, op, t1) then Assign(Announce(Recover(t), worker), worker, lease, statement, t2)
      else if Grants(t, op, t1) then Assign(t, worker, lease, statement, t2)
      else t
    case Renew(_, lease) => if Renews(t, op, t1) then t.(leaseExpiresAt := Some(t2 + lease)) else t
    case Start(tok, _) =>
      if Begins(t, op, t1) then StartStep(t, t.currentStep, tok, InputFor(t, t.currentStep).value) else t
    case Wait(_, _) =>
      if Pauses(t, op, t1) then AwaitApproval(t, t.currentStep, InputFor(t, t.currentStep).value) else t
    case Decide(_, _) =>
      if Approves(t, op, t1) then Approve(t, t.currentStep)
      else if Rejects(t, op, t1) then Reject(t, t.currentStep)
      else t
    case Finish(tok, att, out) =>
      if Succeeds(t, op, t1) then SucceedStep(t, t.currentStep, tok, att, out)
      else if FailsStep(t, op, t1) then
        FailStep(t, t.currentStep, tok, att, EffectiveError(out), WillRetry(t, op, t1), t2)
      else t
    case Cancel => if Asks(t, op) then t.(cancelRequested := true) else Controlled(t, ByCancel)
    case _ =>
      if Cancels(t, op, t1) then Controlled(t, ByCancel)
      else if TimesOut(t, op, t1, t2) then Controlled(t, ByTimeout)
      else if WakesRetry(t, op, t1, t2) then WokenRetry(t)
      else if WakesSchedule(t, op, t1, t2) then WokenSchedule(t)
      else t
  }

  lemma DispatchSteps(id: Id, t: Task, op: Op, t1: Time, t2: Time)
    requires Inv(t) && (op.Start? || op.Wait? || op.Decide? || op.Finish?)
    ensures Perform(id, t, op, t1, t2).task == Effect(t, op, t1, t2)
  {
    hide Inv, InputFor, StartStep, AwaitApproval, Approve, Reject, SucceedStep, FailStep, EffectiveError,
      WellFormedOutcome, MayWrite, AtCurrent, Startable, Waitable, Decidable, Finishable, OwnershipError, TooLarge;
    InvShape(t);
    match op
    case Start(_, _) => StartGuard(t, op, t1);
    case Wait(_, _) => WaitGuard(t, op, t1);
    case Decide(_, _) => DecideGuard(t, op, t1);
    case Finish(_, _, _) =>
      FinishGuard(t, op, t1);
      ReportGuard(t, op, t1);
  }

  lemma Dispatch(id: Id, t: Task, op: Op, t1: Time, t2: Time)
    requires Inv(t) && !Terminal(t.status) && t1 <= t2
    ensures Perform(id, t, op, t1, t2).task == Effect(t, op, t1, t2)
  {
    hide Inv, Recover, Assign, Announce, Controlled, WokenRetry, WokenSchedule, MayWrite, OwnershipError, Takes;
    InvRow(t);
    match op
    case Claim(worker, _, _) => if worker != "" { ClaimGuard(t, op, t1); } else { Nameless(t, op, t1); }
    case Renew(tok, _) => OwnerGuard(t, tok, t1);
    case TimeoutOwned(tok) => OwnerGuard(t, tok, t1);
    case Cancel =>
    case CancelOwned(tok) => OwnerGuard(t, tok, t1);
    case DueControl => DueGuard(t, t1, t2);
    case WakeRetry => OwnerGuard(t, Token("", 0), t1);
    case _ => DispatchSteps(id, t, op, t1, t2);
  }

  lemma Nameless(t: Task, op: Op, t1: Time)
    requires op.Claim? && op.worker == ""
    ensures !Takes(t, op, t1)
  {
  }

  /** Which calls a happening can come from, and what they find. */
  lemma Kinds(t: Task, op: Op, t1: Time, t2: Time)
    ensures Grants(t, op, t1) || Loses(t, op, t1) || LosesLast(t, op, t1) || Converges(t, op, t1) ==> op.Claim?
    ensures LosesLast(t, op, t1) || TakesOver(t, op, t1) || Converges(t, op, t1) ==> t.status.Running?
    ensures LosesLast(t, op, t1) || Converges(t, op, t1) ==> !Grants(t, op, t1)
    ensures TakesOver(t, op, t1) <==> Grants(t, op, t1) && t.status.Running?
    ensures TakesOver(t, op, t1) ==>
              && t.currentStep < |t.steps|
              && (t.steps[t.currentStep].status.Running? ==>
                    t.steps[t.currentStep].attempt < t.steps[t.currentStep].def.maxAttempts)
    ensures Loses(t, op, t1) ==> t.currentStep < |t.steps| && t.steps[t.currentStep].status.Running?
    ensures LosesLast(t, op, t1) <==>
              Loses(t, op, t1) && t.steps[t.currentStep].attempt >= t.steps[t.currentStep].def.maxAttempts
    ensures Converges(t, op, t1) ==> |t.steps| <= t.currentStep
    ensures Loses(t, op, t1) ==> LosesLast(t, op, t1) || TakesOver(t, op, t1)
    ensures TakesOver(t, op, t1) && t.steps[t.currentStep].status.Running? ==> Loses(t, op, t1)
    ensures Grants(t, op, t1) && !t.status.Running? ==> t.status.Runnable?
    ensures Renews(t, op, t1) ==> op.Renew? && t.status.Running?
    ensures Begins(t, op, t1) ==> op.Start? && t.status.Running? && AtCurrent(t, op.stepId)
    ensures Begins(t, op, t1) || Pauses(t, op, t1) ==> InputFor(t, t.currentStep).Some?
    ensures Pauses(t, op, t1) ==> op.Wait? && t.status.Running? && AtCurrent(t, op.stepId)
    ensures Decides(t, op, t1) ==> op.Decide? && t.status.WaitingApproval? && AtCurrent(t, op.stepId)
    ensures Approves(t, op, t1) <==> Decides(t, op, t1) && op.decision == "approved"
    ensures Rejects(t, op, t1) <==> Decides(t, op, t1) && op.decision == "rejected"
    ensures Succeeds(t, op, t1) ==> !FailsStep(t, op, t1)
    ensures Succeeds(t, op, t1) || FailsStep(t, op, t1) ==>
              && op.Finish? && t.status.Running? && AtCurrent(t, op.att.stepId)
              && op.att.attempt == t.steps[t.currentStep].attempt
    ensures Succeeds(t, op, t1) && op.out.checkpoint.size > 0 ==> op.out.checkpoint.json.Some?
    ensures WillRetry(t, op, t1) ==> FailsStep(t, op, t1)
    ensures GivesUp(t, op, t1) <==> FailsStep(t, op, t1) && !WillRetry(t, op, t1)
    ensures Cancels(t, op, t1) ==> op.Cancel? || op.CancelOwned? || op.DueControl?
    ensures op.Cancel? ==> (Cancels(t, op, t1) <==> !t.status.Running?)
    ensures TimesOut(t, op, t1, t2) ==> (op.TimeoutOwned? || op.DueControl?) && !Cancels(t, op, t1)
    ensures WakesRetry(t, op, t1, t2) ==> (op.WakeRetry? || op.DueControl?) && t.status.RetryWait?
    ensures WakesSchedule(t, op, t1, t2) ==> op.DueControl? && t.status.Scheduled?
    ensures t1 <= t2 && TimesOut(t, op, t1, t2) ==> !WakesRetry(t, op, t1, t2) && !WakesSchedule(t, op, t1, t2)
    ensures Asks(t, op) <==> op.Cancel? && t.status.Running?
  {
    hide InputFor, TooLarge;
  }

  // ----- The row -----

  /** The whole table of status changes. */
  lemma StatusLaw(id: Id, t: Task, op: Op, t1: Time, t2: Time)
    requires Inv(t) && !Terminal(t.status) && t1 <= t2
    ensures Perform(id, t, op, t1, t2).task.status == After(t, op, t1, t2)
  {
    hide Grants, Loses, LosesLast, Converges, TakesOver, Renews, Begins, Pauses, Decides, Approves, Rejects, Succeeds,
      FailsStep, WillRetry, GivesUp, Cancels, TimesOut, WakesRetry, WakesSchedule, Asks, Inv, Perform, InputFor,
      EffectiveError, DelaySeconds;
    InvRow(t);
    Dispatch(id, t, op, t1, t2);
    Kinds(t, op, t1, t2);
  }

  /** A waiting task is woken exactly by a scheduler that finds it due and in time, which changes nothing else. */
  lemma WokenExactlyWhen(id: Id, t: Task, op: Op, t1: Time, t2: Time)
    requires Inv(t) && (t.status.RetryWait? || t.status.Scheduled?) && t1 <= t2
    ensures var t' := Perform(id, t, op, t1, t2).task;
            && (t'.status.Runnable? <==> WakesRetry(t, op, t1, t2) || WakesSchedule(t, op, t1, t2))
            && (WakesRetry(t, op, t1, t2) ==>
                  t' == t.(status := TaskStatus.Runnable, retryAt := None, log := t.log + [TaskRetryReady]))
            && (WakesSchedule(t, op, t1, t2) ==>
                  t' == t.(status := TaskStatus.Runnable, log := t.log + [TaskRunnable(t.runAt)]))
  {
    hide Inv, Perform, InputFor, EffectiveError, DelaySeconds;
    InvRow(t);
    Dispatch(id, t, op, t1, t2);
    Kinds(t, op, t1, t2);
    StatusLaw(id, t, op, t1, t2);
  }

  /** A lease is given by a granted claim, moved by the owner's renewal, and dropped with RUNNING. */
  lemma LeaseLaw(id: Id, t: Task, op: Op, t1: Time, t2: Time)
    requires Inv(t) && !Terminal(t.status) && t1 <= t2
    ensures var t' := Perform(id, t, op, t1, t2).task;
            && t'.leaseVersion == t.leaseVersion + (if Grants(t, op, t1) then 1 else 0)
            && t'.workerId == (if Grants(t, op, t1) then Some(op.worker)
                               else if t'.status.Running? then t.workerId else None)
            && t'.leaseExpiresAt == (if Grants(t, op, t1) || Renews(t, op, t1) then Some(t2 + op.lease)
                                     else if t'.status.Running? then t.leaseExpiresAt else None)
  {
    hide Grants, Loses, LosesLast, Converges, TakesOver, Renews, Begins, Pauses, Decides, Approves, Rejects, Succeeds,
      FailsStep, WillRetry, GivesUp, Cancels, TimesOut, WakesRetry, WakesSchedule, Asks, Inv, Perform, InputFor,
      EffectiveError, DelaySeconds;
    InvRow(t);
    Dispatch(id, t, op, t1, t2);
    Kinds(t, op, t1, t2);
  }

  function Backoff(n: int): int {
    if n > 6 then 60 else Pow2(n - 1)
  }

  lemma BackoffIsDelay(n: int)
    ensures DelaySeconds(n) == Backoff(n)
  {
    assert Pow2(6) == 64 by {
      assert Pow2(1) == 2 && Pow2(2) == 4 && Pow2(3) == 8 && Pow2(4) == 16 && Pow2(5) == 32;
    }
    assert n <= 6 ==> Pow2(n - 1) <= 32 by {
      assert Pow2(0) == 1 && Pow2(1) == 2 && Pow2(2) == 4 && Pow2(3) == 8 && Pow2(4) == 16 && Pow2(5) == 32;
    }
  }

  /** A time to retry is set by a failure to be retried and dropped with RETRY_WAIT. */
  lemma RetryLaw(id: Id, t: Task, op: Op, t1: Time, t2: Time)
    requires Inv(t) && !Terminal(t.status) && t1 <= t2
    ensures var t' := Perform(id, t, op, t1, t2).task;
            t'.retryAt == if WillRetry(t, op, t1) then Some(t2 + Backoff(op.att.attempt) * 1_000_000)
                          else if t'.status.RetryWait? then t.retryAt else None
  {
    hide Grants, Loses, LosesLast, Converges, TakesOver, Renews, Begins, Pauses, Decides, Approves, Rejects, Succeeds,
      FailsStep, WillRetry, GivesUp, Cancels, TimesOut, WakesRetry, WakesSchedule, Asks, Inv, Perform, InputFor,
      EffectiveError, DelaySeconds;
    InvRow(t);
    Dispatch(id, t, op, t1, t2);
    Kinds(t, op, t1, t2);
    if op.Finish? { BackoffIsDelay(op.att.attempt); }
  }

  /** The first claim starts the clock of the task; only a request to a running task marks it; and what it was
      created with stays. */
  lemma OriginLaw(id: Id, t: Task, op: Op, t1: Time, t2: Time)
    requires Inv(t) && !Terminal(t.status) && t1 <= t2
    ensures var t' := Perform(id, t, op, t1, t2).task; var first := Grants(t, op, t1) && t.leaseVersion == 0;
            && t'.firstStartedAt == (if first then Some(op.statement) else t.firstStartedAt)
            && t'.deadlineAt == (if first then Some(op.statement + t.timeoutSeconds * 1_000_000) else t.deadlineAt)
            && t'.cancelRequested == (t.cancelRequested || Asks(t, op))
            && t'.createdAt == t.createdAt && t'.runAt == t.runAt && t'.timeoutSeconds == t.timeoutSeconds
  {
    hide Grants, Loses, LosesLast, Converges, TakesOver, Renews, Begins, Pauses, Decides, Approves, Rejects, Succeeds,
      FailsStep, WillRetry, GivesUp, Cancels, TimesOut, WakesRetry, WakesSchedule, Asks, Inv, Perform, InputFor,
      EffectiveError, DelaySeconds;
    InvRow(t);
    Dispatch(id, t, op, t1, t2);
    Kinds(t, op, t1, t2);
  }

  /** Success and approval advance the task by one step; only a success with a checkpoint replaces it. */
  lemma ProgressLaw(id: Id, t: Task, op: Op, t1: Time, t2: Time)
    requires Inv(t) && !Terminal(t.status) && t1 <= t2
    ensures var t' := Perform(id, t, op, t1, t2).task;
            && t'.currentStep == t.currentStep + (if Succeeds(t, op, t1) || Approves(t, op, t1) then 1 else 0)
            && t'.checkpoint == if Succeeds(t, op, t1) && op.out.checkpoint.size > 0 then op.out.checkpoint.json.value
                                else t.checkpoint
  {
    hide Grants, Loses, LosesLast, Converges, TakesOver, Renews, Begins, Pauses, Decides, Approves, Rejects, Succeeds,
      FailsStep, WillRetry, GivesUp, Cancels, TimesOut, WakesRetry, WakesSchedule, Asks, Inv, Perform, InputFor,
      EffectiveError, DelaySeconds;
    InvRow(t);
    Dispatch(id, t, op, t1, t2);
    Kinds(t, op, t1, t2);
  }

  // ----- The steps -----

  /** What a call makes of the current step. */
  predicate StepMoves(t: Task, op: Op, t1: Time, t2: Time, s: Step, s': Step)
    requires t.currentStep < |t.steps|
  {
    && s'.id == s.id && s'.key == s.key && s'.def == s.def
    && s'.attempt == s.attempt + (if Begins(t, op, t1) then 1 else 0)
    && s'.resolved == (if Begins(t, op, t1) || Pauses(t, op, t1) then InputFor(t, t.currentStep) else s.resolved)
    && s'.output == (if Succeeds(t, op, t1) then op.out.output.json else s.output)
    && s'.decision == (if Decides(t, op, t1) && (op.decision == "approved" || op.decision == "rejected")
                       then Some(op.decision) else s.decision)
    && (if Begins(t, op, t1) then s'.status.Running? && s'.error.None?
        else if Pauses(t, op, t1) then s'.status.WaitingApproval? && s'.error.None?
        else if Succeeds(t, op, t1) || Approves(t, op, t1) then s'.status.Succeeded? && s'.error.None?
        else if Broken(t, op, t1, t2) then s'.status.Failed? && s'.error.Some? && Breaks(t, op, t1, t2, s'.error.value)
        else s'.status == s.status && s'.error == s.error)
  }

  predicate Broken(t: Task, op: Op, t1: Time, t2: Time) {
    FailsStep(t, op, t1) || Loses(t, op, t1) || Rejects(t, op, t1) || EndsTask(t, op, t1, t2)
  }

  /** Only the current step moves, and it moves like this. */
  lemma StepLaw(id: Id, t: Task, op: Op, t1: Time, t2: Time, i: nat)
    requires Inv(t) && !Terminal(t.status) && t1 <= t2 && i < |t.steps|
    ensures var t' := Perform(id, t, op, t1, t2).task;
            && |t'.steps| == |t.steps|
            && if i == t.currentStep then StepMoves(t, op, t1, t2, t.steps[i], t'.steps[i])
               else t'.steps[i] == t.steps[i]
  {
    hide Inv, Perform, Effect, StepMoves;
    InvShape(t);
    CurrentOpen(t);
    Dispatch(id, t, op, t1, t2);
    OthersStay(t, op, t1, t2, i);
    if i == t.currentStep { CurrentMoves(t, op, t1, t2); }
  }

  lemma OthersStay(t: Task, op: Op, t1: Time, t2: Time, i: nat)
    requires t.currentStep < |t.steps| && i < |t.steps|
    ensures var t' := Effect(t, op, t1, t2);
            |t'.steps| == |t.steps| && (i != t.currentStep ==> t'.steps[i] == t.steps[i])
  {
    hide Grants, Loses, LosesLast, Converges, TakesOver, Renews, Begins, Pauses, Decides, Approves, Rejects, Succeeds,
      FailsStep, WillRetry, GivesUp, Cancels, TimesOut, WakesRetry, WakesSchedule, Asks, InputFor, EffectiveError,
      FailureText, DelaySeconds, TooLarge;
    Kinds(t, op, t1, t2);
  }

  lemma CurrentMoves(t: Task, op: Op, t1: Time, t2: Time)
    requires t.currentStep < |t.steps| && !t.steps[t.currentStep].status.Succeeded?
    requires t.steps[t.currentStep].output.None?
    ensures var t' := Effect(t, op, t1, t2);
            |t'.steps| == |t.steps| && StepMoves(t, op, t1, t2, t.steps[t.currentStep], t'.steps[t.currentStep])
  {
    hide Grants, Loses, LosesLast, Converges, TakesOver, Renews, Begins, Pauses, Decides, Approves, Rejects, Succeeds,
      FailsStep, WillRetry, GivesUp, Cancels, TimesOut, WakesRetry, WakesSchedule, Asks, InputFor, EffectiveError,
      FailureText, DelaySeconds, TooLarge;
    Kinds(t, op, t1, t2);
    OthersStay(t, op, t1, t2, t.currentStep);
    if op.Finish? { OutcomeGuard(op.out); }
  }

  // ----- The log -----

  function IfLast(t: Task): seq<Event> {
    if IsLast(t) then [TaskSucceeded] else []
  }

  function Lost(t: Task): seq<Event>
    requires t.currentStep < |t.steps| && t.workerId.Some?
  {
    var s := t.steps[t.currentStep];
    if s.status.Running? then
      [StepFailed(s.id, t.currentStep, s.attempt, "worker_lost", Some(Token(t.workerId.value, t.leaseVersion)))]
    else []
  }

  /** A step stopped by an ending is logged as failed, with its own attempt and no owner. */
  function Stopped(t: Task, text: string): seq<Event> {
    if t.currentStep < |t.steps| then
      [StepFailed(t.steps[t.currentStep].id, t.currentStep, t.steps[t.currentStep].attempt, text, None)]
    else []
  }

  /** The events that a call appends, in their order. */
  function Appends(t: Task, op: Op, t1: Time, t2: Time): seq<Event>
    requires t.status.Running? ==> t.workerId.Some?
  {
    if Cancels(t, op, t1) then Stopped(t, "user_cancelled") + [TaskCancelled(t.currentStep, "user_cancelled")]
    else if TimesOut(t, op, t1, t2) then Stopped(t, "task_timeout") + [TaskTimedOut(t.currentStep, "task_timeout")]
    else if Converges(t, op, t1) then [LeaseExpired(t.workerId, t.leaseVersion), TaskSucceeded]
    else if LosesLast(t, op, t1) then [LeaseExpired(t.workerId, t.leaseVersion)] + Lost(t) + [TaskFailed]
    else if TakesOver(t, op, t1) then
      [LeaseExpired(t.workerId, t.leaseVersion)] + Lost(t) +
      [TaskRecovered(t.workerId, t.leaseVersion, op.worker, t.leaseVersion + 1),
       TaskClaimed(op.worker, t.leaseVersion + 1)]
    else if Grants(t, op, t1) then [TaskClaimed(op.worker, t.leaseVersion + 1)]
    else if Begins(t, op, t1) then
      [StepStarted(op.stepId, t.currentStep, t.steps[t.currentStep].attempt + 1, op.tok.worker, op.tok.version)]
    else if Pauses(t, op, t1) then [TaskWaitingApproval(op.stepId, t.currentStep)]
    else if Approves(t, op, t1) then [TaskApproved(op.stepId, t.currentStep, "approved")] + IfLast(t)
    else if Rejects(t, op, t1) then [TaskRejected(op.stepId, t.currentStep, "rejected"), TaskFailed]
    else if Succeeds(t, op, t1) then
      [StepSucceeded(op.att.stepId, op.att.index, op.att.attempt, op.tok.worker, op.tok.version)] + IfLast(t)
    else if FailsStep(t, op, t1) then
      [StepFailed(op.att.stepId, op.att.index, op.att.attempt, FailureText(op.out), Some(op.tok)),
       if WillRetry(t, op, t1) then TaskRetryWait(op.att.stepId, op.att.attempt) else TaskFailed]
    else if WakesRetry(t, op, t1, t2) then [TaskRetryReady]
    else if WakesSchedule(t, op, t1, t2) then [TaskRunnable(t.runAt)]
    else []
  }

  lemma ClaimLog(t: Task, op: Op, t1: Time, t2: Time)
    requires op.Claim? && (t.status.Running? ==> t.workerId.Some?)
    ensures Effect(t, op, t1, t2).log == t.log + Appends(t, op, t1, t2)
  {
    hide Grants, Loses, LosesLast, Converges, TakesOver, Renews, Begins, Pauses, Decides, Approves, Rejects, Succeeds,
      FailsStep, WillRetry, GivesUp, Cancels, TimesOut, WakesRetry, WakesSchedule, Asks, InputFor;
    Kinds(t, op, t1, t2);
  }

  lemma StepLog(t: Task, op: Op, t1: Time, t2: Time)
    requires (op.Start? || op.Wait? || op.Decide? || op.Finish?) && (t.status.Running? ==> t.workerId.Some?)
    ensures Effect(t, op, t1, t2).log == t.log + Appends(t, op, t1, t2)
  {
    hide Grants, Loses, LosesLast, Converges, TakesOver, Renews, Begins, Pauses, Decides, Approves, Rejects, Succeeds,
      FailsStep, WillRetry, GivesUp, Cancels, TimesOut, WakesRetry, WakesSchedule, Asks, InputFor, FailureText,
      EffectiveError, DelaySeconds;
    Kinds(t, op, t1, t2);
    if op.Finish? { OutcomeGuard(op.out); }
  }

  lemma OtherLog(t: Task, op: Op, t1: Time, t2: Time)
    requires !op.Claim? && !op.Start? && !op.Wait? && !op.Decide? && !op.Finish?
    requires t.status.Running? ==> t.workerId.Some?
    requires t.currentStep < |t.steps| ==> !t.steps[t.currentStep].status.Succeeded?
    ensures Effect(t, op, t1, t2).log == t.log + Appends(t, op, t1, t2)
  {
    hide Grants, Loses, LosesLast, Converges, TakesOver, Renews, Begins, Pauses, Decides, Approves, Rejects, Succeeds,
      FailsStep, WillRetry, GivesUp, Cancels, TimesOut, WakesRetry, WakesSchedule, Asks, InputFor;
    Kinds(t, op, t1, t2);
  }

  /** The log only grows, and by exactly these events. */
  lemma LogLaw(id: Id, t: Task, op: Op, t1: Time, t2: Time)
    requires Inv(t) && !Terminal(t.status) && t1 <= t2
    ensures t.status.Running? ==> t.workerId.Some?
    ensures Perform(id, t, op, t1, t2).task.log == t.log + Appends(t, op, t1, t2)
  {
    hide Inv, ShapeOk, Perform, Effect, Appends;
    InvRow(t);
    InvShape(t);
    if t.steps != [] { CurrentOpen(t); } else { ShapeIndexes(t); }
    Dispatch(id, t, op, t1, t2);
    match op
    case Claim(_, _, _) => ClaimLog(t, op, t1, t2);
    case Start(_, _) => StepLog(t, op, t1, t2);
    case Wait(_, _) => StepLog(t, op, t1, t2);
    case Decide(_, _) => StepLog(t, op, t1, t2);
    case Finish(_, _, _) => StepLog(t, op, t1, t2);
    case _ => OtherLog(t, op, t1, t2);
  }
}
