/** What each call answers, told from the guards of Happenings and the columns of the row. Nothing here mentions
    what a transaction does inside. */
module Answers {
  import opened Basics
  import opened Resolve
  import opened Model
  import opened Transactions
  import opened Happenings
  import opened Guards
  import opened Columns
  import opened Invariant
  import opened History

  /** Why a token may not write: first the lease, then a requested cancellation, then the deadline. */
  function WhyNot(t: Task, tok: Token, now: Time): Err {
    if !Holds(t, tok, now) then LeaseLost
    else if t.cancelRequested then TaskCancelledErr
    else DeadlineExceeded
  }

  predicate Known(t: Task, stepId: Id) {
    exists i | 0 <= i < |t.steps| :: t.steps[i].id == stepId
  }

  predicate Decided(t: Task, stepId: Id, decision: string) {
    exists i | 0 <= i < |t.steps| :: t.steps[i].id == stepId && t.steps[i].decision == Some(decision)
  }

  /** The owner asks to begin its current step, and nothing is wrong but its input. */
  predicate Unresolvable(t: Task, stepId: Id, approval: bool) {
    && AtCurrent(t, stepId) && InputFor(t, t.currentStep).None?
    && var s := t.steps[t.currentStep];
       if approval then s.def.kind == "approval" && s.status.Pending?
       else s.def.kind != "approval" && (s.status.Pending? || s.status.Failed?) && s.attempt < s.def.maxAttempts
  }

  // ----- Claims and renewals -----

  /** A claim by a named worker is granted exactly when the guard holds, and what is granted is a lease of that
      worker's, good from now until it says it expires. */
  lemma ClaimAnswer(id: Id, t: Task, op: Op, t1: Time, t2: Time)
    requires Inv(t) && op.Claim? && t1 <= op.statement <= t2
    ensures var tx := Perform(id, t, op, t1, t2); var t' := tx.task;
            if Grants(t, op, t1) then
              && tx.reply.Granted? && tx.reply.token == Token(op.worker, t.leaseVersion + 1)
              && tx.reply.expiresAt == t2 + op.lease && t'.leaseExpiresAt == Some(tx.reply.expiresAt)
              && t'.deadlineAt == Some(tx.reply.deadlineAt) && !t'.cancelRequested
              && (forall now | t2 <= now < tx.reply.expiresAt :: Holds(t', tx.reply.token, now))
              && (forall now | t2 <= now < tx.reply.expiresAt && now < tx.reply.deadlineAt ::
                    MayWrite(t', tx.reply.token, now))
            else tx.reply == Refused(if op.worker == "" then Invalid else NoTask)
  {
    hide ShapeOk, CacheOk, StarterOk, TaskLogOk, StepsLogOk, InputFor, Recover, Takes, Expired, LosesLast;
    if op.worker != "" { ClaimGuard(t, op, t1); } else { Nameless(t, op, t1); }
    if Grants(t, op, t1) {
      Kinds(t, op, t1, t2);
      GrantIsOpen(t, op, t1);
      LeaseLaw(id, t, op, t1, t2);
      StatusLaw(id, t, op, t1, t2);
      OriginLaw(id, t, op, t1, t2);
    }
  }

  lemma GrantIsOpen(t: Task, op: Op, t1: Time)
    requires Grants(t, op, t1)
    ensures !Terminal(t.status) && !t.cancelRequested && op.worker != ""
  {
  }

  /** A claim of a claimable task is granted unless recovery ends the task. */
  lemma ClaimableIsGranted(id: Id, t: Task, op: Op, t1: Time, t2: Time)
    requires Inv(t) && op.Claim? && op.worker != "" && Claimable(t, t1) && t1 <= op.statement <= t2
    ensures var tx := Perform(id, t, op, t1, t2);
            if tx.reply.Granted? then tx.task.status.Running? else tx.task.status.Failed? || t.steps == []
    ensures t.status.Runnable? ==> Perform(id, t, op, t1, t2).reply.Granted?
  {
    hide CacheOk, StarterOk, TaskLogOk, StepsLogOk, InputFor, Perform;
    ClaimGuard(t, op, t1);
    ClaimAnswer(id, t, op, t1, t2);
    Kinds(t, op, t1, t2);
    StatusLaw(id, t, op, t1, t2);
  }

  /** The owner's renewal moves the lease and nothing else; everybody else is told why not. */
  lemma RenewAnswer(id: Id, t: Task, op: Op, t1: Time, t2: Time)
    requires Inv(t) && op.Renew?
    ensures var tx := Perform(id, t, op, t1, t2);
            if MayWrite(t, op.tok, t1) then tx.reply == Done && tx.task == t.(leaseExpiresAt := Some(t2 + op.lease))
            else tx.reply == Refused(WhyNot(t, op.tok, t1)) && tx.task == t
  {
    hide Inv;
  }

  // ----- Steps -----

  lemma StartAnswer(id: Id, t: Task, op: Op, t1: Time, t2: Time)
    requires Inv(t) && op.Start?
    ensures Perform(id, t, op, t1, t2).reply ==
            if Begins(t, op, t1) then
              var s := t.steps[t.currentStep];
              Attempt(StepAttempt(id, s.id, t.currentStep, s.def.kind, s.attempt + 1, s.def.maxAttempts, s.key,
                                  InputFor(t, t.currentStep).value, s.def.timeoutSeconds))
            else if !MayWrite(t, op.tok, t1) then Refused(WhyNot(t, op.tok, t1))
            else if Unresolvable(t, op.stepId, false) then Refused(Invalid)
            else Refused(Conflict)
  {
    hide Inv, InputFor, StepOk, MayBeCurrent, Holds, Owns, AtCurrent, PredecessorsSucceeded;
    InvShape(t);
    StartGuard(t, op, t1);
    CurrentGuard(t, op.stepId);
    if t.currentStep < |t.steps| { PredecessorsDone(t); }
    OwnerGuard(t, op.tok, t1);
  }

  lemma WaitAnswer(id: Id, t: Task, op: Op, t1: Time, t2: Time)
    requires Inv(t) && op.Wait?
    ensures Perform(id, t, op, t1, t2).reply ==
            if Pauses(t, op, t1) then Done
            else if !MayWrite(t, op.tok, t1) then Refused(WhyNot(t, op.tok, t1))
            else if Unresolvable(t, op.stepId, true) then Refused(Invalid)
            else Refused(Conflict)
  {
    hide Inv, InputFor, MayBeCurrent, Holds, Owns, AtCurrent, PredecessorsSucceeded, DistinctIds;
    InvShape(t);
    WaitGuard(t, op, t1);
    CurrentGuard(t, op.stepId);
    if t.currentStep < |t.steps| { PredecessorsDone(t); }
    OwnerGuard(t, op.tok, t1);
    if t.currentStep < |t.steps| { assert StepOk(t.steps[t.currentStep]); }
  }

  /** A first decision answers with itself and the status the task has from then on. */
  lemma DecideAnswer(id: Id, t: Task, op: Op, t1: Time, t2: Time)
    requires Inv(t) && op.Decide?
    ensures Perform(id, t, op, t1, t2).reply ==
            if op.decision != "approved" && op.decision != "rejected" then Refused(Conflict)
            else if !Known(t, op.stepId) then Refused(NotFound)
            else if Decided(t, op.stepId, op.decision) then Reply.Decided(op.decision, t.status)
            else if Approves(t, op, t1) then
              Reply.Decided("approved", if IsLast(t) then TaskStatus.Succeeded else TaskStatus.Runnable)
            else if Rejects(t, op, t1) then Reply.Decided("rejected", TaskStatus.Failed)
            else Refused(Conflict)
  {
    hide Inv, StepOk, MayBeCurrent, AtCurrent, InTime;
    InvShape(t);
    DecideGuard(t, op, t1);
    DecisionKnown(t, op.stepId, op.decision);
    Kinds(t, op, t1, t2);
  }

  lemma DecisionKnown(t: Task, stepId: Id, decision: string)
    requires ShapeOk(t)
    ensures Known(t, stepId) <==> Lookup(t.steps, stepId).Some?
    ensures Decided(t, stepId, decision) <==>
              Lookup(t.steps, stepId).Some? && t.steps[Lookup(t.steps, stepId).value].decision == Some(decision)
  {
    hide StepOk, MayBeCurrent;
    if i :| 0 <= i < |t.steps| && t.steps[i].id == stepId && t.steps[i].decision == Some(decision) {
      OnlyOne(t.steps, i, stepId);
    }
  }

  lemma FinishAnswer(id: Id, t: Task, op: Op, t1: Time, t2: Time)
    requires Inv(t) && op.Finish?
    ensures Perform(id, t, op, t1, t2).reply ==
            if Succeeds(t, op, t1) || FailsStep(t, op, t1) then Done
            else if !MayWrite(t, op.tok, t1) then Refused(WhyNot(t, op.tok, t1))
            else if Finishes(t, op, t1) then Refused(Invalid)
            else Refused(Conflict)
  {
    hide Inv, EffectiveError, WellFormedOutcome, FailStep, SucceedStep, TooLarge, Holds, Owns, AtCurrent;
    InvShape(t);
    FinishGuard(t, op, t1);
    ReportGuard(t, op, t1);
    OwnerGuard(t, op.tok, t1);
  }

  // ----- Endings and wake-ups -----

  lemma TimeoutAnswer(id: Id, t: Task, op: Op, t1: Time, t2: Time)
    requires Inv(t) && op.TimeoutOwned? && t1 <= t2
    ensures Perform(id, t, op, t1, t2).reply ==
            if t.status.TimedOut? || TimesOut(t, op, t1, t2) then Done
            else if !Holds(t, op.tok, t1) then Refused(LeaseLost)
            else if t.cancelRequested then Refused(TaskCancelledErr)
            else Refused(Conflict)
  {
    hide Inv, Controlled;
  }

  lemma CancelAnswer(id: Id, t: Task, op: Op, t1: Time, t2: Time)
    requires Inv(t) && op.Cancel?
    ensures Perform(id, t, op, t1, t2).reply ==
            if t.status.Running? then CancellationRequested
            else if t.status.Cancelled? || !Terminal(t.status) then CancelledNow
            else Refused(Conflict)
  {
    hide Inv, Controlled;
  }

  lemma CancelOwnedAnswer(id: Id, t: Task, op: Op, t1: Time, t2: Time)
    requires Inv(t) && op.CancelOwned?
    ensures Perform(id, t, op, t1, t2).reply ==
            if t.status.Cancelled? || Cancels(t, op, t1) then Done
            else if !Holds(t, op.tok, t1) then Refused(LeaseLost)
            else Refused(Conflict)
  {
    hide Inv, Controlled;
  }

  lemma WakeAnswer(id: Id, t: Task, op: Op, t1: Time, t2: Time)
    requires Inv(t) && !Terminal(t.status) && t1 <= t2 && (op.DueControl? || op.WakeRetry?)
    ensures Perform(id, t, op, t1, t2).reply ==
            Processed(EndsTask(t, op, t1, t2) || WakesRetry(t, op, t1, t2) || WakesSchedule(t, op, t1, t2))
  {
    hide ShapeOk, CacheOk, StarterOk, TaskLogOk, StepsLogOk, Controlled, WokenRetry, WokenSchedule;
    if op.DueControl? { DueGuard(t, t1, t2); }
  }
}
