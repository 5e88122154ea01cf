/** Every transaction acts exactly when the guard of its happening holds. */
module Guards {
  import opened Basics
  import opened Resolve
  import opened Model
  import opened Transactions
  import opened Happenings
  import opened Invariant

  lemma OwnerGuard(t: Task, tok: Token, now: Time)
    ensures MayWrite(t, tok, now) <==> OwnershipError(t, tok, now).None?
    ensures Holds(t, tok, now) <==> Owns(t, tok, now)
    ensures InTime(t, now) <==> !DeadlinePassed(t, now)
  {
  }

  lemma {:induction false} OnlyOne(steps: seq<Step>, k: nat, stepId: Id)
    requires DistinctIds(steps) && k < |steps|
    ensures steps[k].id == stepId <==> Lookup(steps, stepId) == Some(k)
  {
  }

  lemma CurrentGuard(t: Task, stepId: Id)
    requires ShapeOk(t)
    ensures AtCurrent(t, stepId) <==> t.currentStep < |t.steps| && Lookup(t.steps, stepId) == Some(t.currentStep)
  {
    hide StepOk, MayBeCurrent;
    if t.currentStep < |t.steps| { OnlyOne(t.steps, t.currentStep, stepId); }
  }

  lemma PredecessorsDone(t: Task)
    requires ShapeOk(t) && t.currentStep < |t.steps|
    ensures PredecessorsSucceeded(t.steps, t.currentStep)
    ensures Lookup(t.steps, t.steps[t.currentStep].id) == Some(t.currentStep)
  {
    hide StepOk, MayBeCurrent;
    OnlyOne(t.steps, t.currentStep, t.steps[t.currentStep].id);
  }

  lemma ClaimGuard(t: Task, op: Op, t1: Time)
    requires op.Claim? && op.worker != ""
    ensures Claimable(t, t1) <==> Takes(t, op, t1) && (Expired(t, t1) || (t.status.Runnable? && t.runAt <= t1))
    ensures Claimable(t, t1) && t.status.Running? ==>
              (Terminal(Recover(t).status) <==> LosesLast(t, op, t1) || Converges(t, op, t1))
    ensures Grants(t, op, t1) <==> Claimable(t, t1) && (t.status.Running? ==> !Terminal(Recover(t).status))
  {
  }

  lemma StartGuard(t: Task, op: Op, t1: Time)
    requires op.Start? && ShapeOk(t)
    ensures var k := Lookup(t.steps, op.stepId);
            Begins(t, op, t1) <==>
            OwnershipError(t, op.tok, t1).None? && k.Some? && Startable(t, k.value) && InputFor(t, k.value).Some?
    ensures Begins(t, op, t1) ==> Lookup(t.steps, op.stepId) == Some(t.currentStep)
  {
    hide InputFor, StepOk, MayBeCurrent, OwnershipError, MayWrite, DistinctIds;
    OwnerGuard(t, op.tok, t1);
    CurrentGuard(t, op.stepId);
  }

  lemma WaitGuard(t: Task, op: Op, t1: Time)
    requires op.Wait? && ShapeOk(t)
    ensures var k := Lookup(t.steps, op.stepId);
            Pauses(t, op, t1) <==>
            OwnershipError(t, op.tok, t1).None? && k.Some? && Waitable(t, k.value) && InputFor(t, k.value).Some?
    ensures Pauses(t, op, t1) ==> Lookup(t.steps, op.stepId) == Some(t.currentStep)
  {
    hide InputFor, MayBeCurrent, OwnershipError, MayWrite, DistinctIds;
    OwnerGuard(t, op.tok, t1);
    CurrentGuard(t, op.stepId);
    if t.currentStep < |t.steps| { assert StepOk(t.steps[t.currentStep]); }
  }

  lemma DecideGuard(t: Task, op: Op, t1: Time)
    requires op.Decide? && ShapeOk(t)
    ensures var k := Lookup(t.steps, op.stepId);
            Decides(t, op, t1) <==> k.Some? && t.steps[k.value].decision.None? && Decidable(t, k.value, t1)
    ensures Decides(t, op, t1) ==>
              Lookup(t.steps, op.stepId) == Some(t.currentStep) && IsApproval(t.steps[t.currentStep])
  {
    hide MayBeCurrent, DistinctIds;
    CurrentGuard(t, op.stepId);
    if t.currentStep < |t.steps| { assert StepOk(t.steps[t.currentStep]); }
  }

  lemma FinishGuard(t: Task, op: Op, t1: Time)
    requires op.Finish? && ShapeOk(t)
    ensures var k := Lookup(t.steps, op.att.stepId);
            Finishes(t, op, t1) <==> OwnershipError(t, op.tok, t1).None? && k.Some? && Finishable(t, k.value, op.att)
    ensures Finishes(t, op, t1) ==> Lookup(t.steps, op.att.stepId) == Some(t.currentStep)
  {
    hide StepOk, MayBeCurrent, OwnershipError, MayWrite, DistinctIds;
    OwnerGuard(t, op.tok, t1);
    CurrentGuard(t, op.att.stepId);
  }

  lemma OutcomeGuard(out: Outcome)
    ensures EffectiveError(out) != "" <==> out.error != "" || TooLarge(out)
    ensures FailureText(out) == EffectiveError(out)
    ensures EffectiveError(out) == "" && WellFormedOutcome(out) <==>
            && out.error == "" && !TooLarge(out) && out.output.size > 0 && out.output.json.Some?
            && (out.checkpoint.size > 0 ==> out.checkpoint.json.Some?)
  {
  }

  /** A guarded report succeeds, fails or is refused. */
  lemma ReportGuard(t: Task, op: Op, t1: Time)
    requires op.Finish? && ShapeOk(t)
    ensures Succeeds(t, op, t1) <==> Finishes(t, op, t1) && EffectiveError(op.out) == "" && WellFormedOutcome(op.out)
    ensures FailsStep(t, op, t1) <==> Finishes(t, op, t1) && EffectiveError(op.out) != ""
    ensures FailsStep(t, op, t1) ==>
              (WillRetry(t, op, t1) <==> Transactions.Retries(t.steps[t.currentStep], op.att, op.out))
  {
    hide ShapeOk, EffectiveError, WellFormedOutcome, MayWrite, TooLarge;
    OutcomeGuard(op.out);
  }

  lemma DueGuard(t: Task, t1: Time, t2: Time)
    requires RowOk(t) && t1 <= t2 && !Terminal(t.status)
    ensures Cancels(t, DueControl, t1) <==> Due(t, t1) && t.cancelRequested
    ensures TimesOut(t, DueControl, t1, t2) <==> Due(t, t1) && !t.cancelRequested && DeadlinePassed(t, t2)
    ensures WakesRetry(t, DueControl, t1, t2) <==>
            Due(t, t1) && !t.cancelRequested && !DeadlinePassed(t, t2) && RetryDue(t, t2)
    ensures WakesSchedule(t, DueControl, t1, t2) <==>
            Due(t, t1) && !t.cancelRequested && !DeadlinePassed(t, t2) && !RetryDue(t, t2) && ScheduleDue(t, t2)
  {
  }
}
