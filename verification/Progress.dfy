/** Which transactions make a task advance. */
module Progress {
  import opened Basics
  import opened Resolve
  import opened Model
  import opened Transactions
  import opened Happenings
  import opened Guards
  import opened Invariant
  import opened History
  import opened Runs

  predicate Stays(t: Task, t': Task) {
    t'.currentStep == t.currentStep && t'.checkpoint == t.checkpoint && |t'.steps| == |t.steps|
  }

  lemma EffectsStay(t: Task, k: nat, tok: Token, input: Json, att: StepAttempt, error: string, retrying: bool, t2: Time)
    requires k < |t.steps|
    ensures Stays(t, StartStep(t, k, tok, input)) && Stays(t, AwaitApproval(t, k, input)) && Stays(t, Reject(t, k))
    ensures Stays(t, FailStep(t, k, tok, att, error, retrying, t2))
  {
    hide DelaySeconds;
  }

  lemma EndingsStay(t: Task, worker: string, lease: Time, statement: Time, now: Time)
    ensures Stays(t, Controlled(t, ByCancel)) && Stays(t, Controlled(t, ByTimeout)) && Stays(t, Recover(t))
    ensures Stays(t, Assign(t, worker, lease, statement, now))
    ensures Stays(t, Assign(Announce(Recover(t), worker), worker, lease, statement, now))
  {
  }

  /** The task advances by a success or an approval of its current step, and by nothing else. */
  lemma Advances(id: Id, t: Task, op: Op, t1: Time, t2: Time)
    requires ShapeOk(t)
    ensures var t' := Perform(id, t, op, t1, t2).task;
            if Succeeds(t, op, t1) then t' == SucceedStep(t, t.currentStep, op.tok, op.att, op.out)
            else if Approves(t, op, t1) then t' == Approve(t, t.currentStep)
            else Stays(t, t')
  {
    hide Controlled, Recover, Assign, Announce, StartStep, AwaitApproval, Approve, Reject, FailStep, SucceedStep,
      Startable, Waitable, Decidable, Finishable, OwnershipError, ShapeOk, InputFor, EffectiveError,
      WellFormedOutcome, MayWrite, AtCurrent;
    match op
    case Claim(worker, lease, statement) => EndingsStay(t, worker, lease, statement, t2);
    case Start(tok, stepId) =>
      var k := Lookup(t.steps, stepId);
      if k.Some? && InputFor(t, k.value).Some? {
        EffectsStay(t, k.value, tok, InputFor(t, k.value).value, StepAttempt("", "", 0, "", 0, 0, "", Null, 0), "",
                    false, t2);
      }
    case Wait(tok, stepId) =>
      var k := Lookup(t.steps, stepId);
      if k.Some? && InputFor(t, k.value).Some? {
        EffectsStay(t, k.value, tok, InputFor(t, k.value).value, StepAttempt("", "", 0, "", 0, 0, "", Null, 0), "",
                    false, t2);
      }
    case Decide(stepId, decision) =>
      var k := Lookup(t.steps, stepId);
      DecideGuard(t, op, t1);
      if k.Some? {
        EffectsStay(t, k.value, Token("", 0), Null, StepAttempt("", "", 0, "", 0, 0, "", Null, 0), "", false, t2);
      }
    case Finish(tok, att, out) =>
      var k := Lookup(t.steps, att.stepId);
      FinishGuard(t, op, t1);
      ReportGuard(t, op, t1);
      if k.Some? {
        EffectsStay(t, k.value, tok, Null, att, EffectiveError(out),
                    Transactions.Retries(t.steps[k.value], att, out), t2);
      }
    case _ => EndingsStay(t, "", 0, 0, t2);
  }
}
