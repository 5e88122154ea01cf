/** The checks that commitWithFactCheck makes of a failed finish and of an approval wait. A later attempt or a
    decision overwrites what they look for, so a committed transaction may go unconfirmed; but what they do
    confirm was committed (internal/store/store.go:1232-1269, 597-613). */
module UnstableChecks {
  import opened Basics
  import opened Resolve
  import opened Model
  import opened Transactions
  import opened Happenings
  import opened Guards
  import opened EventLog
  import opened Invariant
  import opened History
  import opened Runs
  import opened RetryTiming
  import G = Guarantees

  // ----- Failed finish -----

  /** stepFinishPersisted for a reported failure. */
  predicate FailurePersisted(t: Task, att: StepAttempt, out: Outcome) {
    match Lookup(t.steps, att.stepId)
    case None => false
    case Some(k) =>
      && t.steps[k].status.Failed? && t.steps[k].attempt == att.attempt && t.steps[k].error == Some(EffectiveError(out))
      && (if Retries(t.steps[k], att, out) then t.status.RetryWait? else t.status.Failed?)
      && Logged(t.log, FailuresOf(att.stepId, att.attempt))
  }

  /** The state such a finish leaves. */
  predicate FailedAt(t: Task, k: nat, stepId: Id, attempt: int, error: string) {
    && (t.status.RetryWait? || t.status.Failed?)
    && k < |t.steps| && t.steps[k].id == stepId && t.steps[k].status.Failed?
    && t.steps[k].attempt == attempt && t.steps[k].error == Some(error)
  }

  /** What may write it: that report, the recovery of a lost last attempt, or a rejection. */
  predicate Writes(t: Task, op: Op, t1: Time, stepId: Id, attempt: int, error: string) {
    || (FailsStep(t, op, t1) && op.att.stepId == stepId && op.att.attempt == attempt && error == FailureText(op.out))
    || (LosesLast(t, op, t1) && error == "worker_lost")
    || (Rejects(t, op, t1) && op.stepId == stepId && attempt == 0 && error == REJECTION)
  }

  lemma ClaimFails(t: Task, worker: string, lease: Time, t1: Time, statement: Time, t2: Time, k: nat, stepId: Id,
                   attempt: int, error: string)
    requires Inv(t) && !FailedAt(t, k, stepId, attempt, error)
    requires FailedAt(ClaimTx(t, worker, lease, t1, statement, t2).task, k, stepId, attempt, error)
    ensures LosesLast(t, Claim(worker, lease, statement), t1) && error == "worker_lost"
  {
    hide CacheOk, StarterOk, TaskLogOk, StepsLogOk;
    assert StepOk(t.steps[k]);
  }

  lemma FinishFailsAt(t: Task, tok: Token, att: StepAttempt, out: Outcome, t1: Time, t2: Time, k: nat, stepId: Id,
                      attempt: int, error: string)
    requires Inv(t) && !FailedAt(t, k, stepId, attempt, error)
    requires FailedAt(FinishTx(t, tok, att, out, t1, t2).task, k, stepId, attempt, error)
    ensures FailsStep(t, Finish(tok, att, out), t1) && att.stepId == stepId && att.attempt == attempt
            && error == FailureText(out)
  {
    hide CacheOk, StarterOk, TaskLogOk, StepsLogOk, DelaySeconds, EffectiveError;
    if t.currentStep < |t.steps| { G.LookupById(t.steps, t.currentStep); }
    FinishGuard(t, Finish(tok, att, out), t1);
    ReportGuard(t, Finish(tok, att, out), t1);
    OutcomeGuard(out);
  }

  lemma DecideFails(t: Task, stepId: Id, decision: string, t1: Time, k: nat, failed: Id, attempt: int, error: string)
    requires Inv(t) && !FailedAt(t, k, failed, attempt, error)
    requires FailedAt(DecideTx(t, stepId, decision, t1).task, k, failed, attempt, error)
    ensures Rejects(t, Decide(stepId, decision), t1) && stepId == failed && attempt == 0 && error == REJECTION
  {
    hide CacheOk, StarterOk, TaskLogOk, StepsLogOk;
    assert StepOk(t.steps[k]);
  }

  lemma BecameFailed(id: Id, t: Task, op: Op, t1: Time, t2: Time, k: nat, stepId: Id, attempt: int, error: string)
    requires Inv(t) && !FailedAt(t, k, stepId, attempt, error)
    requires FailedAt(Perform(id, t, op, t1, t2).task, k, stepId, attempt, error)
    ensures Writes(t, op, t1, stepId, attempt, error)
  {
    hide Inv, ClaimTx, FinishTx, DecideTx, InputFor, Lookup, Startable, Waitable, OwnershipError, Finishable,
      EffectiveError;
    match op
    case Claim(worker, lease, statement) =>
      ClaimFails(t, worker, lease, t1, statement, t2, k, stepId, attempt, error);
    case Finish(tok, att, out) => FinishFailsAt(t, tok, att, out, t1, t2, k, stepId, attempt, error);
    case Decide(decided, decision) => DecideFails(t, decided, decision, t1, k, stepId, attempt, error);
    case _ =>
  }

  predicate Written(run: seq<Action>, i: nat, id: Id, stepId: Id, attempt: int, error: string) {
    && i < |run| && run[i].Act? && run[i].id == id && id in Final(run[..i]).db
    && Writes(Final(run[..i]).db[id], run[i].op, run[i].t1, stepId, attempt, error)
  }

  lemma {:induction false} FailedWasWritten(run: seq<Action>, id: Id, k: nat, stepId: Id, attempt: int, error: string)
    returns (i: nat)
    requires Legal(run) && id in Final(run).db && FailedAt(Final(run).db[id], k, stepId, attempt, error)
    ensures Written(run, i, id, stepId, attempt, error)
  {
    hide Inv, Perform, Writes, FailedAt, UniqueKeys, IssuedOk, Insertable, NewTask;
    var front, a := run[..|run| - 1], run[|run| - 1];
    ReachableInv(front);
    if a.Create? && a.id == id {
      NewNotFailed(id, a.stepIds, a.d, a.t1, a.t2, k, stepId, attempt, error);
    } else if FailedAt(Final(front).db[id], k, stepId, attempt, error) {
      i := FailedWasWritten(front, id, k, stepId, attempt, error);
      assert run[..i] == front[..i];
    } else {
      BecameFailed(id, Final(front).db[id], a.op, a.t1, a.t2, k, stepId, attempt, error);
      i := |run| - 1;
    }
  }

  lemma NewNotFailed(id: Id, stepIds: seq<Id>, d: Definition, t1: Time, t2: Time, k: nat, stepId: Id, attempt: int,
                     error: string)
    requires |stepIds| == |d.steps|
    ensures !FailedAt(NewTask(id, stepIds, d, t1, t2), k, stepId, attempt, error)
  {
  }

  predicate FailureCommitted(run: seq<Action>, i: nat, id: Id, stepId: Id, attempt: int, error: string) {
    && i < |run| && run[i].Act? && run[i].id == id && id in Final(run[..i]).db
    && FailsStep(Final(run[..i]).db[id], run[i].op, run[i].t1) && run[i].op.att.stepId == stepId
    && run[i].op.att.attempt == attempt && error == FailureText(run[i].op.out)
  }

  /** A confirmed failure was committed: by a FinishStep of that attempt with that error, unless a recovery or a
      rejection wrote the very same text. An attempt that was started can be confused with a recovery only. */
  lemma {:induction false} FailureCheckSound(run: seq<Action>, id: Id, att: StepAttempt, out: Outcome)
    requires Legal(run) && id in Final(run).db && FailurePersisted(Final(run).db[id], att, out)
    ensures exists i: nat :: Written(run, i, id, att.stepId, att.attempt, EffectiveError(out))
    ensures att.attempt > 0 && EffectiveError(out) != "worker_lost" ==>
              exists i: nat :: FailureCommitted(run, i, id, att.stepId, att.attempt, EffectiveError(out))
  {
    hide Legal, Final, FailsStep, LosesLast, Rejects, EffectiveError;
    var t := Final(run).db[id];
    var i := FailedWasWritten(run, id, Lookup(t.steps, att.stepId).value, att.stepId, att.attempt, EffectiveError(out));
    assert att.attempt > 0 && EffectiveError(out) != "worker_lost" ==>
           FailureCommitted(run, i, id, att.stepId, att.attempt, EffectiveError(out));
  }

  /** It answers yes right after its own commit. */
  lemma FailureConfirmedNow(t: Task, tok: Token, att: StepAttempt, out: Outcome, t1: Time, t2: Time)
    requires Inv(t) && FailsStep(t, Finish(tok, att, out), t1)
    ensures FailurePersisted(FinishTx(t, tok, att, out, t1, t2).task, att, out)
  {
    hide CacheOk, StarterOk, TaskLogOk, StepsLogOk, RowOk, StepOk, MayBeCurrent, EffectiveError, DelaySeconds, MayWrite,
      OwnershipError, TooLarge;
    FinishGuard(t, Finish(tok, att, out), t1);
    ReportGuard(t, Finish(tok, att, out), t1);
    var t' := FinishTx(t, tok, att, out, t1, t2).task;
    OnlyOne(t'.steps, t.currentStep, att.stepId);
    assert StepFailed(att.stepId, att.index, att.attempt, EffectiveError(out), Some(tok)) in t'.log;
  }

  // ----- Approval wait -----

  predicate WaitPersisted(t: Task, stepId: Id) {
    match Lookup(t.steps, stepId)
    case None => false
    case Some(k) => t.status.WaitingApproval? && t.steps[k].status.WaitingApproval? && Logged(t.log, Waits(stepId))
  }

  predicate WaitsAt(t: Task, stepId: Id) {
    t.status.WaitingApproval? && t.currentStep < |t.steps| && t.steps[t.currentStep].id == stepId
  }

  lemma BecameWaiting(id: Id, t: Task, op: Op, t1: Time, t2: Time, stepId: Id)
    requires Inv(t)
    ensures !WaitsAt(t, stepId) && WaitsAt(Perform(id, t, op, t1, t2).task, stepId) ==>
              && Pauses(t, op, t1) && op.stepId == stepId
              && Logged(Perform(id, t, op, t1, t2).task.log, Waits(stepId))
  {
    hide ShapeOk, CacheOk, StarterOk, TaskLogOk, StepsLogOk, InputFor, DelaySeconds, EffectiveError;
    if op.Wait? {
      var k := Lookup(t.steps, op.stepId);
      if k.Some? && OwnershipError(t, op.tok, t1).None? && Waitable(t, k.value) && InputFor(t, k.value).Some? {
        assert TaskWaitingApproval(op.stepId, k.value) in Perform(id, t, op, t1, t2).task.log;
      }
    }
  }

  predicate WaitCommitted(run: seq<Action>, i: nat, id: Id, stepId: Id) {
    && i < |run| && run[i].Act? && run[i].id == id && id in Final(run[..i]).db
    && Pauses(Final(run[..i]).db[id], run[i].op, run[i].t1) && run[i].op.stepId == stepId
  }

  lemma {:induction false} WaitingWasCommitted(run: seq<Action>, id: Id, stepId: Id) returns (i: nat)
    requires Legal(run) && id in Final(run).db && WaitsAt(Final(run).db[id], stepId)
    ensures WaitCommitted(run, i, id, stepId) && Logged(Final(run).db[id].log, Waits(stepId))
  {
    hide Inv, Perform, Pauses, WaitsAt, UniqueKeys, IssuedOk, Insertable, NewTask, Grows;
    var front, a := run[..|run| - 1], run[|run| - 1];
    ReachableInv(front);
    NextGrows(Final(front), a);
    if a.Create? && a.id == id {
      NewNotWaiting(id, a.stepIds, a.d, a.t1, a.t2, stepId);
    } else if WaitsAt(Final(front).db[id], stepId) {
      i := WaitingWasCommitted(front, id, stepId);
      assert run[..i] == front[..i];
      LoggedStays(Final(front).db[id], Final(front).clock, Final(run).db[id], Final(run).clock, Waits(stepId));
    } else {
      BecameWaiting(id, Final(front).db[id], a.op, a.t1, a.t2, stepId);
      i := |run| - 1;
    }
  }

  lemma NewNotWaiting(id: Id, stepIds: seq<Id>, d: Definition, t1: Time, t2: Time, stepId: Id)
    requires |stepIds| == |d.steps|
    ensures !WaitsAt(NewTask(id, stepIds, d, t1, t2), stepId)
  {
  }

  lemma WaitingStep(t: Task, stepId: Id)
    requires Inv(t) && Logged(t.log, Waits(stepId))
    ensures WaitPersisted(t, stepId) <==> WaitsAt(t, stepId)
  {
    hide CacheOk, StarterOk, TaskLogOk, StepsLogOk, RowOk, StepOk;
    if t.currentStep < |t.steps| { G.LookupById(t.steps, t.currentStep); }
  }

  /** The check on a wait says that the task waits at that step now, no more and no less; and then a
      WaitForApproval of that step has been committed. */
  lemma {:induction false} WaitCheckExact(run: seq<Action>, id: Id, stepId: Id)
    requires Legal(run) && id in Final(run).db
    ensures WaitPersisted(Final(run).db[id], stepId) <==> WaitsAt(Final(run).db[id], stepId)
    ensures WaitPersisted(Final(run).db[id], stepId) ==> exists i: nat :: WaitCommitted(run, i, id, stepId)
  {
    hide Legal, Final, WaitCommitted, WaitsAt, Inv;
    var t := Final(run).db[id];
    ReachableInv(run);
    if Logged(t.log, Waits(stepId)) { WaitingStep(t, stepId); }
    if WaitsAt(t, stepId) { var i := WaitingWasCommitted(run, id, stepId); }
  }

  /** It answers yes right after its own commit. */
  lemma WaitConfirmedNow(t: Task, tok: Token, stepId: Id, t1: Time)
    requires Inv(t) && Pauses(t, Wait(tok, stepId), t1)
    ensures WaitPersisted(WaitTx(t, tok, stepId, t1).task, stepId)
  {
    hide CacheOk, StarterOk, TaskLogOk, StepsLogOk, RowOk, StepOk, MayBeCurrent, InputFor, MayWrite, OwnershipError;
    WaitGuard(t, Wait(tok, stepId), t1);
    var t' := WaitTx(t, tok, stepId, t1).task;
    OnlyOne(t'.steps, t.currentStep, stepId);
    assert TaskWaitingApproval(stepId, t.currentStep) in t'.log;
  }
}
