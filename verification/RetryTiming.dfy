/** When a failed attempt may be followed by the next. */
module RetryTiming {
  import opened Basics
  import opened Resolve
  import opened Model
  import opened Transactions
  import opened Happenings
  import opened Guards
  import opened Invariant
  import opened History
  import opened Runs
  import G = Guarantees

  function Min(a: int, b: int): int { if a < b then a else b }

  lemma {:induction false} Pow2Grows(m: int, n: int)
    requires m <= n
    ensures Pow2(m) <= Pow2(n)
    decreases n - m
  {
    if m < n {
      Pow2Grows(m, n - 1);
    }
  }

  /** The shift capped at six bits is the documented min(2^(n-1), 60) for every attempt. */
  lemma DelayIsCappedPower(n: int)
    requires n >= 1
    ensures DelaySeconds(n) == Min(Pow2(n - 1), 60)
  {
    assert Pow2(6) == 64 by {
      assert Pow2(1) == 2 && Pow2(2) == 4 && Pow2(3) == 8 && Pow2(4) == 16 && Pow2(5) == 32;
    }
    if n - 1 >= 6 {
      Pow2Grows(6, n - 1);
    }
  }

  /** Nothing can start before the given time. */
  predicate Held(t: Task, clock: Time, until: Time) {
    Terminal(t.status) || (t.status.RetryWait? && t.retryAt == Some(until)) || until <= clock
  }

  lemma HeldStays(id: Id, t: Task, clock: Time, op: Op, t1: Time, t2: Time, until: Time)
    requires Inv(t) && Held(t, clock, until) && clock <= t1 <= t2
    ensures Held(Perform(id, t, op, t1, t2).task, t2, until)
    ensures Perform(id, t, op, t1, t2).reply.Attempt? ==> until <= t1
  {
    hide ShapeOk, CacheOk, StarterOk, StepsLogOk, TaskLogOk, Recover, Assign, Announce, InputFor, StartStep,
      AwaitApproval, Approve, Reject, FailStep, SucceedStep;
    if Terminal(t.status) { TerminalFrozen(id, t, op, t1, t2); }
  }

  lemma {:induction false} HeldThrough(early: seq<Action>, late: seq<Action>, id: Id, until: Time)
    requires Legal(late) && early <= late && id in Final(early).db
    requires Held(Final(early).db[id], Final(early).clock, until)
    ensures id in Final(late).db && Held(Final(late).db[id], Final(late).clock, until)
  {
    hide Inv, Perform, Held, Insertable, UniqueKeys, IssuedOk;
    if early != late {
      var front, a := late[..|late| - 1], late[|late| - 1];
      HeldThrough(early, front, id, until);
      ReachableInv(front);
      if a.Act? && a.id == id {
        HeldStays(id, Final(front).db[id], Final(front).clock, a.op, a.t1, a.t2, until);
      } else {
        HeldLater(Final(front).db[id], Final(front).clock, a.t2, until);
      }
    }
  }

  lemma HeldLater(t: Task, clock: Time, later: Time, until: Time)
    requires Held(t, clock, until) && clock <= later
    ensures Held(t, later, until)
  {
  }

  lemma FailureHolds(t: Task, tok: Token, att: StepAttempt, out: Outcome, t1: Time, t2: Time)
    requires Inv(t) && t.status.Running? && FinishTx(t, tok, att, out, t1, t2).task.status.RetryWait?
    ensures att.attempt >= 1
    ensures Held(FinishTx(t, tok, att, out, t1, t2).task, t2, t2 + Min(Pow2(att.attempt - 1), 60) * SECOND)
  {
    hide CacheOk, StarterOk, StepsLogOk, TaskLogOk, Min, Pow2, DelaySeconds;
    var k := Lookup(t.steps, att.stepId).value;
    assert StepOk(t.steps[k]);
    DelayIsCappedPower(att.attempt);
  }

  /** After a retryable failure of attempt n recorded at time f2, no step of the task starts before
      f2 + min(2^(n-1), 60) seconds, whatever happens in between. */
  lemma {:induction false} NoEarlyRetry(before: seq<Action>, id: Id, tok: Token, att: StepAttempt, out: Outcome,
                                        f1: Time, f2: Time, waited: seq<Action>, starter: Token, stepId: Id, t1: Time)
    requires Legal(waited) && before + [Act(id, Finish(tok, att, out), f1, f2)] <= waited
    requires id in Final(before).db && Final(before).db[id].status.Running?
    requires FinishTx(Final(before).db[id], tok, att, out, f1, f2).task.status.RetryWait?
    requires id in Final(waited).db && Final(waited).clock <= t1
    requires StartTx(id, Final(waited).db[id], starter, stepId, t1).reply.Attempt?
    ensures att.attempt >= 1
    ensures f2 + Min(Pow2(att.attempt - 1), 60) * SECOND <= t1
  {
    hide Inv, Min, Pow2, Insertable, UniqueKeys, IssuedOk, Held, FinishTx, StartTx, Legal, Final;
    var failed := before + [Act(id, Finish(tok, att, out), f1, f2)];
    assert waited[..|before|] == before && waited[..|before| + 1] == failed;
    LegalAt(waited, |before|);
    ReachableInv(before);
    FailureHolds(Final(before).db[id], tok, att, out, f1, f2);
    var until := f2 + Min(Pow2(att.attempt - 1), 60) * SECOND;
    HeldThrough(failed, waited, id, until);
    ReachableInv(waited);
    HeldStays(id, Final(waited).db[id], Final(waited).clock, Start(starter, stepId), t1, t1, until);
  }

  // ----- Why a task fails -----

  lemma FinishFails(t: Task, op: Op, t1: Time, t2: Time)
    requires Inv(t) && op.Finish? && !Terminal(t.status)
    ensures FinishTx(t, op.tok, op.att, op.out, t1, t2).task.status.Failed? <==> GivesUp(t, op, t1)
  {
    hide ShapeOk, CacheOk, StarterOk, TaskLogOk, StepsLogOk, RowOk, Pow2, DelaySeconds, OwnershipError, MayWrite,
      AtCurrent, TooLarge, EffectiveError, WellFormedOutcome, Finishable;
    FinishGuard(t, op, t1);
    ReportGuard(t, op, t1);
  }

  /** An open task becomes FAILED by a rejection, by a failure that may not be retried, or by the loss of the
      last attempt, and by nothing else. */
  lemma FailsExactlyWhen(id: Id, t: Task, op: Op, t1: Time, t2: Time)
    requires Inv(t) && !Terminal(t.status)
    ensures Perform(id, t, op, t1, t2).task.status.Failed? <==>
            Rejects(t, op, t1) || GivesUp(t, op, t1) || LosesLast(t, op, t1)
  {
    hide ShapeOk, CacheOk, StarterOk, TaskLogOk, StepsLogOk, RowOk, InputFor, Startable, Waitable, Decidable,
      OwnershipError, FinishTx, Pow2, DelaySeconds, MayWrite, AtCurrent, InTime;
    if op.Finish? { FinishFails(t, op, t1, t2); }
    if op.Decide? { DecideGuard(t, op, t1); }
    if op.Claim? && op.worker != "" { ClaimGuard(t, op, t1); }
  }
}
