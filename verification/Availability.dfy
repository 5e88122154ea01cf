/** No task is ever stranded: whoever crashed, some transaction can soon move it on. */
module Availability {
  import opened Basics
  import opened Resolve
  import opened Model
  import opened Transactions
  import opened Happenings
  import opened Invariant
  import opened History
  import opened Runs
  import T = Takeovers

  /** Every store runs with a lease duration of at most d. */
  predicate LeasesAtMost(run: seq<Action>, d: Time) {
    forall i | 0 <= i < |run| && run[i].Act? :: ShortEnough(run[i].op, d)
  }

  predicate ShortEnough(op: Op, d: Time) {
    (op.Claim? ==> op.lease <= d) && (op.Renew? ==> op.lease <= d)
  }

  const LONGEST_DELAY := 60 * SECOND

  /** A lease ends within d from now, a back-off within a minute. */
  predicate Prompt(t: Task, clock: Time, d: Time) {
    && (t.status.Running? && t.leaseExpiresAt.Some? ==> t.leaseExpiresAt.value <= clock + d)
    && (t.status.RetryWait? && t.retryAt.Some? ==> t.retryAt.value <= clock + LONGEST_DELAY)
  }

  lemma DelayIsShort(n: int)
    ensures DelaySeconds(n) <= 60
  {
  }

  /** A task comes to wait for a retry only by a failure, at most a minute ahead. */
  lemma RetryMoves(id: Id, t: Task, op: Op, t1: Time, t2: Time)
    requires RowOk(t)
    ensures var t' := Perform(id, t, op, t1, t2).task;
            t'.status.RetryWait? && t'.retryAt.Some? ==>
              (t.status.RetryWait? && t'.retryAt == t.retryAt) || t'.retryAt.value <= t2 + LONGEST_DELAY
  {
    hide InputFor, Lookup, Resolution, Startable, Waitable, DelaySeconds, EffectiveError, OwnershipError;
    if op.Finish? { DelayIsShort(op.att.attempt); }
  }

  lemma PromptStays(id: Id, t: Task, clock: Time, op: Op, t1: Time, t2: Time, d: Time)
    requires RowOk(t) && Prompt(t, clock, d) && clock <= t1 <= t2 && ShortEnough(op, d)
    ensures Prompt(Perform(id, t, op, t1, t2).task, t2, d)
  {
    hide Perform, ClaimTx, TakesOver;
    RetryMoves(id, t, op, t1, t2);
    T.LeaseMoves(id, t, op, t1, t2);
    if op.Claim? {
      T.ClaimMoves(t, op.worker, op.lease, t1, op.statement, t2);
      assert Perform(id, t, op, t1, t2) == ClaimTx(t, op.worker, op.lease, t1, op.statement, t2) by {
        PerformClaim(id, t, op, t1, t2);
      }
    }
  }

  lemma PerformClaim(id: Id, t: Task, op: Op, t1: Time, t2: Time)
    requires op.Claim?
    ensures Perform(id, t, op, t1, t2) == ClaimTx(t, op.worker, op.lease, t1, op.statement, t2)
  {
    hide ClaimTx;
  }

  lemma {:induction false} PromptAlways(run: seq<Action>, id: Id, d: Time)
    requires Legal(run) && id in Final(run).db && LeasesAtMost(run, d)
    ensures Prompt(Final(run).db[id], Final(run).clock, d)
  {
    hide Inv, Perform, UniqueKeys, IssuedOk, Insertable;
    var front, a := run[..|run| - 1], run[|run| - 1];
    ReachableInv(front);
    if !(a.Create? && a.id == id) {
      PromptAlways(front, id, d);
      if a.id == id {
        assert ShortEnough(a.op, d);
        InvRow(Final(front).db[id]);
        PromptStays(id, Final(front).db[id], Final(front).clock, a.op, a.t1, a.t2, d);
      }
    }
  }

  /** Once its start time, one lease and the longest back-off have gone by, an open task can be claimed,
      is due for the scheduler, or waits for a decision that the store would accept. */
  lemma {:induction false} NeverStranded(run: seq<Action>, id: Id, d: Time, now: Time)
    requires Legal(run) && id in Final(run).db && LeasesAtMost(run, d)
    requires Final(run).clock + d <= now && Final(run).clock + LONGEST_DELAY <= now && Final(run).db[id].runAt <= now
    requires !Terminal(Final(run).db[id].status)
    ensures var t := Final(run).db[id];
            || Claimable(t, now) || Due(t, now)
            || (t.currentStep < |t.steps| && Decidable(t, t.currentStep, now))
  {
    hide Legal, Final, UniqueKeys, IssuedOk, CacheOk, StarterOk, TaskLogOk, StepsLogOk;
    PromptAlways(run, id, d);
    ReachableInv(run);
    var t := Final(run).db[id];
    assert Inv(t);
    if t.steps != [] { assert StepOk(t.steps[t.currentStep]); }
  }

  // ----- Never too early -----

  /** A task leaves SCHEDULED, and is first claimed, no earlier than its start time. */
  predicate Punctual(t: Task, clock: Time) {
    && (!t.status.Scheduled? && !Terminal(t.status) ==> t.runAt <= clock)
    && (t.firstStartedAt.Some? ==> t.runAt <= t.firstStartedAt.value <= clock)
  }

  lemma PunctualStays(id: Id, t: Task, clock: Time, op: Op, t1: Time, t2: Time)
    requires RowOk(t) && Punctual(t, clock) && clock <= t1 <= t2
    requires op.Claim? ==> t1 <= op.statement <= t2
    ensures Punctual(Perform(id, t, op, t1, t2).task, t2)
  {
    hide InputFor, Lookup, Resolution, Startable, Waitable, Finishable, DelaySeconds, EffectiveError;
  }

  /** No task runs before its run_at. */
  lemma {:induction false} NeverBeforeRunAt(run: seq<Action>, id: Id)
    requires Legal(run) && id in Final(run).db
    ensures Punctual(Final(run).db[id], Final(run).clock)
  {
    hide Inv, Perform, UniqueKeys, IssuedOk, Insertable;
    var front, a := run[..|run| - 1], run[|run| - 1];
    ReachableInv(front);
    if !(a.Create? && a.id == id) {
      NeverBeforeRunAt(front, id);
      if a.id == id {
        InvRow(Final(front).db[id]);
        PunctualStays(id, Final(front).db[id], Final(front).clock, a.op, a.t1, a.t2);
      }
    }
  }
}
