/** Steps whose input cannot be resolved. The store accepts such tasks: validation lets a step use the output
    of an approval, which has none, and any output or checkpoint may turn out to be null. */
module Blocked {
  import opened Basics
  import opened Resolve
  import opened Model
  import opened Transactions
  import opened Happenings
  import opened EventLog
  import opened Invariant
  import opened History
  import opened Runs
  import opened Progress
  import G = Guarantees

  /** An open task whose next step can neither start nor wait. */
  predicate BlockedTask(t: Task) {
    && !Terminal(t.status) && t.currentStep < |t.steps|
    && t.steps[t.currentStep].status.Pending? && InputFor(t, t.currentStep).None?
  }

  /** What may become of a blocked task t. */
  predicate StillBlocked(t: Task, t': Task) {
    && t'.currentStep == t.currentStep < |t.steps| == |t'.steps|
    && t'.steps[t.currentStep].id == t.steps[t.currentStep].id
    && t'.steps[t.currentStep].attempt == 0 && InputFor(t', t.currentStep).None?
    && if Terminal(t'.status) then t'.status.Cancelled? || t'.status.TimedOut?
       else t'.steps == t.steps && t'.checkpoint == t.checkpoint
  }

  lemma BlockedSteps(id: Id, t: Task, op: Op, t1: Time, t2: Time)
    requires Inv(t) && BlockedTask(t)
    ensures var t' := Perform(id, t, op, t1, t2).task;
            || t' == Controlled(t, ByCancel) || t' == Controlled(t, ByTimeout)
            || (t'.steps == t.steps && t'.currentStep == t.currentStep && t'.checkpoint == t.checkpoint
                && !Terminal(t'.status))
  {
    hide Lookup, Resolution, PreviousOutput, StarterOk, CacheOk, TaskLogOk, StepsLogOk, Controlled, DelaySeconds,
      EffectiveError, AwaitApproval, StartStep, Approve, Reject, FailStep, SucceedStep, PredecessorsSucceeded,
      DistinctIds;
    assert StepOk(t.steps[t.currentStep]);
  }

  lemma BlockedOne(id: Id, t: Task, t0: Task, op: Op, t1: Time, t2: Time)
    requires Inv(t) && BlockedTask(t0) && StillBlocked(t0, t)
    ensures StillBlocked(t0, Perform(id, t, op, t1, t2).task)
  {
    hide Inv, Perform, Resolution;
    if Terminal(t.status) {
      InvRow(t);
      TerminalFrozen(id, t, op, t1, t2);
    } else {
      BlockedSteps(id, t, op, t1, t2);
    }
  }

  /** How a task with an unresolvable step ends: no attempt of that step is ever started, however often the
      task is claimed, and it is CANCELLED or TIMED_OUT in the end. */
  lemma {:induction false} BlockedUntilEnded(early: seq<Action>, late: seq<Action>, id: Id)
    requires Legal(late) && early <= late && id in Final(early).db && BlockedTask(Final(early).db[id])
    ensures id in Final(late).db && StillBlocked(Final(early).db[id], Final(late).db[id])
    ensures var t := Final(late).db[id]; Count(t.log, Starts(t.steps[t.currentStep].id)) == 0
  {
    hide Legal, Final, BlockedTask, StillBlocked, Count;
    BlockedThrough(early, late, id);
    var t := Final(late).db[id];
    assert t.currentStep < |t.steps| && t.steps[t.currentStep].attempt == 0 by {
      StillBlockedMeans(Final(early).db[id], t);
    }
    G.AttemptConservation(late, id, t.currentStep);
  }

  lemma StillBlockedMeans(t: Task, t': Task)
    requires StillBlocked(t, t')
    ensures t'.currentStep < |t'.steps| && t'.steps[t'.currentStep].attempt == 0
  {
  }

  lemma {:induction false} BlockedThrough(early: seq<Action>, late: seq<Action>, id: Id)
    requires Legal(late) && early <= late && id in Final(early).db && BlockedTask(Final(early).db[id])
    ensures id in Final(late).db && StillBlocked(Final(early).db[id], Final(late).db[id])
  {
    hide Inv, Perform, BlockedTask, StillBlocked, UniqueKeys, IssuedOk, Insertable;
    if early == late {
      ReachableInv(late);
      BlockedNow(Final(late).db[id]);
    } else {
      var front, a := late[..|late| - 1], late[|late| - 1];
      BlockedThrough(early, front, id);
      ReachableInv(front);
      if a.id == id { BlockedOne(id, Final(front).db[id], Final(early).db[id], a.op, a.t1, a.t2); }
    }
  }

  lemma BlockedNow(t: Task)
    requires Inv(t) && BlockedTask(t)
    ensures StillBlocked(t, t)
  {
    hide Resolution, CacheOk, StarterOk, TaskLogOk, StepsLogOk;
    assert StepOk(t.steps[t.currentStep]);
  }

  // ----- Approvals have no output -----

  /** Step k needs the output of the approval before it. */
  predicate AfterApproval(steps: seq<Step>, k: nat) {
    0 < k < |steps| && IsApproval(steps[k - 1]) && Uses(steps[k].def.input, PREVIOUS)
  }

  /** When such a step is current it has no input, and never has had one. */
  lemma NothingToUse(t: Task)
    requires Inv(t) && !Terminal(t.status) && AfterApproval(t.steps, t.currentStep)
    ensures BlockedTask(t)
  {
    hide Uses, Substitute, WellFormed, StarterOk, TaskLogOk, StepsLogOk, RowOk, DistinctIds;
    var k := t.currentStep;
    assert StepOk(t.steps[k]) && StepOk(t.steps[k - 1]);
    assert MayBeCurrent(t.status, t.steps[k]);
  }

  lemma AfterApprovalKept(steps: seq<Step>, steps': seq<Step>, k: nat)
    requires StepsGrow(steps, steps')
    ensures AfterApproval(steps, k) == AfterApproval(steps', k)
  {
    hide Uses;
    if 0 < k < |steps| { assert StepGrows(steps[k - 1], steps'[k - 1]) && StepGrows(steps[k], steps'[k]); }
  }

  lemma StaysBefore(id: Id, t: Task, op: Op, t1: Time, t2: Time, k: nat)
    requires Inv(t) && AfterApproval(t.steps, k) && t.currentStep <= k
    ensures Perform(id, t, op, t1, t2).task.currentStep <= k
  {
    hide Perform, Succeeds, Approves, CacheOk, StarterOk, TaskLogOk, StepsLogOk, RowOk, StepOk, MayBeCurrent,
      DistinctIds, Uses, BlockedTask, Controlled;
    Advances(id, t, op, t1, t2);
    if Terminal(t.status) {
      InvRow(t);
      TerminalFrozen(id, t, op, t1, t2);
    } else if t.currentStep == k {
      NothingToUse(t);
      BlockedSteps(id, t, op, t1, t2);
      G.EndsHere(t);
    }
  }

  /** A step that uses the output of the approval before it is never passed, whoever does what: its task never
      succeeds, and once it gets there it is blocked. */
  lemma {:induction false} StuckAfterApproval(run: seq<Action>, id: Id, k: nat)
    requires Legal(run) && id in Final(run).db && AfterApproval(Final(run).db[id].steps, k)
    ensures Final(run).db[id].currentStep <= k && !Final(run).db[id].status.Succeeded?
    ensures Final(run).db[id].currentStep == k && !Terminal(Final(run).db[id].status) ==> BlockedTask(Final(run).db[id])
  {
    hide Perform, AfterApproval, BlockedTask, CacheOk, StarterOk, TaskLogOk, StepsLogOk, RowOk, StepOk, MayBeCurrent,
      DistinctIds, UniqueKeys, IssuedOk, Insertable, CancelFate, DeadlineFate, Fenced, StepsGrow;
    var front, a := run[..|run| - 1], run[|run| - 1];
    ReachableInv(front);
    ReachableInv(run);
    var t := Final(run).db[id];
    assert Inv(t);
    assert k < |t.steps| by { AfterApprovalBound(t.steps, k); }
    if !(a.Create? && a.id == id) {
      G.At(front, run, id);
      AfterApprovalKept(Final(front).db[id].steps, t.steps, k);
      StuckAfterApproval(front, id, k);
      if a.id == id { StaysBefore(id, Final(front).db[id], a.op, a.t1, a.t2, k); }
    }
    if t.currentStep == k && !Terminal(t.status) { NothingToUse(t); }
  }

  lemma AfterApprovalBound(steps: seq<Step>, k: nat)
    requires AfterApproval(steps, k)
    ensures 0 < k < |steps|
  {
  }
}
