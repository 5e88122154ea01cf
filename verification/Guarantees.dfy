/** What callers may rely on at every point of every run. */
module Guarantees {
  import opened Basics
  import opened Resolve
  import opened Model
  import opened Transactions
  import opened Happenings
  import opened Guards
  import opened EventLog
  import opened Invariant
  import opened History
  import opened Runs

  /** The task at the end of a run, and its growth from an earlier point. */
  lemma {:induction false} At(early: seq<Action>, late: seq<Action>, id: Id)
    requires Legal(late) && early <= late && id in Final(early).db
    ensures id in Final(late).db && Inv(Final(early).db[id]) && Inv(Final(late).db[id])
    ensures Grows(Final(early).db[id], Final(early).clock, Final(late).db[id], Final(late).clock)
  {
    hide Legal, Inv, Grows, UniqueKeys, IssuedOk;
    RunGrows(early, late);
    ReachableInv(early);
    ReachableInv(late);
  }

  // ----- Workflow shape -----

  /** Steps run strictly in order, the current step is in a state that the task's own status allows, a
      failed step of an open task has budget left, and a running task has a current step. */
  lemma {:induction false} WorkflowShape(run: seq<Action>, id: Id)
    requires Legal(run) && id in Final(run).db
    ensures var t := Final(run).db[id];
            && (forall i | 0 <= i < t.currentStep :: i < |t.steps| && t.steps[i].status.Succeeded?)
            && (forall i | t.currentStep < i < |t.steps| :: t.steps[i].status.Pending? && t.steps[i].attempt == 0)
            && (t.status.Succeeded? ==> t.currentStep == |t.steps|)
            && (t.steps != [] && t.currentStep == |t.steps| ==> t.status.Succeeded?)
            && (t.currentStep < |t.steps| ==> MayBeCurrent(t.status, t.steps[t.currentStep]))
            && (forall i | 0 <= i < |t.steps| :: t.steps[i].error.Some? <==> t.steps[i].status.Failed?)
            && (!Terminal(t.status) && t.steps != [] ==>
                  && t.currentStep < |t.steps|
                  && (t.steps[t.currentStep].status.Failed? ==>
                        t.steps[t.currentStep].attempt < t.steps[t.currentStep].def.maxAttempts))
            && (t.status.Running? ==> t.workerId.Some? && t.leaseExpiresAt.Some?)
            && (!t.status.Running? ==> t.workerId.None? && t.leaseExpiresAt.None?)
            && (t.status.RetryWait? <==> t.retryAt.Some?)
  {
    hide Legal, Final, UniqueKeys, IssuedOk, CacheOk, TaskLogOk, StarterOk, StepsLogOk;
    ReachableInv(run);
    var t := Final(run).db[id];
    assert Inv(t);
    forall i | 0 <= i < |t.steps|
      ensures t.steps[i].status.Pending? ==> t.steps[i].attempt == 0
      ensures t.steps[i].error.Some? <==> t.steps[i].status.Failed?
    {
      assert StepOk(t.steps[i]);
    }
  }

  // ----- The log -----

  /** The log alone tells the task's status, progress, owner, lease version and every step's status,
      attempt and error. */
  lemma {:induction false} LogAgreement(run: seq<Action>, id: Id)
    requires Legal(run) && id in Final(run).db
    ensures var t := Final(run).db[id]; var v := Replay(t.log);
            && v.status == t.status && v.currentStep == t.currentStep
            && v.owner == t.workerId && v.version == t.leaseVersion
            && forall i | 0 <= i < |t.steps| ::
               Of(v, t.steps[i].id) == StepView(t.steps[i].status, t.steps[i].attempt, t.steps[i].error)
  {
    hide Legal, Final, UniqueKeys, IssuedOk, CacheOk, StarterOk, Replay, Count, Of;
    ReachableInv(run);
    var t := Final(run).db[id];
    assert Inv(t);
    forall i | 0 <= i < |t.steps|
      ensures Of(Replay(t.log), t.steps[i].id) == StepView(t.steps[i].status, t.steps[i].attempt, t.steps[i].error)
    {
      assert StepLogOk(t.log, t.steps[i], Loose(t) != Some(i));
    }
  }

  /** Attempts are paid for: each start is logged once, never beyond the budget, and every start but the
      running one has been closed by exactly one success or failure. Only the current step of a CANCELLED or
      TIMED_OUT task may be off, by the one failure that the ending logged. */
  lemma {:induction false} AttemptConservation(run: seq<Action>, id: Id, i: nat)
    requires Legal(run) && id in Final(run).db && i < |Final(run).db[id].steps|
    ensures var t := Final(run).db[id]; var s := t.steps[i]; var starts := Count(t.log, Starts(s.id));
            && starts == s.attempt <= s.def.maxAttempts
            && var ends := Count(t.log, Successes(s.id)) + Count(t.log, Failures(s.id)) +
                           if s.status.Running? then 1 else 0;
               if (t.status.Cancelled? || t.status.TimedOut?) && i == t.currentStep then starts <= ends <= starts + 1
               else ends == starts
  {
    hide Legal, Final, UniqueKeys, IssuedOk, CacheOk, StarterOk, Replay, Count, Of;
    ReachableInv(run);
    var t := Final(run).db[id];
    assert Inv(t);
    assert StepOk(t.steps[i]) && StepLogOk(t.log, t.steps[i], Loose(t) != Some(i));
  }

  /** An ending leaves a step balanced if and only if it is not the current one or an attempt of it was
      running. */
  lemma ControlledBalance(t: Task, e: Ending, i: nat)
    requires Inv(t) && !Terminal(t.status) && i < |t.steps|
    ensures var t' := Controlled(t, e);
            |t'.steps| == |t.steps|
            && (Balanced(t'.log, t'.steps[i]) <==> i != t.currentStep || t.steps[i].status.Running?)
  {
    hide CacheOk, StarterOk, TaskLogOk, RowOk, StepOk, Count, Replay, LatestStart, Apply, Of;
    CurrentOpen(t);
    var k := t.currentStep;
    var s := t.steps[k];
    var f := StepFailed(s.id, k, s.attempt, Reason(e), None);
    Snoc(t.log, f);
    Snoc(t.log + [f], if e.ByCancel? then TaskCancelled(k, Reason(e)) else TaskTimedOut(k, Reason(e)));
    assert StepLogOk(t.log, t.steps[i], true);
  }

  /** An ending leaves the task where it was. */
  lemma EndsHere(t: Task)
    ensures Controlled(t, ByCancel).currentStep == t.currentStep
            && Controlled(t, ByTimeout).currentStep == t.currentStep
  {
  }

  /** An open task becomes CANCELLED or TIMED_OUT by one of these calls, which end it, and by nothing else. */
  lemma OnlyEndingsControl(id: Id, t: Task, op: Op, t1: Time, t2: Time)
    requires Inv(t) && !Terminal(t.status) && t1 <= t2
    ensures var t' := Perform(id, t, op, t1, t2).task;
            && (EndsTask(t, op, t1, t2) <==> t'.status.Cancelled? || t'.status.TimedOut?)
            && (EndsTask(t, op, t1, t2) ==> t' == Controlled(t, ByCancel) || t' == Controlled(t, ByTimeout))
  {
    hide ShapeOk, CacheOk, StarterOk, TaskLogOk, StepsLogOk, InputFor, Lookup, Startable, Waitable, Decidable,
      Finishable, DelaySeconds, EffectiveError;
  }

  /** Which calls on an open task unbalance a step: those that cancel it or time it out while no attempt of
      that step, its current one, is running. */
  lemma {:induction false} BalancedExactlyWhen(run: seq<Action>, id: Id, op: Op, t1: Time, t2: Time, i: nat)
    requires Legal(run + [Act(id, op, t1, t2)]) && id in Final(run).db && i < |Final(run).db[id].steps|
    requires !Terminal(Final(run).db[id].status)
    ensures id in Final(run + [Act(id, op, t1, t2)]).db
    ensures var t, t' := Final(run).db[id], Final(run + [Act(id, op, t1, t2)]).db[id];
            && |t'.steps| == |t.steps|
            && (!Balanced(t'.log, t'.steps[i]) <==>
                  EndsTask(t, op, t1, t2) && i == t.currentStep && !t.steps[i].status.Running?)
  {
    hide Legal, Final, Enabled, Inv, Balanced, Perform, Controlled, Grows, EndsTask;
    var late := run + [Act(id, op, t1, t2)];
    assert late[..|run|] == run && late[..|run| + 1] == late;
    LegalAt(late, |run|);
    At(run, late, id);
    var t, t' := Final(run).db[id], Final(late).db[id];
    assert t' == Perform(id, t, op, t1, t2).task && t1 <= t2 by { ActMeans(Final(run), id, op, t1, t2); }
    OnlyEndingsControl(id, t, op, t1, t2);
    ControlledBalance(t, ByCancel, i);
    ControlledBalance(t, ByTimeout, i);
    if !EndsTask(t, op, t1, t2) {
      ReachableInv(run);
      LengthKept(Final(run), Act(id, op, t1, t2), id);
      AllBalanced(t', i);
    }
  }

  lemma AllBalanced(t: Task, i: nat)
    requires Inv(t) && i < |t.steps| && Loose(t) == None
    ensures Balanced(t.log, t.steps[i])
  {
    hide ShapeOk, CacheOk, StarterOk, TaskLogOk, RowOk, Balanced;
    assert StepLogOk(t.log, t.steps[i], true);
  }

  /** Cancelling a task that was never claimed logs a failure of a step that never started. */
  lemma {:induction false} UnbalancedCancellation() returns (run: seq<Action>)
    ensures Legal(run) && "t" in Final(run).db && Final(run).db["t"].status.Cancelled?
    ensures Count(Final(run).db["t"].log, Starts("s")) == 0 && Count(Final(run).db["t"].log, Failures("s")) == 1
  {
    hide Replay, Count, LatestStart;
    var d := Definition(None, 60, [StepDef("echo", Obj(map["value" := Null]), 30, 3)]);
    var create := Create("t", ["s"], d, 0, 0);
    assert Insertable(map[], "t", ["s"], d);
    Extend([], create);
    assert [] + [create] == [create];
    Extend([create], Act("t", Cancel, 0, 0));
    run := [create] + [Act("t", Cancel, 0, 0)];
    var t := NewTask("t", ["s"], d, 0, 0);
    assert t.log == [] + [TaskCreated(1)];
    var f := StepFailed("s", 0, 0, "user_cancelled", None);
    NothingLogged();
    Snoc([], TaskCreated(1));
    Snoc(t.log, f);
    Snoc(t.log + [f], TaskCancelled(0, "user_cancelled"));
  }

  /** A terminal task never changes again, and its log holds exactly one ending; an open one has none. */
  lemma {:induction false} SingleOutcome(early: seq<Action>, late: seq<Action>, id: Id)
    requires Legal(late) && early <= late && id in Final(early).db
    ensures id in Final(late).db
    ensures var t, t' := Final(early).db[id], Final(late).db[id];
            && Count(t.log, Endings) == (if Terminal(t.status) then 1 else 0)
            && (Terminal(t.status) ==> t' == t)
            && |t.steps| == |t'.steps|
            && forall i | 0 <= i < |t.steps| && t.steps[i].status.Succeeded? :: t'.steps[i] == t.steps[i]
  {
    hide Legal, Final, UniqueKeys, IssuedOk, CacheOk, StarterOk, Replay, Count, Of, ShapeOk, RowOk, CancelFate,
      DeadlineFate, Fenced;
    At(early, late, id);
    var t, t' := Final(early).db[id], Final(late).db[id];
    forall i | 0 <= i < |t.steps| && t.steps[i].status.Succeeded? ensures t'.steps[i] == t.steps[i] {
      assert StepGrows(t.steps[i], t'.steps[i]);
    }
  }

  // ----- Fencing -----

  /** A token that was granted and once found without the lease never owns the task again, so nothing
      it sends later changes the task. */
  lemma {:induction false} FencedForever(early: seq<Action>, late: seq<Action>, id: Id, tok: Token, seen: Time,
                                         t1: Time, t2: Time)
    requires Legal(late) && early <= late && id in Final(early).db
    requires tok.version <= Final(early).db[id].leaseVersion
    requires seen <= Final(early).clock && !Owns(Final(early).db[id], tok, seen)
    requires Final(late).clock <= t1 <= t2
    ensures id in Final(late).db && !Owns(Final(late).db[id], tok, t1)
    ensures forall op: Op | op.Renew? || op.Start? || op.Wait? || op.Finish? || op.TimeoutOwned? || op.CancelOwned? ::
              op.tok == tok ==> Perform(id, Final(late).db[id], op, t1, t2).task == Final(late).db[id]
  {
    hide Legal, Final, UniqueKeys, IssuedOk, CacheOk, StarterOk, StepsLogOk, TaskLogOk, ShapeOk, CancelFate,
      DeadlineFate, StepsGrow, Controlled, StartStep, AwaitApproval, FailStep, SucceedStep;
    At(early, late, id);
  }

  /** At most one token owns a task, and an attempt that finishes was started by the very token that
      finishes it. */
  lemma {:induction false} FinishedByStarter(run: seq<Action>, id: Id, tok: Token, att: StepAttempt, out: Outcome,
                                             t1: Time, t2: Time)
    requires Legal(run) && id in Final(run).db
    requires FinishTx(Final(run).db[id], tok, att, out, t1, t2).reply == Done
    ensures LatestStart(Final(run).db[id].log, att.stepId) == Some((att.attempt, tok))
    ensures forall other, now | Owns(Final(run).db[id], other, now) :: other == tok
  {
    hide Legal, Final, UniqueKeys, IssuedOk, CacheOk, StepsLogOk, TaskLogOk, FailStep, SucceedStep, EffectiveError;
    ReachableInv(run);
    assert Inv(Final(run).db[id]);
  }

  // ----- Cancellation and deadline -----

  /** A recorded cancellation request leaves the task as it is until it ends it: nothing starts,
      finishes, renews or reassigns, and CANCELLED is the only end, deadline or no deadline. */
  lemma {:induction false} CancelIrrevocable(early: seq<Action>, late: seq<Action>, id: Id)
    requires Legal(late) && early <= late && id in Final(early).db
    requires Final(early).db[id].cancelRequested
    ensures id in Final(late).db
    ensures var t, t' := Final(early).db[id], Final(late).db[id];
            && (t.status.Running? || t.status.Cancelled?)
            && (t' == t || (t.status.Running? && t' == Controlled(t, ByCancel)))
            && (Terminal(t'.status) ==> t'.status.Cancelled?)
            && (forall stepId :: Count(t'.log, Starts(stepId)) == Count(t.log, Starts(stepId)))
            && (forall stepId :: Count(t'.log, Successes(stepId)) == Count(t.log, Successes(stepId)))
  {
    hide Legal, Final, UniqueKeys, IssuedOk, CacheOk, StarterOk, StepsLogOk, TaskLogOk, DeadlineFate, Fenced,
      StepsGrow, Count;
    At(early, late, id);
    var t := Final(early).db[id];
    ControlledLogsNoProgress(t, ByCancel);
  }

  lemma ControlledLogsNoProgress(t: Task, e: Ending)
    ensures forall stepId :: Count(Controlled(t, e).log, Starts(stepId)) == Count(t.log, Starts(stepId))
    ensures forall stepId :: Count(Controlled(t, e).log, Successes(stepId)) == Count(t.log, Successes(stepId))
    ensures Count(Controlled(t, e).log, Claims) == Count(t.log, Claims)
  {
    hide Count, Replay, LatestStart, Apply;
    var g := if e.ByCancel? then TaskCancelled(t.currentStep, Reason(e)) else TaskTimedOut(t.currentStep, Reason(e));
    Snoc(t.log, g);
    if t.currentStep < |t.steps| {
      var s := t.steps[t.currentStep];
      var f := StepFailed(s.id, t.currentStep, s.attempt, Reason(e), None);
      Snoc(t.log, f);
      Snoc(t.log + [f], g);
    }
  }

  /** The answer of CancelTask is kept: CANCELLED is for good, a recorded request can only lead there, and
      only a task that ended otherwise is refused, which no later state makes good. */
  lemma {:induction false} CancelAnswer(run: seq<Action>, id: Id, t1: Time, t2: Time, late: seq<Action>)
    requires Legal(late) && run + [Act(id, Cancel, t1, t2)] <= late && id in Final(run).db
    ensures id in Final(late).db
    ensures var t := Final(run).db[id]; var t' := Final(late).db[id];
            match CancelTx(t).reply
            case CancelledNow => t'.status.Cancelled?
            case CancellationRequested =>
              t.status.Running? && (t'.status.Cancelled? || (t'.status.Running? && t'.cancelRequested))
            case Refused(e) => e == Conflict && t' == t && Terminal(t.status) && !t.status.Cancelled?
            case _ => false
  {
    hide Legal, Final, Enabled, UniqueKeys, IssuedOk, CacheOk, StarterOk, StepsLogOk, TaskLogOk, ShapeOk,
      DeadlineFate, Fenced, StepsGrow;
    var asked := run + [Act(id, Cancel, t1, t2)];
    assert late[..|run|] == run && late[..|run| + 1] == asked;
    LegalAt(late, |run|);
    At(run, asked, id);
    At(asked, late, id);
  }

  /** The deadline is set by the first claim and never moves. Once it has passed, a task stays as it is until
      it is asked to cancel, cancelled or timed out: no further claim, renewal, start, finish or decision. */
  lemma {:induction false} DeadlineHolds(early: seq<Action>, late: seq<Action>, id: Id)
    requires Legal(late) && early <= late && id in Final(early).db
    ensures id in Final(late).db
    ensures var t, t' := Final(early).db[id], Final(late).db[id];
            && (t.deadlineAt.None? <==> t.leaseVersion == 0)
            && (t.deadlineAt.Some? ==>
                  && t.firstStartedAt.Some? && t.deadlineAt.value == t.firstStartedAt.value + t.timeoutSeconds * SECOND
                  && t'.deadlineAt == t.deadlineAt && t'.firstStartedAt == t.firstStartedAt)
            && (DeadlinePassed(t, Final(early).clock) ==>
                  var asked := t.(cancelRequested := true);
                  || t' == t || t' == asked || t' == Controlled(t, ByTimeout) || t' == Controlled(t, ByCancel)
                  || t' == Controlled(asked, ByCancel))
            && (DeadlinePassed(t, Final(early).clock) && !Terminal(t.status) ==>
                  && (Terminal(t'.status) ==> t'.status.TimedOut? || t'.status.Cancelled?)
                  && t'.leaseVersion == t.leaseVersion && t'.currentStep == t.currentStep
                  && Count(t'.log, Claims) == Count(t.log, Claims)
                  && (forall stepId :: Count(t'.log, Starts(stepId)) == Count(t.log, Starts(stepId)))
                  && (forall stepId :: Count(t'.log, Successes(stepId)) == Count(t.log, Successes(stepId))))
  {
    hide Legal, Final, UniqueKeys, IssuedOk, CacheOk, StarterOk, StepsLogOk, TaskLogOk, ShapeOk, CancelFate, Fenced,
      StepsGrow, Count;
    At(early, late, id);
    var t := Final(early).db[id];
    ControlledLogsNoProgress(t, ByCancel);
    ControlledLogsNoProgress(t, ByTimeout);
    ControlledLogsNoProgress(t.(cancelRequested := true), ByCancel);
  }

  // ----- Approval -----

  /** A decision is recorded once, under one event, for good. Repeating it changes nothing and answers
      with it and the task's present status; the opposite decision conflicts and changes nothing; and
      deciding another step leaves this one as it is. */
  lemma {:induction false} ApprovalOnce(early: seq<Action>, late: seq<Action>, id: Id, k: nat, again: string, t1: Time)
    requires Legal(late) && early <= late && id in Final(early).db
    requires k < |Final(early).db[id].steps| && Final(early).db[id].steps[k].decision.Some?
    requires again == APPROVED || again == REJECTED
    ensures id in Final(late).db && |Final(late).db[id].steps| == |Final(early).db[id].steps|
    ensures var t, t' := Final(early).db[id], Final(late).db[id]; var s' := t'.steps[k];
            && s'.id == t.steps[k].id && s'.decision == t.steps[k].decision
            && (s'.decision == Some(APPROVED) || s'.decision == Some(REJECTED))
            && Count(t'.log, Approvals(s'.id)) == (if s'.decision == Some(APPROVED) then 1 else 0)
            && Count(t'.log, Rejections(s'.id)) == (if s'.decision == Some(REJECTED) then 1 else 0)
            && DecideTx(t', s'.id, again, t1) ==
               Tx(t', if s'.decision == Some(again) then Decided(again, t'.status) else Refused(Conflict))
    ensures var t' := Final(late).db[id];
            forall other, decision | 0 <= other < |t'.steps| && other != k ::
              var t'' := DecideTx(t', t'.steps[other].id, decision, t1).task;
              |t''.steps| == |t'.steps| && t''.steps[k] == t'.steps[k]
  {
    hide Legal, Final, UniqueKeys, IssuedOk, CacheOk, StarterOk, TaskLogOk, CancelFate, DeadlineFate, Fenced,
      RowGrows, Approve, Reject, Count, Replay;
    At(early, late, id);
    var t, t' := Final(early).db[id], Final(late).db[id];
    assert StepGrows(t.steps[k], t'.steps[k]) && StepOk(t'.steps[k]);
    assert StepLogOk(t'.log, t'.steps[k], Loose(t') != Some(k));
    LookupById(t'.steps, k);
    forall other, decision | 0 <= other < |t'.steps| && other != k
      ensures var t'' := DecideTx(t', t'.steps[other].id, decision, t1).task;
              |t''.steps| == |t'.steps| && t''.steps[k] == t'.steps[k]
    {
      DecisionIsLocal(t', other, decision, t1, k);
    }
  }

  lemma LookupById(steps: seq<Step>, k: nat)
    requires DistinctIds(steps) && k < |steps|
    ensures Lookup(steps, steps[k].id) == Some(k)
  {
  }

  /** Deciding a step touches no other step. */
  lemma DecisionIsLocal(t: Task, k: nat, decision: string, t1: Time, other: nat)
    requires Inv(t) && k < |t.steps| && other < |t.steps| && other != k
    ensures var t' := DecideTx(t, t.steps[k].id, decision, t1).task;
            |t'.steps| == |t.steps| && t'.steps[other] == t.steps[other]
  {
    hide CacheOk, StarterOk, TaskLogOk, StepsLogOk, RowOk;
    LookupById(t.steps, k);
  }

  // ----- Stored inputs -----

  /** The stored input of the current step is what resolving it afresh would give, and once stored an
      input, like the idempotency key, never changes. */
  lemma {:induction false} ResolvedInputCoherent(early: seq<Action>, late: seq<Action>, id: Id, i: nat)
    requires Legal(late) && early <= late && id in Final(early).db && i < |Final(early).db[id].steps|
    ensures id in Final(late).db && |Final(late).db[id].steps| == |Final(early).db[id].steps|
    ensures var t, t' := Final(early).db[id], Final(late).db[id];
            && t'.steps[i].key == t.steps[i].key && t'.steps[i].def == t.steps[i].def
            && (t.steps[i].resolved.Some? ==> t'.steps[i].resolved == t.steps[i].resolved)
            && (t'.currentStep == i && t'.steps[i].resolved.Some? ==>
                  t'.steps[i].resolved == Resolution(t'.steps[i].def.input, PreviousOutput(t'.steps, i), t'.checkpoint))
  {
    hide Legal, Final, UniqueKeys, IssuedOk, StarterOk, TaskLogOk, StepsLogOk, CancelFate, DeadlineFate, Fenced,
      RowGrows, Resolution;
    At(early, late, id);
    assert StepGrows(Final(early).db[id].steps[i], Final(late).db[id].steps[i]);
  }

  /** For a definition that passed validation, the owner's StartStep of the current step is refused for
      its input exactly when the input uses a previous output that is missing or null, or a null
      checkpoint. */
  lemma {:induction false} StartUnresolvableExactlyWhen(run: seq<Action>, id: Id, tok: Token, t1: Time)
    requires Legal(run) && id in Final(run).db
    requires OwnershipError(Final(run).db[id], tok, t1).None?
    requires var t := Final(run).db[id]; t.currentStep < |t.steps| && Startable(t, t.currentStep)
    requires var t := Final(run).db[id]; Accepted(t.steps[t.currentStep].def.input, t.currentStep > 0)
    ensures var t := Final(run).db[id]; var s := t.steps[t.currentStep];
            StartTx(id, t, tok, s.id, t1).reply == Refused(Invalid) <==>
            || (Uses(s.def.input, PREVIOUS) && Decoded(PreviousOutput(t.steps, t.currentStep)) == Null)
            || (Uses(s.def.input, CHECKPOINT) && t.checkpoint == Null)
  {
    hide Legal, Final, UniqueKeys, IssuedOk, StarterOk, TaskLogOk, StepsLogOk, RowOk, Uses, WellFormed, Substitute,
      StepOk;
    ReachableInv(run);
    var t := Final(run).db[id];
    assert Inv(t);
    LookupById(t.steps, t.currentStep);
  }
}
