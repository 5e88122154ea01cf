/** What a task keeps from an earlier state to every later one. Grows is a preorder that every
    transaction respects, so a fact it preserves holds over whole runs. */
module History {
  import opened Basics
  import opened Resolve
  import opened Model
  import opened Transactions
  import opened EventLog
  import opened Invariant

  predicate StepGrows(s: Step, s': Step) {
    && s'.id == s.id && s'.key == s.key && s'.def == s.def
    && s.attempt <= s'.attempt
    && (s.resolved.Some? ==> s'.resolved == s.resolved)
    && (s.decision.Some? ==> s'.decision == s.decision)
    && (s.status.Succeeded? ==> s' == s)
  }

  predicate StepsGrow(steps: seq<Step>, steps': seq<Step>) {
    |steps| == |steps'| && forall i | 0 <= i < |steps| :: StepGrows(steps[i], steps'[i])
  }

  predicate RowGrows(t: Task, t': Task) {
    && t'.createdAt == t.createdAt && t'.runAt == t.runAt && t'.timeoutSeconds == t.timeoutSeconds
    && t.leaseVersion <= t'.leaseVersion && t.currentStep <= t'.currentStep
    && (t.firstStartedAt.Some? ==> t'.firstStartedAt == t.firstStartedAt)
    && (t.deadlineAt.Some? ==> t'.deadlineAt == t.deadlineAt)
    && t.log <= t'.log
  }

  /** A lease version has one owner for as long as it lasts, and an expired lease is not revived. */
  predicate Fenced(t: Task, clock: Time, t': Task) {
    t'.status.Running? && t'.leaseVersion == t.leaseVersion ==>
      && t.status.Running? && t'.workerId == t.workerId
      && (t.leaseExpiresAt.Some? && t.leaseExpiresAt.value <= clock ==> t'.leaseExpiresAt == t.leaseExpiresAt)
  }

  predicate CancelFate(t: Task, t': Task) {
    t.cancelRequested ==> t' == t || t' == Controlled(t, ByCancel)
  }

  predicate DeadlineFate(t: Task, clock: Time, t': Task) {
    DeadlinePassed(t, clock) ==>
      var asked := t.(cancelRequested := true);
      t' == t || t' == asked || t' == Controlled(t, ByTimeout) || t' == Controlled(t, ByCancel)
      || t' == Controlled(asked, ByCancel)
  }

  predicate Grows(t: Task, clock: Time, t': Task, clock': Time) {
    && clock <= clock'
    && RowGrows(t, t') && StepsGrow(t.steps, t'.steps)
    && (Terminal(t.status) ==> t' == t)
    && Fenced(t, clock, t')
    && CancelFate(t, t') && DeadlineFate(t, clock, t')
  }

  lemma StepsGrowTransitive(a: seq<Step>, b: seq<Step>, c: seq<Step>)
    requires StepsGrow(a, b) && StepsGrow(b, c)
    ensures StepsGrow(a, c)
  {
    forall i | 0 <= i < |a| ensures StepGrows(a[i], c[i]) {
      assert StepGrows(a[i], b[i]) && StepGrows(b[i], c[i]);
    }
  }

  lemma ControlledEnds(t: Task, e: Ending)
    ensures Terminal(Controlled(t, e).status)
  {
  }

  lemma DeadlineFateTransitive(t: Task, c: Time, t': Task, c': Time, t'': Task)
    requires c <= c' && (Terminal(t'.status) ==> t'' == t')
    requires CancelFate(t', t'')
    requires DeadlineFate(t, c, t') && DeadlineFate(t', c', t'')
    ensures DeadlineFate(t, c, t'')
  {
    hide Terminal, Controlled;
    ControlledEnds(t, ByTimeout);
    ControlledEnds(t, ByCancel);
    ControlledEnds(t.(cancelRequested := true), ByCancel);
  }

  lemma GrowsTransitive(t: Task, c: Time, t': Task, c': Time, t'': Task, c'': Time)
    requires Grows(t, c, t', c') && Grows(t', c', t'', c'')
    ensures Grows(t, c, t'', c'')
  {
    hide Controlled, StepsGrow, DeadlineFate, StepOk, Resolution;
    StepsGrowTransitive(t.steps, t'.steps, t''.steps);
    ControlledEnds(t, ByCancel);
    DeadlineFateTransitive(t, c, t', c', t'');
  }

  lemma GrowsReflexive(t: Task, c: Time, c': Time)
    requires c <= c'
    ensures Grows(t, c, t, c')
  {
  }

  lemma LoggedStays(t: Task, c: Time, t': Task, c': Time, q: Query)
    requires Grows(t, c, t', c') && Logged(t.log, q)
    ensures Logged(t'.log, q)
  {
    hide StepsGrow, Fenced, CancelFate, DeadlineFate;
  }

  // ----- Every transaction respects it -----

  lemma TerminalFrozen(id: Id, t: Task, op: Op, t1: Time, t2: Time)
    requires RowOk(t) && Terminal(t.status)
    ensures Perform(id, t, op, t1, t2).task == t
  {
    hide Controlled, Recover, Assign, Announce, InputFor, StartStep, AwaitApproval, Approve, Reject, FailStep,
      SucceedStep;
  }

  lemma CancelHonoured(id: Id, t: Task, op: Op, t1: Time, t2: Time)
    requires RowOk(t) && t.cancelRequested
    ensures CancelFate(t, Perform(id, t, op, t1, t2).task)
  {
    hide Controlled, Recover, Assign, Announce, InputFor, StartStep, AwaitApproval, Approve, Reject, FailStep,
      SucceedStep;
  }

  lemma DeadlineHonoured(id: Id, t: Task, op: Op, t1: Time, t2: Time)
    requires RowOk(t) && DeadlinePassed(t, t1) && t1 <= t2
    ensures DeadlineFate(t, t1, Perform(id, t, op, t1, t2).task)
  {
    hide Controlled, Recover, Assign, Announce, InputFor, StartStep, AwaitApproval, Approve, Reject, FailStep,
      SucceedStep;
  }

  lemma FencingHonoured(id: Id, t: Task, op: Op, t1: Time, t2: Time)
    requires RowOk(t)
    ensures Fenced(t, t1, Perform(id, t, op, t1, t2).task)
  {
    hide InputFor, Lookup, Resolution, Startable, Waitable, DelaySeconds, EffectiveError;
  }

  lemma ClaimHonoured(t: Task, worker: string, lease: Time, t1: Time, statement: Time, t2: Time)
    requires RowOk(t)
    ensures RowGrows(t, ClaimTx(t, worker, lease, t1, statement, t2).task)
  {
  }

  lemma FinishHonoured(t: Task, tok: Token, att: StepAttempt, out: Outcome, t1: Time, t2: Time)
    ensures RowGrows(t, FinishTx(t, tok, att, out, t1, t2).task)
  {
    hide Lookup, DelaySeconds, EffectiveError, OwnershipError;
  }

  lemma RowHonoured(id: Id, t: Task, op: Op, t1: Time, t2: Time)
    requires RowOk(t)
    ensures RowGrows(t, Perform(id, t, op, t1, t2).task)
  {
    hide InputFor, Lookup, Resolution, Startable, Waitable, OwnershipError, ClaimTx, FinishTx;
    match op
    case Claim(worker, lease, statement) => ClaimHonoured(t, worker, lease, t1, statement, t2);
    case Finish(tok, att, out) => FinishHonoured(t, tok, att, out, t1, t2);
    case _ =>
  }

  lemma StepsGrowReflexive(steps: seq<Step>)
    ensures StepsGrow(steps, steps)
  {
  }

  lemma StepsPatch(steps: seq<Step>, k: nat, s': Step)
    requires k < |steps| && StepGrows(steps[k], s')
    ensures StepsGrow(steps, steps[k := s'])
  {
  }

  /** Every effect on a step row, on the row's own guard. */
  lemma EffectsGrow(t: Task, k: nat, tok: Token, input: Json, att: StepAttempt, out: Outcome, error: string,
                    retrying: bool, now: Time)
    requires k < |t.steps| && StepOk(t.steps[k])
    ensures Startable(t, k) && InputFor(t, k) == Some(input) ==> StepsGrow(t.steps, StartStep(t, k, tok, input).steps)
    ensures Waitable(t, k) && InputFor(t, k) == Some(input) ==> StepsGrow(t.steps, AwaitApproval(t, k, input).steps)
    ensures Decidable(t, k, now) ==> StepsGrow(t.steps, Approve(t, k).steps) && StepsGrow(t.steps, Reject(t, k).steps)
    ensures Finishable(t, k, att) ==> StepsGrow(t.steps, FailStep(t, k, tok, att, error, retrying, now).steps)
    ensures Finishable(t, k, att) ==> StepsGrow(t.steps, SucceedStep(t, k, tok, att, out).steps)
  {
    hide Resolution, DelaySeconds;
    var s := t.steps[k];
    if Startable(t, k) && InputFor(t, k) == Some(input) {
      StepsPatch(t.steps, k, StartStep(t, k, tok, input).steps[k]);
    }
    if Waitable(t, k) && InputFor(t, k) == Some(input) { StepsPatch(t.steps, k, AwaitApproval(t, k, input).steps[k]); }
    if Decidable(t, k, now) {
      StepsPatch(t.steps, k, Approve(t, k).steps[k]);
      StepsPatch(t.steps, k, Reject(t, k).steps[k]);
    }
    if Finishable(t, k, att) {
      StepsPatch(t.steps, k, FailStep(t, k, tok, att, error, retrying, now).steps[k]);
      StepsPatch(t.steps, k, SucceedStep(t, k, tok, att, out).steps[k]);
    }
  }

  lemma EndingsGrow(t: Task)
    ensures StepsGrow(t.steps, Controlled(t, ByCancel).steps) && StepsGrow(t.steps, Controlled(t, ByTimeout).steps)
    ensures StepsGrow(t.steps, Recover(t).steps)
  {
    if t.currentStep < |t.steps| {
      var s := t.steps[t.currentStep];
      if !s.status.Succeeded? {
        StepsPatch(t.steps, t.currentStep, Controlled(t, ByCancel).steps[t.currentStep]);
        StepsPatch(t.steps, t.currentStep, Controlled(t, ByTimeout).steps[t.currentStep]);
        if s.status.Running? { StepsPatch(t.steps, t.currentStep, Abandon(t).steps[t.currentStep]); }
      }
    }
  }

  lemma StepsHonoured(id: Id, t: Task, op: Op, t1: Time, t2: Time)
    requires ShapeOk(t)
    ensures StepsGrow(t.steps, Perform(id, t, op, t1, t2).task.steps)
  {
    hide Controlled, Recover, StartStep, AwaitApproval, Approve, Reject, FailStep, SucceedStep,
      Startable, Waitable, Decidable, Finishable, StepOk, InputFor, StepGrows;
    StepsGrowReflexive(t.steps);
    EndingsGrow(t);
    var att := StepAttempt("", "", 0, "", 0, 0, "", Null, 0);
    var out := Outcome(Bytes(0, None), Bytes(0, None), "", Unclassified);
    match op
    case Start(tok, stepId) =>
      var k := Lookup(t.steps, stepId);
      if k.Some? && InputFor(t, k.value).Some? {
        EffectsGrow(t, k.value, tok, InputFor(t, k.value).value, att, out, "", false, t1);
      }
    case Wait(tok, stepId) =>
      var k := Lookup(t.steps, stepId);
      if k.Some? && InputFor(t, k.value).Some? {
        EffectsGrow(t, k.value, tok, InputFor(t, k.value).value, att, out, "", false, t1);
      }
    case Decide(stepId, decision) =>
      var k := Lookup(t.steps, stepId);
      if k.Some? { EffectsGrow(t, k.value, Token("", 0), Null, att, out, "", false, t1); }
    case Finish(tok, a, o) =>
      var k := Lookup(t.steps, a.stepId);
      if k.Some? { EffectsGrow(t, k.value, tok, Null, a, o, EffectiveError(o), Retries(t.steps[k.value], a, o), t2); }
    case _ =>
  }

  lemma PerformGrows(id: Id, t: Task, clock: Time, op: Op, t1: Time, t2: Time)
    requires Inv(t) && clock <= t1 <= t2
    ensures Grows(t, clock, Perform(id, t, op, t1, t2).task, t2)
  {
    hide Perform, Controlled, ShapeOk, StepsLogOk, CacheOk, TaskLogOk, StarterOk;
    StepsHonoured(id, t, op, t1, t2);
    RowHonoured(id, t, op, t1, t2);
    FencingHonoured(id, t, op, t1, t2);
    if Terminal(t.status) { TerminalFrozen(id, t, op, t1, t2); }
    if t.cancelRequested { CancelHonoured(id, t, op, t1, t2); }
    if DeadlinePassed(t, clock) { DeadlineHonoured(id, t, op, t1, t2); }
  }
}
