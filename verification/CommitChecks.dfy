/** The checks that commitWithFactCheck makes, at any later time, after a commit whose response was
    lost (internal/store/store.go:1190-1269, 733-754). */
module CommitChecks {
  import opened Basics
  import opened Resolve
  import opened Model
  import opened Transactions
  import opened Happenings
  import opened Guards
  import opened EventLog
  import opened Invariant
  import opened History
  import opened Runs
  import opened Progress
  import G = Guarantees

  predicate StartPersisted(t: Task, att: StepAttempt) {
    match Lookup(t.steps, att.stepId)
    case None => false
    case Some(k) =>
      && t.steps[k].status.Running? && t.steps[k].attempt == att.attempt && t.steps[k].resolved == Some(att.resolved)
      && Logged(t.log, StartsOf(att.stepId, att.attempt))
  }

  /** stepFinishPersisted for a reported success. */
  predicate SuccessPersisted(t: Task, att: StepAttempt, out: Outcome) {
    match Lookup(t.steps, att.stepId)
    case None => false
    case Some(k) =>
      && t.steps[k].status.Succeeded? && t.steps[k].attempt == att.attempt
      && t.steps[k].output.Some? && t.steps[k].output == out.output.json && k < t.currentStep
      && Logged(t.log, SuccessesOf(att.stepId, att.attempt))
  }

  predicate DecisionPersisted(t: Task, stepId: Id, decision: string) {
    match Lookup(t.steps, stepId)
    case None => false
    case Some(k) =>
      var s := t.steps[k];
      && s.decision == Some(decision)
      && (|| (decision == APPROVED && s.status.Succeeded? && k < t.currentStep && Logged(t.log, Approvals(stepId)))
          || (decision == REJECTED && s.status.Failed? && t.status.Failed? && t.currentStep == k
              && Logged(t.log, Rejections(stepId))))
  }

  /** Action i of the run committed the success of this very attempt with this very output. */
  predicate Committed(run: seq<Action>, i: nat, id: Id, att: StepAttempt, out: Outcome) {
    && i < |run| && run[i].Act? && run[i].id == id && id in Final(run[..i]).db
    && Succeeds(Final(run[..i]).db[id], run[i].op, run[i].t1)
    && run[i].op.att.stepId == att.stepId && run[i].op.att.attempt == att.attempt
    && run[i].op.out.output.json == out.output.json
  }

  // ----- Successful finish -----

  lemma SuccessLogged(t: Task, k: nat, tok: Token, att: StepAttempt, out: Outcome)
    requires k < |t.steps|
    ensures Logged(SucceedStep(t, k, tok, att, out).log, SuccessesOf(att.stepId, att.attempt))
  {
    var e := StepSucceeded(att.stepId, att.index, att.attempt, tok.worker, tok.version);
    assert e in SucceedStep(t, k, tok, att, out).log;
  }

  lemma SuccessNow(id: Id, t: Task, op: Op, t1: Time, t2: Time)
    requires Inv(t) && Succeeds(t, op, t1)
    ensures SuccessPersisted(Perform(id, t, op, t1, t2).task, op.att, op.out)
  {
    hide CacheOk, StarterOk, StepsLogOk, TaskLogOk, Perform, Count, RowOk;
    Advances(id, t, op, t1, t2);
    var t' := SucceedStep(t, t.currentStep, op.tok, op.att, op.out);
    SuccessLogged(t, t.currentStep, op.tok, op.att, op.out);
    G.LookupById(t'.steps, t.currentStep);
  }

  /** Lookup depends on ids only. */
  lemma {:induction false} LookupGrows(steps: seq<Step>, steps': seq<Step>, stepId: Id)
    requires StepsGrow(steps, steps')
    ensures Lookup(steps, stepId) == Lookup(steps', stepId)
  {
    if steps != [] {
      var n := |steps| - 1;
      assert StepGrows(steps[n], steps'[n]);
      assert StepsGrow(steps[..n], steps'[..n]) by {
        forall i | 0 <= i < n ensures StepGrows(steps[..n][i], steps'[..n][i]) {
          assert StepGrows(steps[i], steps'[i]);
        }
      }
      LookupGrows(steps[..n], steps'[..n], stepId);
    }
  }

  lemma SuccessSticks(t: Task, c: Time, t': Task, c': Time, att: StepAttempt, out: Outcome)
    requires SuccessPersisted(t, att, out) && Grows(t, c, t', c')
    ensures SuccessPersisted(t', att, out)
  {
    hide Count, CancelFate, DeadlineFate, Fenced, Terminal;
    LookupGrows(t.steps, t'.steps, att.stepId);
    assert StepGrows(t.steps[Lookup(t.steps, att.stepId).value], t'.steps[Lookup(t.steps, att.stepId).value]);
  }

  /** A committed success is confirmed by the check from then on. */
  lemma {:induction false} CommittedIsConfirmed(run: seq<Action>, i: nat, id: Id, att: StepAttempt, out: Outcome)
    requires Legal(run) && Committed(run, i, id, att, out)
    ensures id in Final(run).db && SuccessPersisted(Final(run).db[id], att, out)
  {
    hide Legal, Final, Enabled, Inv, Grows, SuccessPersisted, Perform, UniqueKeys, IssuedOk;
    LegalAt(run, i);
    ReachableInv(run[..i]);
    SuccessNow(id, Final(run[..i]).db[id], run[i].op, run[i].t1, run[i].t2);
    G.At(run[..i + 1], run, id);
    SuccessSticks(Final(run[..i + 1]).db[id], Final(run[..i + 1]).clock, Final(run).db[id], Final(run).clock,
                  run[i].op.att, run[i].op.out);
    SameCheck(Final(run).db[id], run[i].op.att, run[i].op.out, att, out);
  }

  /** The check reads only the step, the attempt number and the output. */
  lemma SameCheck(t: Task, a: StepAttempt, o: Outcome, b: StepAttempt, p: Outcome)
    requires a.stepId == b.stepId && a.attempt == b.attempt && o.output.json == p.output.json
    ensures SuccessPersisted(t, a, o) == SuccessPersisted(t, b, p)
  {
  }

  /** What a step that just became SUCCEEDED with an output says about the transaction. */
  lemma BecameSucceeded(id: Id, t: Task, op: Op, t1: Time, t2: Time, k: nat)
    requires ShapeOk(t) && k < |t.steps| && !t.steps[k].status.Succeeded?
    requires var t' := Perform(id, t, op, t1, t2).task;
             ShapeOk(t') && |t'.steps| == |t.steps| && t'.steps[k].status.Succeeded? && t'.steps[k].output.Some?
    ensures Succeeds(t, op, t1) && k == t.currentStep
    ensures var t' := Perform(id, t, op, t1, t2).task;
            op.att.stepId == t'.steps[k].id && op.att.attempt == t'.steps[k].attempt
            && op.out.output.json == t'.steps[k].output
  {
    hide Perform, Succeeds, Approves;
    Advances(id, t, op, t1, t2);
    var t' := Perform(id, t, op, t1, t2).task;
    assert StepOk(t'.steps[k]) && StepOk(t.steps[k]);
    if Succeeds(t, op, t1) {
      SucceedsMeans(t, op, t1);
    } else if Approves(t, op, t1) {
      ApprovesMeans(t, op, t1);
    }
  }

  lemma SucceedsMeans(t: Task, op: Op, t1: Time)
    requires Succeeds(t, op, t1)
    ensures var t' := SucceedStep(t, t.currentStep, op.tok, op.att, op.out);
            && t'.steps == t.steps[t.currentStep := t'.steps[t.currentStep]] && t'.currentStep == t.currentStep + 1
            && op.att.stepId == t'.steps[t.currentStep].id && op.att.attempt == t'.steps[t.currentStep].attempt
            && op.out.output.json == t'.steps[t.currentStep].output
  {
  }

  lemma ApprovesMeans(t: Task, op: Op, t1: Time)
    requires ShapeOk(t) && Approves(t, op, t1)
    ensures var t' := Approve(t, t.currentStep);
            && t'.steps == t.steps[t.currentStep := t'.steps[t.currentStep]]
            && IsApproval(t'.steps[t.currentStep])
  {
    DecideGuard(t, op, t1);
  }

  predicate HasSucceeded(t: Task, k: nat, stepId: Id, attempt: int, output: Json) {
    && k < |t.steps| && t.steps[k].id == stepId && t.steps[k].status.Succeeded?
    && t.steps[k].attempt == attempt && t.steps[k].output == Some(output)
  }

  lemma {:induction false} SucceededWasCommitted(run: seq<Action>, id: Id, k: nat, att: StepAttempt, out: Outcome)
    returns (i: nat)
    requires Legal(run) && id in Final(run).db && out.output.json.Some?
    requires HasSucceeded(Final(run).db[id], k, att.stepId, att.attempt, out.output.json.value)
    ensures Committed(run, i, id, att, out)
  {
    hide Inv, Grows, Succeeds, Perform, UniqueKeys, IssuedOk, Insertable, NewTask;
    var front, a := run[..|run| - 1], run[|run| - 1];
    ReachableInv(front);
    NextGrows(Final(front), a);
    if a.Create? && a.id == id {
      NewTaskHasPending(id, a.stepIds, a.d, a.t1, a.t2);
    } else {
      var t, t' := Final(front).db[id], Final(run).db[id];
      assert Grows(t, Final(front).clock, t', Final(run).clock);
      GrowsLength(t, Final(front).clock, t', Final(run).clock, k);
      if t.steps[k].status.Succeeded? {
        i := SucceededWasCommitted(front, id, k, att, out);
        assert run[..i] == front[..i];
      } else {
        ReachableInv(run);
        InvShape(t);
        InvShape(t');
        BecameSucceeded(id, t, a.op, a.t1, a.t2, k);
        i := |run| - 1;
      }
    }
  }

  lemma NewTaskHasPending(id: Id, stepIds: seq<Id>, d: Definition, t1: Time, t2: Time)
    requires |stepIds| == |d.steps|
    ensures var t := NewTask(id, stepIds, d, t1, t2); forall k | 0 <= k < |t.steps| :: t.steps[k].status.Pending?
  {
  }

  lemma GrowsLength(t: Task, c: Time, t': Task, c': Time, k: nat)
    requires Grows(t, c, t', c') && k < |t'.steps|
    ensures |t.steps| == |t'.steps| && t.steps[k].id == t'.steps[k].id
    ensures t.steps[k].status.Succeeded? ==> t'.steps[k] == t.steps[k]
  {
    hide CancelFate, DeadlineFate, Fenced, RowGrows, Terminal;
    assert StepGrows(t.steps[k], t'.steps[k]);
  }

  /** The check on a reported success is exact, whatever happened in between: it answers yes if and
      only if a FinishStep of that attempt with that output has been committed. */
  lemma {:induction false} FinishCheckExact(run: seq<Action>, id: Id, att: StepAttempt, out: Outcome)
    requires Legal(run) && id in Final(run).db && out.output.json.Some?
    ensures SuccessPersisted(Final(run).db[id], att, out) <==> exists i: nat :: Committed(run, i, id, att, out)
  {
    hide Legal, Final, Committed;
    if SuccessPersisted(Final(run).db[id], att, out) {
      var i := SucceededWasCommitted(run, id, Lookup(Final(run).db[id].steps, att.stepId).value, att, out);
    }
    if i: nat :| Committed(run, i, id, att, out) {
      CommittedIsConfirmed(run, i, id, att, out);
    }
  }

  // ----- Start -----

  lemma StartLogged(t: Task, k: nat, tok: Token, input: Json)
    requires k < |t.steps|
    ensures Logged(StartStep(t, k, tok, input).log, StartsOf(t.steps[k].id, t.steps[k].attempt + 1))
  {
    var e := StepStarted(t.steps[k].id, k, t.steps[k].attempt + 1, tok.worker, tok.version);
    assert e in StartStep(t, k, tok, input).log;
  }

  /** The check on a start answers yes right after its own commit. */
  lemma StartConfirmedNow(id: Id, t: Task, tok: Token, stepId: Id, t1: Time)
    requires Inv(t) && StartTx(id, t, tok, stepId, t1).reply.Attempt?
    ensures var tx := StartTx(id, t, tok, stepId, t1); StartPersisted(tx.task, tx.reply.attempt)
  {
    hide CacheOk, StarterOk, TaskLogOk, StepsLogOk, RowOk, StepOk, MayBeCurrent, InputFor, OwnershipError, Startable;
    var k := Lookup(t.steps, stepId).value;
    StartLogged(t, k, tok, InputFor(t, k).value);
    OnlyOne(StartStep(t, k, tok, InputFor(t, k).value).steps, k, stepId);
  }

  /** A confirmed start is the caller's own, or the caller can never finish it: either the persisted
      attempt was started by its token, or every FinishStep it sends from then on is refused. */
  lemma {:induction false} StartCheckSafe(early: seq<Action>, late: seq<Action>, later: seq<Action>, id: Id,
                                          tok: Token, stepId: Id, t0: Time, att: StepAttempt, out: Outcome, t1: Time,
                                          t2: Time)
    requires Legal(later) && early <= late <= later && id in Final(early).db
    requires Final(early).clock <= t0
    requires StartTx(id, Final(early).db[id], tok, stepId, t0).reply == Attempt(att)
    requires id in Final(late).db && StartPersisted(Final(late).db[id], att)
    requires Final(later).clock <= t1 <= t2
    ensures id in Final(later).db
    ensures || LatestStart(Final(late).db[id].log, stepId) == Some((att.attempt, tok))
            || forall a: StepAttempt ::
               FinishTx(Final(later).db[id], tok, a, out, t1, t2) == Tx(Final(later).db[id], Refused(LeaseLost))
  {
    hide Legal, Final, UniqueKeys, IssuedOk, CacheOk, StepsLogOk, TaskLogOk, CancelFate, DeadlineFate, StepsGrow,
      StepOk, Resolution, Count, LatestStart, FailStep, SucceedStep, EffectiveError;
    RunGrows(late, later);
    G.At(early, late, id);
    G.At(late, later, id);
  }

  // ----- Decision -----

  lemma DecisionSticks(t: Task, c: Time, t': Task, c': Time, stepId: Id, decision: string)
    requires DecisionPersisted(t, stepId, decision) && Grows(t, c, t', c')
    ensures DecisionPersisted(t', stepId, decision)
  {
    hide Count, CancelFate, DeadlineFate, Fenced;
    LookupGrows(t.steps, t'.steps, stepId);
    var k := Lookup(t.steps, stepId).value;
    assert StepGrows(t.steps[k], t'.steps[k]);
  }

  /** A recorded decision passes the check now; with DecisionSticks, in every later state too. */
  lemma DecidedIsPersisted(t: Task, k: nat)
    requires Inv(t) && k < |t.steps| && t.steps[k].decision.Some?
    ensures DecisionPersisted(t, t.steps[k].id, t.steps[k].decision.value)
  {
    hide CacheOk, StarterOk, TaskLogOk, RowOk, Replay, Count, Of;
    assert StepOk(t.steps[k]) && StepLogOk(t.log, t.steps[k], Loose(t) != Some(k));
    CountedIsLogged(t.log, Approvals(t.steps[k].id));
    CountedIsLogged(t.log, Rejections(t.steps[k].id));
    G.LookupById(t.steps, k);
  }

  /** The decision check is true whenever DecideApproval answers with that decision, first or repeated, it is
      true precisely when that decision is the one recorded, and once true it stays true. */
  lemma {:induction false} DecisionCheckStable(early: seq<Action>, late: seq<Action>, id: Id, stepId: Id,
                                               decision: string, t1: Time)
    requires Legal(late) && early <= late && id in Final(early).db && Final(early).clock <= t1
    requires DecideTx(Final(early).db[id], stepId, decision, t1).reply.Decided?
    ensures Inv(Final(early).db[id]) && id in Final(late).db
    ensures DecisionPersisted(DecideTx(Final(early).db[id], stepId, decision, t1).task, stepId, decision)
    ensures DecisionPersisted(Final(early).db[id], stepId, decision) ==>
            DecisionPersisted(Final(late).db[id], stepId, decision)
    ensures DecisionPersisted(Final(early).db[id], stepId, decision) <==>
              exists s :: s in Final(early).db[id].steps && s.id == stepId && s.decision == Some(decision)
  {
    hide Legal, Final, UniqueKeys, IssuedOk, Grows, DecisionPersisted, Inv, Perform;
    G.At(early, late, id);
    var t := Final(early).db[id];
    DecideNow(id, t, stepId, decision, t1);
    if DecisionPersisted(t, stepId, decision) {
      DecisionSticks(t, Final(early).clock, Final(late).db[id], Final(late).clock, stepId, decision);
    }
    DecisionMeans(t, stepId, decision);
  }

  lemma DecisionMeans(t: Task, stepId: Id, decision: string)
    requires Inv(t)
    ensures DecisionPersisted(t, stepId, decision) <==>
            exists s :: s in t.steps && s.id == stepId && s.decision == Some(decision)
  {
    hide CacheOk, StarterOk, TaskLogOk, StepsLogOk, RowOk, StepOk, Count;
    if s :| s in t.steps && s.id == stepId && s.decision == Some(decision) {
      var k :| 0 <= k < |t.steps| && t.steps[k] == s;
      DecidedIsPersisted(t, k);
    }
  }

  lemma DecideNow(id: Id, t: Task, stepId: Id, decision: string, t1: Time)
    requires Inv(t) && DecideTx(t, stepId, decision, t1).reply.Decided?
    ensures DecisionPersisted(DecideTx(t, stepId, decision, t1).task, stepId, decision)
  {
    hide CacheOk, StarterOk, TaskLogOk, StepsLogOk, RowOk, StepOk, Count, DecisionPersisted, Inv;
    Preserved(id, t, Decide(stepId, decision), t1, t1);
    var t' := DecideTx(t, stepId, decision, t1).task;
    DecidedIsPersisted(t', Lookup(t.steps, stepId).value);
  }

  /** This transaction records a decision. */
  predicate Records(t: Task, op: Op, t1: Time) {
    && op.Decide? && (op.decision == APPROVED || op.decision == REJECTED)
    && match Lookup(t.steps, op.stepId)
       case None => false
       case Some(k) => t.steps[k].decision.None? && Decidable(t, k, t1)
  }

  /** Action i of the run committed this decision. */
  predicate DecisionCommitted(run: seq<Action>, i: nat, id: Id, stepId: Id, decision: string) {
    && i < |run| && run[i].Act? && run[i].id == id && id in Final(run[..i]).db
    && Records(Final(run[..i]).db[id], run[i].op, run[i].t1)
    && run[i].op.stepId == stepId && run[i].op.decision == decision
  }

  predicate DecisionKept(steps: seq<Step>, steps': seq<Step>, k: nat) {
    k < |steps| == |steps'| && steps'[k].id == steps[k].id && steps'[k].decision == steps[k].decision
  }

  lemma EffectsKeepDecisions(t: Task, i: nat, k: nat, tok: Token, input: Json, att: StepAttempt, out: Outcome,
                             error: string, retrying: bool, t2: Time)
    requires i < |t.steps| && k < |t.steps|
    ensures DecisionKept(t.steps, StartStep(t, i, tok, input).steps, k)
            && DecisionKept(t.steps, AwaitApproval(t, i, input).steps, k)
    ensures DecisionKept(t.steps, FailStep(t, i, tok, att, error, retrying, t2).steps, k)
    ensures DecisionKept(t.steps, SucceedStep(t, i, tok, att, out).steps, k)
    ensures i != k ==> DecisionKept(t.steps, Approve(t, i).steps, k) && DecisionKept(t.steps, Reject(t, i).steps, k)
    ensures Approve(t, i).steps[i].decision == Some(APPROVED) && Reject(t, i).steps[i].decision == Some(REJECTED)
  {
    hide DelaySeconds;
  }

  lemma EndingsKeepDecisions(t: Task, k: nat)
    requires k < |t.steps|
    ensures DecisionKept(t.steps, Controlled(t, ByCancel).steps, k)
            && DecisionKept(t.steps, Controlled(t, ByTimeout).steps, k)
    ensures DecisionKept(t.steps, Recover(t).steps, k)
  {
  }

  /** A decision is recorded by a DecideApproval of it and by nothing else. */
  lemma BecameDecided(id: Id, t: Task, op: Op, t1: Time, t2: Time, k: nat)
    requires k < |t.steps| && t.steps[k].decision.None?
    requires var t' := Perform(id, t, op, t1, t2).task; k < |t'.steps| && t'.steps[k].decision.Some?
    ensures Records(t, op, t1) && op.stepId == t.steps[k].id
    ensures Perform(id, t, op, t1, t2).task.steps[k].decision == Some(op.decision)
  {
    hide Controlled, Recover, StartStep, AwaitApproval, Approve, Reject, FailStep, SucceedStep, Startable, Waitable,
      InputFor, EffectiveError, WellFormedOutcome, OwnershipError;
    EndingsKeepDecisions(t, k);
    var att := StepAttempt("", "", 0, "", 0, 0, "", Null, 0);
    var out := Outcome(Bytes(0, None), Bytes(0, None), "", Unclassified);
    match op
    case Start(tok, stepId) =>
      var i := Lookup(t.steps, stepId);
      if i.Some? && InputFor(t, i.value).Some? {
        EffectsKeepDecisions(t, i.value, k, tok, InputFor(t, i.value).value, att, out, "", false, t2);
      }
    case Wait(tok, stepId) =>
      var i := Lookup(t.steps, stepId);
      if i.Some? && InputFor(t, i.value).Some? {
        EffectsKeepDecisions(t, i.value, k, tok, InputFor(t, i.value).value, att, out, "", false, t2);
      }
    case Decide(stepId, decision) =>
      var i := Lookup(t.steps, stepId);
      if i.Some? { EffectsKeepDecisions(t, i.value, k, Token("", 0), Null, att, out, "", false, t2); }
    case Finish(tok, a, o) =>
      var i := Lookup(t.steps, a.stepId);
      if i.Some? {
        EffectsKeepDecisions(t, i.value, k, tok, Null, a, o, EffectiveError(o), Retries(t.steps[i.value], a, o), t2);
      }
    case _ =>
  }

  predicate HasDecision(t: Task, k: nat, stepId: Id, decision: string) {
    k < |t.steps| && t.steps[k].id == stepId && t.steps[k].decision == Some(decision)
  }

  lemma {:induction false} RecordedWasCommitted(run: seq<Action>, id: Id, k: nat, stepId: Id, decision: string)
    returns (i: nat)
    requires Legal(run) && id in Final(run).db && HasDecision(Final(run).db[id], k, stepId, decision)
    ensures DecisionCommitted(run, i, id, stepId, decision)
  {
    hide Inv, Grows, Records, Perform, UniqueKeys, IssuedOk, Insertable;
    var front, a := run[..|run| - 1], run[|run| - 1];
    ReachableInv(front);
    NextGrows(Final(front), a);
    if !(a.Create? && a.id == id) {
      var t, t' := Final(front).db[id], Final(run).db[id];
      assert Grows(t, Final(front).clock, t', Final(run).clock);
      GrowsDecision(t, Final(front).clock, t', Final(run).clock, k);
      if t.steps[k].decision.Some? {
        i := RecordedWasCommitted(front, id, k, stepId, decision);
        assert run[..i] == front[..i];
      } else {
        BecameDecided(id, t, a.op, a.t1, a.t2, k);
        i := |run| - 1;
      }
    }
  }

  lemma GrowsDecision(t: Task, c: Time, t': Task, c': Time, k: nat)
    requires Grows(t, c, t', c') && k < |t'.steps|
    ensures |t.steps| == |t'.steps| && t.steps[k].id == t'.steps[k].id
    ensures t.steps[k].decision.Some? ==> t'.steps[k].decision == t.steps[k].decision
  {
    hide CancelFate, DeadlineFate, Fenced, RowGrows, Terminal;
    assert StepGrows(t.steps[k], t'.steps[k]);
  }

  lemma RecordsAnswers(id: Id, t: Task, op: Op, t1: Time, t2: Time)
    requires Records(t, op, t1)
    ensures DecideTx(t, op.stepId, op.decision, t1).reply.Decided?
    ensures Perform(id, t, op, t1, t2).task == DecideTx(t, op.stepId, op.decision, t1).task
  {
    hide Approve, Reject, Lookup, Decidable;
  }

  lemma {:induction false} CommittedDecisionIsConfirmed(run: seq<Action>, i: nat, id: Id, stepId: Id, decision: string)
    requires Legal(run) && DecisionCommitted(run, i, id, stepId, decision)
    ensures id in Final(run).db && DecisionPersisted(Final(run).db[id], stepId, decision)
  {
    hide Legal, Final, Enabled, Inv, Grows, DecisionPersisted, Perform, UniqueKeys, IssuedOk, Records, DecideTx;
    LegalAt(run, i);
    ReachableInv(run[..i]);
    var t := Final(run[..i]).db[id];
    RecordsAnswers(id, t, run[i].op, run[i].t1, run[i].t2);
    DecideNow(id, t, stepId, decision, run[i].t1);
    G.At(run[..i + 1], run, id);
    DecisionSticks(Final(run[..i + 1]).db[id], Final(run[..i + 1]).clock, Final(run).db[id], Final(run).clock,
                   stepId, decision);
  }

  /** The decision check is exact, whatever happened in between: it answers yes if and only if a DecideApproval
      that recorded this decision for this step has been committed. */
  lemma {:induction false} DecisionCheckExact(run: seq<Action>, id: Id, stepId: Id, decision: string)
    requires Legal(run) && id in Final(run).db
    ensures DecisionPersisted(Final(run).db[id], stepId, decision) <==>
            exists i: nat :: DecisionCommitted(run, i, id, stepId, decision)
  {
    hide Legal, Final, DecisionCommitted;
    if DecisionPersisted(Final(run).db[id], stepId, decision) {
      var i := RecordedWasCommitted(run, id, Lookup(Final(run).db[id].steps, stepId).value, stepId, decision);
    }
    if i: nat :| DecisionCommitted(run, i, id, stepId, decision) {
      CommittedDecisionIsConfirmed(run, i, id, stepId, decision);
    }
  }
}
