/** How often a task can be claimed. */
module Takeovers {
  import opened Basics
  import opened Resolve
  import opened Model
  import opened Transactions
  import opened Happenings
  import opened Guards
  import opened EventLog
  import opened Invariant
  import opened History
  import opened Runs
  import G = Guarantees

  // ----- What a task has used of its budgets -----

  /** Returns to the queue that a step has already caused, beside takeovers. */
  function Spent(s: Step): int {
    if IsApproval(s) then (if s.status.Succeeded? then 1 else 0)
    else if s.status.Running? then s.attempt - 1
    else if s.attempt < s.def.maxAttempts then s.attempt
    else s.def.maxAttempts - 1
  }

  function Total(steps: seq<Step>): int {
    if steps == [] then 0 else Total(steps[..|steps| - 1]) + Spent(steps[|steps| - 1])
  }

  /** Retries an ordinary step may make, and one return to the queue per approval. */
  function Allowance(defs: seq<StepDef>): int {
    if defs == [] then 0
    else Allowance(defs[..|defs| - 1]) +
         if defs[|defs| - 1].kind == APPROVAL then 1 else defs[|defs| - 1].maxAttempts - 1
  }

  lemma {:induction false} TotalPatch(steps: seq<Step>, k: nat, s': Step)
    requires k < |steps|
    ensures Total(steps[k := s']) == Total(steps) - Spent(steps[k]) + Spent(s')
  {
    var n := |steps| - 1;
    if k < n {
      TotalPatch(steps[..n], k, s');
      assert steps[k := s'][..n] == steps[..n][k := s'];
    } else {
      assert steps[k := s'][..n] == steps[..n];
    }
  }

  lemma {:induction false} TotalWithinAllowance(steps: seq<Step>)
    requires forall i | 0 <= i < |steps| :: StepOk(steps[i])
    ensures Total(steps) <= Allowance(Defs(steps))
  {
    if steps != [] {
      var n := |steps| - 1;
      assert Defs(steps)[..n] == Defs(steps[..n]);
      assert StepOk(steps[n]);
      TotalWithinAllowance(steps[..n]);
    }
  }

  /** A claim that is still to come. */
  function Queued(status: TaskStatus): int {
    if status.Scheduled? || status.Runnable? || status.RetryWait? then 1 else 0
  }

  function Recoveries(t: Task): nat { Count(t.log, EventLog.Takeovers) }

  predicate BudgetOk(t: Task) {
    t.leaseVersion + Queued(t.status) <= 1 + Total(t.steps) + Recoveries(t)
  }

  /** Each takeover used up at least one lease of length d of the task's time. */
  predicate LeaseOk(t: Task, clock: Time, d: Time) {
    var used := Recoveries(t) * d;
    && t.timeoutSeconds > 0
    && used < t.timeoutSeconds * SECOND
    && (t.firstStartedAt.Some? ==> t.firstStartedAt.value + used <= clock)
    && (t.firstStartedAt.None? ==> used == 0)
    && (t.status.Running? && t.leaseExpiresAt.Some? && t.firstStartedAt.Some? ==>
          t.firstStartedAt.value + used + d <= t.leaseExpiresAt.value)
  }

  // ----- Takeover events come from takeovers -----

  /** The log grew without a takeover. */
  predicate Quiet(t: Task, t': Task) { Recoveries(t') == Recoveries(t) }

  lemma QuietEffects(t: Task, k: nat, tok: Token, input: Json, att: StepAttempt, out: Outcome, error: string,
                     retrying: bool, t2: Time)
    requires k < |t.steps|
    ensures Quiet(t, StartStep(t, k, tok, input)) && Quiet(t, AwaitApproval(t, k, input))
    ensures Quiet(t, Approve(t, k)) && Quiet(t, Reject(t, k))
    ensures Quiet(t, FailStep(t, k, tok, att, error, retrying, t2)) && Quiet(t, SucceedStep(t, k, tok, att, out))
  {
    hide Count, Replay, LatestStart, Apply, DelaySeconds;
    var s := t.steps[k];
    Snoc(t.log, StepStarted(s.id, k, s.attempt + 1, tok.worker, tok.version));
    Snoc(t.log, TaskWaitingApproval(s.id, k));
    QuietPair(t.log, TaskApproved(s.id, k, APPROVED), TaskSucceeded);
    QuietPair(t.log, TaskRejected(s.id, k, REJECTED), TaskFailed);
    QuietPair(t.log, StepFailed(att.stepId, att.index, att.attempt, error, Some(tok)),
              if retrying then TaskRetryWait(att.stepId, att.attempt) else TaskFailed);
    QuietPair(t.log, StepSucceeded(att.stepId, att.index, att.attempt, tok.worker, tok.version), TaskSucceeded);
  }

  lemma QuietPair(log: seq<Event>, a: Event, b: Event)
    requires !a.TaskRecovered? && !b.TaskRecovered?
    ensures Count(log + [a] + [b], EventLog.Takeovers) == Count(log, EventLog.Takeovers)
    ensures Count(log + [a] + [], EventLog.Takeovers) == Count(log, EventLog.Takeovers)
    ensures Count(log + [a], EventLog.Takeovers) == Count(log, EventLog.Takeovers)
  {
    hide Count, Replay, LatestStart, Apply;
    Snoc(log, a);
    Snoc(log + [a], b);
    assert log + [a] + [] == log + [a];
  }

  lemma QuietEndings(t: Task)
    ensures Quiet(t, Controlled(t, ByCancel)) && Quiet(t, Controlled(t, ByTimeout))
    ensures Quiet(t, WokenRetry(t)) && Quiet(t, WokenSchedule(t)) && Quiet(t, Recover(t))
  {
    hide Count, Replay, LatestStart, Apply;
    var k := t.currentStep;
    QuietPair(t.log, TaskCancelled(k, Reason(ByCancel)), TaskFailed);
    QuietPair(t.log, TaskTimedOut(k, Reason(ByTimeout)), TaskFailed);
    QuietPair(t.log, TaskRetryReady, TaskFailed);
    QuietPair(t.log, TaskRunnable(t.runAt), TaskFailed);
    var expired := LeaseExpired(t.workerId, t.leaseVersion);
    QuietPair(t.log, expired, TaskSucceeded);
    if k < |t.steps| {
      var s := t.steps[k];
      QuietPair(t.log, StepFailed(s.id, k, s.attempt, Reason(ByCancel), None), TaskCancelled(k, Reason(ByCancel)));
      QuietPair(t.log, StepFailed(s.id, k, s.attempt, Reason(ByTimeout), None), TaskTimedOut(k, Reason(ByTimeout)));
      var owner := match t.workerId case None => None case Some(w) => Some(Token(w, t.leaseVersion));
      QuietPair(t.log + [expired], StepFailed(s.id, k, s.attempt, "worker_lost", owner), TaskFailed);
    }
  }

  lemma AssignCounts(t: Task, worker: string, lease: Time, statement: Time, now: Time)
    ensures Recoveries(Assign(t, worker, lease, statement, now)) == Recoveries(t)
    ensures Recoveries(Announce(t, worker)) == Recoveries(t) + 1
  {
    hide Count, Replay, LatestStart, Apply;
    Snoc(t.log, TaskClaimed(worker, t.leaseVersion + 1));
    Snoc(t.log, TaskRecovered(t.workerId, t.leaseVersion, worker, t.leaseVersion + 1));
  }

  lemma OnlyTakeoversCount(id: Id, t: Task, op: Op, t1: Time, t2: Time)
    ensures Recoveries(Perform(id, t, op, t1, t2).task) == Recoveries(t) + if TakesOver(t, op, t1) then 1 else 0
  {
    hide Recoveries, Controlled, Recover, Assign, Announce, StartStep, AwaitApproval, Approve, Reject, FailStep,
      SucceedStep, WokenRetry, WokenSchedule, Startable, Waitable, Decidable, Finishable, InputFor, EffectiveError;
    QuietEndings(t);
    var att := StepAttempt("", "", 0, "", 0, 0, "", Null, 0);
    var out := Outcome(Bytes(0, None), Bytes(0, None), "", Unclassified);
    match op
    case Claim(worker, lease, statement) =>
      if worker != "" { ClaimGuard(t, op, t1); }
      AssignCounts(t, worker, lease, statement, t2);
      AssignCounts(Recover(t), worker, lease, statement, t2);
      AssignCounts(Announce(Recover(t), worker), worker, lease, statement, t2);
    case Start(tok, stepId) =>
      var k := Lookup(t.steps, stepId);
      if k.Some? && InputFor(t, k.value).Some? {
        QuietEffects(t, k.value, tok, InputFor(t, k.value).value, att, out, "", false, t2);
      }
    case Wait(tok, stepId) =>
      var k := Lookup(t.steps, stepId);
      if k.Some? && InputFor(t, k.value).Some? {
        QuietEffects(t, k.value, tok, InputFor(t, k.value).value, att, out, "", false, t2);
      }
    case Decide(stepId, decision) =>
      var k := Lookup(t.steps, stepId);
      if k.Some? { QuietEffects(t, k.value, Token("", 0), Null, att, out, "", false, t2); }
    case Finish(tok, a, o) =>
      var k := Lookup(t.steps, a.stepId);
      if k.Some? { QuietEffects(t, k.value, tok, Null, a, o, EffectiveError(o), Retries(t.steps[k.value], a, o), t2); }
    case Renew(_, _) => SameLogQuiet(t, id, op, t1, t2);
    case Cancel => SameLogQuiet(t, id, op, t1, t2);
    case _ =>
  }

  lemma SameLogQuiet(t: Task, id: Id, op: Op, t1: Time, t2: Time)
    requires op.Renew? || op.Cancel?
    ensures Perform(id, t, op, t1, t2).task.log == t.log || Perform(id, t, op, t1, t2).task == Controlled(t, ByCancel)
    ensures Perform(id, t, op, t1, t2).task.log == t.log ==> Quiet(t, Perform(id, t, op, t1, t2).task)
  {
    hide Controlled;
  }

  // ----- The budget inequality -----

  /** The queue never grows by more than the budgets pay for. */
  predicate Paid(t: Task, t': Task) {
    (t'.leaseVersion - t.leaseVersion) + (Queued(t'.status) - Queued(t.status)) <= Total(t'.steps) - Total(t.steps)
  }

  lemma PaidEffects(t: Task, k: nat, tok: Token, input: Json, att: StepAttempt, out: Outcome, error: string,
                    retrying: bool, now: Time, t2: Time)
    requires Inv(t) && k < |t.steps|
    ensures Startable(t, k) && t.status.Running? ==> Paid(t, StartStep(t, k, tok, input))
    ensures Waitable(t, k) && t.status.Running? ==> Paid(t, AwaitApproval(t, k, input))
    ensures Decidable(t, k, now) ==> Paid(t, Approve(t, k)) && Paid(t, Reject(t, k))
    ensures Finishable(t, k, att) && t.status.Running? && (retrying ==> att.attempt < t.steps[k].def.maxAttempts) ==>
              Paid(t, FailStep(t, k, tok, att, error, retrying, t2))
    ensures Finishable(t, k, att) && t.status.Running? ==> Paid(t, SucceedStep(t, k, tok, att, out))
  {
    hide Total, DelaySeconds, CacheOk, StarterOk, TaskLogOk, StepsLogOk, RowOk, MayBeCurrent;
    assert StepOk(t.steps[k]);
    TotalPatch(t.steps, k, StartStep(t, k, tok, input).steps[k]);
    TotalPatch(t.steps, k, AwaitApproval(t, k, input).steps[k]);
    TotalPatch(t.steps, k, Approve(t, k).steps[k]);
    TotalPatch(t.steps, k, Reject(t, k).steps[k]);
    TotalPatch(t.steps, k, FailStep(t, k, tok, att, error, retrying, t2).steps[k]);
    TotalPatch(t.steps, k, SucceedStep(t, k, tok, att, out).steps[k]);
  }

  lemma PaidEndings(t: Task)
    requires Inv(t)
    ensures !Terminal(t.status) ==> Paid(t, Controlled(t, ByCancel)) && Paid(t, Controlled(t, ByTimeout))
    ensures t.status.RetryWait? ==> Paid(t, WokenRetry(t))
    ensures t.status.Scheduled? ==> Paid(t, WokenSchedule(t))
    ensures t.status.Running? ==> Paid(t, Recover(t)) && Recover(t).leaseVersion == t.leaseVersion
  {
    hide Total, CacheOk, StarterOk, TaskLogOk, StepsLogOk, RowOk, MayBeCurrent;
    var k := t.currentStep;
    if k < |t.steps| {
      assert StepOk(t.steps[k]);
      if !t.steps[k].status.Succeeded? {
        TotalPatch(t.steps, k, Controlled(t, ByCancel).steps[k]);
        TotalPatch(t.steps, k, Controlled(t, ByTimeout).steps[k]);
        TotalPatch(t.steps, k, Abandon(t).steps[k]);
      }
    }
  }

  lemma ClaimBudget(t: Task, worker: string, lease: Time, t1: Time, statement: Time, t2: Time)
    requires Inv(t) && BudgetOk(t)
    ensures BudgetOk(ClaimTx(t, worker, lease, t1, statement, t2).task)
  {
    hide Recoveries, Total, Recover, Inv;
    if worker != "" && Claimable(t, t1) {
      PaidEndings(t);
      QuietEndings(t);
      AssignCounts(t, worker, lease, statement, t2);
      AssignCounts(Recover(t), worker, lease, statement, t2);
      AssignCounts(Announce(Recover(t), worker), worker, lease, statement, t2);
      if t.status.Running? { RecoverRunning(t); }
    }
  }

  lemma RecoverRunning(t: Task)
    requires Inv(t) && t.status.Running? && !t.cancelRequested
    ensures !Terminal(Recover(t).status) ==> Recover(t).status.Running?
  {
    hide Inv, Recover;
    RecoverKeeps(t);
  }

  lemma BudgetStays(id: Id, t: Task, op: Op, t1: Time, t2: Time)
    requires Inv(t) && BudgetOk(t)
    ensures BudgetOk(Perform(id, t, op, t1, t2).task)
  {
    hide Recoveries, Total, Controlled, Recover, Assign, Announce, StartStep, AwaitApproval, Approve, Reject,
      FailStep, SucceedStep, WokenRetry, WokenSchedule, Startable, Waitable, Decidable, Finishable, InputFor,
      EffectiveError, ClaimTx, Inv;
    OnlyTakeoversCount(id, t, op, t1, t2);
    PaidEndings(t);
    var att := StepAttempt("", "", 0, "", 0, 0, "", Null, 0);
    var out := Outcome(Bytes(0, None), Bytes(0, None), "", Unclassified);
    match op
    case Claim(worker, lease, statement) => ClaimBudget(t, worker, lease, t1, statement, t2);
    case Start(tok, stepId) =>
      var k := Lookup(t.steps, stepId);
      if k.Some? && InputFor(t, k.value).Some? {
        PaidEffects(t, k.value, tok, InputFor(t, k.value).value, att, out, "", false, t1, t2);
      }
    case Wait(tok, stepId) =>
      var k := Lookup(t.steps, stepId);
      if k.Some? && InputFor(t, k.value).Some? {
        PaidEffects(t, k.value, tok, InputFor(t, k.value).value, att, out, "", false, t1, t2);
      }
    case Decide(stepId, decision) =>
      var k := Lookup(t.steps, stepId);
      if k.Some? { PaidEffects(t, k.value, Token("", 0), Null, att, out, "", false, t1, t2); }
    case Finish(tok, a, o) =>
      var k := Lookup(t.steps, a.stepId);
      if k.Some? {
        PaidEffects(t, k.value, tok, Null, a, o, EffectiveError(o), Retries(t.steps[k.value], a, o), t1, t2);
      }
    case _ =>
  }

  // ----- Leases take time -----

  /** Outside a claim, a running task keeps its lease or has it renewed from the clock. */
  lemma LeaseMoves(id: Id, t: Task, op: Op, t1: Time, t2: Time)
    requires RowOk(t)
    ensures var t' := Perform(id, t, op, t1, t2).task;
            && t'.timeoutSeconds == t.timeoutSeconds
            && (op.Claim? || (t'.firstStartedAt == t.firstStartedAt))
            && (!op.Claim? && t'.status.Running? ==>
                  t.status.Running?
                  && (t'.leaseExpiresAt == t.leaseExpiresAt || (op.Renew? && t'.leaseExpiresAt == Some(t2 + op.lease))))
  {
    hide InputFor, Lookup, Resolution, Startable, Waitable, DelaySeconds, EffectiveError;
  }

  lemma ClaimMoves(t: Task, worker: string, lease: Time, t1: Time, statement: Time, t2: Time)
    requires RowOk(t)
    ensures var tx := ClaimTx(t, worker, lease, t1, statement, t2); var t' := tx.task;
            && t'.timeoutSeconds == t.timeoutSeconds
            && if tx.reply.Granted? then
                 && t'.status.Running? && t'.leaseExpiresAt == Some(t2 + lease) && Claimable(t, t1)
                 && t'.firstStartedAt == (if t.firstStartedAt.Some? then t.firstStartedAt else Some(statement))
               else
                 t' == t || (!t'.status.Running? && t'.firstStartedAt == t.firstStartedAt)
    ensures ClaimTx(t, worker, lease, t1, statement, t2).reply.Granted? && t.status.Running? <==>
            TakesOver(t, Claim(worker, lease, statement), t1)
  {
  }

  /** The clock reads and lease lengths of one transaction. */
  predicate Timely(op: Op, t1: Time, t2: Time, d: Time) {
    && t1 <= t2
    && (op.Claim? ==> t1 <= op.statement <= t2 && d <= op.lease)
    && (op.Renew? ==> d <= op.lease)
  }

  lemma LeaseStays(id: Id, t: Task, clock: Time, op: Op, t1: Time, t2: Time, d: Time)
    requires Inv(t) && LeaseOk(t, clock, d) && d > 0
    requires clock <= t1 && Timely(op, t1, t2, d)
    ensures LeaseOk(Perform(id, t, op, t1, t2).task, t2, d)
  {
    hide Recoveries, ClaimTx, RenewTx, StartTx, WaitTx, DecideTx, FinishTx, TimeoutOwnedTx, CancelTx, CancelOwnedTx,
      DueControlTx, WakeRetryTx, ShapeOk, CacheOk, StarterOk, TaskLogOk, StepsLogOk, Recover;
    OnlyTakeoversCount(id, t, op, t1, t2);
    LeaseMoves(id, t, op, t1, t2);
    assert (Recoveries(t) + 1) * d == Recoveries(t) * d + d;
    if op.Claim? {
      ClaimMoves(t, op.worker, op.lease, t1, op.statement, t2);
    }
  }

  // ----- Over whole runs -----

  /** Every store runs with a lease duration of at least d. */
  predicate LeasesAtLeast(run: seq<Action>, d: Time) {
    forall i | 0 <= i < |run| && run[i].Act? :: LongEnough(run[i].op, d)
  }

  predicate LongEnough(op: Op, d: Time) {
    (op.Claim? ==> d <= op.lease) && (op.Renew? ==> d <= op.lease)
  }

  lemma NewTaskAccounts(id: Id, stepIds: seq<Id>, d: Definition, t1: Time, t2: Time, lease: Time)
    requires |stepIds| == |d.steps| && d.timeoutSeconds > 0
    requires forall i | 0 <= i < |d.steps| :: d.steps[i].maxAttempts > 0
    ensures BudgetOk(NewTask(id, stepIds, d, t1, t2)) && LeaseOk(NewTask(id, stepIds, d, t1, t2), t2, lease)
  {
    var t := NewTask(id, stepIds, d, t1, t2);
    QuietPair([], TaskCreated(|d.steps|), TaskScheduled(t.runAt));
    assert [] + [TaskCreated(|d.steps|)] == [TaskCreated(|d.steps|)];
    FreshTotal(t.steps);
  }

  lemma {:induction false} FreshTotal(steps: seq<Step>)
    requires forall i | 0 <= i < |steps| ::
             steps[i].status.Pending? && steps[i].attempt == 0 && steps[i].def.maxAttempts > 0
    ensures Total(steps) == 0
  {
    if steps != [] { FreshTotal(steps[..|steps| - 1]); }
  }

  lemma LeaseLater(t: Task, clock: Time, later: Time, d: Time)
    requires LeaseOk(t, clock, d) && clock <= later
    ensures LeaseOk(t, later, d)
  {
  }

  lemma {:induction false} Accounts(run: seq<Action>, id: Id, d: Time)
    requires Legal(run) && id in Final(run).db && LeasesAtLeast(run, d) && d > 0
    ensures BudgetOk(Final(run).db[id]) && LeaseOk(Final(run).db[id], Final(run).clock, d)
  {
    hide Inv, Perform, BudgetOk, LeaseOk, UniqueKeys, IssuedOk, NewTask;
    var front, a := run[..|run| - 1], run[|run| - 1];
    ReachableInv(front);
    if a.Create? && a.id == id {
      InsertableBudgets(Final(front).db, id, a.stepIds, a.d);
      NewTaskAccounts(id, a.stepIds, a.d, a.t1, a.t2, d);
    } else {
      Accounts(front, id, d);
      if a.id == id {
        assert LongEnough(a.op, d);
        BudgetStays(id, Final(front).db[id], a.op, a.t1, a.t2);
        LeaseStays(id, Final(front).db[id], Final(front).clock, a.op, a.t1, a.t2, d);
      } else {
        LeaseLater(Final(front).db[id], Final(front).clock, a.t2, d);
      }
    }
  }

  /** No run claims a task forever: the lease version, which counts the claims, is at most one, plus the
      retries the ordinary steps allow, plus the approvals, plus the takeovers of expired leases; and
      each takeover costs a whole lease of the task's time, so their leases together stay below the
      task's timeout. */
  lemma {:induction false} TakeoversBounded(run: seq<Action>, id: Id, d: Time)
    requires Legal(run) && id in Final(run).db && LeasesAtLeast(run, d) && d > 0
    ensures var t := Final(run).db[id]; var takeovers := Count(t.log, EventLog.Takeovers);
            && Count(t.log, Claims) == t.leaseVersion
            && t.leaseVersion <= 1 + Allowance(Defs(t.steps)) + takeovers
            && takeovers * d < t.timeoutSeconds * SECOND
  {
    hide Legal, Final, Count, Total, Allowance, UniqueKeys, IssuedOk, CacheOk, StarterOk, StepsLogOk, RowOk;
    Accounts(run, id, d);
    ReachableInv(run);
    assert Inv(Final(run).db[id]);
    TotalWithinAllowance(Final(run).db[id].steps);
  }
}
