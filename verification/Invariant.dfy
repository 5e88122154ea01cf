/** What holds of a task in every reachable state. */
module Invariant {
  import opened Basics
  import opened Resolve
  import opened Model
  import opened Transactions
  import opened EventLog

  // ----- The workflow shape -----

  predicate StepOk(s: Step) {
    && s.attempt <= s.def.maxAttempts && s.def.maxAttempts > 0
    && (s.error.Some? <==> s.status.Failed?)
    && (s.status.Pending? ==> s.attempt == 0 && s.resolved.None? && s.output.None? && s.decision.None?)
    && if IsApproval(s) then
         && s.attempt == 0 && s.output.None? && !s.status.Running?
         && (s.status.WaitingApproval? ==> s.decision.None?)
         && (s.status.WaitingApproval? || s.status.Succeeded? ==> s.resolved.Some?)
         && (s.status.Succeeded? <==> s.decision == Some(APPROVED))
         && (s.decision.Some? ==> s.status.Succeeded? || (s.status.Failed? && s.decision == Some(REJECTED)))
       else
         && !s.status.WaitingApproval? && s.decision.None?
         && (s.resolved.Some? <==> s.attempt > 0)
         && (s.output.Some? <==> s.status.Succeeded?)
         && (s.status.Succeeded? || s.status.Running? ==> s.attempt > 0)
  }

  /** A failed attempt that leaves budget for another. */
  predicate CanRetry(s: Step) {
    !IsApproval(s) && s.status.Failed? && 0 < s.attempt < s.def.maxAttempts
  }

  predicate MayBeCurrent(status: TaskStatus, s: Step) {
    match status
    case Scheduled => s.status.Pending?
    case Runnable => s.status.Pending? || CanRetry(s)
    case Running => s.status.Pending? || s.status.Running? || CanRetry(s)
    case RetryWait => CanRetry(s)
    case WaitingApproval => s.status.WaitingApproval?
    case Succeeded => false
    case Failed => s.status.Failed?
    case _ => s.status.Failed? && s.decision.None?
  }

  /** A task without steps, which CreateTask takes though the API does not, never waits and never fails. */
  predicate MayBeEmpty(status: TaskStatus) {
    !status.RetryWait? && !status.WaitingApproval? && !status.Failed?
  }

  predicate ShapeOk(t: Task) {
    && t.currentStep <= |t.steps| && DistinctIds(t.steps)
    && (t.status.Succeeded? ==> t.currentStep == |t.steps|)
    && (t.currentStep == |t.steps| ==> t.status.Succeeded? || (t.steps == [] && MayBeEmpty(t.status)))
    && (forall i | 0 <= i < |t.steps| :: StepOk(t.steps[i]))
    && (forall i | 0 <= i < t.currentStep :: t.steps[i].status.Succeeded?)
    && (forall i | t.currentStep < i < |t.steps| :: t.steps[i].status.Pending?)
    && (t.currentStep < |t.steps| ==> MayBeCurrent(t.status, t.steps[t.currentStep]))
  }

  // ----- The task row -----

  predicate RowOk(t: Task) {
    && (t.status.Running? <==> t.workerId.Some?) && (t.status.Running? <==> t.leaseExpiresAt.Some?)
    && (t.status.RetryWait? <==> t.retryAt.Some?)
    && (t.cancelRequested ==> t.status.Running? || t.status.Cancelled?)
    && (t.leaseVersion == 0 <==> t.deadlineAt.None?) && (t.leaseVersion == 0 <==> t.firstStartedAt.None?)
    && (t.deadlineAt.Some? ==> t.deadlineAt.value == t.firstStartedAt.value + t.timeoutSeconds * SECOND)
    && t.timeoutSeconds > 0 && (t.status.Scheduled? ==> t.leaseVersion == 0)
    && (t.status.Running? ==> t.leaseVersion > 0)
  }

  // ----- The stored input -----

  /** A stored input of the current step is what resolving again would give. */
  predicate CacheOk(t: Task)
    requires t.currentStep <= |t.steps|
  {
    t.currentStep < |t.steps| && t.steps[t.currentStep].resolved.Some? ==>
      t.steps[t.currentStep].resolved ==
      Resolution(t.steps[t.currentStep].def.input, PreviousOutput(t.steps, t.currentStep), t.checkpoint)
  }

  // ----- The log -----

  function Bit(b: bool): nat { if b then 1 else 0 }

  /** Logged ends of the step's attempts, counting the one still running. */
  function Ends(log: seq<Event>, s: Step): nat {
    Count(log, Successes(s.id)) + Count(log, Failures(s.id)) + Bit(s.status.Running?)
  }

  predicate Balanced(log: seq<Event>, s: Step) {
    Count(log, Starts(s.id)) == Ends(log, s)
  }

  predicate StepLogOk(log: seq<Event>, s: Step, balanced: bool) {
    && Of(Replay(log), s.id) == StepView(s.status, s.attempt, s.error)
    && Count(log, Starts(s.id)) == s.attempt
    && (if balanced then Balanced(log, s) else Count(log, Starts(s.id)) <= Ends(log, s) <= Count(log, Starts(s.id)) + 1)
    && Count(log, Approvals(s.id)) == Bit(s.decision == Some(APPROVED))
    && Count(log, Rejections(s.id)) == Bit(s.decision == Some(REJECTED))
  }

  predicate TaskLogOk(t: Task) {
    var v := Replay(t.log);
    && v.status == t.status && v.currentStep == t.currentStep
    && v.owner == t.workerId && v.version == t.leaseVersion
    && Count(t.log, Endings) == Bit(Terminal(t.status))
    && Count(t.log, Claims) == t.leaseVersion
  }

  /** The running attempt was started by the token that holds the lease. */
  predicate StarterOk(t: Task) {
    t.status.Running? && t.currentStep < |t.steps| && t.steps[t.currentStep].status.Running? && t.workerId.Some? ==>
      LatestStart(t.log, t.steps[t.currentStep].id) ==
      Some((t.steps[t.currentStep].attempt as int, Token(t.workerId.value, t.leaseVersion)))
  }

  /** All steps balance, but for at most the one at the index loose. */
  predicate StepsLogOk(log: seq<Event>, steps: seq<Step>, loose: Option<nat>) {
    forall i: nat | i < |steps| :: StepLogOk(log, steps[i], loose != Some(i))
  }

  /** A cancellation or a deadline logs a failure of the current step even if no attempt of it was running. */
  function Loose(t: Task): Option<nat> {
    if t.status.Cancelled? || t.status.TimedOut? then Some(t.currentStep) else None
  }

  predicate Inv(t: Task) {
    && ShapeOk(t) && RowOk(t) && CacheOk(t)
    && TaskLogOk(t) && StarterOk(t)
    && StepsLogOk(t.log, t.steps, Loose(t))
  }

  lemma InvRow(t: Task)
    requires Inv(t)
    ensures RowOk(t)
  {
    hide ShapeOk, CacheOk, TaskLogOk, StarterOk, StepsLogOk, RowOk;
  }

  lemma InvShape(t: Task)
    requires Inv(t)
    ensures ShapeOk(t)
  {
    hide ShapeOk, CacheOk, TaskLogOk, StarterOk, StepsLogOk, RowOk;
  }

  // ----- Logging one event -----

  function Subject(e: Event): Option<Id> {
    match e
    case StepStarted(id, _, _, _, _) => Some(id)
    case StepSucceeded(id, _, _, _, _) => Some(id)
    case StepFailed(id, _, _, _, _) => Some(id)
    case TaskWaitingApproval(id, _) => Some(id)
    case TaskApproved(id, _, _) => Some(id)
    case TaskRejected(id, _, _) => Some(id)
    case _ => None
  }

  lemma ApplyElsewhere(v: TaskView, e: Event, id: Id)
    requires Subject(e) != Some(id)
    ensures Of(Apply(v, e), id) == Of(v, id)
  {
  }

  /** An event about one step leaves what the log says of the others. */
  lemma OtherStep(log: seq<Event>, e: Event, s: Step, balanced: bool)
    requires Subject(e) != Some(s.id)
    ensures StepLogOk(log + [e], s, balanced) == StepLogOk(log, s, balanced)
  {
    hide Replay, Apply, Of, Count;
    Snoc(log, e);
    ApplyElsewhere(Replay(log), e, s.id);
  }

  /** What one more event does to the facts about the task row. */
  lemma RowSnoc(log: seq<Event>, e: Event)
    ensures Replay(log + [e]) == Apply(Replay(log), e)
    ensures Count(log + [e], Endings) == Count(log, Endings) + Bit(Matches(Endings, e))
    ensures Count(log + [e], Claims) == Count(log, Claims) + Bit(Matches(Claims, e))
  {
    hide Replay, Count, LatestStart, Apply;
    Snoc(log, e);
  }

  /** The change of a step that an event reports. */
  predicate Reports(e: Event, s: Step, s': Step, balanced: bool) {
    && s'.id == s.id && Subject(e) == Some(s.id)
    && match e
       case StepStarted(_, _, n, _, _) =>
         !s.status.Running? && s'.status.Running? && s'.error.None? && n == s'.attempt == s.attempt + 1
         && s'.decision == s.decision
       case StepSucceeded(_, _, n, _, _) =>
         s.status.Running? && s'.status.Succeeded? && s'.error.None? && n == s'.attempt == s.attempt
         && s'.decision == s.decision
       case StepFailed(_, _, n, error, _) =>
         (balanced ==> s.status.Running?) && s'.status.Failed? && s'.error == Some(error)
         && n == s'.attempt == s.attempt && s'.decision == s.decision
       case TaskWaitingApproval(_, _) =>
         !s.status.Running? && s'.status.WaitingApproval? && s'.error.None? && s'.attempt == s.attempt == 0
         && s'.decision == s.decision
       case TaskApproved(_, _, d) =>
         !s.status.Running? && s'.status.Succeeded? && s'.error.None? && s'.attempt == s.attempt == 0
         && s.decision.None? && s'.decision == Some(d) && d == APPROVED
       case TaskRejected(_, _, d) =>
         !s.status.Running? && s'.status.Failed? && s'.error == Some(REJECTION) && s'.attempt == s.attempt == 0
         && s.decision.None? && s'.decision == Some(d) && d == REJECTED
       case _ => false
  }

  lemma SameStep(log: seq<Event>, e: Event, s: Step, s': Step, balanced: bool)
    requires StepLogOk(log, s, true) && Reports(e, s, s', balanced)
    ensures StepLogOk(log + [e], s', balanced)
  {
    Snoc(log, e);
  }

  /** One step moves and its event is logged. */
  lemma StepEvent(log: seq<Event>, steps: seq<Step>, k: nat, e: Event, s': Step, balanced: bool)
    requires k < |steps| && DistinctIds(steps) && StepsLogOk(log, steps, None)
    requires Reports(e, steps[k], s', balanced)
    ensures StepsLogOk(log + [e], steps[k := s'], if balanced then None else Some(k))
  {
    hide StepLogOk;
    var steps' := steps[k := s'];
    forall i: nat | i < |steps'| ensures StepLogOk(log + [e], steps'[i], i != k || balanced) {
      assert StepLogOk(log, steps[i], true);
      if i == k { SameStep(log, e, steps[k], s', balanced); } else { OtherStep(log, e, steps[i], true); }
    }
  }

  /** An event about no step is logged. */
  lemma RowEvent(log: seq<Event>, steps: seq<Step>, e: Event, loose: Option<nat>)
    requires StepsLogOk(log, steps, loose) && Subject(e).None?
    ensures StepsLogOk(log + [e], steps, loose)
  {
    hide StepLogOk;
    forall i: nat | i < |steps| ensures StepLogOk(log + [e], steps[i], loose != Some(i)) {
      assert StepLogOk(log, steps[i], loose != Some(i));
      OtherStep(log, e, steps[i], loose != Some(i));
    }
  }

  // ----- Replacing the current step -----

  lemma ShapePatch(t: Task, t': Task, s': Step)
    requires ShapeOk(t) && t.currentStep < |t.steps|
    requires t'.steps == t.steps[t.currentStep := s'] && s'.id == t.steps[t.currentStep].id && StepOk(s')
    requires if t'.currentStep == t.currentStep then MayBeCurrent(t'.status, s')
             else t'.currentStep == t.currentStep + 1 && s'.status.Succeeded? &&
                  (if t'.currentStep == |t.steps| then t'.status.Succeeded?
                   else t'.status.Running? || t'.status.Runnable?)
    ensures ShapeOk(t')
  {
  }

  lemma ShapeIndexes(t: Task)
    requires ShapeOk(t)
    ensures t.currentStep <= |t.steps| && DistinctIds(t.steps)
  {
  }

  // ----- Every change of a task keeps the invariant -----

  lemma StartKeeps(t: Task, k: nat, tok: Token, input: Json)
    requires Inv(t) && k < |t.steps| && Startable(t, k) && OwnsRow(t, tok)
    requires InputFor(t, k) == Some(input)
    ensures Inv(StartStep(t, k, tok, input))
  {
    hide Replay, Count, LatestStart, StepLogOk, Resolution;
    var t' := StartStep(t, k, tok, input);
    var e := StepStarted(t.steps[k].id, k, t.steps[k].attempt + 1, tok.worker, tok.version);
    assert StepOk(t.steps[k]);
    ShapePatch(t, t', t'.steps[k]);
    StepEvent(t.log, t.steps, k, e, t'.steps[k], true);
    Snoc(t.log, e);
  }

  predicate OwnsRow(t: Task, tok: Token) {
    t.status.Running? && t.workerId == Some(tok.worker) && t.leaseVersion == tok.version && !t.cancelRequested
  }

  lemma AwaitKeeps(t: Task, k: nat, input: Json)
    requires Inv(t) && k < |t.steps| && Waitable(t, k) && t.status.Running? && !t.cancelRequested
    requires InputFor(t, k) == Some(input)
    ensures Inv(AwaitApproval(t, k, input))
  {
    hide Replay, Count, LatestStart, StepLogOk, Resolution;
    var t' := AwaitApproval(t, k, input);
    var e := TaskWaitingApproval(t.steps[k].id, k);
    assert StepOk(t.steps[k]);
    ShapePatch(t, t', t'.steps[k]);
    StepEvent(t.log, t.steps, k, e, t'.steps[k], true);
    Snoc(t.log, e);
  }

  /** A task whose last step just succeeded also logs its own success. */
  lemma LastStep(log: seq<Event>, steps: seq<Step>, last: bool)
    requires StepsLogOk(log, steps, None)
    ensures StepsLogOk(log + (if last then [TaskSucceeded] else []), steps, None)
  {
    if last { RowEvent(log, steps, TaskSucceeded, None); } else { assert log + [] == log; }
  }

  lemma LastStepRow(log: seq<Event>, last: bool)
    ensures var log' := log + if last then [TaskSucceeded] else [];
            && Replay(log') == (if last then Apply(Replay(log), TaskSucceeded) else Replay(log))
            && Count(log', Endings) == Count(log, Endings) + Bit(last)
            && Count(log', Claims) == Count(log, Claims)
            && forall id :: LatestStart(log', id) == LatestStart(log, id)
  {
    hide Replay, Count, LatestStart, Apply;
    Snoc(log, TaskSucceeded);
    assert log + [] == log;
  }

  lemma DecidedShape(t: Task, k: nat, now: Time)
    requires ShapeOk(t) && k < |t.steps| && Decidable(t, k, now)
    ensures ShapeOk(Approve(t, k)) && ShapeOk(Reject(t, k))
    ensures t.steps[k].attempt == 0 && t.steps[k].decision.None?
    ensures k + 1 < |t.steps| ==> t.steps[k + 1].status.Pending? && t.steps[k + 1].resolved.None?
  {
    hide Resolution;
    assert StepOk(t.steps[k]);
    ShapePatch(t, Approve(t, k), Approve(t, k).steps[k]);
    ShapePatch(t, Reject(t, k), Reject(t, k).steps[k]);
    if k + 1 < |t.steps| { assert StepOk(t.steps[k + 1]); }
  }

  lemma ApproveKeeps(t: Task, k: nat, now: Time)
    requires Inv(t) && k < |t.steps| && Decidable(t, k, now)
    ensures Inv(Approve(t, k))
  {
    hide Replay, Count, LatestStart, StepLogOk, Resolution, ShapeOk, StepOk;
    DecidedShape(t, k, now);
    ShapeIndexes(t);
    ShapeIndexes(Approve(t, k));
    var t' := Approve(t, k);
    var last := k + 1 == |t.steps|;
    var e := TaskApproved(t.steps[k].id, k, APPROVED);
    StepEvent(t.log, t.steps, k, e, t'.steps[k], true);
    LastStep(t.log + [e], t'.steps, last);
    Snoc(t.log, e);
    LastStepRow(t.log + [e], last);
  }

  lemma RejectKeeps(t: Task, k: nat, now: Time)
    requires Inv(t) && k < |t.steps| && Decidable(t, k, now)
    ensures Inv(Reject(t, k))
  {
    hide Replay, Count, LatestStart, StepLogOk, Resolution, ShapeOk, StepOk;
    DecidedShape(t, k, now);
    ShapeIndexes(t);
    var t' := Reject(t, k);
    var e := TaskRejected(t.steps[k].id, k, REJECTED);
    StepEvent(t.log, t.steps, k, e, t'.steps[k], true);
    RowEvent(t.log + [e], t'.steps, TaskFailed, None);
    RowSnoc(t.log, e);
    RowSnoc(t.log + [e], TaskFailed);
  }

  lemma FailShape(t: Task, k: nat, tok: Token, att: StepAttempt, error: string, retrying: bool, t2: Time)
    requires ShapeOk(t) && k < |t.steps| && Finishable(t, k, att)
    requires retrying ==> att.attempt < t.steps[k].def.maxAttempts
    ensures ShapeOk(FailStep(t, k, tok, att, error, retrying, t2))
  {
    hide Resolution;
    var t' := FailStep(t, k, tok, att, error, retrying, t2);
    assert StepOk(t.steps[k]);
    ShapePatch(t, t', t'.steps[k]);
  }

  lemma FailKeeps(t: Task, k: nat, tok: Token, att: StepAttempt, error: string, retrying: bool, t2: Time)
    requires Inv(t) && k < |t.steps| && Finishable(t, k, att) && t.steps[k].id == att.stepId && OwnsRow(t, tok)
    requires retrying ==> att.attempt < t.steps[k].def.maxAttempts
    ensures Inv(FailStep(t, k, tok, att, error, retrying, t2))
  {
    hide Replay, Count, LatestStart, StepLogOk, Resolution, ShapeOk, StepOk;
    FailShape(t, k, tok, att, error, retrying, t2);
    ShapeIndexes(t);
    var t' := FailStep(t, k, tok, att, error, retrying, t2);
    var e := StepFailed(att.stepId, att.index, att.attempt, error, Some(tok));
    var f := if retrying then TaskRetryWait(att.stepId, att.attempt) else TaskFailed;
    StepEvent(t.log, t.steps, k, e, t'.steps[k], true);
    RowEvent(t.log + [e], t'.steps, f, None);
    RowSnoc(t.log, e);
    RowSnoc(t.log + [e], f);
  }

  lemma SucceedShape(t: Task, k: nat, tok: Token, att: StepAttempt, out: Outcome)
    requires ShapeOk(t) && k < |t.steps| && Finishable(t, k, att) && t.status.Running? && WellFormedOutcome(out)
    ensures ShapeOk(SucceedStep(t, k, tok, att, out))
    ensures k + 1 < |t.steps| ==> t.steps[k + 1].status.Pending? && t.steps[k + 1].resolved.None?
  {
    hide Resolution;
    var t' := SucceedStep(t, k, tok, att, out);
    assert StepOk(t.steps[k]);
    ShapePatch(t, t', t'.steps[k]);
    if k + 1 < |t.steps| { assert StepOk(t.steps[k + 1]); }
  }

  lemma SucceedKeeps(t: Task, k: nat, tok: Token, att: StepAttempt, out: Outcome)
    requires Inv(t) && k < |t.steps| && Finishable(t, k, att) && t.steps[k].id == att.stepId && OwnsRow(t, tok)
    requires WellFormedOutcome(out)
    ensures Inv(SucceedStep(t, k, tok, att, out))
  {
    hide Replay, Count, LatestStart, StepLogOk, Resolution, ShapeOk, StepOk;
    SucceedShape(t, k, tok, att, out);
    ShapeIndexes(t);
    ShapeIndexes(SucceedStep(t, k, tok, att, out));
    var t' := SucceedStep(t, k, tok, att, out);
    var last := k + 1 == |t.steps|;
    var e := StepSucceeded(att.stepId, att.index, att.attempt, tok.worker, tok.version);
    StepEvent(t.log, t.steps, k, e, t'.steps[k], true);
    LastStep(t.log + [e], t'.steps, last);
    Snoc(t.log, e);
    LastStepRow(t.log + [e], last);
  }

  /** An open task with steps has a current one, not yet succeeded. */
  lemma CurrentOpen(t: Task)
    requires ShapeOk(t) && !Terminal(t.status) && t.steps != []
    ensures t.currentStep < |t.steps| && !t.steps[t.currentStep].status.Succeeded?
    ensures t.steps[t.currentStep].output.None?
    ensures forall reason ::
            StepOk(t.steps[t.currentStep].(status := StepStatus.Failed, output := None, error := Some(reason)))
  {
    assert MayBeCurrent(t.status, t.steps[t.currentStep]) && StepOk(t.steps[t.currentStep]);
  }

  lemma ControlledShape(t: Task, e: Ending)
    requires ShapeOk(t) && !Terminal(t.status)
    ensures ShapeOk(Controlled(t, e))
  {
    hide Resolution;
    if t.steps != [] {
      CurrentOpen(t);
      var t' := Controlled(t, e);
      ShapePatch(t, t', t'.steps[t.currentStep]);
    }
  }

  lemma EmptyControlled(t: Task, e: Ending)
    requires Inv(t) && !Terminal(t.status) && t.steps == []
    requires e.ByCancel? || (!t.cancelRequested && t.deadlineAt.Some?)
    ensures Inv(Controlled(t, e))
  {
    hide Replay, Count, LatestStart, StepLogOk, Resolution, StepOk, MayBeCurrent;
    RowSnoc(t.log, if e.ByCancel? then TaskCancelled(0, Reason(e)) else TaskTimedOut(0, Reason(e)));
  }

  lemma ControlledSteps(t: Task, e: Ending)
    requires Inv(t) && !Terminal(t.status) && t.steps != []
    ensures StepsLogOk(Controlled(t, e).log, Controlled(t, e).steps, Some(t.currentStep))
  {
    hide Replay, Count, LatestStart, StepLogOk, CacheOk, RowOk, TaskLogOk, StarterOk, ShapeOk, StepOk;
    ShapeIndexes(t);
    CurrentOpen(t);
    var k := t.currentStep;
    var s := t.steps[k];
    var f := StepFailed(s.id, k, s.attempt, Reason(e), None);
    var g := if e.ByCancel? then TaskCancelled(k, Reason(e)) else TaskTimedOut(k, Reason(e));
    StepEvent(t.log, t.steps, k, f, Controlled(t, e).steps[k], false);
    RowEvent(t.log + [f], Controlled(t, e).steps, g, Some(k));
  }

  lemma ControlledKeeps(t: Task, e: Ending)
    requires Inv(t) && !Terminal(t.status)
    requires e.ByCancel? || (!t.cancelRequested && t.deadlineAt.Some?)
    ensures Inv(Controlled(t, e))
  {
    hide Replay, Count, LatestStart, StepsLogOk, Resolution, ShapeOk, StepOk;
    if t.steps == [] {
      EmptyControlled(t, e);
      return;
    }
    ShapeIndexes(t);
    CurrentOpen(t);
    ControlledShape(t, e);
    ControlledSteps(t, e);
    var k := t.currentStep;
    var s := t.steps[k];
    var f := StepFailed(s.id, k, s.attempt, Reason(e), None);
    RowSnoc(t.log, f);
    RowSnoc(t.log + [f], if e.ByCancel? then TaskCancelled(k, Reason(e)) else TaskTimedOut(k, Reason(e)));
  }

  lemma WakeRetryKeeps(t: Task)
    requires Inv(t) && t.status.RetryWait?
    ensures Inv(WokenRetry(t))
  {
    hide Replay, Count, LatestStart, StepLogOk, Resolution;
    RowEvent(t.log, t.steps, TaskRetryReady, None);
    Snoc(t.log, TaskRetryReady);
  }

  lemma WakeScheduleKeeps(t: Task)
    requires Inv(t) && t.status.Scheduled?
    ensures Inv(WokenSchedule(t))
  {
    hide Replay, Count, LatestStart, StepLogOk, Resolution;
    RowEvent(t.log, t.steps, TaskRunnable(t.runAt), None);
    Snoc(t.log, TaskRunnable(t.runAt));
  }

  lemma AbandonKeeps(t: Task)
    requires Inv(t) && t.status.Running? && !t.cancelRequested && t.steps != []
             && t.steps[t.currentStep].status.Running?
    requires t.steps[t.currentStep].attempt < t.steps[t.currentStep].def.maxAttempts
    ensures Inv(Abandon(t))
  {
    hide Replay, Count, LatestStart, StepLogOk, Resolution;
    var t' := Abandon(t);
    var s := t.steps[t.currentStep];
    var e := StepFailed(s.id, t.currentStep, s.attempt, "worker_lost", Some(Token(t.workerId.value, t.leaseVersion)));
    assert StepOk(s);
    ShapePatch(t, t', t'.steps[t.currentStep]);
    StepEvent(t.log, t.steps, t.currentStep, e, t'.steps[t.currentStep], true);
    Snoc(t.log, e);
  }

  lemma ExhaustShape(t: Task)
    requires ShapeOk(t) && t.currentStep < |t.steps| && t.steps[t.currentStep].status.Running?
    ensures ShapeOk(Exhaust(t))
  {
    assert StepOk(t.steps[t.currentStep]);
    ShapePatch(t, Exhaust(t), Exhaust(t).steps[t.currentStep]);
  }

  lemma ExhaustKeeps(t: Task)
    requires Inv(t) && t.status.Running? && !t.cancelRequested
    requires t.currentStep < |t.steps| && t.steps[t.currentStep].status.Running?
    ensures Inv(Exhaust(t))
  {
    hide Replay, Count, LatestStart, StepLogOk, Resolution, ShapeOk, StepOk;
    ExhaustShape(t);
    ShapeIndexes(t);
    var t' := Exhaust(t);
    var s := t.steps[t.currentStep];
    var e := StepFailed(s.id, t.currentStep, s.attempt, "worker_lost", Some(Token(t.workerId.value, t.leaseVersion)));
    StepEvent(t.log, t.steps, t.currentStep, e, t'.steps[t.currentStep], true);
    RowEvent(t.log + [e], t'.steps, TaskFailed, None);
    RowSnoc(t.log, e);
    RowSnoc(t.log + [e], TaskFailed);
  }

  lemma ExpiryKeeps(t: Task)
    requires Inv(t) && t.status.Running?
    ensures Inv(t.(log := t.log + [LeaseExpired(t.workerId, t.leaseVersion)]))
  {
    hide Replay, Count, LatestStart, StepLogOk, Resolution;
    var e := LeaseExpired(t.workerId, t.leaseVersion);
    RowEvent(t.log, t.steps, e, None);
    Snoc(t.log, e);
  }

  /** A task without steps is converged to SUCCEEDED by the first recovery. */
  lemma ConvergeKeeps(t: Task)
    requires Inv(t) && t.status.Running? && !t.cancelRequested && t.steps == []
    ensures Inv(Recover(t)) && Recover(t).status.Succeeded?
  {
    hide Replay, Count, LatestStart, StepLogOk, Resolution;
    var e := LeaseExpired(t.workerId, t.leaseVersion);
    RowSnoc(t.log, e);
    RowSnoc(t.log + [e], TaskSucceeded);
  }

  /** What recovery of a running task comes to. The branch that converges a task to SUCCEEDED is taken if and
      only if the task has no steps; otherwise recovery finds a current step and ends the task only as FAILED. */
  lemma RecoverKeeps(t: Task)
    requires Inv(t) && t.status.Running? && !t.cancelRequested
    ensures Inv(Recover(t))
    ensures t.currentStep == |t.steps| <==> t.steps == []
    ensures Recover(t).status.Succeeded? <==> t.steps == []
    ensures Terminal(Recover(t).status) ==> Recover(t).status.Succeeded? || Recover(t).status.Failed?
    ensures !Terminal(Recover(t).status) ==>
              && Recover(t).status.Running? && Recover(t).currentStep == t.currentStep < |t.steps|
              && !Recover(t).cancelRequested && !Recover(t).steps[t.currentStep].status.Running?
  {
    hide Replay, Count, LatestStart, StepLogOk, Resolution, StepOk;
    if t.steps == [] {
      ConvergeKeeps(t);
      return;
    }
    ExpiryKeeps(t);
    var expired := t.(log := t.log + [LeaseExpired(t.workerId, t.leaseVersion)]);
    if t.steps[t.currentStep].status.Running? {
      ExhaustKeeps(expired);
      if t.steps[t.currentStep].attempt < t.steps[t.currentStep].def.maxAttempts { AbandonKeeps(expired); }
    }
  }

  lemma AnnounceKeeps(t: Task, worker: string)
    requires Inv(t) && t.status.Running?
    ensures Inv(Announce(t, worker))
  {
    hide Replay, Count, LatestStart, StepLogOk, Resolution;
    var e := TaskRecovered(t.workerId, t.leaseVersion, worker, t.leaseVersion + 1);
    RowEvent(t.log, t.steps, e, None);
    Snoc(t.log, e);
  }

  lemma AssignKeeps(t: Task, worker: string, lease: Time, statement: Time, now: Time)
    requires Inv(t) && (t.status.Runnable? || t.status.Running?) && !t.cancelRequested
    requires t.steps != [] ==> !t.steps[t.currentStep].status.Running?
    ensures Inv(Assign(t, worker, lease, statement, now))
  {
    hide Replay, Count, LatestStart, StepLogOk, Resolution;
    var t' := Assign(t, worker, lease, statement, now);
    var e := TaskClaimed(worker, t.leaseVersion + 1);
    RowEvent(t.log, t.steps, e, None);
    Snoc(t.log, e);
  }

  lemma ClaimKeeps(t: Task, worker: string, lease: Time, t1: Time, statement: Time, t2: Time)
    requires Inv(t)
    ensures Inv(ClaimTx(t, worker, lease, t1, statement, t2).task)
  {
    hide Replay, Count, LatestStart, StepLogOk, Resolution, StepOk;
    if worker != "" && Claimable(t, t1) {
      if t.status.Running? {
        RecoverKeeps(t);
        if !Terminal(Recover(t).status) {
          AnnounceKeeps(Recover(t), worker);
          AssignKeeps(Announce(Recover(t), worker), worker, lease, statement, t2);
        }
      } else {
        AssignKeeps(t, worker, lease, statement, t2);
      }
    }
  }

  lemma FinishKeeps(t: Task, tok: Token, att: StepAttempt, out: Outcome, t1: Time, t2: Time)
    requires Inv(t)
    ensures Inv(FinishTx(t, tok, att, out, t1, t2).task)
  {
    hide Inv, FailStep, SucceedStep, WellFormedOutcome, EffectiveError;
    var k := Lookup(t.steps, att.stepId);
    if OwnershipError(t, tok, t1).None? && k.Some? && Finishable(t, k.value, att) {
      if EffectiveError(out) != "" {
        FailKeeps(t, k.value, tok, att, EffectiveError(out), Retries(t.steps[k.value], att, out), t2);
      } else if WellFormedOutcome(out) {
        SucceedKeeps(t, k.value, tok, att, out);
      }
    }
  }

  lemma DecideKeeps(t: Task, stepId: Id, decision: string, t1: Time)
    requires Inv(t)
    ensures Inv(DecideTx(t, stepId, decision, t1).task)
  {
    hide Inv, Approve, Reject;
    var k := Lookup(t.steps, stepId);
    if k.Some? && Decidable(t, k.value, t1) {
      ApproveKeeps(t, k.value, t1);
      RejectKeeps(t, k.value, t1);
    }
  }

  /** Every transaction, whoever sends it and with whatever arguments, keeps the invariant. */
  lemma Preserved(id: Id, t: Task, op: Op, t1: Time, t2: Time)
    requires Inv(t)
    ensures Inv(Perform(id, t, op, t1, t2).task)
  {
    hide Replay, Count, LatestStart, StepLogOk, Resolution, StepOk, ClaimTx, DecideTx, FinishTx, DueControlTx,
      StartStep, AwaitApproval, Controlled;
    match op
    case Claim(worker, lease, statement) => ClaimKeeps(t, worker, lease, t1, statement, t2);
    case Renew(tok, lease) =>
    case Start(tok, stepId) =>
      var k := Lookup(t.steps, stepId);
      if OwnershipError(t, tok, t1).None? && k.Some? && Startable(t, k.value) && InputFor(t, k.value).Some? {
        StartKeeps(t, k.value, tok, InputFor(t, k.value).value);
      }
    case Wait(tok, stepId) =>
      var k := Lookup(t.steps, stepId);
      if OwnershipError(t, tok, t1).None? && k.Some? && Waitable(t, k.value) && InputFor(t, k.value).Some? {
        AwaitKeeps(t, k.value, InputFor(t, k.value).value);
      }
    case Decide(stepId, decision) =>
      DecideKeeps(t, stepId, decision, t1);
    case Finish(tok, att, out) => FinishKeeps(t, tok, att, out, t1, t2);
    case TimeoutOwned(tok) =>
      if Owns(t, tok, t1) && !t.cancelRequested && t.deadlineAt.Some? { ControlledKeeps(t, ByTimeout); }
    case Cancel => if !Terminal(t.status) && !t.status.Running? { ControlledKeeps(t, ByCancel); }
    case CancelOwned(tok) => if Owns(t, tok, t1) { ControlledKeeps(t, ByCancel); }
    case DueControl => DueControlKeeps(t, t1, t2);
    case WakeRetry => if t.status.RetryWait? { WakeRetryKeeps(t); }
  }

  lemma DueControlKeeps(t: Task, t1: Time, t2: Time)
    requires Inv(t)
    ensures Inv(DueControlTx(t, t1, t2).task)
  {
    hide Replay, Count, LatestStart, StepLogOk, Resolution, StepOk;
    if Due(t, t1) {
      if t.cancelRequested { ControlledKeeps(t, ByCancel); }
      else if DeadlinePassed(t, t2) { ControlledKeeps(t, ByTimeout); }
      else if RetryDue(t, t2) { WakeRetryKeeps(t); }
      else if ScheduleDue(t, t2) { WakeScheduleKeeps(t); }
    }
  }

  // ----- It holds at birth -----

  lemma NothingLogged()
    ensures Replay([]) == TaskView(TaskStatus.Runnable, 0, None, 0, map[])
    ensures forall q :: Count([], q) == 0
  {
  }

  lemma NewStepsLog(taskId: Id, stepIds: seq<Id>, defs: seq<StepDef>)
    requires |stepIds| == |defs|
    ensures StepsLogOk([], NewSteps(taskId, stepIds, defs), None)
  {
  }

  lemma NewShape(taskId: Id, stepIds: seq<Id>, d: Definition, t1: Time, t2: Time)
    requires |stepIds| == |d.steps|
    requires forall i, j | 0 <= i < j < |stepIds| :: stepIds[i] != stepIds[j]
    requires forall i | 0 <= i < |d.steps| :: d.steps[i].maxAttempts > 0
    ensures ShapeOk(NewTask(taskId, stepIds, d, t1, t2))
    ensures |NewTask(taskId, stepIds, d, t1, t2).steps| == |d.steps|
    ensures d.steps != [] ==> NewTask(taskId, stepIds, d, t1, t2).steps[0].resolved.None?
  {
  }

  lemma NewTaskInv(taskId: Id, stepIds: seq<Id>, d: Definition, t1: Time, t2: Time)
    requires |stepIds| == |d.steps| && d.timeoutSeconds > 0
    requires forall i, j | 0 <= i < j < |stepIds| :: stepIds[i] != stepIds[j]
    requires forall i | 0 <= i < |d.steps| :: d.steps[i].maxAttempts > 0
    ensures Inv(NewTask(taskId, stepIds, d, t1, t2))
  {
    hide Resolution, Replay, Count, StepLogOk, NewSteps, ShapeOk;
    NewShape(taskId, stepIds, d, t1, t2);
    NothingLogged();
    var t := NewTask(taskId, stepIds, d, t1, t2);
    var created := TaskCreated(|d.steps|);
    NewStepsLog(taskId, stepIds, d.steps);
    RowEvent([], t.steps, created, None);
    RowSnoc([], created);
    assert [] + [created] == [created];
    if t.status.Scheduled? {
      RowEvent([created], t.steps, TaskScheduled(t.runAt), None);
      RowSnoc([created], TaskScheduled(t.runAt));
    } else {
      assert [created] + [] == [created];
    }
  }
}
