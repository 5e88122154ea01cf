/** Reading a task's event log: replaying it and counting in it. */
module EventLog {
  import opened Basics
  import opened Model

  // ----- Replay -----

  datatype StepView = StepView(status: StepStatus, attempt: int, error: Option<string>)

  /** What the log alone says about a task. Steps are known by id, since that is the one field of an
      event's payload that the store checked; a step never mentioned is pending. */
  datatype TaskView = TaskView(
    status: TaskStatus, currentStep: nat, owner: Option<string>, version: nat, steps: map<Id, StepView>)

  function Of(v: TaskView, stepId: Id): StepView {
    if stepId in v.steps then v.steps[stepId] else StepView(StepStatus.Pending, 0, None)
  }

  function Put(v: TaskView, stepId: Id, status: StepStatus, attempt: int, error: Option<string>): TaskView {
    v.(steps := v.steps[stepId := StepView(status, attempt, error)])
  }

  function Apply(v: TaskView, e: Event): TaskView {
    match e
    case TaskCreated(_) => v
    case TaskScheduled(_) => v.(status := TaskStatus.Scheduled)
    case TaskRunnable(_) => v.(status := TaskStatus.Runnable)
    case TaskClaimed(worker, version) => v.(status := TaskStatus.Running, owner := Some(worker), version := version)
    case LeaseExpired(_, _) => v
    case TaskRecovered(_, _, _, _) => v
    case StepStarted(id, _, n, _, _) => Put(v, id, StepStatus.Running, n, None)
    case StepSucceeded(id, _, n, _, _) => Put(v, id, StepStatus.Succeeded, n, None).(currentStep := v.currentStep + 1)
    case StepFailed(id, _, n, error, _) => Put(v, id, StepStatus.Failed, n, Some(error))
    case TaskRetryWait(_, _) => v.(status := TaskStatus.RetryWait, owner := None)
    case TaskRetryReady => v.(status := TaskStatus.Runnable)
    case TaskWaitingApproval(id, _) =>
      Put(v, id, StepStatus.WaitingApproval, 0, None).(status := TaskStatus.WaitingApproval, owner := None)
    case TaskApproved(id, _, _) =>
      Put(v, id, StepStatus.Succeeded, 0, None).(status := TaskStatus.Runnable, currentStep := v.currentStep + 1)
    case TaskRejected(id, _, _) => Put(v, id, StepStatus.Failed, 0, Some(REJECTION))
    case TaskSucceeded => v.(status := TaskStatus.Succeeded, owner := None)
    case TaskFailed => v.(status := TaskStatus.Failed, owner := None)
    case TaskCancelled(_, _) => v.(status := TaskStatus.Cancelled, owner := None)
    case TaskTimedOut(_, _) => v.(status := TaskStatus.TimedOut, owner := None)
  }

  function Replay(log: seq<Event>): TaskView {
    if log == [] then TaskView(TaskStatus.Runnable, 0, None, 0, map[])
    else Apply(Replay(log[..|log| - 1]), log[|log| - 1])
  }

  // ----- Counting -----

  datatype Query =
    | Starts(stepId: Id)
    | Successes(stepId: Id)
    | Failures(stepId: Id)
    | Approvals(stepId: Id)
    | Rejections(stepId: Id)
    | StartsOf(stepId: Id, attempt: int)
    | SuccessesOf(stepId: Id, attempt: int)
    | FailuresOf(stepId: Id, attempt: int)
    | Waits(stepId: Id)
    | Endings
    | Claims
    | Takeovers

  predicate Matches(q: Query, e: Event) {
    match q
    case Starts(id) => e.StepStarted? && e.stepId == id
    case Successes(id) => e.StepSucceeded? && e.stepId == id
    case Failures(id) => e.StepFailed? && e.stepId == id
    case Approvals(id) => e.TaskApproved? && e.stepId == id && e.decision == APPROVED
    case Rejections(id) => e.TaskRejected? && e.stepId == id && e.decision == REJECTED
    case StartsOf(id, n) => e.StepStarted? && e.stepId == id && e.attempt == n
    case SuccessesOf(id, n) => e.StepSucceeded? && e.stepId == id && e.attempt == n
    case FailuresOf(id, n) => e.StepFailed? && e.stepId == id && e.attempt == n
    case Waits(id) => e.TaskWaitingApproval? && e.stepId == id
    case Endings => e.TaskSucceeded? || e.TaskFailed? || e.TaskCancelled? || e.TaskTimedOut?
    case Claims => e.TaskClaimed?
    case Takeovers => e.TaskRecovered?
  }

  function Count(log: seq<Event>, q: Query): nat {
    if log == [] then 0
    else Count(log[..|log| - 1], q) + if Matches(q, log[|log| - 1]) then 1 else 0
  }

  /** The token that most recently started the step, and the attempt it started. */
  function LatestStart(log: seq<Event>, stepId: Id): Option<(int, Token)> {
    if log == [] then None
    else
      var e := log[|log| - 1];
      if Matches(Starts(stepId), e) then Some((e.attempt, Token(e.worker, e.version)))
      else LatestStart(log[..|log| - 1], stepId)
  }

  // ----- One more event -----

  lemma Snoc(log: seq<Event>, e: Event)
    ensures Replay(log + [e]) == Apply(Replay(log), e)
    ensures forall q :: Count(log + [e], q) == Count(log, q) + if Matches(q, e) then 1 else 0
    ensures forall id :: LatestStart(log + [e], id) ==
                         if Matches(Starts(id), e) then Some((e.attempt, Token(e.worker, e.version)))
                         else LatestStart(log, id)
  {
    assert (log + [e])[..|log|] == log;
  }

  /** EXISTS over task_events: such an event is in the log. */
  predicate Logged(log: seq<Event>, q: Query) {
    exists e | e in log :: Matches(q, e)
  }

  lemma {:induction false} CountedIsLogged(log: seq<Event>, q: Query)
    ensures Logged(log, q) <==> Count(log, q) > 0
  {
    if log != [] {
      var front, e := log[..|log| - 1], log[|log| - 1];
      CountedIsLogged(front, q);
      assert log == front + [e];
      if Matches(q, e) { assert e in log; }
    }
  }
}
