/** What the store's clients get for their calls over a stretch of a run: tasks as they asked for them, retries that
    really come, leases that last. */
module Service {
  import opened Basics
  import opened Resolve
  import opened Model
  import opened Transactions
  import opened Happenings
  import opened Guards
  import opened Columns
  import opened Answers
  import opened EventLog
  import opened Invariant
  import opened History
  import opened Runs
  import opened Availability
  import G = Guarantees
  import T = Takeovers

  // ----- Creation -----

  /** The start time that a definition asks for. */
  function Asked(d: Definition, t1: Time): Time {
    match d.runAt case Some(at) => at case None => t1
  }

  /** A task as it was asked for. */
  predicate AsAsked(t: Task, id: Id, stepIds: seq<Id>, d: Definition, t1: Time, t2: Time) {
    && t.runAt == Asked(d, t1) && t.timeoutSeconds == d.timeoutSeconds && t.createdAt == t2
    && |t.steps| == |d.steps| == |stepIds|
    && forall i | 0 <= i < |t.steps| ::
         t.steps[i].id == stepIds[i] && t.steps[i].key == id + ":" + stepIds[i] && t.steps[i].def == d.steps[i]
  }

  /** It is born SCHEDULED exactly when its start time lies ahead, owned by nobody, with nothing done. */
  lemma BornAsAsked(id: Id, stepIds: seq<Id>, d: Definition, t1: Time, t2: Time)
    requires |stepIds| == |d.steps|
    ensures var t := NewTask(id, stepIds, d, t1, t2); var later := t1 < Asked(d, t1);
            && AsAsked(t, id, stepIds, d, t1, t2)
            && t.status == (if later then TaskStatus.Scheduled else TaskStatus.Runnable)
            && t.workerId.None? && t.leaseVersion == 0 && t.leaseExpiresAt.None? && t.retryAt.None?
            && !t.cancelRequested && t.currentStep == 0 && t.checkpoint == Obj(map[])
            && t.firstStartedAt.None? && t.deadlineAt.None?
            && (forall s | s in t.steps :: s.status.Pending? && s.attempt == 0 && s.resolved.None? && s.output.None?)
            && (forall s | s in t.steps :: s.error.None? && s.decision.None?)
            && t.log == [TaskCreated(|d.steps|)] + if later then [TaskScheduled(t.runAt)] else []
  {
  }

  lemma AskedStays(t: Task, c: Time, t': Task, c': Time, id: Id, stepIds: seq<Id>, d: Definition, t1: Time, t2: Time)
    requires AsAsked(t, id, stepIds, d, t1, t2) && Grows(t, c, t', c')
    ensures AsAsked(t', id, stepIds, d, t1, t2)
  {
    hide CancelFate, DeadlineFate, Fenced;
    forall i | 0 <= i < |t'.steps|
      ensures t'.steps[i].id == stepIds[i] && t'.steps[i].key == id + ":" + stepIds[i] && t'.steps[i].def == d.steps[i]
    {
      assert StepGrows(t.steps[i], t'.steps[i]);
    }
  }

  /** What a task was created with it keeps: its steps, its timeout and the start time that was asked for. Before
      that time it is never claimed, and open only as SCHEDULED; its deadline is counted with the timeout that was
      asked for. */
  lemma {:induction false} CreatedAsAsked(run: seq<Action>, i: nat)
    requires Legal(run) && i < |run| && run[i].Create?
    ensures run[i].id in Final(run).db
    ensures var t := Final(run).db[run[i].id]; var at := Asked(run[i].d, run[i].t1);
            && AsAsked(t, run[i].id, run[i].stepIds, run[i].d, run[i].t1, run[i].t2)
            && (Final(run).clock < at ==> t.firstStartedAt.None? && (Terminal(t.status) || t.status.Scheduled?))
            && (t.firstStartedAt.Some? ==>
                  && at <= t.firstStartedAt.value
                  && t.deadlineAt == Some(t.firstStartedAt.value + run[i].d.timeoutSeconds * 1_000_000))
  {
    hide Legal, Final, Insertable, Grows, AsAsked, ShapeOk, CacheOk, StarterOk, TaskLogOk, StepsLogOk, NewTask;
    var a := run[i];
    LegalAt(run, i);
    BornAsAsked(a.id, a.stepIds, a.d, a.t1, a.t2);
    G.At(run[..i + 1], run, a.id);
    AskedStays(Final(run[..i + 1]).db[a.id], Final(run[..i + 1]).clock, Final(run).db[a.id], Final(run).clock, a.id,
               a.stepIds, a.d, a.t1, a.t2);
    AskedStart(Final(run).db[a.id], a.id, a.stepIds, a.d, a.t1, a.t2);
    NeverBeforeRunAt(run, a.id);
  }

  lemma AskedStart(t: Task, id: Id, stepIds: seq<Id>, d: Definition, t1: Time, t2: Time)
    requires AsAsked(t, id, stepIds, d, t1, t2)
    ensures t.runAt == Asked(d, t1) && t.timeoutSeconds == d.timeoutSeconds
  {
  }

  /** What the tables accept: positive numbers, and identifiers and keys that no row has yet. */
  lemma InsertableExactlyWhen(db: map<Id, Task>, id: Id, stepIds: seq<Id>, d: Definition)
    requires |stepIds| == |d.steps|
    ensures Insertable(db, id, stepIds, d) <==>
            && d.timeoutSeconds > 0
            && (forall j | 0 <= j < |d.steps| :: d.steps[j].maxAttempts > 0 && d.steps[j].timeoutSeconds > 0)
            && (forall i, j | 0 <= i < j < |stepIds| :: stepIds[i] != stepIds[j])
            && (forall other, i, j | other in db && 0 <= i < |db[other].steps| && 0 <= j < |stepIds| ::
                  db[other].steps[i].id != stepIds[j] && db[other].steps[i].key != id + ":" + stepIds[j])
  {
    var steps := NewSteps(id, stepIds, d.steps);
    forall j | 0 <= j < |steps|
      ensures StepInsertable(db, steps[..j], steps[j]) <==>
              && d.steps[j].maxAttempts > 0 && d.steps[j].timeoutSeconds > 0
              && (forall i | 0 <= i < j :: stepIds[i] != stepIds[j])
              && (forall other, i | other in db && 0 <= i < |db[other].steps| ::
                    db[other].steps[i].id != stepIds[j] && db[other].steps[i].key != id + ":" + stepIds[j])
    {
      forall i | 0 <= i < j
        ensures steps[..j][i].id == stepIds[i] && (steps[..j][i].key == steps[j].key <==> stepIds[i] == stepIds[j])
      {
        SameKey(id, stepIds[i], stepIds[j]);
      }
    }
  }

  lemma SameKey(id: Id, a: Id, b: Id)
    ensures id + ":" + a == id + ":" + b <==> a == b
  {
    assert (id + ":" + a)[|id| + 1..] == a && (id + ":" + b)[|id| + 1..] == b;
  }

  // ----- Retries come -----

  /** The task of a due retry, woken and claimed at one instant. */
  lemma WokenAndClaimed(id: Id, t: Task, worker: string, lease: Time, now: Time)
    requires Inv(t) && RetryIsDue(t, now) && InTime(t, now) && t.runAt <= now && worker != "" && lease > 0
    ensures var woken := Perform(id, t, DueControl, now, now).task;
            var claimed := Perform(id, woken, Claim(worker, lease, now), now, now).task;
            && woken.status.Runnable? && woken.retryAt.None? && woken.log == t.log + [TaskRetryReady]
            && woken.steps == t.steps && woken.currentStep == t.currentStep && woken.checkpoint == t.checkpoint
            && Inv(claimed) && claimed.steps == t.steps && claimed.currentStep == t.currentStep
            && MayWrite(claimed, Token(worker, t.leaseVersion + 1), now)
  {
    hide CacheOk, StarterOk, TaskLogOk, StepsLogOk, InputFor;
    assert MayBeCurrent(t.status, t.steps[t.currentStep]);
    Preserved(id, t, DueControl, now, now);
    var woken := Perform(id, t, DueControl, now, now).task;
    Preserved(id, woken, Claim(worker, lease, now), now, now);
  }

  /** A retry that is due is run: the scheduler wakes the task, a worker claims it, and its StartStep begins the
      next attempt of the same step with the same input and key. */
  lemma {:induction false} RetryRuns(run: seq<Action>, id: Id, worker: string, lease: Time, now: Time)
    requires Legal(run) && id in Final(run).db && Final(run).clock <= now && worker != "" && lease > 0
    requires RetryIsDue(Final(run).db[id], now) && InTime(Final(run).db[id], now)
    ensures Final(run).db[id].currentStep < |Final(run).db[id].steps|
    ensures var s := Final(run).db[id].steps[Final(run).db[id].currentStep];
            var tok := Token(worker, Final(run).db[id].leaseVersion + 1);
            var woken := run + [Act(id, DueControl, now, now)];
            var claimed := woken + [Act(id, Claim(worker, lease, now), now, now)];
            && Legal(claimed + [Act(id, Start(tok, s.id), now, now)]) && id in Final(claimed).db
            && s.resolved.Some?
            && StartTx(id, Final(claimed).db[id], tok, s.id, now).reply ==
               Attempt(StepAttempt(id, s.id, Final(run).db[id].currentStep, s.def.kind, s.attempt + 1,
                                   s.def.maxAttempts, s.key, s.resolved.value, s.def.timeoutSeconds))
  {
    hide Legal, Final, UniqueKeys, IssuedOk, Perform, Insertable, CacheOk, StarterOk, TaskLogOk, StepsLogOk, StartTx,
      Startable, DistinctIds;
    ReachableInv(run);
    NeverBeforeRunAt(run, id);
    var t := Final(run).db[id];
    assert Inv(t);
    var s := t.steps[t.currentStep];
    assert MayBeCurrent(t.status, s) && StepOk(s);
    WokenAndClaimed(id, t, worker, lease, now);
    var tok := Token(worker, t.leaseVersion + 1);
    var a, b := Act(id, DueControl, now, now), Act(id, Claim(worker, lease, now), now, now);
    Extend(run, a);
    Extend(run + [a], b);
    Extend(run + [a] + [b], Act(id, Start(tok, s.id), now, now));
    var claimed := Final(run + [a] + [b]).db[id];
    StartAnswer(id, claimed, Start(tok, s.id), now, now);
    PerformStart(id, claimed, tok, s.id, now);
  }

  lemma PerformStart(id: Id, t: Task, tok: Token, stepId: Id, now: Time)
    ensures Perform(id, t, Start(tok, stepId), now, now) == StartTx(id, t, tok, stepId, now)
  {
    hide StartTx;
  }

  // ----- Leases last -----

  /** The token's lease runs at least until the given time. */
  predicate HeldUntil(t: Task, tok: Token, until: Time) {
    && t.status.Running? && t.workerId == Some(tok.worker) && t.leaseVersion == tok.version
    && t.leaseExpiresAt.Some? && until <= t.leaseExpiresAt.value
  }

  lemma HeldOn(id: Id, t: Task, op: Op, t1: Time, t2: Time, tok: Token, until: Time)
    requires Inv(t) && HeldUntil(t, tok, until) && t1 <= t2 && t1 < until
    requires op.Renew? ==> until <= t2 + op.lease
    ensures !Grants(t, op, t1)
    ensures var t' := Perform(id, t, op, t1, t2).task; t'.status.Running? ==> HeldUntil(t', tok, until)
  {
    hide Inv, Perform, MayWrite, InTime;
    LeaseLaw(id, t, op, t1, t2);
  }

  /** From its n-th action on the run never finds the task out of RUNNING. */
  predicate RunsOn(run: seq<Action>, n: nat, id: Id) {
    forall m | n <= m <= |run| :: id in Final(run[..m]).db && Final(run[..m]).db[id].status.Running?
  }

  lemma {:induction false} HeldThroughout(early: seq<Action>, late: seq<Action>, id: Id, tok: Token, until: Time,
                                          from: Time, lease: Time)
    requires Legal(late) && early <= late && id in Final(early).db && HeldUntil(Final(early).db[id], tok, until)
    requires RunsOn(late, |early|, id) && T.LeasesAtLeast(late, lease)
    requires from <= Final(early).clock && until <= from + lease && Final(late).clock < until
    ensures id in Final(late).db && HeldUntil(Final(late).db[id], tok, until)
  {
    hide Inv, Perform, HeldUntil, UniqueKeys, IssuedOk, Insertable, Grows;
    if early != late {
      var front, a := late[..|late| - 1], late[|late| - 1];
      RunGrows(early, front);
      assert RunsOn(front, |early|, id) by {
        forall m | |early| <= m <= |front|
          ensures id in Final(front[..m]).db && Final(front[..m]).db[id].status.Running?
        {
          assert front[..m] == late[..m];
        }
      }
      assert late[..|late|] == late;
      HeldThroughout(early, front, id, tok, until, from, lease);
      ReachableInv(front);
      if a.Act? && a.id == id {
        assert T.LongEnough(a.op, lease);
        HeldOn(id, Final(front).db[id], a.op, a.t1, a.t2, tok, until);
      }
    }
  }

  /** An accepted renewal buys a whole lease. As long as the task is not handed back and has not ended, its token
      holds it until a lease after the renewal, whatever anybody does, and every claim before then is turned
      away. All stores run with a lease duration of at least this one. */
  lemma {:induction false} RenewalProtects(run: seq<Action>, id: Id, tok: Token, lease: Time, t1: Time, t2: Time,
                                           late: seq<Action>, now: Time)
    requires Legal(late) && run + [Act(id, Renew(tok, lease), t1, t2)] <= late && T.LeasesAtLeast(late, lease)
    requires id in Final(run).db && MayWrite(Final(run).db[id], tok, t1)
    requires RunsOn(late, |run| + 1, id) && Final(late).clock <= now < t2 + lease
    ensures id in Final(late).db && Holds(Final(late).db[id], tok, now)
    ensures forall op: Op :: !Grants(Final(late).db[id], op, now)
  {
    hide Legal, Final, Inv, Perform, UniqueKeys, IssuedOk, Grows, Insertable, MayWrite, InTime;
    var a := Act(id, Renew(tok, lease), t1, t2);
    var renewed := run + [a];
    assert late[..|run|] == run && late[..|run| + 1] == renewed;
    LegalAt(late, |run|);
    ReachableInv(run);
    var t := Final(run).db[id];
    ActMeans(Final(run), id, a.op, t1, t2);
    RenewAnswer(id, t, a.op, t1, t2);
    MayWriteHolds(t, tok, t1);
    HeldThroughout(renewed, late, id, tok, t2 + lease, t2, lease);
  }

  lemma MayWriteHolds(t: Task, tok: Token, now: Time)
    requires MayWrite(t, tok, now)
    ensures Holds(t, tok, now)
  {
  }

  // ----- Endings are told -----

  /** Why the current step of a stopped task failed. */
  predicate SaysWhy(t: Task) {
    t.currentStep < |t.steps| ==>
      && (t.status.Cancelled? ==> t.steps[t.currentStep].error == Some("user_cancelled"))
      && (t.status.TimedOut? ==> t.steps[t.currentStep].error == Some("task_timeout"))
  }

  lemma SaysWhyThen(id: Id, t: Task, op: Op, t1: Time, t2: Time)
    requires Inv(t) && SaysWhy(t) && t1 <= t2
    ensures SaysWhy(Perform(id, t, op, t1, t2).task)
  {
    hide Inv, Perform, InputFor, MayWrite, TooLarge, FailureText;
    if Terminal(t.status) {
      InvRow(t);
      TerminalFrozen(id, t, op, t1, t2);
    } else {
      StatusLaw(id, t, op, t1, t2);
      ProgressLaw(id, t, op, t1, t2);
      if t.currentStep < |t.steps| { StepLaw(id, t, op, t1, t2, t.currentStep); }
      Kinds(t, op, t1, t2);
      Preserved(id, t, op, t1, t2);
      NoLonger(id, t, op, t1, t2);
    }
  }

  lemma NoLonger(id: Id, t: Task, op: Op, t1: Time, t2: Time)
    requires Inv(t) && !Terminal(t.status) && t1 <= t2
    ensures t.currentStep <= |t.steps|
    ensures t.currentStep == |t.steps| ==> |Perform(id, t, op, t1, t2).task.steps| == |t.steps|
  {
    hide CacheOk, StarterOk, TaskLogOk, StepsLogOk, Perform, Effect, StepOk;
    LengthsKept(id, t, op, t1, t2);
  }

  lemma LengthsKept(id: Id, t: Task, op: Op, t1: Time, t2: Time)
    requires Inv(t)
    ensures |Perform(id, t, op, t1, t2).task.steps| == |t.steps|
  {
    hide Inv, Perform;
    InvShape(t);
    StepsHonoured(id, t, op, t1, t2);
  }

  /** In every reachable state a CANCELLED task says user_cancelled of the step it was stopped at, and a TIMED_OUT
      one says task_timeout. */
  lemma {:induction false} EndingIsTold(run: seq<Action>, id: Id)
    requires Legal(run) && id in Final(run).db
    ensures SaysWhy(Final(run).db[id])
  {
    hide Inv, Perform, SaysWhy, UniqueKeys, IssuedOk, Insertable, NewTask;
    var front, a := run[..|run| - 1], run[|run| - 1];
    ReachableInv(front);
    if a.Create? && a.id == id {
      BornSilent(id, a.stepIds, a.d, a.t1, a.t2);
    } else {
      EndingIsTold(front, id);
      if a.id == id { SaysWhyThen(id, Final(front).db[id], a.op, a.t1, a.t2); }
    }
  }

  lemma BornSilent(id: Id, stepIds: seq<Id>, d: Definition, t1: Time, t2: Time)
    requires |stepIds| == |d.steps|
    ensures SaysWhy(NewTask(id, stepIds, d, t1, t2))
  {
  }
}
