/** What holding a lease is worth: while a token owns a task and only one party sends it, nobody else moves
    the task's steps. */
module Tenure {
  import opened Basics
  import opened Resolve
  import opened Model
  import opened Transactions
  import opened Happenings
  import opened Guards
  import opened Columns
  import opened Answers
  import opened Invariant
  import opened History
  import opened Runs
  import G = Guarantees

  /** A call that needs the token and moves a step. A heartbeat or a control poll does not. */
  predicate UsesToken(a: Action, id: Id, tok: Token) {
    a.Act? && a.id == id && (a.op.Start? || a.op.Wait? || a.op.Finish?) && a.op.tok == tok
  }

  /** From its n-th action on, the run has no such call. */
  predicate QuietFrom(run: seq<Action>, n: nat, id: Id, tok: Token) {
    forall i | n <= i < |run| :: !UsesToken(run[i], id, tok)
  }

  predicate SameProgress(t: Task, t': Task) {
    t'.steps == t.steps && t'.currentStep == t.currentStep && t'.checkpoint == t.checkpoint
  }

  lemma OwnedUnmoved(id: Id, t: Task, op: Op, t1: Time, t2: Time, tok: Token)
    requires Inv(t) && tok.version <= t.leaseVersion && t1 <= t2
    requires !UsesToken(Act(id, op, t1, t2), id, tok)
    requires Owns(Perform(id, t, op, t1, t2).task, tok, t2)
    ensures SameProgress(t, Perform(id, t, op, t1, t2).task)
  {
    hide ShapeOk, CacheOk, StarterOk, TaskLogOk, StepsLogOk, Lookup, InputFor, Startable, Waitable, Finishable,
      DelaySeconds, EffectiveError;
  }

  /** An owner that finds its lease has had it all the time, and the steps are as it left them. */
  lemma {:induction false} Undisturbed(early: seq<Action>, late: seq<Action>, id: Id, tok: Token)
    requires Legal(late) && early <= late && id in Final(early).db && tok.version <= Final(early).db[id].leaseVersion
    requires QuietFrom(late, |early|, id, tok)
    requires id in Final(late).db && Owns(Final(late).db[id], tok, Final(late).clock)
    ensures Owns(Final(early).db[id], tok, Final(early).clock)
    ensures SameProgress(Final(early).db[id], Final(late).db[id])
  {
    hide Inv, Perform, Grows, Owns, UniqueKeys, IssuedOk, Insertable, SameProgress;
    if early == late {
      Unmoved(Final(late).db[id]);
    } else {
      var front, a := late[..|late| - 1], late[|late| - 1];
      RunGrows(early, front);
      G.At(early, front, id);
      G.At(front, late, id);
      VersionGrows(Final(early).db[id], Final(early).clock, Final(front).db[id], Final(front).clock);
      InvRow(Final(front).db[id]);
      OwnedBefore(Final(front).db[id], Final(front).clock, Final(late).db[id], Final(late).clock, tok);
      assert QuietFrom(front, |early|, id, tok);
      Undisturbed(early, front, id, tok);
      if a.id == id {
        OwnedUnmoved(id, Final(front).db[id], a.op, a.t1, a.t2, tok);
        SameAgain(Final(early).db[id], Final(front).db[id], Final(late).db[id]);
      }
    }
  }

  lemma OwnedBefore(t: Task, c: Time, t': Task, c': Time, tok: Token)
    requires RowOk(t) && Grows(t, c, t', c') && Owns(t', tok, c') && tok.version <= t.leaseVersion
    ensures Owns(t, tok, c)
  {
    hide StepsGrow, CancelFate, DeadlineFate;
  }

  lemma VersionGrows(t: Task, c: Time, t': Task, c': Time)
    requires Grows(t, c, t', c')
    ensures t.leaseVersion <= t'.leaseVersion
  {
    hide StepsGrow, CancelFate, DeadlineFate, Fenced;
  }

  lemma Unmoved(t: Task)
    ensures SameProgress(t, t)
  {
  }

  lemma SameAgain(a: Task, b: Task, c: Task)
    requires SameProgress(a, b) && SameProgress(b, c)
    ensures SameProgress(a, c)
  {
  }

  // ----- What the owner can then do -----

  /** If the token owns the task, no attempt of its current step is running. */
  predicate Fresh(t: Task, tok: Token, now: Time) {
    Owns(t, tok, now) && t.currentStep < |t.steps| ==> !t.steps[t.currentStep].status.Running?
  }

  /** If the token owns the task, its current step is this one and may begin. */
  predicate Aimed(t: Task, tok: Token, now: Time, stepId: Id, approval: bool) {
    Owns(t, tok, now) ==>
      && t.currentStep < |t.steps| && t.steps[t.currentStep].id == stepId
      && IsApproval(t.steps[t.currentStep]) == approval && !t.steps[t.currentStep].status.Running?
  }

  /** If the token owns the task, this attempt of its current step is running. */
  predicate Begun(t: Task, tok: Token, now: Time, att: StepAttempt) {
    Owns(t, tok, now) ==>
      t.currentStep < |t.steps| && t.steps[t.currentStep].id == att.stepId && Finishable(t, t.currentStep, att)
  }

  /** Others leave all three as they are. */
  lemma {:induction false} LeftAlone(early: seq<Action>, late: seq<Action>, id: Id, tok: Token)
    requires Legal(late) && early <= late && id in Final(early).db && tok.version <= Final(early).db[id].leaseVersion
    requires QuietFrom(late, |early|, id, tok)
    ensures id in Final(late).db
    ensures var (t, now, t', now') := (Final(early).db[id], Final(early).clock, Final(late).db[id], Final(late).clock);
            && (Fresh(t, tok, now) ==> Fresh(t', tok, now'))
            && (forall stepId, approval | Aimed(t, tok, now, stepId, approval) ::
                Aimed(t', tok, now', stepId, approval))
            && (forall att | Begun(t, tok, now, att) :: Begun(t', tok, now', att))
  {
    hide Legal, Final, Owns, Inv, Grows;
    G.At(early, late, id);
    if Owns(Final(late).db[id], tok, Final(late).clock) { Undisturbed(early, late, id, tok); }
  }

  lemma GrantIsFresh(t: Task, worker: string, lease: Time, t1: Time, statement: Time, t2: Time, tok: Token)
    requires Inv(t) && ClaimTx(t, worker, lease, t1, statement, t2).reply.Granted?
    ensures Fresh(ClaimTx(t, worker, lease, t1, statement, t2).task, tok, t2)
  {
    hide CacheOk, StarterOk, TaskLogOk, StepsLogOk, Recover;
    if t.status.Running? { RecoverKeeps(t); }
    if t.status.Runnable? && t.steps != [] { assert MayBeCurrent(t.status, t.steps[t.currentStep]); }
  }

  /** No conflict for an owner that starts the step it aimed at. */
  lemma AimedStarts(id: Id, t: Task, tok: Token, stepId: Id, now: Time)
    requires Inv(t) && Aimed(t, tok, now, stepId, false)
    ensures StartTx(id, t, tok, stepId, now).reply != Refused(Conflict)
  {
    hide CacheOk, StarterOk, TaskLogOk, StepsLogOk, InputFor, StartStep;
    if OwnershipError(t, tok, now).None? {
      G.LookupById(t.steps, t.currentStep);
      assert StepOk(t.steps[t.currentStep]) && MayBeCurrent(t.status, t.steps[t.currentStep]);
    }
  }

  lemma AimedWaits(t: Task, tok: Token, stepId: Id, now: Time)
    requires Inv(t) && Aimed(t, tok, now, stepId, true)
    ensures WaitTx(t, tok, stepId, now).reply != Refused(Conflict)
  {
    hide CacheOk, StarterOk, TaskLogOk, StepsLogOk, InputFor, AwaitApproval;
    if OwnershipError(t, tok, now).None? {
      G.LookupById(t.steps, t.currentStep);
      assert StepOk(t.steps[t.currentStep]) && MayBeCurrent(t.status, t.steps[t.currentStep]);
    }
  }

  lemma StartedIsBegun(id: Id, t: Task, tok: Token, stepId: Id, now: Time)
    requires Inv(t) && StartTx(id, t, tok, stepId, now).reply.Attempt?
    ensures var tx := StartTx(id, t, tok, stepId, now); Begun(tx.task, tok, now, tx.reply.attempt)
  {
    hide CacheOk, StarterOk, TaskLogOk, StepsLogOk, InputFor, OwnershipError;
  }

  /** Nor for one that finishes the attempt it began; and it is then ready for the next step. */
  lemma BegunFinishes(t: Task, tok: Token, att: StepAttempt, out: Outcome, now: Time)
    requires Inv(t) && Begun(t, tok, now, att)
    ensures var tx := FinishTx(t, tok, att, out, now, now);
            tx.reply != Refused(Conflict) && (tx.reply == Done ==> Fresh(tx.task, tok, now))
  {
    hide CacheOk, StarterOk, TaskLogOk, StepsLogOk, DelaySeconds, EffectiveError, WellFormedOutcome;
    if OwnershipError(t, tok, now).None? {
      G.LookupById(t.steps, t.currentStep);
      if t.currentStep + 1 < |t.steps| { assert t.steps[t.currentStep + 1].status.Pending?; }
    }
  }

  // ----- With nobody else about -----

  /** The token may go on, or has nothing more to do. */
  predicate GoesOn(t: Task, tok: Token, now: Time) {
    t.status.Running? ==> MayWrite(t, tok, now)
  }

  lemma StartsUnlessUnresolvable(id: Id, t: Task, tok: Token, stepId: Id, now: Time)
    requires Inv(t) && MayWrite(t, tok, now) && Aimed(t, tok, now, stepId, false)
    ensures var tx := Perform(id, t, Start(tok, stepId), now, now);
            && t.currentStep < |t.steps| && MayWrite(tx.task, tok, now)
            && if InputFor(t, t.currentStep).Some? then tx.reply.Attempt? else tx.reply == Refused(Invalid)
  {
    hide CacheOk, StarterOk, TaskLogOk, StepsLogOk, InputFor, Perform, DistinctIds;
    var op := Start(tok, stepId);
    StartAnswer(id, t, op, now, now);
    LeaseLaw(id, t, op, now, now);
    StatusLaw(id, t, op, now, now);
    OriginLaw(id, t, op, now, now);
    OwnerGuard(t, tok, now);
    assert StepOk(t.steps[t.currentStep]) && MayBeCurrent(t.status, t.steps[t.currentStep]);
  }

  lemma WaitsUnlessUnresolvable(id: Id, t: Task, tok: Token, stepId: Id, now: Time)
    requires Inv(t) && MayWrite(t, tok, now) && Aimed(t, tok, now, stepId, true)
    ensures var tx := Perform(id, t, Wait(tok, stepId), now, now);
            && t.currentStep < |t.steps|
            && if InputFor(t, t.currentStep).Some? then tx.reply == Done && tx.task.status.WaitingApproval?
               else tx.reply == Refused(Invalid)
  {
    hide CacheOk, StarterOk, TaskLogOk, StepsLogOk, InputFor, Perform, DistinctIds;
    var op := Wait(tok, stepId);
    WaitAnswer(id, t, op, now, now);
    StatusLaw(id, t, op, now, now);
    OwnerGuard(t, tok, now);
    assert StepOk(t.steps[t.currentStep]) && MayBeCurrent(t.status, t.steps[t.currentStep]);
  }

  lemma FinishesUnlessMalformed(id: Id, t: Task, tok: Token, att: StepAttempt, out: Outcome, now: Time)
    requires Inv(t) && MayWrite(t, tok, now) && Begun(t, tok, now, att)
    ensures var tx := Perform(id, t, Finish(tok, att, out), now, now);
            && (tx.reply == Done || tx.reply == Refused(Invalid)) && GoesOn(tx.task, tok, now)
            && (tx.reply == Done && out.error != "" ==> !tx.task.status.Running?)
  {
    hide CacheOk, StarterOk, TaskLogOk, StepsLogOk, InputFor, Perform, DistinctIds, StepOk, MayBeCurrent;
    var op := Finish(tok, att, out);
    FinishAnswer(id, t, op, now, now);
    StatusLaw(id, t, op, now, now);
    LeaseLaw(id, t, op, now, now);
    OriginLaw(id, t, op, now, now);
    OwnerGuard(t, tok, now);
  }
}
