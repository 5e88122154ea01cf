/** When a task can succeed at all. Validation does not decide it: a step may use the output of an
    approval, which has none. The sequential reference does decide it. */
module Completion {
  import opened Basics
  import opened Resolve
  import opened Model
  import opened Transactions
  import opened Happenings
  import opened Guards
  import opened Invariant
  import opened History
  import opened Runs
  import opened Progress
  import R = Reference
  import G = Guarantees

  const WORKER := "worker"

  function TokenOf(t: Task): Token { Token(WORKER, t.leaseVersion) }

  /** A worker owns the task and is about to begin its current step. */
  predicate Poised(t: Task, now: Time) {
    && t.currentStep < |t.steps| && t.steps[t.currentStep].status.Pending?
    && OwnershipError(t, TokenOf(t), now).None?
  }

  /** What the worker reports for an attempt. */
  function ReportFor(exec: R.Executor, att: StepAttempt): Outcome {
    R.ReportOf(exec(att.kind, att.resolved))
  }

  /** The current step's input is there, and its product fits, when the reference gets past that step. */
  lemma InputIsThere(t: Task, exec: R.Executor)
    requires Inv(t) && R.Mirrors(t, exec) && t.currentStep < |t.steps| && t.steps[t.currentStep].status.Pending?
    requires R.Reference(Defs(t.steps), exec, t.currentStep + 1).Some?
    ensures InputFor(t, t.currentStep).Some?
    ensures var s := t.steps[t.currentStep]; !IsApproval(s) ==>
            R.Storable(exec(s.def.kind, InputFor(t, t.currentStep).value))
  {
    hide Resolution, R.Storable, StarterOk, TaskLogOk, StepsLogOk, RowOk, MayBeCurrent, DistinctIds;
    assert StepOk(t.steps[t.currentStep]);
  }

  lemma StorableFinishes(t: Task, tok: Token, att: StepAttempt, p: R.Product, now: Time)
    requires OwnershipError(t, tok, now).None? && R.Storable(p)
    requires t.currentStep < |t.steps| && Lookup(t.steps, att.stepId) == Some(t.currentStep)
             && Finishable(t, t.currentStep, att)
    ensures FinishTx(t, tok, att, R.ReportOf(p), now, now).task ==
            SucceedStep(t, t.currentStep, tok, att, R.ReportOf(p))
  {
    hide Lookup, SucceedStep, FailStep;
  }

  /** An ordinary step, done by its owner in two transactions. */
  lemma OrdinaryStep(id: Id, t: Task, now: Time, exec: R.Executor) returns (att: StepAttempt)
    requires Inv(t) && R.Mirrors(t, exec) && Poised(t, now) && !IsApproval(t.steps[t.currentStep])
    requires R.Reference(Defs(t.steps), exec, t.currentStep + 1).Some?
    ensures var begun := Perform(id, t, Start(TokenOf(t), t.steps[t.currentStep].id), now, now);
            && begun.reply == Attempt(att) && att.taskId == id && begun.task.leaseVersion == t.leaseVersion
            && var done := Perform(id, begun.task, Finish(TokenOf(t), att, ReportFor(exec, att)), now, now).task;
               && done.currentStep == t.currentStep + 1 && done.leaseVersion == t.leaseVersion
               && if done.currentStep == |t.steps| then done.status.Succeeded? else Poised(done, now)
  {
    hide Resolution, CacheOk, StarterOk, TaskLogOk, StepsLogOk, R.Mirrors, R.Reference, R.Storable, DistinctIds,
      FinishTx;
    var k := t.currentStep;
    InputIsThere(t, exec);
    PredecessorsDone(t);
    assert StepOk(t.steps[k]) && MayBeCurrent(t.status, t.steps[k]);
    var begun := StartStep(t, k, TokenOf(t), InputFor(t, k).value);
    att := AttemptOf(id, begun.steps[k], k);
    assert StartTx(id, t, TokenOf(t), t.steps[k].id, now) == Tx(begun, Attempt(att));
    Preserved(id, t, Start(TokenOf(t), t.steps[k].id), now, now);
    PredecessorsDone(begun);
    StorableFinishes(begun, TokenOf(t), att, exec(att.kind, att.resolved), now);
    if k + 1 < |t.steps| { assert t.steps[k + 1].status.Pending?; }
  }

  /** An approval step: wait, approve, and, unless it was the last, claim again. */
  lemma ApprovalStep(id: Id, t: Task, now: Time, exec: R.Executor)
    requires Inv(t) && R.Mirrors(t, exec) && Poised(t, now) && IsApproval(t.steps[t.currentStep]) && t.runAt <= now
    requires R.Reference(Defs(t.steps), exec, t.currentStep + 1).Some?
    ensures var stepId := t.steps[t.currentStep].id;
            var waiting := Perform(id, t, Wait(TokenOf(t), stepId), now, now).task;
            var approved := Perform(id, waiting, Decide(stepId, APPROVED), now, now).task;
            && approved.currentStep == t.currentStep + 1
            && if approved.currentStep == |t.steps| then approved.status.Succeeded?
               else
                 var claimed := Perform(id, approved, Claim(WORKER, 1, now), now, now).task;
                 claimed.currentStep == t.currentStep + 1 && Poised(claimed, now)
  {
    hide Resolution, CacheOk, StarterOk, TaskLogOk, StepsLogOk, R.Mirrors, R.Reference, DistinctIds, Recover;
    var k := t.currentStep;
    InputIsThere(t, exec);
    PredecessorsDone(t);
    assert StepOk(t.steps[k]) && MayBeCurrent(t.status, t.steps[k]);
    var waiting := AwaitApproval(t, k, InputFor(t, k).value);
    assert WaitTx(t, TokenOf(t), t.steps[k].id, now) == Tx(waiting, Done);
    Preserved(id, t, Wait(TokenOf(t), t.steps[k].id), now, now);
    PredecessorsDone(waiting);
    assert DecideTx(waiting, t.steps[k].id, APPROVED, now).task == Approve(waiting, k);
    if k + 1 < |t.steps| { assert t.steps[k + 1].status.Pending?; }
  }

  // ----- A whole run -----

  /** An honest legal run at time now in which the task is about to do its k-th step, or has succeeded. */
  predicate Arrived(run: seq<Action>, id: Id, exec: R.Executor, defs: seq<StepDef>, now: Time, k: nat) {
    && Legal(run) && R.Honest(run, exec) && id in Final(run).db && Final(run).clock == now
    && var t := Final(run).db[id];
       && Defs(t.steps) == defs && t.currentStep == k && t.runAt <= now
       && if k == |defs| then t.status.Succeeded? else Poised(t, now)
  }

  /** One more transaction. */
  lemma {:induction false} Send(run: seq<Action>, id: Id, op: Op, now: Time, exec: R.Executor)
    requires Legal(run) && R.Honest(run, exec) && id in Final(run).db && Final(run).clock <= now
    requires op.Claim? ==> op.statement == now && op.lease > 0
    requires op.Renew? ==> op.lease > 0
    requires R.HonestReport(Final(run).issued, id, op, exec)
    ensures var run' := run + [Act(id, op, now, now)]; var t := Final(run).db[id];
            && Legal(run') && R.Honest(run', exec) && id in Final(run').db && Final(run').clock == now
            && Final(run').db[id] == Perform(id, t, op, now, now).task
            && Defs(Final(run').db[id].steps) == Defs(t.steps) && Final(run').db[id].runAt == t.runAt
            && (Perform(id, t, op, now, now).reply.Attempt? ==>
                  Perform(id, t, op, now, now).reply.attempt in Final(run').issued)
  {
    hide Perform, Inv, R.HonestReport, Insertable, CancelFate, DeadlineFate, Fenced, StepsGrow;
    var a := Act(id, op, now, now);
    Extend(run, a);
    R.HonestExtend(run, a, exec);
    ReachableInv(run);
    PerformGrows(id, Final(run).db[id], Final(run).clock, op, now, now);
    R.DefsGrow(Final(run).db[id].steps, Perform(id, Final(run).db[id], op, now, now).task.steps);
  }

  lemma {:induction false} StepOnward(run: seq<Action>, id: Id, exec: R.Executor, defs: seq<StepDef>, now: Time,
                                      k: nat) returns (run': seq<Action>)
    requires k < |defs| && Arrived(run, id, exec, defs, now, k)
    requires R.Reference(defs, exec, k + 1).Some?
    ensures Arrived(run', id, exec, defs, now, k + 1)
  {
    hide Legal, Final, R.Honest, Perform, Inv, R.Mirrors, R.Reference, Defs, Poised, UniqueKeys, IssuedOk;
    var t := Final(run).db[id];
    ReachableInv(run);
    R.CrashTransparency(run, id, exec);
    CurrentExists(t, now);
    var stepId := t.steps[k].id;
    if IsApproval(t.steps[k]) {
      ApprovalStep(id, t, now, exec);
      Send(run, id, Wait(TokenOf(t), stepId), now, exec);
      var waiting := run + [Act(id, Wait(TokenOf(t), stepId), now, now)];
      Send(waiting, id, Decide(stepId, APPROVED), now, exec);
      run' := waiting + [Act(id, Decide(stepId, APPROVED), now, now)];
      if k + 1 < |defs| {
        Send(run', id, Claim(WORKER, 1, now), now, exec);
        run' := run' + [Act(id, Claim(WORKER, 1, now), now, now)];
      }
    } else {
      var att := OrdinaryStep(id, t, now, exec);
      Send(run, id, Start(TokenOf(t), stepId), now, exec);
      var begun := run + [Act(id, Start(TokenOf(t), stepId), now, now)];
      Send(begun, id, Finish(TokenOf(t), att, ReportFor(exec, att)), now, exec);
      run' := begun + [Act(id, Finish(TokenOf(t), att, ReportFor(exec, att)), now, now)];
    }
  }

  lemma CurrentExists(t: Task, now: Time)
    requires Poised(t, now)
    ensures t.currentStep < |t.steps| == |Defs(t.steps)|
  {
  }

  lemma {:induction false} AllOnward(run: seq<Action>, id: Id, exec: R.Executor, defs: seq<StepDef>, now: Time,
                                     k: nat) returns (run': seq<Action>)
    requires k <= |defs| && Arrived(run, id, exec, defs, now, k)
    requires R.Reference(defs, exec, |defs|).Some?
    ensures Arrived(run', id, exec, defs, now, |defs|)
    decreases |defs| - k
  {
    hide Arrived, R.Reference;
    if k == |defs| {
      run' := run;
    } else {
      R.ReferencePrefix(defs, exec, k + 1, |defs|);
      var one := StepOnward(run, id, exec, defs, now, k);
      run' := AllOnward(one, id, exec, defs, now, k + 1);
    }
  }

  /** Created when it may run, and claimed. */
  lemma {:induction false} Beginning(id: Id, stepIds: seq<Id>, d: Definition, exec: R.Executor)
    returns (run: seq<Action>, now: Time)
    requires |stepIds| == |d.steps| > 0 && Insertable(map[], id, stepIds, d)
    ensures Arrived(run, id, exec, d.steps, now, 0)
  {
    hide Legal, Final, R.Honest, Inv, Insertable, UniqueKeys, IssuedOk, Recover;
    now := if d.runAt.Some? && d.runAt.value > 0 then d.runAt.value else 0;
    var a := Create(id, stepIds, d, now, now);
    EmptyRun(exec);
    Extend([], a);
    R.HonestExtend([], a, exec);
    var created := [] + [a];
    Send(created, id, Claim(WORKER, 1, now), now, exec);
    run := created + [Act(id, Claim(WORKER, 1, now), now, now)];
    NewDefs(id, stepIds, d.steps);
    assert d.timeoutSeconds > 0 by { TimeoutPositive(id, stepIds, d); }
  }

  /** Without steps a task is claimed with nothing to do, and the recovery of its lease lets it succeed. */
  lemma EmptySucceeds(id: Id, d: Definition, exec: R.Executor) returns (run: seq<Action>)
    requires d.steps == [] && Insertable(map[], id, [], d)
    ensures Legal(run) && R.Honest(run, exec) && id in Final(run).db
    ensures Defs(Final(run).db[id].steps) == d.steps && Final(run).db[id].status.Succeeded?
  {
    hide Legal, Final, R.Honest, Inv, Insertable, UniqueKeys, IssuedOk;
    var now := if d.runAt.Some? && d.runAt.value > 0 then d.runAt.value else 0;
    var a := Create(id, [], d, now, now);
    EmptyRun(exec);
    Extend([], a);
    R.HonestExtend([], a, exec);
    var created := [] + [a];
    Send(created, id, Claim(WORKER, 1, now), now, exec);
    var claimed := created + [Act(id, Claim(WORKER, 1, now), now, now)];
    Send(claimed, id, Claim(WORKER, 1, now + 1), now + 1, exec);
    run := claimed + [Act(id, Claim(WORKER, 1, now + 1), now + 1, now + 1)];
    TimeoutPositive(id, [], d);
  }

  lemma EmptyRun(exec: R.Executor)
    ensures Legal([]) && R.Honest([], exec) && Final([]) == EMPTY
  {
  }

  lemma TimeoutPositive(id: Id, stepIds: seq<Id>, d: Definition)
    requires |stepIds| == |d.steps| && Insertable(map[], id, stepIds, d)
    ensures d.timeoutSeconds > 0
  {
  }

  lemma NewDefs(id: Id, stepIds: seq<Id>, defs: seq<StepDef>)
    requires |stepIds| == |defs|
    ensures Defs(NewSteps(id, stepIds, defs)) == defs
  {
  }

  /** Some honest run takes a task with this definition to SUCCEEDED. */
  ghost predicate CanSucceed(id: Id, d: Definition, exec: R.Executor) {
    exists run: seq<Action> ::
      Legal(run) && R.Honest(run, exec) && id in Final(run).db
      && Defs(Final(run).db[id].steps) == d.steps && Final(run).db[id].status.Succeeded?
  }

  /** A task that the store accepts can succeed if and only if the sequential reference gets through its
      definition. */
  lemma CanSucceedExactlyWhen(id: Id, stepIds: seq<Id>, d: Definition, exec: R.Executor)
    requires |stepIds| == |d.steps| && Insertable(map[], id, stepIds, d)
    ensures CanSucceed(id, d, exec) <==> R.Reference(d.steps, exec, |d.steps|).Some?
  {
    hide Legal, Final, R.Honest, R.Reference, Defs, Insertable;
    if d.steps == [] {
      var done := EmptySucceeds(id, d, exec);
      assert Legal(done);
    } else if R.Reference(d.steps, exec, |d.steps|).Some? {
      var run, now := Beginning(id, stepIds, d, exec);
      var done := AllOnward(run, id, exec, d.steps, now, 0);
      assert Legal(done);
    }
    if CanSucceed(id, d, exec) {
      var run: seq<Action> :|
        Legal(run) && R.Honest(run, exec) && id in Final(run).db
        && Defs(Final(run).db[id].steps) == d.steps && Final(run).db[id].status.Succeeded?;
      R.SuccessIsReference(run, id, exec);
    }
  }

  // ----- When an accepted definition can succeed -----

  /** The input that the reference resolves for step k, if it gets there. */
  function ReferenceInput(defs: seq<StepDef>, exec: R.Executor, k: nat): Option<Json>
    requires k < |defs|
  {
    match R.Reference(defs, exec, k)
    case None => None
    case Some(p) => Resolution(defs[k].input, if k == 0 then None else p.outputs[k - 1], p.checkpoint)
  }

  /** What the reference gets from step k meets this condition, if it gets anything. */
  predicate Yields(defs: seq<StepDef>, exec: R.Executor, k: nat, fits: R.Product -> bool)
    requires k < |defs|
  {
    var input := ReferenceInput(defs, exec, k);
    defs[k].kind != APPROVAL && input.Some? ==> fits(exec(defs[k].kind, input.value))
  }

  /** A product that can be stored and is not null. */
  predicate Usable(p: R.Product) {
    && R.Storable(p) && p.output.json != Some(Null)
    && (p.checkpoint.size > 0 ==> p.checkpoint.json != Some(Null))
  }

  /** Every product that this definition comes to is usable. Other inputs do not matter. */
  predicate UsableFor(defs: seq<StepDef>, exec: R.Executor) {
    forall k | 0 <= k < |defs| :: Yields(defs, exec, k, Usable)
  }

  /** What the API checks of the inputs (internal/api/handler.go:208). */
  predicate AllAccepted(defs: seq<StepDef>) {
    forall k | 0 <= k < |defs| :: Accepted(defs[k].input, k > 0)
  }

  predicate UsesApproval(defs: seq<StepDef>, k: nat) {
    0 < k < |defs| && defs[k - 1].kind == APPROVAL && Uses(defs[k].input, PREVIOUS)
  }

  predicate NoApprovalUsed(defs: seq<StepDef>) {
    forall k | 0 < k < |defs| :: !UsesApproval(defs, k)
  }

  lemma {:induction false} ReferenceGoesOn(defs: seq<StepDef>, exec: R.Executor, n: nat)
    requires n <= |defs| && AllAccepted(defs) && NoApprovalUsed(defs) && UsableFor(defs, exec)
    ensures var r := R.Reference(defs, exec, n);
            && r.Some? && r.value.checkpoint != Null
            && forall i | 0 <= i < n && defs[i].kind != APPROVAL :: Decoded(r.value.outputs[i]) != Null
  {
    hide Uses, WellFormed, Substitute, EffectiveError;
    if n > 0 {
      ReferenceGoesOn(defs, exec, n - 1);
      var p := R.Reference(defs, exec, n - 1).value;
      var previous := if n == 1 then None else p.outputs[n - 2];
      assert Accepted(defs[n - 1].input, n - 1 > 0) && !UsesApproval(defs, n - 1);
      assert Resolvable(defs[n - 1].input, Decoded(previous), p.checkpoint);
      assert Yields(defs, exec, n - 1, Usable);
    }
  }

  /** Acceptance is not enough, and this is what is missing: when the products it comes to can be stored and
      are not null, an accepted definition can succeed if and only if no step uses the output of an approval. */
  lemma AcceptedSucceedsExactlyWhen(id: Id, stepIds: seq<Id>, d: Definition, exec: R.Executor)
    requires |stepIds| == |d.steps| && Insertable(map[], id, stepIds, d)
    requires AllAccepted(d.steps) && UsableFor(d.steps, exec)
    ensures CanSucceed(id, d, exec) <==> NoApprovalUsed(d.steps)
  {
    hide Insertable, CanSucceed, R.Reference, UsesApproval, UsableFor;
    CanSucceedExactlyWhen(id, stepIds, d, exec);
    if NoApprovalUsed(d.steps) {
      ReferenceGoesOn(d.steps, exec, |d.steps|);
    } else {
      var k: nat :| UsesApproval(d.steps, k);
      UsedApprovalStops(d.steps, exec, k);
    }
  }

  lemma UsedApprovalStops(defs: seq<StepDef>, exec: R.Executor, k: nat)
    requires UsesApproval(defs, k)
    ensures R.Reference(defs, exec, |defs|).None?
  {
    hide R.Reference;
    R.ApprovalHasNoOutput(defs, exec, k);
    if R.Reference(defs, exec, |defs|).Some? { R.ReferencePrefix(defs, exec, k + 1, |defs|); }
  }

  // ----- Definitions without references -----

  predicate ReferenceFree(defs: seq<StepDef>) {
    forall k | 0 <= k < |defs| ::
      WellFormed(defs[k].input) && !Uses(defs[k].input, PREVIOUS) && !Uses(defs[k].input, CHECKPOINT)
  }

  /** What step k yields for its configured input can be stored. */
  predicate StoresAsConfigured(def: StepDef, exec: R.Executor) {
    def.kind != APPROVAL ==> R.Storable(exec(def.kind, def.input))
  }

  lemma {:induction false} FreeReference(defs: seq<StepDef>, exec: R.Executor, n: nat)
    requires n <= |defs| && ReferenceFree(defs)
    ensures R.Reference(defs, exec, n).Some? <==> forall k | 0 <= k < n :: StoresAsConfigured(defs[k], exec)
  {
    hide Uses, WellFormed, Substitute, R.Storable;
    if n > 0 {
      FreeReference(defs, exec, n - 1);
      if R.Reference(defs, exec, n - 1).Some? {
        var p := R.Reference(defs, exec, n - 1).value;
        var previous := if n == 1 then None else p.outputs[n - 2];
        ReferenceFreeUnchanged(defs[n - 1].input, Decoded(previous), p.checkpoint);
        assert Resolution(defs[n - 1].input, previous, p.checkpoint) == Some(defs[n - 1].input);
      }
    }
  }

  /** Without references the condition is on each step alone: the definition can succeed if and only if what
      every ordinary step yields for its configured input can be stored, null or not. */
  lemma FreeSucceedsExactlyWhen(id: Id, stepIds: seq<Id>, d: Definition, exec: R.Executor)
    requires |stepIds| == |d.steps| && Insertable(map[], id, stepIds, d) && ReferenceFree(d.steps)
    ensures CanSucceed(id, d, exec) <==> forall k | 0 <= k < |d.steps| :: StoresAsConfigured(d.steps[k], exec)
  {
    hide Insertable, CanSucceed, R.Reference, ReferenceFree, StoresAsConfigured;
    CanSucceedExactlyWhen(id, stepIds, d, exec);
    FreeReference(d.steps, exec, |d.steps|);
  }

  // ----- Accepted definitions that cannot succeed -----

  /** An accepted definition that can never succeed, whatever the executor: an approval, and an echo of its
      output. */
  lemma AcceptedButStuck(exec: R.Executor)
    ensures var d := Definition(None, 60, [
              StepDef(APPROVAL, Obj(map[]), 30, 3),
              StepDef("echo", Obj(map["value" := Obj(map[REF := Str(PREVIOUS)])]), 30, 3)]);
            AllAccepted(d.steps) && Insertable(map[], "t", ["a", "b"], d) && !CanSucceed("t", d, exec)
  {
    hide CanSucceed, R.Reference;
    var echo := Obj(map["value" := Obj(map[REF := Str(PREVIOUS)])]);
    var d := Definition(None, 60, [StepDef(APPROVAL, Obj(map[]), 30, 3), StepDef("echo", echo, 30, 3)]);
    assert Uses(echo.fields["value"], PREVIOUS) && WellFormed(echo.fields["value"]);
    assert UsesApproval(d.steps, 1);
    TwoInsertable(d);
    CanSucceedExactlyWhen("t", ["a", "b"], d, exec);
    UsedApprovalStops(d.steps, exec, 1);
  }

  lemma TwoInsertable(d: Definition)
    requires |d.steps| == 2 && d.timeoutSeconds > 0
    requires forall k | 0 <= k < 2 :: d.steps[k].maxAttempts > 0 && d.steps[k].timeoutSeconds > 0
    ensures Insertable(map[], "t", ["a", "b"], d)
  {
    var steps := NewSteps("t", ["a", "b"], d.steps);
    assert steps[0].key == "t:a" && steps[1].key == "t:b";
  }

  predicate Oversized(p: R.Product) {
    p.output.size > MAX_JSON_BYTES || p.checkpoint.size > MAX_JSON_BYTES
  }

  /** The reference comes to step k, and what that step yields there is over a size limit. */
  predicate TooLargeAt(defs: seq<StepDef>, exec: R.Executor, k: nat) {
    && k < |defs| && defs[k].kind != APPROVAL && ReferenceInput(defs, exec, k).Some?
    && Yields(defs, exec, k, Oversized)
  }

  lemma TooLargeStops(defs: seq<StepDef>, exec: R.Executor, k: nat)
    requires TooLargeAt(defs, exec, k)
    ensures R.Reference(defs, exec, k + 1).None?
  {
    hide Resolution;
  }

  /** Nor can a task succeed whose product is somewhere over the limit: it is never stored. */
  lemma TooLargeNeverSucceeds(id: Id, stepIds: seq<Id>, d: Definition, exec: R.Executor, k: nat)
    requires |stepIds| == |d.steps| && Insertable(map[], id, stepIds, d) && TooLargeAt(d.steps, exec, k)
    ensures !CanSucceed(id, d, exec)
  {
    hide Insertable, CanSucceed, Resolution, R.Reference, TooLargeAt;
    CanSucceedExactlyWhen(id, stepIds, d, exec);
    assert k < |d.steps| by { TooLargeBound(d.steps, exec, k); }
    TooLargeStops(d.steps, exec, k);
    if R.Reference(d.steps, exec, |d.steps|).Some? { R.ReferencePrefix(d.steps, exec, k + 1, |d.steps|); }
  }

  lemma TooLargeBound(defs: seq<StepDef>, exec: R.Executor, k: nat)
    requires TooLargeAt(defs, exec, k)
    ensures k < |defs|
  {
  }

  // ----- Echoes that grow -----

  function Wrapped(v: Json): Json { Obj(map["value" := v]) }

  /** The echo executor (internal/executor/executor.go:144-156): the output is the value wrapped again, in as
      many bytes as that takes, and there is no checkpoint. */
  ghost predicate Echoes(exec: R.Executor, size: Json -> nat) {
    forall v: Json :: exec("echo", Wrapped(v)) == R.Product(Bytes(size(Wrapped(v)), Some(Wrapped(v))), Bytes(0, None))
  }

  /** A list of two values takes at least the room of both. */
  ghost predicate Measures(size: Json -> nat) {
    forall a: Json, b: Json :: size(Wrapped(Arr([a, b]))) >= size(a) + size(b)
  }

  const OUTPUT_TWICE := Wrapped(Arr([Obj(map[REF := Str(PREVIOUS)]), Obj(map[REF := Str(PREVIOUS)])]))

  function TwoEchoes(text: string): Definition {
    Definition(None, 60, [StepDef("echo", Wrapped(Str(text)), 30, 3), StepDef("echo", OUTPUT_TWICE, 30, 3)])
  }

  lemma TwiceResolves(v: Json)
    requires v != Null
    ensures Accepted(OUTPUT_TWICE, true)
    ensures Resolution(OUTPUT_TWICE, Some(v), EMPTY_CHECKPOINT) == Some(Wrapped(Arr([v, v])))
  {
    var reference := Obj(map[REF := Str(PREVIOUS)]);
    var twice := Arr([reference, reference]);
    assert WellFormed(reference) && Uses(reference, PREVIOUS) && !Uses(reference, CHECKPOINT);
    assert Substitute(reference, v, EMPTY_CHECKPOINT) == v;
    assert WellFormed(twice) && !Uses(twice, CHECKPOINT);
    assert Substitute(twice, v, EMPTY_CHECKPOINT).items == [v, v];
    assert Substitute(OUTPUT_TWICE, v, EMPTY_CHECKPOINT).fields == map["value" := Arr([v, v])];
  }

  lemma TextResolves(text: string, checkpoint: Json)
    ensures Accepted(Wrapped(Str(text)), false) && !Uses(Wrapped(Str(text)), PREVIOUS)
    ensures Resolution(Wrapped(Str(text)), None, checkpoint) == Some(Wrapped(Str(text)))
  {
    var leaf := Str(text);
    assert WellFormed(leaf) && !Uses(leaf, PREVIOUS) && !Uses(leaf, CHECKPOINT);
    assert !Uses(Wrapped(leaf), PREVIOUS) && !Uses(Wrapped(leaf), CHECKPOINT);
    ReferenceFreeUnchanged(Wrapped(leaf), Null, checkpoint);
  }

  lemma OrdinaryOnward(defs: seq<StepDef>, exec: R.Executor, k: nat, input: Json)
    requires k < |defs| && defs[k].kind != APPROVAL && ReferenceInput(defs, exec, k) == Some(input)
    requires R.Storable(exec(defs[k].kind, input)) && exec(defs[k].kind, input).checkpoint.size == 0
    ensures var p := R.Reference(defs, exec, k).value;
            R.Reference(defs, exec, k + 1) ==
            Some(R.Progressed(p.outputs + [exec(defs[k].kind, input).output.json], p.checkpoint))
  {
    hide Resolution, R.Storable, R.Reference;
    R.OrdinaryNext(defs, exec, k, input);
  }

  /** An accepted definition that uses no approval and can never succeed: an echo of a text that fits the limit,
      and an echo of its output twice over, which does not. */
  lemma AcceptedButTooLarge(exec: R.Executor, size: Json -> nat, text: string)
    requires Echoes(exec, size) && Measures(size)
    requires 0 < size(Wrapped(Str(text))) <= MAX_JSON_BYTES < 2 * size(Wrapped(Str(text)))
    ensures var d := TwoEchoes(text);
            && AllAccepted(d.steps) && NoApprovalUsed(d.steps)
            && Insertable(map[], "t", ["a", "b"], d) && !CanSucceed("t", d, exec)
  {
    hide CanSucceed, Insertable, Uses, WellFormed, Substitute, Resolvable;
    var d := TwoEchoes(text);
    var first := Wrapped(Str(text));
    TextResolves(text, EMPTY_CHECKPOINT);
    TwiceResolves(first);
    TwoInsertable(d);
    assert exec("echo", first) == R.Product(Bytes(size(first), Some(first)), Bytes(0, None));
    assert R.Storable(exec("echo", first)) && "echo" != APPROVAL;
    assert R.Reference(d.steps, exec, 0) == Some(R.Progressed([], EMPTY_CHECKPOINT));
    OrdinaryOnward(d.steps, exec, 0, first);
    assert R.Reference(d.steps, exec, 1).value.outputs == [Some(first)];
    assert ReferenceInput(d.steps, exec, 1) == Some(Wrapped(Arr([first, first])));
    assert size(Wrapped(Arr([first, first]))) >= size(first) + size(first);
    TooLargeNeverSucceeds("t", ["a", "b"], d, exec, 1);
  }
}
