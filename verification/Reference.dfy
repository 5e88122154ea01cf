/** Crash transparency: what a task has committed is what an uninterrupted sequential execution of its
    definition would have computed. */
module Reference {
  import opened Basics
  import opened Resolve
  import opened Model
  import opened Transactions
  import opened Happenings
  import opened Guards
  import opened Invariant
  import opened History
  import opened Runs
  import opened Progress
  import G = Guarantees

  /** What a successful execution yields; no bytes of checkpoint for none. */
  datatype Product = Product(output: Bytes, checkpoint: Bytes)

  /** An executor whose successful result is a function of the step's kind and input. */
  type Executor = (string, Json) -> Product

  /** The report of a product: a success, with no failure class. */
  function ReportOf(p: Product): Outcome {
    Outcome(p.output, p.checkpoint, "", Unclassified)
  }

  /** FinishStep takes this product for a success: well-formed and within the size limits. */
  predicate Storable(p: Product) {
    EffectiveError(ReportOf(p)) == "" && WellFormedOutcome(ReportOf(p))
  }

  /** The outputs of the steps done so far, and the checkpoint. */
  datatype Progressed = Progressed(outputs: seq<Option<Json>>, checkpoint: Json)

  /** The sequential reference: runs the first n steps once each, in order, with no failure, lease,
      retry or crash. None when an input cannot be resolved or a product cannot be stored. */
  function Reference(defs: seq<StepDef>, exec: Executor, n: nat): (r: Option<Progressed>)
    requires n <= |defs|
    ensures r.Some? ==> |r.value.outputs| == n
  {
    if n == 0 then Some(Progressed([], EMPTY_CHECKPOINT))
    else
      match Reference(defs, exec, n - 1)
      case None => None
      case Some(p) =>
        var previous := if n == 1 then None else p.outputs[n - 2];
        match Resolution(defs[n - 1].input, previous, p.checkpoint)
        case None => None
        case Some(input) =>
          if defs[n - 1].kind == APPROVAL then Some(Progressed(p.outputs + [None], p.checkpoint))
          else
            var product := exec(defs[n - 1].kind, input);
            if !Storable(product) then None
            else
              Some(Progressed(p.outputs + [product.output.json],
                              if product.checkpoint.size > 0 then Decoded(product.checkpoint.json) else p.checkpoint))
  }

  /** The task's committed prefix is the reference's. */
  predicate Mirrors(t: Task, exec: Executor) {
    && t.currentStep <= |t.steps|
    && var r := Reference(Defs(t.steps), exec, t.currentStep);
       && r.Some? && r.value.checkpoint == t.checkpoint
       && forall i | 0 <= i < t.currentStep :: t.steps[i].output == r.value.outputs[i]
  }

  // ----- Honest workers -----

  /** A reported success carries an attempt that StartStep returned for this task, and what the executor
      yields for that attempt's kind and input, to the byte. Failures may be reported at will. */
  predicate HonestReport(issued: set<StepAttempt>, id: Id, op: Op, exec: Executor) {
    op.Finish? && op.out.error == "" ==>
      && op.att in issued && op.att.taskId == id
      && var p := exec(op.att.kind, op.att.resolved);
         op.out.output == p.output && op.out.checkpoint == p.checkpoint
  }

  predicate Honest(run: seq<Action>, exec: Executor) {
    run == [] ||
    (Honest(run[..|run| - 1], exec) &&
     (run[|run| - 1].Act? ==> HonestReport(Final(run[..|run| - 1]).issued, run[|run| - 1].id, run[|run| - 1].op, exec)))
  }

  lemma {:induction false} HonestExtend(run: seq<Action>, a: Action, exec: Executor)
    requires Honest(run, exec) && (a.Act? ==> HonestReport(Final(run).issued, a.id, a.op, exec))
    ensures Honest(run + [a], exec)
  {
    assert (run + [a])[..|run|] == run;
  }

  // ----- One transaction -----

  lemma DefsGrow(steps: seq<Step>, steps': seq<Step>)
    requires StepsGrow(steps, steps')
    ensures Defs(steps) == Defs(steps')
  {
    forall i | 0 <= i < |steps| ensures Defs(steps)[i] == Defs(steps')[i] { assert StepGrows(steps[i], steps'[i]); }
  }

  /** While the current step stays, so does the mirrored prefix. */
  lemma MirrorsStays(t: Task, t': Task, exec: Executor)
    requires Mirrors(t, exec) && ShapeOk(t) && StepsGrow(t.steps, t'.steps) && Stays(t, t')
    ensures Mirrors(t', exec)
  {
    hide Reference, StepOk, MayBeCurrent;
    DefsGrow(t.steps, t'.steps);
    forall i | 0 <= i < t.currentStep ensures t'.steps[i].output == t.steps[i].output {
      assert StepGrows(t.steps[i], t'.steps[i]);
    }
  }

  /** The step that is current has a stored input once it runs or waits: the reference's own input. */
  lemma MirrorsInput(t: Task, exec: Executor)
    requires Mirrors(t, exec) && CacheOk(t) && t.currentStep < |t.steps| && t.steps[t.currentStep].resolved.Some?
    ensures var r := Reference(Defs(t.steps), exec, t.currentStep).value;
            var previous := if t.currentStep == 0 then None else r.outputs[t.currentStep - 1];
            Resolution(t.steps[t.currentStep].def.input, previous, r.checkpoint) == t.steps[t.currentStep].resolved
  {
    hide Reference, Resolution;
  }

  lemma OrdinaryNext(defs: seq<StepDef>, exec: Executor, k: nat, input: Json)
    requires k < |defs| && defs[k].kind != APPROVAL && Reference(defs, exec, k).Some?
    requires var p := Reference(defs, exec, k).value;
             Resolution(defs[k].input, if k == 0 then None else p.outputs[k - 1], p.checkpoint) == Some(input)
    requires Storable(exec(defs[k].kind, input))
    ensures var p := Reference(defs, exec, k).value; var product := exec(defs[k].kind, input);
            Reference(defs, exec, k + 1) ==
            Some(Progressed(p.outputs + [product.output.json],
                            if product.checkpoint.size > 0 then Decoded(product.checkpoint.json) else p.checkpoint))
  {
    hide Resolution, Storable;
  }

  lemma MirrorsSuccess(t: Task, exec: Executor, tok: Token, att: StepAttempt, out: Outcome)
    requires Inv(t) && Mirrors(t, exec) && t.currentStep < |t.steps| && t.steps[t.currentStep].status.Running?
    requires Came(att, t.steps[t.currentStep]) && WellFormedOutcome(out) && EffectiveError(out) == ""
    requires var p := exec(att.kind, att.resolved); out.output == p.output && out.checkpoint == p.checkpoint
    ensures Mirrors(SucceedStep(t, t.currentStep, tok, att, out), exec)
  {
    hide Resolution, Reference, StarterOk, TaskLogOk, StepsLogOk, RowOk, MayBeCurrent, DistinctIds;
    var k := t.currentStep;
    var t' := SucceedStep(t, k, tok, att, out);
    assert StepOk(t.steps[k]);
    MirrorsInput(t, exec);
    assert Defs(t'.steps) == Defs(t.steps);
    assert out == ReportOf(exec(att.kind, att.resolved)).(error := out.error, failureClass := out.failureClass);
    OrdinaryNext(Defs(t.steps), exec, k, att.resolved);
  }

  lemma MirrorsApproval(t: Task, exec: Executor)
    requires Inv(t) && Mirrors(t, exec) && t.currentStep < |t.steps|
    requires IsApproval(t.steps[t.currentStep]) && t.steps[t.currentStep].status.WaitingApproval?
    ensures Mirrors(Approve(t, t.currentStep), exec)
  {
    hide Resolution, StarterOk, TaskLogOk, StepsLogOk, RowOk, MayBeCurrent, DistinctIds;
    var k := t.currentStep;
    var t' := Approve(t, k);
    assert StepOk(t.steps[k]);
    MirrorsInput(t, exec);
    assert Defs(t'.steps) == Defs(t.steps);
  }

  lemma IssuedIsCurrent(t: Task, att: StepAttempt)
    requires ShapeOk(t) && t.currentStep < |t.steps| && att.stepId == t.steps[t.currentStep].id
    requires 0 <= att.index < |t.steps| && Came(att, t.steps[att.index])
    ensures att.index == t.currentStep
  {
    hide StepOk, MayBeCurrent;
  }

  lemma {:induction false} MirrorsNext(id: Id, s: Sys, op: Op, t1: Time, t2: Time, exec: Executor)
    requires SysInv(s) && id in s.db && Mirrors(s.db[id], exec) && s.clock <= t1 <= t2
    requires HonestReport(s.issued, id, op, exec)
    ensures Mirrors(Perform(id, s.db[id], op, t1, t2).task, exec)
  {
    hide Perform, Mirrors, CacheOk, StarterOk, TaskLogOk, StepsLogOk, RowOk, UniqueKeys, StepOk, MayBeCurrent,
      SucceedStep, Approve, CancelFate, DeadlineFate, Fenced, RowGrows, Terminal, StepsGrow;
    var t := s.db[id];
    assert Inv(t);
    Advances(id, t, op, t1, t2);
    if Succeeds(t, op, t1) {
      assert IssuedOk(op.att, s.db);
      IssuedIsCurrent(t, op.att);
      MirrorsSuccess(t, exec, op.tok, op.att, op.out);
    } else if Approves(t, op, t1) {
      DecideGuard(t, op, t1);
      MirrorsApproval(t, exec);
    } else {
      PerformGrows(id, t, s.clock, op, t1, t2);
      MirrorsStays(t, Perform(id, t, op, t1, t2).task, exec);
    }
  }

  // ----- Over whole runs -----

  /** In every reachable state of every run with honest workers (any crashes, takeovers, retries, stale
      or duplicated calls, approvals and cancellations), the outputs of the succeeded steps and the
      checkpoint are those of the sequential reference. */
  lemma {:induction false} CrashTransparency(run: seq<Action>, id: Id, exec: Executor)
    requires Legal(run) && Honest(run, exec) && id in Final(run).db
    ensures Mirrors(Final(run).db[id], exec)
  {
    hide Inv, Perform, Mirrors, UniqueKeys, IssuedOk, NewTask, HonestReport, Insertable;
    var front, a := run[..|run| - 1], run[|run| - 1];
    ReachableInv(front);
    if a.Create? && a.id == id {
      NewMirrors(id, a.stepIds, a.d, a.t1, a.t2, exec);
    } else {
      CrashTransparency(front, id, exec);
      if a.id == id {
        MirrorsNext(id, Final(front), a.op, a.t1, a.t2, exec);
      }
    }
  }

  lemma NewMirrors(id: Id, stepIds: seq<Id>, d: Definition, t1: Time, t2: Time, exec: Executor)
    requires |stepIds| == |d.steps|
    ensures Mirrors(NewTask(id, stepIds, d, t1, t2), exec)
  {
  }

  /** A task that succeeds has done the whole definition, just as the reference does. */
  lemma {:induction false} SuccessIsReference(run: seq<Action>, id: Id, exec: Executor)
    requires Legal(run) && Honest(run, exec) && id in Final(run).db && Final(run).db[id].status.Succeeded?
    ensures var t := Final(run).db[id];
            Reference(Defs(t.steps), exec, |t.steps|) ==
            Some(Progressed(seq(|t.steps|, i requires 0 <= i < |t.steps| => t.steps[i].output), t.checkpoint))
  {
    hide Legal, Final, Honest, Reference, UniqueKeys, IssuedOk, CacheOk, StarterOk, TaskLogOk, StepsLogOk, RowOk,
      StepOk;
    CrashTransparency(run, id, exec);
    ReachableInv(run);
    var t := Final(run).db[id];
    assert Inv(t);
    var r := Reference(Defs(t.steps), exec, t.currentStep).value;
    assert r.outputs == seq(|t.steps|, i requires 0 <= i < |t.steps| => t.steps[i].output);
  }

  /** A task never gets past the point where the reference stops. */
  lemma {:induction false} NeverPassesReference(run: seq<Action>, id: Id, exec: Executor, n: nat)
    requires Legal(run) && Honest(run, exec) && id in Final(run).db
    requires n <= |Final(run).db[id].steps| && Reference(Defs(Final(run).db[id].steps), exec, n).None?
    ensures Final(run).db[id].currentStep < n && !Final(run).db[id].status.Succeeded?
  {
    hide Legal, Final, Honest, Reference, UniqueKeys, IssuedOk, CacheOk, StarterOk, TaskLogOk, StepsLogOk, RowOk,
      StepOk;
    CrashTransparency(run, id, exec);
    ReachableInv(run);
    var t := Final(run).db[id];
    assert Inv(t);
    if n <= t.currentStep {
      ReferencePrefix(Defs(t.steps), exec, n, t.currentStep);
    }
  }

  lemma {:induction false} ReferencePrefix(defs: seq<StepDef>, exec: Executor, m: nat, n: nat)
    requires m <= n <= |defs| && Reference(defs, exec, n).Some?
    ensures Reference(defs, exec, m).Some?
  {
    if m < n { ReferencePrefix(defs, exec, m, n - 1); }
  }

  // ----- Approvals have no output -----

  lemma ApprovalHasNoOutput(defs: seq<StepDef>, exec: Executor, k: nat)
    requires 0 < k < |defs| && defs[k - 1].kind == APPROVAL && Uses(defs[k].input, PREVIOUS)
    ensures Reference(defs, exec, k + 1) == None
  {
    hide Uses, WellFormed, Substitute, Storable;
  }
}
