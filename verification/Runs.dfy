/** Runs: any number of workers, schedulers and API callers, sending any transactions with any
    arguments in any order, over a database clock that never goes back. A crashed caller is one that
    sends nothing more; a lost commit response is a transaction whose reply nobody uses. */
module Runs {
  import opened Basics
  import opened Resolve
  import opened Model
  import opened Transactions
  import opened Invariant
  import opened History

  /** issued remembers every attempt that StartStep ever returned. */
  datatype Sys = Sys(db: map<Id, Task>, clock: Time, issued: set<StepAttempt>)

  datatype Action =
    | Create(id: Id, stepIds: seq<Id>, d: Definition, t1: Time, t2: Time)
    | Act(id: Id, op: Op, t1: Time, t2: Time)

  const EMPTY := Sys(map[], 0, {})

  /** The primary key, UNIQUE and CHECK constraints on a step row inserted after the given ones. */
  predicate StepInsertable(db: map<Id, Task>, inserted: seq<Step>, s: Step) {
    && s.def.maxAttempts > 0 && s.def.timeoutSeconds > 0
    && (forall i | 0 <= i < |inserted| :: inserted[i].id != s.id && inserted[i].key != s.key)
    && (forall other, i | other in db && 0 <= i < |db[other].steps| ::
        db[other].steps[i].id != s.id && db[other].steps[i].key != s.key)
  }

  predicate StepsInsertable(db: map<Id, Task>, steps: seq<Step>) {
    forall j | 0 <= j < |steps| :: StepInsertable(db, steps[..j], steps[j])
  }

  predicate Insertable(db: map<Id, Task>, id: Id, stepIds: seq<Id>, d: Definition)
    requires |stepIds| == |d.steps|
  {
    d.timeoutSeconds > 0 && StepsInsertable(db, NewSteps(id, stepIds, d.steps))
  }

  lemma InsertableMeans(db: map<Id, Task>, steps: seq<Step>)
    requires StepsInsertable(db, steps)
    ensures forall i, j | 0 <= i < j < |steps| :: steps[i].id != steps[j].id && steps[i].key != steps[j].key
    ensures forall i | 0 <= i < |steps| :: steps[i].def.maxAttempts > 0
    ensures forall other, i, j | other in db && 0 <= i < |db[other].steps| && 0 <= j < |steps| ::
            db[other].steps[i].key != steps[j].key
  {
    forall i, j | 0 <= i < j < |steps| ensures steps[i].id != steps[j].id && steps[i].key != steps[j].key {
      assert StepInsertable(db, steps[..j], steps[j]);
      assert steps[..j][i] == steps[i];
    }
    forall i | 0 <= i < |steps| ensures steps[i].def.maxAttempts > 0 {
      assert StepInsertable(db, steps[..i], steps[i]);
    }
    forall other, i, j | other in db && 0 <= i < |db[other].steps| && 0 <= j < |steps|
      ensures db[other].steps[i].key != steps[j].key
    {
      assert StepInsertable(db, steps[..j], steps[j]);
    }
  }

  lemma InsertableBudgets(db: map<Id, Task>, id: Id, stepIds: seq<Id>, d: Definition)
    requires |stepIds| == |d.steps| && Insertable(db, id, stepIds, d)
    ensures forall i | 0 <= i < |d.steps| :: d.steps[i].maxAttempts > 0
  {
    InsertableMeans(db, NewSteps(id, stepIds, d.steps));
    forall i | 0 <= i < |d.steps| ensures d.steps[i].maxAttempts > 0 {
      assert NewSteps(id, stepIds, d.steps)[i].def == d.steps[i];
    }
  }

  predicate Enabled(s: Sys, a: Action) {
    && s.clock <= a.t1 <= a.t2
    && match a
       case Create(id, stepIds, d, _, _) => id !in s.db && |stepIds| == |d.steps| && Insertable(s.db, id, stepIds, d)
       case Act(id, op, t1, t2) =>
         && id in s.db
         && (op.Claim? ==> t1 <= op.statement <= t2 && op.lease > 0)
         && (op.Renew? ==> op.lease > 0)
  }

  function Next(s: Sys, a: Action): Sys
    requires Enabled(s, a)
  {
    match a
    case Create(id, stepIds, d, t1, t2) => Sys(s.db[id := NewTask(id, stepIds, d, t1, t2)], t2, s.issued)
    case Act(id, op, t1, t2) =>
      var tx := Perform(id, s.db[id], op, t1, t2);
      Sys(s.db[id := tx.task], t2, s.issued + if tx.reply.Attempt? then {tx.reply.attempt} else {})
  }

  lemma ActMeans(s: Sys, id: Id, op: Op, t1: Time, t2: Time)
    requires Enabled(s, Act(id, op, t1, t2))
    ensures t1 <= t2
    ensures id in s.db && Next(s, Act(id, op, t1, t2)).db == s.db[id := Perform(id, s.db[id], op, t1, t2).task]
  {
    hide Perform;
  }

  predicate Legal(run: seq<Action>) {
    run == [] || (Legal(run[..|run| - 1]) && Enabled(Final(run[..|run| - 1]), run[|run| - 1]))
  }

  function Final(run: seq<Action>): Sys {
    if run == [] then EMPTY
    else if Enabled(Final(run[..|run| - 1]), run[|run| - 1]) then Next(Final(run[..|run| - 1]), run[|run| - 1])
    else Final(run[..|run| - 1])
  }

  lemma {:induction false} Extend(run: seq<Action>, a: Action)
    requires Legal(run) && Enabled(Final(run), a)
    ensures Legal(run + [a]) && Final(run + [a]) == Next(Final(run), a)
  {
    assert (run + [a])[..|run|] == run;
  }

  // ----- What holds in every reachable state -----

  /** An attempt handed out for a step carries that step's own key, definition and stored input. */
  predicate Came(att: StepAttempt, s: Step) {
    && att.stepId == s.id && att.key == s.key && att.kind == s.def.kind
    && att.maxAttempts == s.def.maxAttempts && att.timeoutSeconds == s.def.timeoutSeconds
    && s.resolved == Some(att.resolved) && 1 <= att.attempt <= s.attempt
  }

  predicate IssuedOk(att: StepAttempt, db: map<Id, Task>) {
    att.taskId in db && 0 <= att.index < |db[att.taskId].steps| && Came(att, db[att.taskId].steps[att.index])
  }

  /** An idempotency key names one step of one task. */
  predicate UniqueKeys(db: map<Id, Task>) {
    forall a, i, b, j | a in db && 0 <= i < |db[a].steps| && b in db && 0 <= j < |db[b].steps| ::
      db[a].steps[i].key == db[b].steps[j].key ==> a == b && i == j
  }

  predicate SysInv(s: Sys) {
    && (forall id | id in s.db :: Inv(s.db[id]))
    && (forall att | att in s.issued :: IssuedOk(att, s.db))
    && UniqueKeys(s.db)
  }

  /** Tasks are never deleted, and each grows. */
  predicate SysGrows(s: Sys, s': Sys) {
    && s.clock <= s'.clock && s.issued <= s'.issued
    && forall id | id in s.db :: id in s'.db && Grows(s.db[id], s.clock, s'.db[id], s'.clock)
  }

  lemma StepGrowsKeepsIssued(att: StepAttempt, s: Step, s': Step)
    requires Came(att, s) && StepGrows(s, s')
    ensures Came(att, s')
  {
  }

  lemma {:induction false} IssuedKeeps(att: StepAttempt, s: Sys, s': Sys)
    requires IssuedOk(att, s.db) && SysGrows(s, s')
    ensures IssuedOk(att, s'.db)
  {
    hide Inv, CancelFate, DeadlineFate, Fenced, RowGrows, Terminal, StepGrows;
    var t, t' := s.db[att.taskId], s'.db[att.taskId];
    assert Grows(t, s.clock, t', s'.clock);
    assert StepsGrow(t.steps, t'.steps);
    StepGrowsKeepsIssued(att, t.steps[att.index], t'.steps[att.index]);
  }

  lemma {:induction false} NextGrows(s: Sys, a: Action)
    requires SysInv(s) && Enabled(s, a)
    ensures SysGrows(s, Next(s, a))
  {
    hide Inv, Perform, Grows, Insertable;
    var s' := Next(s, a);
    forall id | id in s.db ensures id in s'.db && Grows(s.db[id], s.clock, s'.db[id], s'.clock) {
      if a.Act? && a.id == id {
        PerformGrows(id, s.db[id], s.clock, a.op, a.t1, a.t2);
      } else {
        GrowsReflexive(s.db[id], s.clock, s'.clock);
      }
    }
  }

  lemma {:induction false} SysGrowsTransitive(a: Sys, b: Sys, c: Sys)
    requires SysGrows(a, b) && SysGrows(b, c)
    ensures SysGrows(a, c)
  {
    hide Grows;
    forall id | id in a.db ensures id in c.db && Grows(a.db[id], a.clock, c.db[id], c.clock) {
      GrowsTransitive(a.db[id], a.clock, b.db[id], b.clock, c.db[id], c.clock);
    }
  }

  lemma {:induction false} SysGrowsReflexive(s: Sys)
    ensures SysGrows(s, s)
  {
    hide Grows;
    forall id | id in s.db ensures Grows(s.db[id], s.clock, s.db[id], s.clock) {
      GrowsReflexive(s.db[id], s.clock, s.clock);
    }
  }

  /** No transaction changes an idempotency key. */
  lemma {:induction false} KeysKept(s: Sys, a: Action, id: Id, i: nat)
    requires SysInv(s) && Enabled(s, a)
    requires id in s.db && i < |s.db[id].steps|
    ensures id in Next(s, a).db && |Next(s, a).db[id].steps| == |s.db[id].steps|
    ensures Next(s, a).db[id].steps[i].key == s.db[id].steps[i].key
  {
    hide Inv, Perform, Insertable, CancelFate, DeadlineFate, Fenced, RowGrows, Terminal, NewTask;
    NextGrows(s, a);
    assert Grows(s.db[id], s.clock, Next(s, a).db[id], Next(s, a).clock);
    assert StepGrows(s.db[id].steps[i], Next(s, a).db[id].steps[i]);
  }

  lemma {:induction false} NextUniqueKeys(s: Sys, a: Action)
    requires SysInv(s) && Enabled(s, a)
    ensures UniqueKeys(Next(s, a).db)
  {
    hide Inv, Perform, Grows, NewSteps, StepsInsertable;
    var db' := Next(s, a).db;
    if a.Create? { InsertableMeans(s.db, NewSteps(a.id, a.stepIds, a.d.steps)); }
    forall x, i, y, j | x in db' && 0 <= i < |db'[x].steps| && y in db' && 0 <= j < |db'[y].steps|
      ensures db'[x].steps[i].key == db'[y].steps[j].key ==> x == y && i == j
    {
      if x in s.db { LengthKept(s, a, x); KeysKept(s, a, x, i); }
      if y in s.db { LengthKept(s, a, y); KeysKept(s, a, y, j); }
    }
  }

  lemma {:induction false} LengthKept(s: Sys, a: Action, id: Id)
    requires SysInv(s) && Enabled(s, a) && id in s.db
    ensures id in Next(s, a).db && |Next(s, a).db[id].steps| == |s.db[id].steps|
  {
    hide Inv, Perform, Insertable, CancelFate, DeadlineFate, Fenced, RowGrows, Terminal, NewTask, StepGrows;
    NextGrows(s, a);
    assert Grows(s.db[id], s.clock, Next(s, a).db[id], Next(s, a).clock);
  }

  /** The attempt that StartStep returns is that of the step it started. */
  lemma StartIssues(id: Id, t: Task, tok: Token, stepId: Id, t1: Time)
    requires Inv(t) && StartTx(id, t, tok, stepId, t1).reply.Attempt?
    ensures var tx := StartTx(id, t, tok, stepId, t1); var att := tx.reply.attempt;
            att.taskId == id && 0 <= att.index < |tx.task.steps| && Came(att, tx.task.steps[att.index])
  {
    hide Resolution, StepsLogOk, TaskLogOk, StarterOk, CacheOk, RowOk;
  }

  lemma {:induction false} NextIssued(s: Sys, a: Action, att: StepAttempt)
    requires SysInv(s) && Enabled(s, a) && att in Next(s, a).issued
    ensures IssuedOk(att, Next(s, a).db)
  {
    hide Inv, Insertable, Came, UniqueKeys, Grows, StartTx, FinishTx, ClaimTx, RenewTx, WaitTx, DecideTx, CancelTx,
      CancelOwnedTx, TimeoutOwnedTx, DueControlTx, WakeRetryTx;
    NextGrows(s, a);
    if att in s.issued {
      IssuedKeeps(att, s, Next(s, a));
    } else if a.op.Start? {
      StartIssues(a.id, s.db[a.id], a.op.tok, a.op.stepId, a.t1);
    } else {
      OnlyStartIssues(a.id, s.db[a.id], a.op, a.t1, a.t2);
    }
  }

  lemma OnlyStartIssues(id: Id, t: Task, op: Op, t1: Time, t2: Time)
    requires !op.Start?
    ensures !Perform(id, t, op, t1, t2).reply.Attempt?
  {
    hide Controlled, Recover, Assign, Announce, InputFor, StartStep, AwaitApproval, Approve, Reject, FailStep,
      SucceedStep;
  }

  lemma {:induction false} NextInv(s: Sys, a: Action)
    requires SysInv(s) && Enabled(s, a)
    ensures SysInv(Next(s, a))
  {
    hide Inv, Perform, UniqueKeys, IssuedOk, StepsInsertable;
    NextUniqueKeys(s, a);
    forall att | att in Next(s, a).issued ensures IssuedOk(att, Next(s, a).db) { NextIssued(s, a, att); }
    match a
    case Create(id, stepIds, d, t1, t2) =>
      InsertableMeans(s.db, NewSteps(id, stepIds, d.steps));
      InsertableBudgets(s.db, id, stepIds, d);
      forall i, j | 0 <= i < j < |stepIds| ensures stepIds[i] != stepIds[j] {
        assert NewSteps(id, stepIds, d.steps)[i].id == stepIds[i] && NewSteps(id, stepIds, d.steps)[j].id == stepIds[j];
      }
      NewTaskInv(id, stepIds, d, t1, t2);
    case Act(id, op, t1, t2) => Preserved(id, s.db[id], op, t1, t2);
  }

  /** The invariant holds at the end of every run. */
  lemma {:induction false} ReachableInv(run: seq<Action>)
    requires Legal(run)
    ensures SysInv(Final(run))
  {
    hide Enabled, Next;
    if run != [] {
      var front := run[..|run| - 1];
      ReachableInv(front);
      NextInv(Final(front), run[|run| - 1]);
    }
  }

  /** Between any two points of a run every task grows. */
  lemma {:induction false} RunGrows(early: seq<Action>, late: seq<Action>)
    requires Legal(late) && early <= late
    ensures Legal(early) && SysGrows(Final(early), Final(late))
  {
    hide Enabled, Next;
    if early == late {
      SysGrowsReflexive(Final(late));
    } else {
      var front := late[..|late| - 1];
      RunGrows(early, front);
      ReachableInv(front);
      NextGrows(Final(front), late[|late| - 1]);
      SysGrowsTransitive(Final(early), Final(front), Final(late));
    }
  }

  /** A run is legal action by action. */
  lemma {:induction false} LegalAt(run: seq<Action>, i: nat)
    requires Legal(run) && i < |run|
    ensures Legal(run[..i]) && Enabled(Final(run[..i]), run[i])
    ensures Legal(run[..i + 1]) && Final(run[..i + 1]) == Next(Final(run[..i]), run[i])
  {
    hide Enabled, Next;
    if i == |run| - 1 {
      assert run[..i + 1] == run;
    } else {
      var front := run[..|run| - 1];
      LegalAt(front, i);
      assert front[..i] == run[..i] && front[..i + 1] == run[..i + 1];
    }
  }
}
