/** The store (internal/store/store.go): one method per transaction. A method works on its own copy of
    the locked task, statement by statement, and makes it visible at commit; a refused transaction rolls
    back. Clock reads, generated ids and the rows locked by other transactions are parameters. */
module Store {
  import opened Basics
  import opened Resolve
  import opened Model
  import opened Transactions
  import opened Invariant
  import opened Runs

  // ----- ORDER BY -----

  /** The two numbers a query sorts a row by; its id settles ties. */
  type SortKey = Id -> (int, int)

  predicate Before(key: SortKey, a: Id, b: Id) {
    var x, y := key(a), key(b);
    x.0 < y.0 || (x.0 == y.0 && (x.1 < y.1 || (x.1 == y.1 && TextLe(a, b))))
  }

  /** The row that ORDER BY key LIMIT 1 returns. */
  predicate IsFirst(id: Id, rows: set<Id>, key: SortKey) {
    id in rows && forall other | other in rows :: Before(key, id, other)
  }

  lemma BeforeTotal(key: SortKey, a: Id, b: Id)
    ensures Before(key, a, b) || Before(key, b, a)
    ensures Before(key, a, b) && Before(key, b, a) ==> a == b
  {
    TextLeTotal(a, b);
  }

  lemma BeforeTransitive(key: SortKey, a: Id, b: Id, c: Id)
    requires Before(key, a, b) && Before(key, b, c)
    ensures Before(key, a, c)
  {
    if TextLe(a, b) && TextLe(b, c) { TextLeTransitive(a, b, c); }
  }

  lemma {:induction false} FirstExists(rows: set<Id>, key: SortKey) returns (first: Id)
    requires rows != {}
    ensures IsFirst(first, rows, key)
  {
    hide Before;
    var x :| x in rows;
    BeforeTotal(key, x, x);
    if rows == {x} {
      first := x;
    } else {
      var rest := rows - {x};
      var y := FirstExists(rest, key);
      BeforeTotal(key, x, y);
      first := if Before(key, x, y) then x else y;
      forall other | other in rows ensures Before(key, first, other) {
        if other != x && first == x { BeforeTransitive(key, x, y, other); }
      }
    }
  }

  /** A query has one answer. */
  lemma FirstIsUnique(a: Id, b: Id, rows: set<Id>, key: SortKey)
    requires IsFirst(a, rows, key) && IsFirst(b, rows, key)
    ensures a == b
  {
    BeforeTotal(key, a, b);
  }

  /** ClaimTask: ORDER BY created_at, id. */
  function ClaimKey(db: map<Id, Task>): SortKey {
    (id: Id) => if id in db then (db[id].createdAt, 0) else (0, 0)
  }

  /** ProcessDueControl: cancellation, deadline, wake-up; then the wake-up time, then id. */
  function DueRank(t: Task, now: Time): int {
    if t.cancelRequested then 0 else if DeadlinePassed(t, now) then 1 else 2
  }

  function WakeTime(t: Task): Time {
    if t.status.RetryWait? && t.retryAt.Some? then t.retryAt.value else t.runAt
  }

  function DueKey(db: map<Id, Task>, now: Time): SortKey {
    (id: Id) => if id in db then (DueRank(db[id], now), WakeTime(db[id])) else (0, 0)
  }

  function RetryKey(db: map<Id, Task>): SortKey {
    (id: Id) => if id in db then (WakeTime(db[id]), 0) else (0, 0)
  }

  function ClaimableRows(db: map<Id, Task>, locked: set<Id>, now: Time): set<Id> {
    set id | id in db && id !in locked && Claimable(db[id], now)
  }

  function DueRows(db: map<Id, Task>, locked: set<Id>, now: Time): set<Id> {
    set id | id in db && id !in locked && Due(db[id], now)
  }

  function WakeableRows(db: map<Id, Task>, locked: set<Id>, now: Time): set<Id> {
    set id | id in db && id !in locked && RetryWakeable(db[id], now)
  }

  /** SKIP LOCKED passes over exactly the locked rows. */
  lemma OnlyUnlocked(db: map<Id, Task>, locked: set<Id>, now: Time, id: Id)
    ensures id in ClaimableRows(db, locked, now) <==> id in db && id !in locked && Claimable(db[id], now)
    ensures id in DueRows(db, locked, now) <==> id in db && id !in locked && Due(db[id], now)
    ensures id in WakeableRows(db, locked, now) <==> id in db && id !in locked && RetryWakeable(db[id], now)
  {
  }

  /** What the orders mean for the row that comes first. */
  lemma ClaimOrder(db: map<Id, Task>, rows: set<Id>, chosen: Id, other: Id)
    requires IsFirst(chosen, rows, ClaimKey(db)) && rows <= db.Keys && other in rows
    ensures db[chosen].createdAt <= db[other].createdAt
    ensures db[chosen].createdAt == db[other].createdAt ==> TextLe(chosen, other)
  {
    assert Before(ClaimKey(db), chosen, other);
  }

  lemma DueOrder(db: map<Id, Task>, rows: set<Id>, now: Time, chosen: Id, other: Id)
    requires IsFirst(chosen, rows, DueKey(db, now)) && rows <= db.Keys && other in rows
    ensures db[other].cancelRequested ==> db[chosen].cancelRequested
    ensures var late := (t: Task) => t.deadlineAt.Some? && t.deadlineAt.value <= now;
            late(db[other]) ==> db[chosen].cancelRequested || late(db[chosen])
    ensures var wake := (t: Task) => if t.status.RetryWait? && t.retryAt.Some? then t.retryAt.value else t.runAt;
            DueRank(db[chosen], now) == DueRank(db[other], now) ==>
              && wake(db[chosen]) <= wake(db[other])
              && (wake(db[chosen]) == wake(db[other]) ==> TextLe(chosen, other))
  {
    assert Before(DueKey(db, now), chosen, other);
  }

  lemma RetryOrder(db: map<Id, Task>, rows: set<Id>, chosen: Id, other: Id)
    requires IsFirst(chosen, rows, RetryKey(db)) && rows <= db.Keys && chosen in rows && other in rows
    requires db[chosen].status.RetryWait? && db[other].status.RetryWait?
    requires db[chosen].retryAt.Some? && db[other].retryAt.Some?
    ensures db[chosen].retryAt.value <= db[other].retryAt.value
    ensures db[chosen].retryAt == db[other].retryAt ==> TextLe(chosen, other)
  {
    assert Before(RetryKey(db), chosen, other);
  }

  method SelectFirst(rows: set<Id>, key: SortKey) returns (first: Option<Id>)
    ensures first.None? <==> rows == {}
    ensures first.Some? ==> IsFirst(first.value, rows, key)
    ensures forall other | IsFirst(other, rows, key) :: first == Some(other)
  {
    hide Before;
    if rows == {} { return None; }
    ghost var least := FirstExists(rows, key);
    var id :| IsFirst(id, rows, key);
    forall other | IsFirst(other, rows, key) ensures other == id { FirstIsUnique(id, other, rows, key); }
    return Some(id);
  }

  class Store {
    var db: map<Id, Task>
    /** The latest database clock read. */
    var clock: Time
    const leaseDuration: Time
    ghost var issued: set<StepAttempt>
    /** The transactions so far. */
    ghost var run: seq<Action>

    /** The database is at the end of a legal run. */
    ghost predicate Valid()
      reads this
    {
      leaseDuration > 0 && Legal(run) && Final(run) == Sys(db, clock, issued)
    }

    /** Attaches to a database in use since run began, or to an empty one when past is []. */
    constructor (lease: Time, database: map<Id, Task>, now: Time, ghost handedOut: set<StepAttempt>,
                 ghost past: seq<Action>)
      requires Legal(past) && Final(past) == Sys(database, now, handedOut)
      ensures Valid() && run == past && db == database && clock == now && issued == handedOut
      ensures leaseDuration == if lease <= 0 then 30 * SECOND else lease
    {
      leaseDuration := if lease <= 0 then 30 * SECOND else lease;
      db, clock, issued, run := database, now, handedOut, past;
    }

    /** The transaction op on task id happened, and this was its reply. */
    twostate predicate Performed(id: Id, op: Op, t1: Time, t2: Time, reply: Reply)
      reads this
    {
      && id in old(db)
      && reply == Perform(id, old(db[id]), op, t1, t2).reply
      && db == old(db)[id := Perform(id, old(db[id]), op, t1, t2).task]
      && clock == t2 && run == old(run) + [Act(id, op, t1, t2)]
    }

    twostate predicate Unchanged()
      reads this
    {
      db == old(db) && clock == old(clock) && issued == old(issued) && run == old(run)
    }

    /** COMMIT, or ROLLBACK when tx is the row as it was. */
    method Close(id: Id, tx: Task, reply: Reply, ghost op: Op, t1: Time, t2: Time)
      requires Valid() && id in db
      requires Enabled(Final(run), Act(id, op, t1, t2))
      requires Tx(tx, reply) == Perform(id, db[id], op, t1, t2)
      modifies this
      ensures Valid() && Performed(id, op, t1, t2, reply)
    {
      ghost var a := Act(id, op, t1, t2);
      Extend(run, a);
      db := db[id := tx];
      clock := t2;
      issued := issued + if reply.Attempt? then {reply.attempt} else {};
      run := run + [a];
    }

    method CreateTask(id: Id, stepIds: seq<Id>, d: Definition, t1: Time, t2: Time) returns (r: Result<Task, Err>)
      requires Valid() && clock <= t1 <= t2
      requires |stepIds| == |d.steps|
      modifies this
      ensures Valid()
      ensures r.Success? <==> id !in old(db) && Insertable(old(db), id, stepIds, d)
      ensures r.Success? ==> r.value == NewTask(id, stepIds, d, t1, t2) && db == old(db)[id := r.value]
      ensures r.Success? ==> run == old(run) + [Create(id, stepIds, d, t1, t2)]
      ensures r.Failure? ==> Unchanged()
    {
      if id in db || d.timeoutSeconds <= 0 { return Failure(Invalid); }
      var runAt := if d.runAt.Some? then d.runAt.value else t1;
      var status := if t1 < runAt then TaskStatus.Scheduled else TaskStatus.Runnable;
      var steps := InsertSteps(db, id, stepIds, d.steps);
      if steps.None? { return Failure(Invalid); }
      var tx := Task(status, t2, runAt, d.timeoutSeconds, None, 0, None, None, false, 0, EMPTY_CHECKPOINT, None,
                     None, steps.value, []);
      tx := tx.(log := tx.log + [TaskCreated(|d.steps|)]);
      if tx.status.Scheduled? {
        tx := tx.(log := tx.log + [TaskScheduled(tx.runAt)]);
      }
      ghost var a := Create(id, stepIds, d, t1, t2);
      assert [TaskCreated(|d.steps|)] == [] + [TaskCreated(|d.steps|)] == [TaskCreated(|d.steps|)] + [];
      assert tx == NewTask(id, stepIds, d, t1, t2);
      Extend(run, a);
      db := db[id := tx];
      clock := t2;
      run := run + [a];
      return Success(tx);
    }

    /** Inserts the step rows one by one; None when a constraint is violated. */
    static method InsertSteps(db: map<Id, Task>, id: Id, stepIds: seq<Id>, defs: seq<StepDef>)
      returns (inserted: Option<seq<Step>>)
      requires |stepIds| == |defs|
      ensures inserted.Some? <==> StepsInsertable(db, NewSteps(id, stepIds, defs))
      ensures inserted.Some? ==> inserted.value == NewSteps(id, stepIds, defs)
    {
      var steps := [];
      ghost var all := NewSteps(id, stepIds, defs);
      for index := 0 to |defs|
        invariant steps == all[..index]
        invariant forall i | 0 <= i < index :: StepInsertable(db, all[..i], all[i])
      {
        var step := NewStep(id, stepIds[index], defs[index]);
        assert step == all[index];
        if !StepInsertable(db, steps, step) { return None; }
        steps := steps + [step];
      }
      return Some(steps);
    }

    method ClaimTask(worker: string, locked: set<Id>, t1: Time, statement: Time, t2: Time)
      returns (chosen: Option<Id>, reply: Reply)
      requires Valid() && clock <= t1 <= statement <= t2
      modifies this
      ensures Valid()
      ensures worker == "" ==> chosen.None? && reply == Refused(Invalid) && Unchanged()
      ensures worker != "" && ClaimableRows(old(db), locked, t1) == {} ==>
              chosen.None? && reply == Refused(NoTask) && Unchanged()
      ensures worker != "" && ClaimableRows(old(db), locked, t1) != {} ==>
                && chosen.Some? && IsFirst(chosen.value, ClaimableRows(old(db), locked, t1), ClaimKey(old(db)))
                && Performed(chosen.value, Claim(worker, leaseDuration, statement), t1, t2, reply)
    {
      chosen := None;
      if worker == "" { return None, Refused(Invalid); }
      chosen := SelectFirst(ClaimableRows(db, locked, t1), ClaimKey(db));
      if chosen.None? { return None, Refused(NoTask); }
      var id := chosen.value;
      var tx := db[id];
      reply, tx := ClaimIn(tx, worker, leaseDuration, t1, statement, t2);
      Close(id, tx, reply, Claim(worker, leaseDuration, statement), t1, t2);
    }

    static method ClaimIn(t: Task, worker: string, lease: Time, ghost t1: Time, statement: Time, t2: Time)
      returns (reply: Reply, tx: Task)
      requires worker != "" && Claimable(t, t1)
      ensures Tx(tx, reply) == ClaimTx(t, worker, lease, t1, statement, t2)
    {
      tx := t;
      var previousWorker, previousVersion, takeover := tx.workerId, tx.leaseVersion, tx.status.Running?;
      if takeover {
        var ended;
        tx, ended := RecoverExpiredTask(tx);
        if ended { return Refused(NoTask), tx; }
      }
      tx := tx.(status := TaskStatus.Running, workerId := Some(worker), leaseVersion := tx.leaseVersion + 1,
                leaseExpiresAt := Some(t2 + lease));
      if tx.firstStartedAt.None? { tx := tx.(firstStartedAt := Some(statement)); }
      if tx.deadlineAt.None? { tx := tx.(deadlineAt := Some(statement + tx.timeoutSeconds * SECOND)); }
      if takeover {
        tx := tx.(log := tx.log + [TaskRecovered(previousWorker, previousVersion, worker, tx.leaseVersion)]);
      }
      tx := tx.(log := tx.log + [TaskClaimed(worker, tx.leaseVersion)]);
      return Granted(Token(worker, tx.leaseVersion), t2 + lease, tx.deadlineAt.value), tx;
    }

    static method RecoverExpiredTask(t: Task) returns (tx: Task, ended: bool)
      requires t.status.Running?
      ensures tx == Recover(t) && ended == Terminal(Recover(t).status)
      ensures !ended ==> tx.workerId == t.workerId && tx.leaseVersion == t.leaseVersion
    {
      tx := t.(log := t.log + [LeaseExpired(t.workerId, t.leaseVersion)]);
      if |tx.steps| <= tx.currentStep {
        tx := tx.(status := TaskStatus.Succeeded, workerId := None, leaseExpiresAt := None);
        tx := tx.(log := tx.log + [TaskSucceeded]);
        return tx, true;
      }
      var s := tx.steps[tx.currentStep];
      if !s.status.Running? { return tx, false; }
      tx := tx.(steps := tx.steps[tx.currentStep := s.(status := StepStatus.Failed, error := Some("worker_lost"))]);
      var owner := if t.workerId.Some? then Some(Token(t.workerId.value, t.leaseVersion)) else None;
      tx := tx.(log := tx.log + [StepFailed(s.id, tx.currentStep, s.attempt, "worker_lost", owner)]);
      if s.attempt < s.def.maxAttempts { return tx, false; }
      tx := tx.(status := TaskStatus.Failed, workerId := None, leaseExpiresAt := None);
      tx := tx.(log := tx.log + [TaskFailed]);
      return tx, true;
    }

    method RenewLease(id: Id, tok: Token, t1: Time, t2: Time) returns (reply: Reply)
      requires Valid() && clock <= t1 <= t2
      modifies this
      ensures Valid()
      ensures id !in old(db) ==> reply == Refused(NotFound) && Unchanged()
      ensures id in old(db) ==> Performed(id, Renew(tok, leaseDuration), t1, t2, reply)
    {
      if id !in db { return Refused(NotFound); }
      var tx := db[id];
      var error := OwnershipError(tx, tok, t1);
      if error.Some? {
        reply := Refused(error.value);
      } else {
        tx := tx.(leaseExpiresAt := Some(t2 + leaseDuration));
        reply := Done;
      }
      Close(id, tx, reply, Renew(tok, leaseDuration), t1, t2);
    }

    /** The input of a step about to start or to wait: the stored one, or the configured one resolved. */
    static method InputOf(tx: Task, k: nat) returns (input: Option<Json>)
      requires k < |tx.steps|
      ensures input == InputFor(tx, k)
    {
      var s := tx.steps[k];
      if s.resolved.Some? { return s.resolved; }
      var previous: Option<Json> := None;
      if k > 0 { previous := tx.steps[k - 1].output; }
      var r := ResolveInput(s.def.input, previous, tx.checkpoint);
      return if r.Success? then Some(r.value) else None;
    }

    method StartStep(id: Id, tok: Token, stepId: Id, t1: Time, t2: Time) returns (reply: Reply)
      requires Valid() && clock <= t1 <= t2
      modifies this
      ensures Valid()
      ensures id !in old(db) ==> reply == Refused(NotFound) && Unchanged()
      ensures id in old(db) ==> Performed(id, Start(tok, stepId), t1, t2, reply)
    {
      if id !in db { return Refused(NotFound); }
      var tx := db[id];
      reply, tx := StartIn(id, tx, tok, stepId, t1);
      Close(id, tx, reply, Start(tok, stepId), t1, t2);
    }

    static method StartIn(id: Id, t: Task, tok: Token, stepId: Id, t1: Time) returns (reply: Reply, tx: Task)
      ensures Tx(tx, reply) == StartTx(id, t, tok, stepId, t1)
    {
      tx := t;
      var error := OwnershipError(tx, tok, t1);
      if error.Some? { return Refused(error.value), tx; }
      var found := Lookup(tx.steps, stepId);
      if found.None? { return Refused(Conflict), tx; }
      var k := found.value;
      var s := tx.steps[k];
      if s.def.kind == APPROVAL { return Refused(Conflict), tx; }
      if k != tx.currentStep || (!s.status.Pending? && !s.status.Failed?) || s.attempt >= s.def.maxAttempts {
        return Refused(Conflict), tx;
      }
      if !PredecessorsSucceeded(tx.steps, k) { return Refused(Conflict), tx; }
      var input := InputOf(tx, k);
      if input.None? { return Refused(Invalid), tx; }
      s := s.(status := StepStatus.Running, attempt := s.attempt + 1, resolved := input, error := None);
      tx := tx.(steps := tx.steps[k := s]);
      tx := tx.(log := tx.log + [StepStarted(stepId, k, s.attempt, tok.worker, tok.version)]);
      reply := Attempt(StepAttempt(id, s.id, k, s.def.kind, s.attempt, s.def.maxAttempts, s.key, input.value,
                                   s.def.timeoutSeconds));
    }

    method WaitForApproval(id: Id, tok: Token, stepId: Id, t1: Time, t2: Time) returns (reply: Reply)
      requires Valid() && clock <= t1 <= t2
      modifies this
      ensures Valid()
      ensures id !in old(db) ==> reply == Refused(NotFound) && Unchanged()
      ensures id in old(db) ==> Performed(id, Wait(tok, stepId), t1, t2, reply)
    {
      if id !in db { return Refused(NotFound); }
      var tx := db[id];
      reply, tx := WaitIn(tx, tok, stepId, t1);
      Close(id, tx, reply, Wait(tok, stepId), t1, t2);
    }

    static method WaitIn(t: Task, tok: Token, stepId: Id, t1: Time) returns (reply: Reply, tx: Task)
      ensures Tx(tx, reply) == WaitTx(t, tok, stepId, t1)
    {
      tx := t;
      var error := OwnershipError(tx, tok, t1);
      if error.Some? { return Refused(error.value), tx; }
      var found := Lookup(tx.steps, stepId);
      if found.None? { return Refused(Conflict), tx; }
      var k := found.value;
      var s := tx.steps[k];
      if s.def.kind != APPROVAL || k != tx.currentStep || !s.status.Pending? || s.attempt != 0 {
        return Refused(Conflict), tx;
      }
      if !PredecessorsSucceeded(tx.steps, k) { return Refused(Conflict), tx; }
      var input := InputOf(tx, k);
      if input.None? { return Refused(Invalid), tx; }
      tx := tx.(steps := tx.steps[k := s.(status := StepStatus.WaitingApproval, resolved := input, error := None)]);
      tx := tx.(status := TaskStatus.WaitingApproval, workerId := None, leaseExpiresAt := None, retryAt := None);
      tx := tx.(log := tx.log + [TaskWaitingApproval(stepId, k)]);
      return Done, tx;
    }

    method DecideApproval(id: Id, stepId: Id, decision: string, t1: Time, t2: Time) returns (reply: Reply)
      requires Valid() && clock <= t1 <= t2
      modifies this
      ensures Valid()
      ensures decision != APPROVED && decision != REJECTED ==> reply == Refused(Conflict) && Unchanged()
      ensures (decision == APPROVED || decision == REJECTED) && id !in old(db) ==>
              reply == Refused(NotFound) && Unchanged()
      ensures (decision == APPROVED || decision == REJECTED) && id in old(db) ==>
                Performed(id, Decide(stepId, decision), t1, t2, reply)
    {
      if decision != APPROVED && decision != REJECTED { return Refused(Conflict); }
      if id !in db { return Refused(NotFound); }
      var tx := db[id];
      reply, tx := DecideIn(tx, stepId, decision, t1);
      Close(id, tx, reply, Decide(stepId, decision), t1, t2);
    }

    static method DecideIn(t: Task, stepId: Id, decision: string, t1: Time) returns (reply: Reply, tx: Task)
      requires decision == APPROVED || decision == REJECTED
      ensures Tx(tx, reply) == DecideTx(t, stepId, decision, t1)
    {
      tx := t;
      var found := Lookup(tx.steps, stepId);
      if found.None? { return Refused(NotFound), tx; }
      var k := found.value;
      var s := tx.steps[k];
      if s.decision.Some? {
        if s.decision.value != decision { return Refused(Conflict), tx; }
        return Decided(s.decision.value, tx.status), tx;
      }
      if !tx.status.WaitingApproval? || s.def.kind != APPROVAL || !s.status.WaitingApproval? || k != tx.currentStep {
        return Refused(Conflict), tx;
      }
      if tx.cancelRequested || DeadlinePassed(tx, t1) { return Refused(Conflict), tx; }
      if decision == APPROVED {
        var nextStep := k + 1;
        var status := TaskStatus.Runnable;
        if nextStep == |tx.steps| { status := TaskStatus.Succeeded; }
        tx := tx.(steps := tx.steps[k := s.(decision := Some(APPROVED), status := StepStatus.Succeeded,
                                            error := None)]);
        tx := tx.(status := status, currentStep := nextStep, workerId := None, leaseExpiresAt := None, retryAt := None);
        tx := tx.(log := tx.log + [TaskApproved(stepId, k, decision)]);
        if status.Succeeded? { tx := tx.(log := tx.log + [TaskSucceeded]); }
        return Decided(decision, status), tx;
      }
      tx := tx.(steps := tx.steps[k := s.(decision := Some(REJECTED), status := StepStatus.Failed,
                                          error := Some(REJECTION))]);
      tx := tx.(status := TaskStatus.Failed, workerId := None, leaseExpiresAt := None, retryAt := None);
      tx := tx.(log := tx.log + [TaskRejected(stepId, k, decision)]);
      tx := tx.(log := tx.log + [TaskFailed]);
      return Decided(decision, TaskStatus.Failed), tx;
    }

    method FinishStep(id: Id, tok: Token, att: StepAttempt, out: Outcome, t1: Time, t2: Time) returns (reply: Reply)
      requires Valid() && clock <= t1 <= t2
      modifies this
      ensures Valid()
      ensures id !in old(db) ==> reply == Refused(NotFound) && Unchanged()
      ensures id in old(db) ==> Performed(id, Finish(tok, att, out), t1, t2, reply)
    {
      if id !in db { return Refused(NotFound); }
      var tx := db[id];
      reply, tx := FinishIn(tx, tok, att, out, t1, t2);
      Close(id, tx, reply, Finish(tok, att, out), t1, t2);
    }

    static method FinishIn(t: Task, tok: Token, att: StepAttempt, reported: Outcome, t1: Time, t2: Time)
      returns (reply: Reply, tx: Task)
      ensures Tx(tx, reply) == FinishTx(t, tok, att, reported, t1, t2)
    {
      tx := t;
      var owner := OwnershipError(tx, tok, t1);
      if owner.Some? { return Refused(owner.value), tx; }
      var found := Lookup(tx.steps, att.stepId);
      if found.None? { return Refused(Conflict), tx; }
      var k := found.value;
      var s := tx.steps[k];
      if !s.status.Running? || s.attempt != att.attempt || k != tx.currentStep { return Refused(Conflict), tx; }
      var error := reported.error;
      if reported.output.size > MAX_JSON_BYTES { error := "output_too_large"; }
      if reported.checkpoint.size > MAX_JSON_BYTES { error := "checkpoint_too_large"; }
      if error != "" {
        tx := tx.(steps := tx.steps[k := s.(status := StepStatus.Failed, output := None, error := Some(error))]);
        var retrying := reported.failureClass.Temporary? && att.attempt < s.def.maxAttempts;
        if retrying {
          var delay := Pow2(if att.attempt - 1 < 6 then att.attempt - 1 else 6);
          if delay > 60 { delay := 60; }
          tx := tx.(status := TaskStatus.RetryWait, retryAt := Some(t2 + delay * SECOND), workerId := None,
                    leaseExpiresAt := None);
        } else {
          tx := tx.(status := TaskStatus.Failed, retryAt := None, workerId := None, leaseExpiresAt := None);
        }
        tx := tx.(log := tx.log + [StepFailed(att.stepId, att.index, att.attempt, error, Some(tok))]);
        if !retrying { tx := tx.(log := tx.log + [TaskFailed]); }
        if retrying { tx := tx.(log := tx.log + [TaskRetryWait(att.stepId, att.attempt)]); }
        return Done, tx;
      }
      if reported.output.size == 0 || reported.output.json.None? { return Refused(Invalid), tx; }
      if reported.checkpoint.size > 0 && reported.checkpoint.json.None? { return Refused(Invalid), tx; }
      tx := tx.(steps := tx.steps[k := s.(status := StepStatus.Succeeded, output := reported.output.json,
                                          error := None)]);
      var terminal := k + 1 == |tx.steps|;
      tx := tx.(currentStep := k + 1);
      if reported.checkpoint.size > 0 { tx := tx.(checkpoint := reported.checkpoint.json.value); }
      if terminal { tx := tx.(status := TaskStatus.Succeeded, workerId := None, leaseExpiresAt := None); }
      tx := tx.(log := tx.log + [StepSucceeded(att.stepId, att.index, att.attempt, tok.worker, tok.version)]);
      if terminal { tx := tx.(log := tx.log + [TaskSucceeded]); }
      return Done, tx;
    }

    static method FinishControlledTask(t: Task, e: Ending) returns (tx: Task)
      ensures tx == Controlled(t, e)
    {
      tx := t;
      if tx.currentStep < |tx.steps| && !tx.steps[tx.currentStep].status.Succeeded? {
        var s := tx.steps[tx.currentStep];
        tx := tx.(steps := tx.steps[tx.currentStep := s.(status := StepStatus.Failed, output := None,
                                                         error := Some(Reason(e)))]);
        tx := tx.(log := tx.log + [StepFailed(s.id, tx.currentStep, s.attempt, Reason(e), None)]);
      }
      tx := tx.(retryAt := None, workerId := None, leaseExpiresAt := None);
      match e {
        case ByCancel =>
          tx := tx.(status := TaskStatus.Cancelled, log := tx.log + [TaskCancelled(tx.currentStep, Reason(e))]);
        case ByTimeout =>
          tx := tx.(status := TaskStatus.TimedOut, log := tx.log + [TaskTimedOut(tx.currentStep, Reason(e))]);
      }
    }

    method TimeoutOwnedTask(id: Id, tok: Token, t1: Time, t2: Time) returns (reply: Reply)
      requires Valid() && clock <= t1 <= t2
      modifies this
      ensures Valid()
      ensures id !in old(db) ==> reply == Refused(NotFound) && Unchanged()
      ensures id in old(db) ==> Performed(id, TimeoutOwned(tok), t1, t2, reply)
    {
      if id !in db { return Refused(NotFound); }
      var tx := db[id];
      if tx.status.TimedOut? {
        reply := Done;
      } else if !Owns(tx, tok, t1) {
        reply := Refused(LeaseLost);
      } else if tx.cancelRequested {
        reply := Refused(TaskCancelledErr);
      } else if !DeadlinePassed(tx, t1) {
        reply := Refused(Conflict);
      } else {
        tx := FinishControlledTask(tx, ByTimeout);
        reply := Done;
      }
      Close(id, tx, reply, TimeoutOwned(tok), t1, t2);
    }

    method CancelTask(id: Id, t1: Time, t2: Time) returns (reply: Reply)
      requires Valid() && clock <= t1 <= t2
      modifies this
      ensures Valid()
      ensures id !in old(db) ==> reply == Refused(NotFound) && Unchanged()
      ensures id in old(db) ==> Performed(id, Cancel, t1, t2, reply)
    {
      if id !in db { return Refused(NotFound); }
      var tx := db[id];
      if tx.status.Cancelled? {
        reply := CancelledNow;
      } else if Terminal(tx.status) {
        reply := Refused(Conflict);
      } else if tx.status.Running? {
        tx := tx.(cancelRequested := true);
        reply := CancellationRequested;
      } else {
        tx := FinishControlledTask(tx, ByCancel);
        reply := CancelledNow;
      }
      Close(id, tx, reply, Cancel, t1, t2);
    }

    method CancelOwnedTask(id: Id, tok: Token, t1: Time, t2: Time) returns (reply: Reply)
      requires Valid() && clock <= t1 <= t2
      modifies this
      ensures Valid()
      ensures id !in old(db) ==> reply == Refused(NotFound) && Unchanged()
      ensures id in old(db) ==> Performed(id, CancelOwned(tok), t1, t2, reply)
    {
      if id !in db { return Refused(NotFound); }
      var tx := db[id];
      if tx.status.Cancelled? {
        reply := Done;
      } else if !Owns(tx, tok, t1) {
        reply := Refused(LeaseLost);
      } else if !tx.cancelRequested {
        reply := Refused(Conflict);
      } else {
        tx := FinishControlledTask(tx, ByCancel);
        reply := Done;
      }
      Close(id, tx, reply, CancelOwned(tok), t1, t2);
    }

    /** One scheduler transition. With a row selected, progress is made: between the two clock reads a
        due task stays due, so the branch that does nothing is never taken. */
    method ProcessDueControl(locked: set<Id>, t1: Time, t2: Time) returns (chosen: Option<Id>, processed: bool)
      requires Valid() && clock <= t1 <= t2
      modifies this
      ensures Valid()
      ensures DueRows(old(db), locked, t1) == {} ==> chosen.None? && !processed && Unchanged()
      ensures DueRows(old(db), locked, t1) != {} ==>
                && chosen.Some? && IsFirst(chosen.value, DueRows(old(db), locked, t1), DueKey(old(db), t1))
                && processed && Performed(chosen.value, DueControl, t1, t2, Processed(true))
    {
      chosen := SelectFirst(DueRows(db, locked, t1), DueKey(db, t1));
      if chosen.None? { return None, false; }
      var id := chosen.value;
      var tx := db[id];
      if tx.cancelRequested {
        tx := FinishControlledTask(tx, ByCancel);
      } else if DeadlinePassed(tx, t2) {
        tx := FinishControlledTask(tx, ByTimeout);
      } else if RetryDue(tx, t2) {
        tx := tx.(status := TaskStatus.Runnable, retryAt := None);
        tx := tx.(log := tx.log + [TaskRetryReady]);
      } else if ScheduleDue(tx, t2) {
        tx := tx.(status := TaskStatus.Runnable);
        tx := tx.(log := tx.log + [TaskRunnable(tx.runAt)]);
      } else {
        assert false;
      }
      Close(id, tx, Processed(true), DueControl, t1, t2);
      return chosen, true;
    }

    method WakeDueRetry(locked: set<Id>, t1: Time, t2: Time) returns (chosen: Option<Id>, processed: bool)
      requires Valid() && clock <= t1 <= t2
      modifies this
      ensures Valid()
      ensures WakeableRows(old(db), locked, t1) == {} ==> chosen.None? && !processed && Unchanged()
      ensures WakeableRows(old(db), locked, t1) != {} ==>
                && chosen.Some? && IsFirst(chosen.value, WakeableRows(old(db), locked, t1), RetryKey(old(db)))
                && processed && Performed(chosen.value, WakeRetry, t1, t2, Processed(true))
    {
      chosen := SelectFirst(WakeableRows(db, locked, t1), RetryKey(db));
      if chosen.None? { return None, false; }
      var id := chosen.value;
      var tx := db[id];
      tx := tx.(status := TaskStatus.Runnable, retryAt := None);
      tx := tx.(log := tx.log + [TaskRetryReady]);
      Close(id, tx, Processed(true), WakeRetry, t1, t2);
      return chosen, true;
    }
  }
}
