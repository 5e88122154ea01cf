/** The scheduler's inner loop (internal/scheduler/scheduler.go): process due tasks until none is due. */
module Scheduler {
  import opened Basics
  import opened Model
  import opened Transactions
  import opened Runs
  import opened Store

  /** What one transition makes of a due task when both clock reads give the same time: no longer due. */
  lemma ProcessedIsNotDue(t: Task, now: Time)
    requires Due(t, now)
    ensures !Due(DueControlTx(t, now, now).task, now)
  {
  }

  /** The task the query picks decides the round: a requested cancellation anywhere is served before any
      deadline, a passed deadline before any wake-up, and a deadline that passes between the two clock
      reads still wins over the wake-up it was picked for. */
  lemma ServiceOrder(db: map<Id, Task>, locked: set<Id>, t1: Time, t2: Time, chosen: Id, other: Id)
    requires t1 <= t2 && IsFirst(chosen, DueRows(db, locked, t1), DueKey(db, t1))
    requires other in DueRows(db, locked, t1)
    ensures DueControlTx(db[chosen], t1, t2).reply == Processed(true)
    ensures db[other].cancelRequested ==> DueControlTx(db[chosen], t1, t2).task.status.Cancelled?
    ensures DeadlinePassed(db[other], t1) ==>
              var s := DueControlTx(db[chosen], t1, t2).task.status; s.Cancelled? || s.TimedOut?
    ensures DueControlTx(db[chosen], t1, t2).task.status.Runnable? ==> !DeadlinePassed(db[chosen], t2)
    ensures DueRank(db[other], t1) == DueRank(db[chosen], t1) ==> WakeTime(db[chosen]) <= WakeTime(db[other])
  {
    assert Before(DueKey(db, t1), chosen, other);
  }

  /** The tasks after each due one has been processed once. */
  predicate Drained(before: map<Id, Task>, after: map<Id, Task>, processed: set<Id>, now: Time) {
    && after.Keys == before.Keys && processed <= DueRows(before, {}, now)
    && forall id | id in before ::
       after[id] == if id in processed then DueControlTx(before[id], now, now).task else before[id]
  }

  lemma DrainedDue(before: map<Id, Task>, after: map<Id, Task>, processed: set<Id>, now: Time)
    requires Drained(before, after, processed, now)
    ensures DueRows(after, {}, now) == DueRows(before, {}, now) - processed
  {
    hide Due, DueControlTx;
    forall id | id in processed ensures id !in DueRows(after, {}, now) {
      ProcessedIsNotDue(before[id], now);
    }
  }

  lemma DrainedNone(before: map<Id, Task>, now: Time)
    ensures Drained(before, before, {}, now)
  {
  }

  lemma FirstIsRow(id: Id, rows: set<Id>, key: SortKey)
    requires IsFirst(id, rows, key)
    ensures id in rows
  {
  }

  /** One more round. */
  lemma DrainedOne(before: map<Id, Task>, after: map<Id, Task>, processed: set<Id>, id: Id, now: Time)
    requires Drained(before, after, processed, now) && id in DueRows(after, {}, now)
    ensures id in DueRows(before, {}, now) - processed
    ensures Drained(before, after[id := Perform(id, after[id], DueControl, now, now).task], processed + {id}, now)
  {
    hide Due, DueControlTx;
    DrainedDue(before, after, processed, now);
  }

  /** With the clock standing still and nobody else at work, the loop ends after exactly as many rounds as
      there are due tasks; each of them has made its one transition, every other task is as it was, and
      nothing is left due. */
  method Drain(store: Store, now: Time) returns (rounds: nat)
    requires store.Valid() && store.clock <= now
    modifies store
    ensures store.Valid()
    ensures rounds == |old(DueRows(store.db, {}, now))|
    ensures Drained(old(store.db), store.db, old(DueRows(store.db, {}, now)), now)
    ensures DueRows(store.db, {}, now) == {}
  {
    hide Perform, Legal, Final, Due, Drained, IsFirst, Before, DueRows, DueKey;
    ghost var before := store.db;
    ghost var due := DueRows(before, {}, now);
    ghost var done: set<Id> := {};
    rounds := 0;
    DrainedNone(before, now);
    while true
      invariant store.Valid() && store.clock <= now
      invariant done <= due && rounds == |done|
      invariant Drained(before, store.db, done, now)
      decreases |due - done|
    {
      ghost var left := due - done;
      ghost var current := store.db;
      DrainedDue(before, current, done, now);
      var chosen, processed := store.ProcessDueControl({}, now, now);
      if !processed {
        assert due == done;
        return;
      }
      FirstIsRow(chosen.value, DueRows(current, {}, now), DueKey(current, now));
      DrainedOne(before, current, done, chosen.value, now);
      done := done + {chosen.value};
      assert due - done == left - {chosen.value};
      rounds := rounds + 1;
    }
  }
}
