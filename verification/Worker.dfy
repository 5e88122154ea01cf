/** The worker's step loop (internal/worker/worker.go). Other workers, the scheduler, API callers and
    this worker's own heartbeat act between any two of its calls. */
module Worker {
  import opened Basics
  import opened Resolve
  import opened Model
  import opened Transactions
  import opened Happenings
  import opened Invariant
  import opened History
  import opened Runs
  import opened Store
  import opened Guards
  import opened Columns
  import opened Answers
  import opened EventLog
  import opened Tenure
  import B = Blocked
  import C = CommitChecks
  import R = Reference
  import A = Availability
  import G = Guarantees

  /** What executing an attempt came to. */
  datatype Execution =
    | Produced(product: R.Product)
    | Errored(text: string, failureClass: FailureClass)

  /** What the worker reports: a success carries no failure class. */
  function ReportOf(e: Execution): Outcome {
    match e
    case Produced(product) => R.ReportOf(product)
    case Errored(text, failureClass) => Outcome(Bytes(0, None), Bytes(0, None), text, failureClass)
  }

  /** The n-th execution of this worker; it may fail in any way, but what it produces is exec's. */
  type Runner = (StepAttempt, nat) -> Execution

  ghost predicate Faithful(run: Runner, exec: R.Executor) {
    forall att, n ::
      match run(att, n)
      case Produced(product) => product == exec(att.kind, att.resolved)
      case Errored(text, _) => text != ""
  }

  lemma ReportIsHonest(run: Runner, exec: R.Executor, att: StepAttempt, n: nat, issued: set<StepAttempt>, id: Id,
                       tok: Token)
    requires Faithful(run, exec) && att in issued && att.taskId == id
    ensures R.HonestReport(issued, id, Finish(tok, att, ReportOf(run(att, n))), exec)
  {
  }

  /** An output over the limit is recorded as a failure that is never retried, whatever budget is left,
      because the worker reports success without a failure class. */
  lemma OversizedNeverRetries(t: Task, tok: Token, att: StepAttempt, product: R.Product, t1: Time, t2: Time)
    requires product.output.size > MAX_JSON_BYTES || product.checkpoint.size > MAX_JSON_BYTES
    requires FinishTx(t, tok, att, ReportOf(Produced(product)), t1, t2).reply == Done
    ensures FinishTx(t, tok, att, ReportOf(Produced(product)), t1, t2).task.status.Failed?
  {
  }

  // ----- The state between calls -----

  ghost predicate Ready(store: Store, id: Id, tok: Token, exec: R.Executor)
    reads store
  {
    && store.Valid() && id in store.db && tok.version <= store.db[id].leaseVersion
    && R.Honest(store.run, exec)
  }

  /** The claim is over: by FencedForever its token never owns the task again. */
  predicate Lost(t: Task, tok: Token, now: Time) { !Owns(t, tok, now) }

  /** How executeClaim ended. */
  datatype Exit =
    | Released
    | Recorded
    | NothingToDo
    | Refusal(error: Err)
    | Interrupted

  /** The local context, as the worker finds it the n-th time round: it may have been cancelled (shutdown,
      a failed heartbeat), or its own timer may have reached the deadline. */
  datatype Signal = Live | Expired | Stopped

  datatype Point = Looping | Waited | Executed

  type Context = (nat, Point) -> Signal

  /** The context ended the n-th round. */
  predicate DisturbedAt(context: Context, n: nat) {
    || context(n, Looping) != Live
    || context(n, Waited) == Expired
    || context(n, Executed) != Live
  }

  predicate MalformedExecution(e: Execution) {
    e.Produced? && !WellFormedOutcome(R.ReportOf(e.product))
  }

  /** The task's running attempt, executed in the n-th round, yielded bytes that are not JSON. */
  ghost predicate Malformed(runner: Runner, n: nat, t: Task) {
    && t.currentStep < |t.steps|
    && exists att: StepAttempt ::
         && MalformedExecution(runner(att, n))
         && att.stepId == t.steps[t.currentStep].id && Finishable(t, t.currentStep, att)
  }

  /** What a report leaves behind: the product itself, or the error under its own text, to be retried exactly if the
      error was temporary and the budget lasts. */
  predicate Reported(t: Task, t': Task, att: StepAttempt, e: Execution, now: Time) {
    && t.currentStep < |t.steps| == |t'.steps|
    && var s' := t'.steps[t.currentStep];
       && s'.id == att.stepId && s'.attempt == att.attempt
       && match e
          case Errored(text, failureClass) =>
            && t'.currentStep == t.currentStep && s'.status.Failed? && s'.error == Some(text)
            && Requeued(t', s', failureClass, now)
          case Produced(p) =>
            if p.output.size > 1_048_576 || p.checkpoint.size > 1_048_576 then
              t'.status.Failed? && s'.status.Failed? && s'.error.Some?
            else
              && t'.currentStep == t.currentStep + 1 && s'.status.Succeeded? && s'.output == p.output.json
              && t'.checkpoint == if p.checkpoint.size > 0 then Decoded(p.checkpoint.json) else t.checkpoint
  }

  predicate Requeued(t: Task, s: Step, failureClass: FailureClass, now: Time) {
    if failureClass.Temporary? && s.attempt < s.def.maxAttempts then
      t.status.RetryWait? && t.retryAt == Some(now + Backoff(s.attempt) * 1_000_000)
    else
      t.status.Failed?
  }

  /** The attempt executed in the n-th round ended in an error, which is on record. */
  ghost predicate RecordedHere(runner: Runner, n: nat, t: Task, now: Time) {
    && t.currentStep < |t.steps|
    && exists att: StepAttempt ::
         && ErrorOnRecord(runner(att, n), t.steps[t.currentStep], att)
         && Requeued(t, t.steps[t.currentStep], runner(att, n).failureClass, now)
  }

  predicate ErrorOnRecord(e: Execution, s: Step, att: StepAttempt) {
    && e.Errored? && s.id == att.stepId && s.attempt == att.attempt
    && s.status.Failed? && s.error == Some(e.text)
  }

  /** The step that was current has been started once more, or put to its approval. */
  predicate Worked(t: Task, t': Task) {
    t.currentStep < |t.steps| ==>
      var s := t.steps[t.currentStep];
      Logged(t'.log, if IsApproval(s) then EventLog.Waits(s.id) else StartsOf(s.id, s.attempt + 1))
  }

  /** The current step has an input to work on. */
  predicate CanWork(t: Task) {
    t.currentStep < |t.steps| && InputFor(t, t.currentStep).Some?
  }

  /** What a claim executed alone can come to. */
  predicate AloneExit(exit: Exit, t: Task) {
    && (exit.Released? || exit.Recorded? ==> !t.status.Running?)
    && (exit.Refusal? ==> exit.error == Invalid)
  }

  /** What each way of ending in the n-th round says about the task. */
  ghost predicate GoodExit(exit: Exit, t: Task, tok: Token, now: Time, runner: Runner, n: nat) {
    && (exit.Released? ==> Lost(t, tok, now))
    && (exit.NothingToDo? ==> t.steps == [])
    && (exit.Recorded? ==> Lost(t, tok, now) && RecordedHere(runner, n, t, now))
    && (exit.Refusal? ==>
          match exit.error
          case TaskCancelledErr => t.cancelRequested
          case DeadlineExceeded => DeadlinePassed(t, now)
          case Invalid => Malformed(runner, n, t) || (t.currentStep < |t.steps| && InputFor(t, t.currentStep).None?)
          case Conflict => true
          case _ => false)
  }

  /** Who else is about while a claim is executed. */
  datatype Company =
    | Anybody
    | SoleHolder  // nobody else moves a step in the name of this claim
    | Alone       // nobody else acts, and the clock stands still

  /** Everybody else's turn: any legal continuation of the run by honest parties, within the company. */
  method Others(store: Store, id: Id, tok: Token, ghost company: Company, ghost exec: R.Executor)
    requires Ready(store, id, tok, exec)
    modifies store
    ensures Ready(store, id, tok, exec) && old(store.run) <= store.run
    ensures company != Anybody ==> QuietFrom(store.run, |old(store.run)|, id, tok)
    ensures company.Alone? ==> Untouched(store, old(store.db), old(store.clock), old(store.run))
  {
  }

  ghost predicate Untouched(store: Store, db: map<Id, Task>, clock: Time, run: seq<Action>)
    reads store
  {
    store.db == db && store.clock == clock && store.run == run
  }

  method ReadClock(store: Store, ghost company: Company) returns (now: Time)
    ensures store.clock <= now
    ensures company.Alone? ==> now == store.clock
  {
    now := store.clock;
  }

  /** How far the task still is from its end. */
  function Remaining(t: Task): int {
    if Terminal(t.status) then 0 else 1 + |t.steps| - t.currentStep
  }

  /** What time and other parties cannot undo. */
  lemma {:induction false} Later(early: seq<Action>, late: seq<Action>, id: Id, tok: Token)
    requires Legal(late) && early <= late && id in Final(early).db
    requires tok.version <= Final(early).db[id].leaseVersion
    ensures id in Final(late).db && tok.version <= Final(late).db[id].leaseVersion
    ensures 0 <= Remaining(Final(late).db[id]) <= Remaining(Final(early).db[id])
    ensures Final(early).issued <= Final(late).issued
    ensures Lost(Final(early).db[id], tok, Final(early).clock) ==> Lost(Final(late).db[id], tok, Final(late).clock)
    ensures Final(early).db[id].cancelRequested ==> Final(late).db[id].cancelRequested
    ensures DeadlinePassed(Final(early).db[id], Final(early).clock) ==>
            DeadlinePassed(Final(late).db[id], Final(late).clock)
  {
    hide Legal, Final, CacheOk, StarterOk, TaskLogOk, StepsLogOk, UniqueKeys, IssuedOk, StepOk, DeadlineFate,
      MayBeCurrent, StepGrows;
    G.At(early, late, id);
    RunGrows(early, late);
  }

  /** A finish that is accepted brings the task nearer its end. */
  lemma FinishAdvances(t: Task, tok: Token, att: StepAttempt, e: Execution, t1: Time, t2: Time)
    requires Inv(t) && e.Produced? && FinishTx(t, tok, att, ReportOf(e), t1, t2).reply == Done
    ensures Remaining(FinishTx(t, tok, att, ReportOf(e), t1, t2).task) < Remaining(t)
  {
    hide CacheOk, StarterOk, TaskLogOk, StepsLogOk, DelaySeconds, StepOk;
  }

  /** A finish that reports a failure gives the task up, and so does one refused for the lease. */
  lemma FailureReleases(t: Task, tok: Token, att: StepAttempt, out: Outcome, now: Time)
    ensures var tx := FinishTx(t, tok, att, out, now, now);
            (tx.reply == Done && out.error != "") || tx.reply == Refused(LeaseLost) ==> Lost(tx.task, tok, now)
  {
    hide Lookup, DelaySeconds, SucceedStep;
  }

  /** One turn of a slot (runSlot): claim, and execute what was granted. */
  method RunSlot(store: Store, worker: string, locked: set<Id>, runner: Runner, context: Context,
                 ghost company: Company, ghost exec: R.Executor)
    returns (id: Option<Id>, reply: Reply, exit: Option<Exit>, rounds: nat)
    requires store.Valid() && R.Honest(store.run, exec) && Faithful(runner, exec)
    modifies store
    ensures store.Valid() && R.Honest(store.run, exec) && old(store.run) <= store.run
    ensures exit.Some? <==> reply.Granted?
    ensures exit.Some? ==>
              && id.Some? && id.value in store.db && R.Mirrors(store.db[id.value], exec)
              && reply.token.worker == worker
              && GoodExit(exit.value, store.db[id.value], reply.token, store.clock, runner, rounds)
              && (exit.value.Interrupted? ==> DisturbedAt(context, rounds))
              && (company != Anybody ==> exit.value != Refusal(Conflict))
              && (company.Alone? ==> AloneExit(exit.value, store.db[id.value]))
    ensures company.Alone? && exit.Some? && id.Some? && id.value in old(store.db) && context(0, Looping) == Live
            && CanWork(old(store.db[id.value])) ==>
              id.value in store.db && Worked(old(store.db[id.value]), store.db[id.value])
  {
    hide Legal, Final, R.Honest, R.HonestReport, Remaining, Inv, R.Mirrors, Faithful, GoodExit, ClaimTx, IsFirst,
      Fresh, QuietFrom, Worked, CanWork, AloneExit, MayWrite;
    var now := ReadClock(store, company);
    ghost var start := store.run;
    ghost var before := store.db;
    ghost var lease := store.leaseDuration;
    ReachableInv(start);
    id, reply := store.ClaimTask(worker, locked, now, now, now);
    if id.Some? { ClaimHonest(start, id.value, Claim(worker, lease, now), now, store.run, exec); }
    if !reply.Granted? { return id, reply, None, 0; }
    GrantIsFresh(before[id.value], worker, lease, now, now, now, reply.token);
    ReachableInv(store.run);
    GrantedWell(id.value, before[id.value], worker, lease, now);
    ghost var claimed := store.run;
    ghost var t := store.db[id.value];
    Others(store, id.value, reply.token, company, exec);
    if company != Anybody { LeftAlone(claimed, store.run, id.value, reply.token); }
    var ended;
    ended, rounds := ExecuteClaim(store, id.value, reply.token, runner, context, company, exec);
    exit := Some(ended);
    if Worked(t, store.db[id.value]) {
      WorkedBefore(id.value, before[id.value], worker, lease, now, store.db[id.value]);
    }
  }

  lemma ClaimHonest(before: seq<Action>, id: Id, op: Op, now: Time, after: seq<Action>, exec: R.Executor)
    requires R.Honest(before, exec) && op.Claim? && after == before + [Act(id, op, now, now)]
    ensures R.Honest(after, exec)
  {
    hide R.Honest;
    R.HonestExtend(before, Act(id, op, now, now), exec);
  }

  /** A granted claim is the worker's own, it may write at once, and it has what its step had to work on. */
  lemma GrantedWell(id: Id, t: Task, worker: string, lease: Time, now: Time)
    requires Inv(t) && lease > 0 && ClaimTx(t, worker, lease, now, now, now).reply.Granted?
    ensures var tx := ClaimTx(t, worker, lease, now, now, now);
            && tx.reply.token.version == tx.task.leaseVersion && tx.reply.token.worker == worker
            && tx.task.status.Running? && MayWrite(tx.task, tx.reply.token, now)
            && (CanWork(t) ==> CanWork(tx.task))
  {
    hide Inv, ClaimTx, InputFor, DelaySeconds;
    var op := Claim(worker, lease, now);
    A.PerformClaim(id, t, op, now, now);
    ClaimAnswer(id, t, op, now, now);
    assert Grants(t, op, now) && !Terminal(t.status) by { GrantNeeded(id, t, op, now); }
    StatusLaw(id, t, op, now, now);
    LeaseLaw(id, t, op, now, now);
    OriginLaw(id, t, op, now, now);
    InvRow(t);
    if CanWork(t) { ClaimKeepsInput(id, t, op, now); }
  }

  lemma GrantNeeded(id: Id, t: Task, op: Op, now: Time)
    requires Inv(t) && op.Claim? && op.statement == now && Perform(id, t, op, now, now).reply.Granted?
    ensures Grants(t, op, now) && !Terminal(t.status)
  {
    hide Inv, Perform;
    ClaimAnswer(id, t, op, now, now);
    if Grants(t, op, now) { GrantIsOpen(t, op, now); }
  }

  lemma ClaimKeepsInput(id: Id, t: Task, op: Op, now: Time)
    requires Inv(t) && Grants(t, op, now) && !Terminal(t.status) && t.currentStep < |t.steps|
    ensures var t' := Perform(id, t, op, now, now).task;
            && t'.currentStep == t.currentStep < |t'.steps| && InputFor(t', t.currentStep) == InputFor(t, t.currentStep)
            && t'.steps[t.currentStep].id == t.steps[t.currentStep].id
            && t'.steps[t.currentStep].attempt == t.steps[t.currentStep].attempt
            && t'.steps[t.currentStep].def == t.steps[t.currentStep].def
  {
    hide Inv, Perform, Resolution, Grants, Broken, Breaks;
    Kinds(t, op, now, now);
    ProgressLaw(id, t, op, now, now);
    StepLaw(id, t, op, now, now, t.currentStep);
    if t.currentStep > 0 { StepLaw(id, t, op, now, now, t.currentStep - 1); }
  }

  /** What is worked off after the claim is what was there before it. */
  lemma WorkedBefore(id: Id, t: Task, worker: string, lease: Time, now: Time, t': Task)
    requires Inv(t) && ClaimTx(t, worker, lease, now, now, now).reply.Granted?
    requires Worked(ClaimTx(t, worker, lease, now, now, now).task, t')
    ensures Worked(t, t')
  {
    hide Inv, ClaimTx, InputFor;
    var op := Claim(worker, lease, now);
    A.PerformClaim(id, t, op, now, now);
    GrantNeeded(id, t, op, now);
    if t.currentStep < |t.steps| { ClaimKeepsInput(id, t, op, now); }
  }

  /** executeClaim, for a claim that was granted. It ends. It sends only reports that its own started
      attempts and the executor's results justify, so the task mirrors the sequential reference. Unless
      its context is disturbed it goes on until its claim is over (every step done, the task handed to an
      approval or a retry, or the lease gone), a cancellation or the deadline stops a start, an input cannot
      be resolved, or an execution yields no JSON. A conflict takes somebody else who moves steps with the
      same token. */
  method ExecuteClaim(store: Store, id: Id, tok: Token, runner: Runner, context: Context, ghost company: Company,
                      ghost exec: R.Executor)
    returns (exit: Exit, rounds: nat)
    requires Ready(store, id, tok, exec) && Faithful(runner, exec)
    requires company != Anybody ==> Fresh(store.db[id], tok, store.clock)
    requires company.Alone? ==> GoesOn(store.db[id], tok, store.clock)
    modifies store
    ensures Ready(store, id, tok, exec) && old(store.run) <= store.run
    ensures R.Mirrors(store.db[id], exec)
    ensures GoodExit(exit, store.db[id], tok, store.clock, runner, rounds)
    ensures exit.Interrupted? ==> DisturbedAt(context, rounds)
    ensures forall m: nat | m < rounds :: context(m, Looping) == Live && context(m, Executed) == Live
    ensures company != Anybody ==> exit != Refusal(Conflict)
    ensures company.Alone? ==> AloneExit(exit, store.db[id])
    ensures company.Alone? && old(store.db[id]).status.Running? && CanWork(old(store.db[id]))
            && context(0, Looping) == Live ==>
              Worked(old(store.db[id]), store.db[id])
  {
    hide Perform, Legal, Final, R.Honest, R.HonestReport, Remaining, Inv, R.Mirrors, Faithful, GoodExit, Fresh, GoesOn,
      AloneExit, CanWork, Worked;
    rounds := 0;
    Later(store.run, store.run, id, tok);
    while true
      invariant Ready(store, id, tok, exec) && old(store.run) <= store.run
      invariant 0 <= Remaining(store.db[id])
      invariant company != Anybody ==> Fresh(store.db[id], tok, store.clock)
      invariant company.Alone? ==> GoesOn(store.db[id], tok, store.clock)
      invariant rounds == 0 ==> Untouched(store, old(store.db), old(store.clock), old(store.run))
      invariant rounds > 0 && company.Alone? && old(store.db[id]).status.Running? && CanWork(old(store.db[id])) ==>
                  Worked(old(store.db[id]), store.db[id])
      invariant forall m: nat | m < rounds :: context(m, Looping) == Live && context(m, Executed) == Live
      decreases Remaining(store.db[id])
    {
      ghost var before := store.run;
      var done := Round(store, id, tok, runner, context, rounds, company, exec);
      if Worked(old(store.db[id]), Final(before).db[id]) { WorkedStays(old(store.db[id]), before, store.run, id); }
      if done.Some? {
        R.CrashTransparency(store.run, id, exec);
        return done.value, rounds;
      }
      rounds := rounds + 1;
    }
  }

  lemma WorkedStays(t: Task, early: seq<Action>, late: seq<Action>, id: Id)
    requires Legal(late) && early <= late && id in Final(early).db && Worked(t, Final(early).db[id])
    ensures id in Final(late).db && Worked(t, Final(late).db[id])
  {
    hide Legal, Final, Inv, Grows;
    G.At(early, late, id);
    if t.currentStep < |t.steps| {
      var s := t.steps[t.currentStep];
      LoggedStays(Final(early).db[id], Final(early).clock, Final(late).db[id], Final(late).clock,
                  if IsApproval(s) then EventLog.Waits(s.id) else StartsOf(s.id, s.attempt + 1));
    }
  }

  /** One turn of the loop; None means going round once more. */
  method Round(store: Store, id: Id, tok: Token, runner: Runner, context: Context, n: nat, ghost company: Company,
               ghost exec: R.Executor)
    returns (exit: Option<Exit>)
    requires Ready(store, id, tok, exec) && Faithful(runner, exec)
    requires company != Anybody ==> Fresh(store.db[id], tok, store.clock)
    requires company.Alone? ==> GoesOn(store.db[id], tok, store.clock)
    modifies store
    ensures Ready(store, id, tok, exec) && old(store.run) <= store.run
    ensures company.Alone? && exit.None? ==> GoesOn(store.db[id], tok, store.clock)
    ensures company.Alone? && exit.Some? ==> AloneExit(exit.value, store.db[id])
    ensures company.Alone? && old(store.db[id]).status.Running? && CanWork(old(store.db[id]))
            && context(n, Looping) == Live ==>
              Worked(old(store.db[id]), store.db[id])
    ensures exit.None? ==> 0 <= Remaining(store.db[id]) < Remaining(old(store.db[id]))
    ensures exit.None? && company != Anybody ==> Fresh(store.db[id], tok, store.clock)
    ensures exit.None? ==> context(n, Looping) == Live && context(n, Executed) == Live
    ensures exit.Some? ==> GoodExit(exit.value, store.db[id], tok, store.clock, runner, n)
    ensures exit == Some(Interrupted) ==> DisturbedAt(context, n)
    ensures company != Anybody ==> exit != Some(Refusal(Conflict))
  {
    hide Perform, Legal, Final, R.Honest, R.HonestReport, Remaining, Inv, Faithful, Owns, Begun, QuietFrom, Malformed,
      InputFor, MayWrite, Worked, RecordedHere, StepOk;
    ghost var start := store.run;
    if context(n, Looping) != Live { return Some(Interrupted); }
    Others(store, id, tok, company, exec);
    Later(start, store.run, id, tok);
    if company != Anybody { LeftAlone(start, store.run, id, tok); }
    var loaded := store.db[id];
    if !loaded.status.Running? || |loaded.steps| <= loaded.currentStep {
      ReachableInv(store.run);
      IdleIsLost(loaded, tok, store.clock);
      return Some(if loaded.status.Running? then NothingToDo else Released);
    }
    var step := loaded.steps[loaded.currentStep];
    if step.def.kind == APPROVAL {
      var ended := AwaitDecision(store, id, tok, step.id, context(n, Waited), runner, n, company, exec);
      return Some(ended);
    }
    exit := WorkOn(store, id, tok, step.id, runner, context, n, company, exec);
  }

  /** Start the step, execute the attempt and report on it. */
  method WorkOn(store: Store, id: Id, tok: Token, stepId: Id, runner: Runner, context: Context, n: nat,
                ghost company: Company, ghost exec: R.Executor) returns (exit: Option<Exit>)
    requires Ready(store, id, tok, exec) && Faithful(runner, exec)
    requires company != Anybody ==> Aimed(store.db[id], tok, store.clock, stepId, false)
    requires company.Alone? ==> MayWrite(store.db[id], tok, store.clock)
    modifies store
    ensures Ready(store, id, tok, exec) && old(store.run) <= store.run
    ensures company.Alone? && exit.None? ==> GoesOn(store.db[id], tok, store.clock)
    ensures company.Alone? && exit.Some? ==> AloneExit(exit.value, store.db[id])
    ensures company.Alone? && CanWork(old(store.db[id])) ==> Worked(old(store.db[id]), store.db[id])
    ensures exit.None? ==> 0 <= Remaining(store.db[id]) < Remaining(old(store.db[id]))
    ensures exit.None? && company != Anybody ==> Fresh(store.db[id], tok, store.clock)
    ensures exit.None? ==> context(n, Executed) == Live
    ensures exit.Some? ==> GoodExit(exit.value, store.db[id], tok, store.clock, runner, n)
    ensures exit == Some(Interrupted) ==> context(n, Executed) != Live
    ensures company != Anybody ==> exit != Some(Refusal(Conflict))
  {
    hide Perform, Legal, Final, R.Honest, R.HonestReport, Remaining, Inv, Faithful, Owns, Begun, QuietFrom, Malformed,
      InputFor, MayWrite, Worked, CanWork, RecordedHere, Aimed, Fresh;
    ghost var t := store.db[id];
    var attempt, refused := Begin(store, id, tok, stepId, runner, n, company, exec);
    if attempt.None? { return Some(refused); }
    var execution := runner(attempt.value, n);
    ghost var begun := store.run;
    Others(store, id, tok, company, exec);
    Later(begun, store.run, id, tok);
    if company != Anybody { LeftAlone(begun, store.run, id, tok); }
    match context(n, Executed) {
      case Expired =>
        TimeoutClaim(store, id, tok, company, exec);
        exit := Some(Interrupted);
      case Stopped =>
        exit := Some(Interrupted);
      case Live =>
        exit := Report(store, id, tok, attempt.value, execution, runner, n, company, exec);
    }
    if Worked(t, Final(begun).db[id]) { WorkedStays(t, begun, store.run, id); }
  }

  lemma IdleIsLost(t: Task, tok: Token, now: Time)
    requires Inv(t) && (!t.status.Running? || |t.steps| <= t.currentStep)
    ensures if t.status.Running? then t.steps == [] else Lost(t, tok, now)
  {
    hide CacheOk, StarterOk, TaskLogOk, StepsLogOk, RowOk, StepOk;
  }

  // ----- The store's answers -----

  predicate Refusable(error: Err, t: Task, now: Time) {
    match error
    case TaskCancelledErr => t.cancelRequested
    case DeadlineExceeded => DeadlinePassed(t, now)
    case LeaseLost => true
    case Conflict => true
    case Invalid => true
    case _ => false
  }

  /** Every answer to a wait, and what it says of the task. */
  lemma WaitReplies(t: Task, tok: Token, stepId: Id, now: Time)
    requires Inv(t)
    ensures var tx := WaitTx(t, tok, stepId, now);
            && (tx.reply == Done || (tx.reply.Refused? && Refusable(tx.reply.error, tx.task, now)))
            && (tx.reply == Done || tx.reply == Refused(LeaseLost) ==> Lost(tx.task, tok, now))
            && (tx.reply == Refused(Invalid) ==> B.BlockedTask(tx.task))
  {
    hide CacheOk, StarterOk, TaskLogOk, StepsLogOk, Lookup, InputFor, PredecessorsSucceeded;
    if t.currentStep < |t.steps| { assert StepOk(t.steps[t.currentStep]); }
  }

  /** Every answer to a start. */
  lemma StartReplies(id: Id, t: Task, tok: Token, stepId: Id, now: Time)
    ensures var tx := StartTx(id, t, tok, stepId, now);
            && (tx.reply.Attempt? || (tx.reply.Refused? && Refusable(tx.reply.error, tx.task, now)))
            && (tx.reply == Refused(LeaseLost) ==> Lost(tx.task, tok, now))
            && (tx.reply == Refused(Invalid) ==>
                tx.task.currentStep < |tx.task.steps| && InputFor(tx.task, tx.task.currentStep).None?)
  {
    hide Lookup, InputFor, PredecessorsSucceeded;
  }

  /** Every answer to a report. */
  lemma FinishReplies(t: Task, tok: Token, att: StepAttempt, e: Execution, now: Time)
    requires e.Errored? ==> e.text != ""
    ensures var tx := FinishTx(t, tok, att, ReportOf(e), now, now);
            && (tx.reply == Done || (tx.reply.Refused? && Refusable(tx.reply.error, tx.task, now)))
            && (tx.reply == Refused(Invalid) ==>
                  && MalformedExecution(e) && tx.task.currentStep < |tx.task.steps|
                  && att.stepId == tx.task.steps[tx.task.currentStep].id
                  && Finishable(tx.task, tx.task.currentStep, att))
  {
    hide DelaySeconds, SucceedStep, FailStep;
  }

  /** What an accepted report leaves behind. */
  lemma ReportIsKept(id: Id, t: Task, tok: Token, att: StepAttempt, e: Execution, now: Time)
    requires Inv(t) && (e.Errored? ==> e.text != "")
    ensures var tx := FinishTx(t, tok, att, ReportOf(e), now, now);
            tx.reply == Done ==> Reported(t, tx.task, att, e, now)
  {
    hide Inv, Perform, FinishTx, MayWrite, InputFor, Pow2;
    var op := Finish(tok, att, ReportOf(e));
    if FinishTx(t, tok, att, ReportOf(e), now, now).reply == Done {
      PerformFinish(id, t, op, now);
      FinishAnswer(id, t, op, now, now);
      Kinds(t, op, now, now);
      OpenWriter(t, tok, now);
      StatusLaw(id, t, op, now, now);
      RetryLaw(id, t, op, now, now);
      ProgressLaw(id, t, op, now, now);
      StepLaw(id, t, op, now, now, t.currentStep);
    }
  }

  lemma PerformFinish(id: Id, t: Task, op: Op, now: Time)
    requires op.Finish?
    ensures Perform(id, t, op, now, now) == FinishTx(t, op.tok, op.att, op.out, now, now)
  {
    hide FinishTx;
  }

  lemma OpenWriter(t: Task, tok: Token, now: Time)
    ensures MayWrite(t, tok, now) ==> !Terminal(t.status)
  {
  }

  lemma StaysUnresolvable(early: seq<Action>, late: seq<Action>, id: Id)
    requires Legal(late) && early <= late && id in Final(early).db && B.BlockedTask(Final(early).db[id])
    ensures id in Final(late).db
    ensures var t := Final(late).db[id]; t.currentStep < |t.steps| && InputFor(t, t.currentStep).None?
  {
    hide Legal, Final, B.BlockedTask, InputFor;
    B.BlockedThrough(early, late, id);
  }

  lemma AimedLater(t: Task, tok: Token, clock: Time, now: Time, stepId: Id, approval: bool)
    requires Aimed(t, tok, clock, stepId, approval) && clock <= now
    ensures Aimed(t, tok, now, stepId, approval)
  {
  }

  lemma BegunLater(t: Task, tok: Token, clock: Time, now: Time, att: StepAttempt)
    requires Begun(t, tok, clock, att) && clock <= now
    ensures Begun(t, tok, now, att)
  {
  }

  lemma WaitWorks(id: Id, t: Task, tok: Token, stepId: Id, now: Time)
    requires Inv(t) && Pauses(t, Wait(tok, stepId), now)
    ensures Worked(t, Perform(id, t, Wait(tok, stepId), now, now).task)
  {
    hide Inv, InputFor, MayWrite, OwnershipError;
    InvShape(t);
    WaitGuard(t, Wait(tok, stepId), now);
    assert TaskWaitingApproval(stepId, t.currentStep) in Perform(id, t, Wait(tok, stepId), now, now).task.log;
  }

  lemma WaitsAlone(id: Id, t: Task, tok: Token, stepId: Id, now: Time)
    requires Inv(t) && MayWrite(t, tok, now) && Aimed(t, tok, now, stepId, true)
    ensures var tx := Perform(id, t, Wait(tok, stepId), now, now);
            && (CanWork(t) ==> Worked(t, tx.task))
            && (tx.reply == Refused(Invalid) || (tx.reply == Done && !tx.task.status.Running?))
  {
    hide Inv, InputFor, MayWrite, Perform, Worked, Aimed;
    WaitsUnlessUnresolvable(id, t, tok, stepId, now);
    WaitAnswer(id, t, Wait(tok, stepId), now, now);
    if Pauses(t, Wait(tok, stepId), now) { WaitWorks(id, t, tok, stepId, now); }
  }

  lemma StartWorks(id: Id, t: Task, tok: Token, stepId: Id, now: Time)
    requires Inv(t) && Begins(t, Start(tok, stepId), now)
    ensures Worked(t, Perform(id, t, Start(tok, stepId), now, now).task)
  {
    hide Inv, InputFor, MayWrite, OwnershipError, StartStep;
    InvShape(t);
    StartGuard(t, Start(tok, stepId), now);
    C.StartLogged(t, t.currentStep, tok, InputFor(t, t.currentStep).value);
  }

  // ----- The calls of one turn -----

  method AskToWait(store: Store, id: Id, tok: Token, stepId: Id, ghost company: Company, ghost exec: R.Executor)
    returns (reply: Reply)
    requires Ready(store, id, tok, exec)
    requires company != Anybody ==> Aimed(store.db[id], tok, store.clock, stepId, true)
    requires company.Alone? ==> MayWrite(store.db[id], tok, store.clock)
    modifies store
    ensures Ready(store, id, tok, exec) && old(store.run) <= store.run
    ensures reply == Done || (reply.Refused? && Refusable(reply.error, store.db[id], store.clock))
    ensures reply == Done || reply == Refused(LeaseLost) ==> Lost(store.db[id], tok, store.clock)
    ensures reply == Refused(Invalid) ==> B.BlockedTask(store.db[id])
    ensures company != Anybody ==> reply != Refused(Conflict)
    ensures company.Alone? ==> reply == Refused(Invalid) || (reply == Done && !store.db[id].status.Running?)
    ensures company.Alone? && CanWork(old(store.db[id])) ==> Worked(old(store.db[id]), store.db[id])
  {
    hide Legal, Final, R.Honest, Inv, InputFor, Aimed, QuietFrom, WaitTx, Owns, B.BlockedTask, MayWrite, CanWork,
      Worked;
    ghost var start := store.run;
    Others(store, id, tok, company, exec);
    Later(start, store.run, id, tok);
    if company != Anybody { LeftAlone(start, store.run, id, tok); }
    var now := ReadClock(store, company);
    R.HonestExtend(store.run, Act(id, Wait(tok, stepId), now, now), exec);
    ghost var before := store.run;
    ghost var t := store.db[id];
    ReachableInv(before);
    WaitReplies(t, tok, stepId, now);
    if company != Anybody {
      AimedLater(t, tok, store.clock, now, stepId, true);
      AimedWaits(t, tok, stepId, now);
    }
    if company.Alone? { WaitsAlone(id, t, tok, stepId, now); }
    reply := store.WaitForApproval(id, tok, stepId, now, now);
    Later(before, store.run, id, tok);
  }

  /** Unlike a refused start, a wait refused for a cancellation or the deadline is followed up: the claim
      does not outlive it. */
  method AwaitDecision(store: Store, id: Id, tok: Token, stepId: Id, signal: Signal, ghost runner: Runner,
                       ghost n: nat, ghost company: Company, ghost exec: R.Executor) returns (exit: Exit)
    requires Ready(store, id, tok, exec)
    requires company != Anybody ==> Aimed(store.db[id], tok, store.clock, stepId, true)
    requires company.Alone? ==> MayWrite(store.db[id], tok, store.clock)
    modifies store
    ensures Ready(store, id, tok, exec) && old(store.run) <= store.run
    ensures company.Alone? ==> AloneExit(exit, store.db[id])
    ensures company.Alone? && CanWork(old(store.db[id])) ==> Worked(old(store.db[id]), store.db[id])
    ensures GoodExit(exit, store.db[id], tok, store.clock, runner, n)
    ensures exit.Interrupted? ==> signal.Expired?
    ensures exit.Refusal? ==> exit.error == Invalid || (exit.error == Conflict && company.Anybody?)
  {
    hide Legal, Final, R.Honest, Inv, InputFor, Aimed, QuietFrom, Owns, Malformed, RecordedHere, B.BlockedTask,
      MayWrite, CanWork, Worked, Remaining;
    ghost var t := store.db[id];
    var reply := AskToWait(store, id, tok, stepId, company, exec);
    ghost var waited := store.run;
    ghost var waiting := store.db[id];
    Others(store, id, tok, company, exec);
    Later(waited, store.run, id, tok);
    if reply == Refused(Invalid) { StaysUnresolvable(waited, store.run, id); }
    if reply == Refused(TaskCancelledErr) {
      CancelClaim(store, id, tok, company, exec);
      return Released;
    }
    if reply == Refused(DeadlineExceeded) {
      TimeoutClaim(store, id, tok, company, exec);
      return Released;
    }
    if signal.Expired? {
      TimeoutClaim(store, id, tok, company, exec);
      if Worked(t, waiting) { WorkedStays(t, waited, store.run, id); }
      return Interrupted;
    }
    return if reply == Done || reply == Refused(LeaseLost) then Released else Refusal(reply.error);
  }

  method Begin(store: Store, id: Id, tok: Token, stepId: Id, ghost runner: Runner, ghost n: nat, ghost company: Company,
               ghost exec: R.Executor)
    returns (attempt: Option<StepAttempt>, exit: Exit)
    requires Ready(store, id, tok, exec)
    requires company != Anybody ==> Aimed(store.db[id], tok, store.clock, stepId, false)
    requires company.Alone? ==> MayWrite(store.db[id], tok, store.clock)
    modifies store
    ensures Ready(store, id, tok, exec) && old(store.run) <= store.run
    ensures company.Alone? ==> MayWrite(store.db[id], tok, store.clock)
    ensures company.Alone? && attempt.None? ==> exit == Refusal(Invalid) && !CanWork(old(store.db[id]))
    ensures company.Alone? && attempt.Some? ==> Worked(old(store.db[id]), store.db[id])
    ensures attempt.Some? ==> attempt.value in store.issued && attempt.value.taskId == id
    ensures attempt.Some? ==> Begun(store.db[id], tok, store.clock, attempt.value)
    ensures Remaining(store.db[id]) <= Remaining(old(store.db[id]))
    ensures attempt.None? ==> GoodExit(exit, store.db[id], tok, store.clock, runner, n) && !exit.Interrupted?
    ensures attempt.None? && company != Anybody ==> exit != Refusal(Conflict)
  {
    hide Legal, Final, R.Honest, Inv, InputFor, Remaining, Aimed, Begun, QuietFrom, StartTx, Owns, Malformed;
    ghost var start := store.run;
    Others(store, id, tok, company, exec);
    Later(start, store.run, id, tok);
    if company != Anybody { LeftAlone(start, store.run, id, tok); }
    var now := ReadClock(store, company);
    ghost var before := store.run;
    ghost var t := store.db[id];
    ReachableInv(before);
    StartReplies(id, t, tok, stepId, now);
    R.HonestExtend(store.run, Act(id, Start(tok, stepId), now, now), exec);
    if company != Anybody {
      AimedLater(t, tok, store.clock, now, stepId, false);
      AimedStarts(id, t, tok, stepId, now);
    }
    if company.Alone? {
      StartsUnlessUnresolvable(id, t, tok, stepId, now);
      StartAnswer(id, t, Start(tok, stepId), now, now);
      if Begins(t, Start(tok, stepId), now) { StartWorks(id, t, tok, stepId, now); }
    }
    var reply := store.StartStep(id, tok, stepId, now, now);
    Later(before, store.run, id, tok);
    StartIssued(before, id, tok, stepId, now, store.run);
    if reply.Attempt? {
      StartedIsBegun(id, t, tok, stepId, now);
      return Some(reply.attempt), Released;
    }
    return None, if reply == Refused(LeaseLost) then Released else Refusal(reply.error);
  }

  lemma StartIssued(before: seq<Action>, id: Id, tok: Token, stepId: Id, now: Time, after: seq<Action>)
    requires Legal(after) && after == before + [Act(id, Start(tok, stepId), now, now)]
    requires id in Final(before).db
    ensures var reply := StartTx(id, Final(before).db[id], tok, stepId, now).reply;
            reply.Attempt? ==> reply.attempt in Final(after).issued && reply.attempt.taskId == id
  {
    hide Lookup, Startable, InputFor, OwnershipError;
    assert after[..|after| - 1] == before;
  }

  method Report(store: Store, id: Id, tok: Token, att: StepAttempt, execution: Execution, ghost runner: Runner,
                ghost n: nat, ghost company: Company, ghost exec: R.Executor) returns (exit: Option<Exit>)
    requires Ready(store, id, tok, exec) && Faithful(runner, exec)
    requires att in store.issued && att.taskId == id && execution == runner(att, n)
    requires company != Anybody ==> Begun(store.db[id], tok, store.clock, att)
    requires company.Alone? ==> MayWrite(store.db[id], tok, store.clock)
    modifies store
    ensures Ready(store, id, tok, exec) && old(store.run) <= store.run
    ensures company.Alone? && exit.None? ==> GoesOn(store.db[id], tok, store.clock)
    ensures company.Alone? && exit.Some? ==> AloneExit(exit.value, store.db[id])
    ensures exit.None? ==> execution.Produced?
    ensures exit == Some(Recorded) ==> execution.Errored?
    ensures exit.None? || exit == Some(Recorded) ==>
              Reported(old(store.db[id]), store.db[id], att, execution, store.clock)
    ensures exit.None? ==> 0 <= Remaining(store.db[id]) < Remaining(old(store.db[id]))
    ensures exit.None? && company != Anybody ==> Fresh(store.db[id], tok, store.clock)
    ensures exit.Some? ==> GoodExit(exit.value, store.db[id], tok, store.clock, runner, n) && !exit.value.Interrupted?
    ensures company != Anybody ==> exit != Some(Refusal(Conflict))
  {
    hide Legal, Final, R.Honest, R.HonestReport, Remaining, Inv, FinishTx, Owns, Begun, Fresh, InputFor, QuietFrom,
      WellFormedOutcome, MayWrite;
    var now := ReadClock(store, company);
    ReportIsHonest(runner, exec, att, n, store.issued, id, tok);
    R.HonestExtend(store.run, Act(id, Finish(tok, att, ReportOf(execution)), now, now), exec);
    ReachableInv(store.run);
    ghost var before := store.db[id];
    ghost var earlier := store.run;
    if company != Anybody {
      BegunLater(before, tok, store.clock, now, att);
      BegunFinishes(before, tok, att, ReportOf(execution), now);
    }
    if company.Alone? { FinishesUnlessMalformed(id, before, tok, att, ReportOf(execution), now); }
    FailureReleases(before, tok, att, ReportOf(execution), now);
    ReportIsKept(id, before, tok, att, execution, now);
    FinishReplies(before, tok, att, execution, now);
    var reply := store.FinishStep(id, tok, att, ReportOf(execution), now, now);
    Later(earlier, store.run, id, tok);
    if reply == Refused(DeadlineExceeded) {
      ghost var finished := store.run;
      Others(store, id, tok, company, exec);
      Later(finished, store.run, id, tok);
      TimeoutClaim(store, id, tok, company, exec);
      return Some(Released);
    }
    if reply != Done {
      if reply == Refused(Invalid) { assert MalformedExecution(runner(att, n)); }
      return Some(if reply == Refused(LeaseLost) then Released else Refusal(reply.error));
    }
    if execution.Errored? {
      assert ErrorOnRecord(runner(att, n), store.db[id].steps[store.db[id].currentStep], att);
      return Some(Recorded);
    }
    FinishAdvances(before, tok, att, execution, now, now);
    return None;
  }

  /** timeoutClaim: a pending cancellation wins over the deadline. Either way, once the deadline has passed
      the claim is over. */
  method TimeoutClaim(store: Store, id: Id, tok: Token, ghost company: Company, ghost exec: R.Executor)
    requires Ready(store, id, tok, exec)
    modifies store
    ensures Ready(store, id, tok, exec) && old(store.run) <= store.run
    ensures DeadlinePassed(old(store.db[id]), old(store.clock)) ==> Lost(store.db[id], tok, store.clock)
  {
    hide Legal, Final, R.Honest, Inv;
    var now := ReadClock(store, company);
    R.HonestExtend(store.run, Act(id, TimeoutOwned(tok), now, now), exec);
    ghost var before := store.run;
    var reply := store.TimeoutOwnedTask(id, tok, now, now);
    Later(before, store.run, id, tok);
    if reply == Refused(TaskCancelledErr) {
      ghost var refused := store.run;
      Others(store, id, tok, company, exec);
      Later(refused, store.run, id, tok);
      CancelClaim(store, id, tok, company, exec);
    }
  }

  /** cancelClaim: once a cancellation is requested, the claim is over. */
  method CancelClaim(store: Store, id: Id, tok: Token, ghost company: Company, ghost exec: R.Executor)
    requires Ready(store, id, tok, exec)
    modifies store
    ensures Ready(store, id, tok, exec) && old(store.run) <= store.run
    ensures old(store.db[id]).cancelRequested ==> Lost(store.db[id], tok, store.clock)
  {
    hide Legal, Final, R.Honest, Inv;
    var now := ReadClock(store, company);
    R.HonestExtend(store.run, Act(id, CancelOwned(tok), now, now), exec);
    ghost var before := store.run;
    var reply := store.CancelOwnedTask(id, tok, now, now);
    Later(before, store.run, id, tok);
  }
}
