/** The idempotency ledger of the fake tool (internal/faketool/handler.go), and what it makes of
    at-least-once step execution. */
module FakeTool {
  import opened Basics
  import opened Resolve
  import opened Model
  import opened Runs
  import opened Transactions
  import opened Invariant
  import opened History

  datatype Effect = Effect(payload: Json, result: Json, effectCount: nat, requestCount: nat)

  type Ledger = map<string, Effect>

  datatype Answer =
    | BadRequest
    | TooLarge
    | PayloadConflict
    | Recorded(effect: Effect, created: bool)

  const VALUE := "value"
  const BLOCK := "block_first_response"

  /** The result that invoke computes from a payload; None when the payload is refused. */
  function ResultFor(payload: Json): Option<Json> {
    if payload.Obj? && VALUE in payload.fields &&
       (BLOCK in payload.fields ==> payload.fields[BLOCK].Bool? || payload.fields[BLOCK].Null?)
    then Some(Obj(map[VALUE := payload.fields[VALUE]]))
    else None
  }

  /** What one record transaction leaves in the ledger and answers. */
  function RecordTx(ledger: Ledger, key: string, payload: Json, result: Json): (Ledger, Answer) {
    if key !in ledger then
      var effect := Effect(payload, result, 1, 1);
      (ledger[key := effect], Recorded(effect, true))
    else if ledger[key].payload != payload then
      (ledger, PayloadConflict)
    else
      var effect := ledger[key].(requestCount := ledger[key].requestCount + 1);
      (ledger[key := effect], Recorded(effect, false))
  }

  function InvokeTx(ledger: Ledger, key: string, payload: Json, size: nat): (Ledger, Answer) {
    if key == "" then (ledger, BadRequest)
    else if size > MAX_JSON_BYTES then (ledger, TooLarge)
    else
      match ResultFor(payload)
      case None => (ledger, BadRequest)
      case Some(result) => RecordTx(ledger, key, payload, result)
  }

  class Tool {
    var effects: Ledger

    /** Attaches to the ledger as it is. */
    constructor (ledger: Ledger)
      ensures effects == ledger
    {
      effects := ledger;
    }

    method Record(key: string, payload: Json, result: Json) returns (r: Answer)
      modifies this
      ensures (effects, r) == RecordTx(old(effects), key, payload, result)
    {
      var tx := effects;
      var created := key !in tx;
      if created {
        tx := tx[key := Effect(payload, result, 1, 1)];
      } else {
        tx := tx[key := tx[key].(requestCount := tx[key].requestCount + 1)];
      }
      var effect := tx[key];
      if effect.payload != payload {
        return PayloadConflict;
      }
      effects := tx;
      return Recorded(effect, created);
    }

    method Invoke(key: string, payload: Json, size: nat) returns (r: Answer)
      modifies this
      ensures (effects, r) == InvokeTx(old(effects), key, payload, size)
    {
      if key == "" { return BadRequest; }
      if size > MAX_JSON_BYTES { return TooLarge; }
      var result := ResultFor(payload);
      if result.None? { return BadRequest; }
      r := Record(key, payload, result.value);
    }
  }

  /** What a call is answered, told from the request and the ledger: the result recorded for a new key is the
      payload's value and nothing else, and a repeated key gets what was recorded for it. */
  lemma InvokeAnswer(ledger: Ledger, key: string, payload: Json, size: nat)
    ensures var (after, reply) := InvokeTx(ledger, key, payload, size);
            var usable :=
              && payload.Obj? && "value" in payload.fields
              && ("block_first_response" in payload.fields ==>
                    payload.fields["block_first_response"].Bool? || payload.fields["block_first_response"] == Null);
            && (reply.BadRequest? <==> key == "" || (size <= 1_048_576 && !usable))
            && (reply.TooLarge? <==> key != "" && size > 1_048_576)
            && (reply.PayloadConflict? <==>
                  key != "" && size <= 1_048_576 && usable && key in ledger && ledger[key].payload != payload)
            && (!reply.Recorded? ==> after == ledger)
            && (reply.Recorded? ==>
                  && after == ledger[key := reply.effect] && reply.created == (key !in ledger)
                  && if key in ledger then
                       reply.effect == ledger[key].(requestCount := ledger[key].requestCount + 1)
                     else
                       reply.effect == Effect(payload, Obj(map["value" := payload.fields["value"]]), 1, 1))
  {
  }

  // ----- The tool beside the store -----

  /** A tool call carries the key and stored input of some attempt that StartStep once returned, even to
      a worker that has lost its lease since. */
  datatype Move =
    | Db(action: Action)
    | Call(att: StepAttempt, size: nat)

  datatype World = World(sys: Sys, ledger: Ledger)

  predicate Possible(w: World, m: Move) {
    match m
    case Db(a) => Enabled(w.sys, a)
    case Call(att, _) => att in w.sys.issued
  }

  function Moved(w: World, m: Move): World
    requires Possible(w, m)
  {
    match m
    case Db(a) => World(Next(w.sys, a), w.ledger)
    case Call(att, size) => World(w.sys, InvokeTx(w.ledger, att.key, att.resolved, size).0)
  }

  predicate Plays(moves: seq<Move>) {
    moves == [] || (Plays(moves[..|moves| - 1]) && Possible(After(moves[..|moves| - 1]), moves[|moves| - 1]))
  }

  function After(moves: seq<Move>): World {
    if moves == [] then World(EMPTY, map[])
    else
      var w := After(moves[..|moves| - 1]);
      if Possible(w, moves[|moves| - 1]) then Moved(w, moves[|moves| - 1]) else w
  }

  /** The store's share of the moves. */
  function Actions(moves: seq<Move>): seq<Action> {
    if moves == [] then []
    else
      var m := moves[|moves| - 1];
      Actions(moves[..|moves| - 1]) + if m.Db? then [m.action] else []
  }

  /** A call the tool can serve. */
  predicate Serves(m: Move, key: string) {
    m.Call? && m.att.key == key && key != "" && m.size <= MAX_JSON_BYTES && ResultFor(m.att.resolved).Some?
  }

  function Calls(moves: seq<Move>, key: string): nat {
    if moves == [] then 0
    else Calls(moves[..|moves| - 1], key) + if Serves(moves[|moves| - 1], key) then 1 else 0
  }

  lemma {:induction false} StoreRuns(moves: seq<Move>)
    requires Plays(moves)
    ensures Legal(Actions(moves)) && Final(Actions(moves)) == After(moves).sys
  {
    hide Enabled, Next, InvokeTx;
    if moves != [] {
      var front, m := moves[..|moves| - 1], moves[|moves| - 1];
      StoreRuns(front);
      if m.Db? {
        Extend(Actions(front), m.action);
      } else {
        assert Actions(front) + [] == Actions(front);
      }
    }
  }

  /** One key, one input: attempts that share a key share their stored input. */
  lemma {:induction false} SameKeySameInput(s: Sys, a: StepAttempt, b: StepAttempt)
    requires SysInv(s) && a in s.issued && b in s.issued && a.key == b.key
    ensures a.resolved == b.resolved
  {
    hide Inv;
    assert IssuedOk(a, s.db) && IssuedOk(b, s.db);
  }

  predicate EffectOk(w: World, key: string, calls: nat) {
    if key in w.ledger then
      var e := w.ledger[key];
      && e.effectCount == 1 && e.requestCount == calls > 0
      && ResultFor(e.payload) == Some(e.result)
      && exists att :: att in w.sys.issued && att.key == key && att.resolved == e.payload
    else calls == 0
  }

  lemma {:induction false} EffectKeeps(w: World, m: Move, key: string, calls: nat)
    requires SysInv(w.sys) && Possible(w, m) && EffectOk(w, key, calls)
    ensures EffectOk(Moved(w, m), key, calls + if Serves(m, key) then 1 else 0)
  {
    hide Inv, SysInv, Perform, Enabled, NewTask;
    var w' := Moved(w, m);
    if key in w.ledger {
      var att :| att in w.sys.issued && att.key == key && att.resolved == w.ledger[key].payload;
      assert att in w'.sys.issued;
      if m.Call? && m.att.key == key { SameKeySameInput(w.sys, att, m.att); }
    }
  }

  lemma {:induction false} LedgerExact(moves: seq<Move>, key: string)
    requires Plays(moves)
    ensures EffectOk(After(moves), key, Calls(moves, key))
  {
    hide Possible, Moved, SysInv, Serves, EffectOk;
    if moves == [] {
      NothingYet(key);
    } else {
      var front, m := moves[..|moves| - 1], moves[|moves| - 1];
      LedgerExact(front, key);
      StoreRuns(front);
      ReachableInv(Actions(front));
      EffectKeeps(After(front), m, key, Calls(front, key));
    }
  }

  lemma NothingYet(key: string)
    ensures EffectOk(World(EMPTY, map[]), key, 0)
  {
  }

  /** One effect per step, end to end: whoever makes the call and however often, it is served without a
      payload conflict, the effect happened once, the answer is that of the first call, and the ledger's
      request count is the number of calls. */
  lemma {:induction false} OneEffectPerStep(moves: seq<Move>, att: StepAttempt, size: nat)
    requires Plays(moves) && att in After(moves).sys.issued
    requires Serves(Call(att, size), att.key)
    ensures var (ledger, reply) := InvokeTx(After(moves).ledger, att.key, att.resolved, size);
            && reply.Recorded? && reply.created == (Calls(moves, att.key) == 0)
            && reply.effect.effectCount == 1
            && reply.effect.requestCount == Calls(moves, att.key) + 1
            && att.resolved.Obj? && "value" in att.resolved.fields
            && reply.effect.result == Obj(map["value" := att.resolved.fields["value"]])
            && (att.key in After(moves).ledger ==> reply.effect.result == After(moves).ledger[att.key].result)
  {
    hide Plays, After, Calls, Inv;
    LedgerExact(moves, att.key);
    StoreRuns(moves);
    ReachableInv(Actions(moves));
    var w := After(moves);
    if att.key in w.ledger {
      var first :| first in w.sys.issued && first.key == att.key && first.resolved == w.ledger[att.key].payload;
      SameKeySameInput(w.sys, first, att);
    }
  }
}
