/** References from a step's input to the previous step's output and to the task checkpoint
    (internal/task/resolve.go). */
module Resolve {
  import opened Basics

  /** A JSON value (section 3 of RFC 8259). Objects are maps, so equality is that of jsonb:
      blind to the order of the fields. */
  datatype Json =
    | Null
    | Bool(flag: bool)
    | Number(lexeme: string)
    | Str(text: string)
    | Arr(items: seq<Json>)
    | Obj(fields: map<string, Json>)

  const REF := "$ref"
  const PREVIOUS := "previous_output"
  const CHECKPOINT := "checkpoint"

  datatype Fault =
    | ExtraFields
    | NotAString
    | UnknownReference
    | PreviousNotAllowed
    | PreviousUnavailable
    | CheckpointUnavailable

  // ----- What references mean -----

  predicate IsReference(v: Json, name: string) {
    v == Obj(map[REF := Str(name)])
  }

  /** Every object with a "$ref" field is exactly one of the two known references. */
  predicate WellFormed(v: Json) {
    match v
    case Arr(items) => forall i | 0 <= i < |items| :: WellFormed(items[i])
    case Obj(fields) =>
      if REF in fields then IsReference(v, PREVIOUS) || IsReference(v, CHECKPOINT)
      else forall k | k in fields :: WellFormed(fields[k])
    case _ => true
  }

  /** Some node of v is the reference called name. */
  predicate Uses(v: Json, name: string) {
    match v
    case Arr(items) => exists i | 0 <= i < |items| :: Uses(items[i], name)
    case Obj(fields) =>
      if REF in fields then IsReference(v, name) else exists k | k in fields :: Uses(fields[k], name)
    case _ => false
  }

  /** One-pass substitution: what is put in is not searched again. */
  function Substitute(v: Json, previous: Json, checkpoint: Json): Json {
    match v
    case Arr(items) => Arr(seq(|items|, i requires 0 <= i < |items| => Substitute(items[i], previous, checkpoint)))
    case Obj(fields) =>
      if REF in fields then (if IsReference(v, PREVIOUS) then previous else checkpoint)
      else Obj(map k | k in fields :: Substitute(fields[k], previous, checkpoint))
    case _ => v
  }

  /** A missing value and a JSON null are both unavailable. */
  function Decoded(v: Option<Json>): Json {
    match v case None => Null case Some(j) => j
  }

  predicate Accepted(v: Json, allowPrevious: bool) {
    WellFormed(v) && (Uses(v, PREVIOUS) ==> allowPrevious)
  }

  predicate Resolvable(v: Json, previous: Json, checkpoint: Json) {
    WellFormed(v) && (Uses(v, PREVIOUS) ==> previous != Null) && (Uses(v, CHECKPOINT) ==> checkpoint != Null)
  }

  /** The result of ResolveInput, None standing for every error. */
  function Resolution(v: Json, previous: Option<Json>, checkpoint: Json): Option<Json> {
    if Resolvable(v, Decoded(previous), checkpoint) then Some(Substitute(v, Decoded(previous), checkpoint)) else None
  }

  // ----- Which error is reported -----

  function ShapeFault(fields: map<string, Json>): Option<Fault>
    requires REF in fields
  {
    if |fields| != 1 then Some(ExtraFields)
    else if !fields[REF].Str? then Some(NotAString)
    else if fields[REF].text != PREVIOUS && fields[REF].text != CHECKPOINT then Some(UnknownReference)
    else None
  }

  predicate ValidationFault(fields: map<string, Json>, allowPrevious: bool, f: Fault)
    requires REF in fields
  {
    ShapeFault(fields) == Some(f) || (f.PreviousNotAllowed? && !allowPrevious && IsReference(Obj(fields), PREVIOUS))
  }

  predicate ResolutionFault(fields: map<string, Json>, previous: Json, checkpoint: Json, f: Fault)
    requires REF in fields
  {
    || ShapeFault(fields) == Some(f)
    || (f.PreviousUnavailable? && previous == Null && IsReference(Obj(fields), PREVIOUS))
    || (f.CheckpointUnavailable? && checkpoint == Null && IsReference(Obj(fields), CHECKPOINT))
  }

  /** Some node of v is rejected by validation for reason f. */
  predicate Rejected(v: Json, allowPrevious: bool, f: Fault) {
    match v
    case Arr(items) => exists i | 0 <= i < |items| :: Rejected(items[i], allowPrevious, f)
    case Obj(fields) =>
      if REF in fields then ValidationFault(fields, allowPrevious, f)
      else exists k | k in fields :: Rejected(fields[k], allowPrevious, f)
    case _ => false
  }

  /** Some node of v fails to resolve for reason f. */
  predicate Fails(v: Json, previous: Json, checkpoint: Json, f: Fault) {
    match v
    case Arr(items) => exists i | 0 <= i < |items| :: Fails(items[i], previous, checkpoint, f)
    case Obj(fields) =>
      if REF in fields then ResolutionFault(fields, previous, checkpoint, f)
      else exists k | k in fields :: Fails(fields[k], previous, checkpoint, f)
    case _ => false
  }

  lemma SingleField(fields: map<string, Json>)
    requires REF in fields
    ensures |fields| == 1 <==> fields == map[REF := fields[REF]]
  {
    if |fields| == 1 {
      var only := {REF};
      assert |fields.Keys - only| == 0;
      assert fields.Keys == only;
      assert fields == map[REF := fields[REF]];
    }
  }

  // ----- How a node's verdict follows from its children's -----

  lemma ItemsResolve(items: seq<Json>, resolved: seq<Json>, previous: Json, checkpoint: Json)
    requires |resolved| == |items|
    requires forall i | 0 <= i < |items| ::
               Resolvable(items[i], previous, checkpoint) && resolved[i] == Substitute(items[i], previous, checkpoint)
    ensures Resolvable(Arr(items), previous, checkpoint)
    ensures Substitute(Arr(items), previous, checkpoint) == Arr(resolved)
  {
    forall i | 0 <= i < |items|
      ensures WellFormed(items[i])
      ensures Uses(items[i], PREVIOUS) ==> previous != Null
      ensures Uses(items[i], CHECKPOINT) ==> checkpoint != Null
    {
      assert Resolvable(items[i], previous, checkpoint);
    }
    assert Substitute(Arr(items), previous, checkpoint).items == resolved;
  }

  lemma FieldsResolve(fields: map<string, Json>, previous: Json, checkpoint: Json)
    requires REF !in fields
    requires forall k | k in fields :: Resolvable(fields[k], previous, checkpoint)
    ensures Resolvable(Obj(fields), previous, checkpoint)
  {
    if Uses(Obj(fields), PREVIOUS) {
      var k :| k in fields && Uses(fields[k], PREVIOUS);
    }
    if Uses(Obj(fields), CHECKPOINT) {
      var k :| k in fields && Uses(fields[k], CHECKPOINT);
    }
  }

  lemma FieldsSubstitute(fields: map<string, Json>, resolved: map<string, Json>, previous: Json, checkpoint: Json)
    requires REF !in fields && resolved.Keys == fields.Keys
    requires forall k | k in fields :: resolved[k] == Substitute(fields[k], previous, checkpoint)
    ensures Substitute(Obj(fields), previous, checkpoint) == Obj(resolved)
  {
    assert Substitute(Obj(fields), previous, checkpoint).fields == resolved;
  }

  lemma ItemFails(items: seq<Json>, i: nat, previous: Json, checkpoint: Json, f: Fault)
    requires i < |items| && !Resolvable(items[i], previous, checkpoint) && Fails(items[i], previous, checkpoint, f)
    ensures !Resolvable(Arr(items), previous, checkpoint) && Fails(Arr(items), previous, checkpoint, f)
  {
  }

  lemma FieldFails(fields: map<string, Json>, key: string, previous: Json, checkpoint: Json, f: Fault)
    requires REF !in fields && key in fields
    requires !Resolvable(fields[key], previous, checkpoint) && Fails(fields[key], previous, checkpoint, f)
    ensures !Resolvable(Obj(fields), previous, checkpoint) && Fails(Obj(fields), previous, checkpoint, f)
  {
  }

  lemma LeafResolves(v: Json, previous: Json, checkpoint: Json)
    requires !v.Arr? && !v.Obj?
    ensures Resolvable(v, previous, checkpoint) && Substitute(v, previous, checkpoint) == v
  {
  }

  lemma ReferenceResolves(fields: map<string, Json>, previous: Json, checkpoint: Json)
    requires REF in fields
    ensures match ShapeFault(fields)
            case Some(f) =>
              !Resolvable(Obj(fields), previous, checkpoint) && Fails(Obj(fields), previous, checkpoint, f)
            case None =>
              var value := if fields[REF].text == PREVIOUS then previous else checkpoint;
              if value != Null then
                Resolvable(Obj(fields), previous, checkpoint) && Substitute(Obj(fields), previous, checkpoint) == value
              else
                && !Resolvable(Obj(fields), previous, checkpoint)
                && Fails(Obj(fields), previous, checkpoint,
                         if fields[REF].text == PREVIOUS then PreviousUnavailable else CheckpointUnavailable)
  {
    SingleField(fields);
  }

  // ----- The two traversals -----

  method ValidateReferences(value: Json, allowPrevious: bool) returns (fault: Option<Fault>)
    ensures fault.None? <==> Accepted(value, allowPrevious)
    ensures fault.Some? ==> Rejected(value, allowPrevious, fault.value)
    decreases value
  {
    match value {
      case Arr(items) =>
        for i := 0 to |items|
          invariant forall j | 0 <= j < i :: Accepted(items[j], allowPrevious)
        {
          fault := ValidateReferences(items[i], allowPrevious);
          if fault.Some? { return; }
        }
        return None;
      case Obj(fields) =>
        if REF in fields {
          SingleField(fields);
          if |fields| != 1 { return Some(ExtraFields); }
          if !fields[REF].Str? { return Some(NotAString); }
          var name := fields[REF].text;
          if name == PREVIOUS {
            if !allowPrevious { return Some(PreviousNotAllowed); }
          } else if name != CHECKPOINT {
            return Some(UnknownReference);
          }
          return None;
        }
        var todo := fields.Keys;
        while todo != {}
          invariant todo <= fields.Keys
          invariant forall k | k in fields && k !in todo :: Accepted(fields[k], allowPrevious)
        {
          var key :| key in todo;
          fault := ValidateReferences(fields[key], allowPrevious);
          if fault.Some? { return; }
          todo := todo - {key};
        }
        return None;
      case _ =>
        return None;
    }
  }

  method ResolveValue(value: Json, previous: Json, checkpoint: Json) returns (r: Result<Json, Fault>)
    ensures r.Success? <==> Resolvable(value, previous, checkpoint)
    ensures r.Success? ==> r.value == Substitute(value, previous, checkpoint)
    ensures r.Failure? ==> Fails(value, previous, checkpoint, r.error)
    decreases value
  {
    hide WellFormed, Uses, Resolvable, Substitute, Fails;
    match value {
      case Arr(items) =>
        var resolved := [];
        for i := 0 to |items|
          invariant |resolved| == i
          invariant forall j | 0 <= j < i ::
            Resolvable(items[j], previous, checkpoint) && resolved[j] == Substitute(items[j], previous, checkpoint)
        {
          r := ResolveValue(items[i], previous, checkpoint);
          if r.Failure? {
            ItemFails(items, i, previous, checkpoint, r.error);
            return;
          }
          resolved := resolved + [r.value];
        }
        ItemsResolve(items, resolved, previous, checkpoint);
        return Success(Arr(resolved));
      case Obj(fields) =>
        if REF in fields {
          ReferenceResolves(fields, previous, checkpoint);
          if |fields| != 1 { return Failure(ExtraFields); }
          if !fields[REF].Str? { return Failure(NotAString); }
          var name := fields[REF].text;
          if name == PREVIOUS {
            return if previous == Null then Failure(PreviousUnavailable) else Success(previous);
          } else if name == CHECKPOINT {
            return if checkpoint == Null then Failure(CheckpointUnavailable) else Success(checkpoint);
          }
          return Failure(UnknownReference);
        }
        var resolved: map<string, Json> := map[];
        var todo := fields.Keys;
        while todo != {}
          invariant todo <= fields.Keys && resolved.Keys == fields.Keys - todo
          invariant forall k | k in resolved ::
            Resolvable(fields[k], previous, checkpoint) && resolved[k] == Substitute(fields[k], previous, checkpoint)
        {
          var key :| key in todo;
          r := ResolveValue(fields[key], previous, checkpoint);
          if r.Failure? {
            FieldFails(fields, key, previous, checkpoint, r.error);
            return;
          }
          resolved := resolved[key := r.value];
          todo := todo - {key};
        }
        FieldsResolve(fields, previous, checkpoint);
        FieldsSubstitute(fields, resolved, previous, checkpoint);
        return Success(Obj(resolved));
      case _ =>
        LeafResolves(value, previous, checkpoint);
        return Success(value);
    }
  }

  method ResolveInput(configured: Json, previousOutput: Option<Json>, checkpoint: Json) returns (r: Result<Json, Fault>)
    ensures r.Success? <==> Resolution(configured, previousOutput, checkpoint).Some?
    ensures r.Success? ==> Some(r.value) == Resolution(configured, previousOutput, checkpoint)
  {
    r := ResolveValue(configured, Decoded(previousOutput), checkpoint);
  }

  // ----- What validation buys -----

  /** Validated input resolves exactly when the values it really uses are there. */
  lemma AcceptedResolves(v: Json, allowPrevious: bool, previous: Json, checkpoint: Json)
    requires Accepted(v, allowPrevious)
    ensures checkpoint != Null && (allowPrevious ==> previous != Null) ==> Resolvable(v, previous, checkpoint)
    ensures Resolvable(v, previous, checkpoint) <==>
              (Uses(v, PREVIOUS) ==> previous != Null) && (Uses(v, CHECKPOINT) ==> checkpoint != Null)
  {
  }

  lemma ItemUses(items: seq<Json>, i: nat)
    requires i < |items| && WellFormed(Arr(items))
    ensures WellFormed(items[i])
    ensures Uses(items[i], PREVIOUS) ==> Uses(Arr(items), PREVIOUS)
    ensures Uses(items[i], CHECKPOINT) ==> Uses(Arr(items), CHECKPOINT)
  {
  }

  lemma FieldUses(fields: map<string, Json>, key: string)
    requires REF !in fields && key in fields && WellFormed(Obj(fields))
    ensures WellFormed(fields[key])
    ensures Uses(fields[key], PREVIOUS) ==> Uses(Obj(fields), PREVIOUS)
    ensures Uses(fields[key], CHECKPOINT) ==> Uses(Obj(fields), CHECKPOINT)
  {
  }

  /** What is not used does not matter. */
  lemma {:induction false} SubstituteIgnoresUnused(v: Json, p1: Json, c1: Json, p2: Json, c2: Json)
    requires WellFormed(v)
    requires Uses(v, PREVIOUS) ==> p1 == p2
    requires Uses(v, CHECKPOINT) ==> c1 == c2
    ensures Substitute(v, p1, c1) == Substitute(v, p2, c2)
  {
    match v
    case Arr(items) =>
      forall i | 0 <= i < |items| ensures Substitute(items[i], p1, c1) == Substitute(items[i], p2, c2) {
        ItemUses(items, i);
        SubstituteIgnoresUnused(items[i], p1, c1, p2, c2);
      }
      assert Substitute(v, p1, c1).items == Substitute(v, p2, c2).items;
    case Obj(fields) =>
      if REF !in fields {
        forall k | k in fields ensures Substitute(fields[k], p1, c1) == Substitute(fields[k], p2, c2) {
          FieldUses(fields, k);
          SubstituteIgnoresUnused(fields[k], p1, c1, p2, c2);
        }
        assert Substitute(v, p1, c1).fields == Substitute(v, p2, c2).fields;
      }
    case _ =>
  }

  /** Input validated for the first step resolves the same whatever came before it. */
  lemma FirstStepIgnoresPrevious(v: Json, p1: Option<Json>, p2: Option<Json>, checkpoint: Json)
    requires Accepted(v, false)
    ensures Resolution(v, p1, checkpoint) == Resolution(v, p2, checkpoint)
  {
    SubstituteIgnoresUnused(v, Decoded(p1), checkpoint, Decoded(p2), checkpoint);
  }

  lemma {:induction false} ReferenceFreeUnchanged(v: Json, previous: Json, checkpoint: Json)
    requires WellFormed(v) && !Uses(v, PREVIOUS) && !Uses(v, CHECKPOINT)
    ensures Substitute(v, previous, checkpoint) == v
  {
    match v
    case Arr(items) =>
      forall i | 0 <= i < |items| ensures Substitute(items[i], previous, checkpoint) == items[i] {
        ReferenceFreeUnchanged(items[i], previous, checkpoint);
      }
    case Obj(fields) =>
      forall k | k in fields ensures Substitute(fields[k], previous, checkpoint) == fields[k] {
        ReferenceFreeUnchanged(fields[k], previous, checkpoint);
      }
    case _ =>
  }
}
