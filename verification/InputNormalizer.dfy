/** The skill adapter's check of a prepared input against a hotline's input schema. */
module InputNormalizer {
  import opened Collections
  import EnvFile

  datatype Number = Finite(value: real) | Infinite(negative: bool) | NotANumber

  datatype Value =
    | Null
    | Bool(flag: bool)
    | Num(number: Number)
    | Text(text: string)
    | Array(items: seq<Value>)
    | Object(fields: seq<Field>)

  /** An object's own entries, in enumeration order. */
  datatype Field = Field(name: string, value: Value)

  datatype TypeWord = NoType | StringType | NumberType | IntegerType | BooleanType | ArrayType | ObjectType | OtherType

  datatype Schema = NoSchema | Schema(choices: Option<seq<Value>>, kind: TypeWord)

  /** Anything but an object schema is unsupported. */
  datatype InputSchema = Unsupported | ObjectSchema(properties: map<string, Schema>, required: seq<string>, additional: bool)

  datatype Code =
    | InvalidEnumValue
    | InvalidType
    | UnexpectedField
    | RequiredFieldMissing
    | EmptyStringNotAllowed
    | SchemaUnsupported
    | StringTrimmed

  datatype Problem = Problem(field: Option<string>, code: Code)

  // ------------------------------------------------------------------------- one value

  /** Membership by value for primitives; arrays and objects are compared by identity and never match. */
  predicate Listed(choices: seq<Value>, v: Value) {
    !v.Array? && !v.Object? && v in choices
  }

  predicate HasType(kind: TypeWord, v: Value) {
    match kind
    case NoType => true
    case StringType => v.Text?
    case NumberType => v.Num? && v.number.Finite?
    case IntegerType => v.Num? && v.number.Finite? && v.number.value.Floor as real == v.number.value
    case BooleanType => v.Bool?
    case ArrayType => v.Array?
    case ObjectType => v.Object?
    case OtherType => true
  }

  /** What the schema demands of a value, said once and without reference to any pass. */
  predicate Conforms(schema: Schema, v: Value) {
    schema.Schema? ==> (schema.choices.Some? ==> Listed(schema.choices.value, v)) && HasType(schema.kind, v)
  }

  datatype Outcome = Outcome(value: Value, errors: seq<Code>, warnings: seq<Code>)

  function NormalizeValue(schema: Schema, v: Value): Outcome {
    if schema.NoSchema? then Outcome(v, [], [])
    else if schema.choices.Some? && !Listed(schema.choices.value, v) then Outcome(v, [InvalidEnumValue], [])
    else if !HasType(schema.kind, v) then Outcome(v, [InvalidType], [])
    else if schema.kind.StringType? then
      var trimmed := EnvFile.Trim(v.text);
      Outcome(Text(trimmed), [], if trimmed != v.text then [StringTrimmed] else [])
    else Outcome(v, [], [])
  }

  /** A value is accepted exactly when it conforms, and only trimming ever changes an accepted one. */
  lemma AcceptedExactlyWhen(schema: Schema, v: Value)
    ensures NormalizeValue(schema, v).errors == [] <==> Conforms(schema, v)
    ensures NormalizeValue(schema, v).value != v ==>
              schema.Schema? && schema.kind.StringType? && v.Text? && NormalizeValue(schema, v).value == Text(EnvFile.Trim(v.text))
  {
  }

  function AsReal(n: int): real {
    n as real
  }

  /** An integer is a finite number that some whole number equals, so every integer is a number, and no other types overlap. */
  lemma TypesMean(v: Value)
    ensures HasType(IntegerType, v) <==> v.Num? && v.number.Finite? && exists n: int :: AsReal(n) == v.number.value
    ensures HasType(IntegerType, v) ==> HasType(NumberType, v)
    ensures HasType(NumberType, v) <==> v.Num? && v.number.Finite?
    ensures HasType(StringType, v) <==> v.Text?
    ensures HasType(BooleanType, v) <==> v.Bool?
    ensures HasType(ArrayType, v) <==> v.Array?
    ensures HasType(ObjectType, v) <==> v.Object?
    ensures HasType(NoType, v) && HasType(OtherType, v)
  {
    if v.Num? && v.number.Finite? {
      if exists n: int :: AsReal(n) == v.number.value {
        var n: int :| AsReal(n) == v.number.value;
        assert v.number.value.Floor == n;
      }
      if HasType(IntegerType, v) {
        assert AsReal(v.number.value.Floor) == v.number.value;
      }
    }
  }

  /** A refused value comes back as it was under one complaint, and a warning means an accepted string lost white edges. */
  lemma ComplaintsMean(schema: Schema, v: Value)
    ensures var o := NormalizeValue(schema, v);
            && (o.errors == [InvalidEnumValue] <==> schema.Schema? && schema.choices.Some? && !Listed(schema.choices.value, v))
            && (o.errors == [InvalidType] <==>
                  schema.Schema? && !HasType(schema.kind, v) && (schema.choices.Some? ==> Listed(schema.choices.value, v)))
            && (o.errors != [] ==> o.value == v && o.warnings == [] && |o.errors| == 1)
            && (o.warnings == [StringTrimmed] <==>
                  Conforms(schema, v) && schema.Schema? && schema.kind.StringType? && v.Text? && EnvFile.Trim(v.text) != v.text)
            && (o.warnings == [] || o.warnings == [StringTrimmed])
            && (Conforms(schema, v) && schema.Schema? && schema.kind.StringType? ==> v.Text? && o.value == Text(EnvFile.Trim(v.text)))
  {
  }

  /** The one way acceptance is not stable: a listed string whose trimmed form is not listed. */
  predicate TrimLeavesChoices(schema: Schema, v: Value) {
    && schema.Schema? && schema.kind.StringType? && schema.choices.Some? && v.Text?
    && Text(EnvFile.Trim(v.text)) !in schema.choices.value
  }

  predicate Settled(o: Outcome, v: Value) {
    o == Outcome(v, [], [])
  }

  /** An accepted value settles in one pass, and then conforms itself, exactly when trimming does not take it out of its choices. */
  lemma SettlesExactlyWhen(schema: Schema, v: Value)
    requires Conforms(schema, v)
    ensures var r := NormalizeValue(schema, v).value;
            && (Settled(NormalizeValue(schema, r), r) <==> !TrimLeavesChoices(schema, v))
            && (Conforms(schema, r) <==> !TrimLeavesChoices(schema, v))
  {
    if v.Text? {
      TrimTwice(v.text);
    }
  }

  lemma TrimTwice(s: string)
    ensures EnvFile.Trim(EnvFile.Trim(s)) == EnvFile.Trim(s)
  {
    EnvFile.TrimShape(s);
    EnvFile.TrimShape(EnvFile.Trim(s));
  }

  /** Every string choice of a string schema has its trimmed form among the choices. */
  predicate ChoicesClosed(schema: Schema) {
    schema.Schema? && schema.kind.StringType? && schema.choices.Some? ==>
      forall c :: c in schema.choices.value && c.Text? ==> Text(EnvFile.Trim(c.text)) in schema.choices.value
  }

  /** Whether every accepted value settles is a property of the schema alone. */
  lemma AllSettleExactlyWhen(schema: Schema)
    ensures (forall v :: Conforms(schema, v) ==>
               Settled(NormalizeValue(schema, NormalizeValue(schema, v).value), NormalizeValue(schema, v).value))
       <==> ChoicesClosed(schema)
  {
    if ChoicesClosed(schema) {
      forall v | Conforms(schema, v)
        ensures Settled(NormalizeValue(schema, NormalizeValue(schema, v).value), NormalizeValue(schema, v).value)
      {
        SettlesExactlyWhen(schema, v);
      }
    } else {
      var c :| c in schema.choices.value && c.Text? && Text(EnvFile.Trim(c.text)) !in schema.choices.value;
      assert Conforms(schema, c);
      SettlesExactlyWhen(schema, c);
    }
  }

  // ------------------------------------------------------------------------- the fields

  type Normalized = map<string, Value>

  function Prefixed(field: string, codes: seq<Code>): seq<Problem> {
    seq(|codes|, i requires 0 <= i < |codes| => Problem(Some(field), codes[i]))
  }

  datatype Report = Report(normalized: Normalized, errors: seq<Problem>, warnings: seq<Problem>)

  /** Assigning to `__proto__` creates no own field. */
  function PutField(normalized: Normalized, name: string, v: Value): Normalized {
    if name == "__proto__" then normalized else normalized[name := v]
  }

  function TakeField(schema: InputSchema, r: Report, f: Field): Report
    requires schema.ObjectSchema?
  {
    if f.name !in schema.properties then
      if schema.additional then r.(normalized := PutField(r.normalized, f.name, f.value))
      else r.(errors := r.errors + [Problem(Some(f.name), UnexpectedField)])
    else
      var o := NormalizeValue(schema.properties[f.name], f.value);
      Report(PutField(r.normalized, f.name, o.value), r.errors + Prefixed(f.name, o.errors), r.warnings + Prefixed(f.name, o.warnings))
  }

  function TakeFields(schema: InputSchema, fields: seq<Field>): Report
    requires schema.ObjectSchema?
  {
    if fields == [] then Report(map[], [], []) else TakeField(schema, TakeFields(schema, fields[..|fields| - 1]), fields[|fields| - 1])
  }

  /** What is wrong with one required field, if anything. */
  function Missing(schema: InputSchema, normalized: Normalized, name: string): seq<Problem>
    requires schema.ObjectSchema?
  {
    if name !in normalized then [Problem(Some(name), RequiredFieldMissing)]
    else if name in schema.properties && schema.properties[name].Schema? && schema.properties[name].kind.StringType?
            && normalized[name] == Text("")
    then [Problem(Some(name), EmptyStringNotAllowed)]
    else []
  }

  function MissingAll(schema: InputSchema, normalized: Normalized, required: seq<string>): seq<Problem>
    requires schema.ObjectSchema?
  {
    if required == [] then [] else
      MissingAll(schema, normalized, required[..|required| - 1]) + Missing(schema, normalized, required[|required| - 1])
  }

  /** Anything but an object counts as an empty one. */
  function FieldsOf(candidate: Value): seq<Field> {
    if candidate.Object? then candidate.fields else []
  }

  function Validated(schema: InputSchema, candidate: Value): Report
    requires schema.ObjectSchema?
  {
    var r := TakeFields(schema, FieldsOf(candidate));
    r.(errors := r.errors + MissingAll(schema, r.normalized, schema.required))
  }

  // ---------------------------------------------------------------------- the two loops

  class Findings {
    var errors: seq<Problem>
    var warnings: seq<Problem>

    constructor ()
      ensures errors == [] && warnings == []
    {
      errors, warnings := [], [];
    }

    method NormalizeValueBySchema(schema: Schema, v: Value, field: string) returns (result: Value)
      modifies this
      ensures result == NormalizeValue(schema, v).value
      ensures errors == old(errors) + Prefixed(field, NormalizeValue(schema, v).errors)
      ensures warnings == old(warnings) + Prefixed(field, NormalizeValue(schema, v).warnings)
    {
      if schema.NoSchema? {
        return v;
      }
      if schema.choices.Some? && !Listed(schema.choices.value, v) {
        errors := errors + [Problem(Some(field), InvalidEnumValue)];
        return v;
      }
      if !HasType(schema.kind, v) {
        errors := errors + [Problem(Some(field), InvalidType)];
        return v;
      }
      if schema.kind.StringType? {
        var trimmed := EnvFile.Trim(v.text);
        if v.text != trimmed {
          warnings := warnings + [Problem(Some(field), StringTrimmed)];
        }
        return Text(trimmed);
      }
      return v;
    }
  }

  /** One turn of the first loop. */
  method TakeOneField(schema: InputSchema, findings: Findings, normalized: Normalized, f: Field) returns (next: Normalized)
    requires schema.ObjectSchema?
    modifies findings
    ensures Report(next, findings.errors, findings.warnings)
         == TakeField(schema, Report(normalized, old(findings.errors), old(findings.warnings)), f)
  {
    if f.name !in schema.properties {
      if !schema.additional {
        findings.errors := findings.errors + [Problem(Some(f.name), UnexpectedField)];
        next := normalized;
      } else {
        next := PutField(normalized, f.name, f.value);
      }
    } else {
      var v := findings.NormalizeValueBySchema(schema.properties[f.name], f.value, f.name);
      next := PutField(normalized, f.name, v);
    }
  }

  method ValidatePreparedInput(schema: InputSchema, candidate: Value) returns (normalized: Normalized, errors: seq<Problem>, warnings: seq<Problem>)
    ensures schema.ObjectSchema? ==> Report(normalized, errors, warnings) == Validated(schema, candidate)
    ensures schema.Unsupported? ==> errors == [Problem(None, SchemaUnsupported)] && warnings == []
  {
    normalized := map[];
    if schema.Unsupported? {
      return map[], [Problem(None, SchemaUnsupported)], [];
    }
    var fields := FieldsOf(candidate);
    var findings := new Findings();
    var i := 0;
    while i < |fields|
      invariant 0 <= i <= |fields|
      invariant fresh(findings)
      invariant Report(normalized, findings.errors, findings.warnings) == TakeFields(schema, fields[..i])
    {
      assert fields[..i + 1][..i] == fields[..i];
      normalized := TakeOneField(schema, findings, normalized, fields[i]);
      i := i + 1;
    }
    assert fields[..|fields|] == fields;
    ghost var found := findings.errors;
    i := 0;
    while i < |schema.required|
      invariant 0 <= i <= |schema.required|
      invariant findings.errors == found + MissingAll(schema, normalized, schema.required[..i])
      invariant findings.warnings == TakeFields(schema, fields).warnings
    {
      assert schema.required[..i + 1][..i] == schema.required[..i];
      findings.errors := findings.errors + Missing(schema, normalized, schema.required[i]);
      i := i + 1;
    }
    assert schema.required[..|schema.required|] == schema.required;
    errors, warnings := findings.errors, findings.warnings;
  }

  // -------------------------------------------------------------------- what acceptance means

  ghost predicate DistinctNames(fields: seq<Field>) {
    forall i, j :: 0 <= i < j < |fields| ==> fields[i].name != fields[j].name
  }

  predicate FieldAllowed(schema: InputSchema, f: Field)
    requires schema.ObjectSchema?
  {
    if f.name in schema.properties then Conforms(schema.properties[f.name], f.value) else schema.additional
  }

  function NormalField(schema: InputSchema, f: Field): Value
    requires schema.ObjectSchema?
  {
    if f.name in schema.properties then NormalizeValue(schema.properties[f.name], f.value).value else f.value
  }

  predicate Present(fields: seq<Field>, name: string) {
    exists i :: 0 <= i < |fields| && fields[i].name == name
  }

  /** Without complaints, the result holds the input's fields and no others, each in its normal form. */
  lemma {:induction false} FieldsTaken(schema: InputSchema, fields: seq<Field>)
    requires schema.ObjectSchema? && DistinctNames(fields)
    ensures var r := TakeFields(schema, fields);
            && (r.errors == [] <==> forall f :: f in fields ==> FieldAllowed(schema, f))
            && (r.errors == [] ==> forall name :: name in r.normalized <==> name != "__proto__" && Present(fields, name))
            && (r.errors == [] ==> forall f :: f in fields && f.name != "__proto__" ==>
                  f.name in r.normalized && r.normalized[f.name] == NormalField(schema, f))
    decreases |fields|
  {
    if fields != [] {
      var init, f := fields[..|fields| - 1], fields[|fields| - 1];
      assert fields == init + [f];
      FieldsTaken(schema, init);
      if f.name in schema.properties {
        AcceptedExactlyWhen(schema.properties[f.name], f.value);
      }
      var r0, r := TakeFields(schema, init), TakeFields(schema, fields);
      assert r.errors == [] <==> r0.errors == [] && FieldAllowed(schema, f);
      if r.errors == [] {
        forall name ensures name in r.normalized <==> name != "__proto__" && Present(fields, name) {
          PresentSnoc(init, f, name);
        }
        forall g | g in init && g.name != "__proto__" ensures g.name in r.normalized && r.normalized[g.name] == NormalField(schema, g) {
          assert g.name != f.name;
        }
      }
    }
  }

  lemma PresentSnoc(fields: seq<Field>, f: Field, name: string)
    ensures Present(fields + [f], name) <==> Present(fields, name) || f.name == name
  {
    var longer := fields + [f];
    if Present(fields, name) {
      var i :| 0 <= i < |fields| && fields[i].name == name;
      assert longer[i].name == name;
    }
    if f.name == name {
      assert longer[|fields|].name == name;
    }
    if Present(longer, name) {
      var i :| 0 <= i < |longer| && longer[i].name == name;
      if i < |fields| {
        assert fields[i].name == name;
      }
    }
  }

  lemma {:induction false} NoneMissing(schema: InputSchema, normalized: Normalized, required: seq<string>)
    requires schema.ObjectSchema?
    ensures MissingAll(schema, normalized, required) == [] <==> forall name :: name in required ==> Missing(schema, normalized, name) == []
    decreases |required|
  {
    if required != [] {
      var init, last := required[..|required| - 1], required[|required| - 1];
      assert required == init + [last];
      NoneMissing(schema, normalized, init);
    }
  }

  /** A required field is satisfied by an own field whose normal form is not the empty string of a string schema. */
  predicate RequirementMet(schema: InputSchema, fields: seq<Field>, name: string)
    requires schema.ObjectSchema?
  {
    && name != "__proto__"
    && exists i :: 0 <= i < |fields| && fields[i].name == name
         && !(name in schema.properties && schema.properties[name].Schema? && schema.properties[name].kind.StringType?
              && NormalField(schema, fields[i]) == Text(""))
  }

  lemma RequirementAtField(schema: InputSchema, fields: seq<Field>, normalized: Normalized, name: string)
    requires schema.ObjectSchema? && DistinctNames(fields)
    requires forall n :: n in normalized <==> n != "__proto__" && Present(fields, n)
    requires forall f :: f in fields && f.name != "__proto__" ==> f.name in normalized && normalized[f.name] == NormalField(schema, f)
    ensures Missing(schema, normalized, name) == [] <==> RequirementMet(schema, fields, name)
  {
  }

  /**
   Acceptance, exactly: no errors if and only if every field is allowed, with its type and its
   choices, and every requirement is met. Then the result has the input's own fields and no
   others, each in its normal form.
   */
  lemma AcceptedInput(schema: InputSchema, candidate: Value)
    requires schema.ObjectSchema? && DistinctNames(FieldsOf(candidate))
    ensures var fields := FieldsOf(candidate);
            && (Validated(schema, candidate).errors == [] <==>
                  (forall f :: f in fields ==> FieldAllowed(schema, f)) && forall name :: name in schema.required ==> RequirementMet(schema, fields, name))
            && (Validated(schema, candidate).errors == [] ==>
                  && (forall name :: name in Validated(schema, candidate).normalized <==> name != "__proto__" && Present(fields, name))
                  && (forall f :: f in fields && f.name != "__proto__" ==>
                        f.name in Validated(schema, candidate).normalized
                        && Validated(schema, candidate).normalized[f.name] == NormalField(schema, f)))
  {
    var fields := FieldsOf(candidate);
    var r := TakeFields(schema, fields);
    FieldsTaken(schema, fields);
    NoneMissing(schema, r.normalized, schema.required);
    if r.errors == [] {
      forall name ensures Missing(schema, r.normalized, name) == [] <==> RequirementMet(schema, fields, name) {
        RequirementAtField(schema, fields, r.normalized, name);
      }
    }
  }

  // ------------------------------------------------------------------------- a second pass

  /** Some enumeration of a normalized input's fields. */
  ghost predicate Enumerates(fields: seq<Field>, normalized: Normalized) {
    && DistinctNames(fields)
    && (forall f :: f in fields ==> f.name in normalized && normalized[f.name] == f.value)
    && (forall name :: name in normalized ==> Present(fields, name))
  }

  /** Some declared field of the input was trimmed out of its choices. */
  ghost predicate SomeTrimLeavesChoices(schema: InputSchema, fields: seq<Field>)
    requires schema.ObjectSchema?
  {
    exists f :: f in fields && f.name != "__proto__" && f.name in schema.properties && TrimLeavesChoices(schema.properties[f.name], f.value)
  }

  predicate SettledField(schema: InputSchema, f: Field)
    requires schema.ObjectSchema?
  {
    if f.name in schema.properties then Settled(NormalizeValue(schema.properties[f.name], f.value), f.value) else schema.additional
  }

  /** A pass over fields that all settle returns them unchanged, without complaint or warning. */
  lemma {:induction false} SettledFields(schema: InputSchema, fields: seq<Field>)
    requires schema.ObjectSchema?
    requires forall f :: f in fields ==> SettledField(schema, f)
    ensures TakeFields(schema, fields).errors == [] && TakeFields(schema, fields).warnings == []
    ensures DistinctNames(fields) ==> forall f :: f in fields ==> NormalField(schema, f) == f.value
    decreases |fields|
  {
    if fields != [] {
      var init, f := fields[..|fields| - 1], fields[|fields| - 1];
      assert fields == init + [f] && f in fields;
      SettledFields(schema, init);
    }
  }

  /** The field of the input a field of the result came from. */
  lemma CameFrom(schema: InputSchema, fields: seq<Field>, normalized: Normalized, g: Field) returns (f: Field)
    requires schema.ObjectSchema? && DistinctNames(fields)
    requires forall name :: name in normalized <==> name != "__proto__" && Present(fields, name)
    requires forall x :: x in fields && x.name != "__proto__" ==> x.name in normalized && normalized[x.name] == NormalField(schema, x)
    requires g.name in normalized && normalized[g.name] == g.value
    ensures f in fields && f.name == g.name && g.value == NormalField(schema, f) && g.name != "__proto__"
  {
    var i :| 0 <= i < |fields| && fields[i].name == g.name;
    f := fields[i];
  }

  /**
   Validating an accepted input again returns it unchanged, with no errors and no warnings,
   exactly when no declared string was trimmed out of its choices.
   */
  lemma SecondPassExactlyWhen(schema: InputSchema, candidate: Value, again: seq<Field>)
    requires schema.ObjectSchema? && DistinctNames(FieldsOf(candidate)) && Validated(schema, candidate).errors == []
    requires Enumerates(again, Validated(schema, candidate).normalized)
    ensures Validated(schema, Object(again)) == Report(Validated(schema, candidate).normalized, [], [])
       <==> !SomeTrimLeavesChoices(schema, FieldsOf(candidate))
  {
    var fields := FieldsOf(candidate);
    var first := Validated(schema, candidate);
    AcceptedInput(schema, candidate);
    if SomeTrimLeavesChoices(schema, fields) {
      BadFieldComplains(schema, fields, first.normalized, again);
    } else {
      forall g | g in again
        ensures g.name != "__proto__" && SettledField(schema, g)
      {
        var f := CameFrom(schema, fields, first.normalized, g);
        assert FieldAllowed(schema, f);
        if g.name in schema.properties {
          SettlesExactlyWhen(schema.properties[g.name], f.value);
        }
      }
      SettledFields(schema, again);
      SameAgain(schema, first.normalized, again);
    }
  }

  lemma BadFieldComplains(schema: InputSchema, fields: seq<Field>, normalized: Normalized, again: seq<Field>)
    requires schema.ObjectSchema? && DistinctNames(fields) && SomeTrimLeavesChoices(schema, fields)
    requires forall f :: f in fields ==> FieldAllowed(schema, f)
    requires forall f :: f in fields && f.name != "__proto__" ==> f.name in normalized && normalized[f.name] == NormalField(schema, f)
    requires Enumerates(again, normalized)
    ensures Validated(schema, Object(again)).errors != []
  {
    var f :| f in fields && f.name != "__proto__" && f.name in schema.properties && TrimLeavesChoices(schema.properties[f.name], f.value);
    assert FieldAllowed(schema, f) && Present(again, f.name);
    var i :| 0 <= i < |again| && again[i].name == f.name;
    assert again[i] in again;
    SettlesExactlyWhen(schema.properties[f.name], f.value);
    assert !FieldAllowed(schema, again[i]);
    FieldsTaken(schema, again);
  }

  lemma {:induction false} SameAgain(schema: InputSchema, normalized: Normalized, again: seq<Field>)
    requires schema.ObjectSchema? && Enumerates(again, normalized) && MissingAll(schema, normalized, schema.required) == []
    requires TakeFields(schema, again).errors == [] && TakeFields(schema, again).warnings == []
    requires forall f :: f in again ==> f.name != "__proto__" && NormalField(schema, f) == f.value
    ensures Validated(schema, Object(again)) == Report(normalized, [], [])
  {
    FieldsTaken(schema, again);
    var r := TakeFields(schema, again);
    forall name ensures name in r.normalized <==> name in normalized {
      if Present(again, name) {
        var i :| 0 <= i < |again| && again[i].name == name;
        assert again[i] in again;
      }
    }
    forall name | name in normalized ensures r.normalized[name] == normalized[name] {
      var i :| 0 <= i < |again| && again[i].name == name;
      assert again[i] in again;
    }
    assert r.normalized == normalized;
  }
}
