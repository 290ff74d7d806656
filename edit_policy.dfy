/**
 * The edit-policy dialog: `validateJson` on each of the five JSON text fields, the submit
 * handler's loop that validates them all, the payload it builds, and `handleOpenChange`.
 * `JSON.parse` is the abstract `Codec` of the `Json` module.
 */
module EditPolicy {
  import opened Wrappers
  import opened Js
  import opened Json

  datatype JsonField = SubjectConditions | ResourceConditions | ActionConditions | EnvironmentConditions | Obligations

  /** The form field's name, which is also its key in `jsonErrors`. */
  function FieldName(f: JsonField): string {
    match f
    case SubjectConditions => "subject_conditions"
    case ResourceConditions => "resource_conditions"
    case ActionConditions => "action_conditions"
    case EnvironmentConditions => "environment_conditions"
    case Obligations => "obligations"
  }

  lemma FieldNameInjective(f: JsonField, g: JsonField)
    ensures FieldName(f) == FieldName(g) <==> f == g
  {
  }

  /** The fields in the order the submit handler visits them. */
  const JsonFields: seq<JsonField> :=
    [SubjectConditions, ResourceConditions, ActionConditions, EnvironmentConditions, Obligations]

  /** Where a field sits in `JsonFields`. */
  function Index(f: JsonField): (i: nat)
    ensures i < |JsonFields| && JsonFields[i] == f
  {
    match f
    case SubjectConditions => 0
    case ResourceConditions => 1
    case ActionConditions => 2
    case EnvironmentConditions => 3
    case Obligations => 4
  }

  predicate Distinct(fields: seq<JsonField>) {
    forall i, j :: 0 <= i < j < |fields| ==> fields[i] != fields[j]
  }

  datatype FormData = FormData(
    name: string, description: string, policyType: string, priority: int, isActive: bool, effect: string,
    subject: string, resource: string, action: string, environment: string, obligations: string)

  function Text(d: FormData, f: JsonField): string {
    match f
    case SubjectConditions => d.subject
    case ResourceConditions => d.resource
    case ActionConditions => d.action
    case EnvironmentConditions => d.environment
    case Obligations => d.obligations
  }

  function Lookup(m: map<string, string>, k: string): Option<string> {
    if k in m then Some(m[k]) else None
  }

  // ---------------------------------------------------------------------------
  // validateJson

  /** A field passes `validateJson` when it is blank (`!text.trim()`, see `TrimEmptyIffBlank`)
      or parses. */
  predicate FieldValid(codec: Codec, text: string) {
    Blank(text) || codec.parse(text).Parsed?
  }

  /** The entry `validateJson` writes for a field it does not skip. */
  function Verdict(codec: Codec, text: string): (m: string)
    ensures m == "" <==> codec.parse(text).Parsed?
    ensures codec.parse(text).SyntaxError? ==> m == "Invalid JSON: " + codec.parse(text).message
  {
    match codec.parse(text)
    case Parsed(_) => ""
    case SyntaxError(message) => "Invalid JSON: " + message
  }

  datatype Validation = Validation(errors: map<string, string>, ok: bool)

  /** `validateJson(text, name)` from the errors `errors`: a blank text passes and writes
      nothing (an old message under `name` stays), any other text passes exactly when it
      parses and records its verdict under `name`. */
  function ValidateJsonStep(codec: Codec, errors: map<string, string>, text: string, name: string): (v: Validation)
    ensures v.ok <==> FieldValid(codec, text)
    ensures Blank(text) ==> v.errors == errors
    ensures !Blank(text) ==> v.errors == errors[name := Verdict(codec, text)]
  {
    if Blank(text) then Validation(errors, true)
    else Validation(errors[name := Verdict(codec, text)], codec.parse(text).Parsed?)
  }

  /** The submit handler's loop over `fields`, as a value: every field is validated, whatever
      the earlier ones gave, and the result fails if any of them failed. */
  function ValidateFields(codec: Codec, errors: map<string, string>, d: FormData, fields: seq<JsonField>): Validation
    decreases |fields|
  {
    if |fields| == 0 then Validation(errors, true)
    else
      var prev := ValidateFields(codec, errors, d, fields[..|fields| - 1]);
      var f := fields[|fields| - 1];
      var step := ValidateJsonStep(codec, prev.errors, Text(d, f), FieldName(f));
      Validation(step.errors, prev.ok && step.ok)
  }

  /** The loop succeeds exactly when every field is valid. */
  lemma {:induction false} OkIffEveryFieldValid(codec: Codec, errors: map<string, string>, d: FormData, fields: seq<JsonField>)
    ensures ValidateFields(codec, errors, d, fields).ok <==> forall i :: 0 <= i < |fields| ==> FieldValid(codec, Text(d, fields[i]))
    decreases |fields|
  {
    if |fields| > 0 {
      var init, last := fields[..|fields| - 1], fields[|fields| - 1];
      OkIffEveryFieldValid(codec, errors, d, init);
      var prev := ValidateFields(codec, errors, d, init);
      assert ValidateFields(codec, errors, d, fields).ok
        == (prev.ok && ValidateJsonStep(codec, prev.errors, Text(d, last), FieldName(last)).ok);
      assert forall i :: 0 <= i < |init| ==> init[i] == fields[i];
    }
  }

  /** The names of the fields in `fields` that are not blank. */
  function Touched(d: FormData, fields: seq<JsonField>): set<string> {
    set i | 0 <= i < |fields| && !Blank(Text(d, fields[i])) :: FieldName(fields[i])
  }

  /** After the loop, every non-blank field carries its own verdict, so every unparsable one
      has its message, not only the first. */
  lemma {:induction false} VerdictsAfterValidation(codec: Codec, errors: map<string, string>, d: FormData, fields: seq<JsonField>)
    requires Distinct(fields)
    ensures forall i :: 0 <= i < |fields| && !Blank(Text(d, fields[i])) ==>
              Lookup(ValidateFields(codec, errors, d, fields).errors, FieldName(fields[i])) == Some(Verdict(codec, Text(d, fields[i])))
    decreases |fields|
  {
    if |fields| > 0 {
      var n := |fields| - 1;
      var init, last := fields[..n], fields[n];
      VerdictsAfterValidation(codec, errors, d, init);
      var prev := ValidateFields(codec, errors, d, init).errors;
      var r := ValidateFields(codec, errors, d, fields).errors;
      assert r == ValidateJsonStep(codec, prev, Text(d, last), FieldName(last)).errors;
      forall i | 0 <= i < |fields| && !Blank(Text(d, fields[i]))
        ensures Lookup(r, FieldName(fields[i])) == Some(Verdict(codec, Text(d, fields[i])))
      {
        if i < n {
          assert init[i] == fields[i];
          FieldNameInjective(fields[i], last);
        }
      }
    }
  }

  /** After the loop, every key that names no non-blank field, the blank fields' own
      included, holds what it held before. */
  lemma {:induction false} UntouchedKeysKept(codec: Codec, errors: map<string, string>, d: FormData, fields: seq<JsonField>)
    ensures forall k :: k !in Touched(d, fields) ==> Lookup(ValidateFields(codec, errors, d, fields).errors, k) == Lookup(errors, k)
    decreases |fields|
  {
    if |fields| > 0 {
      var n := |fields| - 1;
      var init, last := fields[..n], fields[n];
      UntouchedKeysKept(codec, errors, d, init);
      var prev := ValidateFields(codec, errors, d, init).errors;
      var r := ValidateFields(codec, errors, d, fields).errors;
      assert r == ValidateJsonStep(codec, prev, Text(d, last), FieldName(last)).errors;
      forall j | j in Touched(d, init) ensures j in Touched(d, fields) {
        var i :| 0 <= i < |init| && !Blank(Text(d, init[i])) && FieldName(init[i]) == j;
        assert fields[i] == init[i];
      }
      if !Blank(Text(d, last)) {
        assert FieldName(fields[n]) in Touched(d, fields);
      }
    }
  }

  lemma JsonFieldsDistinct()
    ensures Distinct(JsonFields)
  {
  }

  /** Every field that is neither blank nor parsable ends up with its message. */
  lemma EveryInvalidFieldReported(codec: Codec, errors: map<string, string>, d: FormData, f: JsonField)
    requires !FieldValid(codec, Text(d, f))
    ensures Lookup(ValidateFields(codec, errors, d, JsonFields).errors, FieldName(f)) ==
              Some("Invalid JSON: " + codec.parse(Text(d, f)).message)
  {
    JsonFieldsDistinct();
    VerdictsAfterValidation(codec, errors, d, JsonFields);
    assert JsonFields[Index(f)] == f;
  }

  /** A stale message survives: a field that was invalid and is now blank passes, and its old
      message stays in `jsonErrors`. */
  lemma BlankFieldKeepsStaleMessage(codec: Codec, errors: map<string, string>, d: FormData, f: JsonField)
    requires Blank(Text(d, f))
    ensures Lookup(ValidateFields(codec, errors, d, JsonFields).errors, FieldName(f)) == Lookup(errors, FieldName(f))
  {
    UntouchedKeysKept(codec, errors, d, JsonFields);
    if FieldName(f) in Touched(d, JsonFields) {
      var i :| 0 <= i < |JsonFields| && !Blank(Text(d, JsonFields[i])) && FieldName(JsonFields[i]) == FieldName(f);
      FieldNameInjective(JsonFields[i], f);
    }
  }

  // ---------------------------------------------------------------------------
  // The payload

  /** The update sent: the form data with each JSON field replaced by its document, or by
      `undefined` (here `None`). */
  datatype Payload = Payload(
    name: string, description: string, policyType: string, priority: int, isActive: bool, effect: string,
    subject: Option<Json>, resource: Option<Json>, action: Option<Json>, environment: Option<Json>,
    obligations: Option<Json>)

  function Condition(p: Payload, f: JsonField): Option<Json> {
    match f
    case SubjectConditions => p.subject
    case ResourceConditions => p.resource
    case ActionConditions => p.action
    case EnvironmentConditions => p.environment
    case Obligations => p.obligations
  }

  /** The conversion of one field; `Err` is the message `JSON.parse` throws. */
  type Conversion = Result<Option<Json>, string>

  /** `data.x ? JSON.parse(data.x) : undefined`: any non-empty text is parsed. */
  function ConvertAsWritten(codec: Codec, text: string): (c: Conversion)
    ensures text == "" ==> c == Ok(None)
    ensures text != "" ==> (c.Ok? <==> codec.parse(text).Parsed?)
    ensures text != "" && c.Ok? ==> c == Ok(Some(codec.parse(text).doc))
    ensures text != "" && c.Err? ==> c.error == codec.parse(text).message
  {
    if text == "" then Ok(None)
    else match codec.parse(text)
      case Parsed(doc) => Ok(Some(doc))
      case SyntaxError(message) => Err(message)
  }

  /** The conversion that agrees with `validateJson`: a blank text is `undefined`. */
  function Convert(codec: Codec, text: string): (c: Conversion)
    ensures c.Ok? <==> FieldValid(codec, text)
    ensures Blank(text) ==> c == Ok(None)
    ensures !Blank(text) && c.Ok? ==> c == Ok(Some(codec.parse(text).doc))
    ensures c.Err? ==> c.error == codec.parse(text).message
  {
    if Blank(text) then Ok(None)
    else match codec.parse(text)
      case Parsed(doc) => Ok(Some(doc))
      case SyntaxError(message) => Err(message)
  }

  /** The object literal, evaluated in source order: the first conversion that throws ends it. */
  function Assemble(d: FormData, cs: seq<Conversion>): (r: Result<Payload, string>)
    requires |cs| == |JsonFields|
    ensures r.Ok? <==> forall i :: 0 <= i < |cs| ==> cs[i].Ok?
    ensures r.Ok? ==> forall i :: 0 <= i < |cs| ==> Condition(r.value, JsonFields[i]) == cs[i].value
    ensures r.Ok? ==> r.value.name == d.name && r.value.description == d.description
                      && r.value.policyType == d.policyType && r.value.priority == d.priority
                      && r.value.isActive == d.isActive && r.value.effect == d.effect
    ensures forall i :: 0 <= i < |cs| && cs[i].Err? && (forall j :: 0 <= j < i ==> cs[j].Ok?) ==>
              r == Err(cs[i].error)
  {
    if cs[0].Err? then Err(cs[0].error)
    else if cs[1].Err? then Err(cs[1].error)
    else if cs[2].Err? then Err(cs[2].error)
    else if cs[3].Err? then Err(cs[3].error)
    else if cs[4].Err? then Err(cs[4].error)
    else Ok(Payload(d.name, d.description, d.policyType, d.priority, d.isActive, d.effect,
                    cs[0].value, cs[1].value, cs[2].value, cs[3].value, cs[4].value))
  }

  function ConversionsAsWritten(codec: Codec, d: FormData): seq<Conversion> {
    seq(|JsonFields|, i requires 0 <= i < |JsonFields| => ConvertAsWritten(codec, Text(d, JsonFields[i])))
  }

  function Conversions(codec: Codec, d: FormData): seq<Conversion> {
    seq(|JsonFields|, i requires 0 <= i < |JsonFields| => Convert(codec, Text(d, JsonFields[i])))
  }

  /** The payload as the handler builds it. */
  function BuildPayloadAsWritten(codec: Codec, d: FormData): Result<Payload, string> {
    Assemble(d, ConversionsAsWritten(codec, d))
  }

  /** The payload built with the same notion of "empty" as `validateJson`. */
  function BuildPayload(codec: Codec, d: FormData): Result<Payload, string> {
    Assemble(d, Conversions(codec, d))
  }

  /** `JSON.parse` throws on a text made only of whitespace. */
  ghost predicate RejectsBlank(codec: Codec) {
    forall s :: Blank(s) ==> codec.parse(s).SyntaxError?
  }

  /** As written, a field holding a single space passes validation and then makes the
      payload's `JSON.parse` throw, outside the handler's `try`. */
  lemma WhitespaceFieldThrowsAsWritten(codec: Codec, errors: map<string, string>)
    requires RejectsBlank(codec)
    ensures var d := FormData("p", "", "conditional", 100, true, "allow", " ", "", "", "", "");
            ValidateFields(codec, errors, d, JsonFields).ok && BuildPayloadAsWritten(codec, d).Err?
  {
    var d := FormData("p", "", "conditional", 100, true, "allow", " ", "", "", "", "");
    assert Blank(" ");
    OkIffEveryFieldValid(codec, errors, d, JsonFields);
    assert ConversionsAsWritten(codec, d)[0].Err?;
  }

  /** Whenever validation passes, the payload is built: each blank field is `undefined` and
      each other one is its parsed document. */
  lemma ValidatedFormBuildsPayload(codec: Codec, errors: map<string, string>, d: FormData)
    requires ValidateFields(codec, errors, d, JsonFields).ok
    ensures BuildPayload(codec, d).Ok?
    ensures forall f :: Condition(BuildPayload(codec, d).value, f) ==
                          if Blank(Text(d, f)) then None else Some(codec.parse(Text(d, f)).doc)
  {
    OkIffEveryFieldValid(codec, errors, d, JsonFields);
    var p := BuildPayload(codec, d).value;
    forall f ensures Condition(p, f) == if Blank(Text(d, f)) then None else Some(codec.parse(Text(d, f)).doc) {
      assert JsonFields[Index(f)] == f;
    }
  }

  /** The two payloads agree whenever no field is non-empty and blank. */
  lemma {:induction false} CorrectionOnlyAffectsWhitespaceFields(codec: Codec, d: FormData)
    requires forall f :: Text(d, f) == "" || !Blank(Text(d, f))
    ensures BuildPayload(codec, d) == BuildPayloadAsWritten(codec, d)
  {
    forall i | 0 <= i < |JsonFields|
      ensures Conversions(codec, d)[i] == ConversionsAsWritten(codec, d)[i]
    {
      var t := Text(d, JsonFields[i]);
    }
    assert Conversions(codec, d) == ConversionsAsWritten(codec, d);
  }

  /** As written, a validated form fails to build its payload only because of a field that
      is whitespace but not empty. */
  lemma ValidatedThrowsOnlyOnWhitespace(codec: Codec, errors: map<string, string>, d: FormData)
    requires ValidateFields(codec, errors, d, JsonFields).ok
    requires forall f :: Text(d, f) == "" || !Blank(Text(d, f))
    ensures BuildPayloadAsWritten(codec, d) == BuildPayload(codec, d)
    ensures BuildPayloadAsWritten(codec, d).Ok?
  {
    ValidatedFormBuildsPayload(codec, errors, d);
    CorrectionOnlyAffectsWhitespaceFields(codec, d);
  }

  // ---------------------------------------------------------------------------
  // The dialog

  datatype SubmitOutcome =
    | NoPolicy                              // no policy selected: nothing happens
    | Invalid                               // some field failed `validateJson`: nothing is sent
    | PayloadThrew(message: string)         // a `JSON.parse` in the payload threw: nothing is sent
    | UpdateSent(id: int, payload: Payload) // `updatePolicyMutation.mutateAsync({ id, data })`

  class EditPolicyDialog {
    var jsonErrors: map<string, string>

    constructor ()
      ensures jsonErrors == map[]
    {
      jsonErrors := map[];
    }

    /** `validateJson(text, name)` */
    method ValidateJson(codec: Codec, text: string, name: string) returns (ok: bool)
      modifies this
      ensures Validation(jsonErrors, ok) == ValidateJsonStep(codec, old(jsonErrors), text, name)
    {
      TrimEmptyIffBlank(text);
      if Trim(text) == "" {
        return true;
      }
      match codec.parse(text)
      case Parsed(_) =>
        jsonErrors := jsonErrors[name := ""];
        ok := true;
      case SyntaxError(message) =>
        jsonErrors := jsonErrors[name := "Invalid JSON: " + message];
        ok := false;
    }

    /** The submit handler's loop: `validateJson` on every JSON field in turn, remembering
        whether any failed. */
    method ValidateAll(codec: Codec, d: FormData) returns (ok: bool)
      modifies this
      ensures Validation(jsonErrors, ok) == ValidateFields(codec, old(jsonErrors), d, JsonFields)
    {
      var hasErrors := false;
      var i := 0;
      while i < |JsonFields|
        invariant 0 <= i <= |JsonFields|
        invariant jsonErrors == ValidateFields(codec, old(jsonErrors), d, JsonFields[..i]).errors
        invariant hasErrors == !ValidateFields(codec, old(jsonErrors), d, JsonFields[..i]).ok
      {
        var field := JsonFields[i];
        var fieldOk := ValidateJson(codec, Text(d, field), FieldName(field));
        if !fieldOk {
          hasErrors := true;
        }
        assert JsonFields[..i + 1][..i] == JsonFields[..i];
        i := i + 1;
      }
      assert JsonFields[..i] == JsonFields;
      ok := !hasErrors;
    }

    /** `onSubmit(data)` as written: nothing without a policy; otherwise every JSON field is
        validated, and if all passed the payload is built with `data.x ? JSON.parse(data.x) :
        undefined`. That parse runs before the `try`, so when it throws nothing is sent and
        the dialog stays open. `closes` is the `onOpenChange(false)` that follows a
        successful update (`updateSucceeded` is the server's answer); it goes to the parent
        directly, so `jsonErrors` is not cleared. */
    method Submit(codec: Codec, policyId: Option<int>, d: FormData, updateSucceeded: bool)
      returns (outcome: SubmitOutcome, closes: bool)
      modifies this
      ensures policyId.None? ==> outcome == NoPolicy && jsonErrors == old(jsonErrors)
      ensures policyId.Some? ==> jsonErrors == ValidateFields(codec, old(jsonErrors), d, JsonFields).errors
      ensures policyId.Some? && !ValidateFields(codec, old(jsonErrors), d, JsonFields).ok ==> outcome == Invalid
      ensures policyId.Some? && ValidateFields(codec, old(jsonErrors), d, JsonFields).ok ==>
                match BuildPayloadAsWritten(codec, d)
                case Err(message) => outcome == PayloadThrew(message)
                case Ok(payload) => outcome == UpdateSent(policyId.value, payload)
      ensures closes <==> outcome.UpdateSent? && updateSucceeded
    {
      if policyId.None? {
        return NoPolicy, false;
      }
      var ok := ValidateAll(codec, d);
      if !ok {
        return Invalid, false;
      }
      match BuildPayloadAsWritten(codec, d)
      case Err(message) =>
        return PayloadThrew(message), false;
      case Ok(payload) =>
        outcome := UpdateSent(policyId.value, payload);
        closes := updateSucceeded;
    }

    /** `onSubmit(data)` with the payload built as `validateJson` reads the fields (a blank
        field is `undefined`): every form that passes validation is sent. */
    method SubmitCorrected(codec: Codec, policyId: Option<int>, d: FormData, updateSucceeded: bool)
      returns (outcome: SubmitOutcome, closes: bool)
      modifies this
      ensures policyId.None? ==> outcome == NoPolicy && jsonErrors == old(jsonErrors)
      ensures policyId.Some? ==> jsonErrors == ValidateFields(codec, old(jsonErrors), d, JsonFields).errors
      ensures policyId.Some? && !ValidateFields(codec, old(jsonErrors), d, JsonFields).ok ==> outcome == Invalid
      ensures policyId.Some? && ValidateFields(codec, old(jsonErrors), d, JsonFields).ok ==>
                BuildPayload(codec, d).Ok? && outcome == UpdateSent(policyId.value, BuildPayload(codec, d).value)
      ensures !outcome.PayloadThrew?
      ensures closes <==> outcome.UpdateSent? && updateSucceeded
    {
      if policyId.None? {
        return NoPolicy, false;
      }
      var ok := ValidateAll(codec, d);
      if !ok {
        return Invalid, false;
      }
      ValidatedFormBuildsPayload(codec, old(jsonErrors), d);
      outcome := UpdateSent(policyId.value, BuildPayload(codec, d).value);
      closes := updateSucceeded;
    }

    /** `handleOpenChange(open)`: closing clears every message; the value is passed on. */
    method HandleOpenChange(open: bool) returns (notified: bool)
      modifies this
      ensures notified == open
      ensures !open ==> jsonErrors == map[]
      ensures open ==> jsonErrors == old(jsonErrors)
    {
      if !open {
        jsonErrors := map[];
      }
      notified := open;
    }
  }
}
