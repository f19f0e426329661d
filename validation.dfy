/**
 * The route-parameter and body validators that wrap a route handler. Each
 * decides, before the handler runs, whether to send an error response or to
 * run the handler once with the same request. Regular expressions are
 * written as character-class predicates; the schema library that checks a
 * body is a parameter.
 */
module Validation {
  import opened Wrappers
  import opened Values
  import opened Restify

  /** How a synchronous JavaScript call ends: with a value, or by throwing. */
  datatype Completion = Normal(value: Value) | Abrupt(error: Error)

  /** `[a-z0-9\-_]` under the case-insensitive flag. */
  predicate IsAlphanumericChar(ch: char)
  {
    ('a' <= ch <= 'z') || ('A' <= ch <= 'Z') || ('0' <= ch <= '9') || ch == '-' || ch == '_'
  }

  /** `\d`. */
  predicate IsDigit(ch: char)
  {
    '0' <= ch <= '9'
  }

  /** `/^[a-z0-9\-_]+$/i` matches the whole string. */
  predicate MatchesAlphanumeric(s: string)
  {
    |s| > 0 && forall i :: 0 <= i < |s| ==> IsAlphanumericChar(s[i])
  }

  /** `/^\d+$/` matches the whole string. */
  predicate MatchesNumeric(s: string)
  {
    |s| > 0 && forall i :: 0 <= i < |s| ==> IsDigit(s[i])
  }

  /**
   * `params[field]` when it is a string. None when reading it throws (params
   * null or undefined) or when the value has no `match` method (anything
   * that is not a string, a missing field among them).
   */
  function FieldText(params: Value, field: string): (t: Option<string>)
    ensures t.Some? <==> params.Obj? && field in params.fields && params.fields[field].Str?
    ensures t.Some? ==> params.fields[field] == Str(t.value)
  {
    if params.Obj? && field in params.fields && params.fields[field].Str? then Some(params.fields[field].s) else None
  }

  /** The validation function isAlphanumeric builds: `params[field].match(...) !== null`. */
  function AlphanumericCheck(field: string): (check: Value -> Completion)
    ensures forall params :: check(params).Abrupt? <==> FieldText(params, field).None?
    ensures forall params :: check(params).Abrupt? ==> check(params).error == TypeError
    ensures forall params :: check(params).Normal? ==> check(params).value.Bool?
    ensures forall params :: check(params) == Normal(Bool(false)) <==>
      FieldText(params, field).Some? && !MatchesAlphanumeric(FieldText(params, field).value)
  {
    params =>
      var t := FieldText(params, field);
      if t.Some? then Normal(Bool(MatchesAlphanumeric(t.value))) else Abrupt(TypeError)
  }

  /** The validation function isNumeric builds: `params[field].match(...) !== null`. */
  function NumericCheck(field: string): (check: Value -> Completion)
    ensures forall params :: check(params).Abrupt? <==> FieldText(params, field).None?
    ensures forall params :: check(params).Abrupt? ==> check(params).error == TypeError
    ensures forall params :: check(params).Normal? ==> check(params).value.Bool?
    ensures forall params :: check(params) == Normal(Bool(false)) <==>
      FieldText(params, field).Some? && !MatchesNumeric(FieldText(params, field).value)
  {
    params =>
      var t := FieldText(params, field);
      if t.Some? then Normal(Bool(MatchesNumeric(t.value))) else Abrupt(TypeError)
  }

  function AlphanumericMessage(field: string): Error
  {
    NotAcceptable("The " + field + " must be alphanumeric")
  }

  function NumericMessage(field: string): Error
  {
    NotAcceptable("The " + field + " must be numeric")
  }

  /**
   * The wrapper paramValidation installs: only a validation result that is
   * exactly `false` sends the message; any other result runs the handler;
   * an exception from the validation escapes.
   */
  function ParamValidation(validation: Value -> Completion, message: Error, params: Value): (e: Effect)
    ensures e == Respond(message) <==> validation(params) == Normal(Bool(false))
    ensures e == Proceed <==> validation(params).Normal? && validation(params).value != Bool(false)
    ensures validation(params).Abrupt? ==> e == Throw(validation(params).error)
  {
    match validation(params)
    case Abrupt(err) => Throw(err)
    case Normal(v) => if v == Bool(false) then Respond(message) else Proceed
  }

  function IsAlphanumeric(field: string, params: Value): (e: Effect)
    ensures e == Proceed <==> FieldText(params, field).Some? && MatchesAlphanumeric(FieldText(params, field).value)
    ensures e == Respond(AlphanumericMessage(field)) <==>
      FieldText(params, field).Some? && !MatchesAlphanumeric(FieldText(params, field).value)
    ensures e == Throw(TypeError) <==> FieldText(params, field).None?
  {
    ParamValidation(AlphanumericCheck(field), AlphanumericMessage(field), params)
  }

  function IsNumeric(field: string, params: Value): (e: Effect)
    ensures e == Proceed <==> FieldText(params, field).Some? && MatchesNumeric(FieldText(params, field).value)
    ensures e == Respond(NumericMessage(field)) <==>
      FieldText(params, field).Some? && !MatchesNumeric(FieldText(params, field).value)
    ensures e == Throw(TypeError) <==> FieldText(params, field).None?
  {
    ParamValidation(NumericCheck(field), NumericMessage(field), params)
  }

  /**
   * The wrapper validateBodyWithSchema installs. `schema` stands for the
   * schema library: None when the params satisfy the schema, otherwise the
   * message of the first error detail. Only params that are exactly `false`
   * are refused before the schema is consulted.
   */
  function ValidateBodyWithSchema(schema: Value -> Option<string>, params: Value): (e: Effect)
    ensures params == Bool(false) ==> e == Respond(NotAcceptable("Body params can't be undefined"))
    ensures params != Bool(false) && schema(params).Some? ==> e == Respond(UnprocessableEntity(schema(params).value))
    ensures e == Proceed <==> params != Bool(false) && schema(params).None?
  {
    if params == Bool(false) then Respond(NotAcceptable("Body params can't be undefined"))
    else
      match schema(params)
      case Some(msg) => Respond(UnprocessableEntity(msg))
      case None => Proceed
  }

  /** Every numeric value is also alphanumeric. */
  lemma NumericIsAlphanumeric(s: string)
    requires MatchesNumeric(s)
    ensures MatchesAlphanumeric(s)
  {
  }

  /** A parameter that passes isNumeric passes isAlphanumeric. */
  lemma NumericFieldPassesAlphanumeric(field: string, params: Value)
    requires IsNumeric(field, params) == Proceed
    ensures IsAlphanumeric(field, params) == Proceed
  {
  }

  /** The empty string passes neither validator. */
  lemma EmptyFieldRejected(field: string, params: Value)
    requires FieldText(params, field) == Some("")
    ensures IsAlphanumeric(field, params) == Respond(AlphanumericMessage(field))
    ensures IsNumeric(field, params) == Respond(NumericMessage(field))
  {
  }

  /** Body params that are undefined are not refused by the `false` test: they go to the schema. */
  lemma UndefinedBodyReachesSchema(schema: Value -> Option<string>)
    requires schema(Undefined).None?
    ensures ValidateBodyWithSchema(schema, Undefined) == Proceed
  {
  }
}
