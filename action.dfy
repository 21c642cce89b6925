/** The `Action` record of the newer snapshot (src/sed_tooling/sed_model/action.py). Its two
    validators are stacked under `@classmethod`, so pydantic never registers them: building
    an action only checks that each field is a string. `Validate` states what running the
    validators on a record would give. */
module Action {
  import opened Outcomes
  import opened PyValues
  import opened Patterns
  import opened FieldChecks
  import Pydantic

  datatype Action = Action(name: string, identifier: string, typeName: string)

  const FIELDS: seq<Pydantic.Field> := [
    Pydantic.Field("name", Pydantic.StrField, Pydantic.Required),
    Pydantic.Field("identifier", Pydantic.StrField, Pydantic.Required),
    Pydantic.Field("type", Pydantic.StrField, Pydantic.Required)
  ]

  /** The keyword arguments that spell out a record. */
  function Kwargs(a: Action): seq<(string, PyValue)> {
    [("name", PyStr(a.name)), ("identifier", PyStr(a.identifier)), ("type", PyStr(a.typeName))]
  }

  /** `legal_id` (whole-string match with `re`) and then `type_must_be_properly_formed`,
      which hands the recursive type pattern to `re`: its `re.error` escapes whatever the
      identifier, so no record passes. */
  function Validate(a: Action): (r: Result<Action>)
    ensures r == Err(PatternError(TYPE_PATTERN))
  {
    var outcomes := [
      FullmatchIdentifier(Stdlib, "identifier", a.identifier),
      StdlibType(true, "", "type", a.typeName)];
    assert "" + TYPE_PATTERN == TYPE_PATTERN;
    assert outcomes[1] == Err(PatternError(TYPE_PATTERN));
    match Settle(outcomes)
    case Err(e) => Err(e)
    case Ok(_) => Ok(a)
  }

  /** Building succeeds for every record, even one its validators would reject. */
  lemma BuildSkipsValidators(a: Action)
    ensures Pydantic.Build(FIELDS, Kwargs(a)).Ok?
  {
    Pydantic.AlignedSupplied(FIELDS, Kwargs(a));
    Pydantic.TextFieldsAccepted(FIELDS, Kwargs(a));
  }
}
