/** The `Variable` declaration of the newer snapshot (src/sed_tooling/sed_model/variable.py). */
module Variable {
  import opened Outcomes
  import opened Patterns
  import opened FieldChecks
  import Pydantic

  datatype Variable = Variable(name: string, identifier: string, typeName: string)

  /** The fields as pydantic sees them when the record is built. */
  const FIELDS: seq<Pydantic.Field> := [
    Pydantic.Field("name", Pydantic.StrField, Pydantic.Required),
    Pydantic.Field("identifier", Pydantic.StrField, Pydantic.Required),
    Pydantic.Field("type", Pydantic.StrField, Pydantic.Required)
  ]

  /** `legal_id` (prefix match with `re`) and `type_must_be_properly_formed`: as for
      constants, the type check raises `re.error` for every record. */
  function Validate(v: Variable): (r: Result<Variable>)
    ensures r == Err(PatternError(TYPE_PATTERN))
  {
    var outcomes := [
      MatchIdentifier("identifier", v.identifier),
      StdlibType(false, "", "type", v.typeName)];
    assert "" + TYPE_PATTERN == TYPE_PATTERN;
    assert outcomes[1] == Err(PatternError(TYPE_PATTERN));
    match Settle(outcomes)
    case Err(e) => Err(e)
    case Ok(_) => Ok(v)
  }
}
