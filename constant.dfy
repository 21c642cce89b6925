/** The `Constant` declaration of the newer snapshot (src/sed_tooling/sed_model/constant.py).
    Like every record there, its validators are never registered with pydantic. */
module Constant {
  import opened Outcomes
  import opened Patterns
  import opened FieldChecks
  import Pydantic

  /** `value` has no validator of its own. */
  datatype Constant = Constant(name: string, identifier: string, typeName: string, value: string)

  /** The fields as pydantic sees them when the record is built. */
  const FIELDS: seq<Pydantic.Field> := [
    Pydantic.Field("name", Pydantic.StrField, Pydantic.Required),
    Pydantic.Field("identifier", Pydantic.StrField, Pydantic.Required),
    Pydantic.Field("type", Pydantic.StrField, Pydantic.Required),
    Pydantic.Field("value", Pydantic.StrField, Pydantic.Required)
  ]

  /** `legal_id` (prefix match with `re`) and `type_must_be_properly_formed` (prefix match
      of the recursive pattern with `re`): the type check raises `re.error` whatever the
      record holds. */
  function Validate(c: Constant): (r: Result<Constant>)
    ensures r == Err(PatternError(TYPE_PATTERN))
  {
    var outcomes := [
      MatchIdentifier("identifier", c.identifier),
      StdlibType(false, "", "type", c.typeName)];
    assert "" + TYPE_PATTERN == TYPE_PATTERN;
    assert outcomes[1] == Err(PatternError(TYPE_PATTERN));
    match Settle(outcomes)
    case Err(e) => Err(e)
    case Ok(_) => Ok(c)
  }
}
