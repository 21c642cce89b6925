/** The `Load` action of the newer snapshot (src/sed_tooling/sed_model/load_action.py): it
    reads a dependency into a target. Its validators replace those of `Action` and, like
    them, are never registered with pydantic. */
module LoadAction {
  import opened Outcomes
  import opened Patterns
  import opened FieldChecks
  import opened PyValues
  import Pydantic

  datatype Load = Load(name: string, identifier: string, typeName: string, source: string, target: string)

  const FIELDS: seq<Pydantic.Field> := [
    Pydantic.Field("name", Pydantic.StrField, Pydantic.Required),
    Pydantic.Field("identifier", Pydantic.StrField, Pydantic.Required),
    Pydantic.Field("type", Pydantic.StrField, Pydantic.Required),
    Pydantic.Field("source", Pydantic.StrField, Pydantic.Required),
    Pydantic.Field("target", Pydantic.StrField, Pydantic.Required)
  ]

  /** The keyword arguments that spell out a record. */
  function Kwargs(l: Load): seq<(string, PyValue)> {
    [("name", PyStr(l.name)), ("identifier", PyStr(l.identifier)), ("type", PyStr(l.typeName)),
     ("source", PyStr(l.source)), ("target", PyStr(l.target))]
  }

  /** `legal_id`, `type_must_be_properly_formed` and `validate_source_and_target` in field
      order. The type check hands the recursive pattern to `re`, so `re.error` escapes for
      every record. */
  function Validate(l: Load): (r: Result<Load>)
    ensures r == Err(PatternError(TYPE_PATTERN))
  {
    var outcomes := [
      MatchIdentifier("identifier", l.identifier),
      StdlibType(false, "", "type", l.typeName),
      MatchSegmentReference("source", l.source),
      MatchSegmentReference("target", l.target)];
    assert "" + TYPE_PATTERN == TYPE_PATTERN;
    assert outcomes[1] == Err(PatternError(TYPE_PATTERN));
    match Settle(outcomes)
    case Err(e) => Err(e)
    case Ok(_) => Ok(l)
  }

  /** The source and target check only looks at the first two characters: `"#a!"` passes,
      while the bare dependency identifier `"dep_m1"` that the converter hands over as the
      source fails. */
  lemma SourceExamples()
    ensures MatchSegmentReference("source", "#a!") == Ok("#a!")
    ensures MatchSegmentReference("source", "dep_m1") == Err(AssertionError("source"))
  {
  }

  /** Building a load keeps whatever strings it is given: its validators are never
      registered, so even a source they would reject is stored. */
  lemma BuildSkipsValidators(l: Load)
    ensures Pydantic.Build(FIELDS, Kwargs(l)).Ok?
  {
    Pydantic.AlignedSupplied(FIELDS, Kwargs(l));
    Pydantic.TextFieldsAccepted(FIELDS, Kwargs(l));
  }
}
