/** The `Dependency` record of the newer snapshot (src/sed_tooling/sed_model/dependency.py).
    Its validators use the third-party `regex` module, so the recursive type pattern
    compiles and every check can pass. */
module Dependency {
  import opened Outcomes
  import opened PyValues
  import opened Patterns
  import opened FieldChecks
  import Pydantic

  datatype Dependency = Dependency(name: string, identifier: string, typeName: string, source: string)

  const FIELDS: seq<Pydantic.Field> := [
    Pydantic.Field("name", Pydantic.StrField, Pydantic.Required),
    Pydantic.Field("identifier", Pydantic.StrField, Pydantic.Required),
    Pydantic.Field("type", Pydantic.StrField, Pydantic.Required),
    Pydantic.Field("source", Pydantic.StrField, Pydantic.Required)
  ]

  function Kwargs(d: Dependency): seq<(string, PyValue)> {
    [("name", PyStr(d.name)), ("identifier", PyStr(d.identifier)), ("type", PyStr(d.typeName)),
     ("source", PyStr(d.source))]
  }

  /** `legal_source`: the whole source is a non-empty run of letters, digits, `_`, `/`
      and `-`. */
  function LegalSource(v: string): (r: Result<string>)
    ensures r.Ok? <==> IsSource(v)
    ensures r.Ok? <==> |v| > 0 && forall i :: 0 <= i < |v| ==> IsSourceChar(v[i])
    ensures r.Ok? ==> r.value == v
    ensures r.Err? ==> r.error == AssertionError("source")
  {
    NoParenNoRecursion(SOURCE_PATTERN);
    FullCheck(RegexModule, SOURCE_PATTERN, IsSource, "source", v)
  }

  /** The three validators in field order. A record passes exactly when its identifier,
      type and source all fit, and then it is kept as it is; otherwise the first field
      that does not fit is reported. */
  function Validate(d: Dependency): (r: Result<Dependency>)
    ensures r.Ok? <==> IsIdentifier(d.identifier) && IsType(d.typeName) && IsSource(d.source)
    ensures r.Ok? ==> r.value == d
    ensures !IsIdentifier(d.identifier) ==> r == Err(AssertionError("identifier"))
    ensures IsIdentifier(d.identifier) && !IsType(d.typeName) ==> r == Err(AssertionError("type"))
    ensures IsIdentifier(d.identifier) && IsType(d.typeName) && !IsSource(d.source) ==>
              r == Err(AssertionError("source"))
  {
    var outcomes := [
      FullmatchIdentifier(RegexModule, "identifier", d.identifier),
      RegexType(Generic, TYPE_PATTERN, "type", d.typeName),
      LegalSource(d.source)];
    SettleThree(outcomes[0], outcomes[1], outcomes[2]);
    match Settle(outcomes)
    case Err(e) => Err(e)
    case Ok(_) => Ok(d)
  }

  /** The record of the test document passes; a file name with a dot does not. */
  lemma Examples()
    ensures Validate(Dependency("depname", "depid", "org1::mytype", "mysource")).Ok?
    ensures Validate(Dependency("depname", "depid", "org1::mytype", "model.xml"))
              == Err(AssertionError("source"))
  {
    QualifiedTypeAccepted();
    assert IsIdentifier("depid") && IsSource("mysource");
    assert !IsSourceChar("model.xml"[5]);
  }

  /** Building a dependency keeps whatever strings it is given, even a source its
      validator would reject. */
  lemma BuildSkipsValidators(d: Dependency)
    ensures Pydantic.Build(FIELDS, Kwargs(d)).Ok?
  {
    Pydantic.AlignedSupplied(FIELDS, Kwargs(d));
    Pydantic.TextFieldsAccepted(FIELDS, Kwargs(d));
  }
}
