/** The `Output` record of the newer snapshot (src/sed_tooling/sed_model/output.py): what the
    experiment writes out and at which interval. */
module Output {
  import opened Outcomes
  import opened PyText
  import opened PyNumbers
  import opened PyValues
  import opened Patterns
  import opened FieldChecks
  import Pydantic

  /** `interval` is annotated `Union[float, str]`. */
  datatype Output = Output(name: string, identifier: string, typeName: string, interval: PyValue)

  /** The fields as pydantic sees them when the record is built. */
  const FIELDS: seq<Pydantic.Field> := [
    Pydantic.Field("name", Pydantic.StrField, Pydantic.Required),
    Pydantic.Field("identifier", Pydantic.StrField, Pydantic.Required),
    Pydantic.Field("type", Pydantic.StrField, Pydantic.Required),
    Pydantic.Field("interval", Pydantic.FloatOrStrField, Pydantic.Required)
  ]

  /** `validate_interval_with_reference`. A float becomes its text; a string starting with
      `#` must continue with an identifier character and is kept; any other string must
      be read by `float()` and is kept as written; an int has no `startswith`. */
  function Interval(v: PyValue): (r: Result<string>)
    ensures v.PyFloat? ==> r == Ok(v.f)
    ensures v.PyStr? && |v.s| > 0 && v.s[0] == '#' ==>
              (r.Ok? <==> |v.s| >= 2 && IsIdentChar(v.s[1])) && (r.Err? ==> r.error == AssertionError("interval"))
    ensures v.PyStr? && !(|v.s| > 0 && v.s[0] == '#') ==>
              (r.Ok? <==> ParsesAsFloat(v.s)) && (r.Err? ==> r.error == ValueError(v.s))
    ensures v.PyStr? && r.Ok? ==> r.value == v.s
    ensures !v.PyFloat? && !v.PyStr? ==> r == Err(AttributeError("startswith"))
  {
    match v
    case PyFloat(f) => Ok(f)
    case PyStr(s) =>
      if |s| > 0 && s[0] == '#' then MatchReference("interval", s)
      else if ParsesAsFloat(s) then Ok(s)
      else Err(ValueError(s))
    case _ => Err(AttributeError("startswith"))
  }

  /** `legal_id`, `type_must_be_properly_formed` and the interval check in field order:
      the type pattern reaches `re`, whose `re.error` escapes for every record. */
  function Validate(o: Output): (r: Result<Output>)
    ensures r == Err(PatternError(TYPE_PATTERN))
  {
    var id := MatchIdentifier("identifier", o.identifier);
    var ty := StdlibType(false, "", "type", o.typeName);
    assert "" + TYPE_PATTERN == TYPE_PATTERN;
    TypeCheckEscapes(id, ty, [Interval(o.interval)]);
    match Settle([id, ty] + [Interval(o.interval)])
    case Err(e) => Err(e)
    case Ok(_) => Ok(o)
  }

  /** The text of a float, checked again as a string, is kept unchanged. */
  lemma IntervalIdempotent(v: PyValue)
    requires Interval(v).Ok?
    requires v.PyFloat? ==> IsFloatText(v.f)
    ensures Interval(PyStr(Interval(v).value)) == Interval(v)
  {
    if v.PyFloat? {
      FloatTextKept(v.f);
    }
  }

  lemma FloatTextKept(f: string)
    requires IsFloatText(f)
    ensures Interval(PyStr(f)) == Ok(f)
  {
    FloatTextNotReference(f);
    NumberKept(f);
  }

  lemma NumberKept(s: string)
    requires ParsesAsFloat(s) && |s| > 0 && s[0] != '#'
    ensures Interval(PyStr(s)) == Ok(s)
  {
  }

  /** An int interval is not converted: the validator calls `startswith` on it. */
  lemma IntervalExamples()
    ensures Interval(PyInt(1)) == Err(AttributeError("startswith"))
    ensures Interval(PyStr("#a!")) == Ok("#a!")
    ensures Interval(PyStr("#")).Err?
  {
  }
}
