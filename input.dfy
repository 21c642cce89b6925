/** The `Input` record of the newer snapshot (src/sed_tooling/sed_model/input.py): a value
    fed into the experiment, given as a number or as a reference to another element. Its
    validators use the `regex` module, so all three can pass. */
module Input {
  import opened Outcomes
  import opened PyText
  import opened PyNumbers
  import opened PyValues
  import opened Patterns
  import opened FieldChecks
  import Pydantic

  datatype Input = Input(name: string, identifier: string, typeName: string, target: string)

  /** The fields as pydantic sees them when the record is built. */
  const FIELDS: seq<Pydantic.Field> := [
    Pydantic.Field("name", Pydantic.StrField, Pydantic.Required),
    Pydantic.Field("identifier", Pydantic.StrField, Pydantic.Required),
    Pydantic.Field("type", Pydantic.StrField, Pydantic.Required),
    Pydantic.Field("target", Pydantic.StrField, Pydantic.Required)
  ]

  /** `validate_interval_with_reference`. A float or int (a bool counts as an int) becomes
      the text of its float; a string starting with `#` must be a whole reference; any
      other string must be read by `float()` and is kept as it is; anything else has no
      `startswith`. */
  function Target(v: PyValue): (r: Result<string>)
    ensures v.PyFloat? ==> r == Ok(v.f)
    ensures v.PyInt? ==> r == Ok(FloatOfInt(v.i))
    ensures v.PyBool? ==> r == Ok(FloatOfInt(if v.b then 1 else 0))
    ensures v.PyStr? && |v.s| > 0 && v.s[0] == '#' ==>
              (r.Ok? <==> IsReference(v.s)) && (r.Err? ==> r.error == AssertionError("target"))
    ensures v.PyStr? && !(|v.s| > 0 && v.s[0] == '#') ==>
              (r.Ok? <==> ParsesAsFloat(v.s)) && (r.Err? ==> r.error == ValueError(v.s))
    ensures v.PyStr? && r.Ok? ==> r.value == v.s
    ensures v.PyNone? || v.PyList? || v.PyDict? ==> r == Err(AttributeError("startswith"))
  {
    match v
    case PyFloat(f) => Ok(f)
    case PyInt(i) => Ok(FloatOfInt(i))
    case PyBool(b) => Ok(FloatOfInt(if b then 1 else 0))
    case PyStr(s) =>
      if |s| > 0 && s[0] == '#' then
        ReferenceChars(s);
        FullmatchReference(RegexModule, "target", s)
      else if ParsesAsFloat(s) then Ok(s)
      else Err(ValueError(s))
    case _ => Err(AttributeError("startswith"))
  }

  /** The three validators in field order. A record passes exactly when its identifier
      and type fit and its target is a reference or a number, and it is then kept as it
      is; otherwise the first field that does not fit is reported. */
  function Validate(x: Input): (r: Result<Input>)
    ensures r.Ok? <==> IsIdentifier(x.identifier) && IsType(x.typeName) && Target(PyStr(x.target)).Ok?
    ensures r.Ok? ==> r.value == x
    ensures !IsIdentifier(x.identifier) ==> r == Err(AssertionError("identifier"))
    ensures IsIdentifier(x.identifier) && !IsType(x.typeName) ==> r == Err(AssertionError("type"))
    ensures IsIdentifier(x.identifier) && IsType(x.typeName) ==>
              r.Err? ==> Target(PyStr(x.target)) == Err(r.error)
  {
    var outcomes := [
      FullmatchIdentifier(RegexModule, "identifier", x.identifier),
      RegexType(Generic, TYPE_PATTERN, "type", x.typeName),
      Target(PyStr(x.target))];
    SettleThree(outcomes[0], outcomes[1], outcomes[2]);
    match Settle(outcomes)
    case Err(e) => Err(e)
    case Ok(_) => Ok(x)
  }

  /** Validating a target again gives the same text: what the validator returns is a
      reference or the text of a float, never something it would change or reject. */
  lemma TargetIdempotent(v: PyValue)
    requires Target(v).Ok?
    requires v.PyFloat? ==> IsFloatText(v.f)
    ensures Target(PyStr(Target(v).value)) == Target(v)
  {
    match v
    case PyFloat(f) => FloatTextKept(f);
    case PyInt(i) => IntegerKept(i);
    case PyBool(b) => IntegerKept(if b then 1 else 0);
    case PyStr(s) =>
  }

  lemma IntegerKept(n: int)
    ensures Target(PyStr(FloatOfInt(n))) == Ok(FloatOfInt(n))
  {
    FloatOfIntIsFloat(n);
    FloatTextKept(FloatOfInt(n));
  }

  lemma FloatTextKept(f: string)
    requires IsFloatText(f)
    ensures Target(PyStr(f)) == Ok(f)
  {
    FloatTextNotReference(f);
    NumberKept(f);
  }

  lemma NumberKept(s: string)
    requires ParsesAsFloat(s) && |s| > 0 && s[0] != '#'
    ensures Target(PyStr(s)) == Ok(s)
  {
  }

  /** A number in text is kept as written. */
  lemma NumberTextKept()
    ensures Target(PyStr("12")) == Ok("12")
  {
    assert AllDigits("12");
    DigitsText("12");
  }

  /** A word is neither a reference nor a number. */
  lemma WordRejected()
    ensures Target(PyStr("target1")) == Err(ValueError("target1"))
  {
    NotNumberStart("target1");
  }

  /** The test document's target is a reference. */
  lemma ReferenceAccepted()
    ensures Target(PyStr("#target1")) == Ok("#target1")
  {
    assert "#target1"[1..] == "target1";
    assert IsIdentifier("target1");
  }

  /** The integer 1 becomes "1.0". */
  lemma IntegerBecomesFloatText()
    ensures Target(PyInt(1)) == Ok("1.0")
  {
    assert DigitChar(1) == '1';
    assert IntText(1) == "1";
    assert FloatOfInt(1) == "1" + ".0" == "1.0";
  }
}
